/** What the registry invariant is for. */
module RegistryProperties {
  import opened Basics
  import opened Decimal
  import opened Keys
  import opened RedisModel
  import opened Registry

  /** Every live hash can be read. */
  lemma LookupReads(s: Store, t: string, i: string, ttl: nat)
    requires Inv(s, ttl)
    ensures Lookup(s, t, i).Ok? <==> Agent(t, i) in s.keys
    ensures Lookup(s, t, i).Ok? ==> Lookup(s, t, i).value.Key() == Agent(t, i)
  {
    assert AgentOk(s, ttl, t, i);
  }

  /** The type index holds every live agent of the type, so listing through it is a full scan:
      the listing cannot fail, and it leaves exactly the live ids in the index. */
  lemma ListAgreesWithScan(s: Store, t: string, ttl: nat)
    requires Inv(s, ttl)
    ensures Scan(s, t) * s.SMembers(AgentsByType(t)) == Scan(s, t)
    ensures forall i <- Scan(s, t) :: Lookup(s, t, i).Ok?
    ensures Prune(s, t).SMembers(AgentsByType(t)) == Scan(s, t)
    ensures Scan(Prune(s, t), t) == Scan(s, t)
  {
    forall i | i in Scan(s, t) ensures i in s.SMembers(AgentsByType(t)) && Lookup(s, t, i).Ok? {
      assert AgentOk(s, ttl, t, i);
      LookupReads(s, t, i, ttl);
    }
    var k := AgentsByType(t);
    assert s.SMembers(k) - (s.SMembers(k) - Scan(s, t)) == Scan(s, t);
    forall i ensures i in Scan(Prune(s, t), t) <==> i in Scan(s, t) {
      assert Prune(s, t).At(Agent(t, i)) == s.At(Agent(t, i));
      assert i in Scan(s, t) <==> Agent(t, i) in s.keys;
      assert i in Scan(Prune(s, t), t) <==> Agent(t, i) in Prune(s, t).keys;
    }
  }

  /** Each live agent is in the index of the gateway it names, which is leased at least as long. */
  lemma GatewayIndexOutlivesAgents(s: Store, t: string, i: string, ttl: nat)
    requires Inv(s, ttl) && Agent(t, i) in s.keys
    ensures var g := GatewayAgents(GatewayOf(s, t, i));
      && GatewayOf(s, t, i) != ""
      && Compose(t, i) in s.SMembers(g)
      && DeadlineOf(s, g).Some? && DeadlineOf(s, Agent(t, i)).Some?
      && DeadlineOf(s, Agent(t, i)).value <= DeadlineOf(s, g).value
  {
    assert AgentOk(s, ttl, t, i);
  }

  /** Hence unregistering a gateway leaves no live agent on it, counts every member it read, and
      leaves alone every agent its index did not list. */
  lemma UnregisterByGatewayComplete(s: Store, g: string, ttl: nat)
    requires Inv(s, ttl)
    ensures var s' := UnregisterByGateway(s, g); var ms := s.SMembers(GatewayAgents(g));
      && (forall t, i :: Agent(t, i) in s'.keys ==> GatewayOf(s', t, i) != g)
      && GatewayAgents(g) !in s'.keys
      && (set m | m in ms && !ColonFree(m)) == ms
      && (forall t, i :: Compose(t, i) !in ms ==> s'.At(Agent(t, i)) == s.At(Agent(t, i)))
      && (forall t, i :: Compose(t, i) in ms ==> Agent(t, i) !in s'.keys && i !in s'.SMembers(AgentsByType(t)))
  {
    var s', ms := UnregisterByGateway(s, g), s.SMembers(GatewayAgents(g));
    assert IndexOk(s, ttl, GatewayAgents(g));
    forall t, i | Agent(t, i) in s'.keys ensures GatewayOf(s', t, i) != g {
      assert s'.At(Agent(t, i)) == s.At(Agent(t, i));
      GatewayIndexOutlivesAgents(s, t, i, ttl);
    }
    forall t, i | Compose(t, i) in ms ensures i !in s'.SMembers(AgentsByType(t)) {
      assert IndexOk(s, ttl, AgentsByType(t));
      if AgentsByType(t) in s.keys && s.keys[AgentsByType(t)].SetEntry? {
        assert i !in IDsWithout(s.keys[AgentsByType(t)].members, t, ms);
      }
    }
  }

  /** A lease is the last beat plus the ttl, so a stored heartbeat is never older than the lease,
      give or take the second its storage in whole seconds loses. */
  lemma LookupIsFresh(s: Store, t: string, i: string, ttl: nat)
    requires Inv(s, ttl) && Agent(t, i) in s.keys
    ensures Lookup(s, t, i).Ok?
    ensures var beat := Lookup(s, t, i).value.lastHeartbeat;
      && 1000 * beat <= s.now < 1000 * beat + ttl + 1000
      && DeadlineOf(s, Agent(t, i)).Some?
      && DeadlineOf(s, Agent(t, i)).value - ttl - 1000 < 1000 * beat <= DeadlineOf(s, Agent(t, i)).value - ttl
  {
    assert AgentOk(s, ttl, t, i);
    var e := s.keys[Agent(t, i)];
    assert Fits(Agent(t, i), e, s.now);
    ParseFormat((e.deadline.value - ttl) / 1000);
  }

  // ----- What a lookup then sees -----

  lemma FreshFields(s: Store, info: AgentInfo, have: Fields)
    requires s.now <= MAX_TIME
    ensures ParseAgentInfo(info.id, have + AgentFields(s, info))
            == Ok(info.(lastHeartbeat := s.now / 1000, connectedAt := s.now / 1000, activeSessions := 0))
  {
    ParseFormat(s.now / 1000);
    ParseFormat(0);
    assert FormatInt(0) == "0";
    hide FormatInt, ParseInt;
  }

  /** What is registered is what is read: the given identity, both times now, no sessions; and every
      other agent reads as before. */
  lemma RegisteredReads(s: Store, info: AgentInfo, ttl: nat, t: string, i: string)
    requires s.now <= MAX_TIME && ttl > 0
    ensures Lookup(PutAgent(s, info, ttl), t, i) ==
              if Agent(t, i) == info.Key() then
                Ok(info.(lastHeartbeat := s.now / 1000, connectedAt := s.now / 1000, activeSessions := 0))
              else Lookup(s, t, i)
  {
    PutAgentAt(s, info, ttl, Agent(t, i));
    FreshFields(s, info, s.HGetAll(Agent(t, i)));
    hide PutAgent, ParseAgentInfo, AgentFields;
  }

  /** A beat changes the heartbeat that is read, and nothing else of any agent. */
  lemma BeatReads(s: Store, t: string, i: string, ttl: nat, t': string, i': string)
    requires WellKinded(s) && ttl > 0 && Lookup(s, t, i).Ok?
    ensures Lookup(UpdateHeartbeat(s, t, i, ttl), t', i') ==
              if Agent(t', i') == Agent(t, i) then Ok(Lookup(s, t, i).value.(lastHeartbeat := s.now / 1000))
              else Lookup(s, t', i')
  {
    HeartbeatAt(s, t, i, ttl, Agent(t', i'));
    ParseFormat(s.now / 1000);
    hide UpdateHeartbeat, FormatInt, ParseInt;
  }

  lemma Counted(s: Store, t: string, i: string, n: int)
    requires WellKinded(s) && Lookup(s, t, i).Ok?
    ensures var k, m := Agent(t, i), Lookup(s, t, i).value.activeSessions + n;
      AddSessions(s, t, i, n) ==
        if InInt64(m) then s.With(k, Some(HashEntry(s.HGetAll(k)[ActiveSessions := FormatInt(m)], DeadlineOf(s, k))))
        else s
  {
    var k := Agent(t, i);
    assert Fits(k, s.keys[k], s.now);
    assert ParseInt("") == None;
    hide FormatInt, ParseInt;
    var m := Lookup(s, t, i).value.activeSessions + n;
    assert s.HGetAll(k) + map[ActiveSessions := FormatInt(m)] == s.HGetAll(k)[ActiveSessions := FormatInt(m)];
  }

  lemma ParseCounted(i: string, f: Fields, n: int)
    requires ParseAgentInfo(i, f).Ok? && InInt64(n)
    ensures ParseAgentInfo(i, f[ActiveSessions := FormatInt(n)]) == Ok(ParseAgentInfo(i, f).value.(activeSessions := n))
  {
    ParseFormat(n);
  }

  /** Counting n sessions adds n to the counter that is read, unless the sum leaves 64 bits; so counting
      one up and one down again is reading the same. */
  lemma CountReads(s: Store, t: string, i: string, n: int, t': string, i': string)
    requires WellKinded(s) && Lookup(s, t, i).Ok?
    ensures var a := Lookup(s, t, i).value;
      Lookup(AddSessions(s, t, i, n), t', i') ==
        if Agent(t', i') == Agent(t, i) && InInt64(a.activeSessions + n)
        then Ok(a.(activeSessions := a.activeSessions + n)) else Lookup(s, t', i')
  {
    var k, m := Agent(t, i), Lookup(s, t, i).value.activeSessions + n;
    Counted(s, t, i, n);
    if InInt64(m) {
      ParseCounted(i, s.HGetAll(k), m);
    }
    hide AddSessions, ParseAgentInfo, FormatInt;
  }

  lemma UnregisterAt(s: Store, t: string, i: string, k: Key)
    requires WellKinded(s)
    ensures Unregister(s, t, i).At(k) ==
              if k == Agent(t, i) then None
              else if k == AgentsByType(t) then SetOf(s, k, s.SMembers(k) - {i})
              else if k == GatewayAgents(GatewayOf(s, t, i)) && k != GatewayAgents("") then
                SetOf(s, k, s.SMembers(k) - {Compose(t, i)})
              else s.At(k)
  {
    var s1, g := s.Del(Agent(t, i)), GatewayOf(s, t, i);
    WithKinded(s, Agent(t, i), None);
    SRemAt(s1, AgentsByType(t), i, k);
    SRemAt(s1, AgentsByType(t), i, GatewayAgents(g));
    SRemMembers(s1, AgentsByType(t), i);
    SRemAt(s1.SRem(AgentsByType(t), i), GatewayAgents(g), Compose(t, i), k);
  }

  /** While the registry is in order, counting fails only at the end of the 64-bit range. */
  lemma CountFailsAtTheEnd(s: Store, t: string, i: string, n: int, ttl: nat)
    requires Inv(s, ttl) && Agent(t, i) in s.keys
    ensures Lookup(s, t, i).Ok?
    ensures s.CanHIncrBy(Agent(t, i), ActiveSessions, n) <==> InInt64(Lookup(s, t, i).value.activeSessions + n)
  {
    LookupReads(s, t, i, ttl);
    assert Fits(Agent(t, i), s.keys[Agent(t, i)], s.now);
    assert ParseInt("") == None;
    hide Inv, ParseInt;
  }

  /** Who is unregistered is not found, nor listed in its type's index or in that of the gateway its hash
      named. */
  lemma UnregisteredIsGone(s: Store, t: string, i: string, t': string, i': string)
    requires WellKinded(s)
    ensures Lookup(Unregister(s, t, i), t', i') ==
              if Agent(t', i') == Agent(t, i) then Err(AgentNotFound) else Lookup(s, t', i')
    ensures i !in Unregister(s, t, i).SMembers(AgentsByType(t))
    ensures GatewayOf(s, t, i) != "" ==>
              Compose(t, i) !in Unregister(s, t, i).SMembers(GatewayAgents(GatewayOf(s, t, i)))
  {
    UnregisterAt(s, t, i, Agent(t', i'));
    UnregisterAt(s, t, i, AgentsByType(t));
    UnregisterAt(s, t, i, GatewayAgents(GatewayOf(s, t, i)));
    hide Unregister, ParseAgentInfo, Compose;
  }

  // ----- Non-interference -----

  /** The agent's hash and its membership in every index are the same in both stores. */
  ghost predicate SameAgent(s: Store, s': Store, t: string, i: string) {
    && s'.At(Agent(t, i)) == s.At(Agent(t, i))
    && (i in s'.SMembers(AgentsByType(t)) <==> i in s.SMembers(AgentsByType(t)))
    && forall g :: Compose(t, i) in s'.SMembers(GatewayAgents(g)) <==> Compose(t, i) in s.SMembers(GatewayAgents(g))
  }

  lemma PutAgentSparesOthers(s: Store, info: AgentInfo, ttl: nat, t: string, i: string)
    requires WellKinded(s) && ColonFree(t) && ColonFree(info.agentType) && ttl > 0 && Agent(t, i) != info.Key()
    ensures SameAgent(s, PutAgent(s, info, ttl), t, i)
  {
    if Compose(t, i) == Compose(info.agentType, info.id) {
      ComposeInjective(t, i, info.agentType, info.id);
    }
    PutAgentAt(s, info, ttl, Agent(t, i));
    PutAgentAt(s, info, ttl, AgentsByType(t));
    hide PutAgent, Compose;
    forall g
      ensures Compose(t, i) in PutAgent(s, info, ttl).SMembers(GatewayAgents(g)) <==>
              Compose(t, i) in s.SMembers(GatewayAgents(g))
    {
      PutAgentAt(s, info, ttl, GatewayAgents(g));
    }
  }

  lemma UnregisterSparesOthers(s: Store, t: string, i: string, t': string, i': string)
    requires WellKinded(s) && ColonFree(t) && ColonFree(t') && Agent(t, i) != Agent(t', i')
    ensures SameAgent(s, Unregister(s, t, i), t', i')
  {
    if Compose(t, i) == Compose(t', i') {
      ComposeInjective(t, i, t', i');
    }
    UnregisterAt(s, t, i, Agent(t', i'));
    UnregisterAt(s, t, i, AgentsByType(t'));
    hide Unregister, Compose;
    forall g
      ensures Compose(t', i') in Unregister(s, t, i).SMembers(GatewayAgents(g)) <==>
              Compose(t', i') in s.SMembers(GatewayAgents(g))
    {
      UnregisterAt(s, t, i, GatewayAgents(g));
    }
  }

  lemma HeartbeatSparesOthers(s: Store, t: string, i: string, ttl: nat, t': string, i': string)
    requires WellKinded(s) && ttl > 0 && Agent(t, i) != Agent(t', i')
    ensures SameAgent(s, UpdateHeartbeat(s, t, i, ttl), t', i')
  {
    if Agent(t, i) in s.keys {
      HeartbeatAt(s, t, i, ttl, Agent(t', i'));
      HeartbeatAt(s, t, i, ttl, AgentsByType(t'));
      hide UpdateHeartbeat, Compose;
      forall g
        ensures Compose(t', i') in UpdateHeartbeat(s, t, i, ttl).SMembers(GatewayAgents(g)) <==>
                Compose(t', i') in s.SMembers(GatewayAgents(g))
      {
        HeartbeatAt(s, t, i, ttl, GatewayAgents(g));
        assert GatewayAgents(g) in s.keys ==> Fits(GatewayAgents(g), s.keys[GatewayAgents(g)], s.now);
      }
    }
  }

  lemma AddSessionsSparesOthers(s: Store, t: string, i: string, n: int, t': string, i': string)
    requires WellKinded(s) && Agent(t, i) != Agent(t', i')
    ensures SameAgent(s, AddSessions(s, t, i, n), t', i')
  {
    AddSessionsAt(s, t, i, n, Agent(t', i'));
    AddSessionsAt(s, t, i, n, AgentsByType(t'));
    forall g ensures AddSessions(s, t, i, n).At(GatewayAgents(g)) == s.At(GatewayAgents(g)) {
      AddSessionsAt(s, t, i, n, GatewayAgents(g));
    }
  }

  /** A transaction on an agent type with a colon does reach another agent: registering "a:b"/"c"
      overwrites what is stored for "a"/"b:c". */
  lemma ColonTypesInterfere()
    ensures Agent("a:b", "c").Render() == Agent("a", "b:c").Render() && Agent("a:b", "c") != Agent("a", "b:c")
    ensures Compose("a:b", "c") == Compose("a", "b:c")
  {
    assert Compose("a:b", "c") == "a:b:c" == Compose("a", "b:c");
  }

  /** A beat leaves the gateway index leased as long as the hash exactly when the hash names a gateway,
      or the index was leased for as long already. */
  lemma BeatRenewsIndexExactly(s: Store, t: string, i: string, ttl: nat)
    requires ttl > 0 && Agent(t, i) in s.keys && DeadlineOf(s, GatewayAgents(GatewayOf(s, t, i))).Some?
    ensures var g := GatewayAgents(GatewayOf(s, t, i)); var s' := UpdateHeartbeat(s, t, i, ttl);
      && DeadlineOf(s', Agent(t, i)).Some? && DeadlineOf(s', g).Some?
      && (DeadlineOf(s', Agent(t, i)).value <= DeadlineOf(s', g).value
          <==> GatewayOf(s, t, i) != "" || s.now + ttl <= DeadlineOf(s, g).value)
  {
    HeartbeatAt(s, t, i, ttl, Agent(t, i));
    HeartbeatAt(s, t, i, ttl, GatewayAgents(GatewayOf(s, t, i)));
  }

  /** An unnamed gateway breaks the lease of its index: heartbeats renew the hash only, so an agent
      that beats once can outlive its gateway index. */
  lemma UnnamedGatewayIndexLapses(ttl: nat)
    requires 1 < ttl && 2 * ttl <= MAX_TIME
    ensures var info := AgentInfo("a", "t", "", STATUS_ONLINE, 0, 0, 0);
            var s := UpdateHeartbeat(PutAgent(Db(0, map[]), info, ttl).Advance(1), "t", "a", ttl).Advance(ttl - 1);
            Agent("t", "a") in s.keys && GatewayAgents("") !in s.keys
  {
    var info := AgentInfo("a", "t", "", STATUS_ONLINE, 0, 0, 0);
    var s0 := PutAgent(Db(0, map[]), info, ttl);
    PutAgentAt(Db(0, map[]), info, ttl, Agent("t", "a"));
    PutAgentAt(Db(0, map[]), info, ttl, GatewayAgents(""));
    var s1 := s0.Advance(1);
    assert s1.At(Agent("t", "a")) == s0.At(Agent("t", "a")) && s1.At(GatewayAgents("")) == s0.At(GatewayAgents(""));
    HeartbeatAt(s1, "t", "a", ttl, Agent("t", "a"));
    HeartbeatAt(s1, "t", "a", ttl, GatewayAgents(""));
  }
}
