/** The agent pool (internal/agent/pool.go): each method runs its Redis commands in the source's
    order and is proved to leave the store that `Registry` says it leaves. */
module AgentPool {
  import opened Basics
  import opened Decimal
  import opened Keys
  import opened RedisModel
  import opened Registry

  /** The five commands of the registration transaction, taken together. */
  lemma RegistrationTransaction(s: Store, k: Key, info: AgentInfo, ttl: nat)
    requires WellKinded(s) && k.Agent?
    ensures var t, i, g := info.agentType, info.id, info.gatewayInstance;
            s.HSet(k, AgentFields(s, info)).Expire(k, ttl)
             .SAdd(AgentsByType(t), i)
             .SAdd(GatewayAgents(g), Compose(t, i)).Expire(GatewayAgents(g), ttl)
            == PutAgentUnder(s, k, info, ttl)
  {
    var t, i, g := info.agentType, info.id, info.gatewayInstance;
    assert k in s.keys ==> Fits(k, s.keys[k], s.now);
    assert AgentsByType(t) in s.keys ==> Fits(AgentsByType(t), s.keys[AgentsByType(t)], s.now);
    assert GatewayAgents(g) in s.keys ==> Fits(GatewayAgents(g), s.keys[GatewayAgents(g)], s.now);
    HSetExpire(s, k, AgentFields(s, info), ttl);
    var s1 := s.HSet(k, AgentFields(s, info)).Expire(k, ttl);
    SAddWith(s1, AgentsByType(t), i);
    SAddExpire(s1.SAdd(AgentsByType(t), i), GatewayAgents(g), Compose(t, i), ttl);
  }

  lemma HeartbeatTransaction(s: Store, t: string, i: string, ttl: nat)
    requires WellKinded(s) && Agent(t, i) in s.keys
    ensures var s1 := s.HSet(Agent(t, i), map[LastHeartbeat := Seconds(s)]).Expire(Agent(t, i), ttl);
            UpdateHeartbeat(s, t, i, ttl) ==
              if GatewayOf(s, t, i) == "" then s1 else s1.Expire(GatewayAgents(GatewayOf(s, t, i)), ttl)
  {
    var g := GatewayOf(s, t, i);
    assert Fits(Agent(t, i), s.keys[Agent(t, i)], s.now);
    assert GatewayAgents(g) in s.keys ==> Fits(GatewayAgents(g), s.keys[GatewayAgents(g)], s.now);
    hide WellKinded, Seconds, GatewayOf;
    var f, beat := s.HGetAll(Agent(t, i)), map[LastHeartbeat := Seconds(s)];
    HSetExpire(s, Agent(t, i), beat, ttl);
    assert f + beat == f[LastHeartbeat := Seconds(s)];
  }

  lemma DropOneID(s: Store, t: string, ids: set<string>, id: string)
    requires WellKinded(s)
    ensures DropIDs(s, t, ids).SRem(AgentsByType(t), id) == DropIDs(s, t, ids + {id})
  {
    var k := AgentsByType(t);
    assert k in s.keys ==> Fits(k, s.keys[k], s.now);
    var left := s.SMembers(k) - ids;
    assert left - {id} == s.SMembers(k) - (ids + {id});
    assert DropIDs(s, t, ids).SRem(k, id).keys == DropIDs(s, t, ids + {id}).keys;
  }

  lemma DropNoID(s: Store, t: string)
    requires WellKinded(s)
    ensures DropIDs(s, t, {}) == s
  {
    var k := AgentsByType(t);
    assert k in s.keys ==> Fits(k, s.keys[k], s.now);
    assert s.SMembers(k) - {} == s.SMembers(k);
    assert DropIDs(s, t, {}).keys == s.keys;
  }

  /** The three commands that unregister one member of gateway index g. */
  function RemoveAgent(s: Store, g: string, t: string, i: string): Store {
    s.Del(Agent(t, i)).SRem(AgentsByType(t), i).SRem(GatewayAgents(g), Compose(t, i))
  }

  lemma RemoveAgentAt(s: Store, g: string, t: string, i: string, k: Key)
    requires WellKinded(s)
    ensures RemoveAgent(s, g, t, i).At(k) ==
              if k == Agent(t, i) then None
              else if k == AgentsByType(t) then SetOf(s, k, s.SMembers(k) - {i})
              else if k == GatewayAgents(g) then SetOf(s, k, s.SMembers(k) - {Compose(t, i)})
              else s.At(k)
  {
    var s1 := s.Del(Agent(t, i));
    WithKinded(s, Agent(t, i), None);
    SRemAt(s1, AgentsByType(t), i, k);
    SRemAt(s1, AgentsByType(t), i, GatewayAgents(g));
    SRemMembers(s1, AgentsByType(t), i);
    SRemAt(s1.SRem(AgentsByType(t), i), GatewayAgents(g), Compose(t, i), k);
  }

  lemma DropHashAt(s: Store, g: string, ms: set<string>, t: string, i: string, k: Key)
    requires WellKinded(s) && ColonFree(t) && k.Agent?
    ensures DropMembers(s, g, ms + {Compose(t, i)}).At(k) ==
              if k == Agent(t, i) then None else DropMembers(s, g, ms).At(k)
  {
    if k in s.keys {
      assert Fits(k, s.keys[k], s.now);
      if Compose(t, i) == Compose(k.agentType, k.agentID) {
        ComposeInjective(t, i, k.agentType, k.agentID);
      }
    }
  }

  lemma DropTypeAt(s: Store, g: string, ms: set<string>, t: string, i: string, k: Key)
    requires WellKinded(s) && ColonFree(t) && k.AgentsByType?
    ensures DropMembers(s, g, ms + {Compose(t, i)}).At(k)
         == if k.agentType == t
             then SetOf(DropMembers(s, g, ms), k, DropMembers(s, g, ms).SMembers(k) - {i})
             else DropMembers(s, g, ms).At(k)
  {
    if k in s.keys && ColonFree(k.agentType) {
      assert Fits(k, s.keys[k], s.now);
      var e, m, u := s.keys[k], Compose(t, i), k.agentType;
      forall j ensures Compose(u, j) == m <==> u == t && j == i {
        if Compose(u, j) == m {
          ComposeInjective(u, j, t, i);
        }
      }
      if u == t {
        assert IDsWithout(e.members, t, ms) - {i} == IDsWithout(e.members, t, ms + {m});
      } else {
        assert IDsWithout(e.members, u, ms) == IDsWithout(e.members, u, ms + {m});
      }
    }
  }

  lemma DropGatewayAt(s: Store, g: string, ms: set<string>, t: string, i: string, k: Key)
    requires WellKinded(s) && !k.Agent? && !k.AgentsByType?
    ensures DropMembers(s, g, ms + {Compose(t, i)}).At(k)
         == if k == GatewayAgents(g)
             then SetOf(DropMembers(s, g, ms), k, DropMembers(s, g, ms).SMembers(k) - {Compose(t, i)})
             else DropMembers(s, g, ms).At(k)
  {
    if k in s.keys {
      assert Fits(k, s.keys[k], s.now);
      assert s.SMembers(k) - ms - {Compose(t, i)} == s.SMembers(k) - (ms + {Compose(t, i)});
    }
  }

  lemma DropOneMember(s: Store, g: string, ms: set<string>, t: string, i: string)
    requires WellKinded(s) && ColonFree(t)
    ensures RemoveAgent(DropMembers(s, g, ms), g, t, i) == DropMembers(s, g, ms + {Compose(t, i)})
  {
    DropMembersKinded(s, g, ms);
    var l, r := RemoveAgent(DropMembers(s, g, ms), g, t, i), DropMembers(s, g, ms + {Compose(t, i)});
    forall k ensures l.At(k) == r.At(k) {
      RemoveAgentAt(DropMembers(s, g, ms), g, t, i, k);
      match k
      case Agent(_, _) => DropHashAt(s, g, ms, t, i, k);
      case AgentsByType(_) => DropTypeAt(s, g, ms, t, i, k);
      case _ => DropGatewayAt(s, g, ms, t, i, k);
    }
    SameStore(l, r);
  }

  lemma DropNoMember(s: Store, g: string)
    requires WellKinded(s)
    ensures DropMembers(s, g, {}) == s
  {
    forall k ensures DropMembers(s, g, {}).At(k) == s.At(k) {
      if k in s.keys {
        assert Fits(k, s.keys[k], s.now);
        if k.AgentsByType? && ColonFree(k.agentType) {
          assert IDsWithout(s.keys[k].members, k.agentType, {}) == s.keys[k].members;
        } else if k == GatewayAgents(g) {
          assert s.keys[k].members - {} == s.keys[k].members;
        }
      }
    }
    SameStore(DropMembers(s, g, {}), s);
  }

  /** Members without a colon name no agent: skipping them changes nothing once the index is deleted. */
  lemma SkippedMembers(s: Store, g: string, ms: set<string>, done: set<string>)
    requires WellKinded(s) && done <= ms && forall m :: m in ms && m !in done ==> ColonFree(m)
    ensures DropMembers(s, g, done).Del(GatewayAgents(g)) == DropMembers(s, g, ms).Del(GatewayAgents(g))
  {
    forall t: string, i ensures Compose(t, i) in ms <==> Compose(t, i) in done {
      assert Compose(t, i)[|t|] == ':';
    }
    forall k
      ensures DropMembers(s, g, done).Del(GatewayAgents(g)).At(k) == DropMembers(s, g, ms).Del(GatewayAgents(g)).At(k)
    {
      if k in s.keys && k.AgentsByType? && s.keys[k].SetEntry? {
        assert IDsWithout(s.keys[k].members, k.agentType, done) == IDsWithout(s.keys[k].members, k.agentType, ms);
      }
    }
    SameStore(DropMembers(s, g, done).Del(GatewayAgents(g)), DropMembers(s, g, ms).Del(GatewayAgents(g)));
  }

  lemma LookupAfterDrop(s: Store, t: string, stale: set<string>, id: string)
    requires id in s.SMembers(AgentsByType(t))
    ensures var k := Home(t, id);
      && LookupUnder(DropIDs(s, t, stale), k, id) == LookupUnder(s, k, id)
      && (LookupUnder(s, k, id) == Err(AgentNotFound) <==> id !in LiveIDs(s, t))
      && (LookupUnder(s, k, id).Ok? ==> LookupUnder(s, k, id).value.id == id)
  {
    assert DropIDs(s, t, stale).At(Home(t, id)) == s.At(Home(t, id));
    hide Home;
  }

  lemma ListedOneMore(s: Store, t: string, agents: seq<AgentInfo>, ids: set<string>, a: AgentInfo)
    requires Listed(s, t, agents, ids) && a.id !in ids && LookupUnder(s, Home(t, a.id), a.id) == Ok(a)
    ensures Listed(s, t, agents + [a], ids + {a.id})
  {
    hide LookupUnder, Home;
    var more := agents + [a];
    forall b | b in more ensures b.id in ids + {a.id} && LookupUnder(s, Home(t, b.id), b.id) == Ok(b) {
      assert b in agents || b == a;
    }
    forall i | i in ids + {a.id} ensures exists b :: b in more && b.id == i {
      if i == a.id {
        assert a in more;
      } else {
        var b :| b in agents && b.id == i;
        assert b in more;
      }
    }
  }

  /** How far a listing has got once it has read these ids of the index. */
  ghost predicate Listing(s: Store, t: string, agents: seq<AgentInfo>, stale: set<string>, found: set<string>,
                          read: seq<string>) {
    && Listed(s, t, agents, found)
    && stale <= s.SMembers(AgentsByType(t)) - LiveIDs(s, t) && found <= LiveIDs(s, t)
    && forall i :: i in read <==> i in stale || i in found
  }

  lemma NothingListed(s: Store, t: string)
    ensures Listing(s, t, [], {}, {}, [])
  {
  }

  lemma OneListed(s: Store, t: string, agents: seq<AgentInfo>, stale: set<string>, found: set<string>,
                  read: seq<string>, a: AgentInfo)
    requires Listing(s, t, agents, stale, found, read) && a.id !in read && a.id in LiveIDs(s, t)
    requires LookupUnder(s, Home(t, a.id), a.id) == Ok(a)
    ensures Listing(s, t, agents + [a], stale, found + {a.id}, read + [a.id])
  {
    hide LookupUnder, Home, LiveIDs;
    ListedOneMore(s, t, agents, found, a);
    hide Listed;
  }

  lemma OneStale(s: Store, t: string, agents: seq<AgentInfo>, stale: set<string>, found: set<string>, read: seq<string>,
                 id: string)
    requires Listing(s, t, agents, stale, found, read) && id in s.SMembers(AgentsByType(t)) && id !in LiveIDs(s, t)
    ensures Listing(s, t, agents, stale + {id}, found, read + [id])
  {
    hide Listed, LiveIDs;
  }

  lemma ListingSoFar(s: Store, t: string, agents: seq<AgentInfo>, stale: set<string>, found: set<string>,
                     read: seq<string>)
    requires Listing(s, t, agents, stale, found, read)
    ensures stale <= s.SMembers(AgentsByType(t)) - LiveIDs(s, t)
  {
  }

  lemma AllListed(s: Store, t: string, agents: seq<AgentInfo>, stale: set<string>, found: set<string>, ids: seq<string>)
    requires Listing(s, t, agents, stale, found, ids) && forall i :: i in ids <==> i in s.SMembers(AgentsByType(t))
    ensures stale == s.SMembers(AgentsByType(t)) - LiveIDs(s, t)
    ensures Listed(s, t, agents, LiveIDs(s, t))
  {
    hide Listed;
    assert LiveIDs(s, t) <= s.SMembers(AgentsByType(t));
    hide LiveIDs;
    assert found == LiveIDs(s, t);
  }

  class Pool {
    const client: Redis
    const gatewayInstance: string
    const heartbeatTimeout: nat

    constructor (client: Redis, gatewayInstance: string, heartbeatTimeout: nat)
      ensures this.client == client && this.gatewayInstance == gatewayInstance
                && this.heartbeatTimeout == heartbeatTimeout
    {
      this.client := client;
      this.gatewayInstance := gatewayInstance;
      this.heartbeatTimeout := heartbeatTimeout;
    }

    function TTL(): nat { heartbeatTimeout * 2 }

    static function AgentFieldsAt(now: nat, info: AgentInfo): Fields {
      AgentFields(Db(now, map[]), info)
    }

    method ReRegister(info: AgentInfo)
      requires client.Valid()
      modifies client
      ensures client.Valid()
      ensures client.view == PutAgentUnder(old(client.view), Home(info.agentType, info.id), info, TTL())
      ensures ColonFree(info.agentType) ==> client.view == PutAgent(old(client.view), info, TTL())
      ensures heartbeatTimeout > 0 ==>
                var until := Some(old(client.view).now + 2 * heartbeatTimeout);
                && DeadlineOf(client.view, Home(info.agentType, info.id)) == until
                && DeadlineOf(client.view, GatewayAgents(info.gatewayInstance)) == until
    {
      hide PutAgentUnder, Home;
      var k := Home(info.agentType, info.id);
      if heartbeatTimeout > 0 {
        RegistrationLeases(client.view, k, info, TTL());
      }
      RegistrationTransaction(client.view, k, info, TTL());
      var fields := AgentFieldsAt(client.db.now, info);
      assert Status in fields;
      client.HSet(k, fields);
      client.Expire(k, TTL());
      client.SAdd(AgentsByType(info.agentType), info.id);
      client.SAdd(GatewayAgents(info.gatewayInstance), Compose(info.agentType, info.id));
      client.Expire(GatewayAgents(info.gatewayInstance), TTL());
    }

    /** Agents of any type: one whose type holds a colon shares the hash of the agent its key string also
        names. */
    method Register(info: AgentInfo) returns (r: Result<(), Error>)
      requires client.Valid()
      modifies client
      ensures client.Valid()
      ensures var s, k := old(client.view), Home(info.agentType, info.id);
        && r == (if k in s.keys then Err(AgentAlreadyExists) else Ok(()))
        && client.view == if k in s.keys then s else PutAgentUnder(s, k, info, TTL())
      ensures ColonFree(info.agentType) ==> client.view == Registry.Register(old(client.view), info, TTL())
      ensures r.Ok? && heartbeatTimeout > 0 ==>
                var until := Some(old(client.view).now + 2 * heartbeatTimeout);
                && DeadlineOf(client.view, Home(info.agentType, info.id)) == until
                && DeadlineOf(client.view, GatewayAgents(info.gatewayInstance)) == until
    {
      var exists_ := client.Exists(Home(info.agentType, info.id));
      if exists_ {
        return Err(AgentAlreadyExists);
      }
      ReRegister(info);
      r := Ok(());
    }

    method Unregister(agentID: string, agentType: string)
      requires client.Valid()
      modifies client
      ensures client.Valid()
      ensures client.view == UnregisterUnder(old(client.view), Home(agentType, agentID), agentType, agentID)
      ensures ColonFree(agentType) ==> client.view == Registry.Unregister(old(client.view), agentType, agentID)
    {
      hide Renders, WellKinded;
      var k := Home(agentType, agentID);
      var vals := client.HGetAll(k);
      client.Del(k);
      client.SRem(AgentsByType(agentType), agentID);
      var g := RedisModel.Get(vals, GatewayInstance);
      if g != "" {
        client.SRem(GatewayAgents(g), Compose(agentType, agentID));
      }
    }

    method Get(agentType: string, agentID: string) returns (r: Result<AgentInfo, Error>)
      requires client.Valid()
      ensures r == LookupUnder(client.view, Home(agentType, agentID), agentID)
      ensures ColonFree(agentType) ==> r == Lookup(client.view, agentType, agentID)
    {
      var vals := client.HGetAll(Home(agentType, agentID));
      r := if vals == map[] then Err(AgentNotFound) else ParseAgentInfo(agentID, vals);
    }

    /** Exactly the indexed agents of the type with a live hash, the index pruned to them. A hash that
        cannot be read ends the listing early; none such exists while `Inv` holds. */
    method ListByType(agentType: string) returns (r: Result<seq<AgentInfo>, Error>)
      requires client.Valid()
      modifies client
      ensures client.Valid()
      ensures r.Ok? ==>
                var s := old(client.view); var live := LiveIDs(s, agentType);
                client.view == DropIDs(s, agentType, s.SMembers(AgentsByType(agentType)) - live)
                    && Listed(s, agentType, r.value, live)
      ensures r.Err? ==>
                var s := old(client.view);
                exists i :: i in LiveIDs(s, agentType) && LookupUnder(s, Home(agentType, i), i) == Err(r.error)
      ensures r.Err? ==>
                var s := old(client.view);
                exists ids ::
                  && ids <= s.SMembers(AgentsByType(agentType)) - LiveIDs(s, agentType)
                  && client.view == DropIDs(s, agentType, ids)
    {
      ghost var s: Store, stale: set<string>, found: set<string> := client.view, {}, {};
      var ids := client.SMembers(AgentsByType(agentType));
      var agents: seq<AgentInfo> := [];
      NothingListed(s, agentType);
      DropNoID(s, agentType);
      hide DropIDs, Listing, Listed, LiveIDs, LookupUnder, Home, Renders, WellKinded;
      for n := 0 to |ids|
        invariant client.Valid() && client.view == DropIDs(s, agentType, stale)
        invariant Listing(s, agentType, agents, stale, found, ids[..n])
      {
        var id := ids[n];
        assert ids[..n + 1] == ids[..n] + [id] && id !in ids[..n];
        LookupAfterDrop(s, agentType, stale, id);
        var got := Get(agentType, id);
        match got
        case Ok(info) =>
          OneListed(s, agentType, agents, stale, found, ids[..n], info);
          agents := agents + [info];
          found := found + {id};
        case Err(AgentNotFound) =>
          OneStale(s, agentType, agents, stale, found, ids[..n], id);
          DropOneID(s, agentType, stale, id);
          client.SRem(AgentsByType(agentType), id);
          stale := stale + {id};
        case Err(e) =>
          ListingSoFar(s, agentType, agents, stale, found, ids[..n]);
          return Err(e);
      }
      assert ids[..|ids|] == ids;
      AllListed(s, agentType, agents, stale, found, ids);
      r := Ok(agents);
    }

    lemma SameClock()
      requires client.Valid()
      ensures client.db.now == client.view.now
    {
    }

    method UpdateHeartbeat(agentType: string, agentID: string) returns (r: Result<(), Error>)
      requires client.Valid()
      modifies client
      ensures client.Valid()
      ensures var s, k := old(client.view), Home(agentType, agentID);
        && r == (if k in s.keys then Ok(()) else Err(AgentNotFound))
        && client.view == Registry.UpdateHeartbeat(s, k.agentType, k.agentID, TTL())
      ensures r.Ok? && heartbeatTimeout > 0 ==>
                var s, k := old(client.view), Home(agentType, agentID);
                var g, until := GatewayOf(s, k.agentType, k.agentID), Some(s.now + 2 * heartbeatTimeout);
                && DeadlineOf(client.view, k) == until
                && (g != "" && GatewayAgents(g) in s.keys ==> DeadlineOf(client.view, GatewayAgents(g)) == until)
    {
      var k := Home(agentType, agentID);
      if k in client.view.keys && heartbeatTimeout > 0 {
        BeatLeases(client.view, k.agentType, k.agentID, TTL());
      }
      hide Home, Renders, WellKinded;
      var vals := client.HGetAll(k);
      if vals == map[] {
        return Err(AgentNotFound);
      }
      HeartbeatTransaction(client.view, k.agentType, k.agentID, TTL());
      var beat := map[LastHeartbeat := FormatInt(client.db.now / 1000)];
      assert LastHeartbeat in beat;
      SameClock();
      client.HSet(k, beat);
      client.Expire(k, TTL());
      var g := RedisModel.Get(vals, GatewayInstance);
      if g != "" {
        client.Expire(GatewayAgents(g), TTL());
      }
      r := Ok(());
    }

    method IncrActiveSessions(agentType: string, agentID: string) returns (r: Result<(), Error>)
      requires client.Valid()
      modifies client
      ensures client.Valid()
      ensures var s, k := old(client.view), Home(agentType, agentID);
        && r == (if k !in s.keys then Err(AgentNotFound)
                 else if s.CanHIncrBy(k, ActiveSessions, 1) then Ok(()) else Err(CountFailed))
        && client.view == AddSessions(s, k.agentType, k.agentID, 1)
    {
      var k := Home(agentType, agentID);
      var known := client.Exists(k);
      if !known {
        return Err(AgentNotFound);
      }
      var ok := client.HIncrBy(k, ActiveSessions, 1);
      r := if ok then Ok(()) else Err(CountFailed);
    }

    method DecrActiveSessions(agentType: string, agentID: string) returns (r: Result<(), Error>)
      requires client.Valid()
      modifies client
      ensures client.Valid()
      ensures var s, k := old(client.view), Home(agentType, agentID);
        && r == (if k !in s.keys then Err(AgentNotFound)
                 else if s.CanHIncrBy(k, ActiveSessions, -1) then Ok(()) else Err(CountFailed))
        && client.view == AddSessions(s, k.agentType, k.agentID, -1)
    {
      var k := Home(agentType, agentID);
      var known := client.Exists(k);
      if !known {
        return Err(AgentNotFound);
      }
      var ok := client.HIncrBy(k, ActiveSessions, -1);
      r := if ok then Ok(()) else Err(CountFailed);
    }

    /** The transaction run for one member of a gateway index. */
    method RemoveMember(gateway: string, agentType: string, agentID: string)
      requires client.Valid() && ColonFree(agentType)
      modifies client
      ensures client.Valid() && client.view == RemoveAgent(old(client.view), gateway, agentType, agentID)
    {
      client.Del(Agent(agentType, agentID));
      client.SRem(AgentsByType(agentType), agentID);
      client.SRem(GatewayAgents(gateway), Compose(agentType, agentID));
    }

    /** Unregisters every member it read that names an agent, and deletes the index. */
    method UnregisterByGateway(gateway: string) returns (count: nat)
      requires client.Valid()
      modifies client
      ensures client.Valid() && client.view == Registry.UnregisterByGateway(old(client.view), gateway)
      ensures count == |set m | m in old(client.view).SMembers(GatewayAgents(gateway)) && !ColonFree(m)|
    {
      hide DropMembers, RemoveAgent, WellKinded, Renders;
      ghost var s: Store, done: set<string> := client.view, {};
      var members := client.SMembers(GatewayAgents(gateway));
      count := 0;
      DropNoMember(s, gateway);
      for n := 0 to |members|
        invariant client.Valid() && client.view == DropMembers(s, gateway, done)
        invariant forall m :: m in done <==> m in members[..n] && !ColonFree(m)
        invariant count == |done|
      {
        var member := members[n];
        assert members[..n + 1] == members[..n] + [member];
        assert member !in members[..n];
        var parts := SplitAgentMember(member);
        if parts.Parts? {
          DropOneMember(s, gateway, done, parts.head, parts.tail);
          RemoveMember(gateway, parts.head, parts.tail);
          done := done + {member};
          count := count + 1;
        }
      }
      assert members[..|members|] == members;
      SkippedMembers(s, gateway, s.SMembers(GatewayAgents(gateway)), done);
      assert done == set m | m in s.SMembers(GatewayAgents(gateway)) && !ColonFree(m);
      client.Del(GatewayAgents(gateway));
    }
  }
}
