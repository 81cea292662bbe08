/** What the session store (internal/session/manager.go) does, as functions of the store, the
    invariant its operations keep, and the manager proved against them. */
module Sessions {
  import opened Basics
  import opened Decimal
  import opened Keys
  import opened RedisModel

  datatype Info = Info(
    id: string, agentID: string, agentType: string, gatewayInstance: string,
    createdAt: int, lastActiveAt: int)

  datatype Error = SessionNotFound | BadField(f: Field)

  function SessionFields(s: Store, agentID: string, agentType: string, gateway: string): Fields {
    map[AgentIDField := agentID,
        AgentTypeField := agentType,
        GatewayInstance := gateway,
        CreatedAt := Seconds(s),
        LastActiveAt := Seconds(s)]
  }

  function ParseInfo(id: string, vals: Fields): Result<Info, Error> {
    var created := ParseInt(Get(vals, CreatedAt));
    var active := ParseInt(Get(vals, LastActiveAt));
    if created.None? then Err(BadField(CreatedAt))
    else if active.None? then Err(BadField(LastActiveAt))
    else Ok(Info(id, Get(vals, AgentIDField), Get(vals, AgentTypeField), Get(vals, GatewayInstance),
                 created.value, active.value))
  }

  function Lookup(s: Store, sid: string): Result<Info, Error> {
    if Session(sid) in s.keys then ParseInfo(sid, s.HGetAll(Session(sid))) else Err(SessionNotFound)
  }

  function AgentOf(s: Store, sid: string): string {
    Get(s.HGetAll(Session(sid)), AgentIDField)
  }

  /** Creating binds the composite id to the agent, over whatever was bound there before; an
      index of an earlier agent keeps the id. */
  function CreateWithID(s: Store, raw: string, agentID: string, agentType: string, gateway: string, ttl: nat): Store {
    var sid := Compose(agentType, raw);
    s.With(Session(sid), Unexpired(s, HashEntry(s.HGetAll(Session(sid)) + SessionFields(s, agentID, agentType, gateway),
                                                  Some(s.now + ttl))))
     .With(AgentSessions(agentID), Some(SetEntry(s.SMembers(AgentSessions(agentID)) + {sid},
                                                 DeadlineOf(s, AgentSessions(agentID)))))
  }

  function Touch(s: Store, sid: string, ttl: nat): Store {
    if Session(sid) !in s.keys then s
    else s.With(Session(sid),
        Unexpired(s, HashEntry(s.HGetAll(Session(sid))[LastActiveAt := Seconds(s)], Some(s.now + ttl))))
  }

  function Delete(s: Store, sid: string): Store {
    match Lookup(s, sid)
    case Err(_) => s
    case Ok(info) => s.Del(Session(sid)).SRem(AgentSessions(info.agentID), sid)
  }

  /** The sessions `ids` gone, and gone from the index of agent a. */
  function DropSessions(s: Store, a: string, ids: set<string>): Store {
    s.(keys := s.keys - (set id | id in ids :: Session(id)))
     .With(AgentSessions(a), SetOf(s, AgentSessions(a), s.SMembers(AgentSessions(a)) - ids))
  }

  function DeleteByAgent(s: Store, a: string): Store {
    DropSessions(s, a, s.SMembers(AgentSessions(a)))
  }

  // ----- The invariant -----

  /** A live session: readable, leased until its last touch plus the ttl, in the index of its
      agent, and stored under the type its id starts with. */
  predicate HashOk(e: Entry, now: nat, ttl: nat, sid: string) {
    && e.HashEntry? && e.deadline.Some? && ttl <= e.deadline.value <= now + ttl
    && ParseInfo(sid, e.fields).Ok?
    && Get(e.fields, LastActiveAt) == FormatInt((e.deadline.value - ttl) / 1000)
    && Split(sid).Parts? && Split(sid).head == Get(e.fields, AgentTypeField)
  }

  predicate SessionOk(s: Store, ttl: nat, sid: string) {
    Session(sid) in s.keys ==>
      && HashOk(s.keys[Session(sid)], s.now, ttl, sid)
      && sid in s.SMembers(AgentSessions(Get(s.keys[Session(sid)].fields, AgentIDField)))
  }

  ghost predicate Inv(s: Store, ttl: nat) {
    && WellKinded(s)
    && (forall sid :: SessionOk(s, ttl, sid))
    && (forall a :: DeadlineOf(s, AgentSessions(a)) == None)
  }

  /** The hash CreateWithID leaves, unless it is expired on arrival. */
  function Created(s: Store, raw: string, agentID: string, agentType: string, gateway: string, ttl: nat): Entry {
    HashEntry(s.HGetAll(Session(Compose(agentType, raw))) + SessionFields(s, agentID, agentType, gateway),
        Some(s.now + ttl))
  }

  lemma CreatedHashOk(s: Store, raw: string, agentID: string, agentType: string, gateway: string, ttl: nat)
    requires s.now <= MAX_TIME && ColonFree(agentType)
    ensures var e := Created(s, raw, agentID, agentType, gateway, ttl);
            HashOk(e, s.now, ttl, Compose(agentType, raw)) && Get(e.fields, AgentIDField) == agentID
  {
    ParseFormat(s.now / 1000);
    SplitCompose(agentType, raw);
  }

  lemma CreateAt(s: Store, raw: string, agentID: string, agentType: string, gateway: string, ttl: nat, k: Key)
    ensures CreateWithID(s, raw, agentID, agentType, gateway, ttl).At(k) ==
              if k == Session(Compose(agentType, raw))
                  then Unexpired(s, Created(s, raw, agentID, agentType, gateway, ttl))
              else if k == AgentSessions(agentID) then
                Some(SetEntry(s.SMembers(k) + {Compose(agentType, raw)}, DeadlineOf(s, k)))
              else s.At(k)
    ensures CreateWithID(s, raw, agentID, agentType, gateway, ttl).now == s.now
  {
  }

  lemma CreateKinded(s: Store, raw: string, agentID: string, agentType: string, gateway: string, ttl: nat)
    requires WellKinded(s)
    ensures WellKinded(CreateWithID(s, raw, agentID, agentType, gateway, ttl))
  {
    var k, a := Session(Compose(agentType, raw)), AgentSessions(agentID);
    assert a in s.keys ==> Fits(a, s.keys[a], s.now);
    var fields := s.HGetAll(k) + SessionFields(s, agentID, agentType, gateway);
    assert CreatedAt in fields;
    var e := Unexpired(s, HashEntry(fields, Some(s.now + ttl)));
    WithKinded(s, k, e);
    WithKinded(s.With(k, e), a, Some(SetEntry(s.SMembers(a) + {Compose(agentType, raw)}, DeadlineOf(s, a))));
  }

  lemma CreateKeepsInv(s: Store, raw: string, agentID: string, agentType: string, gateway: string, ttl: nat)
    requires Inv(s, ttl) && ColonFree(agentType)
    ensures Inv(CreateWithID(s, raw, agentID, agentType, gateway, ttl), ttl)
  {
    var s', made := CreateWithID(s, raw, agentID, agentType, gateway, ttl), Compose(agentType, raw);
    CreateKinded(s, raw, agentID, agentType, gateway, ttl);
    CreatedHashOk(s, raw, agentID, agentType, gateway, ttl);
    hide CreateWithID, Created, HashOk, Compose, WellKinded;
    forall sid ensures SessionOk(s', ttl, sid) {
      assert SessionOk(s, ttl, sid);
      CreateAt(s, raw, agentID, agentType, gateway, ttl, Session(sid));
      CreateAt(s, raw, agentID, agentType, gateway, ttl, AgentSessions(agentID));
      CreateAt(s, raw, agentID, agentType, gateway, ttl, AgentSessions(AgentOf(s, sid)));
    }
    forall a ensures DeadlineOf(s', AgentSessions(a)) == None {
      CreateAt(s, raw, agentID, agentType, gateway, ttl, AgentSessions(a));
      assert DeadlineOf(s, AgentSessions(a)) == None;
    }
  }

  lemma TouchHashOk(e: Entry, now: nat, ttl: nat, sid: string)
    requires HashOk(e, now, ttl, sid) && now <= MAX_TIME
    ensures HashOk(HashEntry(e.fields[LastActiveAt := FormatInt(now / 1000)], Some(now + ttl)), now, ttl, sid)
    ensures Get(e.fields[LastActiveAt := FormatInt(now / 1000)], AgentIDField) == Get(e.fields, AgentIDField)
  {
    ParseFormat(now / 1000);
  }

  lemma TouchAt(s: Store, sid: string, ttl: nat, k: Key)
    requires Session(sid) in s.keys
    ensures Touch(s, sid, ttl).At(k) ==
              if k == Session(sid) then
                Unexpired(s, HashEntry(s.HGetAll(k)[LastActiveAt := Seconds(s)], Some(s.now + ttl)))
              else s.At(k)
    ensures Touch(s, sid, ttl).now == s.now
  {
  }

  lemma TouchKinded(s: Store, sid: string, ttl: nat)
    requires WellKinded(s)
    ensures WellKinded(Touch(s, sid, ttl))
  {
    if Session(sid) in s.keys {
      var fields := s.HGetAll(Session(sid))[LastActiveAt := Seconds(s)];
      assert LastActiveAt in fields;
      WithKinded(s, Session(sid), Unexpired(s, HashEntry(fields, Some(s.now + ttl))));
    }
  }

  lemma TouchedSessionOk(s: Store, sid: string, ttl: nat, sid': string)
    requires Inv(s, ttl) && Session(sid) in s.keys
    ensures SessionOk(Touch(s, sid, ttl), ttl, sid')
  {
    assert SessionOk(s, ttl, sid) && SessionOk(s, ttl, sid');
    TouchHashOk(s.keys[Session(sid)], s.now, ttl, sid);
    TouchAt(s, sid, ttl, Session(sid'));
    TouchAt(s, sid, ttl, AgentSessions(AgentOf(s, sid')));
    hide Inv, Touch, HashOk;
  }

  lemma TouchKeepsInv(s: Store, sid: string, ttl: nat)
    requires Inv(s, ttl)
    ensures Inv(Touch(s, sid, ttl), ttl)
  {
    if Session(sid) !in s.keys {
      return;
    }
    TouchKinded(s, sid, ttl);
    forall sid' ensures SessionOk(Touch(s, sid, ttl), ttl, sid') {
      TouchedSessionOk(s, sid, ttl, sid');
    }
    hide Touch, HashOk, WellKinded, SessionOk;
    forall a ensures DeadlineOf(Touch(s, sid, ttl), AgentSessions(a)) == None {
      TouchAt(s, sid, ttl, AgentSessions(a));
      assert DeadlineOf(s, AgentSessions(a)) == None;
    }
  }

  lemma DeleteKeepsInv(s: Store, sid: string, ttl: nat)
    requires Inv(s, ttl)
    ensures Inv(Delete(s, sid), ttl)
  {
    var s' := Delete(s, sid);
    if !Lookup(s, sid).Ok? {
      return;
    }
    var a := Lookup(s, sid).value.agentID;
    var s1 := s.Del(Session(sid));
    WithKinded(s, Session(sid), None);
    SRemMembers(s1, AgentSessions(a), sid);
    assert s' == s1.SRem(AgentSessions(a), sid);
    hide HashOk, Delete, Lookup, WellKinded;
    forall sid' ensures SessionOk(s', ttl, sid') {
      assert SessionOk(s, ttl, sid');
      assert s'.At(Session(sid')) == s1.At(Session(sid'));
      var b := AgentOf(s, sid');
      assert b != a ==> s'.At(AgentSessions(b)) == s1.At(AgentSessions(b));
    }
    forall b ensures DeadlineOf(s', AgentSessions(b)) == None {
      assert DeadlineOf(s, AgentSessions(b)) == None;
      assert b != a ==> s'.At(AgentSessions(b)) == s1.At(AgentSessions(b));
    }
  }

  lemma DropSessionsAt(s: Store, a: string, ids: set<string>, k: Key)
    ensures DropSessions(s, a, ids).At(k) ==
              if k.Session? && k.sessionID in ids then None
              else if k == AgentSessions(a) then SetOf(s, k, s.SMembers(k) - ids)
              else s.At(k)
    ensures DropSessions(s, a, ids).now == s.now
  {
  }

  lemma DeleteByAgentKeepsInv(s: Store, a: string, ttl: nat)
    requires Inv(s, ttl)
    ensures Inv(DeleteByAgent(s, a), ttl)
  {
    var s', ids := DeleteByAgent(s, a), s.SMembers(AgentSessions(a));
    forall k | k in s'.keys ensures Fits(k, s'.keys[k], s'.now) {
      DropSessionsAt(s, a, ids, k);
      assert k in s.keys ==> Fits(k, s.keys[k], s.now);
    }
    forall sid ensures SessionOk(s', ttl, sid) {
      assert SessionOk(s, ttl, sid);
      DropSessionsAt(s, a, ids, Session(sid));
      DropSessionsAt(s, a, ids, AgentSessions(AgentOf(s, sid)));
    }
    forall b ensures DeadlineOf(s', AgentSessions(b)) == None {
      DropSessionsAt(s, a, ids, AgentSessions(b));
      assert DeadlineOf(s, AgentSessions(b)) == None;
    }
  }

  lemma AdvanceKeepsInv(s: Store, dt: nat, ttl: nat)
    requires Inv(s, ttl) && s.now + dt <= MAX_TIME
    ensures Inv(s.Advance(dt), ttl)
  {
    var s' := s.Advance(dt);
    forall k | k in s'.keys ensures Fits(k, s'.keys[k], s'.now) {
      assert Fits(k, s.keys[k], s.now);
    }
    forall sid ensures SessionOk(s', ttl, sid) {
      assert SessionOk(s, ttl, sid);
      assert DeadlineOf(s, AgentSessions(AgentOf(s, sid))) == None;
    }
    forall a ensures DeadlineOf(s', AgentSessions(a)) == None {
      assert DeadlineOf(s, AgentSessions(a)) == None;
    }
  }

  /** An operation that leaves the session keys alone keeps the sessions in order. */
  lemma ForeignKeepsInv(s: Store, s': Store, ttl: nat)
    requires Inv(s, ttl) && WellKinded(s') && s'.now == s.now
    requires forall k: Key :: k.Session? || k.AgentSessions? ==> s'.At(k) == s.At(k)
    ensures Inv(s', ttl)
  {
    hide HashOk;
    forall sid ensures SessionOk(s', ttl, sid) {
      assert SessionOk(s, ttl, sid);
      assert s'.At(Session(sid)) == s.At(Session(sid));
      var a := AgentSessions(AgentOf(s, sid));
      assert s'.At(a) == s.At(a);
    }
    forall a ensures DeadlineOf(s', AgentSessions(a)) == None {
      assert DeadlineOf(s, AgentSessions(a)) == None;
      assert s'.At(AgentSessions(a)) == s.At(AgentSessions(a));
    }
  }

  // ----- What the index is for -----

  /** The reverse index is complete, so deleting by agent leaves that agent no live session and no
      index, and removes exactly the sessions the index listed. */
  lemma DeleteByAgentComplete(s: Store, a: string, ttl: nat)
    requires Inv(s, ttl)
    ensures var s' := DeleteByAgent(s, a);
      && AgentSessions(a) !in s'.keys
      && (forall sid :: Session(sid) in s'.keys ==> AgentOf(s', sid) != a)
      && (forall sid :: sid !in s.SMembers(AgentSessions(a)) ==> s'.At(Session(sid)) == s.At(Session(sid)))
      && (forall sid :: sid in s.SMembers(AgentSessions(a)) ==> Session(sid) !in s'.keys)
      && (forall b :: b != a ==> s'.At(AgentSessions(b)) == s.At(AgentSessions(b)))
  {
    var ids := s.SMembers(AgentSessions(a));
    DropSessionsAt(s, a, ids, AgentSessions(a));
    forall sid ensures DeleteByAgent(s, a).At(Session(sid)) == if sid in ids then None else s.At(Session(sid)) {
      DropSessionsAt(s, a, ids, Session(sid));
    }
    forall sid | Session(sid) in DeleteByAgent(s, a).keys ensures AgentOf(DeleteByAgent(s, a), sid) != a {
      assert SessionOk(s, ttl, sid);
      assert DeleteByAgent(s, a).At(Session(sid)) == s.At(Session(sid));
    }
    forall b | b != a ensures DeleteByAgent(s, a).At(AgentSessions(b)) == s.At(AgentSessions(b)) {
      DropSessionsAt(s, a, ids, AgentSessions(b));
    }
  }

  /** Whatever composite id finds a live session is rebuilt from the type stored in that session
      and the raw id cut from it: the header a client sends is the header it gets back. */
  lemma HeaderRoundTrip(s: Store, sid: string, ttl: nat)
    requires Inv(s, ttl) && Session(sid) in s.keys
    ensures Lookup(s, sid).Ok?
    ensures Split(sid).Parts? && Compose(Lookup(s, sid).value.agentType, Split(sid).tail) == sid
    ensures ColonFree(Lookup(s, sid).value.agentType)
  {
    assert SessionOk(s, ttl, sid);
    ComposeSplit(sid);
  }

  /** What is created is what is read, over whatever was bound there; every other session reads as
      before. */
  lemma CreatedReads(s: Store, raw: string, agentID: string, agentType: string, gateway: string, ttl: nat, sid: string)
    requires s.now <= MAX_TIME && ttl > 0
    ensures Lookup(CreateWithID(s, raw, agentID, agentType, gateway, ttl), sid) ==
              if sid == Compose(agentType, raw)
              then Ok(Info(sid, agentID, agentType, gateway, s.now / 1000, s.now / 1000)) else Lookup(s, sid)
  {
    CreateAt(s, raw, agentID, agentType, gateway, ttl, Session(sid));
    ParseFormat(s.now / 1000);
    hide CreateWithID, FormatInt, ParseInt;
  }

  /** Touching changes when a session was last active, and nothing else of any session. */
  lemma TouchedReads(s: Store, sid: string, ttl: nat, sid': string)
    requires s.now <= MAX_TIME && ttl > 0 && Lookup(s, sid).Ok?
    ensures Lookup(Touch(s, sid, ttl), sid') ==
              if sid' == sid then Ok(Lookup(s, sid).value.(lastActiveAt := s.now / 1000)) else Lookup(s, sid')
  {
    TouchAt(s, sid, ttl, Session(sid'));
    ParseFormat(s.now / 1000);
    hide Touch, FormatInt, ParseInt;
  }

  /** A deleted session is not found and in no index of its agent; every other session reads as before. */
  lemma DeletedReads(s: Store, sid: string, ttl: nat, sid': string)
    requires Inv(s, ttl)
    ensures Lookup(Delete(s, sid), sid') == if sid' == sid then Err(SessionNotFound) else Lookup(s, sid')
    ensures sid !in Delete(s, sid).SMembers(AgentSessions(AgentOf(s, sid))) || Session(sid) !in s.keys
  {
    assert SessionOk(s, ttl, sid);
    if Session(sid) in s.keys {
      var a := Lookup(s, sid).value.agentID;
      WithKinded(s, Session(sid), None);
      SRemAt(s.Del(Session(sid)), AgentSessions(a), sid, Session(sid'));
      SRemMembers(s.Del(Session(sid)), AgentSessions(a), sid);
    }
    hide ParseInfo;
  }
}
