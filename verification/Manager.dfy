/** The session manager (internal/session/manager.go), proved against `Sessions`. */
module SessionManager {
  import opened Basics
  import opened Decimal
  import opened Keys
  import opened RedisModel
  import opened Sessions

  lemma CreateTransaction(s: Store, raw: string, agentID: string, agentType: string, gateway: string, ttl: nat)
    requires WellKinded(s)
    ensures var k := Session(Compose(agentType, raw));
            s.HSet(k, SessionFields(s, agentID, agentType, gateway)).Expire(k, ttl)
             .SAdd(AgentSessions(agentID), Compose(agentType, raw))
            == CreateWithID(s, raw, agentID, agentType, gateway, ttl)
  {
    var k := Session(Compose(agentType, raw));
    assert k in s.keys ==> Fits(k, s.keys[k], s.now);
    assert AgentSessions(agentID) in s.keys ==> Fits(AgentSessions(agentID), s.keys[AgentSessions(agentID)], s.now);
    HSetExpire(s, k, SessionFields(s, agentID, agentType, gateway), ttl);
    SAddWith(s.HSet(k, SessionFields(s, agentID, agentType, gateway)).Expire(k, ttl), AgentSessions(agentID),
        Compose(agentType, raw));
  }

  lemma TouchTransaction(s: Store, sid: string, ttl: nat)
    requires WellKinded(s) && Session(sid) in s.keys
    ensures s.HSet(Session(sid), map[LastActiveAt := Seconds(s)]).Expire(Session(sid), ttl) == Touch(s, sid, ttl)
  {
    assert Fits(Session(sid), s.keys[Session(sid)], s.now);
    HSetExpire(s, Session(sid), map[LastActiveAt := Seconds(s)], ttl);
    var f := s.HGetAll(Session(sid));
    assert f + map[LastActiveAt := Seconds(s)] == f[LastActiveAt := Seconds(s)];
  }

  lemma DropSessionsKinded(s: Store, a: string, ids: set<string>)
    requires WellKinded(s)
    ensures WellKinded(DropSessions(s, a, ids))
  {
    forall k | k in DropSessions(s, a, ids).keys ensures Fits(k, DropSessions(s, a, ids).keys[k], s.now) {
      DropSessionsAt(s, a, ids, k);
      assert k in s.keys ==> Fits(k, s.keys[k], s.now);
    }
  }

  /** Deleting one listed session, live or not, is one more session dropped. */
  lemma DropOneSession(s: Store, a: string, ids: set<string>, sid: string)
    requires WellKinded(s)
    ensures DropSessions(s, a, ids).Del(Session(sid)).SRem(AgentSessions(a), sid) == DropSessions(s, a, ids + {sid})
    ensures Session(sid) !in DropSessions(s, a, ids).keys ==>
              DropSessions(s, a, ids).Del(Session(sid)) == DropSessions(s, a, ids)
  {
    var d := DropSessions(s, a, ids);
    DropSessionsKinded(s, a, ids);
    WithKinded(d, Session(sid), None);
    var l, r := d.Del(Session(sid)).SRem(AgentSessions(a), sid), DropSessions(s, a, ids + {sid});
    DropSessionsAt(s, a, ids, AgentSessions(a));
    assert s.SMembers(AgentSessions(a)) - ids - {sid} == s.SMembers(AgentSessions(a)) - (ids + {sid});
    forall k ensures l.At(k) == r.At(k) {
      SRemAt(d.Del(Session(sid)), AgentSessions(a), sid, k);
      DropSessionsAt(s, a, ids, k);
      DropSessionsAt(s, a, ids + {sid}, k);
    }
    SameStore(l, r);
  }

  lemma DropNoSession(s: Store, a: string)
    requires WellKinded(s)
    ensures DropSessions(s, a, {}) == s
  {
    var k := AgentSessions(a);
    assert k in s.keys ==> Fits(k, s.keys[k], s.now);
    assert s.SMembers(k) - {} == s.SMembers(k);
    assert DropSessions(s, a, {}).keys == s.keys;
  }

  class Manager {
    const client: Redis
    const ttl: nat

    constructor (client: Redis, ttl: nat)
      ensures this.client == client && this.ttl == ttl
    {
      this.client := client;
      this.ttl := ttl;
    }

    method CreateWithID(raw: string, agentID: string, agentType: string, gateway: string) returns (info: Info)
      requires client.Valid()
      modifies client
      ensures client.Valid()
      ensures client.view == Sessions.CreateWithID(old(client.view), raw, agentID, agentType, gateway, ttl)
      ensures info == Info(Compose(agentType, raw), agentID, agentType, gateway,
                           old(client.view).now / 1000, old(client.view).now / 1000)
    {
      CreateTransaction(client.view, raw, agentID, agentType, gateway, ttl);
      var id, now := Compose(agentType, raw), client.db.now / 1000;
      var fields := map[AgentIDField := agentID, AgentTypeField := agentType, GatewayInstance := gateway,
                        CreatedAt := FormatInt(now), LastActiveAt := FormatInt(now)];
      assert CreatedAt in fields;
      client.HSet(Session(id), fields);
      client.Expire(Session(id), ttl);
      client.SAdd(AgentSessions(agentID), id);
      info := Info(id, agentID, agentType, gateway, now, now);
    }

    method Get(sid: string) returns (r: Result<Info, Error>)
      requires client.Valid()
      ensures r == Lookup(client.view, sid)
    {
      var vals := client.HGetAll(Session(sid));
      r := if vals == map[] then Err(SessionNotFound) else ParseInfo(sid, vals);
    }

    method Touch(sid: string) returns (r: Result<(), Error>)
      requires client.Valid()
      modifies client
      ensures client.Valid() && client.view == Sessions.Touch(old(client.view), sid, ttl)
      ensures r == if Session(sid) in old(client.view).keys then Ok(()) else Err(SessionNotFound)
    {
      var known := client.Exists(Session(sid));
      if !known {
        return Err(SessionNotFound);
      }
      TouchTransaction(client.view, sid, ttl);
      var seen := map[LastActiveAt := FormatInt(client.db.now / 1000)];
      assert LastActiveAt in seen;
      client.HSet(Session(sid), seen);
      client.Expire(Session(sid), ttl);
      r := Ok(());
    }

    method Delete(sid: string) returns (r: Result<(), Error>)
      requires client.Valid()
      modifies client
      ensures client.Valid() && client.view == Sessions.Delete(old(client.view), sid)
      ensures r == match Lookup(old(client.view), sid) case Ok(_) => Ok(()) case Err(e) => Err(e)
    {
      var got := Get(sid);
      match got
      case Err(e) => r := Err(e);
      case Ok(info) =>
        client.Del(Session(sid));
        client.SRem(AgentSessions(info.agentID), sid);
        r := Ok(());
    }

    /** Goes over the ids it read: a session that has expired is only taken out of the index. */
    method DeleteByAgent(agentID: string)
      requires client.Valid()
      modifies client
      ensures client.Valid() && client.view == Sessions.DeleteByAgent(old(client.view), agentID)
    {
      hide DropSessions, WellKinded, Renders;
      ghost var s: Store, done: set<string> := client.view, {};
      var ids := client.SMembers(AgentSessions(agentID));
      DropNoSession(s, agentID);
      for n := 0 to |ids|
        invariant client.Valid() && client.view == DropSessions(s, agentID, done)
        invariant forall i :: i in done <==> i in ids[..n]
      {
        var sid := ids[n];
        assert ids[..n + 1] == ids[..n] + [sid];
        DropOneSession(s, agentID, done, sid);
        var known := client.Exists(Session(sid));
        if !known {
          client.SRem(AgentSessions(agentID), sid);
        } else {
          client.Del(Session(sid));
          client.SRem(AgentSessions(agentID), sid);
        }
        done := done + {sid};
      }
      assert ids[..|ids|] == ids;
      assert done == s.SMembers(AgentSessions(agentID));
    }
  }
}
