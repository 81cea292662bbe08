/** What the agent registry (internal/agent/pool.go) does to the store, as functions of the store,
    and the invariant every one of those operations keeps. */
module Registry {
  import opened Basics
  import opened Decimal
  import opened Keys
  import opened RedisModel

  const STATUS_ONLINE := "online"

  /** Times are in seconds since the epoch. */
  datatype AgentInfo = AgentInfo(
    id: string, agentType: string, gatewayInstance: string, status: string,
    lastHeartbeat: int, connectedAt: int, activeSessions: int)
  {
    function Key(): Key { Agent(agentType, id) }
  }

  datatype Error = AgentNotFound | AgentAlreadyExists | BadField(f: Field) | CountFailed

  function AgentFields(s: Store, info: AgentInfo): Fields {
    map[AgentTypeField := info.agentType,
        GatewayInstance := info.gatewayInstance,
        Status := info.status,
        LastHeartbeat := Seconds(s),
        ConnectedAt := Seconds(s),
        ActiveSessions := "0"]
  }

  function ParseAgentInfo(id: string, vals: Fields): Result<AgentInfo, Error> {
    var heartbeat := ParseInt(Get(vals, LastHeartbeat));
    var connected := ParseInt(Get(vals, ConnectedAt));
    var sessions := ParseInt(Get(vals, ActiveSessions));
    if heartbeat.None? then Err(BadField(LastHeartbeat))
    else if connected.None? then Err(BadField(ConnectedAt))
    else if sessions.None? then Err(BadField(ActiveSessions))
    else Ok(AgentInfo(id, Get(vals, AgentTypeField), Get(vals, GatewayInstance), Get(vals, Status),
                      heartbeat.value, connected.value, sessions.value))
  }

  /** What is found under a key. */
  function LookupUnder(s: Store, k: Key, i: string): Result<AgentInfo, Error> {
    if k in s.keys then ParseAgentInfo(i, s.HGetAll(k)) else Err(AgentNotFound)
  }

  /** What looking one agent up gives. */
  function Lookup(s: Store, t: string, i: string): Result<AgentInfo, Error> {
    LookupUnder(s, Agent(t, i), i)
  }

  /** The state the registration transaction leaves, its hash under the given key: a fresh lease on the
      hash and on the gateway index, and membership in both indexes. */
  function PutAgentUnder(s: Store, k: Key, info: AgentInfo, ttl: nat): Store {
    var t, i, g := info.agentType, info.id, info.gatewayInstance;
    s.With(k, Unexpired(s, HashEntry(s.HGetAll(k) + AgentFields(s, info), Some(s.now + ttl))))
     .With(AgentsByType(t), Some(SetEntry(s.SMembers(AgentsByType(t)) + {i}, DeadlineOf(s, AgentsByType(t)))))
     .With(GatewayAgents(g), Unexpired(s, SetEntry(s.SMembers(GatewayAgents(g)) + {Compose(t, i)}, Some(s.now + ttl))))
  }

  /** That state with the hash under the agent's own key. */
  function PutAgent(s: Store, info: AgentInfo, ttl: nat): Store {
    PutAgentUnder(s, info.Key(), info, ttl)
  }

  function Register(s: Store, info: AgentInfo, ttl: nat): Store {
    if info.Key() in s.keys then s else PutAgent(s, info, ttl)
  }

  function GatewayOf(s: Store, t: string, i: string): string {
    Get(s.HGetAll(Agent(t, i)), GatewayInstance)
  }

  function UnregisterUnder(s: Store, k: Key, t: string, i: string): Store {
    var g := Get(s.HGetAll(k), GatewayInstance);
    var r := s.Del(k).SRem(AgentsByType(t), i);
    if g == "" then r else r.SRem(GatewayAgents(g), Compose(t, i))
  }

  function Unregister(s: Store, t: string, i: string): Store {
    UnregisterUnder(s, Agent(t, i), t, i)
  }

  /** A beat restarts the lease of the hash and of the gateway index it names. */
  function UpdateHeartbeat(s: Store, t: string, i: string, ttl: nat): Store {
    if Agent(t, i) !in s.keys then s
    else
      var g := GatewayOf(s, t, i);
      var r := s.With(Agent(t, i),
          Unexpired(s, HashEntry(s.HGetAll(Agent(t, i))[LastHeartbeat := Seconds(s)], Some(s.now + ttl))));
      if g == "" || GatewayAgents(g) !in s.keys then r
      else r.With(GatewayAgents(g), Unexpired(s, SetEntry(s.SMembers(GatewayAgents(g)), Some(s.now + ttl))))
  }

  function AddSessions(s: Store, t: string, i: string, n: int): Store {
    if Agent(t, i) !in s.keys then s else s.HIncrBy(Agent(t, i), ActiveSessions, n)
  }

  /** The ids of type t that have a live hash: what a scan of the whole store would find. */
  ghost function Scan(s: Store, t: string): set<string> {
    set k | k in s.keys && k.Agent? && k.agentType == t :: k.agentID
  }

  /** The indexed ids of type t that have a live hash. */
  function LiveIDs(s: Store, t: string): set<string> {
    set i | i in s.SMembers(AgentsByType(t)) && Home(t, i) in s.keys
  }

  /** The type index without some of its ids. */
  function DropIDs(s: Store, t: string, ids: set<string>): Store {
    s.With(AgentsByType(t), SetOf(s, AgentsByType(t), s.SMembers(AgentsByType(t)) - ids))
  }

  /** The listed agents are the stored ones under exactly these ids, each once. */
  ghost predicate Listed(s: Store, t: string, agents: seq<AgentInfo>, ids: set<string>) {
    && |agents| == |ids|
    && (forall a <- agents :: a.id in ids && LookupUnder(s, Home(t, a.id), a.id) == Ok(a))
    && (forall i <- ids :: exists a :: a in agents && a.id == i)
  }

  /** What ListByType leaves: the type index without its stale ids. */
  ghost function Prune(s: Store, t: string): Store {
    DropIDs(s, t, s.SMembers(AgentsByType(t)) - Scan(s, t))
  }

  /** The ids whose "t:id" is not one of the members. */
  function IDsWithout(ids: set<string>, t: string, ms: set<string>): set<string> {
    set i | i in ids && Compose(t, i) !in ms
  }

  /** One entry of `DropMembers`. */
  function Kept(s: Store, g: string, ms: set<string>, k: Key): Option<Entry>
    requires k in s.keys
  {
    var e := s.keys[k];
    if k.Agent? && Compose(k.agentType, k.agentID) in ms then None
    else if k.AgentsByType? && ColonFree(k.agentType) && e.SetEntry? then
      SetOf(s, k, IDsWithout(e.members, k.agentType, ms))
    else if k == GatewayAgents(g) && e.SetEntry? then SetOf(s, k, e.members - ms)
    else Some(e)
  }

  /** The store after the members `ms` of gateway index g have been unregistered. */
  function DropMembers(s: Store, g: string, ms: set<string>): Store {
    Db(s.now, map k | k in s.keys && Kept(s, g, ms, k).Some? :: Kept(s, g, ms, k).value)
  }

  function UnregisterByGateway(s: Store, g: string): Store {
    DropMembers(s, g, s.SMembers(GatewayAgents(g))).Del(GatewayAgents(g))
  }

  // ----- The invariant -----

  /** A live agent hash: readable, and leased until its last beat plus the ttl. */
  predicate HashOk(e: Entry, now: nat, ttl: nat, t: string, i: string) {
    && e.HashEntry? && e.deadline.Some? && ttl <= e.deadline.value <= now + ttl
    && Get(e.fields, AgentTypeField) == t
    && Get(e.fields, GatewayInstance) != ""
    && Get(e.fields, LastHeartbeat) == FormatInt((e.deadline.value - ttl) / 1000)
    && ParseAgentInfo(i, e.fields).Ok?
  }

  /** A live agent is in both indexes, and the gateway index is leased at least as long as the hash. */
  predicate Indexed(s: Store, t: string, i: string, g: string, deadline: nat) {
    && i in s.SMembers(AgentsByType(t))
    && Compose(t, i) in s.SMembers(GatewayAgents(g))
    && DeadlineOf(s, GatewayAgents(g)).Some?
    && deadline <= DeadlineOf(s, GatewayAgents(g)).value
  }

  predicate AgentOk(s: Store, ttl: nat, t: string, i: string) {
    Agent(t, i) in s.keys ==>
      && HashOk(s.keys[Agent(t, i)], s.now, ttl, t, i)
      && Indexed(s, t, i, Get(s.keys[Agent(t, i)].fields, GatewayInstance), s.keys[Agent(t, i)].deadline.value)
  }

  /** Type indexes never expire; gateway indexes are leased, and hold "type:id" members only. */
  predicate IndexOk(s: Store, ttl: nat, k: Key) {
    && (k.AgentsByType? ==> DeadlineOf(s, k) == None && (k in s.keys ==> ColonFree(k.agentType)))
    && (k.GatewayAgents? && k in s.keys ==> s.keys[k].deadline.Some?)
    && (k.GatewayAgents? ==> forall m <- s.SMembers(k) :: !ColonFree(m))
  }

  ghost predicate Inv(s: Store, ttl: nat) {
    && WellKinded(s)
    && (forall t, i :: AgentOk(s, ttl, t, i))
    && (forall k :: IndexOk(s, ttl, k))
  }

  lemma PutAgentKinded(s: Store, info: AgentInfo, ttl: nat)
    requires WellKinded(s) && ColonFree(info.agentType)
    ensures WellKinded(PutAgent(s, info, ttl))
  {
    var t, i, g := info.agentType, info.id, info.gatewayInstance;
    var fields := s.HGetAll(Agent(t, i)) + AgentFields(s, info);
    assert Status in fields;
    var s1 := s.With(Agent(t, i), Unexpired(s, HashEntry(fields, Some(s.now + ttl))));
    WithKinded(s, Agent(t, i), Unexpired(s, HashEntry(fields, Some(s.now + ttl))));
    var e2 := SetEntry(s.SMembers(AgentsByType(t)) + {i}, DeadlineOf(s, AgentsByType(t)));
    assert AgentsByType(t) in s.keys ==> Fits(AgentsByType(t), s.keys[AgentsByType(t)], s.now);
    WithKinded(s1, AgentsByType(t), Some(e2));
    var e3 := SetEntry(s.SMembers(GatewayAgents(g)) + {Compose(t, i)}, Some(s.now + ttl));
    WithKinded(s1.With(AgentsByType(t), Some(e2)), GatewayAgents(g), Unexpired(s, e3));
  }

  lemma PutAgentParses(s: Store, info: AgentInfo, have: Fields)
    requires s.now <= MAX_TIME
    ensures ParseAgentInfo(info.id, have + AgentFields(s, info)).Ok?
  {
    ParseFormat(s.now / 1000);
    ParseFormat(0);
    assert FormatInt(0) == "0";
  }

  /** An agent whose hash an operation leaves alone stays in order as long as it stays indexed. */
  lemma OtherAgentOk(s: Store, s': Store, ttl: nat, t: string, i: string)
    requires AgentOk(s, ttl, t, i) && s.now == s'.now
    requires s'.At(Agent(t, i)) == s.At(Agent(t, i))
    requires Agent(t, i) in s.keys ==>
               Indexed(s', t, i, Get(s.keys[Agent(t, i)].fields, GatewayInstance), s.keys[Agent(t, i)].deadline.value)
    ensures AgentOk(s', ttl, t, i)
  {
  }

  /** The store PutAgent leaves, read back at each key. */
  lemma PutAgentAt(s: Store, info: AgentInfo, ttl: nat, k: Key)
    requires ttl > 0
    ensures PutAgent(s, info, ttl).now == s.now
    ensures var t, i, g := info.agentType, info.id, info.gatewayInstance;
            PutAgent(s, info, ttl).At(k) ==
              if k == Agent(t, i) then Some(HashEntry(s.HGetAll(k) + AgentFields(s, info), Some(s.now + ttl)))
              else if k == AgentsByType(t) then Some(SetEntry(s.SMembers(k) + {i}, DeadlineOf(s, k)))
              else if k == GatewayAgents(g) then Some(SetEntry(s.SMembers(k) + {Compose(t, i)}, Some(s.now + ttl)))
              else s.At(k)
  {
  }

  /** A registration leases the hash and the gateway index for the whole ttl. */
  lemma RegistrationLeases(s: Store, k: Key, info: AgentInfo, ttl: nat)
    requires ttl > 0 && k.Agent?
    ensures var s' := PutAgentUnder(s, k, info, ttl);
      DeadlineOf(s', k) == Some(s.now + ttl) == DeadlineOf(s', GatewayAgents(info.gatewayInstance))
  {
  }

  lemma PutAgentOwn(s: Store, s': Store, info: AgentInfo, ttl: nat)
    requires ttl > 0 && s.now <= MAX_TIME && s.now == s'.now && info.gatewayInstance != ""
    requires s'.At(info.Key()) == Some(HashEntry(s.HGetAll(info.Key()) + AgentFields(s, info), Some(s.now + ttl)))
    requires Indexed(s', info.agentType, info.id, info.gatewayInstance, s.now + ttl)
    ensures AgentOk(s', ttl, info.agentType, info.id)
  {
    PutAgentParses(s, info, s.HGetAll(info.Key()));
  }

  lemma PutAgentAgentOk(s: Store, s': Store, info: AgentInfo, ttl: nat, t: string, i: string)
    requires Inv(s, ttl) && info.gatewayInstance != "" && ttl > 0
    requires s' == PutAgent(s, info, ttl)
    ensures AgentOk(s', ttl, t, i)
  {
    var g := info.gatewayInstance;
    PutAgentAt(s, info, ttl, Agent(t, i));
    PutAgentAt(s, info, ttl, AgentsByType(t));
    PutAgentAt(s, info, ttl, GatewayAgents(g));
    if Agent(t, i) == info.Key() {
      PutAgentOwn(s, s', info, ttl);
    } else if Agent(t, i) in s.keys {
      assert AgentOk(s, ttl, t, i);
      var h := Get(s.keys[Agent(t, i)].fields, GatewayInstance);
      PutAgentAt(s, info, ttl, GatewayAgents(h));
      OtherAgentOk(s, s', ttl, t, i);
    }
  }

  /** With a zero lease nothing survives its own registration. */
  lemma ZeroLease(s: Store, t: string, i: string)
    requires Inv(s, 0)
    ensures Agent(t, i) !in s.keys
  {
    assert AgentOk(s, 0, t, i);
    assert Agent(t, i) in s.keys ==> Fits(Agent(t, i), s.keys[Agent(t, i)], s.now);
  }

  /** With no lease at all a registration leaves only the type index. */
  lemma ZeroLeaseIndex(s: Store, info: AgentInfo, k: Key)
    requires IndexOk(s, 0, k) && ColonFree(info.agentType)
    ensures IndexOk(PutAgent(s, info, 0), 0, k)
  {
  }

  lemma PutAgentKeepsInv(s: Store, info: AgentInfo, ttl: nat)
    requires Inv(s, ttl) && ColonFree(info.agentType) && info.gatewayInstance != ""
    ensures Inv(PutAgent(s, info, ttl), ttl)
  {
    var s' := PutAgent(s, info, ttl);
    PutAgentKinded(s, info, ttl);
    ComposeSplit(Compose(info.agentType, info.id));
    hide PutAgent, HashOk, WellKinded, Compose;
    forall t, i ensures AgentOk(s', ttl, t, i) {
      if ttl > 0 {
        PutAgentAgentOk(s, s', info, ttl, t, i);
      } else {
        ZeroLease(s, t, i);
      }
    }
    hide AgentOk;
    forall k ensures IndexOk(s', ttl, k) {
      assert IndexOk(s, ttl, k);
      if ttl > 0 {
        PutAgentAt(s, info, ttl, k);
      } else {
        assert IndexOk(s', ttl, k) by { ZeroLeaseIndex(s, info, k); }
      }
    }
  }

  /** Removing ids or members from an index never disturbs an agent that keeps its own. */
  lemma SRemKeepsAgentOk(s: Store, ttl: nat, k: Key, m: string, t: string, i: string)
    requires WellKinded(s) && k.WellFormed() && !k.IsHash()
    requires AgentOk(s, ttl, t, i)
    requires Agent(t, i) in s.keys ==> !(k == AgentsByType(t) && m == i) && !(k.GatewayAgents? && m == Compose(t, i))
    ensures AgentOk(s.SRem(k, m), ttl, t, i)
  {
    SRemMembers(s, k, m);
    if Agent(t, i) in s.keys {
      assert s.SRem(k, m).At(Agent(t, i)) == s.At(Agent(t, i));
      var g := Get(s.keys[Agent(t, i)].fields, GatewayInstance);
      assert k != GatewayAgents(g) ==> s.SRem(k, m).At(GatewayAgents(g)) == s.At(GatewayAgents(g));
      assert k != AgentsByType(t) ==> s.SRem(k, m).At(AgentsByType(t)) == s.At(AgentsByType(t));
      OtherAgentOk(s, s.SRem(k, m), ttl, t, i);
    }
  }

  lemma SRemKeepsIndexOk(s: Store, ttl: nat, k: Key, m: string, k': Key)
    requires WellKinded(s) && k.WellFormed() && IndexOk(s, ttl, k')
    ensures IndexOk(s.SRem(k, m), ttl, k')
  {
    SRemMembers(s, k, m);
    assert k' != k ==> s.SRem(k, m).At(k') == s.At(k');
  }

  lemma DelKeeps(s: Store, ttl: nat, t: string, i: string)
    requires Inv(s, ttl)
    ensures Inv(s.Del(Agent(t, i)), ttl)
  {
    var s' := s.Del(Agent(t, i));
    forall t', i' ensures AgentOk(s', ttl, t', i') {
      assert AgentOk(s, ttl, t', i');
    }
    forall k ensures IndexOk(s', ttl, k) {
      assert IndexOk(s, ttl, k);
    }
  }

  lemma SRemKeepsInv(s: Store, ttl: nat, k: Key, m: string)
    requires Inv(s, ttl) && k.WellFormed() && !k.IsHash()
    requires k.AgentsByType? ==> Agent(k.agentType, m) !in s.keys
    requires k.GatewayAgents? ==> forall t, i :: Agent(t, i) in s.keys ==> m != Compose(t, i)
    ensures Inv(s.SRem(k, m), ttl)
  {
    SRemMembers(s, k, m);
    forall t, i ensures AgentOk(s.SRem(k, m), ttl, t, i) {
      assert AgentOk(s, ttl, t, i);
      SRemKeepsAgentOk(s, ttl, k, m, t, i);
    }
    forall k' ensures IndexOk(s.SRem(k, m), ttl, k') {
      assert IndexOk(s, ttl, k');
      SRemKeepsIndexOk(s, ttl, k, m, k');
    }
  }

  lemma UnregisterKeepsInv(s: Store, t: string, i: string, ttl: nat)
    requires Inv(s, ttl) && ColonFree(t)
    ensures Inv(Unregister(s, t, i), ttl)
  {
    DelKeeps(s, ttl, t, i);
    var s1 := s.Del(Agent(t, i));
    SRemKeepsInv(s1, ttl, AgentsByType(t), i);
    var s2 := s1.SRem(AgentsByType(t), i);
    SRemMembers(s1, AgentsByType(t), i);
    forall t', i' | Agent(t', i') in s2.keys ensures Compose(t, i) != Compose(t', i') {
      assert s2.At(Agent(t', i')) == s1.At(Agent(t', i'));
      assert Fits(Agent(t', i'), s2.keys[Agent(t', i')], s2.now);
      if Compose(t, i) == Compose(t', i') {
        ComposeInjective(t, i, t', i');
      }
    }
    SRemKeepsInv(s2, ttl, GatewayAgents(GatewayOf(s, t, i)), Compose(t, i));
  }

  lemma HeartbeatAt(s: Store, t: string, i: string, ttl: nat, k: Key)
    requires ttl > 0 && Agent(t, i) in s.keys
    ensures UpdateHeartbeat(s, t, i, ttl).now == s.now
    ensures UpdateHeartbeat(s, t, i, ttl).At(k) ==
              if k == Agent(t, i) then Some(HashEntry(s.HGetAll(k)[LastHeartbeat := Seconds(s)], Some(s.now + ttl)))
              else if k == GatewayAgents(GatewayOf(s, t, i)) && GatewayOf(s, t, i) != "" && k in s.keys then
                Some(SetEntry(s.SMembers(k), Some(s.now + ttl)))
              else s.At(k)
  {
  }

  /** A beat that finds the hash leases it for the whole ttl, and the live index of the gateway it names. */
  lemma BeatLeases(s: Store, t: string, i: string, ttl: nat)
    requires ttl > 0 && Agent(t, i) in s.keys
    ensures var s', g := UpdateHeartbeat(s, t, i, ttl), GatewayOf(s, t, i);
      && DeadlineOf(s', Agent(t, i)) == Some(s.now + ttl)
      && (g != "" && GatewayAgents(g) in s.keys ==> DeadlineOf(s', GatewayAgents(g)) == Some(s.now + ttl))
  {
    HeartbeatAt(s, t, i, ttl, Agent(t, i));
    HeartbeatAt(s, t, i, ttl, GatewayAgents(GatewayOf(s, t, i)));
  }

  lemma HeartbeatParses(s: Store, i: string, fields: Fields)
    requires s.now <= MAX_TIME && ParseAgentInfo(i, fields).Ok?
    ensures ParseAgentInfo(i, fields[LastHeartbeat := Seconds(s)]).Ok?
  {
    ParseFormat(s.now / 1000);
  }

  lemma HeartbeatKinded(s: Store, t: string, i: string, ttl: nat)
    requires WellKinded(s)
    ensures WellKinded(UpdateHeartbeat(s, t, i, ttl))
  {
    if Agent(t, i) in s.keys {
      assert Fits(Agent(t, i), s.keys[Agent(t, i)], s.now);
      var fields := s.HGetAll(Agent(t, i))[LastHeartbeat := Seconds(s)];
      assert LastHeartbeat in fields;
      var e := Unexpired(s, HashEntry(fields, Some(s.now + ttl)));
      WithKinded(s, Agent(t, i), e);
      var g := GatewayAgents(GatewayOf(s, t, i));
      if g in s.keys {
        assert Fits(g, s.keys[g], s.now);
        WithKinded(s.With(Agent(t, i), e), g, Unexpired(s, SetEntry(s.SMembers(g), Some(s.now + ttl))));
      }
    }
  }

  lemma IndexedAfterBeat(s: Store, ttl: nat, t: string, i: string, t': string, i': string)
    requires ttl > 0 && Agent(t, i) in s.keys && Agent(t', i') in s.keys && AgentOk(s, ttl, t', i')
              && AgentOk(s, ttl, t, i)
    ensures var deadline := if Agent(t', i') == Agent(t, i) then s.now + ttl else s.keys[Agent(t', i')].deadline.value;
      Indexed(UpdateHeartbeat(s, t, i, ttl), t', i', GatewayOf(s, t', i'), deadline)
  {
    HeartbeatAt(s, t, i, ttl, AgentsByType(t'));
    HeartbeatAt(s, t, i, ttl, GatewayAgents(GatewayOf(s, t', i')));
    hide UpdateHeartbeat, ParseAgentInfo, FormatInt;
  }

  lemma OwnBeatOk(s: Store, s': Store, ttl: nat, t: string, i: string)
    requires Agent(t, i) in s.keys && AgentOk(s, ttl, t, i) && s'.now == s.now <= MAX_TIME
    requires var fields := s.HGetAll(Agent(t, i))[LastHeartbeat := Seconds(s)];
      s'.At(Agent(t, i)) == Some(HashEntry(fields, Some(s.now + ttl)))
    requires Indexed(s', t, i, GatewayOf(s, t, i), s.now + ttl)
    ensures AgentOk(s', ttl, t, i)
  {
    HeartbeatParses(s, i, s.HGetAll(Agent(t, i)));
    hide Indexed, ParseAgentInfo, FormatInt;
  }

  lemma HeartbeatAgentOk(s: Store, s': Store, ttl: nat, t: string, i: string, t': string, i': string)
    requires Inv(s, ttl) && ttl > 0 && Agent(t, i) in s.keys
    requires s' == UpdateHeartbeat(s, t, i, ttl)
    ensures AgentOk(s', ttl, t', i')
  {
    assert AgentOk(s, ttl, t', i') && AgentOk(s, ttl, t, i) && s.now <= MAX_TIME;
    hide Inv, UpdateHeartbeat;
    if Agent(t', i') in s.keys {
      IndexedAfterBeat(s, ttl, t, i, t', i');
    }
    HeartbeatAt(s, t, i, ttl, Agent(t', i'));
    hide Indexed, ParseAgentInfo, FormatInt;
    if Agent(t', i') == Agent(t, i) {
      OwnBeatOk(s, s', ttl, t, i);
    } else {
      OtherAgentOk(s, s', ttl, t', i');
    }
  }

  lemma HeartbeatKeepsInv(s: Store, t: string, i: string, ttl: nat)
    requires Inv(s, ttl)
    ensures Inv(UpdateHeartbeat(s, t, i, ttl), ttl)
  {
    var s' := UpdateHeartbeat(s, t, i, ttl);
    HeartbeatKinded(s, t, i, ttl);
    if ttl == 0 {
      ZeroLease(s, t, i);
    } else if Agent(t, i) in s.keys {
      forall t', i' ensures AgentOk(s', ttl, t', i') {
        HeartbeatAgentOk(s, s', ttl, t, i, t', i');
      }
      forall k ensures IndexOk(s', ttl, k) {
        HeartbeatAt(s, t, i, ttl, k);
        assert IndexOk(s, ttl, k);
      }
    }
  }

  /** Counting sessions changes that one field of that one hash: an overflow changes nothing. */
  lemma AddSessionsAt(s: Store, t: string, i: string, n: int, k: Key)
    requires WellKinded(s)
    ensures var s' := AddSessions(s, t, i, n);
      && s'.now == s.now
      && (k != Agent(t, i) ==> s'.At(k) == s.At(k))
      && (Agent(t, i) in s.keys <==> Agent(t, i) in s'.keys)
      && (Agent(t, i) in s.keys ==>
            && s'.keys[Agent(t, i)].deadline == s.keys[Agent(t, i)].deadline
            && s'.keys[Agent(t, i)].HashEntry?
            && (s'.HGetAll(Agent(t, i)) == s.HGetAll(Agent(t, i))
                || exists m :: InInt64(m)
                    && s'.HGetAll(Agent(t, i)) == s.HGetAll(Agent(t, i))[ActiveSessions := FormatInt(m)]))
  {
    if Agent(t, i) in s.keys {
      assert Fits(Agent(t, i), s.keys[Agent(t, i)], s.now);
      var f := s.HGetAll(Agent(t, i));
      var v := if ActiveSessions in f then ParseInt(f[ActiveSessions]) else Some(0);
      if v.Some? && InInt64(v.value + n) {
        assert AddSessions(s, t, i, n).HGetAll(Agent(t, i)) == f + map[ActiveSessions := FormatInt(v.value + n)];
        assert f + map[ActiveSessions := FormatInt(v.value + n)] == f[ActiveSessions := FormatInt(v.value + n)];
      }
    }
  }

  lemma CountHashOk(e: Entry, e': Entry, m: int, now: nat, ttl: nat, t: string, i: string)
    requires HashOk(e, now, ttl, t, i) && InInt64(m)
    requires e' == HashEntry(e.fields[ActiveSessions := FormatInt(m)], e.deadline)
    ensures HashOk(e', now, ttl, t, i) && Get(e'.fields, GatewayInstance) == Get(e.fields, GatewayInstance)
  {
    ParseFormat(m);
  }

  lemma AddSessionsAgentOk(s: Store, s': Store, t: string, i: string, n: int, ttl: nat, t': string, i': string)
    requires Inv(s, ttl) && s' == AddSessions(s, t, i, n)
    ensures AgentOk(s', ttl, t', i')
  {
    assert AgentOk(s, ttl, t', i');
    var k := Agent(t', i');
    AddSessionsAt(s, t, i, n, k);
    AddSessionsAt(s, t, i, n, AgentsByType(t'));
    if k in s.keys {
      AddSessionsAt(s, t, i, n, GatewayAgents(Get(s.keys[k].fields, GatewayInstance)));
      if s'.At(k) == s.At(k) {
        OtherAgentOk(s, s', ttl, t', i');
      } else {
        var m :| InInt64(m) && s'.HGetAll(k) == s.HGetAll(k)[ActiveSessions := FormatInt(m)];
        CountHashOk(s.keys[k], s'.keys[k], m, s.now, ttl, t', i');
      }
    }
  }

  lemma AddSessionsKeepsInv(s: Store, t: string, i: string, n: int, ttl: nat)
    requires Inv(s, ttl)
    ensures Inv(AddSessions(s, t, i, n), ttl)
  {
    var s' := AddSessions(s, t, i, n);
    forall k | k in s'.keys ensures Fits(k, s'.keys[k], s'.now) {
      AddSessionsAt(s, t, i, n, k);
      assert k in s.keys ==> Fits(k, s.keys[k], s.now);
    }
    forall t', i' ensures AgentOk(s', ttl, t', i') {
      AddSessionsAt(s, t, i, n, Agent(t', i'));
      AddSessionsAgentOk(s, s', t, i, n, ttl, t', i');
    }
    forall k ensures IndexOk(s', ttl, k) {
      AddSessionsAt(s, t, i, n, k);
      assert IndexOk(s, ttl, k);
    }
  }

  /** Taking ids without a live hash out of a type index. */
  lemma DropIDsKeepsInv(s: Store, t: string, ids: set<string>, ttl: nat)
    requires Inv(s, ttl) && ids !! Scan(s, t)
    ensures Inv(DropIDs(s, t, ids), ttl)
  {
    var s', k := DropIDs(s, t, ids), AgentsByType(t);
    assert IndexOk(s, ttl, k);
    forall t', i' ensures AgentOk(s', ttl, t', i') {
      assert AgentOk(s, ttl, t', i');
      assert s'.At(Agent(t', i')) == s.At(Agent(t', i'));
      if Agent(t', i') in s.keys {
        assert i' in Scan(s, t');
        var g := Get(s.keys[Agent(t', i')].fields, GatewayInstance);
        assert s'.At(GatewayAgents(g)) == s.At(GatewayAgents(g));
        OtherAgentOk(s, s', ttl, t', i');
      }
    }
    forall k' ensures IndexOk(s', ttl, k') {
      assert IndexOk(s, ttl, k');
    }
  }

  lemma DropMembersAgentOk(s: Store, g: string, ms: set<string>, ttl: nat, t: string, i: string)
    requires Inv(s, ttl)
    ensures AgentOk(DropMembers(s, g, ms), ttl, t, i)
  {
    var s' := DropMembers(s, g, ms);
    assert AgentOk(s, ttl, t, i);
    if Agent(t, i) in s'.keys {
      assert Compose(t, i) !in ms;
      var h := Get(s.keys[Agent(t, i)].fields, GatewayInstance);
      assert i in IDsWithout(s.SMembers(AgentsByType(t)), t, ms);
      assert AgentsByType(t) in s.keys && Kept(s, g, ms, AgentsByType(t)).Some?;
      assert Compose(t, i) in s.SMembers(GatewayAgents(h)) - ms;
      assert GatewayAgents(h) in s.keys && Kept(s, g, ms, GatewayAgents(h)).Some?;
      OtherAgentOk(s, s', ttl, t, i);
    }
  }

  lemma DropMembersKinded(s: Store, g: string, ms: set<string>)
    requires WellKinded(s)
    ensures WellKinded(DropMembers(s, g, ms))
  {
    forall k | k in DropMembers(s, g, ms).keys ensures Fits(k, DropMembers(s, g, ms).keys[k], s.now) {
      assert Fits(k, s.keys[k], s.now);
    }
  }

  lemma UnregisterByGatewayKeepsInv(s: Store, g: string, ttl: nat)
    requires Inv(s, ttl)
    ensures Inv(UnregisterByGateway(s, g), ttl)
  {
    var ms := s.SMembers(GatewayAgents(g));
    var s1 := DropMembers(s, g, ms);
    assert GatewayAgents(g) !in s1.keys;
    assert UnregisterByGateway(s, g) == s1;
    DropMembersKinded(s, g, ms);
    forall t, i ensures AgentOk(s1, ttl, t, i) {
      DropMembersAgentOk(s, g, ms, ttl, t, i);
    }
    forall k ensures IndexOk(s1, ttl, k) {
      assert IndexOk(s, ttl, k);
    }
  }

  lemma AdvanceKeepsInv(s: Store, dt: nat, ttl: nat)
    requires Inv(s, ttl) && s.now + dt <= MAX_TIME
    ensures Inv(s.Advance(dt), ttl)
  {
    var s' := s.Advance(dt);
    forall k | k in s'.keys ensures Fits(k, s'.keys[k], s'.now) {
      assert Fits(k, s.keys[k], s.now);
    }
    forall t, i ensures AgentOk(s', ttl, t, i) {
      assert AgentOk(s, ttl, t, i);
      assert IndexOk(s, ttl, AgentsByType(t));
    }
    forall k ensures IndexOk(s', ttl, k) {
      assert IndexOk(s, ttl, k);
    }
  }

  /** An operation that leaves the registry keys alone keeps the registry in order. */
  lemma ForeignKeepsInv(s: Store, s': Store, ttl: nat)
    requires Inv(s, ttl) && WellKinded(s') && s'.now == s.now
    requires forall k: Key :: k.Agent? || k.AgentsByType? || k.GatewayAgents? ==> s'.At(k) == s.At(k)
    ensures Inv(s', ttl)
  {
    forall t, i ensures AgentOk(s', ttl, t, i) {
      assert AgentOk(s, ttl, t, i);
      assert s'.At(Agent(t, i)) == s.At(Agent(t, i)) && s'.At(AgentsByType(t)) == s.At(AgentsByType(t));
      if Agent(t, i) in s.keys {
        var g := Get(s.keys[Agent(t, i)].fields, GatewayInstance);
        assert s'.At(GatewayAgents(g)) == s.At(GatewayAgents(g));
        OtherAgentOk(s, s', ttl, t, i);
      }
    }
    forall k ensures IndexOk(s', ttl, k) {
      assert IndexOk(s, ttl, k);
      assert k.AgentsByType? || k.GatewayAgents? ==> s'.At(k) == s.At(k);
    }
  }
}
