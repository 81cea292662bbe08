/** Whole runs: any gateways' registry, session and advertising operations, in any order, with time
    passing in between. Each operation is one step. */
module Runs {
  import opened Basics
  import opened Keys
  import opened RedisModel
  import R = Registry
  import S = Sessions
  import G = Gateways

  /** The leases all gateways share, in milliseconds. */
  datatype Config = Config(agentTTL: nat, sessionTTL: nat, gatewayTTL: nat)

  datatype Op =
    | Tick(dt: nat)
    | Register(info: R.AgentInfo)
    | ReRegister(info: R.AgentInfo)
    | Unregister(t: string, i: string)
    | Heartbeat(t: string, i: string)
    | AddSessions(t: string, i: string, n: int)
    | ListByType(t: string)
    | UnregisterByGateway(g: string)
    | CreateSession(raw: string, agentID: string, agentType: string, gateway: string)
    | TouchSession(sid: string)
    | DeleteSession(sid: string)
    | DeleteByAgent(a: string)
    | RegisterInstance(g: string, addr: string)
    | RefreshKeepalive(g: string)
    | UnregisterInstance(g: string)

  ghost function Apply(s: Store, c: Config, op: Op): Store {
    match op
    case Tick(dt) => s.Advance(dt)
    case Register(info) => R.Register(s, info, c.agentTTL)
    case ReRegister(info) => R.PutAgent(s, info, c.agentTTL)
    case Unregister(t, i) => R.Unregister(s, t, i)
    case Heartbeat(t, i) => R.UpdateHeartbeat(s, t, i, c.agentTTL)
    case AddSessions(t, i, n) => R.AddSessions(s, t, i, n)
    case ListByType(t) => R.Prune(s, t)
    case UnregisterByGateway(g) => R.UnregisterByGateway(s, g)
    case CreateSession(raw, a, t, g) => S.CreateWithID(s, raw, a, t, g, c.sessionTTL)
    case TouchSession(sid) => S.Touch(s, sid, c.sessionTTL)
    case DeleteSession(sid) => S.Delete(s, sid)
    case DeleteByAgent(a) => S.DeleteByAgent(s, a)
    case RegisterInstance(g, addr) => G.RegisterInstance(s, g, addr, c.gatewayTTL)
    case RefreshKeepalive(g) => G.RefreshKeepalive(s, g, c.gatewayTTL)
    case UnregisterInstance(g) => G.UnregisterInstance(s, g)
  }

  /** Agent types carry no colon, gateways have a name, and the clock stays in range. */
  predicate Allowed(s: Store, op: Op) {
    match op
    case Tick(dt) => s.now + dt <= MAX_TIME
    case Register(info) => ColonFree(info.agentType) && info.gatewayInstance != ""
    case ReRegister(info) => ColonFree(info.agentType) && info.gatewayInstance != ""
    case Unregister(t, _) => ColonFree(t)
    case CreateSession(_, _, t, _) => ColonFree(t)
    case _ => true
  }

  /** The store after each operation of a run. */
  ghost function Run(s: Store, c: Config, ops: seq<Op>): Store
    decreases |ops|
  {
    if ops == [] then s else Run(Apply(s, c, ops[0]), c, ops[1..])
  }

  lemma {:induction false} RunAppend(s: Store, c: Config, a: seq<Op>, b: seq<Op>)
    ensures Run(s, c, a + b) == Run(Run(s, c, a), c, b)
    decreases |a|
  {
    if a == [] {
      assert a + b == b;
    } else {
      assert (a + b)[1..] == a[1..] + b;
      RunAppend(Apply(s, c, a[0]), c, a[1..], b);
    }
  }

  lemma RunShort(s: Store, c: Config, ops: seq<Op>)
    requires |ops| <= 2
    ensures Run(s, c, ops) == if ops == [] then s
                              else if |ops| == 1 then Apply(s, c, ops[0]) else Apply(Apply(s, c, ops[0]), c, ops[1])
  {
    hide Apply;
    if |ops| == 2 {
      assert ops[1..][1..] == [];
      assert Run(Apply(s, c, ops[0]), c, ops[1..]) == Apply(Apply(s, c, ops[0]), c, ops[1]);
    }
  }

  ghost predicate AllAllowed(s: Store, c: Config, ops: seq<Op>)
    decreases |ops|
  {
    ops != [] ==> Allowed(s, ops[0]) && AllAllowed(Apply(s, c, ops[0]), c, ops[1..])
  }

  ghost predicate Inv(s: Store, c: Config) {
    R.Inv(s, c.agentTTL) && S.Inv(s, c.sessionTTL)
  }

  lemma EmptyInv(start: nat, c: Config)
    requires start <= MAX_TIME
    ensures Inv(Db(start, map[]), c)
  {
  }

  datatype Family = Agents | Sessions | Gateways | Time

  function KeyFamily(k: Key): Family {
    match k
    case Session(_) => Sessions
    case AgentSessions(_) => Sessions
    case Gateway(_) => Gateways
    case _ => Agents
  }

  function OpFamily(op: Op): Family {
    if op.Tick? then Time
    else if op.CreateSession? || op.TouchSession? || op.DeleteSession? || op.DeleteByAgent? then Sessions
    else if op.RegisterInstance? || op.RefreshKeepalive? || op.UnregisterInstance? then Gateways
    else Agents
  }

  lemma PutFootprint(s: Store, info: R.AgentInfo, ttl: nat, k: Key)
    requires KeyFamily(k) != Agents
    ensures R.PutAgent(s, info, ttl).At(k) == s.At(k) && R.PutAgent(s, info, ttl).now == s.now
  {
  }

  lemma OtherFootprint(s: Store, c: Config, op: Op, k: Key)
    requires !op.Tick? && KeyFamily(k) != OpFamily(op)
    requires !(op.Register? || op.ReRegister? || op.UnregisterByGateway? || op.CreateSession? || op.DeleteByAgent?)
    ensures Apply(s, c, op).At(k) == s.At(k) && Apply(s, c, op).now == s.now
  {
  }

  /** No operation but the passing of time reaches a key of another family. */
  lemma Footprint(s: Store, c: Config, op: Op, k: Key)
    requires !op.Tick? && KeyFamily(k) != OpFamily(op)
    ensures Apply(s, c, op).At(k) == s.At(k) && Apply(s, c, op).now == s.now
  {
    hide R.PutAgent, S.CreateWithID, S.DropSessions;
    match op
    case Register(info) => PutFootprint(s, info, c.agentTTL, k);
    case ReRegister(info) => PutFootprint(s, info, c.agentTTL, k);
    case UnregisterByGateway(g) =>
      assert R.DropMembers(s, g, s.SMembers(GatewayAgents(g))).At(k) == s.At(k);
    case CreateSession(raw, a, t, g) => S.CreateAt(s, raw, a, t, g, c.sessionTTL, k);
    case DeleteByAgent(a) => S.DropSessionsAt(s, a, s.SMembers(AgentSessions(a)), k);
    case _ => OtherFootprint(s, c, op, k);
  }

  lemma AgentOpKeepsRegistry(s: Store, c: Config, op: Op)
    requires R.Inv(s, c.agentTTL) && Allowed(s, op) && OpFamily(op) == Agents
    ensures R.Inv(Apply(s, c, op), c.agentTTL)
  {
    hide R.Inv;
    match op
    case Register(info) => R.PutAgentKeepsInv(s, info, c.agentTTL);
    case ReRegister(info) => R.PutAgentKeepsInv(s, info, c.agentTTL);
    case Unregister(t, i) => R.UnregisterKeepsInv(s, t, i, c.agentTTL);
    case Heartbeat(t, i) => R.HeartbeatKeepsInv(s, t, i, c.agentTTL);
    case AddSessions(t, i, n) => R.AddSessionsKeepsInv(s, t, i, n, c.agentTTL);
    case ListByType(t) => R.DropIDsKeepsInv(s, t, s.SMembers(AgentsByType(t)) - R.Scan(s, t), c.agentTTL);
    case UnregisterByGateway(g) => R.UnregisterByGatewayKeepsInv(s, g, c.agentTTL);
  }

  lemma SessionOpKeepsSessions(s: Store, c: Config, op: Op)
    requires S.Inv(s, c.sessionTTL) && Allowed(s, op) && OpFamily(op) == Sessions
    ensures S.Inv(Apply(s, c, op), c.sessionTTL)
  {
    hide S.Inv;
    match op
    case CreateSession(raw, a, t, g) => S.CreateKeepsInv(s, raw, a, t, g, c.sessionTTL);
    case TouchSession(sid) => S.TouchKeepsInv(s, sid, c.sessionTTL);
    case DeleteSession(sid) => S.DeleteKeepsInv(s, sid, c.sessionTTL);
    case DeleteByAgent(a) => S.DeleteByAgentKeepsInv(s, a, c.sessionTTL);
  }

  lemma GatewayOpKinded(s: Store, c: Config, op: Op)
    requires WellKinded(s) && OpFamily(op) == Gateways
    ensures WellKinded(Apply(s, c, op))
  {
    match op
    case RegisterInstance(g, addr) => G.RegisterKinded(s, g, addr, c.gatewayTTL);
    case RefreshKeepalive(g) => G.RefreshKinded(s, g, c.gatewayTTL);
    case UnregisterInstance(g) => WithKinded(s, Gateway(g), None);
  }

  lemma StepKeepsInv(s: Store, c: Config, op: Op)
    requires Inv(s, c) && Allowed(s, op)
    ensures Inv(Apply(s, c, op), c)
  {
    var s' := Apply(s, c, op);
    match OpFamily(op)
    case Time =>
      R.AdvanceKeepsInv(s, op.dt, c.agentTTL);
      S.AdvanceKeepsInv(s, op.dt, c.sessionTTL);
    case Agents =>
      AgentOpKeepsRegistry(s, c, op);
      forall k: Key | KeyFamily(k) == Sessions ensures s'.At(k) == s.At(k) { Footprint(s, c, op, k); }
      Footprint(s, c, op, Session(""));
      S.ForeignKeepsInv(s, s', c.sessionTTL);
    case Sessions =>
      SessionOpKeepsSessions(s, c, op);
      forall k: Key | KeyFamily(k) == Agents ensures s'.At(k) == s.At(k) { Footprint(s, c, op, k); }
      Footprint(s, c, op, Gateway(""));
      R.ForeignKeepsInv(s, s', c.agentTTL);
    case Gateways =>
      GatewayOpKinded(s, c, op);
      forall k: Key | KeyFamily(k) != Gateways ensures s'.At(k) == s.At(k) { Footprint(s, c, op, k); }
      Footprint(s, c, op, Session(""));
      R.ForeignKeepsInv(s, s', c.agentTTL);
      S.ForeignKeepsInv(s, s', c.sessionTTL);
  }

  /** Every reachable store keeps the registry and the session invariants. */
  lemma {:induction false} RunKeepsInv(s: Store, c: Config, ops: seq<Op>)
    requires Inv(s, c) && AllAllowed(s, c, ops)
    ensures Inv(Run(s, c, ops), c)
    decreases |ops|
  {
    if ops != [] {
      StepKeepsInv(s, c, ops[0]);
      RunKeepsInv(Apply(s, c, ops[0]), c, ops[1..]);
    }
  }
}
