/** Leases, affinity and addresses over whole runs. */
module RunProperties {
  import opened Basics
  import opened Keys
  import opened RedisModel
  import opened Runs
  import R = Registry
  import RP = RegistryProperties
  import S = Sessions
  import G = Gateways
  import AgentPool

  // ----- Lease continuity -----

  /** The run never lets the gap pass since the agent's last beat, and nobody unregisters or
      re-registers the agent in between. */
  ghost predicate Undisturbed(s: Store, c: Config, ops: seq<Op>, t: string, i: string, last: nat, gap: nat)
    decreases |ops|
  {
    ops != [] ==>
      var op := ops[0];
      && (op.Tick? ==> s.now + op.dt < last + gap)
      && (op.ReRegister? ==> op.info.Key() != Agent(t, i))
      && (op.Unregister? ==> Agent(op.t, op.i) != Agent(t, i))
      && (op.UnregisterByGateway? ==> Compose(t, i) !in s.SMembers(GatewayAgents(op.g)))
      && Undisturbed(Apply(s, c, op), c, ops[1..], t, i, if op == Heartbeat(t, i) then s.now else last, gap)
  }

  /** What a connection owns of its hash. */
  function Identity(s: Store, t: string, i: string): (string, string, string) {
    var f := s.HGetAll(Agent(t, i));
    (Get(f, GatewayInstance), Get(f, Status), Get(f, ConnectedAt))
  }

  lemma InvKinded(s: Store, c: Config)
    requires Inv(s, c)
    ensures WellKinded(s)
  {
  }

  lemma HeartbeatIdentity(s: Store, c: Config, t': string, i': string, t: string, i: string)
    requires Agent(t, i) in s.keys && s.keys[Agent(t, i)].HashEntry? && c.agentTTL > 0
    ensures var s' := R.UpdateHeartbeat(s, t', i', c.agentTTL);
      && Agent(t, i) in s'.keys && Identity(s', t, i) == Identity(s, t, i)
      && DeadlineOf(s', Agent(t, i)) ==
           if Agent(t, i) == Agent(t', i') then Some(s.now + c.agentTTL) else DeadlineOf(s, Agent(t, i))
  {
    if Agent(t', i') in s.keys {
      R.HeartbeatAt(s, t', i', c.agentTTL, Agent(t, i));
    }
  }

  lemma HeartbeatSpares(s: Store, c: Config, t: string, i: string, k: Key)
    requires c.agentTTL > 0 && k.Agent? && k != Agent(t, i)
    ensures R.UpdateHeartbeat(s, t, i, c.agentTTL).At(k) == s.At(k)
    ensures R.UpdateHeartbeat(s, t, i, c.agentTTL).now == s.now
  {
    if Agent(t, i) in s.keys {
      R.HeartbeatAt(s, t, i, c.agentTTL, k);
    }
  }

  lemma LeaseStepAgents(s: Store, c: Config, op: Op, t: string, i: string, last: nat)
    requires Inv(s, c) && Allowed(s, op) && ColonFree(t) && c.agentTTL > 0
    requires Agent(t, i) in s.keys && DeadlineOf(s, Agent(t, i)) == Some(last + c.agentTTL)
              && s.keys[Agent(t, i)].HashEntry?
    requires OpFamily(op) == Time || OpFamily(op) == Agents
    requires Undisturbed(s, c, [op], t, i, last, c.agentTTL)
    ensures var s' := Apply(s, c, op);
      && Agent(t, i) in s'.keys && Identity(s', t, i) == Identity(s, t, i)
      && DeadlineOf(s', Agent(t, i)) == Some((if op == Heartbeat(t, i) then s.now else last) + c.agentTTL)
  {
    var k := Agent(t, i);
    hide R.PutAgent, Inv, R.Unregister, R.UpdateHeartbeat, R.AddSessions, Compose;
    match op
    case Tick(dt) => assert s.Advance(dt).At(k) == s.At(k);
    case Register(info) =>
      if info.Key() !in s.keys { R.PutAgentAt(s, info, c.agentTTL, k); }
    case ReRegister(info) => R.PutAgentAt(s, info, c.agentTTL, k);
    case Unregister(t', i') =>
      assert WellKinded(s) by { InvKinded(s, c); }
      RP.UnregisterAt(s, t', i', k);
    case Heartbeat(t', i') => HeartbeatIdentity(s, c, t', i', t, i);
    case AddSessions(t', i', n) =>
      InvKinded(s, c);
      R.AddSessionsAt(s, t', i', n, k);
    case ListByType(_) =>
    case UnregisterByGateway(g) =>
      assert R.UnregisterByGateway(s, g).At(k) == s.At(k);
  }

  lemma LeaseStep(s: Store, c: Config, op: Op, t: string, i: string, last: nat)
    requires Inv(s, c) && Allowed(s, op) && ColonFree(t) && c.agentTTL > 0
    requires Agent(t, i) in s.keys && DeadlineOf(s, Agent(t, i)) == Some(last + c.agentTTL)
    requires Undisturbed(s, c, [op], t, i, last, c.agentTTL)
    ensures var s' := Apply(s, c, op);
      && Agent(t, i) in s'.keys && Identity(s', t, i) == Identity(s, t, i)
      && DeadlineOf(s', Agent(t, i)) == Some((if op == Heartbeat(t, i) then s.now else last) + c.agentTTL)
  {
    var k := Agent(t, i);
    assert Fits(k, s.keys[k], s.now);
    if OpFamily(op) == Sessions || OpFamily(op) == Gateways {
      Footprint(s, c, op, k);
    } else {
      LeaseStepAgents(s, c, op, t, i, last);
    }
  }

  /** An agent that beats often enough keeps its gateway, its status and its connection time. */
  lemma {:induction false} LeaseContinues(s: Store, c: Config, ops: seq<Op>, t: string, i: string, last: nat)
    requires Inv(s, c) && AllAllowed(s, c, ops) && ColonFree(t) && c.agentTTL > 0
    requires Agent(t, i) in s.keys && DeadlineOf(s, Agent(t, i)) == Some(last + c.agentTTL)
    requires Undisturbed(s, c, ops, t, i, last, c.agentTTL)
    ensures Agent(t, i) in Run(s, c, ops).keys
    ensures Identity(Run(s, c, ops), t, i) == Identity(s, t, i)
    decreases |ops|
  {
    if ops != [] {
      hide Inv, Apply, Identity;
      var op := ops[0];
      assert [op][1..] == [];
      LeaseStep(s, c, op, t, i, last);
      StepKeepsInv(s, c, op);
      LeaseContinues(Apply(s, c, op), c, ops[1..], t, i, if op == Heartbeat(t, i) then s.now else last);
    }
  }

  lemma IdentityReads(s: Store, s': Store, t: string, i: string)
    requires R.Lookup(s, t, i).Ok? && R.Lookup(s', t, i).Ok? && Identity(s', t, i) == Identity(s, t, i)
    ensures R.Lookup(s', t, i).value.gatewayInstance == R.Lookup(s, t, i).value.gatewayInstance
    ensures R.Lookup(s', t, i).value.status == R.Lookup(s, t, i).value.status
  {
  }

  lemma InvInRange(s: Store, c: Config)
    requires Inv(s, c)
    ensures s.now <= MAX_TIME
  {
    InvKinded(s, c);
  }

  lemma InvRegistry(s: Store, c: Config)
    requires Inv(s, c)
    ensures R.Inv(s, c.agentTTL)
  {
  }

  /** A registered agent whose beats are less than two heartbeat timeouts apart is found all the time, on the
      gateway and with the status it registered. */
  lemma BeatingAgentStaysFound(p: AgentPool.Pool, s: Store, c: Config, info: R.AgentInfo, ops: seq<Op>)
    requires Inv(s, c) && c.agentTTL == p.TTL() && p.heartbeatTimeout > 0
    requires Allowed(s, Register(info)) && info.Key() !in s.keys
    requires var s' := R.Register(s, info, p.TTL());
      AllAllowed(s', c, ops) && Undisturbed(s', c, ops, info.agentType, info.id, s.now, 2 * p.heartbeatTimeout)
    ensures var found := R.Lookup(Run(R.Register(s, info, p.TTL()), c, ops), info.agentType, info.id);
      found.Ok? && found.value.gatewayInstance == info.gatewayInstance && found.value.status == info.status
  {
    hide R.PutAgentUnder, Inv, Undisturbed, Run, AllAllowed, Identity, R.Lookup, WellKinded;
    var s', t, i := R.Register(s, info, p.TTL()), info.agentType, info.id;
    StepKeepsInv(s, c, Register(info));
    R.RegistrationLeases(s, info.Key(), info, p.TTL());
    InvInRange(s, c);
    RP.RegisteredReads(s, info, p.TTL(), t, i);
    LeaseContinues(s', c, ops, t, i, s.now);
    RunKeepsInv(s', c, ops);
    InvRegistry(Run(s', c, ops), c);
    RP.LookupReads(Run(s', c, ops), t, i, c.agentTTL);
    IdentityReads(s', Run(s', c, ops), t, i);
  }

  /** Whoever registers or beats for the agent. */
  predicate Renews(op: Op, t: string, i: string) {
    op == Heartbeat(t, i) || ((op.Register? || op.ReRegister?) && op.info.Key() == Agent(t, i))
  }

  /** The hash, if there is one, runs out at d. */
  predicate RunsOut(s: Store, k: Key, d: nat) {
    k in s.keys ==> DeadlineOf(s, k) == Some(d) && s.now < d
  }

  lemma SilentStep(s: Store, c: Config, op: Op, t: string, i: string, d: nat)
    requires Inv(s, c) && c.agentTTL > 0 && !Renews(op, t, i) && RunsOut(s, Agent(t, i), d)
    ensures RunsOut(Apply(s, c, op), Agent(t, i), d)
  {
    var k := Agent(t, i);
    InvKinded(s, c);
    hide Inv, R.PutAgent, R.Unregister, R.UpdateHeartbeat, R.AddSessions, Compose, WellKinded;
    if OpFamily(op) == Sessions || OpFamily(op) == Gateways {
      Footprint(s, c, op, k);
      return;
    }
    match op
    case Tick(dt) =>
    case Register(info) =>
      if info.Key() !in s.keys { R.PutAgentAt(s, info, c.agentTTL, k); }
    case ReRegister(info) => R.PutAgentAt(s, info, c.agentTTL, k);
    case Unregister(t', i') => RP.UnregisterAt(s, t', i', k);
    case Heartbeat(t', i') => HeartbeatSpares(s, c, t', i', k);
    case AddSessions(t', i', n) => R.AddSessionsAt(s, t', i', n, k);
    case ListByType(_) =>
    case UnregisterByGateway(g) =>
  }

  lemma RegisteredRunsOut(s: Store, info: R.AgentInfo, ttl: nat)
    requires ttl > 0 && info.Key() !in s.keys
    ensures RunsOut(R.Register(s, info, ttl), info.Key(), s.now + ttl)
  {
    R.RegistrationLeases(s, info.Key(), info, ttl);
    R.PutAgentAt(s, info, ttl, info.Key());
    hide R.PutAgentUnder;
  }

  lemma {:induction false} SilentRun(s: Store, c: Config, ops: seq<Op>, t: string, i: string, d: nat)
    requires Inv(s, c) && c.agentTTL > 0 && AllAllowed(s, c, ops) && RunsOut(s, Agent(t, i), d)
    requires forall op <- ops :: !Renews(op, t, i)
    ensures RunsOut(Run(s, c, ops), Agent(t, i), d)
    decreases |ops|
  {
    if ops != [] {
      hide Inv, Apply, RunsOut, Renews;
      assert ops[0] in ops;
      SilentStep(s, c, ops[0], t, i, d);
      StepKeepsInv(s, c, ops[0]);
      SilentRun(Apply(s, c, ops[0]), c, ops[1..], t, i, d);
    }
  }

  /** An agent that nobody registers or beats for is not found two heartbeat timeouts after it registered. */
  lemma SilentAgentLapses(p: AgentPool.Pool, s: Store, c: Config, info: R.AgentInfo, ops: seq<Op>)
    requires Inv(s, c) && c.agentTTL == p.TTL() && p.heartbeatTimeout > 0
    requires Allowed(s, Register(info)) && info.Key() !in s.keys
    requires var s' := R.Register(s, info, p.TTL());
      && AllAllowed(s', c, ops) && (forall op <- ops :: !Renews(op, info.agentType, info.id))
      && s.now + 2 * p.heartbeatTimeout <= Run(s', c, ops).now
    ensures R.Lookup(Run(R.Register(s, info, p.TTL()), c, ops), info.agentType, info.id) == Err(R.AgentNotFound)
  {
    hide R.PutAgentUnder, R.PutAgent, Inv, Run, AllAllowed, Renews;
    var s' := R.Register(s, info, p.TTL());
    StepKeepsInv(s, c, Register(info));
    RegisteredRunsOut(s, info, p.TTL());
    SilentRun(s', c, ops, info.agentType, info.id, s.now + 2 * p.heartbeatTimeout);
  }

  // ----- Session affinity -----

  ghost predicate Bound(s: Store, sid: string, a: string) {
    Session(sid) in s.keys && S.AgentOf(s, sid) == a
  }

  predicate Uses(op: Op, sid: string) {
    op == TouchSession(sid) || (op.CreateSession? && Compose(op.agentType, op.raw) == sid)
  }

  /** The run keeps the gaps between uses of the session below its lease, does not delete it, and
      creates it for no other agent. */
  ghost predicate Kept(s: Store, c: Config, ops: seq<Op>, sid: string, a: string, last: nat)
    decreases |ops|
  {
    ops != [] ==>
      var op := ops[0];
      && (op.Tick? ==> s.now + op.dt < last + c.sessionTTL)
      && (op.CreateSession? && Compose(op.agentType, op.raw) == sid ==> op.agentID == a)
      && (op.DeleteSession? ==> op.sid != sid)
      && (op.DeleteByAgent? ==> sid !in s.SMembers(AgentSessions(op.a)))
      && Kept(Apply(s, c, op), c, ops[1..], sid, a, if Uses(op, sid) then s.now else last)
  }

  lemma DeleteSpares(s: Store, x: string, sid: string)
    requires x != sid
    ensures S.Delete(s, x).At(Session(sid)) == s.At(Session(sid))
  {
  }

  lemma SessionUntouched(s: Store, c: Config, op: Op, sid: string, a: string, last: nat)
    requires !op.CreateSession? && !op.TouchSession?
    requires Bound(s, sid, a) && DeadlineOf(s, Session(sid)) == Some(last + c.sessionTTL)
              && Kept(s, c, [op], sid, a, last)
    ensures Apply(s, c, op).At(Session(sid)) == s.At(Session(sid))
  {
    var k := Session(sid);
    if OpFamily(op) == Agents || OpFamily(op) == Gateways {
      Footprint(s, c, op, k);
    } else if op.Tick? {
      assert s.Advance(op.dt).At(k) == s.At(k);
    } else if op.DeleteSession? {
      DeleteSpares(s, op.sid, sid);
    } else {
      S.DropSessionsAt(s, op.a, s.SMembers(AgentSessions(op.a)), k);
      hide S.DropSessions;
    }
  }

  lemma CreateBound(s: Store, raw: string, a: string, t: string, g: string, ttl: nat, sid: string)
    requires ttl > 0 && s.now <= MAX_TIME && ColonFree(t)
    ensures var s' := S.CreateWithID(s, raw, a, t, g, ttl);
            if Compose(t, raw) == sid then Bound(s', sid, a) && DeadlineOf(s', Session(sid)) == Some(s.now + ttl)
            else s'.At(Session(sid)) == s.At(Session(sid))
  {
    S.CreateAt(s, raw, a, t, g, ttl, Session(sid));
    S.CreatedHashOk(s, raw, a, t, g, ttl);
  }

  lemma TouchBound(s: Store, c: Config, x: string, sid: string)
    requires Session(sid) in s.keys && s.keys[Session(sid)].HashEntry? && c.sessionTTL > 0
    ensures var s' := S.Touch(s, x, c.sessionTTL);
      && Session(sid) in s'.keys && S.AgentOf(s', sid) == S.AgentOf(s, sid)
      && DeadlineOf(s', Session(sid)) == if x == sid then Some(s.now + c.sessionTTL) else DeadlineOf(s, Session(sid))
  {
    if Session(x) in s.keys {
      S.TouchAt(s, x, c.sessionTTL, Session(sid));
    }
  }

  lemma AffinityStep(s: Store, c: Config, op: Op, sid: string, a: string, last: nat)
    requires Inv(s, c) && Allowed(s, op) && c.sessionTTL > 0
    requires Bound(s, sid, a) && DeadlineOf(s, Session(sid)) == Some(last + c.sessionTTL)
    requires Kept(s, c, [op], sid, a, last)
    ensures Bound(Apply(s, c, op), sid, a)
    ensures DeadlineOf(Apply(s, c, op), Session(sid)) == Some((if Uses(op, sid) then s.now else last) + c.sessionTTL)
  {
    var k := Session(sid);
    InvKinded(s, c);
    assert Fits(k, s.keys[k], s.now);
    hide Inv, S.CreateWithID, S.Touch, Compose;
    if op.CreateSession? {
      CreateBound(s, op.raw, op.agentID, op.agentType, op.gateway, c.sessionTTL, sid);
    } else if op.TouchSession? {
      TouchBound(s, c, op.sid, sid);
    } else {
      SessionUntouched(s, c, op, sid, a, last);
      hide Apply;
    }
  }

  /** A session stays bound to its agent as long as the run keeps it, so every later lookup with
      that id names the same agent, the same raw id, and the type the id starts with. */
  lemma {:induction false} AffinityHolds(s: Store, c: Config, ops: seq<Op>, sid: string, a: string, last: nat)
    requires Inv(s, c) && AllAllowed(s, c, ops) && c.sessionTTL > 0
    requires Bound(s, sid, a) && DeadlineOf(s, Session(sid)) == Some(last + c.sessionTTL)
    requires Kept(s, c, ops, sid, a, last)
    ensures var s' := Run(s, c, ops);
      && Bound(s', sid, a)
      && S.Lookup(s', sid).Ok? && S.Lookup(s', sid).value.agentID == a
      && Split(sid).Parts? && S.Lookup(s', sid).value.agentType == Split(sid).head
    decreases |ops|
  {
    if ops == [] {
      assert S.SessionOk(s, c.sessionTTL, sid);
    } else {
      hide Inv, Apply, Bound, S.Lookup;
      var op := ops[0];
      var last' := if Uses(op, sid) then s.now else last;
      assert [op][1..] == [];
      AffinityStep(s, c, op, sid, a, last);
      StepKeepsInv(s, c, op);
      AffinityHolds(Apply(s, c, op), c, ops[1..], sid, a, last');
    }
  }

  // ----- Advertised addresses -----

  /** Registering makes a gateway known under its address, unregistering makes it unknown, and neither
      touches another gateway. */
  lemma InstanceReads(s: Store, g: string, addr: string, ttl: nat, g': string)
    requires ttl > 0
    ensures G.LookupInstance(G.RegisterInstance(s, g, addr, ttl), g') ==
              if g' == g then Ok(addr) else G.LookupInstance(s, g')
    ensures G.LookupInstance(G.UnregisterInstance(s, g), g') ==
              if g' == g then Err(G.GatewayNotFound) else G.LookupInstance(s, g')
  {
    var s' := G.RegisterInstance(s, g, addr, ttl);
    assert g' != g ==> s'.At(Gateway(g')) == s.At(Gateway(g'));
    assert s'.HGetAll(Gateway(g))
        == s.HGetAll(Gateway(g)) + map[Addr := addr, StartedAt := Seconds(s), LastKeepalive := Seconds(s)];
  }

  /** A keepalive makes a gateway known exactly when it was known before: it renews an address, it
      never restores one. */
  lemma KeepaliveKnowsExactly(s: Store, g: string, ttl: nat)
    requires ttl > 0
    ensures G.LookupInstance(G.RefreshKeepalive(s, g, ttl), g) == G.LookupInstance(s, g)
    ensures DeadlineOf(G.RefreshKeepalive(s, g, ttl), Gateway(g)) == Some(s.now + ttl)
  {
    var s' := G.RefreshKeepalive(s, g, ttl);
    assert s'.HGetAll(Gateway(g)) == s.HGetAll(Gateway(g)) + map[LastKeepalive := Seconds(s)];
  }

  /** An entry is leased from its registration on. */
  lemma InstanceIsLeased(s: Store, g: string, addr: string, ttl: nat)
    requires ttl > 0
    ensures var s' := G.RegisterInstance(s, g, addr, ttl);
      DeadlineOf(s', Gateway(g)) == Some(s.now + ttl) && s'.now == s.now
  {
  }

  /** Whoever registers the gateway or refreshes its keepalive. */
  predicate KeepsAlive(op: Op, g: string) {
    (op.RegisterInstance? || op.RefreshKeepalive?) && op.g == g
  }

  lemma {:induction false} SilentGateway(s: Store, c: Config, ops: seq<Op>, g: string, d: nat)
    requires RunsOut(s, Gateway(g), d) && forall op <- ops :: !KeepsAlive(op, g)
    ensures RunsOut(Run(s, c, ops), Gateway(g), d)
    decreases |ops|
  {
    if ops != [] {
      var op := ops[0];
      assert op in ops;
      if op.Tick? || OpFamily(op) == Gateways {
      } else {
        Footprint(s, c, op, Gateway(g));
      }
      SilentGateway(Apply(s, c, op), c, ops[1..], g, d);
    }
  }

  /** A gateway that registered and then neither registers nor refreshes for its ttl is not found any more,
      whatever else happens: peers cannot go on dialing one that has crashed. */
  lemma SilentGatewayIsForgotten(s: Store, c: Config, ops: seq<Op>, g: string, addr: string)
    requires c.gatewayTTL > 0 && forall op <- ops :: !KeepsAlive(op, g)
    requires s.now + c.gatewayTTL <= Run(G.RegisterInstance(s, g, addr, c.gatewayTTL), c, ops).now
    ensures G.LookupInstance(Run(G.RegisterInstance(s, g, addr, c.gatewayTTL), c, ops), g) == Err(G.GatewayNotFound)
  {
    InstanceIsLeased(s, g, addr, c.gatewayTTL);
    hide G.RegisterInstance, Run;
    SilentGateway(G.RegisterInstance(s, g, addr, c.gatewayTTL), c, ops, g, s.now + c.gatewayTTL);
  }

  /** The run never lets the ttl pass since the gateway last registered or refreshed, and does not unregister
      it. */
  ghost predicate Refreshed(s: Store, c: Config, ops: seq<Op>, g: string, last: nat)
    decreases |ops|
  {
    ops != [] ==>
      var op := ops[0];
      && (op.Tick? ==> s.now + op.dt < last + c.gatewayTTL)
      && op != UnregisterInstance(g)
      && Refreshed(Apply(s, c, op), c, ops[1..], g, if KeepsAlive(op, g) then s.now else last)
  }

  lemma OtherGatewayStep(s: Store, c: Config, op: Op, g: string)
    requires !KeepsAlive(op, g) && op != UnregisterInstance(g) && Gateway(g) in s.keys
    requires op.Tick? ==> s.keys[Gateway(g)].LiveAt(s.now + op.dt)
    ensures Apply(s, c, op).At(Gateway(g)) == s.At(Gateway(g))
  {
    if op.Tick? {
    } else if OpFamily(op) != Gateways {
      Footprint(s, c, op, Gateway(g));
    }
  }

  lemma RefreshedStep(s: Store, c: Config, op: Op, g: string, addr: string, last: nat)
    requires c.gatewayTTL > 0 && G.LookupInstance(s, g) == Ok(addr)
    requires DeadlineOf(s, Gateway(g)) == Some(last + c.gatewayTTL) && Refreshed(s, c, [op], g, last)
    requires op.RegisterInstance? && op.g == g ==> op.addr == addr
    ensures var s', last' := Apply(s, c, op), if KeepsAlive(op, g) then s.now else last;
      G.LookupInstance(s', g) == Ok(addr) && DeadlineOf(s', Gateway(g)) == Some(last' + c.gatewayTTL)
  {
    hide G.RegisterInstance, G.RefreshKeepalive;
    if op.RegisterInstance? && op.g == g {
      InstanceReads(s, g, addr, c.gatewayTTL, g);
      InstanceIsLeased(s, g, addr, c.gatewayTTL);
    } else if op == RefreshKeepalive(g) {
      KeepaliveKnowsExactly(s, g, c.gatewayTTL);
    } else {
      OtherGatewayStep(s, c, op, g);
    }
  }

  /** A gateway that refreshes within its ttl, and is not unregistered, stays found under its address. */
  lemma {:induction false} RefreshedGatewayStaysFound(s: Store, c: Config, ops: seq<Op>, g: string, addr: string,
                                                      last: nat)
    requires c.gatewayTTL > 0 && G.LookupInstance(s, g) == Ok(addr)
    requires DeadlineOf(s, Gateway(g)) == Some(last + c.gatewayTTL) && Refreshed(s, c, ops, g, last)
    requires forall op <- ops :: op.RegisterInstance? && op.g == g ==> op.addr == addr
    ensures G.LookupInstance(Run(s, c, ops), g) == Ok(addr)
    decreases |ops|
  {
    if ops != [] {
      hide Apply, G.LookupInstance;
      var op := ops[0];
      assert op in ops && [op][1..] == [];
      RefreshedStep(s, c, op, g, addr, last);
      RefreshedGatewayStaysFound(Apply(s, c, op), c, ops[1..], g, addr, if KeepsAlive(op, g) then s.now else last);
    }
  }

  /** A gateway is never found under an address it did not register. */
  lemma {:induction false} AddressIsAdvertised(s: Store, c: Config, ops: seq<Op>, g: string, addr: string)
    requires G.LookupInstance(s, g).Ok? ==> G.LookupInstance(s, g).value == addr
    requires forall op <- ops :: op.RegisterInstance? && op.g == g ==> op.addr == addr
    ensures G.LookupInstance(Run(s, c, ops), g).Ok? ==> G.LookupInstance(Run(s, c, ops), g).value == addr
    decreases |ops|
  {
    if ops != [] {
      var op := ops[0];
      assert op in ops;
      if op.Tick? || OpFamily(op) == Gateways {
      } else {
        Footprint(s, c, op, Gateway(g));
      }
      AddressIsAdvertised(Apply(s, c, op), c, ops[1..], g, addr);
    }
  }

  /** A gateway whose entry lapsed is not found again, however often it refreshes its keepalive,
      until it registers anew. */
  lemma {:induction false} LapsedAddressStaysLost(s: Store, c: Config, ops: seq<Op>, g: string)
    requires G.LookupInstance(s, g).Err?
    requires forall op <- ops :: !(op.RegisterInstance? && op.g == g)
    ensures G.LookupInstance(Run(s, c, ops), g).Err?
    decreases |ops|
  {
    if ops != [] {
      var op := ops[0];
      assert op in ops;
      if op.Tick? || OpFamily(op) == Gateways {
      } else {
        Footprint(s, c, op, Gateway(g));
      }
      LapsedAddressStaysLost(Apply(s, c, op), c, ops[1..], g);
    }
  }
}
