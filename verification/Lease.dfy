/** The life of agent connections on several gateways that share one registry
    (internal/agent/grpc_server.go Connect, internal/agent/pool.go Register and Unregister).

    A connection registers, is published in its gateway's table, beats while it serves, and on the
    way out leaves the table and then unregisters. A beat that finds no hash is followed by a
    registration in a step of its own. Steps of all connections interleave freely with each other and
    with every other operation on the store, also between those two. */
module Lease {
  import opened Basics
  import opened Keys
  import opened RedisModel
  import opened Runs
  import R = Registry
  import RP = RegistryProperties
  import opened RunProperties

  /** `Missed`: its beat found no hash, and it has yet to register again. */
  datatype Stage = Registered | Serving | Missed | Stopped | Removed

  datatype Connection = Connection(agentType: string, agentID: string, gateway: string, stage: Stage) {
    function Key(): Key { Agent(agentType, agentID) }

    function Info(): R.AgentInfo {
      R.AgentInfo(agentID, agentType, gateway, R.STATUS_ONLINE, 0, 0, 0)
    }

    /** Its place in the tables: they know an agent by its id alone. */
    function Slot(): (string, string) { (gateway, agentID) }

    /** Between publishing and removal the gateway's table points to the connection. */
    predicate InTable() { stage == Serving || stage == Missed || stage == Stopped }
  }

  /** `tables` is every gateway's localAgents, by gateway and agent id. */
  datatype World = World(store: Store, conns: map<nat, Connection>, tables: map<(string, string), nat>)

  datatype Step =
    | Connect(c: nat, t: string, i: string, g: string)
    | Publish(c: nat)
    | Beat(c: nat)
    | Renew(c: nat)
    | Stop(c: nat)
    | RemoveLocal(c: nat)
    | Leave(c: nat)
    | Crash(g: string)
    | Other(op: Op)

  /** The store operation a step performs, if any. */
  ghost function StoreOp(w: World, step: Step): Option<Op>
    requires step.Beat? || step.Renew? || step.Leave? ==> step.c in w.conns
  {
    match step
    case Connect(_, t, i, g) => Some(Op.Register(Connection(t, i, g, Registered).Info()))
    case Beat(c) => Some(Heartbeat(w.conns[c].agentType, w.conns[c].agentID))
    case Renew(c) => Some(ReRegister(w.conns[c].Info()))
    case Leave(c) => Some(Unregister(w.conns[c].agentType, w.conns[c].agentID))
    case Other(op) => Some(op)
    case _ => None
  }

  /** No connection lets its lease run out. */
  ghost predicate RenewedThrough(w: World, t: nat) {
    forall c <- w.conns ::
      DeadlineOf(w.store, w.conns[c].Key()).Some? ==> t < DeadlineOf(w.store, w.conns[c].Key()).value
  }

  /** What the code lets happen: a connection goes through its life in order, types carry no colon and
      gateways have a name, and registrations are made, renewed and undone by connections only. One that
      missed a beat ends if it cannot register again. */
  ghost predicate Possible(w: World, step: Step) {
    match step
    case Connect(c, t, i, g) => c !in w.conns && ColonFree(t) && g != ""
    case Publish(c) => c in w.conns && w.conns[c].stage == Registered
    case Beat(c) => c in w.conns && w.conns[c].stage == Serving
    case Renew(c) => c in w.conns && w.conns[c].stage == Missed
    case Stop(c) => c in w.conns && (w.conns[c].stage == Serving || w.conns[c].stage == Missed)
    case RemoveLocal(c) => c in w.conns && w.conns[c].stage == Stopped
    case Leave(c) => c in w.conns && w.conns[c].stage == Removed
    case Crash(_) => true
    case Other(op) => Allowed(w.store, op) && !op.Register? && !op.ReRegister? && !op.Unregister? && !op.Heartbeat?
  }

  /** The guards of exclusivity: leases are renewed in time, and a gateway index is cleared only while it
      lists no connection's agent. */
  ghost predicate InTime(w: World, step: Step) {
    step.Other? ==>
      && (step.op.Tick? ==> RenewedThrough(w, w.store.now + step.op.dt))
      && (step.op.UnregisterByGateway? ==>
            forall c <- w.conns ::
              Compose(w.conns[c].agentType, w.conns[c].agentID) !in w.store.SMembers(GatewayAgents(step.op.g)))
  }

  ghost predicate Enabled(w: World, step: Step) {
    Possible(w, step) && InTime(w, step)
  }

  ghost function NextStore(w: World, cfg: Config, step: Step): Store
    requires step.Beat? || step.Renew? || step.Leave? ==> step.c in w.conns
  {
    var op := StoreOp(w, step);
    if op.Some? then Apply(w.store, cfg, op.value) else w.store
  }

  /** A registration is refused while the agent's hash is live; a registration after a missed beat is not. */
  function NextConns(w: World, step: Step): map<nat, Connection>
    requires step.Leave? || step.Publish? || step.Beat? || step.Renew? || step.Stop? || step.RemoveLocal? ==>
               step.c in w.conns
  {
    match step
    case Connect(c, t, i, g) =>
      if Agent(t, i) in w.store.keys then w.conns else w.conns[c := Connection(t, i, g, Registered)]
    case Publish(c) => w.conns[c := w.conns[c].(stage := Serving)]
    case Beat(c) => if w.conns[c].Key() in w.store.keys then w.conns else w.conns[c := w.conns[c].(stage := Missed)]
    case Renew(c) => w.conns[c := w.conns[c].(stage := Serving)]
    case Stop(c) => w.conns[c := w.conns[c].(stage := Stopped)]
    case RemoveLocal(c) => w.conns[c := w.conns[c].(stage := Removed)]
    case Leave(c) => w.conns - {c}
    case Crash(g) => map c | c in w.conns && w.conns[c].gateway != g :: w.conns[c]
    case _ => w.conns
  }

  function NextTables(w: World, step: Step): map<(string, string), nat>
    requires step.Publish? || step.RemoveLocal? ==> step.c in w.conns
  {
    match step
    case Publish(c) => w.tables[w.conns[c].Slot() := c]
    case RemoveLocal(c) => w.tables - {w.conns[c].Slot()}
    case Crash(g) => map k | k in w.tables && k.0 != g :: w.tables[k]
    case _ => w.tables
  }

  ghost function Next(w: World, cfg: Config, step: Step): World
    requires step.Leave? || step.Publish? || step.Beat? || step.Renew? || step.Stop? || step.RemoveLocal? ==>
               step.c in w.conns
  {
    World(NextStore(w, cfg, step), NextConns(w, step), NextTables(w, step))
  }

  /** The registry's hash for the connection is live and names its gateway. */
  predicate Owns(s: Store, k: Connection) {
    ColonFree(k.agentType) && k.gateway != "" && k.Key() in s.keys
        && R.GatewayOf(s, k.agentType, k.agentID) == k.gateway
  }

  ghost predicate ConnOk(w: World, c: nat)
    requires c in w.conns
  {
    && Owns(w.store, w.conns[c]) && w.conns[c].stage != Missed
    && (forall c' <- w.conns :: c' != c ==> w.conns[c'].Key() != w.conns[c].Key())
  }

  /** Every table entry names a connection that is between publishing and removal, in its own slot. */
  ghost predicate EntriesOk(w: World) {
    forall k <- w.tables :: w.tables[k] in w.conns && w.conns[w.tables[k]].Slot() == k && w.conns[w.tables[k]].InTable()
  }

  ghost predicate WorldInv(w: World, cfg: Config) {
    && Inv(w.store, cfg)
    && (forall c <- w.conns :: ConnOk(w, c))
    && EntriesOk(w)
  }

  /** The operation reaches no agent of another connection. */
  ghost predicate Spares(s: Store, op: Op, k: Connection) {
    && (op.Register? ==> k.Key() in s.keys)
    && (op.Tick? ==> DeadlineOf(s, k.Key()).Some? && s.now + op.dt < DeadlineOf(s, k.Key()).value)
    && (op.ReRegister? ==> op.info.Key() != k.Key())
    && (op.Unregister? ==> Agent(op.t, op.i) != k.Key())
    && (op.UnregisterByGateway? ==> Compose(k.agentType, k.agentID) !in s.SMembers(GatewayAgents(op.g)))
  }

  lemma SparedStaysOwned(s: Store, cfg: Config, op: Op, k: Connection)
    requires Inv(s, cfg) && Allowed(s, op) && cfg.agentTTL > 0 && Owns(s, k) && Spares(s, op, k)
    ensures Owns(Apply(s, cfg, op), k)
  {
    assert R.AgentOk(s, cfg.agentTTL, k.agentType, k.agentID);
    var last := DeadlineOf(s, k.Key()).value - cfg.agentTTL;
    assert [op][1..] == [];
    hide Inv, Apply;
    LeaseStep(s, cfg, op, k.agentType, k.agentID, last);
  }

  lemma ConnectedIsOwned(w: World, cfg: Config, step: Step)
    requires step.Connect? && cfg.agentTTL > 0 && ColonFree(step.t) && step.g != ""
    requires Agent(step.t, step.i) !in w.store.keys
    ensures Owns(NextStore(w, cfg, step), Connection(step.t, step.i, step.g, Registered))
  {
    var k := Connection(step.t, step.i, step.g, Registered);
    R.PutAgentAt(w.store, k.Info(), cfg.agentTTL, k.Key());
    hide R.PutAgent;
  }

  ghost predicate Named(w: World) {
    forall c <- w.conns :: ColonFree(w.conns[c].agentType) && w.conns[c].gateway != ""
  }

  /** Every operation a step performs is allowed, whatever else holds of the world. */
  lemma StoreOpAllowed(w: World, step: Step)
    requires Possible(w, step) && Named(w)
    ensures StoreOp(w, step).Some? ==> Allowed(w.store, StoreOp(w, step).value)
  {
  }

  lemma InvNamed(w: World, cfg: Config)
    requires WorldInv(w, cfg)
    ensures Named(w)
  {
    forall c | c in w.conns ensures ColonFree(w.conns[c].agentType) && w.conns[c].gateway != "" {
      assert ConnOk(w, c);
    }
  }

  lemma StoreKeepsInv(w: World, cfg: Config, step: Step)
    requires Inv(w.store, cfg) && Named(w) && Possible(w, step)
    ensures Inv(Next(w, cfg, step).store, cfg)
  {
    StoreOpAllowed(w, step);
    hide Inv, Apply, Allowed, Named, Possible;
    if StoreOp(w, step).Some? {
      StepKeepsInv(w.store, cfg, StoreOp(w, step).value);
    }
  }

  /** Under the guards, the operation of a step spares every connection but its own. */
  lemma StepSpares(w: World, step: Step, c: nat)
    requires Enabled(w, step) && (forall c <- w.conns :: ConnOk(w, c))
    requires c in w.conns && !(step.Leave? && step.c == c)
    requires DeadlineOf(w.store, w.conns[c].Key()).Some?
    ensures StoreOp(w, step).Some? ==> Spares(w.store, StoreOp(w, step).value, w.conns[c])
  {
    assert ConnOk(w, c);
    if step.Beat? || step.Renew? || step.Leave? {
      assert ConnOk(w, step.c);
    }
  }

  /** Every connection but the one taking the step keeps its hash. */
  lemma OthersStayOwned(w: World, cfg: Config, step: Step, c: nat)
    requires WorldInv(w, cfg) && Enabled(w, step) && cfg.agentTTL > 0
    requires c in w.conns && !(step.Leave? && step.c == c)
    ensures Owns(NextStore(w, cfg, step), w.conns[c])
  {
    assert ConnOk(w, c);
    assert R.AgentOk(w.store, cfg.agentTTL, w.conns[c].agentType, w.conns[c].agentID);
    assert DeadlineOf(w.store, w.conns[c].Key()).Some?;
    InvNamed(w, cfg);
    StoreOpAllowed(w, step);
    StepSpares(w, step, c);
    hide Inv, Apply, Owns, WorldInv, Enabled, Spares, Named, Allowed, ConnOk;
    if StoreOp(w, step).Some? {
      SparedStaysOwned(w.store, cfg, StoreOp(w, step).value, w.conns[c]);
    }
  }

  /** A step changes nothing of a connection but its stage, and adds only one whose hash was not live. */
  lemma ConnsBefore(w: World, step: Step)
    requires Possible(w, step)
    ensures forall c <- NextConns(w, step) ::
              if c in w.conns then NextConns(w, step)[c] == w.conns[c].(stage := NextConns(w, step)[c].stage)
              else step.Connect? && step.c == c && NextConns(w, step)[c].Key() !in w.store.keys
                   && NextConns(w, step)[c] == Connection(step.t, step.i, step.g, Registered)
  {
    hide Allowed;
  }

  lemma OwnsByKey(s: Store, k: Connection, k': Connection)
    requires Owns(s, k) && k' == k.(stage := k'.stage)
    ensures Owns(s, k')
  {
  }

  /** While every hash is live no beat misses. */
  lemma NoneMisses(w: World, step: Step, c: nat)
    requires Possible(w, step) && c in NextConns(w, step) && (c in w.conns ==> w.conns[c].stage != Missed)
    requires forall c <- w.conns :: w.conns[c].Key() in w.store.keys
    ensures NextConns(w, step)[c].stage != Missed
  {
    hide Allowed;
  }

  lemma StaysOwned(w: World, cfg: Config, step: Step, c: nat)
    requires WorldInv(w, cfg) && Enabled(w, step) && cfg.agentTTL > 0
    requires c in NextConns(w, step)
    ensures Owns(NextStore(w, cfg, step), NextConns(w, step)[c])
  {
    hide WorldInv, NextStore, NextTables, StoreOp, Allowed, Owns, InTime;
    ConnsBefore(w, step);
    if c in w.conns {
      assert step.Leave? ==> step.c != c;
      OthersStayOwned(w, cfg, step, c);
      OwnsByKey(NextStore(w, cfg, step), w.conns[c], NextConns(w, step)[c]);
    } else {
      ConnectedIsOwned(w, cfg, step);
    }
  }

  lemma ConnsStayOk(w: World, cfg: Config, step: Step, c: nat)
    requires WorldInv(w, cfg) && Enabled(w, step) && cfg.agentTTL > 0
    requires c in NextConns(w, step)
    ensures ConnOk(Next(w, cfg, step), c)
  {
    forall c' | c' in w.conns ensures w.conns[c'].Key() in w.store.keys {
      assert ConnOk(w, c');
    }
    assert c in w.conns ==> ConnOk(w, c);
    ConnsBefore(w, step);
    StaysOwned(w, cfg, step, c);
    hide Inv, NextStore, NextConns, NextTables, StoreOp, Possible, InTime, Owns;
    NoneMisses(w, step, c);
    forall c' | c' in NextConns(w, step) && c' != c
      ensures NextConns(w, step)[c'].Key() != NextConns(w, step)[c].Key()
    {
      assert c' in w.conns ==> ConnOk(w, c');
    }
  }

  /** Entries stay in order whatever the leases do. */
  lemma EntriesStayOk(w: World, cfg: Config, step: Step)
    requires EntriesOk(w) && Possible(w, step)
    ensures EntriesOk(Next(w, cfg, step))
  {
    hide NextStore, StoreOp, Allowed;
  }

  lemma WorldStepKeepsInv(w: World, cfg: Config, step: Step)
    requires WorldInv(w, cfg) && Enabled(w, step) && cfg.agentTTL > 0
    ensures WorldInv(Next(w, cfg, step), cfg)
  {
    var w' := Next(w, cfg, step);
    InvNamed(w, cfg);
    StoreKeepsInv(w, cfg, step);
    EntriesStayOk(w, cfg, step);
    hide ConnOk, EntriesOk, Inv, Named, Possible, InTime, NextStore, NextTables, NextConns;
    forall c | c in w'.conns ensures ConnOk(w', c) {
      ConnsStayOk(w, cfg, step, c);
    }
  }

  ghost predicate PossibleRun(w: World, cfg: Config, steps: seq<Step>)
    decreases |steps|
  {
    steps != [] ==> Possible(w, steps[0]) && PossibleRun(Next(w, cfg, steps[0]), cfg, steps[1..])
  }

  ghost function WorldRun(w: World, cfg: Config, steps: seq<Step>): World
    requires PossibleRun(w, cfg, steps)
    decreases |steps|
  {
    if steps == [] then w else WorldRun(Next(w, cfg, steps[0]), cfg, steps[1..])
  }

  ghost predicate AllInTime(w: World, cfg: Config, steps: seq<Step>)
    requires PossibleRun(w, cfg, steps)
    decreases |steps|
  {
    steps != [] ==> InTime(w, steps[0]) && AllInTime(Next(w, cfg, steps[0]), cfg, steps[1..])
  }

  /** A run under the guards. */
  ghost predicate Reaches(w: World, cfg: Config, steps: seq<Step>) {
    PossibleRun(w, cfg, steps) && AllInTime(w, cfg, steps)
  }

  /** Lease exclusivity, in every reachable state and across all gateways: no two connections hold one
      agent between registering and unregistering, and each one's hash is live and names its gateway. */
  lemma {:induction false} LeaseIsExclusive(w: World, cfg: Config, steps: seq<Step>)
    requires WorldInv(w, cfg) && Reaches(w, cfg, steps) && cfg.agentTTL > 0
    ensures var w' := WorldRun(w, cfg, steps);
      && WorldInv(w', cfg)
      && (forall c, c' :: c in w'.conns && c' in w'.conns && w'.conns[c].Key() == w'.conns[c'].Key() ==> c == c')
      && (forall c <- w'.conns :: w'.conns[c].Key() in w'.store.keys
            && R.GatewayOf(w'.store, w'.conns[c].agentType, w'.conns[c].agentID) == w'.conns[c].gateway)
    decreases |steps|
  {
    if steps == [] {
      assert forall c <- w.conns :: ConnOk(w, c);
    } else {
      WorldStepKeepsInv(w, cfg, steps[0]);
      LeaseIsExclusive(Next(w, cfg, steps[0]), cfg, steps[1..]);
    }
  }

  /** A run can start: nothing registered, nobody connected. */
  lemma StartInv(start: nat, cfg: Config)
    requires start <= MAX_TIME
    ensures WorldInv(World(Db(start, map[]), map[], map[]), cfg)
  {
    EmptyInv(start, cfg);
  }

  // ----- The tables -----

  /** The gateway's table names the connection. */
  predicate Points(w: World, c: nat)
    requires c in w.conns
  {
    w.conns[c].Slot() in w.tables && w.tables[w.conns[c].Slot()] == c
  }

  ghost predicate AllPointed(w: World) {
    forall c <- w.conns :: w.conns[c].InTable() ==> Points(w, c)
  }

  /** The test a gateway could make before it publishes. */
  predicate SlotFree(w: World, step: Step) {
    step.Publish? && step.c in w.conns ==> w.conns[step.c].Slot() !in w.tables
  }

  ghost predicate PointedThroughout(w: World, cfg: Config, steps: seq<Step>)
    requires PossibleRun(w, cfg, steps)
    decreases |steps|
  {
    AllPointed(w) && (steps != [] ==> PointedThroughout(Next(w, cfg, steps[0]), cfg, steps[1..]))
  }

  ghost predicate SlotsFree(w: World, cfg: Config, steps: seq<Step>)
    requires PossibleRun(w, cfg, steps)
    decreases |steps|
  {
    steps != [] ==> SlotFree(w, steps[0]) && SlotsFree(Next(w, cfg, steps[0]), cfg, steps[1..])
  }

  lemma StepPointsExactly(w: World, cfg: Config, step: Step)
    requires EntriesOk(w) && AllPointed(w) && Possible(w, step)
    ensures AllPointed(Next(w, cfg, step)) <==> SlotFree(w, step)
  {
    hide NextStore, StoreOp, Allowed;
    var w' := Next(w, cfg, step);
    if step.Publish? && !SlotFree(w, step) {
      var old_ := w.tables[w.conns[step.c].Slot()];
      assert w'.conns[old_].InTable() && !Points(w', old_);
    }
  }

  lemma PointedFirst(w: World, cfg: Config, steps: seq<Step>)
    requires PossibleRun(w, cfg, steps) && PointedThroughout(w, cfg, steps)
    ensures AllPointed(w)
  {
  }

  /** The tables point to every connection that serves, all through a run, whatever its leases do, exactly
      if each slot was free when a connection was published in it. */
  lemma {:induction false} TablesPointExactly(w: World, cfg: Config, steps: seq<Step>)
    requires EntriesOk(w) && AllPointed(w) && PossibleRun(w, cfg, steps)
    ensures PointedThroughout(w, cfg, steps) <==> SlotsFree(w, cfg, steps)
    decreases |steps|
  {
    if steps != [] {
      var w' := Next(w, cfg, steps[0]);
      StepPointsExactly(w, cfg, steps[0]);
      EntriesStayOk(w, cfg, steps[0]);
      hide Next, EntriesOk, AllPointed, Possible, InTime, SlotFree;
      if PointedThroughout(w', cfg, steps[1..]) {
        PointedFirst(w', cfg, steps[1..]);
      }
      if SlotFree(w, steps[0]) {
        TablesPointExactly(w', cfg, steps[1..]);
      }
    }
  }

  lemma {:induction false} PointedAtEnd(w: World, cfg: Config, steps: seq<Step>)
    requires PossibleRun(w, cfg, steps) && PointedThroughout(w, cfg, steps)
    ensures AllPointed(WorldRun(w, cfg, steps))
    decreases |steps|
  {
    if steps != [] {
      PointedAtEnd(Next(w, cfg, steps[0]), cfg, steps[1..]);
    }
  }

  ghost predicate Typed(w: World, typeOf: string -> string) {
    forall c <- w.conns :: w.conns[c].agentType == typeOf(w.conns[c].agentID)
  }

  lemma PublishFindsFree(w: World, typeOf: string -> string, step: Step)
    requires (forall c <- w.conns :: ConnOk(w, c)) && EntriesOk(w) && Typed(w, typeOf) && Possible(w, step)
    ensures SlotFree(w, step)
  {
    if step.Publish? {
      assert ConnOk(w, step.c);
    }
  }

  /** Ids that are unique across agent types free the slots: then a connection that serves is always the
      one its gateway's table names. */
  lemma {:induction false} UniqueIDsFreeSlots(w: World, cfg: Config, typeOf: string -> string, steps: seq<Step>)
    requires WorldInv(w, cfg) && Reaches(w, cfg, steps) && cfg.agentTTL > 0 && Typed(w, typeOf)
    requires forall step <- steps :: step.Connect? ==> step.t == typeOf(step.i)
    ensures SlotsFree(w, cfg, steps)
    decreases |steps|
  {
    if steps != [] {
      var step := steps[0];
      assert step in steps;
      WorldStepKeepsInv(w, cfg, step);
      ConnsBefore(w, step);
      assert Typed(Next(w, cfg, step), typeOf) by { hide NextStore, NextTables, Possible; }
      PublishFindsFree(w, typeOf, step);
      hide WorldInv, Next, Possible, InTime;
      UniqueIDsFreeSlots(Next(w, cfg, step), cfg, typeOf, steps[1..]);
    }
  }

  /** Nothing keeps two types from sharing an id, and then no lease has to run out for the tables to go
      wrong: an agent of another type connects to the same gateway, is published, and the first serves on
      without an entry. */
  lemma SharedIDTakesSlot(w: World, cfg: Config, c: nat, c': nat, u: string)
    requires c in w.conns && w.conns[c].stage == Serving && c' !in w.conns && w.conns[c].gateway != ""
    requires u != w.conns[c].agentType && ColonFree(u) && Agent(u, w.conns[c].agentID) !in w.store.keys
    ensures var k := w.conns[c]; var connect := Connect(c', u, k.agentID, k.gateway); var w1 := Next(w, cfg, connect);
      && Enabled(w, connect) && c' in w1.conns && Enabled(w1, Publish(c'))
      && var w2 := Next(w1, cfg, Publish(c'));
      && c in w2.conns && w2.conns[c] == k && !Points(w2, c)
  {
    hide NextStore;
  }

  // ----- Where a request goes -----

  /** The table entry that decides on a request for agent (t, i) at gateway g: the gateway's own if it has
      one under the id, and otherwise the one on the gateway that the agent's hash names. */
  function Consulted(w: World, g: string, t: string, i: string): (string, string) {
    if (g, i) in w.tables then (g, i) else (R.GatewayOf(w.store, t, i), i)
  }

  /** The connection that is sent the request. */
  function Reached(w: World, g: string, t: string, i: string): Option<nat> {
    var k := Consulted(w, g, t, i);
    if k in w.tables then Some(w.tables[k]) else None
  }

  /** The test that could be made before sending: the entry is of the type asked for. */
  predicate RightType(w: World, g: string, t: string, i: string) {
    var c := Reached(w, g, t, i);
    c.Some? && c.value in w.conns && w.conns[c.value].agentType == t
  }

  lemma {:induction false} RunKeepsEntries(w: World, cfg: Config, steps: seq<Step>)
    requires EntriesOk(w) && PossibleRun(w, cfg, steps)
    ensures EntriesOk(WorldRun(w, cfg, steps))
    decreases |steps|
  {
    if steps != [] {
      EntriesStayOk(w, cfg, steps[0]);
      hide EntriesOk, Next, Possible;
      RunKeepsEntries(Next(w, cfg, steps[0]), cfg, steps[1..]);
    }
  }

  /** In every state of every run, a request reaches a connection of the very agent it is for exactly if
      the entry it is sent by is of that agent's type. */
  lemma RequestReachesExactly(start: World, cfg: Config, steps: seq<Step>, g: string, t: string, i: string)
    requires EntriesOk(start) && PossibleRun(start, cfg, steps)
    ensures var w := WorldRun(start, cfg, steps); var c := Reached(w, g, t, i);
      && (c.Some? ==> c.value in w.conns && w.conns[c.value].agentID == i && w.conns[c.value].InTable())
      && (c.Some? && w.conns[c.value].Key() == Agent(t, i) <==> RightType(w, g, t, i))
  {
    RunKeepsEntries(start, cfg, steps);
  }

  /** From every gateway, the agent of a connection in the tables is reached there and nowhere else. */
  ghost predicate AllReached(w: World) {
    forall c, g ::
      c in w.conns && w.conns[c].InTable() ==> Reached(w, g, w.conns[c].agentType, w.conns[c].agentID) == Some(c)
  }

  /** The test across all gateways that makes it so: no table has an entry under the id yet. */
  ghost predicate IDFree(w: World, step: Step) {
    step.Publish? && step.c in w.conns ==> forall k <- w.tables :: k.1 != w.conns[step.c].agentID
  }

  /** Each id has one entry at most, and every connection in the tables has its own. */
  ghost predicate OneEntryEach(w: World) {
    && AllPointed(w)
    && forall k, c ::
         k in w.tables && c in w.conns && w.conns[c].InTable() && k.1 == w.conns[c].agentID ==> w.tables[k] == c
  }

  lemma ReachedByOneEntry(w: World)
    requires forall c <- w.conns :: Owns(w.store, w.conns[c])
    ensures AllReached(w) <==> OneEntryEach(w)
  {
    forall c | c in w.conns
      ensures R.GatewayOf(w.store, w.conns[c].agentType, w.conns[c].agentID) == w.conns[c].gateway
    {
      assert Owns(w.store, w.conns[c]);
    }
    hide Owns, R.GatewayOf;
    if AllReached(w) {
      forall c | c in w.conns && w.conns[c].InTable() ensures Points(w, c) {
        assert Reached(w, w.conns[c].gateway, w.conns[c].agentType, w.conns[c].agentID) == Some(c);
      }
      forall k, c | k in w.tables && c in w.conns && w.conns[c].InTable() && k.1 == w.conns[c].agentID
        ensures w.tables[k] == c
      {
        assert Reached(w, k.0, w.conns[c].agentType, w.conns[c].agentID) == Some(c);
      }
    }
  }

  lemma TakenIDBreaks(w: World, cfg: Config, step: Step)
    requires EntriesOk(w) && Possible(w, step) && step.Publish? && !IDFree(w, step)
    ensures !OneEntryEach(Next(w, cfg, step))
  {
    hide NextStore, StoreOp, Allowed;
    var w' := Next(w, cfg, step);
    var k :| k in w.tables && k.1 == w.conns[step.c].agentID;
    var c := w.tables[k];
    assert c in w'.conns && w'.conns[c].InTable() && w'.conns[c].agentID == k.1 && w'.conns[c].Slot() == k;
    assert w'.tables[w.conns[step.c].Slot()] == step.c != c;
  }

  lemma FreeIDKeeps(w: World, cfg: Config, step: Step)
    requires EntriesOk(w) && OneEntryEach(w) && Possible(w, step) && IDFree(w, step)
    ensures OneEntryEach(Next(w, cfg, step))
  {
    hide NextStore, StoreOp, Allowed;
  }

  lemma StepKeepsOneEntryExactly(w: World, cfg: Config, step: Step)
    requires EntriesOk(w) && OneEntryEach(w) && Possible(w, step)
    ensures OneEntryEach(Next(w, cfg, step)) <==> IDFree(w, step)
  {
    hide Next, EntriesOk, OneEntryEach, Possible;
    if IDFree(w, step) {
      FreeIDKeeps(w, cfg, step);
    } else {
      TakenIDBreaks(w, cfg, step);
    }
  }

  ghost predicate ReachedThroughout(w: World, cfg: Config, steps: seq<Step>)
    requires PossibleRun(w, cfg, steps)
    decreases |steps|
  {
    AllReached(w) && (steps != [] ==> ReachedThroughout(Next(w, cfg, steps[0]), cfg, steps[1..]))
  }

  ghost predicate IDsFree(w: World, cfg: Config, steps: seq<Step>)
    requires PossibleRun(w, cfg, steps)
    decreases |steps|
  {
    steps != [] ==> IDFree(w, steps[0]) && IDsFree(Next(w, cfg, steps[0]), cfg, steps[1..])
  }

  lemma InvOwns(w: World, cfg: Config)
    requires WorldInv(w, cfg)
    ensures EntriesOk(w) && forall c <- w.conns :: Owns(w.store, w.conns[c])
  {
    forall c | c in w.conns ensures Owns(w.store, w.conns[c]) {
      assert ConnOk(w, c);
    }
  }

  lemma StepReachesExactly(w: World, cfg: Config, step: Step)
    requires WorldInv(w, cfg) && AllReached(w) && Enabled(w, step) && cfg.agentTTL > 0
    ensures WorldInv(Next(w, cfg, step), cfg)
    ensures AllReached(Next(w, cfg, step)) <==> IDFree(w, step)
  {
    InvOwns(w, cfg);
    ReachedByOneEntry(w);
    WorldStepKeepsInv(w, cfg, step);
    InvOwns(Next(w, cfg, step), cfg);
    ReachedByOneEntry(Next(w, cfg, step));
    StepKeepsOneEntryExactly(w, cfg, step);
  }

  lemma ReachedFirst(w: World, cfg: Config, steps: seq<Step>)
    requires PossibleRun(w, cfg, steps) && ReachedThroughout(w, cfg, steps)
    ensures AllReached(w)
  {
  }

  /** Requests reach the very agent they are for, from every gateway and all through a run under the
      guards, exactly if no gateway had an entry under the id whenever a connection was published. */
  lemma {:induction false} RequestsReachAgentsExactly(w: World, cfg: Config, steps: seq<Step>)
    requires WorldInv(w, cfg) && AllReached(w) && Reaches(w, cfg, steps) && cfg.agentTTL > 0
    ensures ReachedThroughout(w, cfg, steps) <==> IDsFree(w, cfg, steps)
    decreases |steps|
  {
    if steps != [] {
      var w' := Next(w, cfg, steps[0]);
      StepReachesExactly(w, cfg, steps[0]);
      hide Next, WorldInv, AllReached, Possible, InTime, IDFree;
      if ReachedThroughout(w', cfg, steps[1..]) {
        ReachedFirst(w', cfg, steps[1..]);
      }
      if IDFree(w, steps[0]) {
        RequestsReachAgentsExactly(w', cfg, steps[1..]);
      }
    }
  }

  lemma {:induction false} ReachedAtEnd(w: World, cfg: Config, steps: seq<Step>)
    requires PossibleRun(w, cfg, steps) && ReachedThroughout(w, cfg, steps)
    ensures AllReached(WorldRun(w, cfg, steps))
    decreases |steps|
  {
    if steps != [] {
      hide Next, Possible, AllReached;
      ReachedAtEnd(Next(w, cfg, steps[0]), cfg, steps[1..]);
    }
  }

  lemma PublishFindsIDFree(w: World, typeOf: string -> string, step: Step)
    requires (forall c <- w.conns :: ConnOk(w, c)) && EntriesOk(w) && Typed(w, typeOf) && Possible(w, step)
    ensures IDFree(w, step)
  {
    if step.Publish? {
      assert ConnOk(w, step.c);
    }
  }

  /** Ids that are unique across agent types are free whenever their one connection is published: then every
      request reaches the agent it is for. */
  lemma {:induction false} UniqueIDsAreFree(w: World, cfg: Config, typeOf: string -> string, steps: seq<Step>)
    requires WorldInv(w, cfg) && Reaches(w, cfg, steps) && cfg.agentTTL > 0 && Typed(w, typeOf)
    requires forall step <- steps :: step.Connect? ==> step.t == typeOf(step.i)
    ensures IDsFree(w, cfg, steps)
    decreases |steps|
  {
    if steps != [] {
      var step := steps[0];
      assert step in steps;
      WorldStepKeepsInv(w, cfg, step);
      ConnsBefore(w, step);
      assert Typed(Next(w, cfg, step), typeOf) by { hide NextStore, NextTables, Possible; }
      PublishFindsIDFree(w, typeOf, step);
      hide WorldInv, Next, Possible, InTime;
      UniqueIDsAreFree(Next(w, cfg, step), cfg, typeOf, steps[1..]);
    }
  }

  lemma OwnsNames(s: Store, k: Connection)
    requires Owns(s, k)
    ensures R.GatewayOf(s, k.agentType, k.agentID) == k.gateway
  {
  }

  /** Free slots do not help: while one agent serves, an agent of another type under the same id connects
      to another gateway, in a slot that is free there. Every invariant still holds, the hash of the
      first names its gateway, and yet every request for it that comes in at the other gateway goes to
      the second. */
  lemma SharedIDTakesRequests(w: World, cfg: Config, c: nat, c': nat, u: string, g: string)
    requires WorldInv(w, cfg) && AllPointed(w) && cfg.agentTTL > 0
    requires c in w.conns && w.conns[c].stage == Serving && c' !in w.conns
    requires u != w.conns[c].agentType && ColonFree(u) && Agent(u, w.conns[c].agentID) !in w.store.keys
    requires g != "" && (g, w.conns[c].agentID) !in w.tables
    ensures var k := w.conns[c]; var connect := Connect(c', u, k.agentID, g); var w1 := Next(w, cfg, connect);
      && Enabled(w, connect) && c' in w1.conns && Enabled(w1, Publish(c')) && SlotFree(w1, Publish(c'))
      && var w2 := Next(w1, cfg, Publish(c'));
      && WorldInv(w2, cfg) && AllPointed(w2)
      && c in w2.conns && w2.conns[c] == k && R.GatewayOf(w2.store, k.agentType, k.agentID) == k.gateway
      && c' in w2.conns && w2.conns[c'].agentType == u
      && Reached(w2, g, k.agentType, k.agentID) == Some(c') && !RightType(w2, g, k.agentType, k.agentID)
  {
    hide NextStore, WorldInv, AllPointed, EntriesOk, Owns, RenewedThrough, R.GatewayOf;
    var k := w.conns[c];
    var connect := Connect(c', u, k.agentID, g);
    var w1 := Next(w, cfg, connect);
    InvOwns(w, cfg);
    WorldStepKeepsInv(w, cfg, connect);
    StepPointsExactly(w, cfg, connect);
    InvOwns(w1, cfg);
    var w2 := Next(w1, cfg, Publish(c'));
    WorldStepKeepsInv(w1, cfg, Publish(c'));
    StepPointsExactly(w1, cfg, Publish(c'));
    InvOwns(w2, cfg);
    OwnsNames(w2.store, w2.conns[c]);
  }

  // ----- Leaving -----

  lemma DisconnectSparesEntries(w: World, cfg: Config, step: Step, c: nat)
    requires EntriesOk(w) && AllPointed(w) && Possible(w, step)
    requires (step.RemoveLocal? || step.Leave?) && c in w.conns && c != step.c
    ensures var w' := Next(w, cfg, step); c in w'.conns && w'.conns[c] == w.conns[c] && (Points(w, c) ==> Points(w', c))
  {
    hide NextStore, StoreOp, Allowed;
  }

  lemma LeaveFacts(w: World, cfg: Config, step: Step, c: nat)
    requires WorldInv(w, cfg) && Enabled(w, step)
    requires (step.RemoveLocal? || step.Leave?) && c in w.conns && c != step.c
    ensures WellKinded(w.store) && step.c in w.conns && w.conns[c].Key() != w.conns[step.c].Key()
    ensures ColonFree(w.conns[c].agentType) && ColonFree(w.conns[step.c].agentType)
    ensures NextStore(w, cfg, step)
            == if step.Leave? then R.Unregister(w.store, w.conns[step.c].agentType, w.conns[step.c].agentID)
                else w.store
  {
    assert ConnOk(w, c) && ConnOk(w, step.c);
    InvKinded(w.store, cfg);
    hide Inv, WellKinded, R.Unregister;
  }

  lemma DisconnectSparesAgents(w: World, cfg: Config, step: Step, c: nat)
    requires WorldInv(w, cfg) && Enabled(w, step)
    requires (step.RemoveLocal? || step.Leave?) && c in w.conns && c != step.c
    ensures RP.SameAgent(w.store, NextStore(w, cfg, step), w.conns[c].agentType, w.conns[c].agentID)
  {
    LeaveFacts(w, cfg, step, c);
    hide WorldInv, Enabled, NextStore, R.Unregister, WellKinded, ColonFree;
    if step.Leave? {
      hide RP.SameAgent;
      var k, gone := w.conns[c], w.conns[step.c];
      RP.UnregisterSparesOthers(w.store, gone.agentType, gone.agentID, k.agentType, k.agentID);
    }
  }

  /** Under the guards a disconnect takes nothing from any other connection: not its hash, not its
      memberships, not its place in a table. */
  lemma DisconnectSparesOthers(w: World, cfg: Config, step: Step, c: nat)
    requires WorldInv(w, cfg) && AllPointed(w) && Enabled(w, step) && cfg.agentTTL > 0
    requires (step.RemoveLocal? || step.Leave?) && c in w.conns && c != step.c
    ensures var w' := Next(w, cfg, step);
      && c in w'.conns && w'.conns[c] == w.conns[c]
      && RP.SameAgent(w.store, w'.store, w.conns[c].agentType, w.conns[c].agentID)
      && (Points(w, c) ==> Points(w', c))
  {
    DisconnectSparesAgents(w, cfg, step, c);
    assert EntriesOk(w);
    hide WorldInv, InTime, RP.SameAgent, NextStore, StoreOp;
    DisconnectSparesEntries(w, cfg, step, c);
    hide Possible, AllPointed, Points, NextTables, EntriesOk;
  }
}
