/** The connections of all gateways and their multiplexers as one system: what a request finds in a gateway's
    table is what the registered connections say, and what its client gets is that connection's answer. */
module Deployment {
  import opened Basics
  import opened Proto
  import opened OpenAI
  import opened Answers
  import RedisModel
  import Lease
  import Mux
  import Relays
  import Runs
  import Sse
  import EndToEnd

  /** `traces` is what the multiplexer and the relays of each gateway have done since it started. */
  datatype State = State(world: Lease.World, traces: map<string, seq<Relays.Step>>)

  /** A step of connections and registry, or one of a gateway's multiplexer and relays. */
  datatype Event = OfLease(step: Lease.Step) | AtGateway(g: string, s: Relays.Step)

  function Trace(d: State, g: string): seq<Relays.Step> {
    if g in d.traces then d.traces[g] else []
  }

  ghost predicate Traced(d: State, g: string) {
    Relays.Reaches(Relays.START, Trace(d, g))
  }

  ghost function At(d: State, g: string): Relays.System
    requires Traced(d, g)
  {
    Relays.Run(Relays.START, Trace(d, g))
  }

  /** A connection's step that its gateway's multiplexer takes too: it is published, its receive loop ends, it
      leaves the table. */
  function Shared(w: Lease.World, step: Lease.Step): Option<Mux.Action>
    requires step.Publish? || step.Stop? || step.RemoveLocal? ==> step.c in w.conns
  {
    match step
    case Publish(c) => Some(Mux.Open(c, w.conns[c].agentType, w.conns[c].agentID))
    case Stop(c) => Some(Mux.Hangup(c))
    case RemoveLocal(c) => Some(Mux.Unpublish(c))
    case _ => None
  }

  predicate OwnStep(s: Relays.Step) {
    s.Local? ==> !s.a.Open? && !s.a.Hangup? && !s.a.Unpublish?
  }

  /** Numbers of connections are never used again, as a gateway keeps what it knows of each. */
  ghost predicate Enabled(d: State, e: Event)
    requires forall g :: Traced(d, g)
  {
    match e
    case OfLease(step) =>
      && Lease.Possible(d.world, step)
      && (Shared(d.world, step).Some? ==>
            Relays.Enabled(At(d, d.world.conns[step.c].gateway), Relays.Local(Shared(d.world, step).value)))
    case AtGateway(g, s) => OwnStep(s) && Relays.Enabled(At(d, g), s)
  }

  function Longer(d: State, g: string, s: Relays.Step): map<string, seq<Relays.Step>> {
    d.traces[g := Trace(d, g) + [s]]
  }

  /** A gateway that crashes starts anew. */
  ghost function Next(d: State, cfg: Runs.Config, e: Event): State
    requires (forall g :: Traced(d, g)) && Enabled(d, e)
  {
    match e
    case OfLease(step) =>
      State(Lease.Next(d.world, cfg, step),
        if Shared(d.world, step).Some? then
          Longer(d, d.world.conns[step.c].gateway, Relays.Local(Shared(d.world, step).value))
        else if step.Crash? then d.traces - {step.g} else d.traces)
    case AtGateway(g, s) => d.(traces := Longer(d, g, s))
  }

  // ----- The tables are one -----

  /** A gateway's table and connections are those the world has for it. */
  ghost predicate TiedAt(w: Lease.World, m: Mux.State, g: string) {
    && (forall i :: i in m.localAgents <==> (g, i) in w.tables)
    && (forall i <- m.localAgents :: m.localAgents[i] == w.tables[(g, i)])
    && (forall c <- w.conns :: w.conns[c].gateway == g && w.conns[c].stage != Lease.Registered ==>
          c in m.conns && m.conns[c].agentType == w.conns[c].agentType && m.conns[c].agentID == w.conns[c].agentID)
  }

  ghost predicate Tied(d: State) {
    forall g :: Traced(d, g) && TiedAt(d.world, At(d, g).mux, g)
  }

  lemma OwnActionKeepsTable(m: Mux.State, a: Mux.Action)
    requires Mux.Enabled(m, a) && !a.Open? && !a.Unpublish?
    ensures Mux.Next(m, a).localAgents == m.localAgents
  {
    hide Mux.ConnEnabled, Mux.NextConn;
  }

  lemma OwnActionTied(w: Lease.World, m: Mux.State, a: Mux.Action, g: string)
    requires TiedAt(w, m, g) && Mux.Enabled(m, a) && !a.Open? && !a.Hangup? && !a.Unpublish?
    ensures TiedAt(w, Mux.Next(m, a), g)
  {
    hide Mux.Next, Mux.Enabled;
    OwnActionKeepsTable(m, a);
    Mux.ConnsKeepAgents(m, a);
    forall c | c in w.conns && w.conns[c].gateway == g && w.conns[c].stage != Lease.Registered
      ensures c in Mux.Next(m, a).conns && Mux.Next(m, a).conns[c].agentType == w.conns[c].agentType
                && Mux.Next(m, a).conns[c].agentID == w.conns[c].agentID
    {
      assert Mux.ConnOfAgent(Mux.Next(m, a), c, m.conns[c].agentID);
    }
  }

  /** The steps a gateway takes by itself leave its table alone. */
  lemma OwnStepTied(w: Lease.World, y: Relays.System, s: Relays.Step, g: string)
    requires TiedAt(w, y.mux, g) && Relays.Enabled(y, s) && OwnStep(s)
    ensures TiedAt(w, Relays.Next(y, s).mux, g)
  {
    hide TiedAt, Mux.Next, Mux.Enabled;
    if s.Local? || s.Pull? {
      OwnActionTied(w, y.mux, if s.Local? then s.a else Mux.Take(s.r), g);
    }
  }

  /** A step that a connection and its gateway's multiplexer take together keeps them in agreement. */
  lemma SharedStepTied(w: Lease.World, cfg: Runs.Config, step: Lease.Step, m: Mux.State)
    requires Lease.Possible(w, step) && Shared(w, step).Some? && Mux.Enabled(m, Shared(w, step).value)
    requires TiedAt(w, m, w.conns[step.c].gateway)
    ensures TiedAt(Lease.Next(w, cfg, step), Mux.Next(m, Shared(w, step).value), w.conns[step.c].gateway)
  {
    hide Lease.NextStore, Runs.Allowed;
  }

  /** A step leaves the other gateways alone. */
  lemma ElsewhereTied(w: Lease.World, cfg: Runs.Config, step: Lease.Step, m: Mux.State, g: string)
    requires Lease.Possible(w, step) && TiedAt(w, m, g) && step != Lease.Crash(g)
    requires Shared(w, step).Some? ==> w.conns[step.c].gateway != g
    ensures TiedAt(Lease.Next(w, cfg, step), m, g)
  {
    hide Lease.NextStore, Runs.Allowed;
  }

  lemma CrashTied(w: Lease.World, cfg: Runs.Config, g: string)
    ensures TiedAt(Lease.Next(w, cfg, Lease.Crash(g)), Mux.START, g)
  {
    hide Lease.NextStore;
  }

  lemma LocalStep(y: Relays.System, a: Mux.Action)
    requires Relays.Enabled(y, Relays.Local(a))
    ensures Mux.Enabled(y.mux, a) && Relays.Next(y, Relays.Local(a)).mux == Mux.Next(y.mux, a)
  {
  }

  lemma Restarted()
    ensures Relays.Reaches(Relays.START, []) && Relays.Run(Relays.START, []).mux == Mux.START
  {
  }

  lemma StepTied(d: State, cfg: Runs.Config, e: Event, g: string)
    requires Tied(d) && Enabled(d, e)
    ensures Traced(Next(d, cfg, e), g) && TiedAt(Next(d, cfg, e).world, At(Next(d, cfg, e), g).mux, g)
  {
    var d', y := Next(d, cfg, e), At(d, g);
    hide TiedAt, Lease.Possible, Lease.Next, Relays.Enabled, Relays.Next, Mux.Enabled, Mux.Next, Relays.Reaches,
      Relays.Run;
    match e
    case AtGateway(h, s) =>
      if h == g {
        Relays.RunThen(Relays.START, Trace(d, g), s);
        OwnStepTied(d.world, y, s, g);
      }
    case OfLease(step) =>
      var shared := Shared(d.world, step);
      if shared.Some? && d.world.conns[step.c].gateway == g {
        Relays.RunThen(Relays.START, Trace(d, g), Relays.Local(shared.value));
        LocalStep(y, shared.value);
        SharedStepTied(d.world, cfg, step, y.mux);
      } else if step == Lease.Crash(g) {
        CrashTied(d.world, cfg, g);
        Restarted();
      } else {
        ElsewhereTied(d.world, cfg, step, y.mux, g);
      }
  }

  lemma StepKeepsTied(d: State, cfg: Runs.Config, e: Event)
    requires Tied(d) && Enabled(d, e)
    ensures Tied(Next(d, cfg, e))
  {
    hide TiedAt, Next, At, Traced, Enabled;
    forall g ensures Traced(Next(d, cfg, e), g) && TiedAt(Next(d, cfg, e).world, At(Next(d, cfg, e), g).mux, g) {
      StepTied(d, cfg, e, g);
    }
  }

  // ----- Whole runs -----

  ghost predicate Reaches(d: State, cfg: Runs.Config, events: seq<Event>)
    requires forall g :: Traced(d, g)
    decreases |events|
  {
    events != [] ==>
      && Enabled(d, events[0]) && (forall g :: Traced(Next(d, cfg, events[0]), g))
      && Reaches(Next(d, cfg, events[0]), cfg, events[1..])
  }

  ghost function Run(d: State, cfg: Runs.Config, events: seq<Event>): State
    requires (forall g :: Traced(d, g)) && Reaches(d, cfg, events)
    decreases |events|
  {
    if events == [] then d else Run(Next(d, cfg, events[0]), cfg, events[1..])
  }

  /** What happens to the connections and the registry in a run. */
  function LeaseSteps(events: seq<Event>): seq<Lease.Step> {
    if events == [] then []
    else (if events[0].OfLease? then [events[0].step] else []) + LeaseSteps(events[1..])
  }

  lemma {:induction false} RunKeepsTied(d: State, cfg: Runs.Config, events: seq<Event>)
    requires Tied(d) && Reaches(d, cfg, events)
    ensures Tied(Run(d, cfg, events))
    ensures Lease.PossibleRun(d.world, cfg, LeaseSteps(events))
    ensures Lease.WorldRun(d.world, cfg, LeaseSteps(events)) == Run(d, cfg, events).world
    decreases |events|
  {
    if events != [] {
      var e := events[0];
      StepKeepsTied(d, cfg, e);
      var d' := Next(d, cfg, e);
      if e.OfLease? {
        assert d'.world == Lease.Next(d.world, cfg, e.step) && Lease.Possible(d.world, e.step);
      }
      assert e.AtGateway? ==> d'.world == d.world;
      hide TiedAt, Traced, Next, Enabled, Lease.Possible, Lease.Next, Tied;
      RunKeepsTied(d', cfg, events[1..]);
      var rest := LeaseSteps(events[1..]);
      if e.OfLease? {
        assert LeaseSteps(events) == [e.step] + rest && ([e.step] + rest)[1..] == rest;
      } else {
        assert LeaseSteps(events) == rest;
      }
    }
  }

  /** A gateway that does not crash goes on from where it is. */
  lemma {:induction false} TraceGrows(d: State, cfg: Runs.Config, events: seq<Event>, g: string)
    requires (forall h :: Traced(d, h)) && Reaches(d, cfg, events) && OfLease(Lease.Crash(g)) !in events
    ensures Trace(d, g) <= Trace(Run(d, cfg, events), g)
    decreases |events|
  {
    if events != [] {
      var d' := Next(d, cfg, events[0]);
      assert Trace(d, g) <= Trace(d', g) by { hide Traced, Enabled, Lease.Next; }
      hide Traced, Next, Enabled;
      TraceGrows(d', cfg, events[1..], g);
    }
  }

  /** The entry that decides on a request is what the world says it is. */
  lemma EntryAgrees(w: Lease.World, m: Mux.State, g: string, t: string, i: string)
    requires TiedAt(w, m, g) && Lease.EntriesOk(w)
    ensures Mux.EntryIs(m, t, i) <==> (g, i) in w.tables && w.conns[w.tables[(g, i)]].agentType == t
    ensures (g, i) in w.tables ==> i in m.localAgents && m.localAgents[i] == w.tables[(g, i)]
  {
    if (g, i) in w.tables {
      var c := w.tables[(g, i)];
      assert w.conns[c].Slot() == (g, i) && w.conns[c].InTable();
    }
  }

  /** In every state of every run, wherever a request comes in: the test of the type that decides on it, made
      in the gateway's own table, is the one made on the registered connections. */
  lemma TestsAgree(start: State, cfg: Runs.Config, events: seq<Event>, g: string, t: string, i: string)
    requires Tied(start) && Lease.EntriesOk(start.world) && Reaches(start, cfg, events)
    ensures var d := Run(start, cfg, events);
      && Tied(d) && Lease.EntriesOk(d.world)
      && var k := Lease.Consulted(d.world, g, t, i);
         Mux.EntryIs(At(d, k.0).mux, t, i) <==> Lease.RightType(d.world, g, t, i)
  {
    RunKeepsTied(start, cfg, events);
    Lease.RunKeepsEntries(start.world, cfg, LeaseSteps(events));
    var d := Run(start, cfg, events);
    var k := Lease.Consulted(d.world, g, t, i);
    hide Run, Reaches, Lease.PossibleRun, Lease.WorldRun;
    assert TiedAt(d.world, At(d, k.0).mux, k.0);
    EntryAgrees(d.world, At(d, k.0).mux, k.0, t, i);
    hide TiedAt;
  }

  /** After a lookup the gateway's multiplexer takes some path. */
  lemma FindAndAfter(trace: seq<Relays.Step>, r: string, trace': seq<Relays.Step>) returns (path: seq<Mux.Action>)
    requires Relays.Reaches(Relays.START, trace) && Relays.Reaches(Relays.START, trace')
    requires Relays.Enabled(Relays.Run(Relays.START, trace), Relays.Local(Mux.Find(r)))
    requires trace + [Relays.Local(Mux.Find(r))] <= trace'
    ensures var m, m' := Relays.Run(Relays.START, trace).mux, Relays.Run(Relays.START, trace').mux;
      Mux.Inv(m) && Mux.Inv(m') && Mux.Enabled(m, Mux.Find(r)) && Mux.Path(Mux.Next(m, Mux.Find(r)), path, m')
  {
    var find, y := Relays.Local(Mux.Find(r)), Relays.Run(Relays.START, trace);
    var n := |trace| + 1;
    assert trace'[..n] == trace + [find];
    LocalStep(y, Mux.Find(r));
    hide Relays.Next, Relays.Enabled, Mux.Next, Mux.Enabled, Mux.Inv, Mux.Path;
    Relays.RunThen(Relays.START, trace, find);
    Relays.RunSplits(Relays.START, trace', n);
    Relays.ReachableInv(trace);
    Relays.ReachableInv(trace');
    path := Relays.RunTakesPath(Relays.Next(y, find), trace'[n..]);
  }

  lemma {:induction false} PathKeepsCall(m: Mux.State, path: seq<Mux.Action>, m': Mux.State, r: string)
    requires Mux.Path(m, path, m') && r in m.calls
    ensures r in m'.calls
    decreases |path|
  {
    if path != [] {
      Relays.TakenAfter(m, path[0], r);
      hide Mux.Next, Mux.Enabled;
      PathKeepsCall(Mux.Next(m, path[0]), path[1..], m', r);
    }
  }

  /** Request r is looked up at gateway g in this state; the events that follow are no crash of g. */
  ghost predicate LooksUp(d: State, cfg: Runs.Config, g: string, r: string, events: seq<Event>) {
    && Tied(d) && Lease.EntriesOk(d.world) && Enabled(d, AtGateway(g, Relays.Local(Mux.Find(r))))
    && Reaches(d, cfg, [AtGateway(g, Relays.Local(Mux.Find(r)))] + events) && OfLease(Lease.Crash(g)) !in events
  }

  ghost function Later(d: State, cfg: Runs.Config, g: string, r: string, events: seq<Event>): State
    requires LooksUp(d, cfg, g, r, events)
  {
    Run(d, cfg, [AtGateway(g, Relays.Local(Mux.Find(r)))] + events)
  }

  /** What the gateway has done by then: the lookup, and whatever path its multiplexer took since. */
  lemma LaterPath(d: State, cfg: Runs.Config, g: string, r: string, events: seq<Event>) returns (path: seq<Mux.Action>)
    requires LooksUp(d, cfg, g, r, events)
    ensures Traced(d, g) && Tied(Later(d, cfg, g, r, events))
    ensures var m, m' := At(d, g).mux, At(Later(d, cfg, g, r, events), g).mux;
      Mux.Inv(m) && Mux.Inv(m') && Mux.Enabled(m, Mux.Find(r)) && Mux.Path(Mux.Next(m, Mux.Find(r)), path, m')
  {
    var find, d' := AtGateway(g, Relays.Local(Mux.Find(r))), Later(d, cfg, g, r, events);
    RunKeepsTied(d, cfg, [find] + events);
    assert ([find] + events)[0] == find && ([find] + events)[1..] == events;
    TraceGrows(Next(d, cfg, find), cfg, events, g);
    assert Traced(d, g) && Traced(d', g);
    hide Relays.Reaches, Relays.Run, Reaches, Run, TiedAt, Lease.Next, Lease.EntriesOk;
    path := FindAndAfter(Trace(d, g), r, Trace(d', g));
  }

  lemma TiedEntry(d: State, cfg: Runs.Config, g: string, r: string, events: seq<Event>)
    requires LooksUp(d, cfg, g, r, events) && Traced(d, g) && r in At(d, g).mux.calls
    ensures var m := At(d, g).mux; var t, i := m.calls[r].wanted, m.calls[r].agentID;
      && Lease.EntriesOk(d.world)
      && (Mux.EntryIs(m, t, i) <==> (g, i) in d.world.tables && d.world.conns[d.world.tables[(g, i)]].agentType == t)
      && (i in m.localAgents <==> (g, i) in d.world.tables)
      && (i in m.localAgents ==> m.localAgents[i] == d.world.tables[(g, i)])
  {
    var m := At(d, g).mux;
    assert TiedAt(d.world, m, g);
    EntryAgrees(d.world, m, g, m.calls[r].wanted, m.calls[r].agentID);
    hide Reaches, Lease.EntriesOk, At, Traced;
  }

  /** A request is looked up in some state, and whatever happens afterwards short of a crash of that gateway:
      if it gets queued, then on the connection the world had in that slot, and it is at the agent asked for
      exactly if that connection is of the type asked for. */
  lemma LookupFinds(d: State, cfg: Runs.Config, g: string, r: string, events: seq<Event>)
    requires LooksUp(d, cfg, g, r, events)
    ensures Tied(Later(d, cfg, g, r, events)) && r in At(d, g).mux.calls
    ensures var k, y := At(d, g).mux.calls[r], At(Later(d, cfg, g, r, events), g);
      && r in y.mux.calls
      && (Relays.OnConn(y, r) ==>
            && (g, k.agentID) in d.world.tables
            && y.mux.calls[r].conn == Some(d.world.tables[(g, k.agentID)])
            && (Mux.AtRightAgent(y.mux, r) <==>
                  d.world.conns[d.world.tables[(g, k.agentID)]].agentType == k.wanted))
  {
    var path := LaterPath(d, cfg, g, r, events);
    hide Reaches, Run, Lease.Next, Relays.Reaches, Relays.Run, Mux.Inv, Mux.Path, Mux.AtRightAgent, LooksUp, Later;
    var m, y := At(d, g).mux, At(Later(d, cfg, g, r, events), g);
    Relays.TakenAfter(m, Mux.Find(r), r);
    hide Mux.Next;
    PathKeepsCall(Mux.Next(m, Mux.Find(r)), path, y.mux, r);
    if Relays.OnConn(y, r) {
      TiedEntry(d, cfg, g, r, events);
      Mux.LookupDecides(m, r, path, y.mux);
    }
  }

  // ----- From the registry to the reply -----

  /** A run under the guards, in which ids were free whenever a connection was published. */
  ghost predicate InOrder(start: State, cfg: Runs.Config, events: seq<Event>) {
    && Tied(start) && Lease.WorldInv(start.world, cfg) && Lease.AllReached(start.world) && cfg.agentTTL > 0
    && Reaches(start, cfg, events) && Lease.Reaches(start.world, cfg, LeaseSteps(events))
    && Lease.IDsFree(start.world, cfg, LeaseSteps(events))
  }

  ghost function After(start: State, cfg: Runs.Config, events: seq<Event>): State
    requires InOrder(start, cfg, events)
  {
    Run(start, cfg, events)
  }

  /** A run can start in order: nothing registered, nobody connected, every gateway new. */
  lemma StartInOrder(start: nat, cfg: Runs.Config)
    requires start <= RedisModel.MAX_TIME && cfg.agentTTL > 0
    ensures InOrder(State(Lease.World(RedisModel.Db(start, map[]), map[], map[]), map[]), cfg, [])
  {
    Lease.StartInv(start, cfg);
  }

  lemma ReachedHere(start: State, cfg: Runs.Config, before: seq<Event>, c: nat, g: string)
    requires InOrder(start, cfg, before)
    requires var w := After(start, cfg, before).world; c in w.conns && w.conns[c].InTable()
    ensures var w := After(start, cfg, before).world; var k := w.conns[c];
      && Lease.Consulted(w, g, k.agentType, k.agentID) == (k.gateway, k.agentID)
      && (k.gateway, k.agentID) in w.tables && w.tables[(k.gateway, k.agentID)] == c
  {
    var w := After(start, cfg, before).world;
    RunKeepsTied(start, cfg, before);
    Lease.RequestsReachAgentsExactly(start.world, cfg, LeaseSteps(before));
    Lease.ReachedAtEnd(start.world, cfg, LeaseSteps(before));
    Lease.LeaseIsExclusive(start.world, cfg, LeaseSteps(before));
    Lease.InvOwns(w, cfg);
    hide Run, Reaches, Lease.WorldInv, Lease.Reaches, Lease.IDsFree, Lease.WorldRun, Lease.PossibleRun, Tied;
    var k := w.conns[c];
    assert Lease.Reached(w, g, k.agentType, k.agentID) == Some(c);
  }

  /** The request is for the agent of connection k, in type and id. */
  predicate IsFor(m: Mux.State, r: string, k: Lease.Connection) {
    r in m.calls && m.calls[r].wanted == k.agentType && m.calls[r].agentID == k.agentID
  }

  /** What a client is sent once the final response to r is received: a reply that decodes to the answer, and
      a stream that reads back as it. */
  ghost predicate AnswerArrives(y: Relays.System, r: string, end: Option<Answers.Event>, model: string,
                                codecs: EndToEnd.Codecs)
    requires Relays.Known(y, r) && (Relays.OnConn(y, r) ==> y.mux.calls[r].conn.value in y.mux.conns)
  {
    var es, answer := EndToEnd.ReceivedEvents(y, r, end), Relays.Answer(y, r);
    && answer != [] && codecs.DecodedReply(ReplyWritten(es, model, codecs.quote)) == Some(Collected(answer))
    && ReadStream(Sse.Events(BodyWritten(es, model, codecs.marshal), ""), codecs.unmarshal)
       == Some(Emitted(answer, model))
  }

  lemma FinishedArrives(trace: seq<Relays.Step>, r: string, end: Option<Answers.Event>, model: string,
      codecs: EndToEnd.Codecs)
    requires Relays.Reaches(Relays.START, trace) && codecs.Valid()
    requires var y := Relays.Run(Relays.START, trace);
      Relays.Known(y, r) && EndToEnd.CanEnd(y, r, end) && Finished(EndToEnd.Received(y, r))
    ensures var y := Relays.Run(Relays.START, trace);
      && Relays.OnConn(y, r) && y.mux.calls[r].conn.value in y.mux.conns
      && AnswerArrives(y, r, end, model, codecs)
  {
    hide Relays.Reaches, Relays.Run, EndToEnd.CanEnd, EndToEnd.Received, Sse.Events, BodyWritten, ReadStream;
    var n := EndToEnd.ReplyIsTheAgentsAnswer(trace, r, end, model, codecs);
  }

  /** A request for a connected agent, from whatever gateway, in a run in order: it is looked up where the
      agent is connected, and whatever happens afterwards short of a crash there, it is on that agent's
      connection or on none, and once its final response is received the client is sent the answer that
      came over that connection. */
  lemma AgentsAnswerTheirRequests(start: State, cfg: Runs.Config, before: seq<Event>, c: nat, g: string, h: string,
      r: string, after: seq<Event>, end: Option<Answers.Event>, model: string, codecs: EndToEnd.Codecs)
    requires InOrder(start, cfg, before) && LooksUp(After(start, cfg, before), cfg, h, r, after)
    requires var d := After(start, cfg, before);
      && c in d.world.conns && d.world.conns[c].InTable() && IsFor(At(d, h).mux, r, d.world.conns[c])
      && h == Lease.Consulted(d.world, g, d.world.conns[c].agentType, d.world.conns[c].agentID).0
    requires codecs.Valid()
    ensures var d := After(start, cfg, before); var d' := Later(d, cfg, h, r, after);
      && h == d.world.conns[c].gateway && Traced(d', h) && r in At(d', h).mux.calls
      && (Relays.OnConn(At(d', h), r) ==> At(d', h).mux.calls[r].conn == Some(c) && Mux.AtRightAgent(At(d', h).mux, r))
      && (Finished(EndToEnd.Received(At(d', h), r)) && EndToEnd.CanEnd(At(d', h), r, end) ==>
            && Relays.OnConn(At(d', h), r) && c in At(d', h).mux.conns
            && AnswerArrives(At(d', h), r, end, model, codecs))
  {
    var d := After(start, cfg, before);
    var d' := Later(d, cfg, h, r, after);
    ReachedHere(start, cfg, before, c, g);
    hide InOrder, LooksUp, After, Later, Relays.Answer, Relays.Run, Relays.Reaches, EndToEnd.Received, Finished,
      EndToEnd.CanEnd, Mux.AtRightAgent, AnswerArrives, Lease.Consulted;
    LookupFinds(d, cfg, h, r, after);
    var y := At(d', h);
    if Finished(EndToEnd.Received(y, r)) && EndToEnd.CanEnd(y, r, end) {
      FinishedArrives(Trace(d', h), r, end, model, codecs);
    }
  }
}
