/** Requests forwarded between gateways: the loop of ForwardRequest on the agent's gateway
    (internal/agent/grpc_internal.go), the stream between the gateways, and the relay goroutine of
    ForwardToRemote on the gateway the client is connected to (internal/agent/forwarder.go). */
module Relays {
  import opened Proto
  import Mux

  /** `hand` is what ForwardRequest took and has not sent on, `wire` the stream, `fwdHand` what the
      relay goroutine received and has not pushed, `channel` the buffer it fills for the caller and
      `got` what the caller has taken. `ended`: ForwardRequest has returned; `cut`: some part of the
      relay failed or was cancelled; `closed`: the goroutine is gone and its channel closed; `refused`:
      ForwardRequest found no such agent, or could not queue the request. */
  datatype Relay = Relay(
    hand: seq<AgentResponse>, wire: seq<AgentResponse>, ended: bool, cut: bool,
    fwdHand: seq<AgentResponse>, channel: seq<AgentResponse>, closed: bool, got: seq<AgentResponse>,
    refused: bool)

  datatype System = System(mux: Mux.State, relays: map<string, Relay>)

  datatype Step =
    | Local(a: Mux.Action)
    | Refuse(r: string, agentID: string)
    | Attach(r: string)
    | Unsent(r: string)
    | Pull(r: string)
    | WireSend(r: string)
    | Abort(r: string)
    | Cut(r: string)
    | WireDrop(r: string)
    | FwdRecv(r: string)
    | FwdPush(r: string)
    | FwdFail(r: string)
    | OriginTake(r: string)

  predicate Enabled(y: System, s: Step) {
    && (!s.Local? && !s.Refuse? && !s.Attach? ==> s.r in y.relays)
    && match s
       case Local(a) =>
         && Mux.Enabled(y.mux, a)
         && (a.Begin? || a.Take? ==> a.r !in y.relays)
         && (a.Leave? && a.r in y.relays ==> y.relays[a.r].ended)
       case Attach(r) => r in y.mux.calls && y.mux.calls[r].phase.Registered? && r !in y.relays
       case Refuse(r, id) => r !in y.mux.calls && r !in y.relays && id !in y.mux.localAgents
       case Unsent(r) =>
         && r in y.mux.calls && y.mux.calls[r].phase.Leaving? && y.mux.calls[r].conn.None?
         && !y.relays[r].ended
       case Pull(r) => Mux.Enabled(y.mux, Mux.Take(r)) && y.relays[r].hand == [] && !y.relays[r].ended
       case WireSend(r) => y.relays[r].hand != [] && !y.relays[r].ended && !y.relays[r].cut
       case Abort(r) => r in y.mux.calls && y.mux.calls[r].phase.Waiting? && !y.relays[r].ended
       case Cut(_) => true
       case WireDrop(r) => y.relays[r].cut
       case FwdRecv(r) => y.relays[r].fwdHand == [] && !y.relays[r].closed && y.relays[r].wire != []
       case FwdPush(r) => y.relays[r].fwdHand != [] && |y.relays[r].channel| < Mux.BUFFER_SIZE
       case FwdFail(r) =>
         && y.relays[r].fwdHand == [] && !y.relays[r].closed
         && (y.relays[r].cut || (y.relays[r].ended && y.relays[r].wire == []))
       case OriginTake(r) => y.relays[r].channel != [] && !Finished(y.relays[r].got)
  }

  /** A relay step on the relay alone; a pull also takes from the caller's buffer in the multiplexer. */
  function Moved(z: Relay, s: Step, pulled: seq<AgentResponse>): Relay
    requires s.WireSend? ==> z.hand != []
    requires s.FwdRecv? ==> z.wire != []
    requires s.FwdPush? ==> z.fwdHand != []
    requires s.OriginTake? ==> z.channel != []
  {
    match s
    case Pull(_) => z.(hand := pulled)
    case WireSend(_) => z.(wire := z.wire + z.hand, hand := [], ended := z.hand[0].done)
    case Unsent(_) => z.(ended := true, refused := true)
    case Abort(_) => z.(ended := true, cut := true)
    case Cut(_) => z.(cut := true)
    case WireDrop(_) => z.(wire := [])
    case FwdRecv(_) => z.(fwdHand := [z.wire[0]], wire := z.wire[1..])
    case FwdPush(_) => z.(channel := z.channel + z.fwdHand, fwdHand := [], closed := z.closed || z.fwdHand[0].done)
    case FwdFail(_) => z.(closed := true)
    case OriginTake(_) => z.(got := z.got + [z.channel[0]], channel := z.channel[1..])
    case _ => z
  }

  function Next(y: System, s: Step): System
    requires Enabled(y, s)
  {
    match s
    case Local(a) => y.(mux := Mux.Next(y.mux, a))
    case Refuse(r, _) => y.(relays := y.relays[r := Relay([], [], true, false, [], [], false, [], true)])
    case Attach(r) => y.(relays := y.relays[r := Relay([], [], false, false, [], [], false, [], false)])
    case Pull(r) => System(Mux.Next(y.mux, Mux.Take(r)),
        y.relays[r := Moved(y.relays[r], s, [y.mux.calls[r].buffer[0]])])
    case _ => y.(relays := y.relays[s.r := Moved(y.relays[s.r], s, [])])
  }

  // ----- The invariant -----

  /** Everything that has got past ForwardRequest, oldest first. */
  function Passed(z: Relay): seq<AgentResponse> {
    z.got + z.channel + z.fwdHand + z.wire
  }

  /** The relay holds what was taken from the multiplexer, in order: all of it unless it was cut, and
      even then nothing but its beginning. It ends uncut only behind the final response. */
  predicate RelayOk(z: Relay, taken: seq<AgentResponse>) {
    && |z.hand| <= 1 && |z.fwdHand| <= 1 && |z.channel| <= Mux.BUFFER_SIZE
    && (if z.cut then Passed(z) <= taken else Passed(z) + z.hand == taken)
    && (!z.cut ==> (z.ended <==> Finished(Passed(z))) && (z.ended ==> z.hand == []))
    && (z.closed && !z.cut ==> z.ended && z.fwdHand == [] && z.wire == [])
  }

  /** The request is on no connection, and will be on none. */
  predicate OffConns(m: Mux.State, r: string) {
    r in m.calls ==> m.calls[r].conn.None? && (m.calls[r].phase.Leaving? || m.calls[r].phase.Left?)
  }

  /** A relay as its request stands in the multiplexer. Nothing passes one that was refused. */
  predicate RelayFits(z: Relay, m: Mux.State, r: string) {
    if z.refused then z.ended && Passed(z) == [] && OffConns(m, r)
    else r in m.calls && RelayOk(z, m.calls[r].consumed)
  }

  ghost predicate Inv(y: System) {
    && Mux.Inv(y.mux)
    && forall r <- y.relays :: RelayFits(y.relays[r], y.mux, r)
  }

  /** A final response is always the last one, so nothing is behind it on its way. */
  lemma DoneIsLast(z: Relay, taken: seq<AgentResponse>, k: nat)
    requires StopsAtDone(taken) && !z.cut && Passed(z) + z.hand == taken && k < |taken| && taken[k].done
    ensures k == |taken| - 1
  {
  }

  lemma PassedOver(z: Relay, s: Step)
    requires s.WireSend? || s.Abort? || s.Cut? || s.WireDrop? || s.FwdFail? || s.OriginTake?
    requires s.WireSend? ==> z.hand != []
    requires s.OriginTake? ==> z.channel != []
    ensures var z' := Moved(z, s, []);
      if s.WireSend? then Passed(z') == Passed(z) + z.hand
      else if s.WireDrop? then Passed(z') <= Passed(z) else Passed(z') == Passed(z)
  {
    if s.WireDrop? {
      assert Passed(z) == Passed(Moved(z, s, [])) + z.wire;
    }
  }

  lemma MovedOk(z: Relay, s: Step, taken: seq<AgentResponse>)
    requires RelayOk(z, taken) && StopsAtDone(taken)
    requires s.WireSend? || s.Abort? || s.Cut? || s.WireDrop? || s.FwdFail? || s.OriginTake?
    requires s.WireSend? ==> z.hand != [] && !z.ended && !z.cut
    requires s.WireDrop? ==> z.cut
    requires s.FwdFail? ==> z.fwdHand == [] && (z.cut || (z.ended && z.wire == []))
    requires s.OriginTake? ==> z.channel != []
    ensures RelayOk(Moved(z, s, []), taken)
  {
    var z' := Moved(z, s, []);
    PassedOver(z, s);
    hide Passed, StopsAtDone;
  }

  lemma ForwardedOk(z: Relay, s: Step, taken: seq<AgentResponse>)
    requires RelayOk(z, taken) && StopsAtDone(taken)
    requires s.FwdRecv? || s.FwdPush?
    requires s.FwdRecv? ==> z.fwdHand == [] && !z.closed && z.wire != []
    requires s.FwdPush? ==> z.fwdHand != [] && |z.channel| < Mux.BUFFER_SIZE
    ensures RelayOk(Moved(z, s, []), taken)
  {
    var z' := Moved(z, s, []);
    assert Passed(z') == Passed(z);
    if s.FwdPush? && !z.cut && z.fwdHand[0].done {
      var k := |z.got + z.channel|;
      assert taken[k] == z.fwdHand[0];
      DoneIsLast(z, taken, k);
      assert z.wire == [] && z.hand == [];
    }
  }

  lemma PulledOk(z: Relay, taken: seq<AgentResponse>, x: AgentResponse)
    requires RelayOk(z, taken) && z.hand == [] && !z.ended
    ensures RelayOk(z.(hand := [x]), taken + [x])
  {
    assert Passed(z.(hand := [x])) == Passed(z);
  }

  lemma AttachedOk(y: System, r: string)
    requires Mux.Inv(y.mux) && r in y.mux.calls && y.mux.calls[r].phase.Registered?
    ensures RelayOk(Relay([], [], false, false, [], [], false, [], false), y.mux.calls[r].consumed)
  {
    assert Mux.CallOk(y.mux, r);
  }

  /** What a multiplexer step does to what a caller has taken. */
  lemma TakenAfter(m: Mux.State, a: Mux.Action, r: string)
    requires Mux.Enabled(m, a) && r in m.calls
    ensures r in Mux.Next(m, a).calls
    ensures Mux.Next(m, a).calls[r].consumed ==
              if a == Mux.Take(r) then m.calls[r].consumed + [m.calls[r].buffer[0]] else m.calls[r].consumed
  {
  }

  lemma TakenStops(m: Mux.State, r: string)
    requires Mux.Inv(m) && r in m.calls
    ensures StopsAtDone(m.calls[r].consumed)
  {
    assert Mux.CallOk(m, r);
  }

  lemma OffConnsStays(m: Mux.State, a: Mux.Action, r: string)
    requires Mux.Enabled(m, a) && OffConns(m, r) && (a.Begin? ==> a.r != r)
    ensures OffConns(Mux.Next(m, a), r)
  {
  }

  /** A relay that was refused moves to one: it is still ended, and nothing has passed. */
  lemma RefusedMoves(y: System, s: Step, r: string)
    requires Enabled(y, s) && r in y.relays && y.relays[r].refused && RelayFits(y.relays[r], y.mux, r)
    ensures r in Next(y, s).relays && Next(y, s).relays[r].refused
    ensures Next(y, s).relays[r].ended && Passed(Next(y, s).relays[r]) == []
  {
    hide Mux.Next, Mux.Enabled, OffConns;
  }

  lemma RefusedStays(y: System, s: Step, r: string)
    requires Enabled(y, s) && r in y.relays && y.relays[r].refused && RelayFits(y.relays[r], y.mux, r)
    ensures r in Next(y, s).relays && RelayFits(Next(y, s).relays[r], Next(y, s).mux, r)
  {
    RefusedMoves(y, s, r);
    if s.Local? || s.Pull? {
      OffConnsStays(y.mux, if s.Local? then s.a else Mux.Take(s.r), r);
    }
    hide Mux.Next, Mux.Enabled, OffConns, Passed;
  }

  lemma UnsentFits(y: System, r: string)
    requires Inv(y) && Enabled(y, Unsent(r)) && !y.relays[r].refused
    ensures RelayFits(Next(y, Unsent(r)).relays[r], Next(y, Unsent(r)).mux, r)
  {
    assert Mux.CallOk(y.mux, r);
    assert Passed(Next(y, Unsent(r)).relays[r]) == Passed(y.relays[r]);
  }

  /** A step on a relay that goes on. */
  lemma RunningOk(y: System, s: Step, r: string)
    requires Inv(y) && Enabled(y, s) && r in y.relays && !y.relays[r].refused && s != Unsent(r)
    ensures r in Next(y, s).mux.calls && r in Next(y, s).relays && !Next(y, s).relays[r].refused
    ensures RelayOk(Next(y, s).relays[r], Next(y, s).mux.calls[r].consumed)
  {
    hide RelayOk, Mux.Inv, Mux.Next;
    assert RelayFits(y.relays[r], y.mux, r);
    var z, taken := y.relays[r], y.mux.calls[r].consumed;
    assert StopsAtDone(taken) by { TakenStops(y.mux, r); }
    if s.Local? || s.Pull? {
      TakenAfter(y.mux, if s.Local? then s.a else Mux.Take(s.r), r);
      if s == Pull(r) {
        PulledOk(z, taken, y.mux.calls[r].buffer[0]);
      }
    } else if !s.Attach? && !s.Refuse? && s.r == r {
      if s.FwdRecv? || s.FwdPush? {
        ForwardedOk(z, s, taken);
      } else {
        MovedOk(z, s, taken);
      }
    }
  }

  lemma StepRelayFits(y: System, s: Step, r: string)
    requires Inv(y) && Enabled(y, s) && r in Next(y, s).relays
    ensures RelayFits(Next(y, s).relays[r], Next(y, s).mux, r)
  {
    if r !in y.relays {
      hide RelayOk, Mux.Inv, Mux.Next;
      if s.Attach? {
        AttachedOk(y, r);
      }
    } else {
      assert RelayFits(y.relays[r], y.mux, r);
      hide RelayOk, Inv, Next, Enabled, OffConns, Passed;
      if y.relays[r].refused {
        RefusedStays(y, s, r);
      } else if s == Unsent(r) {
        UnsentFits(y, r);
      } else {
        RunningOk(y, s, r);
      }
    }
  }

  lemma StepKeepsInv(y: System, s: Step)
    requires Inv(y) && Enabled(y, s)
    ensures Inv(Next(y, s))
  {
    if s.Local? || s.Pull? {
      Mux.StepKeepsInv(y.mux, if s.Local? then s.a else Mux.Take(s.r));
    }
    hide RelayFits, Mux.Inv, Mux.Next, Mux.Enabled;
    forall r | r in Next(y, s).relays ensures RelayFits(Next(y, s).relays[r], Next(y, s).mux, r) {
      StepRelayFits(y, s, r);
    }
  }

  ghost predicate Reaches(y: System, steps: seq<Step>)
    decreases |steps|
  {
    steps != [] ==> Enabled(y, steps[0]) && Reaches(Next(y, steps[0]), steps[1..])
  }

  ghost function Run(y: System, steps: seq<Step>): System
    requires Reaches(y, steps)
    decreases |steps|
  {
    if steps == [] then y else Run(Next(y, steps[0]), steps[1..])
  }

  const START := System(Mux.START, map[])

  lemma {:induction false} RunKeepsInv(y: System, steps: seq<Step>)
    requires Inv(y) && Reaches(y, steps)
    ensures Inv(Run(y, steps))
    decreases |steps|
  {
    if steps != [] {
      StepKeepsInv(y, steps[0]);
      RunKeepsInv(Next(y, steps[0]), steps[1..]);
    }
  }

  lemma ReachableInv(steps: seq<Step>)
    requires Reaches(START, steps)
    ensures Inv(Run(START, steps))
  {
    Mux.StartInv();
    RunKeepsInv(START, steps);
  }

  // ----- The lookup of a request within a run -----

  lemma {:induction false} RunSplits(y: System, steps: seq<Step>, n: nat)
    requires Reaches(y, steps) && n <= |steps|
    ensures Reaches(y, steps[..n]) && Reaches(Run(y, steps[..n]), steps[n..])
    ensures Run(y, steps) == Run(Run(y, steps[..n]), steps[n..])
    decreases n
  {
    hide Next, Enabled;
    if n == 0 {
      assert steps[..0] == [] && steps[0..] == steps;
    } else {
      RunSplits(Next(y, steps[0]), steps[1..], n - 1);
      assert steps[..n][1..] == steps[1..][..n - 1] && steps[1..][n - 1..] == steps[n..];
    }
  }

  lemma {:induction false} RunThen(y: System, steps: seq<Step>, s: Step)
    requires Reaches(y, steps) && Enabled(Run(y, steps), s)
    ensures Reaches(y, steps + [s]) && Run(y, steps + [s]) == Next(Run(y, steps), s)
    decreases |steps|
  {
    hide Next, Enabled;
    if steps == [] {
      assert [] + [s] == [s] && [s][1..] == [];
    } else {
      assert (steps + [s])[1..] == steps[1..] + [s];
      RunThen(Next(y, steps[0]), steps[1..], s);
    }
  }

  /** A run of the relays takes a path of the multiplexer. */
  lemma {:induction false} RunTakesPath(y: System, steps: seq<Step>) returns (path: seq<Mux.Action>)
    requires Reaches(y, steps)
    ensures Mux.Path(y.mux, path, Run(y, steps).mux)
    decreases |steps|
  {
    if steps == [] {
      path := [];
      Mux.PathNil(y.mux);
    } else {
      var s := steps[0];
      var rest := RunTakesPath(Next(y, s), steps[1..]);
      path := rest;
      if s.Local? || s.Pull? {
        var a := if s.Local? then s.a else Mux.Take(s.r);
        assert Next(y, s).mux == Mux.Next(y.mux, a);
        hide Mux.Next, Mux.Enabled, Mux.Path;
        Mux.OneStep(y.mux, a);
        Mux.PathJoin(y.mux, [a], Next(y, s).mux, rest, Run(y, steps).mux);
        path := [a] + rest;
      }
    }
  }

  lemma {:induction false} LookupHappens(y: System, steps: seq<Step>, r: string) returns (n: nat)
    requires Reaches(y, steps) && Mux.NotLookedUp(y.mux, r)
    requires r in Run(y, steps).mux.calls && Run(y, steps).mux.calls[r].conn.Some?
    ensures n < |steps| && steps[n] == Local(Mux.Find(r))
    decreases |steps|
  {
    var s := steps[0];
    if s == Local(Mux.Find(r)) {
      n := 0;
    } else {
      if s.Local? || s.Pull? {
        Mux.StepLooksUp(y.mux, if s.Local? then s.a else Mux.Take(s.r), r);
      }
      hide Mux.Next, Mux.Enabled, Mux.NotLookedUp;
      n := LookupHappens(Next(y, s), steps[1..], r);
      n := n + 1;
    }
  }

  /** A request that got queued was looked up once on the way. It is at the very agent its client asked for
      exactly if the entry it was looked up in was of the type asked for. */
  lemma LookupDecides(steps: seq<Step>, r: string) returns (n: nat)
    requires Reaches(START, steps)
    requires r in Run(START, steps).mux.calls && Run(START, steps).mux.calls[r].conn.Some?
    ensures n < |steps| && steps[n] == Local(Mux.Find(r)) && Reaches(START, steps[..n])
    ensures var m, k := Run(START, steps[..n]).mux, Run(START, steps).mux.calls[r];
      Mux.AtRightAgent(Run(START, steps).mux, r) <==> Mux.EntryIs(m, k.wanted, k.agentID)
  {
    n := LookupHappens(START, steps, r);
    RunSplits(START, steps, n);
    RunSplits(START, steps, n + 1);
    var y, y' := Run(START, steps[..n]), Run(START, steps);
    ReachableInv(steps);
    ReachableInv(steps[..n]);
    assert steps[n..][0] == Local(Mux.Find(r)) && steps[n..][1..] == steps[n + 1..];
    var path := RunTakesPath(Next(y, steps[n]), steps[n + 1..]);
    hide Mux.Inv, Mux.Next, Mux.Path;
    Mux.LookupDecides(y.mux, r, path, y'.mux);
  }

  /** What a chat handler may have taken for r, wherever its agent is connected: a prefix of the
      answer, and the whole answer once it has the final response. */
  predicate Faithful(got: seq<AgentResponse>, answer: seq<AgentResponse>) {
    got <= answer && (Finished(got) ==> got == answer)
  }

  lemma RelayedPrefix(z: Relay, taken: seq<AgentResponse>, answer: seq<AgentResponse>)
    requires RelayOk(z, taken) && StopsAtDone(taken) && Faithful(taken, answer)
    ensures Faithful(z.got, answer)
    ensures z.closed && z.channel == [] && !z.cut ==> Finished(z.got) && z.got == answer
  {
    assert z.got <= Passed(z) <= taken;
    if Finished(z.got) {
      var k := |z.got| - 1;
      assert taken[k].done;
    }
    if z.closed && z.channel == [] && !z.cut {
      assert Passed(z) == z.got;
    }
  }

  /** A request that has come to the agent's gateway, to be handled there or to be refused. */
  predicate Known(y: System, r: string) {
    r in y.mux.calls || r in y.relays
  }

  predicate OnConn(y: System, r: string) {
    r in y.mux.calls && y.mux.calls[r].conn.Some?
  }

  /** The answer to r at the agent's gateway; a request refused there has none. */
  function Answer(y: System, r: string): seq<AgentResponse>
    requires OnConn(y, r) ==> y.mux.calls[r].conn.value in y.mux.conns
  {
    if r in y.mux.calls then Mux.Answer(y.mux, r) else []
  }

  /** ForwardRequest returned without an answer: it found no such agent, so that the request is no call of
      the multiplexer, or SendRequest failed, so that it is on no connection. */
  predicate Refused(y: System, r: string) {
    r in y.relays && y.relays[r].refused && !OnConn(y, r)
  }

  /** Forwarding refines local handling: in every reachable state the caller at the end of a relay
      has seen what a local caller could have seen. A channel that closes on it drained leaves it
      the whole answer, final response included, unless some part of the relay was cut or the request was
      refused, and then it has nothing. */
  lemma ForwardingRefinesLocal(steps: seq<Step>, r: string)
    requires Reaches(START, steps) && Known(Run(START, steps), r)
    ensures var y := Run(START, steps);
      && (OnConn(y, r) ==> y.mux.calls[r].conn.value in y.mux.conns)
      && (r in y.mux.calls ==> Faithful(y.mux.calls[r].consumed, Answer(y, r)))
      && (r in y.relays ==>
            var z := y.relays[r];
            && Faithful(z.got, Answer(y, r))
            && (z.refused ==> Refused(y, r) && z.got == [] == Answer(y, r))
            && (z.closed && z.channel == [] && !z.cut && !z.refused ==> Finished(z.got) && z.got == Answer(y, r)))
  {
    var y := Run(START, steps);
    ReachableInv(steps);
    if r in y.mux.calls {
      Mux.ConsumedIsAnswer(y.mux, r);
    }
    if r in y.relays {
      assert RelayFits(y.relays[r], y.mux, r);
      if !y.relays[r].refused {
        TakenStops(y.mux, r);
        hide Mux.Inv, Mux.Answer, RelayOk, Passed;
        RelayedPrefix(y.relays[r], y.mux.calls[r].consumed, Mux.Answer(y.mux, r));
      }
    }
  }

  lemma RunOne(y: System, s: Step)
    requires Enabled(y, s)
    ensures Reaches(y, [s]) && Run(y, [s]) == Next(y, s)
  {
    assert [s][1..] == [];
    assert Reaches(Next(y, s), []) && Run(Next(y, s), []) == Next(y, s);
  }

  lemma CanPull(y: System, r: string, x: AgentResponse)
    requires r in y.mux.calls && y.mux.calls[r].phase.Waiting? && y.mux.calls[r].buffer == [x]
    requires !Finished(y.mux.calls[r].consumed) && r in y.relays && y.relays[r].hand == [] && !y.relays[r].ended
    ensures Enabled(y, Pull(r))
    ensures r in Next(y, Pull(r)).relays && Next(y, Pull(r)).relays[r] == y.relays[r].(hand := [x])
  {
  }

  lemma CanHop(y: System, s: Step, r: string)
    requires r in y.relays && var z := y.relays[r];
      || (s == WireSend(r) && z.hand != [] && !z.ended && !z.cut)
      || (s == FwdRecv(r) && z.fwdHand == [] && !z.closed && z.wire != [])
      || (s == FwdPush(r) && z.fwdHand != [] && |z.channel| < Mux.BUFFER_SIZE)
      || (s == OriginTake(r) && z.channel != [] && !Finished(z.got))
    ensures Enabled(y, s) && r in Next(y, s).relays && Next(y, s).relays[r] == Moved(y.relays[r], s, [])
  {
  }

  /** Nor is a relay stuck: a response buffered for a forwarded request whose relay is empty can be passed on
      to its client, step by step. */
  lemma ResponseCanBeRelayed(y: System, r: string, x: AgentResponse) returns (y': System)
    requires r in y.mux.calls && y.mux.calls[r].phase.Waiting? && y.mux.calls[r].buffer == [x]
    requires !Finished(y.mux.calls[r].consumed) && r in y.relays
    requires y.relays[r] == Relay([], [], false, false, [], [], false, [], false)
    ensures var steps := [Pull(r), WireSend(r), FwdRecv(r), FwdPush(r), OriginTake(r)];
      Reaches(y, steps) && Run(y, steps) == y'
    ensures r in y'.relays && y'.relays[r].got == [x] && y'.relays[r].closed == x.done
  {
    hide Next, Enabled;
    CanPull(y, r, x);
    var y1 := Next(y, Pull(r));
    CanHop(y1, WireSend(r), r);
    var y2 := Next(y1, WireSend(r));
    CanHop(y2, FwdRecv(r), r);
    var y3 := Next(y2, FwdRecv(r));
    CanHop(y3, FwdPush(r), r);
    var y4 := Next(y3, FwdPush(r));
    CanHop(y4, OriginTake(r), r);
    y' := Next(y4, OriginTake(r));
    RunOne(y, Pull(r));
    RunThen(y, [Pull(r)], WireSend(r));
    RunThen(y, [Pull(r)] + [WireSend(r)], FwdRecv(r));
    RunThen(y, [Pull(r)] + [WireSend(r)] + [FwdRecv(r)], FwdPush(r));
    RunThen(y, [Pull(r)] + [WireSend(r)] + [FwdRecv(r)] + [FwdPush(r)], OriginTake(r));
    assert [Pull(r)] + [WireSend(r)] + [FwdRecv(r)] + [FwdPush(r)] + [OriginTake(r)]
        == [Pull(r), WireSend(r), FwdRecv(r), FwdPush(r), OriginTake(r)];
  }
}
