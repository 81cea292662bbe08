/** What every caller of the multiplexer does, the local chat handler (internal/handler/chat.go) and
    the forwarded-in request (internal/agent/grpc_internal.go) alike: register and send, take responses
    while everybody else goes on, and unregister on every way out. Each method returns the path of the
    multiplexer it took. */
module Callers {
  import opened Basics
  import opened Proto
  import opened Mux
  import opened AgentServer

  /** The steps are the caller's own or those its turns leave to others. */
  ghost predicate OfCaller<T>(steps: seq<Action>, r: string, turns: seq<Turn<T>>) {
    forall a <- steps :: ByCaller(a, r) || Others(a) in turns
  }

  lemma OfCallerThen<T>(steps: seq<Action>, a: Action, r: string, turns: seq<Turn<T>>)
    requires OfCaller(steps, r, turns) && (ByCaller(a, r) || Others(a) in turns)
    ensures OfCaller(steps + [a], r, turns)
  {
  }

  lemma OfCallerOnly<T>(steps: seq<Action>, r: string, turns: seq<Turn<T>>)
    requires forall a <- steps :: ByCaller(a, r)
    ensures OfCaller(steps, r, turns)
  {
  }

  /** The same waiting call, except for what it has taken and what is buffered for it. */
  predicate SameCall(k: Call, k': Call) {
    k.phase.Waiting? && k' == k.(buffer := k'.buffer, consumed := k'.consumed)
  }

  lemma SameAsItself(k: Call)
    requires k.phase.Waiting?
    ensures SameCall(k, k)
  {
  }

  lemma StillSame(k: Call, k': Call, k'': Call)
    requires SameCall(k, k') && SameCall(k', k'')
    ensures SameCall(k, k'') && k''.phase.Waiting?
  {
  }

  // ----- A caller left alone -----

  ghost predicate Alone<T>(turns: seq<Turn<T>>, t: T) {
    forall u <- turns :: u == Mine(t)
  }

  lemma AloneTurn<T>(turns: seq<Turn<T>>, t: T, n: nat)
    requires n < |turns|
    ensures turns[n] in turns && (Alone(turns, t) ==> turns[n] == Mine(t))
  {
  }

  /** After n turns of a caller whose buffer held `had`: what it took, and what is left. */
  ghost predicate Draining(had: seq<AgentResponse>, out: seq<AgentResponse>, left: seq<AgentResponse>, n: nat) {
    had == out + left && (|out| == n || left == [])
  }

  lemma DrainStart(had: seq<AgentResponse>)
    ensures Draining(had, [], had, 0)
  {
  }

  lemma DrainIdle(had: seq<AgentResponse>, out: seq<AgentResponse>, n: nat)
    ensures Draining(had, out, [], n) ==> Draining(had, out, [], n + 1)
  {
  }

  /** A response taken; a final one is the end of the run up to the first final one. */
  lemma DrainPop(had: seq<AgentResponse>, out: seq<AgentResponse>, n: nat, x: AgentResponse, left: seq<AgentResponse>)
    requires forall y <- out :: !y.done
    ensures Draining(had, out, [x] + left, n) ==>
              Draining(had, out + [x], left, n + 1) && (x.done ==> UpToDone(had) == out + [x])
  {
    if Draining(had, out, [x] + left, n) {
      assert had == out + [x] + left;
      UpToDoneFrom(had, |out|);
      assert had[|out|..] == [x] + left;
    }
  }

  lemma DrainEnd(had: seq<AgentResponse>, out: seq<AgentResponse>, left: seq<AgentResponse>, n: nat)
    requires forall y <- out :: !y.done
    ensures Draining(had, out, left, n) && n >= |had| ==> UpToDone(had) == out
  {
    if Draining(had, out, left, n) && n >= |had| {
      UpToDoneFrom(had, |had|);
      assert had[|had|..] == [];
    }
  }

  // ----- The steps of a caller -----

  lemma SendPath(m: State, r: string) returns (steps: seq<Action>)
    requires Inv(m) && Enabled(m, Find(r))
    ensures AgentsHaveConns(m) && Path(m, steps, AfterSend(m, r))
    ensures steps == [Find(r)] || steps == [Find(r), Enqueue(r)]
  {
    hide Inv, Next, Enabled, Path, AgentsHaveConns;
    InvAgents(m);
    OneStep(m, Find(r));
    FoundThenEnqueue(m, r);
    var found := Next(m, Find(r));
    steps := [Find(r)];
    if !found.calls[r].phase.Leaving? {
      PathThen(m, steps, found, Enqueue(r));
      steps := steps + [Enqueue(r)];
    }
  }

  lemma BeganEnabled(m: State, r: string, wanted: string, agentID: string)
    requires r !in m.calls
    ensures Enabled(m, Begin(r, wanted, agentID))
    ensures var m' := Next(m, Begin(r, wanted, agentID));
      && Enabled(m', Find(r)) && m'.localAgents == m.localAgents && m'.conns == m.conns
      && r in m'.calls && m'.calls[r].agentID == agentID && m'.calls[r].wanted == wanted && m'.calls[r].consumed == []
  {
  }

  /** The agent is in the table and its queue has room. */
  predicate Accepts(m: State, agentID: string) {
    && agentID in m.localAgents && m.localAgents[agentID] in m.conns
    && |m.conns[m.localAgents[agentID]].queue| < QUEUE_SIZE
  }

  /** The request last in the queue of connection c, and every other connection as it was. */
  function Queued(conns: map<nat, Conn>, c: nat, r: string): map<nat, Conn>
    requires c in conns
  {
    conns[c := conns[c].(queue := conns[c].queue + [r], accepted := conns[c].accepted + [r])]
  }

  /** What registering and sending come to. */
  predicate SentAs(m: State, m': State, r: string, wanted: string, agentID: string) {
    && r in m'.calls && m'.calls[r].agentID == agentID && m'.calls[r].wanted == wanted && m'.calls[r].consumed == []
    && if Accepts(m, agentID)
       then m'.calls[r].phase.Waiting? && m'.calls[r].conn == Some(m.localAgents[agentID])
           && m'.conns == Queued(m.conns, m.localAgents[agentID], r)
       else m'.calls[r].phase.Leaving? && m'.conns == m.conns
  }

  lemma OutcomeSentAs(m: State, m1: State, r: string, wanted: string, agentID: string)
    requires Enabled(m1, Find(r)) && AgentsHaveConns(m1) && m1.localAgents == m.localAgents && m1.conns == m.conns
    requires m1.calls[r].agentID == agentID && m1.calls[r].wanted == wanted && m1.calls[r].consumed == []
    ensures SentAs(m, AfterSend(m1, r), r, wanted, agentID)
  {
    SendRequestOutcome(m1, r);
    hide AfterSend;
  }

  lemma BeginAndSendPath(m: State, r: string, wanted: string, agentID: string) returns (steps: seq<Action>)
    requires Inv(m) && r !in m.calls
    ensures Enabled(m, Begin(r, wanted, agentID)) && Inv(Next(m, Begin(r, wanted, agentID)))
              && Enabled(Next(m, Begin(r, wanted, agentID)), Find(r))
    ensures AgentsHaveConns(Next(m, Begin(r, wanted, agentID)))
    ensures var m' := AfterSend(Next(m, Begin(r, wanted, agentID)), r);
      && Path(m, steps, m') && (forall a <- steps :: ByCaller(a, r))
      && SentAs(m, m', r, wanted, agentID)
    ensures Next(m, Begin(r, wanted, agentID)).localAgents == m.localAgents
              && Next(m, Begin(r, wanted, agentID)).conns == m.conns
    ensures r in Next(m, Begin(r, wanted, agentID)).calls
              && Next(m, Begin(r, wanted, agentID)).calls[r].agentID == agentID
  {
    BeganEnabled(m, r, wanted, agentID);
    StepKeepsInv(m, Begin(r, wanted, agentID));
    hide Inv, Next, Enabled, Path, AfterSend, SentAs, AgentsHaveConns;
    var m1 := Next(m, Begin(r, wanted, agentID));
    OneStep(m, Begin(r, wanted, agentID));
    var more := SendPath(m1, r);
    PathJoin(m, [Begin(r, wanted, agentID)], m1, more, AfterSend(m1, r));
    steps := [Begin(r, wanted, agentID)] + more;
    OutcomeSentAs(m, m1, r, wanted, agentID);
  }

  /** Registers before it sends, so that no response can come before its handler. */
  method RegisterAndSend(s: GRPCServer, r: string, wanted: string, agentID: string)
    returns (sent: Result<(), SendError>, ghost steps: seq<Action>)
    requires s.Valid() && r !in s.calls
    modifies s
    ensures s.Valid() && Path(old(s.Model()), steps, s.Model()) && (forall a <- steps :: ByCaller(a, r))
    ensures r in s.calls && s.calls[r].agentID == agentID && s.calls[r].wanted == wanted && s.calls[r].consumed == []
    ensures sent.Ok? <==> Accepts(old(s.Model()), agentID)
    ensures sent.Ok? ==> s.calls[r].phase.Waiting? && s.calls[r].conn == Some(old(s.localAgents)[agentID])
    ensures sent.Ok? ==> s.conns == Queued(old(s.conns), old(s.localAgents)[agentID], r)
    ensures sent.Err? ==> s.calls[r].phase.Leaving? && s.conns == old(s.conns)
  {
    hide Inv, Next, Path, AfterSend;
    steps := BeginAndSendPath(s.Model(), r, wanted, agentID);
    s.RegisterResponseHandler(r, wanted, agentID);
    sent := s.SendRequest(r);
  }

  /** Somebody else's step, if it can be taken now. */
  method LetOthers<T>(s: GRPCServer, r: string, a: Action, ghost turns: seq<Turn<T>>, ghost start: State,
                      ghost before: seq<Action>)
    returns (ghost steps: seq<Action>)
    requires s.Valid() && r in s.calls && s.calls[r].phase.Waiting?
    requires Path(start, before, s.Model()) && OfCaller(before, r, turns) && Others(a) in turns
    modifies s
    ensures s.Valid() && r in s.calls && Path(start, steps, s.Model()) && OfCaller(steps, r, turns)
    ensures SameCall(old(s.calls)[r], s.calls[r]) && s.calls[r].consumed == old(s.calls)[r].consumed
  {
    hide Inv, Next, Enabled, Path, OfCaller;
    steps := before;
    if Enabled(s.Model(), a) && !ByCaller(a, r) {
      OthersSpareCall(s.Model(), a, r);
      OfCallerThen(before, a, r, turns);
      PathThen(start, before, s.Model(), a);
      s.Step(a);
      steps := before + [a];
    }
  }

  /** The oldest response in the caller's buffer. */
  method Pop<T>(s: GRPCServer, r: string, ghost turns: seq<Turn<T>>, ghost start: State, ghost before: seq<Action>)
    returns (x: AgentResponse, ghost steps: seq<Action>)
    requires s.Valid() && r in s.calls && s.calls[r].phase.Waiting?
    requires Path(start, before, s.Model()) && OfCaller(before, r, turns)
    requires s.calls[r].buffer != [] && !Finished(s.calls[r].consumed)
    modifies s
    ensures s.Valid() && r in s.calls && Path(start, steps, s.Model()) && OfCaller(steps, r, turns)
    ensures SameCall(old(s.calls)[r], s.calls[r]) && [x] + s.calls[r].buffer == old(s.calls)[r].buffer
    ensures s.calls[r].consumed == old(s.calls)[r].consumed + [x]
  {
    hide Inv, Path, OfCaller;
    OfCallerThen(before, Take(r), r, turns);
    PathThen(start, before, s.Model(), Take(r));
    x := s.calls[r].buffer[0];
    s.Step(Take(r));
    steps := before + [Take(r)];
  }

  /** On every way out the caller stops waiting, if it still is, and its handler is unregistered. What
      it has taken, and everything of every other caller, stays as it was. */
  method Leave<T>(s: GRPCServer, r: string, ghost turns: seq<Turn<T>>, ghost start: State, ghost before: seq<Action>)
    returns (ghost steps: seq<Action>)
    requires s.Valid() && Path(start, before, s.Model()) && OfCaller(before, r, turns)
    requires r in s.calls && (s.calls[r].phase.Waiting? || s.calls[r].phase.Leaving?)
    modifies s
    ensures s.Valid() && Path(start, steps, s.Model()) && OfCaller(steps, r, turns)
    ensures s.responseHandlers == old(s.responseHandlers) - {r}
    ensures s.localAgents == old(s.localAgents) && s.conns == old(s.conns)
    ensures s.calls == old(s.calls)[r := old(s.calls)[r].(phase := Left)]
  {
    hide Inv, Path, OfCaller;
    steps := before;
    if s.calls[r].phase.Waiting? {
      OfCallerThen(steps, Mux.Leave(r), r, turns);
      PathThen(start, steps, s.Model(), Mux.Leave(r));
      s.StopWaiting(r);
      steps := steps + [Mux.Leave(r)];
    }
    OfCallerThen(steps, Finish(r), r, turns);
    PathThen(start, steps, s.Model(), Finish(r));
    s.UnregisterResponseHandler(r);
    steps := steps + [Finish(r)];
  }
}
