/** The agent server of one gateway (internal/agent/grpc_server.go). Each method is one critical
    section or channel operation, and takes the multiplexer one step. */
module AgentServer {
  import opened Basics
  import opened Mux

  /** A send loop's own turn: the end of its connection or, if a request is queued, that request with a
      send that succeeds or fails. */
  datatype SendTurn = Done | Send(ok: bool)

  datatype SendExit = Running | Stopped | Failed

  predicate AllSends(turns: seq<Turn<SendTurn>>) {
    forall t <- turns :: t.Mine? && t.turn.Send?
  }

  /** Left alone, a loop sends the queue from its front, up to the first send that fails. */
  predicate Drained(queue: seq<string>, turns: seq<Turn<SendTurn>>, out: seq<string>, exit: SendExit)
    requires AllSends(turns)
  {
    && out <= queue && |out| <= |turns| && (forall k :: 0 <= k < |out| ==> turns[k].turn.ok)
    && (exit == Running ==> |out| == |turns| || out == queue)
    && (exit == Failed ==> |out| < |turns| && !turns[|out|].turn.ok)
  }

  /** A loop left alone after n of its turns. */
  predicate SendingOn(queue: seq<string>, turns: seq<Turn<SendTurn>>, out: seq<string>, left: seq<string>, n: nat) {
    && AllSends(turns) && n <= |turns| && queue == out + left && |out| <= n && (|out| == n || left == [])
    && forall k :: 0 <= k < |out| ==> turns[k].turn.ok
  }

  lemma SendStarts(queue: seq<string>, turns: seq<Turn<SendTurn>>)
    ensures AllSends(turns) ==> SendingOn(queue, turns, [], queue, 0)
  {
  }

  lemma SendIdles(queue: seq<string>, turns: seq<Turn<SendTurn>>, out: seq<string>, n: nat)
    requires n < |turns| && SendingOn(queue, turns, out, [], n)
    ensures SendingOn(queue, turns, out, [], n + 1)
  {
  }

  lemma SendsOne(queue: seq<string>, turns: seq<Turn<SendTurn>>, out: seq<string>, n: nat, r: string, left: seq<string>)
    requires n < |turns| && SendingOn(queue, turns, out, [r] + left, n) && turns[n].Mine? && turns[n].turn.Send?
    ensures turns[n].turn.ok ==> SendingOn(queue, turns, out + [r], left, n + 1)
    ensures !turns[n].turn.ok ==> Drained(queue, turns, out, Failed)
  {
  }

  lemma SendEnds(queue: seq<string>, turns: seq<Turn<SendTurn>>, out: seq<string>, left: seq<string>)
    requires SendingOn(queue, turns, out, left, |turns|)
    ensures Drained(queue, turns, out, Running)
  {
  }

  lemma TurnAmong(turns: seq<Turn<SendTurn>>, n: nat)
    requires n < |turns|
    ensures turns[n] in turns && (AllSends(turns) ==> turns[n].Mine? && turns[n].turn.Send?)
  {
  }

  datatype SendError = AgentNotFound | RequestChannelFull

  class GRPCServer {
    var localAgents: map<string, nat>
    var responseHandlers: map<string, string>
    var conns: map<nat, Conn>
    var calls: map<string, Call>

    function Model(): State
      reads this
    {
      State(localAgents, conns, responseHandlers, calls)
    }

    ghost predicate Valid()
      reads this
    {
      Inv(Model())
    }

    constructor ()
      ensures Valid() && Model() == START
    {
      localAgents, responseHandlers, conns, calls := map[], map[], map[], map[];
      new;
      StartInv();
    }

    /** Connect, once the agent is registered: a new connection becomes the agent's. */
    method Publish(c: nat, agentType: string, agentID: string)
      requires Valid() && Enabled(Model(), Open(c, agentType, agentID))
      modifies this
      ensures Valid() && Model() == Next(old(Model()), Open(c, agentType, agentID))
    {
      hide Inv;
      StepKeepsInv(Model(), Open(c, agentType, agentID));
      conns := conns[c := Conn(agentType, agentID, [], [], true, [], [], [], [], Idle, true)];
      localAgents := localAgents[agentID := c];
    }

    /** The end of Connect: the receive loop has returned, and the agent leaves the table. */
    method Withdraw(c: nat)
      requires Valid() && Enabled(Model(), Unpublish(c))
      modifies this
      ensures Valid() && Model() == Next(old(Model()), Unpublish(c))
    {
      hide Inv;
      StepKeepsInv(Model(), Unpublish(c));
      localAgents := localAgents - {conns[c].agentID};
    }

    /** Tells a caller whether a request looked up now would find a connection under this id; of which
        agent type is not asked. */
    method HasLocalAgent(agentID: string) returns (r: bool)
      requires Valid()
      ensures r <==> agentID in localAgents
      ensures r ==> ConnOfAgent(Model(), localAgents[agentID], agentID)
      ensures forall q :: Enabled(Model(), Find(q)) && calls[q].agentID == agentID ==>
                (r <==> Next(Model(), Find(q)).calls[q].phase.Sending?)
    {
      r := agentID in localAgents;
    }

    /** The handler of a request for model `wanted`, to be sent to the agent under this id. */
    method RegisterResponseHandler(r: string, wanted: string, agentID: string)
      requires Valid() && Enabled(Model(), Begin(r, wanted, agentID))
      modifies this
      ensures Valid() && Model() == Next(old(Model()), Begin(r, wanted, agentID))
    {
      hide Inv;
      StepKeepsInv(Model(), Begin(r, wanted, agentID));
      calls := calls[r := Call(wanted, agentID, Registered, None, [], [])];
      responseHandlers := responseHandlers[r := r];
    }

    method UnregisterResponseHandler(r: string)
      requires Valid() && Enabled(Model(), Finish(r))
      modifies this
      ensures Valid() && Model() == Next(old(Model()), Finish(r))
      ensures responseHandlers.Keys == old(responseHandlers.Keys) - {r}
    {
      hide Inv;
      StepKeepsInv(Model(), Finish(r));
      calls := calls[r := calls[r].(phase := Left)];
      responseHandlers := responseHandlers - {r};
    }

    /** The caller stops waiting: final response, timeout, or cancelled request. */
    method StopWaiting(r: string)
      requires Valid() && Enabled(Model(), Leave(r))
      modifies this
      ensures Valid() && Model() == Next(old(Model()), Leave(r))
    {
      hide Inv;
      StepKeepsInv(Model(), Leave(r));
      calls := calls[r := calls[r].(phase := Leaving)];
    }

    static lemma FoundIs(m: State, r: string)
      requires Enabled(m, Find(r)) && AgentsHaveConns(m)
      ensures var m', k := Next(m, Find(r)), m.calls[r];
        && m'.conns == m.conns && r in m'.calls
        && (k.agentID !in m.localAgents ==> m'.calls[r].phase.Leaving?)
        && (k.agentID in m.localAgents ==> m'.calls[r].phase == Sending(m.localAgents[k.agentID]))
    {
    }

    method FindConn(r: string)
      requires Valid() && Enabled(Model(), Find(r))
      modifies this
      ensures Valid() && Model() == Next(old(Model()), Find(r))
    {
      hide Inv;
      StepKeepsInv(Model(), Find(r));
      var id := calls[r].agentID;
      if id in localAgents {
        calls := calls[r := calls[r].(phase := Sending(localAgents[id]))];
      } else {
        calls := calls[r := calls[r].(phase := Leaving)];
      }
    }

    static lemma EnqueueIs(m: State, r: string)
      requires Enabled(m, Enqueue(r))
      ensures r in m.calls && m.calls[r].phase.Sending? && m.calls[r].phase.c in m.conns
      ensures var k := m.calls[r]; var n := m.conns[k.phase.c];
        Next(m, Enqueue(r)) ==
          if |n.queue| < QUEUE_SIZE
          then State(m.localAgents, m.conns[k.phase.c := n.(queue := n.queue + [r], accepted := n.accepted + [r])],
                     m.handlers, m.calls[r := k.(phase := Waiting, conn := Some(k.phase.c))])
          else State(m.localAgents, m.conns, m.handlers, m.calls[r := k.(phase := Leaving)])
    {
    }

    method Offer(r: string) returns (res: Result<(), SendError>)
      requires Valid() && Enabled(Model(), Enqueue(r))
      modifies this
      ensures Valid() && Model() == Next(old(Model()), Enqueue(r))
      ensures res == if |old(conns)[old(calls)[r].phase.c].queue| < QUEUE_SIZE then Ok(()) else Err(RequestChannelFull)
    {
      hide Inv;
      StepKeepsInv(Model(), Enqueue(r));
      EnqueueIs(Model(), r);
      var c := calls[r].phase.c;
      hide Next, Enabled;
      if |conns[c].queue| < QUEUE_SIZE {
        calls := calls[r := calls[r].(phase := Waiting, conn := Some(c))];
        conns := conns[c := conns[c].(queue := conns[c].queue + [r], accepted := conns[c].accepted + [r])];
        res := Ok(());
      } else {
        calls := calls[r := calls[r].(phase := Leaving)];
        res := Err(RequestChannelFull);
      }
    }

    /** Looks the agent up and offers the request to its queue, without waiting. Between the two
        other steps may happen; this is the run without any. */
    method SendRequest(r: string) returns (res: Result<(), SendError>)
      requires Valid() && Enabled(Model(), Find(r))
      modifies this
      ensures AgentsHaveConns(old(Model()))
      ensures Valid() && Model() == AfterSend(old(Model()), r)
      ensures var m := old(Model()); var id := m.calls[r].agentID;
        res == if id !in m.localAgents then Err(AgentNotFound)
               else if |m.conns[m.localAgents[id]].queue| >= QUEUE_SIZE then Err(RequestChannelFull)
               else Ok(())
    {
      InvAgents(Model());
      FoundThenEnqueue(Model(), r);
      FoundIs(Model(), r);
      hide Inv, Next, Enabled, AgentsHaveConns;
      FindConn(r);
      if calls[r].phase.Leaving? {
        return Err(AgentNotFound);
      }
      res := Offer(r);
    }

    /** A step of anybody else: another caller, another loop, an agent. */
    method Step(a: Action)
      requires Valid() && Enabled(Model(), a)
      modifies this
      ensures Valid() && Model() == Next(old(Model()), a)
    {
      hide Inv, Next, Enabled;
      StepKeepsInv(Model(), a);
      var m := Next(Model(), a);
      localAgents, conns, responseHandlers, calls := m.localAgents, m.conns, m.handlers, m.calls;
    }

    /** The loop's way out when the connection is done. */
    method Stop(c: nat, ghost start: State, ghost before: seq<Action>)
      returns (exit: SendExit, ghost steps: seq<Action>)
      requires Valid() && Path(start, before, Model())
      requires c in conns && conns[c].sending && conns[c].sendHand == [] && !conns[c].receiving
      modifies this
      ensures exit == Stopped && Valid() && Path(start, steps, Model())
      ensures c in conns && conns[c] == old(conns)[c].(sending := false)
    {
      hide Inv, Path, Run, Reaches;
      PathThen(start, before, Model(), SendStop(c));
      steps := before + [SendStop(c)];
      StepKeepsInv(Model(), SendStop(c));
      conns := conns[c := conns[c].(sending := false)];
      exit := Stopped;
    }

    /** One request taken from the queue and sent, or held by the loop that failed to send it. */
    method SendOne(c: nat, ok: bool, ghost start: State, ghost before: seq<Action>)
      returns (r: string, ghost steps: seq<Action>)
      requires Valid() && Path(start, before, Model())
      requires c in conns && conns[c].sending && conns[c].sendHand == [] && conns[c].queue != []
      modifies this
      ensures Valid() && Path(start, steps, Model())
      ensures c in conns && [r] + conns[c].queue == old(conns)[c].queue
      ensures conns[c].accepted == old(conns)[c].accepted && conns[c].receiving == old(conns)[c].receiving
      ensures conns[c].sending == ok && conns[c].sendHand == (if ok then [] else [r])
      ensures conns[c].sent == old(conns)[c].sent + if ok then [r] else []
    {
      hide Inv, Path, Run, Reaches;
      PathThen(start, before, Model(), SendTake(c));
      StepKeepsInv(Model(), SendTake(c));
      r := conns[c].queue[0];
      conns := conns[c := conns[c].(sendHand := [r], queue := conns[c].queue[1..])];
      var last := if ok then SendOut(c) else SendFail(c);
      PathThen(start, before + [SendTake(c)], Model(), last);
      StepKeepsInv(Model(), last);
      steps := before + [SendTake(c)] + [last];
      var k := conns[c];
      conns := conns[c := if ok then k.(sent := k.sent + [r], sendHand := []) else k.(sending := false)];
    }

    /** Somebody else's step, if it can be taken now. */
    method LetOthers(c: nat, a: Action, ghost start: State, ghost before: seq<Action>)
      returns (ghost steps: seq<Action>)
      requires Valid() && Path(start, before, Model()) && c in conns
      modifies this
      ensures Valid() && Path(start, steps, Model()) && c in conns
      ensures var n, n' := old(conns)[c], conns[c];
        && n'.sent == n.sent && n'.sendHand == n.sendHand && n'.sending == n.sending && n.accepted <= n'.accepted
        && (!n.receiving ==> !n'.receiving)
    {
      hide Inv, Next, Enabled, Path, Run, Reaches;
      steps := before;
      if Enabled(Model(), a) && !BySender(a, c) {
        OthersSpareSender(Model(), a, c);
        PathThen(start, before, Model(), a);
        Step(a);
        steps := before + [a];
      }
    }

    /** The send loop, interleaved with everybody else: it takes a request when there is one, and ends
        on the first send that fails or, once the receive loop is gone, when told so. Requests go out
        in queue order, none skipped or repeated, also those accepted while the loop runs; only a
        failed send leaves one in hand. */
    method SendLoop(c: nat, turns: seq<Turn<SendTurn>>)
      returns (out: seq<string>, exit: SendExit, ghost steps: seq<Action>)
      requires Valid() && c in conns && conns[c].sending && conns[c].sendHand == []
      modifies this
      ensures Valid() && Path(old(Model()), steps, Model())
      ensures c in conns && conns[c].sent == old(conns)[c].sent + out
      ensures old(conns)[c].accepted <= conns[c].accepted == conns[c].sent + conns[c].sendHand + conns[c].queue
      ensures conns[c].sending <==> exit == Running
      ensures exit == Stopped ==> !conns[c].receiving && Mine(Done) in turns
      ensures exit == Failed ==> Mine(Send(false)) in turns
      ensures !old(conns)[c].receiving && Mine(Done) in turns ==> exit != Running
      ensures exit == Failed <==> conns[c].sendHand != []
      ensures AllSends(turns) ==> Drained(old(conns)[c].queue, turns, out, exit)
    {
      hide Inv, Next, Enabled, Path, Run, Reaches, SendingOn, AllSends, Drained;
      PathNil(Model());
      ghost var had := conns[c].queue;
      SendStarts(had, turns);
      steps, out, exit := [], [], Running;
      for n := 0 to |turns|
        invariant Inv(Model()) && Path(old(Model()), steps, Model())
        invariant c in conns && conns[c].sending && conns[c].sendHand == []
        invariant conns[c].sent == old(conns)[c].sent + out
        invariant old(conns)[c].accepted <= conns[c].accepted
        invariant !old(conns)[c].receiving ==> !conns[c].receiving && forall k :: 0 <= k < n ==> turns[k] != Mine(Done)
        invariant AllSends(turns) ==> SendingOn(had, turns, out, conns[c].queue, n)
      {
        TurnAmong(turns, n);
        match turns[n]
        case Others(a) =>
          steps := LetOthers(c, a, old(Model()), steps);
        case Mine(Done) =>
          if !conns[c].receiving {
            exit, steps := Stop(c, old(Model()), steps);
            break;
          }
        case Mine(Send(ok)) =>
          if conns[c].queue == [] {
            if AllSends(turns) { SendIdles(had, turns, out, n); }
          } else {
            var r;
            r, steps := SendOne(c, ok, old(Model()), steps);
            if AllSends(turns) { SendsOne(had, turns, out, n, r, conns[c].queue); }
            if !ok {
              exit := Failed;
              break;
            }
            out := out + [r];
          }
      }
      if AllSends(turns) && exit == Running { SendEnds(had, turns, out, conns[c].queue); }
      QueueIsConserved(Model(), c);
    }

    /** The receive loop on a response: it takes the message off the stream, ... */
    method RecvMessage(c: nat)
      requires Valid() && Enabled(Model(), RecvTake(c))
      modifies this
      ensures Valid() && Model() == Next(old(Model()), RecvTake(c))
    {
      hide Inv;
      StepKeepsInv(Model(), RecvTake(c));
      var x := conns[c].inbound[0];
      var n := conns[c];
      conns := conns[c := n.(inbound := n.inbound[1..], delivered := n.delivered + [x], recvHand := Looking(x))];
    }

    /** ... looks its handler up under the lock, dropping a response nobody waits for, ... */
    method LookupHandler(c: nat) returns (ok: bool)
      requires Valid() && Enabled(Model(), RecvLook(c))
      modifies this
      ensures Valid() && Model() == Next(old(Model()), RecvLook(c))
      ensures ok <==> old(conns)[c].recvHand.resp.requestID in responseHandlers
      ensures ok ==>
                Model().conns[c].recvHand == Pushing(old(conns)[c].recvHand.resp, old(conns)[c].recvHand.resp.requestID)
    {
      hide Inv;
      StepKeepsInv(Model(), RecvLook(c));
      var x := conns[c].recvHand.resp;
      ok := x.requestID in responseHandlers;
      if ok {
        HandlerIsOwn(Model(), x.requestID);
        conns := conns[c := conns[c].(recvHand := Pushing(x, responseHandlers[x.requestID]))];
      } else {
        conns := conns[c := conns[c].(recvHand := Idle)];
      }
    }

    /** ... and calls the handler, which pushes into the caller's buffer once that has room. */
    method CallHandler(c: nat)
      requires Valid() && Enabled(Model(), RecvPush(c))
      modifies this
      ensures Valid() && Model() == Next(old(Model()), RecvPush(c))
    {
      hide Inv;
      StepKeepsInv(Model(), RecvPush(c));
      var owner, x := conns[c].recvHand.owner, conns[c].recvHand.resp;
      calls := calls[owner := calls[owner].(buffer := calls[owner].buffer + [x])];
      conns := conns[c := conns[c].(recvHand := Idle)];
    }
  }
}
