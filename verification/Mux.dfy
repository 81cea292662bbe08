/** The multiplexer of one gateway (internal/agent/grpc_server.go) with its callers, as a transition
    system whose steps are the critical sections and channel operations.

    Many requests share one agent stream. A caller registers a handler, looks up the agent, queues
    the request, takes responses from its own buffer and unregisters; each connection has a send
    loop, a receive loop and a FIFO stream back from the agent. A push into a full channel is a step
    that is not enabled. */
module Mux {
  import opened Basics
  import opened Proto

  const QUEUE_SIZE := 64
  const BUFFER_SIZE := 16

  /** What the receive loop holds: nothing, a response it has yet to look up, or a response it is
      pushing into some caller's buffer. */
  datatype Hand = Idle | Looking(resp: AgentResponse) | Pushing(resp: AgentResponse, owner: string)

  /** `accepted`, `sent` and `delivered` are histories; the rest is the connection's state. An agent is
      a type and an id, but the gateway's table and every lookup in it know the id alone. */
  datatype Conn = Conn(
    agentType: string, agentID: string,
    queue: seq<string>, sendHand: seq<string>, sending: bool,
    accepted: seq<string>, sent: seq<string>,
    inbound: seq<AgentResponse>, delivered: seq<AgentResponse>,
    recvHand: Hand, receiving: bool)

  datatype Phase = Registered | Sending(c: nat) | Waiting | Leaving | Left

  /** A caller: local chat handler or forwarded-in request. `wanted` is the model of the request, which
      names the agent type its client asked for; `consumed` is what it has taken so far. */
  datatype Call = Call(wanted: string, agentID: string, phase: Phase, conn: Option<nat>, buffer: seq<AgentResponse>,
      consumed: seq<AgentResponse>)

  datatype State = State(
    localAgents: map<string, nat>, conns: map<nat, Conn>,
    handlers: map<string, string>, calls: map<string, Call>)

  datatype Action =
    | Open(c: nat, agentType: string, agentID: string)
    | Hangup(c: nat)
    | Unpublish(c: nat)
    | Begin(r: string, wanted: string, agentID: string)
    | Find(r: string)
    | Enqueue(r: string)
    | SendTake(c: nat)
    | SendOut(c: nat)
    | SendFail(c: nat)
    | SendStop(c: nat)
    | Emit(c: nat, resp: AgentResponse)
    | RecvTake(c: nat)
    | RecvLook(c: nat)
    | RecvPush(c: nat)
    | Take(r: string)
    | Leave(r: string)
    | Finish(r: string)

  /** The steps that concern nothing but one connection. */
  predicate OnConnAlone(a: Action) {
    a.Hangup? || a.SendTake? || a.SendOut? || a.SendFail? || a.SendStop? || a.Emit? || a.RecvTake?
  }

  predicate OnConn(a: Action) {
    OnConnAlone(a) || a.Unpublish? || a.RecvLook? || a.RecvPush?
  }

  predicate OnCall(a: Action) {
    a.Find? || a.Enqueue? || a.Take? || a.Leave? || a.Finish?
  }

  /** An agent answers only ids it was sent. */
  predicate ConnEnabled(n: Conn, a: Action)
    requires OnConnAlone(a)
  {
    match a
    case Hangup(_) => n.receiving && n.recvHand.Idle?
    case SendTake(_) => n.sending && n.sendHand == [] && n.queue != []
    case SendOut(_) => n.sending && n.sendHand != []
    case SendFail(_) => n.sending && n.sendHand != []
    case SendStop(_) => n.sending && n.sendHand == [] && !n.receiving
    case Emit(_, resp) => resp.requestID in n.sent
    case RecvTake(_) => n.receiving && n.recvHand.Idle? && n.inbound != []
  }

  /** Request ids are fresh. */
  predicate Enabled(m: State, a: Action) {
    && (OnConn(a) ==> a.c in m.conns)
    && (OnCall(a) ==> a.r in m.calls)
    && if OnConnAlone(a) then ConnEnabled(m.conns[a.c], a)
       else match a
         case Open(c, _, _) => c !in m.conns
         case Unpublish(c) => !m.conns[c].receiving
         case Begin(r, _, _) => r !in m.calls
         case Find(r) => m.calls[r].phase.Registered?
         case Enqueue(r) => m.calls[r].phase.Sending? && m.calls[r].phase.c in m.conns
         case RecvLook(c) => m.conns[c].recvHand.Looking?
         case RecvPush(c) =>
           var h := m.conns[c].recvHand;
           h.Pushing? && h.owner in m.calls && |m.calls[h.owner].buffer| < BUFFER_SIZE
         case Take(r) => m.calls[r].phase.Waiting? && m.calls[r].buffer != [] && !Finished(m.calls[r].consumed)
         case Leave(r) => m.calls[r].phase.Waiting?
         case Finish(r) => m.calls[r].phase.Leaving?
  }

  function Opened(agentType: string, agentID: string): Conn {
    Conn(agentType, agentID, [], [], true, [], [], [], [], Idle, true)
  }

  function SetConn(m: State, c: nat, k: Conn): State { m.(conns := m.conns[c := k]) }

  function SetCall(m: State, r: string, k: Call): State { m.(calls := m.calls[r := k]) }

  function NextConn(n: Conn, a: Action): Conn
    requires OnConnAlone(a) && ConnEnabled(n, a)
  {
    match a
    case Hangup(_) => n.(receiving := false)
    case SendTake(_) => n.(sendHand := [n.queue[0]], queue := n.queue[1..])
    case SendOut(_) => n.(sent := n.sent + n.sendHand, sendHand := [])
    case SendFail(_) => n.(sending := false)
    case SendStop(_) => n.(sending := false)
    case Emit(_, resp) => n.(inbound := n.inbound + [resp])
    case RecvTake(_) => n.(inbound := n.inbound[1..], delivered := n.delivered + [n.inbound[0]],
        recvHand := Looking(n.inbound[0]))
  }

  function Next(m: State, a: Action): State
    requires Enabled(m, a)
  {
    if OnConnAlone(a) then SetConn(m, a.c, NextConn(m.conns[a.c], a))
    else match a
      case Open(c, t, id) =>
        SetConn(m, c, Opened(t, id)).(localAgents := m.localAgents[id := c])
      case Unpublish(c) => m.(localAgents := m.localAgents - {m.conns[c].agentID})
      case Begin(r, t, id) => SetCall(m, r, Call(t, id, Registered, None, [], [])).(handlers := m.handlers[r := r])
      case Find(r) =>
        var k := m.calls[r];
        SetCall(m, r, k.(phase := if k.agentID in m.localAgents then Sending(m.localAgents[k.agentID]) else Leaving))
      case Enqueue(r) =>
        var k := m.calls[r];
        var n := m.conns[k.phase.c];
        if |n.queue| < QUEUE_SIZE then
          SetCall(SetConn(m, k.phase.c, n.(queue := n.queue + [r], accepted := n.accepted + [r])),
                  r, k.(phase := Waiting, conn := Some(k.phase.c)))
        else SetCall(m, r, k.(phase := Leaving))
      case RecvLook(c) =>
        var resp := m.conns[c].recvHand.resp;
        SetConn(m, c, m.conns[c].(recvHand := if resp.requestID in m.handlers
            then Pushing(resp, m.handlers[resp.requestID]) else Idle))
      case RecvPush(c) =>
        var h := m.conns[c].recvHand;
        var k := m.calls[h.owner];
        SetCall(SetConn(m, c, m.conns[c].(recvHand := Idle)), h.owner, k.(buffer := k.buffer + [h.resp]))
      case Take(r) =>
        var k := m.calls[r];
        SetCall(m, r, k.(consumed := k.consumed + [k.buffer[0]], buffer := k.buffer[1..]))
      case Leave(r) => SetCall(m, r, m.calls[r].(phase := Leaving))
      case Finish(r) => SetCall(m, r, m.calls[r].(phase := Left)).(handlers := m.handlers - {r})
  }

  // ----- The invariant -----

  predicate Ids(rs: seq<AgentResponse>, ids: seq<string>) {
    forall x <- rs :: x.requestID in ids
  }

  /** Requests leave in the order they were accepted, and the queue is bounded. A request whose send
      failed stays in the send loop's hand. */
  predicate QueueOk(n: Conn) {
    && n.accepted == n.sent + n.sendHand + n.queue
    && |n.sendHand| <= 1 && |n.queue| <= QUEUE_SIZE
  }

  /** Responses answer what was sent, and the receive loop holds the last one delivered. */
  predicate StreamOk(n: Conn) {
    && Ids(n.inbound, n.sent) && Ids(n.delivered, n.sent)
    && (!n.recvHand.Idle? ==> n.delivered != [] && n.delivered[|n.delivered| - 1] == n.recvHand.resp)
    && (n.recvHand.Pushing? ==> n.recvHand.owner == n.recvHand.resp.requestID)
  }

  predicate ConnOk(n: Conn) {
    QueueOk(n) && StreamOk(n)
  }

  /** The response to r in the receive loop's hand. */
  function Held(n: Conn, r: string, looking: bool): seq<AgentResponse> {
    if (n.recvHand.Pushing? || (looking && n.recvHand.Looking?))
        && n.recvHand.resp.requestID == r then [n.recvHand.resp] else []
  }

  /** Nothing lost, duplicated or reordered: while the handler is registered, what the caller took,
      what is in its buffer and what the receive loop holds for it are together exactly the
      responses delivered for it; afterwards they are the first of them. */
  predicate FlowOk(k: Call, n: Conn, r: string) {
    if k.phase.Left? then k.consumed + k.buffer + Held(n, r, false) <= For(n.delivered, r)
    else k.consumed + k.buffer + Held(n, r, true) == For(n.delivered, r)
  }

  /** A call with the handler registered under its id and the connections there are. */
  predicate CallFine(k: Call, r: string, handler: Option<string>, conns: map<nat, Conn>) {
    && handler == (if k.phase.Left? then None else Some(r))
    && (k.phase.Sending? ==> k.phase.c in conns)
    && |k.buffer| <= BUFFER_SIZE && StopsAtDone(k.consumed)
    && match k.conn
       case None => !k.phase.Waiting? && k.buffer == [] && k.consumed == []
       case Some(c) => !k.phase.Registered? && !k.phase.Sending? && c in conns && FlowOk(k, conns[c], r)
  }

  function HandlerOf(m: State, r: string): Option<string> {
    if r in m.handlers then Some(m.handlers[r]) else None
  }

  predicate CallOk(m: State, r: string)
    requires r in m.calls
  {
    CallFine(m.calls[r], r, HandlerOf(m, r), m.conns)
  }

  /** Each accepted request knows its one connection. */
  predicate OwnerOk(m: State, c: nat)
    requires c in m.conns
  {
    forall r <- m.conns[c].accepted :: r in m.calls && m.calls[r].conn == Some(c)
  }

  /** A connection under this id, of whatever type. */
  predicate ConnOfAgent(m: State, c: nat, id: string) {
    c in m.conns && m.conns[c].agentID == id
  }

  predicate CallAgentOk(m: State, k: Call) {
    && (k.phase.Sending? ==> ConnOfAgent(m, k.phase.c, k.agentID))
    && (k.conn.Some? ==> ConnOfAgent(m, k.conn.value, k.agentID))
  }

  /** The table, a request looked up in it, and a request queued all name a connection under the very id
      meant. */
  ghost predicate AgentsOk(m: State) {
    && (forall id <- m.localAgents :: ConnOfAgent(m, m.localAgents[id], id))
    && (forall r <- m.calls :: CallAgentOk(m, m.calls[r]))
  }

  ghost predicate Inv(m: State) {
    && (forall c <- m.conns :: ConnOk(m.conns[c]) && OwnerOk(m, c))
    && (forall r <- m.calls :: CallOk(m, r))
    && (forall r <- m.handlers :: r in m.calls)
    && AgentsOk(m)
  }

  const START := State(map[], map[], map[], map[])

  lemma StartInv()
    ensures Inv(START)
  {
  }

  lemma NextConnOk(n: Conn, a: Action)
    requires OnConnAlone(a) && ConnEnabled(n, a) && ConnOk(n)
    ensures ConnOk(NextConn(n, a))
  {
    if a.SendTake? {
      assert n.queue == [n.queue[0]] + n.queue[1..];
    } else if a.SendOut? {
      assert n.sent + n.sendHand + [] == n.sent + n.sendHand;
    }
  }

  lemma EnqueuedConnOk(n: Conn, r: string)
    requires ConnOk(n) && |n.queue| < QUEUE_SIZE
    ensures ConnOk(n.(queue := n.queue + [r], accepted := n.accepted + [r]))
  {
    assert n.sent + n.sendHand + (n.queue + [r]) == n.sent + n.sendHand + n.queue + [r];
  }

  lemma HandConnOk(n: Conn, h: Hand)
    requires ConnOk(n) && (h.Idle? || (n.recvHand.Looking? && h == Pushing(n.recvHand.resp, n.recvHand.resp.requestID)))
    ensures ConnOk(n.(recvHand := h))
  {
  }

  lemma OpenedConnOk(t: string, id: string)
    ensures ConnOk(Opened(t, id))
  {
  }

  lemma AloneConnOk(m: State, a: Action, c: nat)
    requires OnConnAlone(a) && Enabled(m, a) && c in Next(m, a).conns && (c in m.conns ==> ConnOk(m.conns[c]))
    ensures ConnOk(Next(m, a).conns[c])
  {
    hide NextConn, ConnEnabled, ConnOk;
    if a.c == c {
      NextConnOk(m.conns[c], a);
    }
  }

  lemma NoConnChanged(m: State, a: Action, c: nat)
    requires !OnConnAlone(a) && !a.Enqueue? && !a.RecvLook? && !a.RecvPush?
    requires Enabled(m, a) && c in Next(m, a).conns && (c in m.conns ==> ConnOk(m.conns[c]))
    ensures ConnOk(Next(m, a).conns[c])
  {
    hide ConnOk;
    if a.Open? {
      OpenedConnOk(a.agentType, a.agentID);
    }
  }

  lemma EnqueueConnOk(m: State, r: string, c: nat)
    requires Enabled(m, Enqueue(r)) && c in Next(m, Enqueue(r)).conns && (c in m.conns ==> ConnOk(m.conns[c]))
    ensures ConnOk(Next(m, Enqueue(r)).conns[c])
  {
    hide ConnOk;
    var n := m.conns[m.calls[r].phase.c];
    if m.calls[r].phase.c == c && |n.queue| < QUEUE_SIZE {
      EnqueuedConnOk(n, r);
    }
  }

  lemma HandlingConnOk(m: State, a: Action, c: nat)
    requires Enabled(m, a) && (a.RecvLook? || a.RecvPush?) && c in Next(m, a).conns
    requires c in m.conns ==> ConnOk(m.conns[c])
    requires forall r <- m.handlers :: m.handlers[r] == r
    ensures ConnOk(Next(m, a).conns[c])
  {
    hide ConnOk;
    if a.c == c {
      HandConnOk(m.conns[c], Next(m, a).conns[c].recvHand);
    }
  }

  lemma HandlerIsOwn(m: State, r: string)
    requires Inv(m) && r in m.handlers
    ensures r in m.calls && m.handlers[r] == r
  {
    assert r in m.calls && CallOk(m, r);
  }

  lemma AllHandlersOwn(m: State)
    requires Inv(m)
    ensures forall r <- m.handlers :: m.handlers[r] == r
  {
    forall r | r in m.handlers ensures m.handlers[r] == r {
      HandlerIsOwn(m, r);
    }
  }

  lemma StepConnOk(m: State, a: Action, c: nat)
    requires Inv(m) && Enabled(m, a) && c in Next(m, a).conns
    ensures ConnOk(Next(m, a).conns[c])
  {
    assert c in m.conns ==> ConnOk(m.conns[c]);
    AllHandlersOwn(m);
    hide Inv, ConnOk, Next, Enabled;
    if OnConnAlone(a) {
      AloneConnOk(m, a, c);
    } else if a.Enqueue? {
      EnqueueConnOk(m, a.r, c);
    } else if a.RecvLook? || a.RecvPush? {
      HandlingConnOk(m, a, c);
    } else {
      NoConnChanged(m, a, c);
    }
  }

  lemma Unqueued(m: State, r: string)
    requires Inv(m) && r in m.calls && m.calls[r].phase.Sending?
    ensures m.calls[r].conn == None && m.calls[r].phase.c in m.conns
    ensures forall d <- m.conns :: r !in m.conns[d].accepted
  {
    assert CallOk(m, r);
    forall d | d in m.conns ensures r !in m.conns[d].accepted {
      assert OwnerOk(m, d);
    }
  }

  lemma OwnersStay(m: State, a: Action)
    requires Enabled(m, a) && !OnConnAlone(a)
    requires a.Enqueue? ==> m.calls[a.r].conn == None
    ensures forall r <- m.calls :: r in Next(m, a).calls
    ensures forall r <- m.calls :: m.calls[r].conn.Some? ==> Next(m, a).calls[r].conn == m.calls[r].conn
    ensures forall c <- Next(m, a).conns :: forall r <- Next(m, a).conns[c].accepted ::
              (c in m.conns && r in m.conns[c].accepted)
              || (a == Enqueue(r) && r in Next(m, a).calls && Next(m, a).calls[r].conn == Some(c))
  {
  }

  lemma NextConnKeepsAgent(n: Conn, a: Action)
    requires OnConnAlone(a) && ConnEnabled(n, a)
    ensures NextConn(n, a).agentID == n.agentID && NextConn(n, a).agentType == n.agentType
    ensures NextConn(n, a).accepted == n.accepted
  {
  }

  lemma OwnerStays(m: State, a: Action, c: nat)
    requires Enabled(m, a) && c in Next(m, a).conns && (c in m.conns ==> OwnerOk(m, c))
    requires a.Enqueue? ==> m.calls[a.r].conn == None && forall d <- m.conns :: a.r !in m.conns[d].accepted
    ensures OwnerOk(Next(m, a), c)
  {
    if OnConnAlone(a) {
      NextConnKeepsAgent(m.conns[a.c], a);
      hide NextConn, ConnEnabled;
      assert Next(m, a).calls == m.calls;
    } else {
      OwnersStay(m, a);
      hide Next, Enabled;
    }
  }

  lemma StepOwnerOk(m: State, a: Action, c: nat)
    requires Inv(m) && Enabled(m, a) && c in Next(m, a).conns
    ensures OwnerOk(Next(m, a), c)
  {
    hide ConnOk, CallOk;
    assert c in m.conns ==> OwnerOk(m, c);
    if a.Enqueue? {
      Unqueued(m, a.r);
    }
    hide OwnerOk;
    OwnerStays(m, a, c);
  }

  /** A response to r in the hands of connection c means c is the connection r was queued on. */
  lemma AnsweredOnOwnConn(m: State, c: nat, x: AgentResponse)
    requires Inv(m) && c in m.conns && (x in m.conns[c].delivered || x in m.conns[c].inbound)
    ensures x.requestID in m.calls && m.calls[x.requestID].conn == Some(c)
  {
    assert ConnOk(m.conns[c]) && OwnerOk(m, c);
  }

  lemma HandOwner(m: State, c: nat)
    requires Inv(m) && c in m.conns && m.conns[c].recvHand.Pushing?
    ensures var h := m.conns[c].recvHand;
      h.owner == h.resp.requestID && h.owner in m.calls && m.calls[h.owner].conn == Some(c)
  {
    assert ConnOk(m.conns[c]);
    AnsweredOnOwnConn(m, c, m.conns[c].recvHand.resp);
  }

  lemma PushOwner(m: State, a: Action)
    requires Inv(m) && Enabled(m, a) && a.RecvPush?
    ensures var h := m.conns[a.c].recvHand;
      h.owner == h.resp.requestID && h.owner in m.calls && m.calls[h.owner].conn == Some(a.c)
  {
    HandOwner(m, a.c);
  }

  /** The calls a step changes: its own, or the owner of the buffer it pushes into. */
  predicate Touches(m: State, a: Action, r: string) {
    || (OnCall(a) && a.r == r)
    || (a.RecvPush? && a.c in m.conns && m.conns[a.c].recvHand.Pushing? && m.conns[a.c].recvHand.owner == r)
  }

  lemma UntouchedTables(m: State, a: Action, r: string)
    requires Enabled(m, a) && r in m.calls && !Touches(m, a, r)
    ensures r in Next(m, a).calls && Next(m, a).calls[r] == m.calls[r]
    ensures r in Next(m, a).handlers <==> r in m.handlers
    ensures r in m.handlers ==> Next(m, a).handlers[r] == m.handlers[r]
    ensures m.conns.Keys <= Next(m, a).conns.Keys
  {
  }

  lemma StreamStays(m: State, a: Action, c: nat)
    requires Enabled(m, a) && c in m.conns
    requires !(OnConn(a) && a.c == c && (a.RecvTake? || a.RecvLook? || a.RecvPush?))
    ensures c in Next(m, a).conns
    ensures Next(m, a).conns[c].delivered == m.conns[c].delivered && Next(m, a).conns[c].recvHand == m.conns[c].recvHand
  {
  }

  lemma LookFlow(k: Call, n: Conn, r: string, known: bool)
    requires n.recvHand.Looking? && FlowOk(k, n, r)
    requires n.recvHand.resp.requestID == r ==> (known <==> !k.phase.Left?)
    ensures FlowOk(k, n.(recvHand := if known then Pushing(n.recvHand.resp, n.recvHand.resp.requestID) else Idle), r)
  {
  }

  lemma OtherPushFlow(k: Call, n: Conn, r: string)
    requires n.recvHand.Pushing? && n.recvHand.resp.requestID != r && FlowOk(k, n, r)
    ensures FlowOk(k, n.(recvHand := Idle), r)
  {
  }

  lemma TakeFlow(k: Call, n: Conn, r: string)
    requires n.recvHand.Idle? && n.inbound != [] && FlowOk(k, n, r)
    ensures FlowOk(k,
              n.(inbound := n.inbound[1..], delivered := n.delivered + [n.inbound[0]],
                  recvHand := Looking(n.inbound[0])), r)
  {
    ForAppend(n.delivered, n.inbound[0], r);
    assert k.consumed + k.buffer + [] == k.consumed + k.buffer;
  }

  lemma UntouchedFlow(m: State, a: Action, r: string, c: nat)
    requires Enabled(m, a) && r in m.calls && !Touches(m, a, r) && c in m.conns && StreamOk(m.conns[c])
    requires FlowOk(m.calls[r], m.conns[c], r) && (r in m.handlers <==> !m.calls[r].phase.Left?)
    requires forall x <- m.handlers :: m.handlers[x] == x
    ensures FlowOk(m.calls[r], Next(m, a).conns[c], r)
  {
    if OnConn(a) && a.c == c && (a.RecvTake? || a.RecvLook? || a.RecvPush?) {
      hide FlowOk;
      if a.RecvTake? {
        TakeFlow(m.calls[r], m.conns[c], r);
      } else if a.RecvLook? {
        LookFlow(m.calls[r], m.conns[c], r, m.conns[c].recvHand.resp.requestID in m.handlers);
      } else {
        OtherPushFlow(m.calls[r], m.conns[c], r);
      }
    } else {
      StreamStays(m, a, c);
      hide Next, Enabled;
    }
  }

  lemma UntouchedCallOk(m: State, a: Action, r: string)
    requires Inv(m) && Enabled(m, a) && r in m.calls && r in Next(m, a).calls && !Touches(m, a, r)
    ensures CallOk(Next(m, a), r)
  {
    hide FlowOk, QueueOk, StreamOk, StopsAtDone, OwnerOk;
    assert CallOk(m, r);
    UntouchedTables(m, a, r);
    AllHandlersOwn(m);
    if m.calls[r].conn.Some? {
      var c := m.calls[r].conn.value;
      assert ConnOk(m.conns[c]);
      UntouchedFlow(m, a, r, c);
    }
    hide Inv, Next, Enabled, Touches;
  }

  lemma PushFlow(k: Call, n: Conn, r: string)
    requires n.recvHand.Pushing? && n.recvHand.resp.requestID == r && FlowOk(k, n, r)
    ensures FlowOk(k.(buffer := k.buffer + [n.recvHand.resp]), n.(recvHand := Idle), r)
  {
    assert k.consumed + (k.buffer + [n.recvHand.resp]) + [] == k.consumed + k.buffer + [n.recvHand.resp];
  }

  lemma PushedFine(k: Call, r: string, handler: Option<string>, conns: map<nat, Conn>, c: nat)
    requires CallFine(k, r, handler, conns) && k.conn == Some(c) && c in conns && |k.buffer| < BUFFER_SIZE
    requires conns[c].recvHand.Pushing? && conns[c].recvHand.resp.requestID == r
    ensures CallFine(k.(buffer := k.buffer + [conns[c].recvHand.resp]), r, handler,
              conns[c := conns[c].(recvHand := Idle)])
  {
    PushFlow(k, conns[c], r);
    hide FlowOk, StopsAtDone;
  }

  lemma PushedCallOk(m: State, a: Action, r: string)
    requires Inv(m) && Enabled(m, a) && r in m.calls && r in Next(m, a).calls && a.RecvPush?
              && m.conns[a.c].recvHand.owner == r
    ensures CallOk(Next(m, a), r)
  {
    PushOwner(m, a);
    assert CallOk(m, r);
    hide Inv, CallFine;
    PushedFine(m.calls[r], r, HandlerOf(m, r), m.conns, a.c);
  }

  lemma TakeBuffer(k: Call, n: Conn, r: string)
    requires k.buffer != [] && FlowOk(k, n, r)
    ensures FlowOk(k.(consumed := k.consumed + [k.buffer[0]], buffer := k.buffer[1..]), n, r)
  {
    assert k.consumed + [k.buffer[0]] + k.buffer[1..] == k.consumed + k.buffer;
  }

  lemma TakenFine(k: Call, r: string, handler: Option<string>, conns: map<nat, Conn>)
    requires CallFine(k, r, handler, conns) && k.phase.Waiting? && k.buffer != [] && !Finished(k.consumed)
    ensures CallFine(k.(consumed := k.consumed + [k.buffer[0]], buffer := k.buffer[1..]), r, handler, conns)
  {
    TakeBuffer(k, conns[k.conn.value], r);
    hide FlowOk;
  }

  lemma LeaveFlow(k: Call, n: Conn, r: string)
    requires !k.phase.Left? && FlowOk(k, n, r)
    ensures FlowOk(k.(phase := Leaving), n, r)
  {
  }

  lemma LeavingFine(k: Call, r: string, handler: Option<string>, conns: map<nat, Conn>)
    requires CallFine(k, r, handler, conns) && k.phase.Waiting?
    ensures CallFine(k.(phase := Leaving), r, handler, conns)
  {
    LeaveFlow(k, conns[k.conn.value], r);
    hide FlowOk, StopsAtDone;
  }

  lemma FinishFlow(k: Call, n: Conn, r: string)
    requires !k.phase.Left? && FlowOk(k, n, r)
    ensures FlowOk(k.(phase := Left), n, r)
  {
  }

  lemma LeftFine(k: Call, r: string, handler: Option<string>, conns: map<nat, Conn>)
    requires CallFine(k, r, handler, conns) && k.phase.Leaving?
    ensures CallFine(k.(phase := Left), r, None, conns)
  {
    if k.conn.Some? {
      FinishFlow(k, conns[k.conn.value], r);
    }
    hide FlowOk, StopsAtDone;
  }

  lemma FoundFine(k: Call, r: string, handler: Option<string>, conns: map<nat, Conn>, phase: Phase)
    requires CallFine(k, r, handler, conns) && k.phase.Registered?
              && (phase.Leaving? || (phase.Sending? && phase.c in conns))
    ensures CallFine(k.(phase := phase), r, handler, conns)
  {
    hide FlowOk, StopsAtDone;
  }

  predicate AgentsHaveConns(m: State) {
    forall id <- m.localAgents :: m.localAgents[id] in m.conns
  }

  lemma InvAgents(m: State)
    requires Inv(m)
    ensures AgentsHaveConns(m)
  {
  }

  lemma TakeCallOk(m: State, r: string)
    requires Inv(m) && r in m.calls && Enabled(m, Take(r))
    ensures r in Next(m, Take(r)).calls && CallOk(Next(m, Take(r)), r)
  {
    assert CallOk(m, r);
    hide CallFine, Inv;
    TakenFine(m.calls[r], r, HandlerOf(m, r), m.conns);
  }

  lemma FindCallOk(m: State, r: string)
    requires Inv(m) && r in m.calls && Enabled(m, Find(r))
    ensures r in Next(m, Find(r)).calls && CallOk(Next(m, Find(r)), r)
  {
    assert CallOk(m, r);
    InvAgents(m);
    hide CallFine, Inv;
    FoundFine(m.calls[r], r, HandlerOf(m, r), m.conns, Next(m, Find(r)).calls[r].phase);
  }

  lemma EndCallOk(m: State, a: Action, r: string)
    requires Inv(m) && r in m.calls && Enabled(m, a) && (a == Leave(r) || a == Finish(r))
    ensures r in Next(m, a).calls && CallOk(Next(m, a), r)
  {
    assert CallOk(m, r);
    hide CallFine, Inv;
    if a.Leave? {
      LeavingFine(m.calls[r], r, HandlerOf(m, r), m.conns);
    } else {
      LeftFine(m.calls[r], r, HandlerOf(m, r), m.conns);
    }
  }

  lemma OwnActionCallOk(m: State, a: Action, r: string)
    requires Inv(m) && Enabled(m, a) && r in m.calls && r in Next(m, a).calls && OnCall(a) && a.r == r && !a.Enqueue?
    ensures CallOk(Next(m, a), r)
  {
    if a.Take? {
      TakeCallOk(m, r);
    } else if a.Find? {
      FindCallOk(m, r);
    } else {
      EndCallOk(m, a, r);
    }
    hide Inv, CallOk, Next, Enabled;
  }

  lemma NotYetSent(m: State, c: nat, r: string)
    requires Inv(m) && c in m.conns && r in m.calls && m.calls[r].conn == None
    ensures r !in m.conns[c].sent && StreamOk(m.conns[c])
  {
    assert ConnOk(m.conns[c]) && OwnerOk(m, c);
    assert r !in m.conns[c].accepted;
  }

  lemma FreshFlow(k: Call, n: Conn, n': Conn, r: string)
    requires k.consumed == [] && k.buffer == [] && !k.phase.Left?
    requires StreamOk(n) && r !in n.sent && n'.delivered == n.delivered && n'.recvHand == n.recvHand
    ensures FlowOk(k, n', r)
  {
    ForNone(n.delivered, r);
  }

  lemma EnqueuedCallOk(m: State, a: Action, r: string)
    requires Inv(m) && Enabled(m, a) && r in m.calls && r in Next(m, a).calls && a == Enqueue(r)
    ensures CallOk(Next(m, a), r)
  {
    hide FlowOk, QueueOk, StreamOk, OwnerOk, StopsAtDone;
    assert CallOk(m, r);
    var c, k := m.calls[r].phase.c, m.calls[r];
    if |m.conns[c].queue| < QUEUE_SIZE {
      var n' := m.conns[c].(queue := m.conns[c].queue + [r], accepted := m.conns[c].accepted + [r]);
      NotYetSent(m, c, r);
      FreshFlow(k.(phase := Waiting, conn := Some(c)), m.conns[c], n', r);
    }
  }

  lemma FreshCallOk(m: State, a: Action)
    requires Enabled(m, a) && a.Begin?
    ensures CallOk(Next(m, a), a.r)
  {
  }

  lemma NewCallOk(m: State, a: Action, r: string)
    requires Inv(m) && Enabled(m, a) && r in Next(m, a).calls && r !in m.calls
    ensures CallOk(Next(m, a), r)
  {
    hide ConnOk, CallOk, OwnerOk;
    if a.RecvPush? {
      PushOwner(m, a);
    }
    assert a.Begin? && a.r == r;
    FreshCallOk(m, a);
  }

  lemma StepCallOk(m: State, a: Action, r: string)
    requires Inv(m) && Enabled(m, a) && r in Next(m, a).calls
    ensures CallOk(Next(m, a), r)
  {
    if r !in m.calls {
      NewCallOk(m, a, r);
    } else {
      hide CallOk, Inv, Next, Enabled;
      if a == Enqueue(r) {
        EnqueuedCallOk(m, a, r);
      } else if OnCall(a) && a.r == r {
        OwnActionCallOk(m, a, r);
      } else if Touches(m, a, r) {
        PushedCallOk(m, a, r);
      } else {
        UntouchedCallOk(m, a, r);
      }
    }
  }

  lemma StepHandlersKnown(m: State, a: Action)
    requires Enabled(m, a) && forall r <- m.handlers :: r in m.calls
    ensures forall r <- Next(m, a).handlers :: r in Next(m, a).calls
  {
  }

  lemma ConnsKeepAgents(m: State, a: Action)
    requires Enabled(m, a)
    ensures forall c <- m.conns :: ConnOfAgent(Next(m, a), c, m.conns[c].agentID)
    ensures forall c <- m.conns :: Next(m, a).conns[c].agentType == m.conns[c].agentType
  {
    if OnConnAlone(a) {
      NextConnKeepsAgent(m.conns[a.c], a);
    }
    hide NextConn, ConnEnabled;
  }

  lemma TableAgentsOk(m: State, a: Action)
    requires Enabled(m, a) && (forall id <- m.localAgents :: ConnOfAgent(m, m.localAgents[id], id))
    ensures forall id <- Next(m, a).localAgents :: ConnOfAgent(Next(m, a), Next(m, a).localAgents[id], id)
  {
    ConnsKeepAgents(m, a);
    hide NextConn, ConnEnabled;
  }

  lemma CallsKeepAgents(m: State, a: Action)
    requires Enabled(m, a) && (forall id <- m.localAgents :: ConnOfAgent(m, m.localAgents[id], id))
    ensures forall r <- Next(m, a).calls :: var k' := Next(m, a).calls[r];
      && (k'.phase.Sending? ==>
            (r in m.calls && m.calls[r].phase == k'.phase && m.calls[r].agentID == k'.agentID)
            || ConnOfAgent(m, k'.phase.c, k'.agentID))
      && (k'.conn.Some? ==>
            r in m.calls && m.calls[r].agentID == k'.agentID
            && (m.calls[r].conn == k'.conn || m.calls[r].phase == Sending(k'.conn.value)))
  {
    hide NextConn, ConnEnabled, ConnOfAgent;
    assert OnConnAlone(a) ==> Next(m, a).calls == m.calls;
  }

  lemma CallAgentsOk(m: State, a: Action)
    requires Enabled(m, a) && AgentsOk(m)
    ensures forall r <- Next(m, a).calls :: CallAgentOk(Next(m, a), Next(m, a).calls[r])
  {
    hide Next, Enabled;
    ConnsKeepAgents(m, a);
    CallsKeepAgents(m, a);
    forall r | r in Next(m, a).calls ensures CallAgentOk(Next(m, a), Next(m, a).calls[r]) {
      assert r in m.calls ==> CallAgentOk(m, m.calls[r]);
    }
  }

  lemma StepAgentsOk(m: State, a: Action)
    requires Enabled(m, a) && AgentsOk(m)
    ensures AgentsOk(Next(m, a))
  {
    ConnsKeepAgents(m, a);
    TableAgentsOk(m, a);
    CallAgentsOk(m, a);
    hide Next, Enabled;
  }

  lemma StepKeepsInv(m: State, a: Action)
    requires Inv(m) && Enabled(m, a)
    ensures Inv(Next(m, a))
  {
    hide ConnOk, OwnerOk, CallOk, AgentsOk, Next, Enabled;
    var m' := Next(m, a);
    forall c | c in m'.conns ensures ConnOk(m'.conns[c]) && OwnerOk(m', c) {
      StepConnOk(m, a, c);
      StepOwnerOk(m, a, c);
    }
    forall r | r in m'.calls ensures CallOk(m', r) {
      StepCallOk(m, a, r);
    }
    StepHandlersKnown(m, a);
    StepAgentsOk(m, a);
  }

  // ----- What holds in every reachable state -----

  ghost predicate Reaches(m: State, steps: seq<Action>)
    decreases |steps|
  {
    steps != [] ==> Enabled(m, steps[0]) && Reaches(Next(m, steps[0]), steps[1..])
  }

  ghost function Run(m: State, steps: seq<Action>): State
    requires Reaches(m, steps)
    decreases |steps|
  {
    if steps == [] then m else Run(Next(m, steps[0]), steps[1..])
  }

  lemma {:induction false} RunKeepsInv(m: State, steps: seq<Action>)
    requires Inv(m) && Reaches(m, steps)
    ensures Inv(Run(m, steps))
    decreases |steps|
  {
    if steps != [] {
      StepKeepsInv(m, steps[0]);
      RunKeepsInv(Next(m, steps[0]), steps[1..]);
    }
  }

  lemma QueueIsConserved(m: State, c: nat)
    requires Inv(m) && c in m.conns
    ensures var n := m.conns[c]; n.accepted == n.sent + n.sendHand + n.queue
  {
    assert ConnOk(m.conns[c]);
  }

  // ----- Paths -----

  /** What comes next around one party: a step of somebody else, or its own turn. */
  datatype Turn<T> = Others(a: Action) | Mine(turn: T)

  /** The steps lead from one state to the other. */
  ghost predicate Path(m: State, steps: seq<Action>, m': State) {
    Reaches(m, steps) && Run(m, steps) == m'
  }

  lemma OneStep(m: State, a: Action)
    requires Enabled(m, a)
    ensures Path(m, [], m) && Path(m, [a], Next(m, a))
  {
    hide Next, Enabled;
    assert [a][1..] == [];
    assert Reaches(Next(m, a), []) && Run(Next(m, a), []) == Next(m, a);
  }

  lemma {:induction false} PathJoin(m: State, s: seq<Action>, mid: State, s': seq<Action>, m': State)
    requires Path(m, s, mid) && Path(mid, s', m')
    ensures Path(m, s + s', m')
    decreases |s|
  {
    hide Next, Enabled;
    if s == [] {
      assert s + s' == s';
    } else {
      assert (s + s')[1..] == s[1..] + s';
      PathJoin(Next(m, s[0]), s[1..], mid, s', m');
    }
  }

  lemma PathNil(m: State)
    ensures Path(m, [], m)
  {
  }

  lemma PathThen(m: State, steps: seq<Action>, m': State, a: Action)
    requires Path(m, steps, m') && Enabled(m', a)
    ensures Path(m, steps + [a], Next(m', a))
  {
    OneStep(m', a);
    PathJoin(m, steps, m', [a], Next(m', a));
  }

  predicate ByCaller(a: Action, r: string) {
    (OnCall(a) || a.Begin?) && a.r == r
  }

  predicate BySender(a: Action, c: nat) {
    (a.SendTake? || a.SendOut? || a.SendFail? || a.SendStop?) && a.c == c
  }

  /** Whatever others do, a caller keeps its phase and what it has taken; its buffer can only grow. */
  lemma OthersSpareCall(m: State, a: Action, r: string)
    requires Enabled(m, a) && r in m.calls && !ByCaller(a, r)
    ensures r in Next(m, a).calls && m.calls[r].buffer <= Next(m, a).calls[r].buffer
    ensures Next(m, a).calls[r] == m.calls[r].(buffer := Next(m, a).calls[r].buffer)
    ensures (r in Next(m, a).handlers <==> r in m.handlers)
  {
  }

  lemma HandlerStays(m: State, a: Action, r: string)
    requires Enabled(m, a) && !ByCaller(a, r)
    ensures r in Next(m, a).handlers <==> r in m.handlers
  {
  }

  /** A handler comes and goes by its own caller's steps only, whatever path is taken. */
  lemma {:induction false} HandlersBelongToCallers(m: State, steps: seq<Action>, m': State, r: string)
    requires Path(m, steps, m') && forall a <- steps :: !ByCaller(a, r)
    ensures r in m'.handlers <==> r in m.handlers
    decreases |steps|
  {
    if steps != [] {
      assert steps[0] in steps;
      HandlerStays(m, steps[0], r);
      hide Next, Enabled, ByCaller;
      HandlersBelongToCallers(Next(m, steps[0]), steps[1..], m', r);
    }
  }

  lemma ReceiverSparesSender(n: Conn, a: Action)
    requires OnConnAlone(a) && ConnEnabled(n, a) && !BySender(a, a.c)
    ensures var n' := NextConn(n, a);
      n'.sent == n.sent && n'.sendHand == n.sendHand && n'.sending == n.sending && n'.accepted == n.accepted
  {
  }

  /** Whatever others do, a send loop keeps what it sent and what it holds. */
  lemma OthersSpareSender(m: State, a: Action, c: nat)
    requires Enabled(m, a) && c in m.conns && !BySender(a, c)
    ensures c in Next(m, a).conns
    ensures var n, n' := m.conns[c], Next(m, a).conns[c];
      && n'.sent == n.sent && n'.sendHand == n.sendHand && n'.sending == n.sending && n.accepted <= n'.accepted
      && (!n.receiving ==> !n'.receiving)
  {
    if OnConnAlone(a) {
      if a.c == c {
        ReceiverSparesSender(m.conns[c], a);
      }
    }
    hide NextConn, ConnEnabled;
  }

  // ----- The agent asked for -----

  /** The test a gateway could make before it sends: the entry under this id is of this type. */
  predicate EntryIs(m: State, t: string, id: string) {
    id in m.localAgents && m.localAgents[id] in m.conns && m.conns[m.localAgents[id]].agentType == t
  }

  /** The request is queued on a connection of the agent asked for, in type and id. */
  predicate AtRightAgent(m: State, r: string) {
    && r in m.calls && m.calls[r].conn.Some? && ConnOfAgent(m, m.calls[r].conn.value, m.calls[r].agentID)
    && m.conns[m.calls[r].conn.value].agentType == m.calls[r].wanted
  }

  /** The request r, wanting type t, has been looked up and found connection c, or none. */
  predicate LookedUp(m: State, r: string, t: string, id: string, c: Option<nat>) {
    && r in m.calls && m.calls[r].wanted == t && m.calls[r].agentID == id && !m.calls[r].phase.Registered?
    && (m.calls[r].phase.Sending? ==> c == Some(m.calls[r].phase.c))
    && (m.calls[r].conn.Some? ==> m.calls[r].conn == c)
  }

  lemma StepKeepsLookup(m: State, a: Action, r: string, t: string, id: string, c: Option<nat>)
    requires Enabled(m, a) && LookedUp(m, r, t, id, c)
    ensures LookedUp(Next(m, a), r, t, id, c)
  {
    if ByCaller(a, r) {
      hide ConnEnabled, NextConn;
    } else {
      OthersSpareCall(m, a, r);
      hide Next, Enabled;
    }
  }

  lemma {:induction false} PathKeepsLookup(m: State, steps: seq<Action>, m': State, r: string, t: string, id: string,
                                           c: Option<nat>)
    requires Path(m, steps, m') && LookedUp(m, r, t, id, c)
    ensures LookedUp(m', r, t, id, c)
    decreases |steps|
  {
    if steps != [] {
      StepKeepsLookup(m, steps[0], r, t, id, c);
      hide Next, Enabled, LookedUp;
      PathKeepsLookup(Next(m, steps[0]), steps[1..], m', r, t, id, c);
    }
  }

  /** A connection never changes who it belongs to. */
  lemma {:induction false} PathKeepsAgent(m: State, steps: seq<Action>, m': State, c: nat)
    requires Path(m, steps, m') && c in m.conns
    ensures c in m'.conns && m'.conns[c].agentType == m.conns[c].agentType && m'.conns[c].agentID == m.conns[c].agentID
    decreases |steps|
  {
    if steps != [] {
      ConnsKeepAgents(m, steps[0]);
      assert ConnOfAgent(Next(m, steps[0]), c, m.conns[c].agentID);
      hide Next, Enabled;
      PathKeepsAgent(Next(m, steps[0]), steps[1..], m', c);
    }
  }

  lemma FindLooksUp(m: State, r: string)
    requires Enabled(m, Find(r)) && m.calls[r].conn.None?
    ensures var id := m.calls[r].agentID; var c := if id in m.localAgents then Some(m.localAgents[id]) else None;
      LookedUp(Next(m, Find(r)), r, m.calls[r].wanted, id, c) && Next(m, Find(r)).conns == m.conns
  {
  }

  lemma CallAgentKnown(m: State, r: string)
    requires Inv(m) && r in m.calls && m.calls[r].conn.Some?
    ensures ConnOfAgent(m, m.calls[r].conn.value, m.calls[r].agentID)
  {
    assert CallAgentOk(m, m.calls[r]);
  }

  /** The lookup decides, whatever happens afterwards: a request that gets queued is queued at the agent
      asked for exactly if the entry it was looked up in was of the type asked for. */
  lemma LookupDecides(m: State, r: string, steps: seq<Action>, m': State)
    requires Inv(m) && Enabled(m, Find(r)) && Path(Next(m, Find(r)), steps, m') && Inv(m')
    requires r in m'.calls && m'.calls[r].conn.Some?
    ensures m'.calls[r].wanted == m.calls[r].wanted && m'.calls[r].agentID == m.calls[r].agentID
    ensures m.calls[r].agentID in m.localAgents && m'.calls[r].conn == Some(m.localAgents[m.calls[r].agentID])
    ensures AtRightAgent(m', r) <==> EntryIs(m, m.calls[r].wanted, m.calls[r].agentID)
  {
    var id, t := m.calls[r].agentID, m.calls[r].wanted;
    var c := if id in m.localAgents then Some(m.localAgents[id]) else None;
    assert CallOk(m, r);
    FindLooksUp(m, r);
    InvAgents(m);
    CallAgentKnown(m', r);
    hide Inv, Next, Enabled, Path;
    var found := Next(m, Find(r));
    PathKeepsLookup(found, steps, m', r, t, id, c);
    assert m'.calls[r].conn == c && m'.calls[r].wanted == t;
    hide LookedUp;
    PathKeepsAgent(found, steps, m', c.value);
    hide ConnOfAgent;
  }

  predicate NotLookedUp(m: State, r: string) {
    r in m.calls ==> m.calls[r].phase.Registered? && m.calls[r].conn.None?
  }

  lemma StepLooksUp(m: State, a: Action, r: string)
    requires Enabled(m, a) && a != Find(r) && NotLookedUp(m, r)
    ensures NotLookedUp(Next(m, a), r)
  {
    if r in m.calls && !ByCaller(a, r) {
      OthersSpareCall(m, a, r);
      hide Next, Enabled;
    } else {
      hide ConnEnabled, NextConn;
    }
  }

  /** The same seen from before the request: queued on the entry found there, it is at the agent asked for
      exactly if that entry was of the type asked for. */
  lemma EntryDecides(m: State, steps: seq<Action>, m': State, r: string)
    requires Path(m, steps, m') && Inv(m') && r in m'.calls && AgentsHaveConns(m)
    requires m'.calls[r].agentID in m.localAgents && m'.calls[r].conn == Some(m.localAgents[m'.calls[r].agentID])
    ensures AtRightAgent(m', r) <==> EntryIs(m, m'.calls[r].wanted, m'.calls[r].agentID)
  {
    CallAgentKnown(m', r);
    hide Inv, Path;
    PathKeepsAgent(m, steps, m', m'.calls[r].conn.value);
  }

  /** The whole answer to r so far: what its connection has delivered for it, up to the final response. */
  function Answer(m: State, r: string): seq<AgentResponse>
    requires r in m.calls && (m.calls[r].conn.Some? ==> m.calls[r].conn.value in m.conns)
  {
    if m.calls[r].conn.None? then [] else UpToDone(For(m.conns[m.calls[r].conn.value].delivered, r))
  }

  /** Response delivery, for every interleaving: while the handler of r is registered, what its caller
      took, what is buffered and what the receive loop holds are exactly the responses its connection
      delivered for it, that connection bears the id r is addressed to, and no other connection
      has delivered any; so nothing is lost, duplicated, reordered, or crossed. */
  lemma ResponsesReachTheirCaller(steps: seq<Action>, r: string)
    requires Reaches(START, steps) && r in Run(START, steps).handlers
    ensures var m := Run(START, steps);
      && r in m.calls
      && |m.calls[r].buffer| <= 16
      && (forall c <- m.conns :: m.calls[r].conn != Some(c) ==> For(m.conns[c].delivered, r) == [])
      && (m.calls[r].conn.Some? ==> ConnOfAgent(m, m.calls[r].conn.value, m.calls[r].agentID))
      && (m.calls[r].conn.None? ==> m.calls[r].consumed == [] && m.calls[r].buffer == [])
      && (m.calls[r].conn.Some? ==>
            var c := m.calls[r].conn.value;
            && c in m.conns
            && m.calls[r].consumed + m.calls[r].buffer + Held(m.conns[c], r, true) == For(m.conns[c].delivered, r))
  {
    var m := Run(START, steps);
    StartInv();
    RunKeepsInv(START, steps);
    assert CallOk(m, r);
    forall c | c in m.conns && m.calls[r].conn != Some(c) ensures For(m.conns[c].delivered, r) == [] {
      forall x | x in m.conns[c].delivered ensures x.requestID != r {
        AnsweredOnOwnConn(m, c, x);
      }
      ForNone(m.conns[c].delivered, r);
    }
  }

  lemma {:induction false} ToDoneStops(rs: seq<AgentResponse>)
    ensures StopsAtDone(UpToDone(rs))
  {
    if rs != [] {
      ToDoneStops(rs[1..]);
    }
  }

  /** The answer comes over a connection under the id asked for, and ends with its first final response. */
  lemma AskedAgent(m: State, r: string)
    requires Inv(m) && r in m.calls
    ensures m.calls[r].conn.Some? ==> ConnOfAgent(m, m.calls[r].conn.value, m.calls[r].agentID)
    ensures StopsAtDone(Answer(m, r)) && (Answer(m, r) != [] ==> m.calls[r].conn.Some?)
  {
    assert CallAgentOk(m, m.calls[r]);
    hide Inv, UpToDone, For, StopsAtDone;
    if m.calls[r].conn.Some? {
      ToDoneStops(For(m.conns[m.calls[r].conn.value].delivered, r));
    } else {
      ToDoneStops([]);
      assert UpToDone([]) == [];
    }
  }

  /** What a caller has taken is a prefix of its answer, and all of it once it has the final response. */
  lemma ConsumedIsAnswer(m: State, r: string)
    requires Inv(m) && r in m.calls
    ensures m.calls[r].conn.Some? ==> m.calls[r].conn.value in m.conns
    ensures m.calls[r].consumed <= Answer(m, r)
    ensures Finished(m.calls[r].consumed) ==> m.calls[r].consumed == Answer(m, r)
  {
    assert CallOk(m, r);
    if m.calls[r].conn.Some? {
      var n := m.conns[m.calls[r].conn.value];
      assert m.calls[r].consumed <= For(n.delivered, r);
      StoppedPrefix(m.calls[r].consumed, For(n.delivered, r));
    }
  }

  /** Requests are conserved: while its send loop runs, a connection's accepted requests are those
      sent, then the one in hand, then the queue, in that order; even after a failed send only the
      request it failed on has left the queue unsent. */
  lemma RequestsAreConserved(steps: seq<Action>, c: nat)
    requires Reaches(START, steps) && c in Run(START, steps).conns
    ensures var n := Run(START, steps).conns[c];
      && n.accepted == n.sent + n.sendHand + n.queue
      && |n.sendHand| <= 1 && |n.queue| <= 64
      && (forall x <- n.delivered :: x.requestID in n.sent)
  {
    StartInv();
    RunKeepsInv(START, steps);
    assert ConnOk(Run(START, steps).conns[c]);
  }

  /** A SendRequest that fails, with whatever in between its two steps, fails for one of two reasons. It
      leaves every queue as it was, and the request is nowhere: in no queue, in no send loop's hand, sent
      on no stream. */
  lemma FailedSendChangesNoQueue(steps: seq<Action>, a: Action)
    requires Reaches(START, steps) && Enabled(Run(START, steps), a) && (a.Find? || a.Enqueue?)
    requires Next(Run(START, steps), a).calls[a.r].phase.Leaving?
    ensures var m := Run(START, steps); var m' := Next(m, a);
      && m'.conns == m.conns && m'.handlers == m.handlers
      && (a.Find? ==> m.calls[a.r].agentID !in m.localAgents)
      && (a.Enqueue? ==> |m.conns[m.calls[a.r].phase.c].queue| >= 64
                         && ConnOfAgent(m, m.calls[a.r].phase.c, m.calls[a.r].agentID))
      && forall c <- m'.conns :: var n := m'.conns[c]; a.r !in n.queue && a.r !in n.sendHand && a.r !in n.sent
  {
    var m := Run(START, steps);
    StartInv();
    RunKeepsInv(START, steps);
    assert CallOk(m, a.r);
    forall c | c in m.conns ensures var n := m.conns[c]; a.r !in n.queue && a.r !in n.sendHand && a.r !in n.sent {
      assert OwnerOk(m, c) && ConnOk(m.conns[c]);
      assert a.r !in m.conns[c].accepted;
    }
    hide Inv, CallOk, OwnerOk, ConnOk;
  }

  lemma FoundThenEnqueue(m: State, r: string)
    requires Enabled(m, Find(r)) && AgentsHaveConns(m)
    ensures r in Next(m, Find(r)).calls
    ensures !Next(m, Find(r)).calls[r].phase.Leaving? ==> Enabled(Next(m, Find(r)), Enqueue(r))
  {
  }

  /** SendRequest run to its end with no step of another in between. */
  function AfterSend(m: State, r: string): State
    requires Enabled(m, Find(r)) && AgentsHaveConns(m)
  {
    FoundThenEnqueue(m, r);
    var found := Next(m, Find(r));
    if found.calls[r].phase.Leaving? then found else Next(found, Enqueue(r))
  }

  /** It fails exactly when the agent is unknown or its queue full, and then changes nothing but the
      caller; otherwise the request is last in that agent's queue, and in no other. */
  lemma SendRequestOutcome(m: State, r: string)
    requires Enabled(m, Find(r)) && AgentsHaveConns(m)
    ensures var m', id := AfterSend(m, r), m.calls[r].agentID;
      && m'.localAgents == m.localAgents && m'.handlers == m.handlers
      && m'.calls[r].agentID == id && m'.calls[r].wanted == m.calls[r].wanted
          && m'.calls[r].consumed == m.calls[r].consumed
      && (m'.calls[r].phase.Leaving? <==> id !in m.localAgents || |m.conns[m.localAgents[id]].queue| >= 64)
      && (m'.calls[r].phase.Leaving? ==> m'.conns == m.conns)
      && (!m'.calls[r].phase.Leaving? ==>
            var c := m.localAgents[id];
            && m'.calls[r].phase.Waiting? && m'.calls[r].conn == Some(c)
            && m'.conns
                == m.conns[c := m.conns[c].(queue := m.conns[c].queue + [r], accepted := m.conns[c].accepted + [r])])
      && (forall r' :: r' in m.calls && r' != r ==> r' in m'.calls && m'.calls[r'] == m.calls[r'])
  {
  }

  /** The handler table holds exactly the requests between registering and unregistering, so it is
      empty whenever every caller has left, on whatever path. */
  lemma HandlersAreConserved(steps: seq<Action>)
    requires Reaches(START, steps)
    ensures var m := Run(START, steps);
      && m.handlers.Keys == set r | r in m.calls && !m.calls[r].phase.Left?
      && (forall r <- m.handlers :: m.handlers[r] == r)
      && ((forall r <- m.calls :: m.calls[r].phase.Left?) ==> m.handlers == map[])
  {
    var m := Run(START, steps);
    StartInv();
    RunKeepsInv(START, steps);
    forall r | r in m.calls ensures r in m.handlers <==> !m.calls[r].phase.Left? {
      assert CallOk(m, r);
    }
    AllHandlersOwn(m);
  }

  // ----- What can happen -----

  lemma PushingIsAll(m: State, c: nat)
    requires c in m.conns && m.conns[c].recvHand.Pushing? && m.conns[c].recvHand.owner in m.calls
    ensures Enabled(m, RecvPush(c)) <==> |m.calls[m.conns[c].recvHand.owner].buffer| < 16
    ensures !Enabled(m, RecvTake(c)) && !Enabled(m, RecvLook(c)) && !Enabled(m, Hangup(c))
  {
  }

  /** In every reachable state a receive loop with a response for a caller can go on exactly if that caller's
      buffer holds fewer than 16, and until then does nothing else: a buffer nobody empties holds up all
      requests on its connection. */
  lemma FullBufferHoldsUp(steps: seq<Action>, c: nat)
    requires Reaches(START, steps)
    requires c in Run(START, steps).conns && Run(START, steps).conns[c].recvHand.Pushing?
    ensures var m := Run(START, steps); var r := m.conns[c].recvHand.resp.requestID;
      && r in m.calls && (Enabled(m, RecvPush(c)) <==> |m.calls[r].buffer| < 16)
      && !Enabled(m, RecvTake(c)) && !Enabled(m, RecvLook(c)) && !Enabled(m, Hangup(c))
  {
    hide Inv, Run, Reaches, Enabled;
    StartInv();
    RunKeepsInv(START, steps);
    HandOwner(Run(START, steps), c);
    PushingIsAll(Run(START, steps), c);
  }

  /** A connection with nothing under way. */
  predicate AtRest(n: Conn) {
    n.sending && n.sendHand == [] && n.queue == [] && n.receiving && n.recvHand.Idle? && n.inbound == []
  }

  /** Everything but one connection and one call as it was. */
  predicate Changed(m: State, m': State, c: nat, n: Conn, r: string, k: Call) {
    m'.localAgents == m.localAgents && m'.conns == m.conns[c := n] && m'.calls == m.calls[r := k]
  }

  lemma BeganIs(m: State, r: string, t: string, id: string)
    requires r !in m.calls
    ensures Enabled(m, Begin(r, t, id))
    ensures Next(m, Begin(r, t, id))
            == State(m.localAgents, m.conns, m.handlers[r := r], m.calls[r := Call(t, id, Registered, None, [], [])])
  {
  }

  lemma FoundHere(m: State, r: string, c: nat)
    requires r in m.calls && m.calls[r].phase.Registered?
    requires m.calls[r].agentID in m.localAgents && m.localAgents[m.calls[r].agentID] == c
    ensures Enabled(m, Find(r)) && Next(m, Find(r)) == m.(calls := m.calls[r := m.calls[r].(phase := Sending(c))])
  {
  }

  lemma QueuedIs(m: State, r: string, c: nat)
    requires r in m.calls && m.calls[r].phase == Sending(c) && c in m.conns && m.conns[c].queue == []
    ensures var n := m.conns[c];
      && Enabled(m, Enqueue(r))
      && Next(m, Enqueue(r))
         == m.(conns := m.conns[c := n.(queue := n.queue + [r], accepted := n.accepted + [r])],
               calls := m.calls[r := m.calls[r].(phase := Waiting, conn := Some(c))])
  {
  }

  lemma CanQueue(m: State, c: nat, id: string, t: string, r: string) returns (m': State)
    requires r !in m.calls && id in m.localAgents && m.localAgents[id] == c && c in m.conns && AtRest(m.conns[c])
    ensures Path(m, [Begin(r, t, id), Find(r), Enqueue(r)], m') && r in m'.handlers && m'.handlers[r] == r
    ensures Changed(m, m', c, m.conns[c].(queue := [r], accepted := m.conns[c].accepted + [r]), r,
                    Call(t, id, Waiting, Some(c), [], []))
  {
    hide Next, Enabled, Path;
    BeganIs(m, r, t, id);
    var m1 := Next(m, Begin(r, t, id));
    FoundHere(m1, r, c);
    var m2 := Next(m1, Find(r));
    QueuedIs(m2, r, c);
    m' := Next(m2, Enqueue(r));
    assert m.conns[c].queue + [r] == [r];
    assert m'.calls == m.calls[r := Call(t, id, Waiting, Some(c), [], [])];
    OneStep(m, Begin(r, t, id));
    PathThen(m, [Begin(r, t, id)], m1, Find(r));
    PathThen(m, [Begin(r, t, id)] + [Find(r)], m2, Enqueue(r));
    assert [Begin(r, t, id)] + [Find(r)] + [Enqueue(r)] == [Begin(r, t, id), Find(r), Enqueue(r)];
  }

  lemma CanSend(m: State, c: nat, r: string) returns (m': State)
    requires c in m.conns && m.conns[c].sending && m.conns[c].sendHand == [] && m.conns[c].queue == [r]
    ensures Path(m, [SendTake(c), SendOut(c)], m')
    ensures m' == m.(conns := m.conns[c := m.conns[c].(queue := [], sent := m.conns[c].sent + [r])])
  {
    var m1 := Next(m, SendTake(c));
    assert Enabled(m, SendTake(c)) && Enabled(m1, SendOut(c));
    m' := Next(m1, SendOut(c));
    assert [r][1..] == [];
    assert m'.conns == m.conns[c := m.conns[c].(queue := [], sent := m.conns[c].sent + [r])];
    hide Next, Enabled, Path;
    OneStep(m, SendTake(c));
    PathThen(m, [SendTake(c)], m1, SendOut(c));
    assert [SendTake(c)] + [SendOut(c)] == [SendTake(c), SendOut(c)];
  }

  lemma CanReceive(m: State, c: nat, x: AgentResponse) returns (m': State)
    requires c in m.conns && m.conns[c].receiving && m.conns[c].recvHand.Idle? && m.conns[c].inbound == []
    requires x.requestID in m.conns[c].sent
    ensures Path(m, [Emit(c, x), RecvTake(c)], m')
    ensures m'.localAgents == m.localAgents && m'.handlers == m.handlers && m'.calls == m.calls
    ensures m'.conns
            == m.conns[c := m.conns[c].(delivered := m.conns[c].delivered + [x], recvHand := Looking(x))]
  {
    var m1 := Next(m, Emit(c, x));
    assert Enabled(m, Emit(c, x)) && Enabled(m1, RecvTake(c));
    m' := Next(m1, RecvTake(c));
    assert [] + [x] == [x] && [x][1..] == [];
    assert m'.conns == m.conns[c := m.conns[c].(delivered := m.conns[c].delivered + [x], recvHand := Looking(x))];
    hide Next, Enabled, Path;
    OneStep(m, Emit(c, x));
    PathThen(m, [Emit(c, x)], m1, RecvTake(c));
    assert [Emit(c, x)] + [RecvTake(c)] == [Emit(c, x), RecvTake(c)];
  }

  lemma CanHandle(m: State, c: nat, x: AgentResponse) returns (m': State)
    requires c in m.conns && m.conns[c].recvHand == Looking(x)
    requires x.requestID in m.handlers && m.handlers[x.requestID] == x.requestID && x.requestID in m.calls
    requires m.calls[x.requestID].phase.Waiting? && m.calls[x.requestID].buffer == []
    ensures Path(m, [RecvLook(c), RecvPush(c)], m')
    ensures Changed(m, m', c, m.conns[c].(recvHand := Idle), x.requestID, m.calls[x.requestID].(buffer := [x]))
  {
    var m1 := Next(m, RecvLook(c));
    assert Enabled(m, RecvLook(c)) && Enabled(m1, RecvPush(c));
    m' := Next(m1, RecvPush(c));
    assert [] + [x] == [x];
    assert m'.conns == m.conns[c := m.conns[c].(recvHand := Idle)];
    hide Next, Enabled, Path;
    OneStep(m, RecvLook(c));
    PathThen(m, [RecvLook(c)], m1, RecvPush(c));
    assert [RecvLook(c)] + [RecvPush(c)] == [RecvLook(c), RecvPush(c)];
  }

  lemma CanTake(m: State, r: string, x: AgentResponse) returns (m': State)
    requires r in m.calls && m.calls[r].phase.Waiting? && m.calls[r].buffer == [x] && m.calls[r].consumed == []
    ensures Path(m, [Take(r)], m') && m'.conns == m.conns
    ensures r in m'.calls && m'.calls[r].consumed == [x]
  {
    m' := Next(m, Take(r));
    assert [] + [x] == [x];
    OneStep(m, Take(r));
    hide Path;
  }

  /** The pipeline is not stuck: from every state in which the agent asked for has a connection with nothing
      under way, a request begun now can be queued, sent, answered and taken, step by step, and leaves the
      connection at rest again. */
  lemma RequestCanBeAnswered(m: State, id: string, t: string, x: AgentResponse)
    returns (path: seq<Action>, m': State)
    requires x.requestID !in m.calls && id in m.localAgents && m.localAgents[id] in m.conns
    requires AtRest(m.conns[m.localAgents[id]])
    ensures var c, r := m.localAgents[id], x.requestID;
      && path == [Begin(r, t, id), Find(r), Enqueue(r), SendTake(c), SendOut(c), Emit(c, x), RecvTake(c),
                  RecvLook(c), RecvPush(c), Take(r)]
      && Path(m, path, m') && r in m'.calls && m'.calls[r].consumed == [x] && c in m'.conns && AtRest(m'.conns[c])
  {
    hide Next, Enabled, Path;
    var c, r := m.localAgents[id], x.requestID;
    var m1 := CanQueue(m, c, id, t, r);
    var m2 := CanSend(m1, c, r);
    var m3 := CanReceive(m2, c, x);
    var m4 := CanHandle(m3, c, x);
    m' := CanTake(m4, r, x);
    PathJoin(m, [Begin(r, t, id), Find(r), Enqueue(r)], m1, [SendTake(c), SendOut(c)], m2);
    PathJoin(m2, [Emit(c, x), RecvTake(c)], m3, [RecvLook(c), RecvPush(c)], m4);
    PathJoin(m2, [Emit(c, x), RecvTake(c)] + [RecvLook(c), RecvPush(c)], m4, [Take(r)], m');
    var first := [Begin(r, t, id), Find(r), Enqueue(r)] + [SendTake(c), SendOut(c)];
    var second := [Emit(c, x), RecvTake(c)] + [RecvLook(c), RecvPush(c)] + [Take(r)];
    PathJoin(m, first, m2, second, m');
    path := first + second;
  }
}
