/** The chat handler (internal/handler/chat.go): which agent a request goes to and by which way, what
    its client is sent, and which session it leaves behind. */
module Chat {
  import opened Basics
  import Decimal
  import opened Keys
  import opened Proto
  import opened OpenAI
  import opened RedisModel
  import opened Answers
  import Sse
  import R = Registry
  import S = Sessions
  import G = Gateways
  import GatewayForwarder
  import AgentPool
  import SessionManager
  import Routing
  import Balance
  import Runs
  import RunProperties
  import RegistryProperties
  import Mux
  import AgentServer
  import Callers
  import Forwarding

  // ----- The handler -----

  /** Where a request goes. `existing`: the session it named is live and of its model. */
  datatype Target = Target(agentID: string, rawSessionID: string, agentType: string, existing: bool)

  /** The live session a request may continue: the one it names, if that is for its model. */
  predicate Continues(s: Store, header: string, model: string) {
    header != "" && S.Lookup(s, header).Ok? && S.Lookup(s, header).value.agentType == model
  }

  /** A new request: it goes to a best agent of a scan and is counted for it, or there is no online
      agent at all. */
  ghost predicate RoutedTo(s: Store, s': Store, model: string, r: Result<Target, Routing.RouteError>) {
    match r
    case Ok(target) =>
      && !target.existing && target.agentType == model && target.rawSessionID == ""
      && R.Lookup(s, model, target.agentID).Ok?
      && Routing.Best(s, model, R.Scan(s, model), Ok(R.Lookup(s, model, target.agentID).value))
      && s' == Balance.Dispatch(s, model, target.agentID)
    case Err(e) =>
      && e.NoAgentAvailable? && s' == R.Prune(s, model)
      && forall i <- R.Scan(s, model) :: !Routing.Online(s, model, i)
  }

  /** A request that continues a live session: it goes to that session's agent with the raw id the
      composite one was made from, and renews the session. */
  ghost predicate ContinuedTo(s: Store, s': Store, sid: string, model: string, ttl: nat,
                 r: Result<Target, Routing.RouteError>) {
    && r.Ok? && r.value.existing && S.Lookup(s, sid).Ok? && r.value.agentID == S.Lookup(s, sid).value.agentID
    && r.value.agentType == model && Compose(r.value.agentType, r.value.rawSessionID) == sid
    && s' == S.Touch(s, sid, ttl)
  }

  datatype DialError = AgentLookup(error: R.Error) | GatewayLookup

  /** The address advertised by the gateway the agent's hash names. */
  function Dialed(s: Store, t: string, i: string): Result<string, DialError> {
    match R.Lookup(s, t, i)
    case Err(e) => Err(AgentLookup(e))
    case Ok(info) =>
      match G.LookupInstance(s, info.gatewayInstance)
      case Err(_) => Err(GatewayLookup)
      case Ok(addr) => Ok(addr)
  }

  datatype Wake = Arrived | TimerFired | ClientLeft

  /** The first turn of a loop's own that is not for a response. */
  predicate WokenAt(turns: seq<Mux.Turn<Wake>>, n: int) {
    && 0 <= n < |turns| && turns[n].Mine? && turns[n].turn != Arrived
    && forall k :: 0 <= k < n && turns[k].Mine? ==> turns[k].turn == Arrived
  }

  /** How the wait on a local agent ends without a final response: as its first such turn says, and with none
      not yet. Its channel is never closed. */
  ghost predicate EndsAsWoken(turns: seq<Mux.Turn<Wake>>, o: Outcome) {
    && o != ChannelClosed
    && (o == TimedOut ==> exists n :: WokenAt(turns, n) && turns[n].turn == TimerFired)
    && (o == ClientGone ==> exists n :: WokenAt(turns, n) && turns[n].turn == ClientLeft)
    && (o == Pending ==> forall n :: !WokenAt(turns, n))
  }

  /** How the wait on a relay ends, and with how many responses: each wake until the first that is not for one
      takes the next response; a final one ends it, and so do a channel with none left and another wake. */
  ghost predicate EndsAsRelayed(wakes: seq<Wake>, seen: seq<AgentResponse>, o: Outcome) {
    && |seen| <= |wakes| && (forall k :: 0 <= k < |seen| ==> wakes[k] == Arrived)
    && (o == Pending ==> |seen| == |wakes| && !Finished(seen))
    && (o == TimedOut ==> |seen| < |wakes| && wakes[|seen|] == TimerFired)
    && (o == ClientGone ==> |seen| < |wakes| && wakes[|seen|] == ClientLeft)
    && (o == ChannelClosed ==> |seen| < |wakes| && wakes[|seen|] == Arrived)
    && (o == Final <==> Finished(seen))
  }

  /** A local request is over: its handler is gone, and what its loop was given is a beginning of the
      answer that came over its connection, and all of it behind a final response. */
  ghost predicate Served(m: Mux.State, r: string, t: Target, events: seq<Event>) {
    && r in m.calls && m.calls[r].phase.Left? && r !in m.handlers
    && m.calls[r].agentID == t.agentID && m.calls[r].wanted == t.agentType
    && (m.calls[r].conn.Some? ==> Mux.ConnOfAgent(m, m.calls[r].conn.value, t.agentID))
    && Seen(events) <= Mux.Answer(m, r)
    && (OutcomeOf(events) == Final ==> Seen(events) == Mux.Answer(m, r))
  }

  /** What a loop at the end of a relay may be given: a beginning of what arrived on the stream between the
      gateways up to a final response, and all of it behind one; and its channel closes on it without
      one only if the stream ended without one. */
  ghost predicate FromRelay(arrived: seq<AgentResponse>, events: seq<Event>) {
    && Seen(events) <= UpToDone(arrived)
    && (OutcomeOf(events) == Final ==> Seen(events) == UpToDone(arrived))
    && (OutcomeOf(events) == ChannelClosed ==> Seen(events) == arrived && forall x <- arrived :: !x.done)
  }

  /** A client that continues a session has its header sent back. */
  function Greeted(w: Written, t: Target, sent: string): Written {
    if t.existing then w.(sessionHeader := sent) else w
  }

  /** What a client sees of a request that was sent, by itself and by the header it continues. */
  lemma ClientSees(w: Written, t: Target, id: string, stream: bool, es: seq<Event>,
                   marshal: ChatCompletionChunk -> string, quote: string -> string)
    ensures var w' := Responded(Greeted(w, t, id), stream, id, t.agentType, es, marshal, quote);
      && (stream ==> w'.reply == w.reply && w.body <= w'.body)
      && (!stream ==> w'.body == w.body && (OutcomeOf(es) != Final ==> w'.reply == w.reply))
      && (!stream && OutcomeOf(es) == Final ==> w'.reply.Some? && w'.reply.value.model == t.agentType)
      && ((forall x <- Seen(es) :: x.sessionID == "") ==>
            w'.sessionHeader == if t.existing then id else w.sessionHeader)
      && (forall k | NamedFirst(Seen(es), k) ::
            var named := Compose(t.agentType, Seen(es)[k].sessionID);
            w'.sessionHeader == if stream || t.existing || named != id then named else w.sessionHeader)
  {
    HeaderIsTold(Greeted(w, t, id), stream, id, t.agentType, es, marshal, quote);
    hide Seen, OutcomeOf, Compose, HeaderAfter, WireWritten, BodyWritten, SingleReply, NamedFirst;
    assert w.body + "" == w.body;
  }

  class ChatHandler {
    const client: Redis
    const sessionMgr: SessionManager.Manager
    const pool: AgentPool.Pool
    const router: Routing.Router
    const forwarder: GatewayForwarder.Forwarder
    const server: AgentServer.GRPCServer
    const gatewayInstance: string
    const marshal: ChatCompletionChunk -> string
    const quote: string -> string

    constructor (client: Redis, sessionMgr: SessionManager.Manager, pool: AgentPool.Pool, router: Routing.Router,
                 forwarder: GatewayForwarder.Forwarder, server: AgentServer.GRPCServer, gatewayInstance: string,
                 marshal: ChatCompletionChunk -> string, quote: string -> string)
      ensures this.client == client && this.sessionMgr == sessionMgr && this.pool == pool && this.router == router
      ensures this.forwarder == forwarder && this.server == server
      ensures this.gatewayInstance == gatewayInstance && this.marshal == marshal && this.quote == quote
    {
      this.client := client;
      this.sessionMgr := sessionMgr;
      this.pool := pool;
      this.router := router;
      this.forwarder := forwarder;
      this.server := server;
      this.gatewayInstance := gatewayInstance;
      this.marshal := marshal;
      this.quote := quote;
    }

    function Leases(): Runs.Config {
      Runs.Config(pool.TTL(), sessionMgr.ttl, forwarder.ttl)
    }

    /** One client behind every component, and a store in order. */
    ghost predicate Valid()
      reads client
    {
      && sessionMgr.client == client && pool.client == client && router.pool == pool && forwarder.client == client
      && client.Valid() && Runs.Inv(client.view, Leases())
    }

    /** The session written for the responses of one request. */
    ghost function WithSession(s: Store, sent: string, agentID: string, agentType: string,
                               rs: seq<AgentResponse>): Store {
      match SessionWrite(sent, agentType, rs)
      case None => s
      case Some(raw) => S.CreateWithID(s, raw, agentID, agentType, gatewayInstance, sessionMgr.ttl)
    }

    static lemma RoutedType(s: Store, model: string, i: string, a: R.AgentInfo, ttl: nat)
      requires R.Inv(s, ttl) && R.Lookup(s, model, i) == Ok(a)
      ensures a.agentType == model && ColonFree(model)
    {
      RegistryProperties.LookupReads(s, model, i, ttl);
      assert Fits(Agent(model, i), s.keys[Agent(model, i)], s.now);
    }

    method RouteNew(x: Exchange, model: string) returns (r: Result<Target, Routing.RouteError>)
      requires Valid()
      modifies client, x`errors, x`wireHeader
      ensures Valid()
      ensures RoutedTo(old(client.view), client.view, model, r)
      ensures r.Ok? ==> ColonFree(model)
      ensures x.State() == if r.Ok? then old(x.State()) else WithError(old(x.State()), ServiceUnavailable)
    {
      ghost var s := client.view;
      Runs.StepKeepsInv(s, Leases(), Runs.ListByType(model));
      var routed := router.Route(model);
      if routed.Err? {
        x.RespondError(ServiceUnavailable);
        return Err(routed.error);
      }
      var a := routed.value;
      RoutedType(s, model, a.id, a, pool.TTL());
      Runs.StepKeepsInv(client.view, Leases(), Runs.AddSessions(model, a.id, 1));
      hide Runs.Inv, Renders, WellKinded, Routing.Best, R.Lookup, R.Scan, R.Prune, R.AddSessions;
      var _ := pool.IncrActiveSessions(a.agentType, a.id);
      r := Ok(Target(a.id, "", a.agentType, false));
    }

    /** A request that continues a live session goes to the session's agent, with the raw id cut from
        the composite one; any other goes to a least loaded online agent and is counted for it. */
    method ResolveAgent(x: Exchange, model: string) returns (r: Result<Target, Routing.RouteError>)
      requires Valid()
      modifies client, x`errors, x`wireHeader
      ensures Valid()
      ensures if Continues(old(client.view), x.requestSessionID, model)
              then ContinuedTo(old(client.view), client.view, x.requestSessionID, model, sessionMgr.ttl, r)
              else RoutedTo(old(client.view), client.view, model, r)
      ensures r.Ok? ==> ColonFree(r.value.agentType)
      ensures x.State() == if r.Ok? then old(x.State()) else WithError(old(x.State()), ServiceUnavailable)
    {
      var sid := x.requestSessionID;
      ghost var s := client.view;
      if sid != "" {
        var sess := sessionMgr.Get(sid);
        if sess.Ok? && sess.value.agentType == model {
          S.HeaderRoundTrip(s, sid, sessionMgr.ttl);
          ComposeSplit(sid);
          Runs.StepKeepsInv(s, Leases(), Runs.TouchSession(sid));
          hide Runs.Inv, Renders, WellKinded, S.Touch;
          var _ := sessionMgr.Touch(sid);
          var parts := SplitAgentMember(sid);
          return Ok(Target(sess.value.agentID, parts.tail, sess.value.agentType, true));
        }
      }
      r := RouteNew(x, model);
    }

    /** Binds the agent's session to the agent, under the type it was asked for, and tells the client. */
    method EnsureSession(x: Exchange, agentID: string, agentType: string, raw: string)
      requires Valid() && ColonFree(agentType) && raw != ""
      modifies client, x`sessionHeader
      ensures Valid()
                && client.view
                    == S.CreateWithID(old(client.view), raw, agentID, agentType, gatewayInstance, sessionMgr.ttl)
      ensures x.sessionHeader == Compose(agentType, raw)
    {
      Runs.StepKeepsInv(client.view, Leases(), Runs.CreateSession(raw, agentID, agentType, gatewayInstance));
      hide Runs.Inv, Renders, WellKinded, S.CreateWithID;
      var sess := sessionMgr.CreateWithID(raw, agentID, agentType, gatewayInstance);
      x.Header(sess.id);
    }

    /** Both loops: the first session id the agent reports is written, unless the client sent it. */
    method NoteSession(x: Exchange, agentID: string, agentType: string, resp: AgentResponse, handled: bool,
                       streaming: bool,
                       ghost s: Store, ghost before: string, ghost rs: seq<AgentResponse>)
      returns (nowHandled: bool)
      requires Valid() && ColonFree(agentType)
      requires client.view == WithSession(s, x.requestSessionID, agentID, agentType, rs)
      requires x.sessionHeader == HeaderAfter(streaming, before, x.requestSessionID, agentType, rs)
      requires handled <==> FirstSession(rs) != ""
      modifies client, x`sessionHeader
      ensures Valid()
      ensures client.view == WithSession(s, x.requestSessionID, agentID, agentType, rs + [resp])
      ensures x.sessionHeader == HeaderAfter(streaming, before, x.requestSessionID, agentType, rs + [resp])
      ensures nowHandled <==> FirstSession(rs + [resp]) != ""
    {
      OneMoreResponse(rs, resp);
      hide Runs.Inv, Renders, WellKinded, S.CreateWithID, Compose, FirstSession;
      nowHandled := handled;
      if !handled && resp.sessionID != "" {
        var id := Compose(agentType, resp.sessionID);
        if streaming {
          x.Header(id);
        }
        if x.requestSessionID != id {
          EnsureSession(x, agentID, agentType, resp.sessionID);
        }
        nowHandled := true;
      }
    }

    lemma NothingNoted(s: Store, sent: string, agentID: string, agentType: string, before: string, streaming: bool)
      ensures WithSession(s, sent, agentID, agentType, []) == s
      ensures HeaderAfter(streaming, before, sent, agentType, []) == before
      ensures FirstSession([]) == "" && Texts([]) == ""
    {
    }

    /** The loop of a request without streaming: it gathers content up to the final response. */
    method CollectNonStreamResponse(x: Exchange, agentID: string, agentType: string, events: seq<Event>)
      returns (final: Option<AgentResponse>)
      requires Valid() && ColonFree(agentType)
      modifies client, x`sessionHeader, x`errors, x`wireHeader
      ensures Valid()
      ensures client.view == WithSession(old(client.view), x.requestSessionID, agentID, agentType, Seen(events))
      ensures x.sessionHeader == HeaderAfter(false, old(x.sessionHeader), x.requestSessionID, agentType, Seen(events))
      ensures final == if OutcomeOf(events) == Final then Some(SingleReply(Seen(events), quote)) else None
      ensures x.errors == old(x.errors) + ErrorsWritten(events, false)
      ensures x.wireHeader == if old(x.wireHeader).Some? || ErrorsWritten(events, false) == [] then old(x.wireHeader)
                              else Some(x.sessionHeader)
    {
      hide Valid, WithSession, HeaderAfter, FirstSession, SessionWrite, TakenBy, Seen, OutcomeOf, Texts;
      var content, sessionHandled := "", false;
      ghost var rs: seq<AgentResponse> := [];
      ghost var s, before := client.view, x.sessionHeader;
      NothingNoted(s, x.requestSessionID, agentID, agentType, before, false);
      TakeStart(events);
      for n := 0 to |events|
        invariant Valid() && client.view == WithSession(s, x.requestSessionID, agentID, agentType, rs)
        invariant TakenBy(events, n, rs)
        invariant sessionHandled <==> FirstSession(rs) != ""
        invariant content == Texts(rs)
        invariant x.sessionHeader == HeaderAfter(false, before, x.requestSessionID, agentType, rs)
        invariant x.errors == old(x.errors) && x.wireHeader == old(x.wireHeader)
      {
        if !events[n].Response? {
          TakeNone(events, n, rs);
          x.RespondError(if events[n].Closed? then ServiceUnavailable else TimeoutError);
          return None;
        }
        var resp := events[n].resp;
        OneMoreResponse(rs, resp);
        TakeOne(events, n, rs);
        sessionHandled := NoteSession(x, agentID, agentType, resp, sessionHandled, false, s, before, rs);
        content := content + Text(resp);
        rs := rs + [resp];
        if resp.done {
          var message := Message("assistant", quote(content + Body(resp)));
          return Some(AgentResponse(resp.requestID, resp.sessionID, message, true));
        }
      }
      TakeNone(events, |events|, rs);
      final := None;
    }

    lemma NothingWritten(before: string, agentType: string, body: string)
      ensures WireFor(before, agentType, []) == None && body + StreamBody([], agentType, marshal) == body
    {
    }

    /** The body when no final response has come: the frames so far, with or without the terminator. */
    lemma Ended(rs: seq<AgentResponse>, agentType: string)
      ensures Sse.Frames(Payloads(Emitted(rs, agentType), marshal) + [Sse.DONE])
                == StreamBody(rs, agentType, marshal) + Sse.Frame(Sse.DONE)
      ensures Sse.Frames(Payloads(Emitted(rs, agentType), marshal) + []) == StreamBody(rs, agentType, marshal)
    {
      Sse.FramesAppend(Payloads(Emitted(rs, agentType), marshal), Sse.DONE);
      assert Payloads(Emitted(rs, agentType), marshal) + [] == Payloads(Emitted(rs, agentType), marshal);
    }

    static lemma Joined(a: string, b: string, c: string, d: string)
      ensures a + b + c == a + (b + c) && a + b + c + d == a + (b + c + d)
      ensures c == "" ==> b + c == b
    {
    }

    /** The streaming loop: one frame per response with something to say, a finish frame for the final
        one, and the terminator when the answer is over. */
    method WriteStreamResponses(x: Exchange, agentID: string, agentType: string, events: seq<Event>)
      requires Valid() && ColonFree(agentType)
      modifies client, x`sessionHeader, x`errors, x`wireHeader, x`body
      ensures Valid()
      ensures client.view == WithSession(old(client.view), x.requestSessionID, agentID, agentType, Seen(events))
      ensures x.sessionHeader == HeaderAfter(true, old(x.sessionHeader), x.requestSessionID, agentType, Seen(events))
      ensures x.body == old(x.body) + BodyWritten(events, agentType, marshal)
      ensures x.errors == old(x.errors) + ErrorsWritten(events, true)
      ensures x.wireHeader == if old(x.wireHeader).Some? then old(x.wireHeader)
                              else WireWritten(old(x.sessionHeader), agentType, events)
    {
      hide Valid, WithSession, FirstSession, SessionWrite, TakenBy, Seen, OutcomeOf, StreamBody, WireFor,
        Payloads, Sse.Frames, Sse.Frame, Compose, Emitted;
      var sessionHandled := false;
      ghost var rs: seq<AgentResponse> := [];
      ghost var s, before, wire, body := client.view, x.sessionHeader, x.wireHeader, x.body;
      NothingNoted(s, x.requestSessionID, agentID, agentType, before, true);
      NothingWritten(before, agentType, body);
      TakeStart(events);
      for n := 0 to |events|
        invariant Valid() && client.view == WithSession(s, x.requestSessionID, agentID, agentType, rs)
        invariant TakenBy(events, n, rs)
        invariant sessionHandled <==> FirstSession(rs) != ""
        invariant x.sessionHeader == HeaderAfter(true, before, x.requestSessionID, agentType, rs)
        invariant x.body == body + StreamBody(rs, agentType, marshal)
        invariant x.errors == old(x.errors)
        invariant x.wireHeader == if wire.Some? then wire else WireFor(before, agentType, rs)
      {
        if !events[n].Response? {
          TakeNone(events, n, rs);
          Ended(rs, agentType);
          if events[n].Closed? {
            assert body + StreamBody(rs, agentType, marshal) + Sse.Frame(Sse.DONE)
                == body + (StreamBody(rs, agentType, marshal) + Sse.Frame(Sse.DONE));
            x.Write(Sse.Frame(Sse.DONE));
          } else if events[n].Timeout? {
            x.RespondError(TimeoutError);
          }
          return;
        }
        var resp := events[n].resp;
        OneMoreFrame(rs, resp, before, agentType, marshal);
        TakeOne(events, n, rs);
        sessionHandled := NoteSession(x, agentID, agentType, resp, sessionHandled, true, s, before, rs);
        if resp.done {
          var finish := Sse.Frame(marshal(FromAgentResponseChunk(resp, agentType)));
          Joined(body, StreamBody(rs, agentType, marshal), finish, Sse.Frame(Sse.DONE));
          x.Write(finish);
          x.Write(Sse.Frame(Sse.DONE));
          return;
        }
        if Text(resp) != "" || Reasoning(resp) != "" {
          var frame := Sse.Frame(marshal(MakeDeltaChunk(resp.requestID, agentType, Text(resp), Reasoning(resp))));
          Joined(body, StreamBody(rs, agentType, marshal), frame, "");
          x.Write(frame);
        } else {
          Joined(body, StreamBody(rs, agentType, marshal), "", "");
        }
        rs := rs + [resp];
      }
      TakeNone(events, |events|, rs);
      Ended(rs, agentType);
    }

    static lemma NoBody(body: string)
      ensures body + "" == body
    {
    }

    /** The rest of a request once its responses come in, through either loop. */
    method Respond(x: Exchange, target: Target, stream: bool, events: seq<Event>)
      requires Valid() && ColonFree(target.agentType)
      modifies client, x
      ensures Valid()
      ensures client.view
                == WithSession(old(client.view), x.requestSessionID, target.agentID, target.agentType, Seen(events))
      ensures x.State()
                == Responded(old(x.State()), stream, x.requestSessionID, target.agentType, events, marshal, quote)
    {
      hide Valid, WithSession, HeaderAfter, Seen, OutcomeOf, WireWritten, BodyWritten;
      if stream {
        WriteStreamResponses(x, target.agentID, target.agentType, events);
      } else {
        var final := CollectNonStreamResponse(x, target.agentID, target.agentType, events);
        NoBody(x.body);
        if final.Some? {
          x.JSON(FromAgentResponse(final.value, target.agentType));
        }
      }
    }

    static lemma EndsAs(end: Event)
      requires !end.Response?
      ensures OutcomeOf(EventsOf([], Some(end))) ==
                if end.Timeout? then TimedOut else if end.Closed? then ChannelClosed else ClientGone
    {
    }

    static lemma NoEnd()
      ensures OutcomeOf(EventsOf([], None)) == Pending
    {
    }

    /** The wait on a local agent's buffer, everybody else going on: responses in order up to a final one,
        the timer, or the client leaving. Left alone with turns enough it takes what is buffered. */
    method AwaitResponses(r: string, turns: seq<Mux.Turn<Wake>>, ghost start: Mux.State, ghost before: seq<Mux.Action>)
      returns (events: seq<Event>, ghost steps: seq<Mux.Action>)
      requires server.Valid() && r in server.calls && server.calls[r].phase.Waiting? && server.calls[r].consumed == []
      requires Mux.Path(start, before, server.Model()) && Callers.OfCaller(before, r, turns)
      modifies server
      ensures server.Valid() && r in server.calls && Mux.Path(start, steps, server.Model())
                && Callers.OfCaller(steps, r, turns)
      ensures Callers.SameCall(old(server.calls)[r], server.calls[r])
      ensures Seen(events) == server.calls[r].consumed && EndsAsWoken(turns, OutcomeOf(events))
      ensures OutcomeOf(events) == Final <==> Finished(server.calls[r].consumed)
      ensures Callers.Alone(turns, Arrived) && |turns| >= |old(server.calls)[r].buffer| ==>
                Seen(events) == UpToDone(old(server.calls)[r].buffer)
    {
      hide Mux.Inv, Mux.Path, Callers.OfCaller, Callers.Alone, Callers.Draining, Callers.SameCall, Seen, OutcomeOf;
      var rs: seq<AgentResponse> := [];
      steps := before;
      ghost var had := server.calls[r].buffer;
      Callers.DrainStart(had);
      Callers.SameAsItself(server.calls[r]);
      for n := 0 to |turns|
        invariant Mux.Inv(server.Model()) && r in server.calls && server.calls[r].phase.Waiting?
                  && server.calls[r].consumed == rs
        invariant Mux.Path(start, steps, server.Model()) && Callers.OfCaller(steps, r, turns)
        invariant Callers.SameCall(old(server.calls)[r], server.calls[r])
        invariant forall x <- rs :: !x.done
        invariant forall k :: 0 <= k < n && turns[k].Mine? ==> turns[k].turn == Arrived
        invariant Callers.Alone(turns, Arrived) ==> Callers.Draining(had, rs, server.calls[r].buffer, n)
      {
        ghost var was := server.calls[r];
        Callers.AloneTurn(turns, Arrived, n);
        match turns[n]
        case Others(a) =>
          steps := Callers.LetOthers(server, r, a, turns, start, steps);
          Callers.StillSame(old(server.calls)[r], was, server.calls[r]);
        case Mine(Arrived) =>
          if server.calls[r].buffer == [] {
            Callers.DrainIdle(had, rs, n);
          } else {
            var x;
            x, steps := Callers.Pop(server, r, turns, start, steps);
            Callers.StillSame(old(server.calls)[r], was, server.calls[r]);
            Callers.DrainPop(had, rs, n, x, server.calls[r].buffer);
            rs := rs + [x];
            if x.done {
              EventsAreSeen(rs, None);
              return EventsOf(rs, None), steps;
            }
          }
        case Mine(wake) =>
          var end := if wake == TimerFired then Timeout else Cancelled;
          EventsAreSeen(rs, Some(end));
          EndsAs(end);
          assert WokenAt(turns, n);
          return EventsOf(rs, Some(end)), steps;
      }
      Callers.DrainEnd(had, rs, server.calls[r].buffer, |turns|);
      EventsAreSeen(rs, None);
      NoEnd();
      events := EventsOf(rs, None);
    }

    static lemma ServedNothing(m: Mux.State, r: string, t: Target)
      requires Mux.Inv(m) && r in m.calls && m.calls[r].phase.Left? && r !in m.handlers
      requires m.calls[r].agentID == t.agentID && m.calls[r].wanted == t.agentType
      ensures Served(m, r, t, [])
    {
      Mux.ConsumedIsAnswer(m, r);
    }

    static lemma ServedAnswer(m: Mux.State, r: string, t: Target, events: seq<Event>)
      requires Mux.Inv(m) && r in m.calls && m.calls[r].phase.Left? && r !in m.handlers
      requires m.calls[r].agentID == t.agentID && m.calls[r].wanted == t.agentType
      requires Seen(events) == m.calls[r].consumed && (OutcomeOf(events) == Final <==> Finished(m.calls[r].consumed))
      ensures Served(m, r, t, events)
    {
      Mux.ConsumedIsAnswer(m, r);
    }

    /** A local request once it is sent: await, write, unregister. */
    method FinishLocal(x: Exchange, target: Target, stream: bool, r: string, turns: seq<Mux.Turn<Wake>>,
                       ghost start: Mux.State, ghost before: seq<Mux.Action>)
      returns (events: seq<Event>, ghost steps: seq<Mux.Action>)
      requires Valid() && ColonFree(target.agentType) && server.Valid()
      requires r in server.calls && server.calls[r].phase.Waiting? && server.calls[r].consumed == []
      requires server.calls[r].agentID == target.agentID && server.calls[r].wanted == target.agentType
      requires Mux.Path(start, before, server.Model()) && Callers.OfCaller(before, r, turns)
      requires Mux.AgentsHaveConns(start) && target.agentID in start.localAgents
      requires server.calls[r].conn == Some(start.localAgents[target.agentID])
      modifies client, x, server
      ensures Valid() && server.Valid()
      ensures Mux.Path(start, steps, server.Model()) && Callers.OfCaller(steps, r, turns)
      ensures Served(server.Model(), r, target, events) && r in server.calls && EndsAsWoken(turns, OutcomeOf(events))
      ensures server.calls[r].conn.Some?
      ensures Mux.AtRightAgent(server.Model(), r) <==> Mux.EntryIs(start, target.agentType, target.agentID)
      ensures client.view
                == WithSession(old(client.view), x.requestSessionID, target.agentID, target.agentType, Seen(events))
      ensures x.State()
                == Responded(old(x.State()), stream, x.requestSessionID, target.agentType, events, marshal, quote)
    {
      hide Valid, Mux.Inv, Mux.Path, Callers.OfCaller, WithSession, Responded, Seen, OutcomeOf, Served, Finished,
        EndsAsWoken, Mux.AtRightAgent, Mux.EntryIs, Mux.AgentsHaveConns;
      events, steps := AwaitResponses(r, turns, start, before);
      Respond(x, target, stream, events);
      steps := Callers.Leave(server, r, turns, start, steps);
      ServedAnswer(server.Model(), r, target, events);
      Mux.EntryDecides(start, steps, server.Model(), r);
    }

    /** A local request that could not be sent: the client is told, and the handler unregistered. */
    method GiveUpLocal(x: Exchange, target: Target, r: string, turns: seq<Mux.Turn<Wake>>,
                       ghost start: Mux.State, ghost before: seq<Mux.Action>)
      returns (ghost steps: seq<Mux.Action>)
      requires server.Valid() && r in server.calls && server.calls[r].phase.Leaving?
      requires server.calls[r].agentID == target.agentID && server.calls[r].wanted == target.agentType
      requires Mux.Path(start, before, server.Model()) && Callers.OfCaller(before, r, turns)
      modifies x`errors, x`wireHeader, server
      ensures server.Valid() && Mux.Path(start, steps, server.Model()) && Callers.OfCaller(steps, r, turns)
      ensures Served(server.Model(), r, target, [])
      ensures x.State() == WithError(old(x.State()), ServiceUnavailable)
    {
      hide Mux.Inv, Mux.Path, Callers.OfCaller, Served;
      x.RespondError(ServiceUnavailable);
      steps := Callers.Leave(server, r, turns, start, before);
      ServedNothing(server.Model(), r, target);
    }

    /** A request to an agent connected here: its handler is registered before the request is sent, and
        unregistered on every way out. What the client gets is made of a beginning of the answer that came
        over the request's connection, and of all of it behind a final response. That connection is of
        the type asked for exactly if the entry under the agent's id is. */
    method ServeLocal(x: Exchange, target: Target, stream: bool, r: string, turns: seq<Mux.Turn<Wake>>)
      returns (sent: bool, events: seq<Event>, ghost steps: seq<Mux.Action>)
      requires Valid() && ColonFree(target.agentType) && server.Valid() && r !in server.calls
      modifies client, x, server
      ensures Valid() && server.Valid()
      ensures Mux.Path(old(server.Model()), steps, server.Model()) && Callers.OfCaller(steps, r, turns)
      ensures sent <==> Callers.Accepts(old(server.Model()), target.agentID)
      ensures Served(server.Model(), r, target, events)
      ensures sent ==> server.calls[r].conn.Some? && EndsAsWoken(turns, OutcomeOf(events))
      ensures sent ==> (Mux.AtRightAgent(server.Model(), r) <==>
                        Mux.EntryIs(old(server.Model()), target.agentType, target.agentID))
      ensures !sent ==>
                events == [] && client.view == old(client.view)
                    && x.State() == WithError(old(x.State()), ServiceUnavailable)
      ensures sent ==>
                && client.view
                    == WithSession(old(client.view), x.requestSessionID, target.agentID, target.agentType, Seen(events))
                && x.State()
                    == Responded(old(x.State()), stream, x.requestSessionID, target.agentType, events, marshal, quote)
    {
      hide Valid, Mux.Inv, Mux.Path, Mux.AtRightAgent, Mux.EntryIs, Mux.AgentsHaveConns, Callers.OfCaller, WithSession,
        Responded, WithError, Seen, OutcomeOf, Served, Finished, EndsAsWoken, Callers.Queued;
      ghost var start := server.Model();
      Mux.InvAgents(start);
      var res;
      res, steps := Callers.RegisterAndSend(server, r, target.agentType, target.agentID);
      Callers.OfCallerOnly(steps, r, turns);
      sent, events := res.Ok?, [];
      if !sent {
        steps := GiveUpLocal(x, target, r, turns, start, steps);
        return;
      }
      events, steps := FinishLocal(x, target, stream, r, turns, start, steps);
    }

    /** Where to forward a request for an agent that is not connected here. */
    method DialRemoteAgent(agentType: string, agentID: string) returns (r: Result<string, DialError>)
      requires Valid() && ColonFree(agentType)
      ensures r == Dialed(client.view, agentType, agentID)
      ensures r.Err? && r.error.AgentLookup? <==> Agent(agentType, agentID) !in client.view.keys
    {
      RegistryProperties.LookupReads(client.view, agentType, agentID, pool.TTL());
      var info := pool.Get(agentType, agentID);
      if info.Err? {
        return Err(AgentLookup(info.error));
      }
      var addr := forwarder.LookupInstance(info.value.gatewayInstance);
      if addr.Err? {
        return Err(GatewayLookup);
      }
      r := Ok(addr.value);
    }

    static lemma FinalFromRelay(arrived: seq<AgentResponse>, rs: seq<AgentResponse>, events: seq<Event>)
      requires rs <= UpToDone(arrived) && Finished(rs) && Seen(events) == rs && OutcomeOf(events) == Final
      ensures FromRelay(arrived, events) && Finished(UpToDone(arrived))
    {
      Forwarding.UpToDoneFacts(arrived);
      assert rs == UpToDone(arrived) by {
        assert UpToDone(arrived)[|rs| - 1].done;
      }
      hide Seen, OutcomeOf, UpToDone;
    }

    static lemma EndFromRelay(arrived: seq<AgentResponse>, rs: seq<AgentResponse>, events: seq<Event>)
      requires rs <= UpToDone(arrived) && (forall x <- rs :: !x.done) && Seen(events) == rs
                && OutcomeOf(events) != Final
      requires OutcomeOf(events) == ChannelClosed ==> rs == UpToDone(arrived)
      ensures FromRelay(arrived, events)
      ensures rs == UpToDone(arrived) ==> !Finished(UpToDone(arrived))
    {
      Forwarding.UpToDoneFacts(arrived);
      if OutcomeOf(events) == ChannelClosed {
        assert rs != [] ==> rs[|rs| - 1] in rs;
        Callers.DrainEnd(arrived, arrived, [], |arrived|);
        hide UpToDone;
      }
    }

    /** The wait on a relay's channel, which the relay goroutine fills with what arrives on its stream and
        closes behind a final response or the end of the stream. Each turn the loop takes a response, or
        finds the channel closed and drained, or is woken otherwise. */
    method AwaitRelayed(arrived: seq<AgentResponse>, wakes: seq<Wake>) returns (events: seq<Event>)
      ensures FromRelay(arrived, events) && EndsAsRelayed(wakes, Seen(events), OutcomeOf(events))
      ensures (forall w <- wakes :: w == Arrived) && |wakes| > |arrived| ==>
                OutcomeOf(events) == if Finished(UpToDone(arrived)) then Final else ChannelClosed
    {
      var channel := Forwarding.RelayToCaller(arrived);
      Forwarding.UpToDoneFacts(arrived);
      hide Seen, OutcomeOf, UpToDone, FromRelay;
      var rs: seq<AgentResponse> := [];
      for n := 0 to |wakes|
        invariant n <= |channel| && rs == channel[..n] && forall x <- rs :: !x.done
        invariant forall k :: 0 <= k < n ==> wakes[k] == Arrived
      {
        assert wakes[n] in wakes;
        if wakes[n] == Arrived && n < |channel| {
          rs := rs + [channel[n]];
          if channel[n].done {
            assert rs == channel[..n + 1];
            EventsAreSeen(rs, None);
            FinalFromRelay(arrived, rs, EventsOf(rs, None));
            return EventsOf(rs, None);
          }
        } else {
          var end := match wakes[n] case Arrived => Closed case TimerFired => Timeout case ClientLeft => Cancelled;
          EventsAreSeen(rs, Some(end));
          EndsAs(end);
          EndFromRelay(arrived, rs, EventsOf(rs, Some(end)));
          return EventsOf(rs, Some(end));
        }
      }
      EventsAreSeen(rs, None);
      NoEnd();
      EndFromRelay(arrived, rs, EventsOf(rs, None));
      events := EventsOf(rs, None);
    }

    /** A request to an agent connected to another gateway: `dialFails` is whether opening the stream to
        that gateway fails, `arrived` what that stream yields until it ends or breaks. */
    method ServeRemote(x: Exchange, target: Target, stream: bool, dialFails: bool, arrived: seq<AgentResponse>,
                       wakes: seq<Wake>)
      returns (sent: bool, events: seq<Event>)
      requires Valid() && ColonFree(target.agentType)
      modifies client, x
      ensures Valid()
      ensures sent <==> Dialed(old(client.view), target.agentType, target.agentID).Ok? && !dialFails
      ensures !sent ==>
                && events == [] && client.view == old(client.view)
                && x.State() == WithError(old(x.State()), ServiceUnavailable)
      ensures sent ==>
                && FromRelay(arrived, events) && EndsAsRelayed(wakes, Seen(events), OutcomeOf(events))
                && client.view
                    == WithSession(old(client.view), x.requestSessionID, target.agentID, target.agentType, Seen(events))
                && x.State()
                    == Responded(old(x.State()), stream, x.requestSessionID, target.agentType, events, marshal, quote)
    {
      hide Valid, WithSession, Responded, Seen, OutcomeOf, Dialed, FromRelay, EndsAsRelayed;
      var addr := DialRemoteAgent(target.agentType, target.agentID);
      sent, events := addr.Ok? && !dialFails, [];
      if sent {
        events := AwaitRelayed(arrived, wakes);
        Respond(x, target, stream, events);
      } else {
        x.RespondError(ServiceUnavailable);
      }
    }

    /** A request whose agent is chosen, by the one way or the other. */
    method Serve(x: Exchange, target: Target, stream: bool, r: string, turns: seq<Mux.Turn<Wake>>,
                 dialFails: bool, arrived: seq<AgentResponse>, wakes: seq<Wake>)
      returns (sent: bool, events: seq<Event>, ghost steps: seq<Mux.Action>)
      requires Valid() && ColonFree(target.agentType) && server.Valid() && r !in server.calls
      modifies client, x, server
      ensures Valid() && server.Valid()
      ensures client.view
                == if sent then WithSession(old(client.view), x.requestSessionID, target.agentID, target.agentType,
                                            Seen(events)) else old(client.view)
      ensures x.State()
                == if sent then Responded(old(x.State()), stream, x.requestSessionID, target.agentType, events, marshal,
                                          quote) else WithError(old(x.State()), ServiceUnavailable)
      ensures !sent ==> events == []
      ensures target.agentID in old(server.localAgents) ==>
                && (sent <==> Callers.Accepts(old(server.Model()), target.agentID))
                && Served(server.Model(), r, target, events)
                && (sent ==>
                      && server.calls[r].conn.Some? && EndsAsWoken(turns, OutcomeOf(events))
                      && (Mux.AtRightAgent(server.Model(), r) <==>
                          Mux.EntryIs(old(server.Model()), target.agentType, target.agentID)))
      ensures target.agentID !in old(server.localAgents) ==>
                && (sent <==> Dialed(old(client.view), target.agentType, target.agentID).Ok? && !dialFails)
                && (if sent then
                      FromRelay(arrived, events) && EndsAsRelayed(wakes, Seen(events), OutcomeOf(events))
                    else events == [])
      ensures target.agentID !in old(server.localAgents) ==> steps == []
      ensures Mux.Path(old(server.Model()), steps, server.Model()) && Callers.OfCaller(steps, r, turns)
    {
      hide Valid, Mux.Inv, Mux.Path, Callers.OfCaller, WithSession, Responded, WithError, Seen, Served,
        Callers.Accepts, Dialed, FromRelay, EndsAsWoken, EndsAsRelayed, OutcomeOf, Mux.AtRightAgent, Mux.EntryIs;
      var local := server.HasLocalAgent(target.agentID);
      if local {
        sent, events, steps := ServeLocal(x, target, stream, r, turns);
      } else {
        Mux.PathNil(server.Model());
        Callers.OfCallerOnly([], r, turns);
        steps := [];
        sent, events := ServeRemote(x, target, stream, dialFails, arrived, wakes);
      }
    }

    /** What either way of resolving says of the target. */
    static lemma Resolved(s: Store, s': Store, sid: string, model: string, ttl: nat,
                 r: Result<Target, Routing.RouteError>)
      requires if Continues(s, sid, model) then ContinuedTo(s, s', sid, model, ttl, r) else RoutedTo(s, s', model, r)
      ensures r.Err? ==> r == Err(Routing.NoAgentAvailable) && !Continues(s, sid, model)
      ensures r.Ok? ==> r.value.agentType == model
      ensures r.Ok? && r.value.existing ==> Compose(r.value.agentType, r.value.rawSessionID) == sid
    {
    }

    /** One chat request, all of it. `routed` is the store once its agent is chosen; `r` is the fresh id it
        is given; the rest of the parameters is what the world does to it. `events` is what the receive
        loop was given. */
    method Handle(x: Exchange, model: string, messages: nat, stream: bool, r: string, turns: seq<Mux.Turn<Wake>>,
                  dialFails: bool, arrived: seq<AgentResponse>, wakes: seq<Wake>)
      returns (target: Option<Target>, sent: bool, events: seq<Event>, ghost routed: Store,
          ghost steps: seq<Mux.Action>)
      requires Valid() && server.Valid() && r !in server.calls
      modifies client, x, server
      ensures Valid() && server.Valid()
      ensures messages == 0 ==>
                target == None && routed == old(client.view) && x.State() == WithError(old(x.State()), InvalidRequest)
      ensures messages > 0 && Continues(old(client.view), x.requestSessionID, model) ==>
                target.Some?
                    && ContinuedTo(old(client.view), routed, x.requestSessionID, model, sessionMgr.ttl,
                        Ok(target.value))
      ensures messages > 0 && !Continues(old(client.view), x.requestSessionID, model) ==>
                RoutedTo(old(client.view), routed, model,
                         if target.Some? then Ok(target.value) else Err(Routing.NoAgentAvailable))
      ensures messages > 0 && target.None? ==> x.State() == WithError(old(x.State()), ServiceUnavailable)
      ensures target.None? ==> !sent && client.view == routed
      ensures !sent ==>
                && x.reply == old(x.reply) && x.body == old(x.body)
                && x.errors == old(x.errors) + [if messages == 0 then InvalidRequest else ServiceUnavailable]
      ensures target.Some? ==>
                var t := target.value; var w := Greeted(old(x.State()), t, x.requestSessionID);
                && client.view
                   == (if sent then WithSession(routed, x.requestSessionID, t.agentID, model, Seen(events)) else routed)
                && x.State() == if sent then Responded(w, stream, x.requestSessionID, model, events, marshal, quote)
                                else WithError(w, ServiceUnavailable)
      ensures sent && stream ==> x.reply == old(x.reply) && old(x.body) <= x.body
      ensures sent && !stream ==>
                && x.body == old(x.body)
                && (if OutcomeOf(events) == Final then x.reply.Some? && x.reply.value.model == model
                    else x.reply == old(x.reply))
      ensures target.Some? && (forall y <- Seen(events) :: y.sessionID == "") ==>
                x.sessionHeader == if target.value.existing then x.requestSessionID else old(x.sessionHeader)
      ensures target.Some? && sent ==>
                forall k | NamedFirst(Seen(events), k) ::
                  var named := Compose(model, Seen(events)[k].sessionID);
                  x.sessionHeader == if stream || target.value.existing || named != x.requestSessionID then named
                                     else old(x.sessionHeader)
      ensures target.Some? && target.value.agentID in old(server.localAgents) ==>
                && (sent <==> Callers.Accepts(old(server.Model()), target.value.agentID))
                && Served(server.Model(), r, target.value, events)
                && (sent ==>
                      && server.calls[r].conn.Some? && EndsAsWoken(turns, OutcomeOf(events))
                      && (Mux.AtRightAgent(server.Model(), r) <==>
                          Mux.EntryIs(old(server.Model()), model, target.value.agentID)))
      ensures target.Some? && target.value.agentID !in old(server.localAgents) ==>
                && (sent <==> Dialed(routed, model, target.value.agentID).Ok? && !dialFails)
                && (if sent then
                      FromRelay(arrived, events) && EndsAsRelayed(wakes, Seen(events), OutcomeOf(events))
                    else events == [])
      ensures target.None? || target.value.agentID !in old(server.localAgents) ==> steps == []
      ensures Mux.Path(old(server.Model()), steps, server.Model()) && Callers.OfCaller(steps, r, turns)
    {
      hide Valid, Mux.Inv, Mux.Path, Callers.OfCaller, WithSession, Responded, Seen, Continues, RoutedTo, ContinuedTo,
        Served, Callers.Accepts, Dialed, FromRelay, EndsAsWoken, EndsAsRelayed, OutcomeOf, Mux.AtRightAgent,
        Mux.EntryIs, Compose, NamedFirst;
      Mux.PathNil(server.Model());
      Callers.OfCallerOnly([], r, turns);
      target, sent, events, routed, steps := None, false, [], client.view, [];
      if messages == 0 {
        x.RespondError(InvalidRequest);
        return;
      }
      var resolved := ResolveAgent(x, model);
      routed := client.view;
      Resolved(old(client.view), routed, x.requestSessionID, model, sessionMgr.ttl, resolved);
      if resolved.Err? {
        return;
      }
      target := Some(resolved.value);
      if target.value.existing {
        x.Header(Compose(target.value.agentType, target.value.rawSessionID));
      }
      sent, events, steps := Serve(x, target.value, stream, r, turns, dialFails, arrived, wakes);
      if sent {
        ClientSees(old(x.State()), target.value, x.requestSessionID, stream, events, marshal, quote);
      }
    }
  }

  // ----- What a request leaves in the session store -----

  /** A request writes at most one session: the one its agent first reported, bound to that agent. */
  lemma AtMostOneSession(h: ChatHandler, s: Store, sent: string, agentID: string, agentType: string,
                         rs: seq<AgentResponse>)
    requires WellKinded(s) && ColonFree(agentType) && h.sessionMgr.ttl > 0
    ensures var s', w := h.WithSession(s, sent, agentID, agentType, rs), SessionWrite(sent, agentType, rs);
      && (forall sid :: s'.At(Session(sid)) != s.At(Session(sid)) ==> w.Some? && sid == Compose(agentType, w.value))
      && (w.Some? ==>
            Session(Compose(agentType, w.value)) in s'.keys && S.AgentOf(s', Compose(agentType, w.value)) == agentID)
      && (w.None? ==> s' == s)
  {
    var w := SessionWrite(sent, agentType, rs);
    if w.Some? {
      var s' := h.WithSession(s, sent, agentID, agentType, rs);
      hide S.CreateWithID, Compose, SessionWrite;
      forall sid ensures sid != Compose(agentType, w.value) ==> s'.At(Session(sid)) == s.At(Session(sid)) {
        S.CreateAt(s, w.value, agentID, agentType, h.gatewayInstance, h.sessionMgr.ttl, Session(sid));
      }
      S.CreateAt(s, w.value, agentID, agentType, h.gatewayInstance, h.sessionMgr.ttl,
          Session(Compose(agentType, w.value)));
      S.CreatedHashOk(s, w.value, agentID, agentType, h.gatewayInstance, h.sessionMgr.ttl);
    }
  }

  lemma KeptSession(h: ChatHandler, s: Store, raw: string, a: string, t: string)
    requires s.now <= MAX_TIME && ColonFree(t) && h.sessionMgr.ttl > 0
    ensures var s', id := S.CreateWithID(s, raw, a, t, h.gatewayInstance, h.sessionMgr.ttl), Compose(t, raw);
      && S.Lookup(s', id) == Ok(S.Info(id, a, t, h.gatewayInstance, s.now / 1000, s.now / 1000))
      && DeadlineOf(s', Session(id)) == Some(s.now + h.sessionMgr.ttl) && id in s'.SMembers(AgentSessions(a))
  {
    var id := Compose(t, raw);
    S.CreatedReads(s, raw, a, t, h.gatewayInstance, h.sessionMgr.ttl, id);
    S.CreateAt(s, raw, a, t, h.gatewayInstance, h.sessionMgr.ttl, Session(id));
    S.CreateAt(s, raw, a, t, h.gatewayInstance, h.sessionMgr.ttl, AgentSessions(a));
    hide S.CreateWithID, S.Lookup, Compose, S.SessionFields;
  }

  lemma NothingKept(h: ChatHandler, s: Store, sent: string, a: string, t: string, rs: seq<AgentResponse>)
    requires forall k :: NamedFirst(rs, k) ==> Compose(t, rs[k].sessionID) == sent
    ensures h.WithSession(s, sent, a, t, rs) == s
  {
    var raw := FirstSession(rs);
    if raw != "" {
      var k := SomeNamedFirst(rs);
      FirstSessionIs(rs, k);
    }
    hide S.CreateWithID, Compose, FirstSession;
  }

  /** A request keeps a session exactly if its agent names one the client did not send. Then that session is
      found, bound to the agent, the type asked for and this gateway, under a lease of its own, and it is in
      the agent's index. Otherwise the store is as it was. */
  lemma SessionIsKeptExactly(h: ChatHandler, s: Store, sent: string, a: string, t: string, rs: seq<AgentResponse>)
    requires WellKinded(s) && ColonFree(t) && h.sessionMgr.ttl > 0
    ensures forall k | NamedFirst(rs, k) && Compose(t, rs[k].sessionID) != sent ::
              var s', id := h.WithSession(s, sent, a, t, rs), Compose(t, rs[k].sessionID);
              && S.Lookup(s', id) == Ok(S.Info(id, a, t, h.gatewayInstance, s.now / 1000, s.now / 1000))
              && DeadlineOf(s', Session(id)) == Some(s.now + h.sessionMgr.ttl)
              && id in s'.SMembers(AgentSessions(a))
    ensures (forall k :: NamedFirst(rs, k) ==> Compose(t, rs[k].sessionID) == sent) ==>
              h.WithSession(s, sent, a, t, rs) == s
  {
    hide Compose, FirstSession, S.Lookup, S.CreateWithID;
    forall k | NamedFirst(rs, k) && Compose(t, rs[k].sessionID) != sent
      ensures var s', id := h.WithSession(s, sent, a, t, rs), Compose(t, rs[k].sessionID);
        && S.Lookup(s', id) == Ok(S.Info(id, a, t, h.gatewayInstance, s.now / 1000, s.now / 1000))
        && DeadlineOf(s', Session(id)) == Some(s.now + h.sessionMgr.ttl) && id in s'.SMembers(AgentSessions(a))
    {
      FirstSessionIs(rs, k);
      KeptSession(h, s, rs[k].sessionID, a, t);
    }
    if forall k :: NamedFirst(rs, k) ==> Compose(t, rs[k].sessionID) == sent {
      NothingKept(h, s, sent, a, t, rs);
    }
  }

  // ----- Requests within runs -----

  /** The store operations of one request: renew the session it continues, or list and count the agent
      it is routed to; ... */
  function RouteOps(sid: string, model: string, target: Option<Target>): seq<Runs.Op> {
    if target.None? then [Runs.ListByType(model)]
    else if target.value.existing then [Runs.TouchSession(sid)]
    else [Runs.ListByType(model), Runs.AddSessions(model, target.value.agentID, 1)]
  }

  /** ... then write the session, if any. */
  function WriteOps(gateway: string, agentID: string, model: string, w: Option<string>): seq<Runs.Op> {
    if w.Some? then [Runs.CreateSession(w.value, agentID, model, gateway)] else []
  }

  lemma WriteIsRun(h: ChatHandler, s: Store, sid: string, agentID: string, model: string, rs: seq<AgentResponse>)
    ensures h.WithSession(s, sid, agentID, model, rs)
            == Runs.Run(s, h.Leases(), WriteOps(h.gatewayInstance, agentID, model, SessionWrite(sid, model, rs)))
  {
    Runs.RunShort(s, h.Leases(), WriteOps(h.gatewayInstance, agentID, model, SessionWrite(sid, model, rs)));
    hide Runs.Run, S.CreateWithID, SessionWrite;
  }

  lemma RouteIsRun(s: Store, routed: Store, c: Runs.Config, sid: string, model: string,
                 r: Result<Target, Routing.RouteError>)
    requires if Continues(s, sid, model) then ContinuedTo(s, routed, sid, model, c.sessionTTL, r)
             else RoutedTo(s, routed, model, r)
    ensures routed == Runs.Run(s, c, RouteOps(sid, model, if r.Ok? then Some(r.value) else None))
  {
    Runs.RunShort(s, c, RouteOps(sid, model, if r.Ok? then Some(r.value) else None));
    hide Runs.Run, S.Touch, R.Prune, R.AddSessions, Continues, Routing.Best, R.Lookup, S.Lookup, Compose;
  }

  /** A request is a run of store operations, so whatever holds over runs holds across requests. */
  lemma RequestIsRun(h: ChatHandler, s: Store, routed: Store, sid: string, model: string,
                     r: Result<Target, Routing.RouteError>, rs: seq<AgentResponse>)
    requires if Continues(s, sid, model) then ContinuedTo(s, routed, sid, model, h.sessionMgr.ttl, r)
             else RoutedTo(s, routed, model, r)
    ensures r.Err? ==> routed == Runs.Run(s, h.Leases(), RouteOps(sid, model, None))
    ensures r.Ok? ==>
              h.WithSession(routed, sid, r.value.agentID, model, rs)
              == Runs.Run(s, h.Leases(), RouteOps(sid, model, Some(r.value))
                                         + WriteOps(h.gatewayInstance, r.value.agentID, model,
                                             SessionWrite(sid, model, rs)))
  {
    RouteIsRun(s, routed, h.Leases(), sid, model, r);
    if r.Err? {
      return;
    }
    var write := WriteOps(h.gatewayInstance, r.value.agentID, model, SessionWrite(sid, model, rs));
    WriteIsRun(h, routed, sid, r.value.agentID, model, rs);
    hide Runs.Run, RouteOps, WriteOps, ChatHandler.WithSession, SessionWrite, Continues, ContinuedTo, RoutedTo;
    Runs.RunAppend(s, h.Leases(), RouteOps(sid, model, Some(r.value)), write);
  }

  lemma RequestKeepsBound(h: ChatHandler, s: Store, sid: string, a: string, model: string, rs: seq<AgentResponse>)
    requires RunProperties.Bound(s, sid, a) && s.keys[Session(sid)].HashEntry?
    requires h.sessionMgr.ttl > 0 && ColonFree(model) && s.now <= MAX_TIME
    ensures var w, s' := SessionWrite(sid, model, rs),
              h.WithSession(S.Touch(s, sid, h.sessionMgr.ttl), sid, a, model, rs);
      && RunProperties.Bound(s', sid, a) && DeadlineOf(s', Session(sid)) == Some(s.now + h.sessionMgr.ttl)
      && (w.Some? ==> RunProperties.Bound(s', Compose(model, w.value), a))
  {
    var w, t, ttl := SessionWrite(sid, model, rs), S.Touch(s, sid, h.sessionMgr.ttl), h.sessionMgr.ttl;
    RunProperties.TouchBound(s, h.Leases(), sid, sid);
    assert t.now == s.now;
    hide S.Touch, S.CreateWithID, SessionWrite, Compose;
    if w.Some? {
      RunProperties.CreateBound(t, w.value, a, model, h.gatewayInstance, ttl, sid);
      RunProperties.CreateBound(t, w.value, a, model, h.gatewayInstance, ttl, Compose(model, w.value));
    }
  }

  lemma CountInRange(s: Store, t: string, i: string)
    requires R.Lookup(s, t, i).Ok?
    ensures Decimal.InInt64(R.Lookup(s, t, i).value.activeSessions)
  {
  }

  lemma PruneReads(s: Store, model: string, t: string, i: string)
    ensures R.Lookup(R.Prune(s, model), t, i) == R.Lookup(s, t, i)
  {
    assert R.Prune(s, model).At(Agent(t, i)) == s.At(Agent(t, i));
  }

  lemma DispatchReads(s: Store, c: Runs.Config, model: string, a: string, t: string, i: string)
    requires Runs.Inv(s, c) && R.Lookup(s, model, a).Ok?
    requires R.Lookup(s, model, a).value.activeSessions < Decimal.MAX_INT64
    ensures var chosen := R.Lookup(s, model, a).value;
      R.Lookup(Balance.Dispatch(s, model, a), t, i) ==
        if t == model && i == a then Ok(chosen.(activeSessions := chosen.activeSessions + 1)) else R.Lookup(s, t, i)
  {
    CountInRange(s, model, a);
    hide R.Lookup, R.Scan, R.Prune, R.AddSessions, Runs.Inv, WellKinded;
    Runs.StepKeepsInv(s, c, Runs.ListByType(model));
    RunProperties.InvKinded(R.Prune(s, model), c);
    PruneReads(s, model, t, i);
    PruneReads(s, model, model, a);
    RegistryProperties.CountReads(R.Prune(s, model), model, a, 1, t, i);
  }

  /** A request that is routed is counted: in the store it leaves, the agent chosen is online and has one
      session more, none had fewer before, and every other agent reads as it did. */
  lemma RoutedIsCounted(s: Store, routed: Store, c: Runs.Config, model: string, target: Target)
    requires Runs.Inv(s, c) && c.agentTTL > 0 && RoutedTo(s, routed, model, Ok(target))
    requires R.Lookup(s, model, target.agentID).Ok?
    requires R.Lookup(s, model, target.agentID).value.activeSessions < Decimal.MAX_INT64
    ensures var chosen := R.Lookup(s, model, target.agentID).value;
      && chosen.status == "online"
      && (forall i <- R.Scan(s, model) :: Routing.HasStatus(s, model, i, "online") ==>
            chosen.activeSessions <= R.Lookup(s, model, i).value.activeSessions)
      && (forall t, i :: R.Lookup(routed, t, i) ==
            if t == model && i == target.agentID then Ok(chosen.(activeSessions := chosen.activeSessions + 1))
            else R.Lookup(s, t, i))
  {
    hide R.Lookup, R.Scan, R.Prune, R.AddSessions, Runs.Inv;
    forall t, i
      ensures var chosen := R.Lookup(s, model, target.agentID).value;
        R.Lookup(routed, t, i) ==
          if t == model && i == target.agentID then Ok(chosen.(activeSessions := chosen.activeSessions + 1))
          else R.Lookup(s, t, i)
    {
      DispatchReads(s, c, model, target.agentID, t, i);
    }
  }

  lemma Continuing(h: ChatHandler, s: Store, sid: string, a: string, model: string, routed: Store,
                 r: Result<Target, Routing.RouteError>)
    requires Runs.Inv(s, h.Leases()) && Split(sid).Parts? && model == Split(sid).head
    requires S.Lookup(s, sid).Ok? && S.Lookup(s, sid).value.agentID == a && S.Lookup(s, sid).value.agentType == model
    requires if Continues(s, sid, model) then ContinuedTo(s, routed, sid, model, h.sessionMgr.ttl, r)
             else RoutedTo(s, routed, model, r)
    ensures r == Ok(Target(a, Split(sid).tail, model, true)) && routed == S.Touch(s, sid, h.sessionMgr.ttl)
    ensures Session(sid) in s.keys && s.keys[Session(sid)].HashEntry? && ColonFree(model) && s.now <= MAX_TIME
  {
    ComposeSplit(sid);
    assert sid != "";
    assert Fits(Session(sid), s.keys[Session(sid)], s.now);
    assert s.now <= MAX_TIME;
    hide Runs.Inv, RoutedTo, S.Touch;
    SplitCompose(r.value.agentType, r.value.rawSessionID);
  }

  /** Session affinity over runs: as long as a run keeps the session bound to agent a, a request that
      carries it for its own model goes to a with the raw id the client's id was made from; the session
      stays bound to a under a lease that starts anew, and the one the request writes, if any, is bound to a
      too. */
  lemma AffinityAcrossRequests(h: ChatHandler, start: Store, ops: seq<Runs.Op>, sid: string, a: string, last: nat,
                               routed: Store, r: Result<Target, Routing.RouteError>, rs: seq<AgentResponse>)
    requires Runs.Inv(start, h.Leases()) && Runs.AllAllowed(start, h.Leases(), ops) && h.sessionMgr.ttl > 0
    requires RunProperties.Bound(start, sid, a) && DeadlineOf(start, Session(sid)) == Some(last + h.sessionMgr.ttl)
    requires RunProperties.Kept(start, h.Leases(), ops, sid, a, last)
    requires var s, model := Runs.Run(start, h.Leases(), ops), if Split(sid).Parts? then Split(sid).head else "";
      if Continues(s, sid, model) then ContinuedTo(s, routed, sid, model, h.sessionMgr.ttl, r)
      else RoutedTo(s, routed, model, r)
    ensures Split(sid).Parts?
    ensures r == Ok(Target(a, Split(sid).tail, Split(sid).head, true))
    ensures var w, s' := SessionWrite(sid, Split(sid).head, rs), h.WithSession(routed, sid, a, Split(sid).head, rs);
      && RunProperties.Bound(s', sid, a)
      && DeadlineOf(s', Session(sid)) == Some(Runs.Run(start, h.Leases(), ops).now + h.sessionMgr.ttl)
      && (w.Some? ==> RunProperties.Bound(s', Compose(Split(sid).head, w.value), a))
  {
    hide Runs.Inv, Runs.Run, Runs.AllAllowed, RunProperties.Kept, RunProperties.Bound, Continues, ContinuedTo, RoutedTo,
      SessionWrite, S.Lookup, ChatHandler.WithSession, Compose, Split, S.Touch;
    RunProperties.AffinityHolds(start, h.Leases(), ops, sid, a, last);
    var s, model := Runs.Run(start, h.Leases(), ops), Split(sid).head;
    Runs.RunKeepsInv(start, h.Leases(), ops);
    Continuing(h, s, sid, a, model, routed, r);
    RequestKeepsBound(h, s, sid, a, model, rs);
  }

  lemma KeptIsBound(s: Store, id: string, a: string)
    requires S.Lookup(s, id).Ok? && S.Lookup(s, id).value.agentID == a
    ensures RunProperties.Bound(s, id, a)
  {
  }

  lemma RequestKeepsRunInv(h: ChatHandler, s: Store, sent: string, a: string, t: string, rs: seq<AgentResponse>)
    requires Runs.Inv(s, h.Leases()) && ColonFree(t)
    ensures Runs.Inv(h.WithSession(s, sent, a, t, rs), h.Leases())
  {
    var w := SessionWrite(sent, t, rs);
    if w.Some? {
      Runs.StepKeepsInv(s, h.Leases(), Runs.CreateSession(w.value, a, t, h.gatewayInstance));
    }
    hide Runs.Inv, S.CreateWithID, SessionWrite;
  }

  /** A client that sends back the session it was given: as long as the run between its requests keeps that
      session, the second one goes to the agent that answered the first, with the id the agent gave it. */
  lemma SecondRequestReturns(h: ChatHandler, s: Store, sent: string, a: string, t: string, rs: seq<AgentResponse>,
                             k: nat, ops: seq<Runs.Op>, routed: Store, r: Result<Target, Routing.RouteError>)
    requires Runs.Inv(s, h.Leases()) && ColonFree(t) && h.sessionMgr.ttl > 0
    requires NamedFirst(rs, k) && Compose(t, rs[k].sessionID) != sent
    requires var s', id := h.WithSession(s, sent, a, t, rs), Compose(t, rs[k].sessionID);
      && Runs.AllAllowed(s', h.Leases(), ops) && RunProperties.Kept(s', h.Leases(), ops, id, a, s.now)
      && var now := Runs.Run(s', h.Leases(), ops);
         if Continues(now, id, t) then ContinuedTo(now, routed, id, t, h.sessionMgr.ttl, r)
         else RoutedTo(now, routed, t, r)
    ensures r == Ok(Target(a, rs[k].sessionID, t, true))
  {
    hide Runs.Inv, Runs.Run, Runs.AllAllowed, RunProperties.Kept, Continues, ContinuedTo, RoutedTo, S.Lookup,
      ChatHandler.WithSession, Compose, Split, WellKinded;
    var s', id := h.WithSession(s, sent, a, t, rs), Compose(t, rs[k].sessionID);
    RunProperties.InvKinded(s, h.Leases());
    SessionIsKeptExactly(h, s, sent, a, t, rs);
    KeptIsBound(s', id, a);
    RequestKeepsRunInv(h, s, sent, a, t, rs);
    SplitCompose(t, rs[k].sessionID);
    AffinityAcrossRequests(h, s', ops, id, a, s.now, routed, r, []);
  }
}
