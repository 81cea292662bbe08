/** What the chat handler (internal/handler/chat.go) makes of a sequence of responses: what its two
    receive loops write to the client, and which session they leave behind. */
module Answers {
  import opened Basics
  import opened Keys
  import opened Proto
  import opened OpenAI
  import Sse

  // ----- What a receive loop is given -----

  /** What the select of a receive loop yields next. */
  datatype Event = Response(resp: AgentResponse) | Closed | Timeout | Cancelled

  datatype Outcome = Final | ChannelClosed | TimedOut | ClientGone | Pending

  /** The responses a loop takes: up to the first final one, or the first other event. */
  function Seen(es: seq<Event>): seq<AgentResponse> {
    if es == [] || !es[0].Response? then []
    else if es[0].resp.done then [es[0].resp]
    else [es[0].resp] + Seen(es[1..])
  }

  function OutcomeOf(es: seq<Event>): Outcome {
    if es == [] then Pending
    else match es[0]
      case Response(resp) => if resp.done then Final else OutcomeOf(es[1..])
      case Closed => ChannelClosed
      case Timeout => TimedOut
      case Cancelled => ClientGone
  }

  lemma {:induction false} SeenStops(es: seq<Event>)
    ensures StopsAtDone(Seen(es)) && (Finished(Seen(es)) <==> OutcomeOf(es) == Final)
  {
    if es != [] && es[0].Response? && !es[0].resp.done {
      SeenStops(es[1..]);
    }
  }

  /** A loop has taken `rs` and is about to read event n. */
  ghost predicate TakenBy(es: seq<Event>, n: nat, rs: seq<AgentResponse>) {
    n <= |es| && Seen(es) == rs + Seen(es[n..]) && OutcomeOf(es) == OutcomeOf(es[n..])
  }

  lemma TakeStart(es: seq<Event>)
    ensures TakenBy(es, 0, [])
  {
    assert es[0..] == es && [] + Seen(es) == Seen(es);
  }

  lemma SeenStep(es: seq<Event>)
    requires es != [] && es[0].Response?
    ensures es[0].resp.done ==> Seen(es) == [es[0].resp] && OutcomeOf(es) == Final
    ensures !es[0].resp.done ==> Seen(es) == [es[0].resp] + Seen(es[1..]) && OutcomeOf(es) == OutcomeOf(es[1..])
  {
  }

  lemma Assoc(a: seq<AgentResponse>, b: seq<AgentResponse>, c: seq<AgentResponse>)
    ensures a + (b + c) == a + b + c
  {
  }

  lemma TakeOne(es: seq<Event>, n: nat, rs: seq<AgentResponse>)
    requires TakenBy(es, n, rs) && n < |es| && es[n].Response?
    ensures es[n].resp.done ==> Seen(es) == rs + [es[n].resp] && OutcomeOf(es) == Final
    ensures !es[n].resp.done ==> TakenBy(es, n + 1, rs + [es[n].resp])
  {
    var x, tail, later := es[n].resp, es[n..], es[n + 1..];
    assert tail[0] == es[n] && tail[1..] == later;
    SeenStep(tail);
    hide Seen, OutcomeOf;
    Assoc(rs, [x], Seen(later));
  }

  lemma TakeNone(es: seq<Event>, n: nat, rs: seq<AgentResponse>)
    requires TakenBy(es, n, rs) && (n < |es| ==> !es[n].Response?)
    ensures Seen(es) == rs
    ensures OutcomeOf(es) == if n == |es| then Pending
                             else match es[n] case Closed => ChannelClosed case Timeout => TimedOut case _ => ClientGone
  {
    assert rs + [] == rs;
  }

  /** What a loop is given that takes these responses and then, unless the last is final, `end`. */
  function EventsOf(rs: seq<AgentResponse>, end: Option<Event>): seq<Event> {
    if rs != [] then [Response(rs[0])] + EventsOf(rs[1..], end)
    else if end.Some? then [end.value] else []
  }

  lemma {:induction false} EventsAreSeen(rs: seq<AgentResponse>, end: Option<Event>)
    requires StopsAtDone(rs) && (end.Some? ==> !end.value.Response? && !Finished(rs))
    ensures Seen(EventsOf(rs, end)) == rs
    ensures OutcomeOf(EventsOf(rs, end)) == if Finished(rs) then Final else OutcomeOf(EventsOf([], end))
  {
    if rs != [] {
      var es := EventsOf(rs, end);
      EventsAreSeen(rs[1..], end);
      assert es[0] == Response(rs[0]) && es[1..] == EventsOf(rs[1..], end);
      SeenStep(es);
      assert rs == [rs[0]] + rs[1..];
      hide Seen, OutcomeOf, EventsOf;
      if rs[0].done {
        assert rs == [rs[0]];
      } else {
        assert Finished(rs) <==> Finished(rs[1..]);
      }
    }
  }

  // ----- Sessions -----

  /** The first session id the agent reports. */
  function FirstSession(rs: seq<AgentResponse>): string {
    if rs == [] then ""
    else if FirstSession(rs[..|rs| - 1]) != "" then FirstSession(rs[..|rs| - 1])
    else rs[|rs| - 1].sessionID
  }

  /** The agent's first session id is that of response k. */
  predicate NamedFirst(rs: seq<AgentResponse>, k: int) {
    0 <= k < |rs| && rs[k].sessionID != "" && forall j :: 0 <= j < k ==> rs[j].sessionID == ""
  }

  lemma {:induction false} FirstSessionStays(rs: seq<AgentResponse>, later: seq<AgentResponse>)
    requires FirstSession(rs) != ""
    ensures FirstSession(rs + later) == FirstSession(rs)
    decreases |later|
  {
    if later == [] {
      assert rs + later == rs;
    } else {
      assert (rs + later)[..|rs + later| - 1] == rs + later[..|later| - 1];
      FirstSessionStays(rs, later[..|later| - 1]);
    }
  }

  lemma {:induction false} NoSessionNamed(rs: seq<AgentResponse>)
    requires forall x <- rs :: x.sessionID == ""
    ensures FirstSession(rs) == ""
  {
    if rs != [] {
      NoSessionNamed(rs[..|rs| - 1]);
    }
  }

  lemma FirstSessionIs(rs: seq<AgentResponse>, k: nat)
    requires NamedFirst(rs, k)
    ensures FirstSession(rs) == rs[k].sessionID
  {
    NoSessionNamed(rs[..k]);
    assert rs[..k + 1][..k] == rs[..k] && rs == rs[..k + 1] + rs[k + 1..];
    FirstSessionStays(rs[..k + 1], rs[k + 1..]);
  }

  /** The first that names a session, among those up to j. */
  lemma {:induction false} Least(rs: seq<AgentResponse>, j: nat) returns (k: nat)
    requires j < |rs| && rs[j].sessionID != ""
    ensures NamedFirst(rs, k)
  {
    k := j;
    if i: nat :| i < j && rs[i].sessionID != "" {
      k := Least(rs, i);
    }
  }

  lemma {:induction false} SomeNamedFirst(rs: seq<AgentResponse>) returns (k: nat)
    requires FirstSession(rs) != ""
    ensures NamedFirst(rs, k)
  {
    var before := rs[..|rs| - 1];
    if FirstSession(before) != "" {
      k := SomeNamedFirst(before);
    } else {
      k := |before|;
      forall j | 0 <= j < k ensures rs[j].sessionID == "" {
        if rs[j].sessionID != "" {
          var n := Least(before, j);
          FirstSessionIs(before, n);
        }
      }
    }
  }

  /** The session a request writes, if any: the first one the agent reports, unless it is the one the
      client sent. */
  function SessionWrite(sent: string, agentType: string, rs: seq<AgentResponse>): Option<string> {
    var raw := FirstSession(rs);
    if raw != "" && Compose(agentType, raw) != sent then Some(raw) else None
  }

  /** The one response standing for an answer that is not streamed: its content is the collected text,
      encoded once more. */
  function SingleReply(rs: seq<AgentResponse>, quote: string -> string): AgentResponse {
    if rs == [] then AgentResponse("", "", NoContent, true)
    else
      var last := rs[|rs| - 1];
      AgentResponse(last.requestID, last.sessionID, Message("assistant", quote(Collected(rs))), true)
  }

  /** The single reply carries the collected answer, for a client that decodes its content once: the one
      assistant message under the final response's request. */
  lemma ReplyCarriesAnswer(rs: seq<AgentResponse>, quote: string -> string, unquote: string -> string, model: string)
    requires Finished(rs) && forall s :: quote(s) != "" && unquote(quote(s)) == s
    ensures var reply := FromAgentResponse(SingleReply(rs, quote), model);
      && reply.id == "chatcmpl-" + rs[|rs| - 1].requestID && reply.object_ == "chat.completion" && reply.model == model
      && |reply.choices| == 1 && reply.choices[0].finishReason == "stop" && reply.choices[0].message.Some?
      && reply.choices[0].message.value.role == "assistant"
      && unquote(reply.choices[0].message.value.content) == Collected(rs)
  {
    assert quote(Collected(rs)) != "";
  }

  // ----- The response writer -----

  datatype ErrorKind = InvalidRequest | ServiceUnavailable | TimeoutError

  /** One HTTP exchange. `sessionHeader` is X-Session-Id as last set, `wireHeader` what it was when the
      first byte went out, after which setting it no longer reaches the client. */
  class Exchange {
    const requestSessionID: string
    var sessionHeader: string
    var wireHeader: Option<string>
    var body: string
    var reply: Option<ChatCompletionResponse>
    var errors: seq<ErrorKind>

    function State(): Written
      reads this
    {
      Written(sessionHeader, wireHeader, body, reply, errors)
    }

    constructor (requestSessionID: string)
      ensures this.requestSessionID == requestSessionID && State() == Written("", None, "", None, [])
    {
      this.requestSessionID := requestSessionID;
      sessionHeader, wireHeader, body, reply, errors := "", None, "", None, [];
    }

    method Header(v: string)
      modifies this`sessionHeader
      ensures sessionHeader == v
    {
      sessionHeader := v;
    }

    method Write(data: string)
      modifies this`body, this`wireHeader
      ensures body == old(body) + data
      ensures wireHeader == if old(wireHeader).Some? then old(wireHeader) else Some(sessionHeader)
    {
      body := body + data;
      if wireHeader.None? {
        wireHeader := Some(sessionHeader);
      }
    }

    method RespondError(e: ErrorKind)
      modifies this`errors, this`wireHeader
      ensures errors == old(errors) + [e]
      ensures wireHeader == if old(wireHeader).Some? then old(wireHeader) else Some(sessionHeader)
    {
      errors := errors + [e];
      if wireHeader.None? {
        wireHeader := Some(sessionHeader);
      }
    }

    method JSON(r: ChatCompletionResponse)
      modifies this`reply, this`wireHeader
      ensures reply == Some(r)
      ensures wireHeader == if old(wireHeader).Some? then old(wireHeader) else Some(sessionHeader)
    {
      reply := Some(r);
      if wireHeader.None? {
        wireHeader := Some(sessionHeader);
      }
    }
  }

  /** All of an exchange that a client can come to see. */
  datatype Written = Written(
    sessionHeader: string, wireHeader: Option<string>, body: string,
    reply: Option<ChatCompletionResponse>, errors: seq<ErrorKind>)

  // ----- What the stream carries -----

  function Payloads(cs: seq<ChatCompletionChunk>, marshal: ChatCompletionChunk -> string): seq<string> {
    if cs == [] then [] else Payloads(cs[..|cs| - 1], marshal) + [marshal(cs[|cs| - 1])]
  }

  /** X-Session-Id once these responses are processed. */
  function HeaderFor(before: string, agentType: string, rs: seq<AgentResponse>): string {
    if FirstSession(rs) == "" then before else Compose(agentType, FirstSession(rs))
  }

  /** X-Session-Id after these responses: a stream always echoes the agent's session, a single reply
      names only a session it wrote. */
  function HeaderAfter(streaming: bool, before: string, sent: string, agentType: string,
                       rs: seq<AgentResponse>): string {
    if streaming || SessionWrite(sent, agentType, rs).Some? then HeaderFor(before, agentType, rs) else before
  }

  lemma OneMoreResponse(rs: seq<AgentResponse>, resp: AgentResponse)
    ensures FirstSession(rs + [resp]) == if FirstSession(rs) != "" then FirstSession(rs) else resp.sessionID
    ensures Texts(rs + [resp]) == Texts(rs) + Text(resp)
  {
    assert (rs + [resp])[..|rs|] == rs;
  }

  /** X-Session-Id as it went out: as it was when the first of these responses was written on. */
  function WireFor(before: string, agentType: string, rs: seq<AgentResponse>): Option<string> {
    if rs == [] then None
    else
      var earlier := WireFor(before, agentType, rs[..|rs| - 1]);
      if earlier.Some? then earlier
      else if rs[|rs| - 1].done || Deltas(rs[|rs| - 1], agentType) != [] then Some(HeaderFor(before, agentType, rs))
      else None
  }

  /** The frames written for these responses. */
  function StreamBody(rs: seq<AgentResponse>, agentType: string, marshal: ChatCompletionChunk -> string): string {
    Sse.Frames(Payloads(Emitted(rs, agentType), marshal))
  }

  function Terminator(o: Outcome): seq<string> {
    if o == Final || o == ChannelClosed then [Sse.DONE] else []
  }

  /** The body a stream writes. */
  function BodyWritten(es: seq<Event>, agentType: string, marshal: ChatCompletionChunk -> string): string {
    Sse.Frames(Payloads(Emitted(Seen(es), agentType), marshal) + Terminator(OutcomeOf(es)))
  }

  /** The reply written without streaming, if the answer is complete. */
  function ReplyWritten(es: seq<Event>, agentType: string, quote: string -> string): Option<ChatCompletionResponse> {
    if OutcomeOf(es) == Final then Some(FromAgentResponse(SingleReply(Seen(es), quote), agentType)) else None
  }

  /** The errors reported: a stream that has begun reports only a timeout. */
  function ErrorsWritten(es: seq<Event>, streaming: bool): seq<ErrorKind> {
    match OutcomeOf(es)
    case TimedOut => [TimeoutError]
    case ChannelClosed => if streaming then [] else [ServiceUnavailable]
    case ClientGone => if streaming then [] else [TimeoutError]
    case _ => []
  }

  /** X-Session-Id as a stream sends it: with the first frame, or else with the terminator or error. */
  function WireWritten(before: string, agentType: string, es: seq<Event>): Option<string> {
    if WireFor(before, agentType, Seen(es)).Some? then WireFor(before, agentType, Seen(es))
    else if OutcomeOf(es) == ChannelClosed || OutcomeOf(es) == TimedOut then
      Some(HeaderFor(before, agentType, Seen(es)))
    else None
  }

  /** An exchange after an error. */
  function WithError(w: Written, e: ErrorKind): Written {
    w.(errors := w.errors + [e], wireHeader := if w.wireHeader.Some? then w.wireHeader else Some(w.sessionHeader))
  }

  /** An exchange after a receive loop has run: everything it writes, for every sequence of events. */
  function Responded(w: Written, streaming: bool, sent: string, agentType: string, es: seq<Event>,
                     marshal: ChatCompletionChunk -> string, quote: string -> string): Written
  {
    var header := HeaderAfter(streaming, w.sessionHeader, sent, agentType, Seen(es));
    var wire := if streaming then WireWritten(w.sessionHeader, agentType, es)
                else if OutcomeOf(es) == Pending then None else Some(header);
    Written(
      header, if w.wireHeader.Some? then w.wireHeader else wire,
      w.body + if streaming then BodyWritten(es, agentType, marshal) else "",
      if streaming || ReplyWritten(es, agentType, quote).None? then w.reply else ReplyWritten(es, agentType, quote),
      w.errors + ErrorsWritten(es, streaming))
  }

  lemma PayloadsAppend(cs: seq<ChatCompletionChunk>, c: ChatCompletionChunk, marshal: ChatCompletionChunk -> string)
    ensures Payloads(cs + [c], marshal) == Payloads(cs, marshal) + [marshal(c)]
  {
    assert (cs + [c])[..|cs|] == cs;
  }

  lemma FrameAppended(cs: seq<ChatCompletionChunk>, c: ChatCompletionChunk, marshal: ChatCompletionChunk -> string)
    ensures Sse.Frames(Payloads(cs + [c], marshal)) == Sse.Frames(Payloads(cs, marshal)) + Sse.Frame(marshal(c))
  {
    PayloadsAppend(cs, c, marshal);
    Sse.FramesAppend(Payloads(cs, marshal), marshal(c));
  }

  lemma OneMoreFrame(rs: seq<AgentResponse>, resp: AgentResponse, before: string, agentType: string,
                     marshal: ChatCompletionChunk -> string)
    ensures resp.done ==>
              && StreamBody(rs + [resp], agentType, marshal)
                 == StreamBody(rs, agentType, marshal) + Sse.Frame(marshal(FromAgentResponseChunk(resp, agentType)))
              && Sse.Frames(Payloads(Emitted(rs + [resp], agentType), marshal) + [Sse.DONE])
                 == StreamBody(rs + [resp], agentType, marshal) + Sse.Frame(Sse.DONE)
    ensures !resp.done ==>
              StreamBody(rs + [resp], agentType, marshal)
              == StreamBody(rs, agentType, marshal) + if Deltas(resp, agentType) == [] then ""
                 else Sse.Frame(marshal(MakeDeltaChunk(resp.requestID, agentType, Text(resp), Reasoning(resp))))
    ensures WireFor(before, agentType, rs + [resp]) ==
              if WireFor(before, agentType, rs).Some? then WireFor(before, agentType, rs)
              else if resp.done || Deltas(resp, agentType) != [] then Some(HeaderFor(before, agentType, rs + [resp]))
              else None
  {
    assert (rs + [resp])[..|rs|] == rs;
    var cs := Emitted(rs, agentType);
    if resp.done {
      FrameAppended(cs, FromAgentResponseChunk(resp, agentType), marshal);
      Sse.FramesAppend(Payloads(Emitted(rs + [resp], agentType), marshal), Sse.DONE);
    } else if Deltas(resp, agentType) == [] {
      assert cs + [] == cs;
      assert StreamBody(rs, agentType, marshal) + "" == StreamBody(rs, agentType, marshal);
    } else {
      FrameAppended(cs, MakeDeltaChunk(resp.requestID, agentType, Text(resp), Reasoning(resp)), marshal);
    }
  }

  /** JSON encoding, as far as framing depends on it: one line, an object, and invertible. */
  ghost predicate JsonCodec(marshal: ChatCompletionChunk -> string, unmarshal: string -> Option<ChatCompletionChunk>) {
    forall c :: marshal(c) != "" && marshal(c)[0] == '{' && Sse.OneLine(marshal(c)) && unmarshal(marshal(c)) == Some(c)
  }

  /** A client: chunks up to the terminator, which must be the last event. */
  function ReadStream(events: seq<string>,
                      unmarshal: string -> Option<ChatCompletionChunk>): Option<seq<ChatCompletionChunk>> {
    if events == [] then None
    else if events[0] == Sse.DONE then (if |events| == 1 then Some([]) else None)
    else
      var c, rest := unmarshal(events[0]), ReadStream(events[1..], unmarshal);
      if c.None? || rest.None? then None else Some([c.value] + rest.value)
  }

  lemma {:induction false} PayloadsAt(cs: seq<ChatCompletionChunk>, marshal: ChatCompletionChunk -> string)
    ensures |Payloads(cs, marshal)| == |cs| && forall k :: 0 <= k < |cs| ==> Payloads(cs, marshal)[k] == marshal(cs[k])
  {
    if cs != [] {
      PayloadsAt(cs[..|cs| - 1], marshal);
    }
  }

  lemma {:induction false} ReadsBack(ps: seq<string>, cs: seq<ChatCompletionChunk>,
                                     marshal: ChatCompletionChunk -> string,
                                     unmarshal: string -> Option<ChatCompletionChunk>)
    requires JsonCodec(marshal, unmarshal) && |ps| == |cs| && forall k :: 0 <= k < |cs| ==> ps[k] == marshal(cs[k])
    ensures ReadStream(ps + [Sse.DONE], unmarshal) == Some(cs)
  {
    if cs == [] {
      assert ps + [Sse.DONE] == [Sse.DONE];
    } else {
      ReadsBack(ps[1..], cs[1..], marshal, unmarshal);
      assert (ps + [Sse.DONE])[1..] == ps[1..] + [Sse.DONE];
      assert cs == [cs[0]] + cs[1..];
      assert ps[0][0] == '{' && Sse.DONE[0] == '[';
    }
  }

  /** The body of a stream that ended with a final response or a closed channel parses into exactly the
      emitted chunks, in order, and one terminator behind them. */
  lemma StreamParsesBack(cs: seq<ChatCompletionChunk>,
                         marshal: ChatCompletionChunk -> string, unmarshal: string -> Option<ChatCompletionChunk>)
    requires JsonCodec(marshal, unmarshal)
    ensures var events := Sse.Events(Sse.Frames(Payloads(cs, marshal) + [Sse.DONE]), "");
      && events == Payloads(cs, marshal) + [Sse.DONE]
      && (forall p <- Payloads(cs, marshal) :: p != Sse.DONE)
      && ReadStream(events, unmarshal) == Some(cs)
  {
    var ps := Payloads(cs, marshal);
    PayloadsAt(cs, marshal);
    forall k | 0 <= k < |cs| ensures ps[k] != Sse.DONE && Sse.OneLine(ps[k]) {
      assert ps[k] == marshal(cs[k]) && marshal(cs[k])[0] == '{' && Sse.DONE[0] == '[';
    }
    Sse.FramesAreEvents(ps + [Sse.DONE]);
    ReadsBack(ps, cs, marshal, unmarshal);
  }

  /** X-Session-Id after a request: the first session the agent named, unless a single reply would only name
      the one the client sent; else it is as it was. With a single reply or an error it goes out as it is
      then. */
  lemma HeaderIsTold(w: Written, streaming: bool, sent: string, agentType: string, es: seq<Event>,
                     marshal: ChatCompletionChunk -> string, quote: string -> string)
    ensures var w', rs := Responded(w, streaming, sent, agentType, es, marshal, quote), Seen(es);
      && ((forall x <- rs :: x.sessionID == "") ==> w'.sessionHeader == w.sessionHeader)
      && (forall k | NamedFirst(rs, k) ::
            var id := Compose(agentType, rs[k].sessionID);
            w'.sessionHeader == if streaming || id != sent then id else w.sessionHeader)
      && (!streaming && OutcomeOf(es) != Pending && w.wireHeader == None ==> w'.wireHeader == Some(w'.sessionHeader))
      && (streaming && w.wireHeader == None ==> w'.wireHeader == WireWritten(w.sessionHeader, agentType, es))
      && (w.wireHeader.Some? ==> w'.wireHeader == w.wireHeader)
  {
    var rs := Seen(es);
    hide Seen, OutcomeOf, Compose, FirstSession, WireWritten, BodyWritten;
    if forall x <- rs :: x.sessionID == "" {
      NoSessionNamed(rs);
    }
    forall k | NamedFirst(rs, k) ensures FirstSession(rs) == rs[k].sessionID != "" {
      FirstSessionIs(rs, k);
    }
  }

  lemma {:induction false} NoTerminator(ps: seq<string>, unmarshal: string -> Option<ChatCompletionChunk>)
    requires forall p <- ps :: p != Sse.DONE
    ensures ReadStream(ps, unmarshal) == None
  {
    if ps != [] {
      assert ps[0] in ps && forall p <- ps[1..] :: p in ps;
      NoTerminator(ps[1..], unmarshal);
    }
  }

  /** The body of a stream that ended otherwise gives the client the emitted chunks, in order, and no
      terminator: it can tell that the answer is not over. */
  lemma CutStreamReads(cs: seq<ChatCompletionChunk>,
                       marshal: ChatCompletionChunk -> string, unmarshal: string -> Option<ChatCompletionChunk>)
    requires JsonCodec(marshal, unmarshal)
    ensures var events := Sse.Events(Sse.Frames(Payloads(cs, marshal)), "");
      && |events| == |cs| && (forall k :: 0 <= k < |cs| ==> unmarshal(events[k]) == Some(cs[k]))
      && ReadStream(events, unmarshal) == None
  {
    var ps := Payloads(cs, marshal);
    PayloadsAt(cs, marshal);
    forall k | 0 <= k < |cs| ensures ps[k] != Sse.DONE && Sse.OneLine(ps[k]) {
      assert ps[k] == marshal(cs[k]) && marshal(cs[k])[0] == '{' && Sse.DONE[0] == '[';
    }
    Sse.FramesAreEvents(ps);
    NoTerminator(ps, unmarshal);
  }

  /** What a streaming client is sent: no reply, and a text after what the body held. When the answer is over
      the text reads as the chunks of all responses and a terminator; when the timer or the client ends it,
      or nothing does, as those chunks and none. Only the timer is told as an error. */
  lemma StreamIsDelivered(w: Written, sent: string, agentType: string, es: seq<Event>, quote: string -> string,
                          marshal: ChatCompletionChunk -> string, unmarshal: string -> Option<ChatCompletionChunk>)
    requires JsonCodec(marshal, unmarshal)
    ensures var w' := Responded(w, true, sent, agentType, es, marshal, quote); var o := OutcomeOf(es);
      && w'.reply == w.reply && w.body <= w'.body
      && var events, cs := Sse.Events(w'.body[|w.body|..], ""), Emitted(Seen(es), agentType);
      && (o == Final || o == ChannelClosed ==> ReadStream(events, unmarshal) == Some(cs))
      && (o == TimedOut || o == ClientGone || o == Pending ==>
            && ReadStream(events, unmarshal) == None && |events| == |cs|
            && forall k :: 0 <= k < |cs| ==> unmarshal(events[k]) == Some(cs[k]))
      && (o == TimedOut ==> w'.errors == w.errors + [TimeoutError])
      && (o != TimedOut ==> w'.errors == w.errors)
  {
    var w' := Responded(w, true, sent, agentType, es, marshal, quote);
    var cs := Emitted(Seen(es), agentType);
    hide Emitted, Seen, OutcomeOf, Sse.Events, Sse.Frames, Payloads, ReadStream, JsonCodec;
    assert w'.body[|w.body|..] == BodyWritten(es, agentType, marshal);
    assert Payloads(cs, marshal) + [] == Payloads(cs, marshal);
    StreamParsesBack(cs, marshal, unmarshal);
    CutStreamReads(cs, marshal, unmarshal);
  }

  /** What a client without streaming is sent: nothing in the body, and a reply exactly if the final response
      came: one assistant message, under the model asked for, that decodes to the collected text. If the
      channel closed instead, the timer fired or the client left, it is sent one error, and it is sent not
      both. */
  lemma ReplyIsDelivered(w: Written, sent: string, agentType: string, es: seq<Event>,
                         marshal: ChatCompletionChunk -> string, quote: string -> string, unquote: string -> string)
    requires forall s :: quote(s) != "" && unquote(quote(s)) == s
    ensures var w' := Responded(w, false, sent, agentType, es, marshal, quote); var o := OutcomeOf(es);
      && w'.body == w.body
      && (o != Final ==> w'.reply == w.reply)
      && (o == Final ==>
            && Seen(es) != [] && w'.reply.Some? && w'.reply.value.model == agentType
            && w'.reply.value.id == "chatcmpl-" + Seen(es)[|Seen(es)| - 1].requestID
            && |w'.reply.value.choices| == 1 && w'.reply.value.choices[0].message.Some?
            && w'.reply.value.choices[0].message.value.role == "assistant"
            && unquote(w'.reply.value.choices[0].message.value.content) == Collected(Seen(es)))
      && (o == Final || o == Pending ==> w'.errors == w.errors)
      && (o == ChannelClosed ==> w'.errors == w.errors + [ServiceUnavailable])
      && (o == TimedOut || o == ClientGone ==> w'.errors == w.errors + [TimeoutError])
  {
    SeenStops(es);
    assert w.body + "" == w.body && w.errors + [] == w.errors;
    if OutcomeOf(es) == Final {
      ReplyCarriesAnswer(Seen(es), quote, unquote, agentType);
    }
    hide Seen, OutcomeOf, Collected, SingleReply;
  }

  /** A session id the agent reports only after the first chunk has gone out never reaches the client. */
  lemma {:induction false} LateSessionIsLost(before: string, agentType: string, rs: seq<AgentResponse>,
                                             later: seq<AgentResponse>)
    requires WireFor(before, agentType, rs).Some?
    ensures WireFor(before, agentType, rs + later) == WireFor(before, agentType, rs)
    decreases |later|
  {
    if later == [] {
      assert rs + later == rs;
    } else {
      assert (rs + later)[..|rs + later| - 1] == rs + later[..|later| - 1];
      LateSessionIsLost(before, agentType, rs, later[..|later| - 1]);
    }
  }

  /** Whether a response makes the stream write a frame. */
  predicate Writes(resp: AgentResponse, agentType: string) {
    resp.done || Deltas(resp, agentType) != []
  }

  lemma {:induction false} NothingOnWire(before: string, agentType: string, rs: seq<AgentResponse>)
    requires forall x <- rs :: !Writes(x, agentType)
    ensures WireFor(before, agentType, rs) == None
  {
    if rs != [] {
      NothingOnWire(before, agentType, rs[..|rs| - 1]);
      assert !Writes(rs[|rs| - 1], agentType);
    }
  }

  /** The responses up to the first that writes a frame, or all if none does. */
  function Head(rs: seq<AgentResponse>, agentType: string): seq<AgentResponse> {
    if rs == [] then [] else if Writes(rs[0], agentType) then [rs[0]] else [rs[0]] + Head(rs[1..], agentType)
  }

  function Earlier(h: seq<AgentResponse>): seq<AgentResponse> {
    if h == [] then [] else h[..|h| - 1]
  }

  lemma {:induction false} HeadIs(rs: seq<AgentResponse>, agentType: string)
    ensures var h := Head(rs, agentType);
      && h <= rs && (forall x <- Earlier(h) :: !Writes(x, agentType))
      && ((exists x :: x in rs && Writes(x, agentType)) ==> h != [] && Writes(h[|h| - 1], agentType))
      && ((forall x <- rs :: !Writes(x, agentType)) ==> h == rs)
  {
    if rs != [] {
      var h := Head(rs, agentType);
      var rest := Head(rs[1..], agentType);
      assert h == if Writes(rs[0], agentType) then [rs[0]] else [rs[0]] + rest;
      HeadIs(rs[1..], agentType);
      hide Writes, Head;
      assert rs == [rs[0]] + rs[1..];
      assert forall x :: x in rs <==> x == rs[0] || x in rs[1..];
      if !Writes(rs[0], agentType) && rest != [] {
        assert Earlier(h) == [rs[0]] + Earlier(rest);
      }
    }
  }

  /** Anything goes out to the client: a frame, a terminator or an error. */
  ghost predicate Sends(es: seq<Event>, agentType: string) {
    (exists x :: x in Seen(es) && Writes(x, agentType)) || OutcomeOf(es) == ChannelClosed || OutcomeOf(es) == TimedOut
  }

  lemma FrameHeader(before: string, agentType: string, h: seq<AgentResponse>)
    requires h != [] && Writes(h[|h| - 1], agentType) && forall x <- Earlier(h) :: !Writes(x, agentType)
    ensures WireFor(before, agentType, h) == Some(HeaderFor(before, agentType, h))
  {
    NothingOnWire(before, agentType, h[..|h| - 1]);
  }

  /** A streaming client is sent X-Session-Id as it was at the first frame, or at the end if there is
      none. So it learns the agent's session exactly when something is sent and the agent reports it no
      later than with the first response that writes a frame, or the client had sent it already. */
  lemma SessionArrivesExactly(before: string, agentType: string, es: seq<Event>)
    ensures var rs, wire := Seen(es), WireWritten(before, agentType, es);
      && wire == (if Sends(es, agentType) then Some(HeaderFor(before, agentType, Head(rs, agentType))) else None)
      && (FirstSession(rs) != "" ==>
            (wire == Some(Compose(agentType, FirstSession(rs))) <==>
              && Sends(es, agentType)
              && (FirstSession(Head(rs, agentType)) != "" || before == Compose(agentType, FirstSession(rs)))))
  {
    var rs, h := Seen(es), Head(Seen(es), agentType);
    HeadIs(rs, agentType);
    hide Seen, OutcomeOf, Head, Writes;
    if exists x :: x in rs && Writes(x, agentType) {
      FrameHeader(before, agentType, h);
      assert rs == h + rs[|h|..];
      LateSessionIsLost(before, agentType, h, rs[|h|..]);
    } else {
      NothingOnWire(before, agentType, rs);
    }
    if FirstSession(h) != "" {
      assert rs == h + rs[|h|..];
      FirstSessionStays(h, rs[|h|..]);
    }
  }
}
