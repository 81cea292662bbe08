/** From the agent's stream to the client's reply: the multiplexer, the relays and the folds together. */
module EndToEnd {
  import opened Basics
  import opened Proto
  import opened OpenAI
  import Mux
  import Relays
  import opened Answers
  import Sse
  import Chat
  import Gateways
  import Registry
  import Lease
  import Runs
  import Keys
  import RedisModel
  import RegistryProperties

  /** The encoders a gateway uses, and the decoders of its clients. */
  datatype Codecs = Codecs(
    marshal: ChatCompletionChunk -> string, unmarshal: string -> Option<ChatCompletionChunk>,
    quote: string -> string, unquote: string -> string)
  {
    ghost predicate Valid() {
      JsonCodec(marshal, unmarshal) && forall s :: quote(s) != "" && unquote(quote(s)) == s
    }

    function DecodedReply(reply: Option<ChatCompletionResponse>): Option<string> {
      if reply.Some? && |reply.value.choices| == 1 && reply.value.choices[0].message.Some?
      then Some(unquote(reply.value.choices[0].message.value.content)) else None
    }
  }

  /** What the receive loop of a request has taken: from its own buffer, or through a relay. */
  function Received(y: Relays.System, r: string): seq<AgentResponse>
    requires Relays.Known(y, r)
  {
    if r in y.relays then y.relays[r].got else y.mux.calls[r].consumed
  }

  /** The events of that receive loop, if its wait ended with `end` and not with a final response. */
  function ReceivedEvents(y: Relays.System, r: string, end: Option<Event>): seq<Event>
    requires Relays.Known(y, r)
  {
    EventsOf(Received(y, r), if Finished(Received(y, r)) then None else end)
  }

  lemma GotEvents(got: seq<AgentResponse>, end: Option<Event>)
    requires StopsAtDone(got) && (end.Some? ==> !end.value.Response?)
    ensures var es := EventsOf(got, if Finished(got) then None else end);
      && Seen(es) == got && (OutcomeOf(es) == Final <==> Finished(got))
      && (OutcomeOf(es) != Final ==> OutcomeOf(es) == OutcomeOf(EventsOf([], end)))
    ensures Finished(got) ==> got != []
  {
    EventsAreSeen(got, if Finished(got) then None else end);
  }

  lemma ReceivedIsPart(y: Relays.System, r: string)
    requires Relays.Inv(y) && Relays.Known(y, r) && (Relays.OnConn(y, r) ==> y.mux.calls[r].conn.value in y.mux.conns)
    requires r in y.mux.calls ==> Relays.Faithful(y.mux.calls[r].consumed, Relays.Answer(y, r))
    requires r in y.relays ==> Relays.Faithful(y.relays[r].got, Relays.Answer(y, r))
    ensures Received(y, r) <= Relays.Answer(y, r) && StopsAtDone(Received(y, r))
    ensures Finished(Received(y, r)) ==> Received(y, r) == Relays.Answer(y, r) && Relays.OnConn(y, r)
    ensures Relays.OnConn(y, r) ==> Mux.ConnOfAgent(y.mux, y.mux.calls[r].conn.value, y.mux.calls[r].agentID)
  {
    if r in y.mux.calls {
      Mux.AskedAgent(y.mux, r);
    }
    hide Relays.Inv, Mux.Inv, Mux.Answer;
  }

  /** How that wait can have ended: by the timer or the client, or, at the end of a relay, on a channel
      that is closed and drained. The channel of a local request is never closed. */
  predicate CanEnd(y: Relays.System, r: string, end: Option<Event>) {
    match end
    case None => true
    case Some(Response(_)) => false
    case Some(Closed) => r in y.relays && y.relays[r].closed && y.relays[r].channel == []
    case Some(_) => true
  }

  /** Why a channel closes without a final response: some part of the relay was cut, or the agent's gateway
      refused the request, because it has no such agent or could not queue it. */
  predicate Unanswered(y: Relays.System, r: string) {
    r in y.relays && (y.relays[r].cut || Relays.Refused(y, r))
  }

  lemma EndOutcome(end: Option<Event>)
    ensures OutcomeOf(EventsOf([], end)) == ChannelClosed <==> end == Some(Closed)
  {
  }

  /** What the loop is given is what was received, and that belongs to the answer that came over the
      request's connection, which bears the id asked for. Its channel closes on it only if the relay was
      cut, or if the agent's gateway refused the request and nothing was received. */
  lemma ReceivedIsFaithful(steps: seq<Relays.Step>, r: string, end: Option<Event>)
    requires Relays.Reaches(Relays.START, steps) && Relays.Known(Relays.Run(Relays.START, steps), r)
    requires CanEnd(Relays.Run(Relays.START, steps), r, end)
    ensures var y := Relays.Run(Relays.START, steps); var es := ReceivedEvents(y, r, end);
      && (Relays.OnConn(y, r) ==> Mux.ConnOfAgent(y.mux, y.mux.calls[r].conn.value, y.mux.calls[r].agentID))
      && Seen(es) == Received(y, r) <= Relays.Answer(y, r)
      && (OutcomeOf(es) == Final <==> Finished(Received(y, r)))
      && (OutcomeOf(es) == Final ==> Received(y, r) == Relays.Answer(y, r) && Relays.OnConn(y, r))
      && (OutcomeOf(es) != Final ==> OutcomeOf(es) == OutcomeOf(EventsOf([], end)))
      && (OutcomeOf(es) == ChannelClosed ==> Unanswered(y, r))
      && (Relays.Refused(y, r) ==> Seen(es) == [])
  {
    var y := Relays.Run(Relays.START, steps);
    hide Relays.Inv, Relays.Reaches, Relays.Run, Relays.Faithful, Mux.Answer;
    Relays.ForwardingRefinesLocal(steps, r);
    Relays.ReachableInv(steps);
    ReceivedIsPart(y, r);
    hide Relays.Answer, Mux.Inv, EventsOf, Seen, OutcomeOf, StopsAtDone, Finished;
    GotEvents(Received(y, r), end);
    EndOutcome(end);
  }

  /** In every reachable state of multiplexer and relays, wherever the agent is connected: a request that
      received a final response has been answered with exactly the answer that came over its connection.
      Its single reply decodes to that answer's text, its stream reads back as that answer's chunks, and
      the two differ by the final response's own content alone. The connection bears the id asked for;
      it is that of the very agent, in type and id, exactly if the entry in which step n looked the
      request up was of the type asked for. */
  lemma ReplyIsTheAgentsAnswer(steps: seq<Relays.Step>, r: string, end: Option<Event>, model: string, c: Codecs)
    returns (n: nat)
    requires Relays.Reaches(Relays.START, steps) && Relays.Known(Relays.Run(Relays.START, steps), r)
    requires CanEnd(Relays.Run(Relays.START, steps), r, end) && c.Valid()
    requires Finished(Received(Relays.Run(Relays.START, steps), r))
    ensures var y := Relays.Run(Relays.START, steps);
      && Relays.OnConn(y, r) && Mux.ConnOfAgent(y.mux, y.mux.calls[r].conn.value, y.mux.calls[r].agentID)
      && var es, answer := ReceivedEvents(y, r, end), Relays.Answer(y, r);
      && Finished(answer)
      && c.DecodedReply(ReplyWritten(es, model, c.quote)) == Some(Collected(answer))
      && ReadStream(Sse.Events(BodyWritten(es, model, c.marshal), ""), c.unmarshal) == Some(Emitted(answer, model))
      && Collected(answer) == StreamedText(Emitted(answer, model)) + FinalPart(answer)
    ensures n < |steps| && steps[n] == Relays.Local(Mux.Find(r)) && Relays.Reaches(Relays.START, steps[..n])
    ensures var m, k := Relays.Run(Relays.START, steps[..n]).mux, Relays.Run(Relays.START, steps).mux.calls[r];
      Mux.AtRightAgent(Relays.Run(Relays.START, steps).mux, r) <==> Mux.EntryIs(m, k.wanted, k.agentID)
  {
    var y := Relays.Run(Relays.START, steps);
    ReceivedIsFaithful(steps, r, end);
    var es, answer := ReceivedEvents(y, r, end), Relays.Answer(y, r);
    SeenStops(es);
    hide Relays.Reaches, Relays.Run, Relays.Answer, Mux.AtRightAgent, Mux.EntryIs, ReceivedEvents, Received, CanEnd,
      Emitted, Collected, StreamedText, FinalPart, Seen, OutcomeOf, Sse.Frames, Sse.Events, ReadStream, Payloads,
      SingleReply;
    n := Relays.LookupDecides(steps, r);
    FoldsAgree(answer, model);
    ReplyCarriesAnswer(answer, c.quote, c.unquote, model);
    StreamParsesBack(Emitted(answer, model), c.marshal, c.unmarshal);
  }

  lemma {:induction false} EmittedPrefix(p: seq<AgentResponse>, rs: seq<AgentResponse>, model: string)
    requires p <= rs
    ensures Emitted(p, model) <= Emitted(rs, model)
  {
    if p != rs {
      EmittedPrefix(p, rs[..|rs| - 1], model);
    }
  }

  lemma {:induction false} FramesPrefix(p: seq<ChatCompletionChunk>, cs: seq<ChatCompletionChunk>,
                                        marshal: ChatCompletionChunk -> string)
    requires p <= cs
    ensures Sse.Frames(Payloads(p, marshal)) <= Sse.Frames(Payloads(cs, marshal))
  {
    if p != cs {
      FramesPrefix(p, cs[..|cs| - 1], marshal);
      Sse.FramesAppend(Payloads(cs[..|cs| - 1], marshal), marshal(cs[|cs| - 1]));
    }
  }

  predicate HasFinish(cs: seq<ChatCompletionChunk>) {
    cs != [] && cs[|cs| - 1].choices != [] && cs[|cs| - 1].choices[0].finishReason.Some?
  }

  /** Whatever ends a stream, the chunks written are a beginning of the answer's, and so is the text of
      its frames. One that ends with the terminator reads back as just that beginning, and if it has no
      finish chunk its relay was cut or its request refused. */
  lemma StreamIsPrefix(steps: seq<Relays.Step>, r: string, end: Option<Event>, model: string, c: Codecs)
    requires Relays.Reaches(Relays.START, steps) && Relays.Known(Relays.Run(Relays.START, steps), r)
    requires CanEnd(Relays.Run(Relays.START, steps), r, end) && c.Valid()
    ensures var y := Relays.Run(Relays.START, steps); var es := ReceivedEvents(y, r, end);
      && (Relays.OnConn(y, r) ==> Mux.ConnOfAgent(y.mux, y.mux.calls[r].conn.value, y.mux.calls[r].agentID))
      && var written, whole := Emitted(Seen(es), model), Emitted(Relays.Answer(y, r), model);
      && written <= whole
      && BodyWritten(es, model, c.marshal) == Sse.Frames(Payloads(written, c.marshal) + Terminator(OutcomeOf(es)))
      && Sse.Frames(Payloads(written, c.marshal)) <= Sse.Frames(Payloads(whole, c.marshal))
      && (Terminator(OutcomeOf(es)) != [] ==>
            && ReadStream(Sse.Events(BodyWritten(es, model, c.marshal), ""), c.unmarshal) == Some(written)
            && (!HasFinish(written) ==> Unanswered(y, r)))
  {
    var y := Relays.Run(Relays.START, steps);
    ReceivedIsFaithful(steps, r, end);
    var es := ReceivedEvents(y, r, end);
    var written, whole := Emitted(Seen(es), model), Emitted(Relays.Answer(y, r), model);
    EmittedPrefix(Seen(es), Relays.Answer(y, r), model);
    SeenStops(es);
    FinishMarksDone(Seen(es), model);
    hide Relays.Reaches, Relays.Run, CanEnd, Unanswered, Relays.Answer, ReceivedEvents, Received, Emitted, Seen,
      OutcomeOf, Sse.Frames, Sse.Events, ReadStream, Payloads;
    FramesPrefix(written, whole, c.marshal);
    StreamParsesBack(written, c.marshal, c.unmarshal);
  }

  lemma LookupGateway(s: RedisModel.Store, t: string, i: string, cfg: Runs.Config)
    requires Runs.Inv(s, cfg) && Keys.Agent(t, i) in s.keys
    ensures Registry.Lookup(s, t, i).Ok?
              && Registry.Lookup(s, t, i).value.gatewayInstance == Registry.GatewayOf(s, t, i)
  {
    RegistryProperties.LookupReads(s, t, i, cfg.agentTTL);
  }

  /** In every state of a run under the guards, where a request for a connected agent goes that comes in at
      gateway g. With no entry under the id in its own table g forwards it, and dials the one gateway the
      agent is on or finds that gateway not advertised; with such an entry g keeps it. Either way it
      reaches the agent's one connection exactly if the entry it is sent by is of the agent's type, and
      always if no gateway had an entry under an id whenever a connection was published. */
  lemma RequestsFindTheAgent(w: Lease.World, cfg: Runs.Config, steps: seq<Lease.Step>, c: nat, g: string)
    requires Lease.WorldInv(w, cfg) && Lease.AllReached(w) && Lease.Reaches(w, cfg, steps) && cfg.agentTTL > 0
    requires c in Lease.WorldRun(w, cfg, steps).conns
    ensures var w' := Lease.WorldRun(w, cfg, steps); var k := w'.conns[c];
      && Lease.Consulted(w', g, k.agentType, k.agentID)
         == ((if (g, k.agentID) in w'.tables then g else k.gateway), k.agentID)
      && Chat.Dialed(w'.store, k.agentType, k.agentID)
         == (match Gateways.LookupInstance(w'.store, k.gateway)
             case Ok(addr) => Ok(addr)
             case Err(_) => Err(Chat.GatewayLookup))
      && (Lease.Reached(w', g, k.agentType, k.agentID) == Some(c) <==> Lease.RightType(w', g, k.agentType, k.agentID))
      && (Lease.IDsFree(w, cfg, steps) && k.InTable() ==> Lease.Reached(w', g, k.agentType, k.agentID) == Some(c))
  {
    var w' := Lease.WorldRun(w, cfg, steps);
    var k := w'.conns[c];
    Lease.LeaseIsExclusive(w, cfg, steps);
    Lease.RequestsReachAgentsExactly(w, cfg, steps);
    if Lease.IDsFree(w, cfg, steps) {
      Lease.ReachedAtEnd(w, cfg, steps);
    }
    LookupGateway(w'.store, k.agentType, k.agentID, cfg);
    Lease.InvOwns(w, cfg);
    Lease.RequestReachesExactly(w, cfg, steps, g, k.agentType, k.agentID);
    hide Lease.WorldInv, Lease.Reaches, Lease.WorldRun, Lease.IDsFree, Lease.EntriesOk, Lease.PossibleRun, Runs.Inv,
      Registry.Lookup, Registry.GatewayOf, Gateways.LookupInstance;
  }
}
