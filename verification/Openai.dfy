/** Agent responses as OpenAI-compatible replies (internal/openai/converter.go, types.go), and the two
    ways the chat handler folds a sequence of them. */
module OpenAI {
  import opened Basics
  import opened Proto

  datatype Delta = Delta(content: Option<string>, reasoning: Option<string>)

  datatype ChunkChoice = ChunkChoice(index: nat, delta: Delta, finishReason: Option<string>)

  datatype ChatCompletionChunk = ChatCompletionChunk(id: string, object_: string, model: string,
      choices: seq<ChunkChoice>)

  datatype ChatMessage = ChatMessage(role: string, content: string)

  datatype Choice = Choice(index: nat, message: Option<ChatMessage>, finishReason: string)

  datatype ChatCompletionResponse = ChatCompletionResponse(id: string, object_: string, model: string,
      choices: seq<Choice>)

  function NonEmpty(s: string): Option<string> {
    if s == "" then None else Some(s)
  }

  function CompletionID(requestID: string): string {
    "chatcmpl-" + requestID
  }

  function MakeDeltaChunk(requestID: string, model: string, content: string, reasoning: string): ChatCompletionChunk {
    ChatCompletionChunk(CompletionID(requestID), "chat.completion.chunk", model,
                        [ChunkChoice(0, Delta(NonEmpty(content), NonEmpty(reasoning)), None)])
  }

  function Text(resp: AgentResponse): string {
    if resp.content.Chunk? then resp.content.text else ""
  }

  function Reasoning(resp: AgentResponse): string {
    if resp.content.Chunk? then resp.content.reasoning else ""
  }

  /** A final response becomes a chunk with an empty delta, whatever it carries. */
  function FromAgentResponseChunk(resp: AgentResponse, model: string): ChatCompletionChunk {
    if resp.done then
      ChatCompletionChunk(CompletionID(resp.requestID), "chat.completion.chunk", model,
                          [ChunkChoice(0, Delta(None, None), Some("stop"))])
    else MakeDeltaChunk(resp.requestID, model, Text(resp), Reasoning(resp))
  }

  function FromAgentResponse(resp: AgentResponse, model: string): ChatCompletionResponse {
    var message := match resp.content
      case Message(role, body) => Some(ChatMessage(role, if body == "" then "\"\"" else body))
      case _ => None;
    ChatCompletionResponse(CompletionID(resp.requestID), "chat.completion", model, [Choice(0, message, "stop")])
  }

  function Body(resp: AgentResponse): string {
    if resp.content.Message? then resp.content.body else ""
  }

  // ----- Folding without streaming -----

  function Texts(rs: seq<AgentResponse>): string {
    if rs == [] then "" else Texts(rs[..|rs| - 1]) + Text(rs[|rs| - 1])
  }

  /** The content of the single reply to responses that end with a final one. */
  function Collected(rs: seq<AgentResponse>): string
    requires rs != []
  {
    Texts(rs) + Body(rs[|rs| - 1])
  }

  // ----- Folding into a stream -----

  /** What one response before the final one adds to the stream: nothing, if its delta is empty. */
  function Deltas(resp: AgentResponse, model: string): seq<ChatCompletionChunk> {
    if Text(resp) == "" && Reasoning(resp) == "" then []
    else [MakeDeltaChunk(resp.requestID, model, Text(resp), Reasoning(resp))]
  }

  function Emitted(rs: seq<AgentResponse>, model: string): seq<ChatCompletionChunk> {
    if rs == [] then []
    else
      var last := rs[|rs| - 1];
      Emitted(rs[..|rs| - 1], model) + if last.done then [FromAgentResponseChunk(last, model)] else Deltas(last, model)
  }

  function DeltaText(c: ChatCompletionChunk): string {
    if c.choices != [] && c.choices[0].delta.content.Some? then c.choices[0].delta.content.value else ""
  }

  /** What a client that concatenates delta contents ends up with. */
  function StreamedText(cs: seq<ChatCompletionChunk>): string {
    if cs == [] then "" else StreamedText(cs[..|cs| - 1]) + DeltaText(cs[|cs| - 1])
  }

  lemma {:induction false} StreamedTextAppend(a: seq<ChatCompletionChunk>, b: seq<ChatCompletionChunk>)
    ensures StreamedText(a + b) == StreamedText(a) + StreamedText(b)
  {
    if b == [] {
      assert a + b == a;
    } else {
      StreamedTextAppend(a, b[..|b| - 1]);
      assert (a + b)[..|a + b| - 1] == a + b[..|b| - 1];
      var text := DeltaText(b[|b| - 1]);
      assert StreamedText(a + b) == StreamedText(a + b[..|b| - 1]) + text;
      hide StreamedText, DeltaText;
      assert StreamedText(a) + StreamedText(b[..|b| - 1]) + text
          == StreamedText(a) + (StreamedText(b[..|b| - 1]) + text);
    }
  }

  lemma OneChunkText(c: ChatCompletionChunk)
    ensures StreamedText([c]) == DeltaText(c)
  {
    assert [c][..0] == [];
    assert "" + DeltaText(c) == DeltaText(c);
  }

  /** Leaving out empty deltas changes nothing a client can concatenate. */
  lemma DeltasCarryText(resp: AgentResponse, model: string)
    ensures StreamedText(Deltas(resp, model)) == Text(resp)
    ensures StreamedText(Deltas(resp, model))
              == DeltaText(MakeDeltaChunk(resp.requestID, model, Text(resp), Reasoning(resp)))
  {
    OneChunkText(MakeDeltaChunk(resp.requestID, model, Text(resp), Reasoning(resp)));
  }

  lemma {:induction false} StreamCarriesTexts(rs: seq<AgentResponse>, model: string)
    requires forall x <- rs :: !x.done
    ensures StreamedText(Emitted(rs, model)) == Texts(rs)
  {
    if rs != [] {
      var last := rs[|rs| - 1];
      StreamCarriesTexts(rs[..|rs| - 1], model);
      DeltasCarryText(last, model);
      StreamedTextAppend(Emitted(rs[..|rs| - 1], model), Deltas(last, model));
    }
  }

  /** What the stream leaves out: the final response's own chunk text or message body. */
  function FinalPart(rs: seq<AgentResponse>): string
    requires rs != []
  {
    Text(rs[|rs| - 1]) + Body(rs[|rs| - 1])
  }

  lemma LastFinal(rs: seq<AgentResponse>, model: string)
    requires Finished(rs)
    ensures StreamedText(Emitted(rs, model)) == StreamedText(Emitted(rs[..|rs| - 1], model))
    ensures Collected(rs) == Texts(rs[..|rs| - 1]) + Text(rs[|rs| - 1]) + Body(rs[|rs| - 1])
  {
    var before, last := rs[..|rs| - 1], rs[|rs| - 1];
    OneChunkText(FromAgentResponseChunk(last, model));
    StreamedTextAppend(Emitted(before, model), [FromAgentResponseChunk(last, model)]);
    assert StreamedText(Emitted(before, model)) + "" == StreamedText(Emitted(before, model));
  }

  lemma Suffix(a: string, b: string, c: string)
    ensures a + b + c == a + (b + c)
    ensures a + (b + c) == a <==> b + c == ""
  {
    assert |a + (b + c)| == |a| + |b + c|;
  }

  /** The two folds of one answer: the reply without streaming is the streamed deltas followed by
      exactly the final response's own content. */
  lemma FoldsAgree(rs: seq<AgentResponse>, model: string)
    requires Finished(rs) && StopsAtDone(rs)
    ensures Collected(rs) == StreamedText(Emitted(rs, model)) + FinalPart(rs)
    ensures Collected(rs) == StreamedText(Emitted(rs, model)) <==> FinalPart(rs) == ""
  {
    var before, last := rs[..|rs| - 1], rs[|rs| - 1];
    StreamCarriesTexts(before, model);
    hide StreamedText, Emitted, Texts, Text, Body;
    LastFinal(rs, model);
    Suffix(Texts(before), Text(last), Body(last));
  }

  lemma PieceShape(resp: AgentResponse, model: string)
    ensures resp.done ==>
              FromAgentResponseChunk(resp, model).choices == [ChunkChoice(0, Delta(None, None), Some("stop"))]
    ensures |Deltas(resp, model)| <= 1
    ensures forall c <- Deltas(resp, model) :: |c.choices| == 1 && c.choices[0].finishReason == None
  {
  }

  /** A finish reason marks the final response and nothing else. */
  lemma {:induction false} FinishMarksDone(rs: seq<AgentResponse>, model: string)
    requires StopsAtDone(rs)
    ensures var cs := Emitted(rs, model);
      && (forall k :: 0 <= k < |cs| ==> |cs[k].choices| == 1)
      && (forall k :: 0 <= k < |cs| - 1 ==> cs[k].choices[0].finishReason == None)
      && (cs != [] ==> (cs[|cs| - 1].choices[0].finishReason.Some? <==> Finished(rs)))
      && (Finished(rs) ==> cs != [] && cs[|cs| - 1].choices[0] == ChunkChoice(0, Delta(None, None), Some("stop")))
  {
    if rs != [] {
      var before, last := rs[..|rs| - 1], rs[|rs| - 1];
      FinishMarksDone(before, model);
      assert !Finished(before);
      PieceShape(last, model);
      var piece := if last.done then [FromAgentResponseChunk(last, model)] else Deltas(last, model);
      assert Emitted(rs, model) == Emitted(before, model) + piece;
      hide Emitted, Deltas, FromAgentResponseChunk, StopsAtDone;
      if piece == [] {
        assert Emitted(rs, model) == Emitted(before, model);
      }
    }
  }

  /** Every chunk of a stream names the request it answers and the model asked for. */
  lemma {:induction false} ChunksNameRequest(rs: seq<AgentResponse>, r: string, model: string)
    requires forall x <- rs :: x.requestID == r
    ensures forall c <- Emitted(rs, model) ::
              c.id == "chatcmpl-" + r && c.model == model && c.object_ == "chat.completion.chunk"
  {
    if rs != [] {
      var before, last := rs[..|rs| - 1], rs[|rs| - 1];
      ChunksNameRequest(before, r, model);
      var piece := if last.done then [FromAgentResponseChunk(last, model)] else Deltas(last, model);
      assert Emitted(rs, model) == Emitted(before, model) + piece;
    }
  }

  function Reasonings(rs: seq<AgentResponse>): string {
    if rs == [] then "" else Reasonings(rs[..|rs| - 1]) + Reasoning(rs[|rs| - 1])
  }

  function DeltaReasoning(c: ChatCompletionChunk): string {
    if c.choices != [] && c.choices[0].delta.reasoning.Some? then c.choices[0].delta.reasoning.value else ""
  }

  function StreamedReasoning(cs: seq<ChatCompletionChunk>): string {
    if cs == [] then "" else StreamedReasoning(cs[..|cs| - 1]) + DeltaReasoning(cs[|cs| - 1])
  }

  /** Reasoning reaches only a streaming client, who gets all of it but the final response's. */
  lemma {:induction false} StreamCarriesReasoning(rs: seq<AgentResponse>, model: string)
    requires StopsAtDone(rs)
    ensures StreamedReasoning(Emitted(rs, model)) == Reasonings(if Finished(rs) then rs[..|rs| - 1] else rs)
  {
    if rs != [] {
      var before, last := rs[..|rs| - 1], rs[|rs| - 1];
      StreamCarriesReasoning(before, model);
      assert !Finished(before);
      var cs := Emitted(before, model);
      var piece := if last.done then [FromAgentResponseChunk(last, model)] else Deltas(last, model);
      assert Emitted(rs, model) == cs + piece;
      if piece == [] {
        assert cs + piece == cs && Reasoning(last) == "";
        assert Reasonings(rs) == Reasonings(before) + "" == Reasonings(before);
      } else {
        assert (cs + piece)[..|cs|] == cs && (cs + piece)[|cs|] == piece[0];
        assert StreamedReasoning(cs + piece) == StreamedReasoning(cs) + DeltaReasoning(piece[0]);
        assert last.done ==> StreamedReasoning(cs) + "" == StreamedReasoning(cs);
      }
    }
  }

  // ----- What arrives, response by response -----

  function Concat(parts: seq<string>): string {
    if parts == [] then "" else Concat(parts[..|parts| - 1]) + parts[|parts| - 1]
  }

  lemma {:induction false} TextsAre(rs: seq<AgentResponse>, parts: seq<string>)
    requires |parts| == |rs| && forall k :: 0 <= k < |rs| ==> parts[k] == Text(rs[k])
    ensures Texts(rs) == Concat(parts)
  {
    if rs != [] {
      TextsAre(rs[..|rs| - 1], parts[..|rs| - 1]);
    }
  }

  lemma {:induction false} ReasoningsAre(rs: seq<AgentResponse>, parts: seq<string>)
    requires |parts| == |rs| && forall k :: 0 <= k < |rs| ==> parts[k] == Reasoning(rs[k])
    ensures Reasonings(rs) == Concat(parts)
  {
    if rs != [] {
      ReasoningsAre(rs[..|rs| - 1], parts[..|rs| - 1]);
    }
  }

  lemma LastJoins(rs: seq<AgentResponse>, parts: seq<string>)
    requires rs != [] && |parts| == |rs| && parts[|rs| - 1] == Text(rs[|rs| - 1]) + Body(rs[|rs| - 1])
    requires Texts(rs[..|rs| - 1]) == Concat(parts[..|rs| - 1])
    ensures Collected(rs) == Concat(parts)
  {
    var n := |rs| - 1;
    assert Collected(rs) == Texts(rs[..n]) + Text(rs[n]) + Body(rs[n]);
    assert Concat(parts) == Concat(parts[..n]) + parts[n];
    hide Texts, Concat, Text, Body;
    Suffix(Texts(rs[..n]), Text(rs[n]), Body(rs[n]));
  }

  /** The single reply joins the texts of all chunks, in order, and the body of a message that comes last. */
  lemma ReplyJoinsContents(rs: seq<AgentResponse>, parts: seq<string>)
    requires rs != [] && |parts| == |rs|
    requires forall k :: 0 <= k < |rs| ==> parts[k] == match rs[k].content
                                                       case Chunk(text, _) => text
                                                       case Message(_, body) => if k == |rs| - 1 then body else ""
                                                       case NoContent => ""
    ensures Collected(rs) == Concat(parts)
  {
    var n := |rs| - 1;
    TextsAre(rs[..n], parts[..n]);
    LastJoins(rs, parts);
  }

  /** A client that joins the deltas of a stream gets the texts and the reasoning of all chunks before the
      final response, in order. */
  lemma StreamJoinsContents(rs: seq<AgentResponse>, texts: seq<string>, reasonings: seq<string>, model: string)
    requires StopsAtDone(rs) && |texts| == |reasonings| == if Finished(rs) then |rs| - 1 else |rs|
    requires forall k :: 0 <= k < |texts| ==>
               match rs[k].content
               case Chunk(text, reasoning) => texts[k] == text && reasonings[k] == reasoning
               case _ => texts[k] == reasonings[k] == ""
    ensures StreamedText(Emitted(rs, model)) == Concat(texts)
    ensures StreamedReasoning(Emitted(rs, model)) == Concat(reasonings)
  {
    var open_ := if Finished(rs) then rs[..|rs| - 1] else rs;
    TextsAre(open_, texts);
    ReasoningsAre(open_, reasonings);
    StreamCarriesReasoning(rs, model);
    if Finished(rs) {
      LastFinal(rs, model);
    } else if rs != [] {
      assert forall x <- rs :: !x.done;
    }
    StreamCarriesTexts(open_, model);
  }
}
