/** The agent protocol's response message (api/proto/agent.proto), and sequences of them. */
module Proto {
  /** At most one of a chat message and a stream chunk. */
  datatype Content =
    | NoContent
    | Message(role: string, body: string)
    | Chunk(text: string, reasoning: string)

  datatype AgentResponse = AgentResponse(requestID: string, sessionID: string, content: Content, done: bool)

  /** The responses to one request, in order. */
  function For(rs: seq<AgentResponse>, r: string): seq<AgentResponse> {
    if rs == [] then []
    else For(rs[..|rs| - 1], r) + (if rs[|rs| - 1].requestID == r then [rs[|rs| - 1]] else [])
  }

  lemma ForAppend(rs: seq<AgentResponse>, x: AgentResponse, r: string)
    ensures For(rs + [x], r) == For(rs, r) + (if x.requestID == r then [x] else [])
  {
    assert (rs + [x])[..|rs|] == rs;
  }

  lemma {:induction false} ForNone(rs: seq<AgentResponse>, r: string)
    requires forall x <- rs :: x.requestID != r
    ensures For(rs, r) == []
  {
    if rs != [] {
      ForNone(rs[..|rs| - 1], r);
    }
  }

  /** Everything through the first final response. */
  function UpToDone(rs: seq<AgentResponse>): seq<AgentResponse> {
    if rs == [] then [] else if rs[0].done then [rs[0]] else [rs[0]] + UpToDone(rs[1..])
  }

  /** Behind responses that are not final, the run up to the final one continues. */
  lemma {:induction false} UpToDoneFrom(rs: seq<AgentResponse>, n: nat)
    requires n <= |rs| && forall k :: 0 <= k < n ==> !rs[k].done
    ensures UpToDone(rs) == rs[..n] + UpToDone(rs[n..])
  {
    if n == 0 {
      assert rs[0..] == rs;
    } else {
      UpToDoneFrom(rs[1..], n - 1);
      assert rs[1..][n - 1..] == rs[n..] && rs[..n] == [rs[0]] + rs[1..][..n - 1];
    }
  }

  /** No response after a final one. */
  predicate StopsAtDone(rs: seq<AgentResponse>) {
    forall k :: 0 <= k < |rs| - 1 ==> !rs[k].done
  }

  predicate Finished(rs: seq<AgentResponse>) {
    rs != [] && rs[|rs| - 1].done
  }

  /** A prefix that stops at a final response is a prefix of the run up to that response, and all of
      it once it is finished. */
  lemma {:induction false} StoppedPrefix(p: seq<AgentResponse>, rs: seq<AgentResponse>)
    requires p <= rs && StopsAtDone(p)
    ensures p <= UpToDone(rs)
    ensures Finished(p) ==> p == UpToDone(rs)
  {
    if p != [] {
      if rs[0].done {
        assert |p| == 1;
      } else {
        StoppedPrefix(p[1..], rs[1..]);
        assert p == [rs[0]] + p[1..];
      }
    }
  }
}
