/** Server-sent events: how the gateway frames a payload (internal/handler/chat.go), and how a client
    takes a stream apart, after section 9.2 of the WHATWG HTML Standard. */
module Sse {
  import opened Keys

  const DONE := "[DONE]"

  /** The frame written for one payload. */
  function Frame(payload: string): string {
    "data: " + payload + "\n\n"
  }

  function Frames(payloads: seq<string>): string {
    if payloads == [] then "" else Frame(payloads[0]) + Frames(payloads[1..])
  }

  // ----- The client -----

  predicate IsEOL(c: char) {
    c == '\n' || c == '\r'
  }

  predicate OneLine(s: string) {
    forall c <- s :: !IsEOL(c)
  }

  function LineLength(s: string): (n: nat)
    ensures n <= |s| && OneLine(s[..n]) && (n < |s| ==> IsEOL(s[n]))
  {
    if s == [] || IsEOL(s[0]) then 0
    else
      assert forall k :: 0 <= k <= |s| - 1 ==> s[..k + 1] == [s[0]] + s[1..][..k];
      1 + LineLength(s[1..])
  }

  /** A field line adds to the data buffer if its name is "data"; comments and other fields do not. */
  function Field(line: string, data: string): string {
    var k := FirstColon(line);
    var value := if k < |line| then line[k + 1..] else "";
    var stripped := if value != "" && value[0] == ' ' then value[1..] else value;
    if line[..k] == "data" then data + stripped + "\n" else data
  }

  /** The data of the events in a complete stream: a blank line dispatches what was gathered, and
      whatever is not followed by one is discarded. */
  function Events(s: string, data: string): seq<string>
    decreases |s|
  {
    var n := LineLength(s);
    if n == |s| then []
    else
      var rest := if s[n] == '\r' && n + 1 < |s| && s[n + 1] == '\n' then s[n + 2..] else s[n + 1..];
      if n == 0 then (if data == "" then [] else [data[..|data| - 1]]) + Events(rest, "")
      else Events(rest, Field(s[..n], data))
  }

  lemma LineLengthIs(s: string, n: nat)
    requires n < |s| && IsEOL(s[n]) && OneLine(s[..n])
    ensures LineLength(s) == n
  {
    forall k | 0 <= k < n ensures !IsEOL(s[k]) {
      assert s[..n][k] in s[..n];
    }
    var m := LineLength(s);
    forall k | 0 <= k < m ensures !IsEOL(s[k]) {
      assert s[..m][k] in s[..m];
    }
  }

  lemma DataField(payload: string)
    ensures Field("data: " + payload, "") == payload + "\n"
  {
    var line := "data: " + payload;
    assert line[..4] == "data";
    assert ColonFree(line[..4]) && line[4] == ':';
    FirstColonIs(line, 4);
    assert line[5..] == " " + payload;
    assert (" " + payload)[1..] == payload;
    assert "" + payload + "\n" == payload + "\n";
  }

  /** One frame is one event with that payload, whatever follows. */
  lemma FrameIsEvent(payload: string, rest: string)
    requires OneLine(payload)
    ensures Events(Frame(payload) + rest, "") == [payload] + Events(rest, "")
  {
    var s, n := Frame(payload) + rest, 6 + |payload|;
    var line := "data: " + payload;
    assert s == line + "\n" + ("\n" + rest);
    assert s[..n] == line && s[n] == '\n';
    assert OneLine(line);
    LineLengthIs(s, n);
    assert s[n + 1..] == "\n" + rest;
    DataField(payload);
    LineLengthIs("\n" + rest, 0);
    assert ("\n" + rest)[1..] == rest;
    assert (payload + "\n")[..|payload|] == payload;
  }

  /** A stream of frames reads back as its payloads, all of them, in order. */
  lemma {:induction false} FramesAreEvents(payloads: seq<string>)
    requires forall p <- payloads :: OneLine(p)
    ensures Events(Frames(payloads), "") == payloads
  {
    if payloads != [] {
      FrameIsEvent(payloads[0], Frames(payloads[1..]));
      FramesAreEvents(payloads[1..]);
      assert payloads == [payloads[0]] + payloads[1..];
    }
  }

  lemma {:induction false} FramesAppend(payloads: seq<string>, p: string)
    ensures Frames(payloads + [p]) == Frames(payloads) + Frame(p)
  {
    if payloads == [] {
      assert [p][1..] == [] && Frames([p]) == Frame(p) + "";
    } else {
      assert (payloads + [p])[1..] == payloads[1..] + [p];
      FramesAppend(payloads[1..], p);
      assert Frame(payloads[0]) + (Frames(payloads[1..]) + Frame(p)) == Frames(payloads) + Frame(p);
    }
  }
}
