/** The reconnect loop of the agent SDK (pkg/agentsdk/sdk.go). Durations are 64-bit integers, and
    doubling wraps around as it does there. */
module Backoff {
  import opened Decimal

  function Wrap(n: int): int {
    (n - MIN_INT64) % 0x1_0000_0000_0000_0000 + MIN_INT64
  }

  function Min(a: int, b: int): int {
    if a < b then a else b
  }

  function Doubled(delay: int, cap: int): int {
    Min(Wrap(delay * 2), cap)
  }

  /** The j-th wait since the last successful connect, or since the start. */
  function Delay(start: int, cap: int, j: nat): int {
    if j == 0 then start else Doubled(Delay(start, cap, j - 1), cap)
  }

  function Pow2(j: nat): (p: nat)
    ensures p >= 1
  {
    if j == 0 then 1 else 2 * Pow2(j - 1)
  }

  function ClosedForm(start: int, cap: int, j: nat): int {
    if j == 0 then start else Min(Pow2(j) * start, cap)
  }

  const HALF_RANGE := 0x4000_0000_0000_0000

  lemma DoublingIsExact(d: int)
    requires -HALF_RANGE <= d < HALF_RANGE
    ensures Wrap(d * 2) == d * 2
  {
  }

  lemma DoublePower(p: nat, start: nat)
    ensures 2 * p * start == 2 * (p * start) && p * start >= 0 && (start == 0 ==> p * start == 0)
  {
  }

  lemma {:induction false} DelayIsClosedForm(start: nat, cap: nat, j: nat)
    requires start == 0 || (start < HALF_RANGE && cap < HALF_RANGE)
    ensures Delay(start, cap, j) == ClosedForm(start, cap, j)
    ensures 0 <= Delay(start, cap, j) && (j == 0 || Delay(start, cap, j) <= cap)
  {
    if j > 0 {
      DelayIsClosedForm(start, cap, j - 1);
      var d := Delay(start, cap, j - 1);
      DoublePower(Pow2(j - 1), start);
      if j == 1 {
        assert Pow2(0) * start == start;
      }
      DoublingIsExact(d);
    }
  }

  /** With a start that is not zero and a setting at or beyond half the range of a duration, doubling
      sooner or later overflows: some wait is not the one of the closed form. */
  lemma Overflows(start: nat, cap: nat, j: nat) returns (k: nat)
    requires 0 < start <= MAX_INT64 && cap <= MAX_INT64
    requires HALF_RANGE <= Delay(start, cap, j) || HALF_RANGE <= cap
    requires 0 < Delay(start, cap, j) <= MAX_INT64
    ensures Delay(start, cap, k) != ClosedForm(start, cap, k)
    decreases MAX_INT64 - Delay(start, cap, j)
  {
    var d := Delay(start, cap, j);
    if HALF_RANGE <= d {
      assert Wrap(d * 2) == d * 2 - 0x1_0000_0000_0000_0000;
      assert Pow2(j + 1) * start >= 0;
      k := j + 1;
    } else {
      DoublingIsExact(d);
      k := Overflows(start, cap, j + 1);
    }
  }

  lemma {:induction false} Pow2Grows(j: nat)
    ensures Pow2(j) >= j + 1
  {
    if j > 0 {
      Pow2Grows(j - 1);
    }
  }

  lemma {:induction false} DelayInRange(start: int, cap: int, j: nat)
    requires InInt64(start) && InInt64(cap)
    ensures InInt64(Delay(start, cap, j))
  {
    if j > 0 {
      DelayInRange(start, cap, j - 1);
    }
  }

  lemma Below(p: nat, start: int)
    requires start < 0
    ensures p * start <= 0 - p
  {
  }

  /** A negative start doubles away for good, which no duration can follow. */
  lemma NegativeStart(start: int, cap: int) returns (k: nat)
    requires InInt64(start) && InInt64(cap) && start < 0
    ensures Delay(start, cap, k) != ClosedForm(start, cap, k)
  {
    k := -MIN_INT64;
    Pow2Grows(k);
    DelayInRange(start, cap, k);
    assert Pow2(k) * start <= 0 - Pow2(k) by { Below(Pow2(k), start); }
    hide Delay, Pow2;
  }

  /** A negative cap is kept exactly if it is so low that doubling it wraps around above it. */
  lemma {:induction false} LowCapStays(start: nat, cap: int, j: nat)
    requires InInt64(cap) && cap < -HALF_RANGE && cap <= Wrap(2 * start)
    ensures Delay(start, cap, j) == ClosedForm(start, cap, j)
    ensures j > 0 ==> Delay(start, cap, j) == cap
  {
    if j > 0 {
      LowCapStays(start, cap, j - 1);
      DoublePower(Pow2(j), start);
      assert Wrap(2 * cap) == 2 * cap + 0x1_0000_0000_0000_0000;
      hide Wrap, Pow2;
    }
  }

  lemma NegativeCap(start: nat, cap: int) returns (k: nat)
    requires InInt64(start) && InInt64(cap) && cap < 0 && !(cap < -HALF_RANGE && cap <= Wrap(2 * start))
    ensures Delay(start, cap, k) != ClosedForm(start, cap, k)
  {
    assert Pow2(1) == 2 && Pow2(2) == 4;
    assert Delay(start, cap, 1) == Doubled(start, cap);
    if Delay(start, cap, 1) == cap {
      k := 2;
      DoublingIsExact(cap);
      assert Delay(start, cap, 2) == 2 * cap;
    } else {
      k := 1;
    }
  }

  /** When doubling is harmless: nothing to double, both settings below half the range of a duration, or
      a negative cap too low to be left. */
  predicate KeepsForm(start: int, cap: int) {
    start >= 0
    && if cap >= 0 then start == 0 || (start < HALF_RANGE && cap < HALF_RANGE)
       else cap < -HALF_RANGE && cap <= Wrap(2 * start)
  }

  /** For all settings, the first wait is start and the j-th is min(2^j * start, cap), for every j,
      exactly when they pass this test. */
  lemma ClosedFormExactly(start: int, cap: int)
    requires InInt64(start) && InInt64(cap)
    ensures (forall j: nat :: Delay(start, cap, j) == ClosedForm(start, cap, j)) <==> KeepsForm(start, cap)
  {
    if start < 0 {
      var k := NegativeStart(start, cap);
    } else if cap < 0 {
      if KeepsForm(start, cap) {
        forall j: nat ensures Delay(start, cap, j) == ClosedForm(start, cap, j) {
          LowCapStays(start, cap, j);
        }
      } else {
        var k := NegativeCap(start, cap);
      }
    } else if KeepsForm(start, cap) {
      forall j: nat ensures Delay(start, cap, j) == ClosedForm(start, cap, j) {
        DelayIsClosedForm(start, cap, j);
      }
    } else {
      var k := Overflows(start, cap, 0);
    }
  }

  /** A negative cap is no cap: from the second doubling on the wait doubles away from it. */
  lemma NegativeCapDiverges(start: nat, cap: int)
    requires start < HALF_RANGE && -HALF_RANGE <= cap < 0
    ensures Delay(start, cap, 2) == 2 * cap && ClosedForm(start, cap, 2) == cap
  {
    DoublingIsExact(start);
    DoublingIsExact(cap);
    assert Delay(start, cap, 1) == cap;
    assert Pow2(2) == 4 && Pow2(2) * start >= 0;
  }

  function TotalWait(start: int, cap: int, n: nat): int {
    if n == 0 then 0 else TotalWait(start, cap, n - 1) + Delay(start, cap, n - 1)
  }

  lemma DelayBelow(start: nat, cap: nat, j: nat)
    requires start == 0 || (start < HALF_RANGE && cap < HALF_RANGE)
    ensures 0 <= Delay(start, cap, j) <= Pow2(j) * start
    ensures Delay(start, cap, j) <= if start < cap then cap else start
  {
    DelayIsClosedForm(start, cap, j);
    if j == 0 {
      assert Pow2(0) * start == start;
    }
  }

  lemma SplitPower(p: nat, start: nat)
    ensures (2 * p - 1) * start == (p - 1) * start + p * start
  {
  }

  /** Whatever the settings, no wait exceeds the larger of them; and where the closed form holds for
      settings that are not negative, n waits in a row last at most (2^n - 1) * start. */
  lemma {:induction false} WaitsAreBounded(start: int, cap: int, n: nat)
    ensures Delay(start, cap, n) <= if start < cap then cap else start
    ensures 0 <= cap && KeepsForm(start, cap) ==>
              0 <= Delay(start, cap, n) && TotalWait(start, cap, n) <= (Pow2(n) - 1) * start
  {
    if 0 <= cap && KeepsForm(start, cap) {
      hide Delay;
      DelayBelow(start, cap, n);
      if n > 0 {
        WaitsAreBounded(start, cap, n - 1);
        DelayBelow(start, cap, n - 1);
        SplitPower(Pow2(n - 1), start);
      }
    }
  }

  // ----- The loop -----

  /** One round: whether the loop is told to stop before it, whether connecting works, whether the
      session ends in an error, and whether the loop is told to stop during the wait. */
  datatype Round = Round(stopped: bool, connected: bool, sessionErr: bool, interrupted: bool)

  datatype Exit = StillRunning | StoppedByCaller | ConnectError | SessionError | SessionEnded

  /** For each wait the loop starts, how many waits came since the last successful connect. */
  function WaitIndexes(rounds: seq<Round>, reconnect: bool, j: nat): seq<nat> {
    if rounds == [] || rounds[0].stopped then []
    else
      var r := rounds[0];
      if !reconnect || (r.connected && !r.sessionErr) then []
      else
        var k := if r.connected then 0 else j;
        [k] + if r.interrupted then [] else WaitIndexes(rounds[1..], reconnect, k + 1)
  }

  function ExitOf(rounds: seq<Round>, reconnect: bool): Exit {
    if rounds == [] then StillRunning
    else
      var r := rounds[0];
      if r.stopped then StoppedByCaller
      else if r.connected && !r.sessionErr then SessionEnded
      else if !reconnect then (if r.connected then SessionError else ConnectError)
      else if r.interrupted then StoppedByCaller
      else ExitOf(rounds[1..], reconnect)
  }

  lemma OneWait(rounds: seq<Round>, reconnect: bool, j: nat)
    requires rounds != [] && !rounds[0].stopped && reconnect && (rounds[0].connected ==> rounds[0].sessionErr)
    ensures var k := if rounds[0].connected then 0 else j;
      WaitIndexes(rounds, reconnect, j)
      == [k] + if rounds[0].interrupted then [] else WaitIndexes(rounds[1..], reconnect, k + 1)
    ensures ExitOf(rounds, reconnect)
            == if rounds[0].interrupted then StoppedByCaller else ExitOf(rounds[1..], reconnect)
  {
  }

  /** Each round before the loop ends waits once, and a wait counts from zero after a round that connected, and
      otherwise on from the wait before. */
  lemma {:induction false} WaitsFollowRounds(rounds: seq<Round>, reconnect: bool, j: nat)
    ensures var ws := WaitIndexes(rounds, reconnect, j);
      && |ws| <= |rounds|
      && (forall m :: 0 <= m < |ws| ==>
            reconnect && !rounds[m].stopped && (rounds[m].connected ==> rounds[m].sessionErr))
      && (forall m :: 0 <= m < |ws| - 1 ==> !rounds[m].interrupted)
      && (forall m {:trigger ws[m]} :: 0 <= m < |ws| ==>
            ws[m] == if rounds[m].connected then 0 else if m == 0 then j else ws[m - 1] + 1)
  {
    if rounds != [] && !rounds[0].stopped && reconnect && (rounds[0].connected ==> rounds[0].sessionErr) {
      var k, rest := if rounds[0].connected then 0 else j, rounds[1..];
      OneWait(rounds, reconnect, j);
      if !rounds[0].interrupted {
        WaitsFollowRounds(rest, reconnect, k + 1);
        var ws := WaitIndexes(rest, reconnect, k + 1);
        hide WaitIndexes, ExitOf;
        assert forall m :: 0 < m <= |ws| ==> ([k] + ws)[m] == ws[m - 1] && rounds[m] == rest[m - 1];
      }
    }
  }

  /** The loop ends when it is told to, before a round or during a wait; when a session ends without error; and,
      if it is not to reconnect, with the first failure. It has waited once in each round before. */
  lemma {:induction false} ExitFollowsRounds(rounds: seq<Round>, reconnect: bool, j: nat)
    ensures var n := |WaitIndexes(rounds, reconnect, j)|;
      && n <= |rounds|
      && match ExitOf(rounds, reconnect)
         case StillRunning => n == |rounds| && (n > 0 ==> !rounds[n - 1].interrupted)
         case StoppedByCaller => (n > 0 && rounds[n - 1].interrupted) || (n < |rounds| && rounds[n].stopped)
         case SessionEnded => n < |rounds| && !rounds[n].stopped && rounds[n].connected && !rounds[n].sessionErr
         case SessionError =>
           !reconnect && n < |rounds| && !rounds[n].stopped && rounds[n].connected && rounds[n].sessionErr
         case ConnectError => !reconnect && n < |rounds| && !rounds[n].stopped && !rounds[n].connected
  {
    if rounds != [] && !rounds[0].stopped && reconnect && (rounds[0].connected ==> rounds[0].sessionErr) {
      var k, rest := if rounds[0].connected then 0 else j, rounds[1..];
      OneWait(rounds, reconnect, j);
      if !rounds[0].interrupted {
        ExitFollowsRounds(rest, reconnect, k + 1);
        hide WaitIndexes, ExitOf;
        assert forall m :: 0 < m < |rounds| ==> rounds[m] == rest[m - 1];
      }
    }
  }

  function Delays(start: int, cap: int, indexes: seq<nat>): seq<int> {
    seq(|indexes|, k requires 0 <= k < |indexes| => Delay(start, cap, indexes[k]))
  }

  lemma DelayNext(start: int, cap: int, j: nat)
    ensures Delay(start, cap, 0) == start
    ensures Delay(start, cap, j + 1) == Doubled(Delay(start, cap, j), cap)
  {
  }

  /** One round taken off the rest of the run. */
  lemma RoundsAt(rounds: seq<Round>, reconnect: bool, n: nat, j: nat, done: seq<nat>)
    requires n < |rounds|
    ensures var r, k, rest := rounds[n], if rounds[n].connected then 0 else j, rounds[n + 1..];
      && (r.stopped || !reconnect || (r.connected && !r.sessionErr) ==>
            done + WaitIndexes(rounds[n..], reconnect, j) == done)
      && (!r.stopped && reconnect && !(r.connected && !r.sessionErr) ==>
            done + WaitIndexes(rounds[n..], reconnect, j)
            == done + [k] + if r.interrupted then [] else WaitIndexes(rest, reconnect, k + 1))
      && (!r.stopped && reconnect && !(r.connected && !r.sessionErr) && !r.interrupted ==>
            ExitOf(rounds[n..], reconnect) == ExitOf(rest, reconnect))
      && (r.stopped ==> ExitOf(rounds[n..], reconnect) == StoppedByCaller)
      && (!r.stopped && r.connected && !r.sessionErr ==> ExitOf(rounds[n..], reconnect) == SessionEnded)
      && (!r.stopped && !reconnect && !(r.connected && !r.sessionErr) ==>
            ExitOf(rounds[n..], reconnect) == if r.connected then SessionError else ConnectError)
      && (!r.stopped && reconnect && !(r.connected && !r.sessionErr) && r.interrupted ==>
            ExitOf(rounds[n..], reconnect) == StoppedByCaller && done + [k] + [] == done + [k])
  {
    assert rounds[n..][1..] == rounds[n + 1..];
  }

  lemma AtTheEnds(rounds: seq<Round>, reconnect: bool, done: seq<nat>)
    ensures rounds[0..] == rounds && [] + WaitIndexes(rounds, reconnect, 0) == WaitIndexes(rounds, reconnect, 0)
    ensures forall j: nat :: done + WaitIndexes(rounds[|rounds|..], reconnect, j) == done
    ensures ExitOf(rounds[|rounds|..], reconnect) == StillRunning
  {
  }

  lemma OneMoreDelay(start: int, cap: int, done: seq<nat>, j: nat)
    ensures Delays(start, cap, done + [j]) == Delays(start, cap, done) + [Delay(start, cap, j)]
    ensures Delays(start, cap, []) == []
  {
  }

  /** Every wait is the one its position since the last successful connect calls for: connecting
      resets the backoff, failing to connect and losing a session both advance it. */
  method Run(reconnectDelay: int, maxReconnectWait: int, reconnect: bool, rounds: seq<Round>)
    returns (exit: Exit, waits: seq<int>)
    ensures exit == ExitOf(rounds, reconnect)
    ensures waits == Delays(reconnectDelay, maxReconnectWait, WaitIndexes(rounds, reconnect, 0))
  {
    hide Delay, Doubled, Delays, WaitIndexes, ExitOf;
    DelayNext(reconnectDelay, maxReconnectWait, 0);
    OneMoreDelay(reconnectDelay, maxReconnectWait, [], 0);
    AtTheEnds(rounds, reconnect, []);
    var currentDelay := reconnectDelay;
    ghost var j, done: seq<nat> := 0, [];
    waits := [];
    for n := 0 to |rounds|
      invariant currentDelay == Delay(reconnectDelay, maxReconnectWait, j)
      invariant waits == Delays(reconnectDelay, maxReconnectWait, done)
      invariant WaitIndexes(rounds, reconnect, 0) == done + WaitIndexes(rounds[n..], reconnect, j)
      invariant ExitOf(rounds, reconnect) == ExitOf(rounds[n..], reconnect)
    {
      var r := rounds[n];
      RoundsAt(rounds, reconnect, n, j, done);
      if r.stopped {
        return StoppedByCaller, waits;
      }
      if !r.connected {
        if !reconnect {
          return ConnectError, waits;
        }
      } else {
        currentDelay := reconnectDelay;
        j := 0;
        if !r.sessionErr {
          return SessionEnded, waits;
        }
        if !reconnect {
          return SessionError, waits;
        }
      }
      OneMoreDelay(reconnectDelay, maxReconnectWait, done, j);
      waits := waits + [currentDelay];
      done := done + [j];
      if r.interrupted {
        return StoppedByCaller, waits;
      }
      DelayNext(reconnectDelay, maxReconnectWait, j);
      currentDelay := Doubled(currentDelay, maxReconnectWait);
      j := j + 1;
    }
    AtTheEnds(rounds, reconnect, done);
    exit := StillRunning;
  }
}
