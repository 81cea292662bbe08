/** How fast least-connections routing evens out the session counters. */
module Balance {
  import opened Basics
  import opened Decimal
  import opened Keys
  import opened RedisModel
  import opened Registry
  import opened Routing
  import RegistryProperties
  import Runs

  // ----- Counters alone -----

  predicate IsMin(c: seq<int>, p: nat) {
    p < |c| && forall j :: 0 <= j < |c| ==> c[p] <= c[j]
  }

  /** Each pick is a least-loaded agent, whichever among equals, and gets one session more. */
  predicate Picks(c: seq<int>, picks: seq<nat>)
    decreases |picks|
  {
    picks == [] || (IsMin(c, picks[0]) && Picks(c[picks[0] := c[picks[0]] + 1], picks[1..]))
  }

  function After(c: seq<int>, picks: seq<nat>): seq<int>
    requires Picks(c, picks)
    decreases |picks|
  {
    if picks == [] then c else After(c[picks[0] := c[picks[0]] + 1], picks[1..])
  }

  predicate Within(c: seq<int>, d: int) {
    forall i, j :: 0 <= i < |c| && 0 <= j < |c| ==> c[i] - c[j] <= d
  }

  /** The spread never grows beyond one, or beyond what it was. */
  lemma {:induction false} SpreadBounded(c: seq<int>, picks: seq<nat>, d: int)
    requires Picks(c, picks) && Within(c, d) && d >= 1
    ensures Within(After(c, picks), d)
    decreases |picks|
  {
    if picks != [] {
      SpreadBounded(c[picks[0] := c[picks[0]] + 1], picks[1..], d);
    }
  }

  /** How many sessions are missing until every counter is at least m - 1. */
  function Deficit(c: seq<int>, m: int): nat {
    if c == [] then 0 else (if c[0] < m - 1 then m - 1 - c[0] else 0) + Deficit(c[1..], m)
  }

  lemma {:induction false} DeficitUpdate(c: seq<int>, m: int, p: nat)
    requires p < |c| && c[p] < m - 1
    ensures Deficit(c[p := c[p] + 1], m) == Deficit(c, m) - 1
  {
    var c' := c[p := c[p] + 1];
    if p == 0 {
      assert c'[1..] == c[1..];
    } else {
      assert c'[1..] == c[1..][p - 1 := c[1..][p - 1] + 1];
      DeficitUpdate(c[1..], m, p - 1);
    }
  }

  lemma {:induction false} DeficitZero(c: seq<int>, m: int)
    ensures Deficit(c, m) == 0 <==> forall i :: 0 <= i < |c| ==> m - 1 <= c[i]
  {
    if c != [] {
      DeficitZero(c[1..], m);
      assert forall i :: 0 < i < |c| ==> c[i] == c[1..][i - 1];
    }
  }

  lemma {:induction false} DeficitBound(c: seq<int>, m: int, d: nat)
    requires d >= 1 && forall i :: 0 <= i < |c| ==> m - d <= c[i]
    ensures Deficit(c, m) <= |c| * (d - 1)
    ensures m in c ==> Deficit(c, m) <= (|c| - 1) * (d - 1)
  {
    if c != [] {
      DeficitBound(c[1..], m, d);
      assert |c| * (d - 1) == (d - 1) + |c[1..]| * (d - 1);
      if c[0] != m && m in c {
        assert m in c[1..];
        assert (|c| - 1) * (d - 1) == (d - 1) + (|c[1..]| - 1) * (d - 1);
      }
    }
  }

  /** Every pick made while some counter is two below the ceiling fills one missing session. */
  lemma {:induction false} Converges(c: seq<int>, picks: seq<nat>, m: int)
    requires Picks(c, picks) && (forall i :: 0 <= i < |c| ==> c[i] <= m)
    requires Deficit(c, m) <= |picks|
    ensures Within(After(c, picks), 1)
    decreases |picks|
  {
    DeficitZero(c, m);
    if Deficit(c, m) == 0 {
      assert Within(c, 1);
      SpreadBounded(c, picks, 1);
    } else {
      var p := picks[0];
      assert c[p] < m - 1;
      DeficitUpdate(c, m, p);
      Converges(c[p := c[p] + 1], picks[1..], m);
    }
  }

  lemma {:induction false} MaxOf(c: seq<int>) returns (m: int)
    requires c != []
    ensures m in c && forall i :: 0 <= i < |c| ==> c[i] <= m
  {
    if |c| == 1 {
      m := c[0];
    } else {
      m := MaxOf(c[1..]);
      assert forall i :: 0 < i < |c| ==> c[i] == c[1..][i - 1];
      if m < c[0] { m := c[0]; }
    }
  }

  /** k agents whose counters differ by at most d are even, to within one session, after (k-1)*d
      requests - in fact after (k-1)*(d-1). */
  lemma RebalancedAfter(c: seq<int>, picks: seq<nat>, d: nat)
    requires c != [] && Picks(c, picks) && Within(c, d)
    requires d > 0 ==> (|c| - 1) * (d - 1) <= |picks|
    ensures Within(After(c, picks), 1)
  {
    if d == 0 {
      SpreadBounded(c, picks, 1);
    } else {
      var m := MaxOf(c);
      DeficitBound(c, m, d);
      Converges(c, picks, m);
    }
  }

  function Sum(c: seq<int>): int {
    if c == [] then 0 else c[0] + Sum(c[1..])
  }

  lemma {:induction false} SumUpdate(c: seq<int>, p: nat)
    requires p < |c|
    ensures Sum(c[p := c[p] + 1]) == Sum(c) + 1
  {
    var c' := c[p := c[p] + 1];
    if p == 0 {
      assert c'[1..] == c[1..];
    } else {
      assert c'[1..] == c[1..][p - 1 := c[1..][p - 1] + 1];
      SumUpdate(c[1..], p - 1);
    }
  }

  lemma {:induction false} SumAfter(c: seq<int>, picks: seq<nat>)
    requires Picks(c, picks)
    ensures Sum(After(c, picks)) == Sum(c) + |picks| && |After(c, picks)| == |c|
    decreases |picks|
  {
    if picks != [] {
      SumUpdate(c, picks[0]);
      SumAfter(c[picks[0] := c[picks[0]] + 1], picks[1..]);
    }
  }

  lemma {:induction false} SumBounds(c: seq<int>, lo: int, hi: int)
    requires forall i :: 0 <= i < |c| ==> lo <= c[i] <= hi
    ensures |c| * lo <= Sum(c) <= |c| * hi
    ensures lo in c && lo < hi ==> Sum(c) < |c| * hi
    ensures hi in c && lo < hi ==> |c| * lo < Sum(c)
  {
    if c != [] {
      SumBounds(c[1..], lo, hi);
      assert |c| * lo == lo + |c[1..]| * lo && |c| * hi == hi + |c[1..]| * hi;
    }
  }

  lemma MulMonotone(k: nat, a: int, b: int)
    requires a <= b
    ensures k * a <= k * b
  {
    assert k * (b - a) >= 0;
    assert k * (b - a) == k * b - k * a;
  }

  lemma QuotientIs(n: nat, k: nat, q: int)
    requires k > 0 && k * q <= n < k * q + k
    ensures n / k == q && n % k == n - k * q
  {
    var a := n / k;
    assert n == k * a + n % k;
    if q < a { MulMonotone(k, q + 1, a); }
    if a < q { MulMonotone(k, a + 1, q); }
  }

  /** From all zeros the requests are spread evenly: n over k agents leaves each with n/k of them,
      rounded down or up. */
  lemma EvenFromZero(k: nat, picks: seq<nat>)
    requires k > 0 && Picks(seq(k, _ => 0), picks)
    ensures var n := |picks|; var c := After(seq(k, _ => 0), picks);
      |c| == k && Sum(c) == n
      && forall i :: 0 <= i < k ==> c[i] == n / k || (n % k != 0 && c[i] == n / k + 1)
  {
    var zero := seq(k, _ => 0);
    var n, c := |picks|, After(zero, picks);
    SumBounds(zero, 0, 0);
    SumAfter(zero, picks);
    SpreadBounded(zero, picks, 1);
    var m := MaxOf(c);
    SumBounds(c, m - 1, m);
    assert k * m - k < n <= k * m by {
      assert k * (m - 1) == k * m - k;
    }
    if n == k * m {
      QuotientIs(n, k, m);
      forall i | 0 <= i < k ensures c[i] == m {
        assert m - 1 in c ==> Sum(c) < k * m;
      }
    } else {
      QuotientIs(n, k, m - 1);
    }
  }

  // ----- Choosing and counting apart -----

  /** A request chooses an agent in one step and is counted in another. */
  datatype Move = Choose(p: nat) | Count(p: nat)

  /** `e` are the counters with the requests added that have chosen and are not counted yet, at most m of them. Who
      chooses sees the counters alone. */
  predicate Moves(c: seq<int>, e: seq<int>, m: nat, moves: seq<Move>)
    requires |c| == |e|
    decreases |moves|
  {
    moves != [] ==>
      match moves[0]
      case Choose(p) => IsMin(c, p) && Sum(e) + 1 - Sum(c) <= m && Moves(c, e[p := e[p] + 1], m, moves[1..])
      case Count(p) => p < |c| && c[p] < e[p] && Moves(c[p := c[p] + 1], e, m, moves[1..])
  }

  function Moved(c: seq<int>, e: seq<int>, m: nat, moves: seq<Move>): seq<int>
    requires |c| == |e| && Moves(c, e, m, moves)
    decreases |moves|
  {
    if moves == [] then c
    else match moves[0]
      case Choose(p) => Moved(c, e[p := e[p] + 1], m, moves[1..])
      case Count(p) => Moved(c[p := c[p] + 1], e, m, moves[1..])
  }

  function Choices(moves: seq<Move>): nat {
    if moves == [] then 0 else (if moves[0].Choose? then 1 else 0) + Choices(moves[1..])
  }

  predicate Below(c: seq<int>, e: seq<int>) {
    |c| == |e| && forall i :: 0 <= i < |c| ==> c[i] <= e[i]
  }

  lemma {:induction false} PartOfSum(c: seq<int>, e: seq<int>, p: nat)
    requires Below(c, e) && p < |c|
    ensures 0 <= e[p] - c[p] <= Sum(e) - Sum(c)
  {
    if p > 0 {
      assert Below(c[1..], e[1..]);
      PartOfSum(c[1..], e[1..], p - 1);
    } else if |c| > 1 {
      assert Below(c[1..], e[1..]);
      PartOfSum(c[1..], e[1..], 0);
    }
  }

  /** No counter with its requests under way is more than b above any other. */
  predicate Apart(c: seq<int>, e: seq<int>, b: int) {
    forall i, j :: 0 <= i < |e| && 0 <= j < |c| ==> e[i] - c[j] <= b
  }

  lemma {:induction false} ApartStays(c: seq<int>, e: seq<int>, m: nat, moves: seq<Move>, b: nat)
    requires Below(c, e) && Moves(c, e, m, moves) && m <= b && Apart(c, e, b)
    ensures Within(Moved(c, e, m, moves), b)
    decreases |moves|
  {
    if moves != [] {
      var p := moves[0].p;
      if moves[0].Choose? {
        SumUpdate(e, p);
        PartOfSum(c, e[p := e[p] + 1], p);
        ApartStays(c, e[p := e[p] + 1], m, moves[1..], b);
      } else {
        ApartStays(c[p := c[p] + 1], e, m, moves[1..], b);
      }
    }
  }

  /** A counter with its requests is above the top only if none is more than m below it. */
  predicate Near(c: seq<int>, e: seq<int>, m: nat, top: int) {
    forall i, j :: 0 <= i < |e| && 0 <= j < |c| ==> e[i] <= top || e[i] - c[j] <= m
  }

  lemma AllCaughtUp(c: seq<int>, e: seq<int>, m: nat, top: int)
    requires Below(c, e) && Sum(e) - Sum(c) <= m && Deficit(e, top + 1) == 0 && Near(c, e, m, top)
    ensures Apart(c, e, m)
  {
    DeficitZero(e, top + 1);
    forall j | 0 <= j < |c| ensures top - m <= c[j] {
      PartOfSum(c, e, j);
    }
  }

  /** An agent is chosen that with its requests has reached the top: then all are near. */
  lemma ChosenAtTop(c: seq<int>, e: seq<int>, m: nat, top: int, p: nat)
    requires Below(c, e) && Near(c, e, m, top) && IsMin(c, p) && top <= e[p] && Sum(e) + 1 - Sum(c) <= m
    ensures Apart(c, e, m)
  {
    SumUpdate(e, p);
    PartOfSum(c, e[p := e[p] + 1], p);
  }

  lemma CountKeepsNear(c: seq<int>, e: seq<int>, m: nat, top: int, p: nat)
    requires Below(c, e) && Near(c, e, m, top) && p < |c| && c[p] < e[p]
    ensures var c' := c[p := c[p] + 1]; Below(c', e) && Near(c', e, m, top) && Sum(c') == Sum(c) + 1
  {
    SumUpdate(c, p);
  }

  lemma ChoiceKeepsNear(c: seq<int>, e: seq<int>, m: nat, top: int, p: nat)
    requires Below(c, e) && Near(c, e, m, top) && p < |e| && e[p] < top
    ensures var e' := e[p := e[p] + 1];
      Below(c, e') && Near(c, e', m, top) && Sum(e') == Sum(e) + 1 && Deficit(e', top + 1) == Deficit(e, top + 1) - 1
  {
    SumUpdate(e, p);
    DeficitUpdate(e, top + 1, p);
  }

  /** Every choice made while some counter is more than m below the top fills one missing session. */
  lemma {:induction false} OverlapConverges(c: seq<int>, e: seq<int>, m: nat, moves: seq<Move>, top: int)
    requires Below(c, e) && Moves(c, e, m, moves) && Sum(e) - Sum(c) <= m && Near(c, e, m, top)
    requires Deficit(e, top + 1) <= Choices(moves)
    ensures Within(Moved(c, e, m, moves), m)
    decreases |moves|
  {
    hide Within, Apart, Near, Deficit, Sum;
    if Deficit(e, top + 1) == 0 {
      AllCaughtUp(c, e, m, top);
      ApartStays(c, e, m, moves, m);
      return;
    }
    var p := moves[0].p;
    if moves[0].Count? {
      CountKeepsNear(c, e, m, top, p);
      OverlapConverges(c[p := c[p] + 1], e, m, moves[1..], top);
    } else if e[p] < top {
      ChoiceKeepsNear(c, e, m, top, p);
      OverlapConverges(c, e[p := e[p] + 1], m, moves[1..], top);
    } else {
      ChosenAtTop(c, e, m, top, p);
      ApartStays(c, e, m, moves, m);
    }
  }

  lemma {:induction false} DeficitTop(c: seq<int>, top: int, d: nat)
    requires forall i :: 0 <= i < |c| ==> top - d <= c[i] <= top
    ensures Deficit(c, top + 1) <= |c| * d
    ensures top in c ==> Deficit(c, top + 1) <= (|c| - 1) * d
  {
    if c != [] {
      DeficitTop(c[1..], top, d);
      assert |c| * d == d + |c[1..]| * d;
      if c[0] != top && top in c {
        assert top in c[1..];
        assert (|c| - 1) * d == d + (|c[1..]| - 1) * d;
      }
    }
  }

  /** With at most m requests between choosing and being counted at a time, the spread never exceeds
      max(d, m), and is at most m after (k-1)*d choices. */
  lemma OverlapBounded(c: seq<int>, m: nat, moves: seq<Move>, d: nat)
    requires c != [] && Moves(c, c, m, moves) && Within(c, d)
    ensures Within(Moved(c, c, m, moves), if d < m then m else d)
    ensures (|c| - 1) * d <= Choices(moves) ==> Within(Moved(c, c, m, moves), m)
  {
    ApartStays(c, c, m, moves, if d < m then m else d);
    if (|c| - 1) * d <= Choices(moves) {
      var top := MaxOf(c);
      DeficitTop(c, top, d);
      OverlapConverges(c, c, m, moves, top);
    }
  }

  /** m requests that all choose before any is counted. */
  function AtOnce(choosing: nat, counting: nat): seq<Move> {
    if choosing > 0 then [Choose(0)] + AtOnce(choosing - 1, counting)
    else if counting > 0 then [Count(0)] + AtOnce(0, counting - 1) else []
  }

  lemma {:induction false} OverlapSpreads(a: nat, b: nat, m: nat, choosing: nat, counting: nat)
    requires a + counting == b + choosing && b + choosing <= m && (choosing > 0 ==> a == 0)
    ensures Moves([a, 0], [b, 0], m, AtOnce(choosing, counting))
    ensures Moved([a, 0], [b, 0], m, AtOnce(choosing, counting)) == [b + choosing, 0]
    decreases choosing, counting
  {
    var moves := AtOnce(choosing, counting);
    if choosing > 0 {
      assert moves[1..] == AtOnce(choosing - 1, counting) && [b, 0][0 := b + 1] == [b + 1, 0];
      OverlapSpreads(a, b + 1, m, choosing - 1, counting);
    } else if counting > 0 {
      assert moves[1..] == AtOnce(0, counting - 1) && [a, 0][0 := a + 1] == [a + 1, 0];
      OverlapSpreads(a + 1, b, m, 0, counting - 1);
    }
  }

  /** The bound is met: m requests that come at once all go to one of two idle agents. */
  lemma OverlapIsTight(m: nat)
    ensures Moves([0, 0], [0, 0], m, AtOnce(m, m)) && Moved([0, 0], [0, 0], m, AtOnce(m, m)) == [m, 0]
  {
    OverlapSpreads(0, 0, m, m, m);
  }

  // ----- The counters in the store -----

  /** The online agents of a type, each once, in some order. */
  ghost predicate Enumerates(s: Store, t: string, ids: seq<string>) {
    && (forall i :: i in ids <==> i in Scan(s, t) && Online(s, t, i))
    && (forall a, b :: 0 <= a < b < |ids| ==> ids[a] != ids[b])
  }

  function Load(s: Store, t: string, i: string): int {
    if Lookup(s, t, i).Ok? then Lookup(s, t, i).value.activeSessions else 0
  }

  function Loads(s: Store, t: string, ids: seq<string>): seq<int> {
    seq(|ids|, n requires 0 <= n < |ids| => Load(s, t, ids[n]))
  }

  /** What one new request does to the store: route, then count it for the agent chosen. */
  ghost function Dispatch(s: Store, t: string, i: string): Store {
    AddSessions(Prune(s, t), t, i, 1)
  }

  /** What happens to the store: a request is dispatched to an agent, or something else goes on. */
  datatype Traffic = Request(agentID: string) | Aside(op: Runs.Op)

  /** Operations that leave the agents of type t and their counters alone: beats, listings, everything about
      sessions and gateways' addresses, agents of other types, and time within the leases. */
  ghost predicate Quiet(s: Store, op: Runs.Op, t: string) {
    match op
    case Tick(dt) =>
      forall i <- Scan(s, t) ::
        DeadlineOf(s, Agent(t, i)).Some? ==> s.now + dt < DeadlineOf(s, Agent(t, i)).value
    case Register(info) => info.agentType != t || info.Key() in s.keys
    case ReRegister(info) => info.agentType != t
    case Unregister(u, _) => u != t
    case AddSessions(u, _, _) => u != t
    case UnregisterByGateway(g) => forall i <- Scan(s, t) :: Compose(t, i) !in s.SMembers(GatewayAgents(g))
    case _ => true
  }

  /** Each request goes to an agent that routing may choose in the store it meets. */
  ghost predicate Serves(s: Store, c: Runs.Config, t: string, traffic: seq<Traffic>)
    decreases |traffic|
  {
    traffic != [] ==>
      match traffic[0]
      case Request(i) =>
        && Lookup(s, t, i).Ok? && Best(s, t, Scan(s, t), Ok(Lookup(s, t, i).value))
        && Serves(Dispatch(s, t, i), c, t, traffic[1..])
      case Aside(op) => Runs.Allowed(s, op) && Quiet(s, op, t) && Serves(Runs.Apply(s, c, op), c, t, traffic[1..])
  }

  ghost function Served(s: Store, c: Runs.Config, t: string, traffic: seq<Traffic>): Store
    decreases |traffic|
  {
    if traffic == [] then s
    else match traffic[0]
      case Request(i) => Served(Dispatch(s, t, i), c, t, traffic[1..])
      case Aside(op) => Served(Runs.Apply(s, c, op), c, t, traffic[1..])
  }

  function Requests(traffic: seq<Traffic>): nat {
    if traffic == [] then 0 else (if traffic[0].Request? then 1 else 0) + Requests(traffic[1..])
  }

  lemma CountLookup(s: Store, t: string, i: string, j: string, ttl: nat)
    requires Inv(s, ttl) && Agent(t, i) in s.keys && Load(s, t, i) < MAX_INT64
    ensures Lookup(s, t, i).Ok?
    ensures Lookup(AddSessions(s, t, i, 1), t, j) ==
              if j == i then Ok(Lookup(s, t, i).value.(activeSessions := Load(s, t, i) + 1)) else Lookup(s, t, j)
  {
    RegistryProperties.LookupReads(s, t, i, ttl);
    hide AddSessions, Lookup;
    RegistryProperties.CountReads(s, t, i, 1, t, j);
  }

  lemma SameLookupsSameScan(s: Store, s': Store, t: string, ttl: nat)
    requires Inv(s, ttl) && Inv(s', ttl)
    requires forall j :: Lookup(s, t, j).Ok? <==> Lookup(s', t, j).Ok?
    ensures Scan(s, t) == Scan(s', t)
  {
    forall j ensures j in Scan(s', t) <==> j in Scan(s, t) {
      RegistryProperties.LookupReads(s, t, j, ttl);
      RegistryProperties.LookupReads(s', t, j, ttl);
      assert j in Scan(s, t) <==> Agent(t, j) in s.keys;
      assert j in Scan(s', t) <==> Agent(t, j) in s'.keys;
    }
  }

  lemma CountOutcome(s: Store, t: string, i: string, ttl: nat)
    requires Inv(s, ttl) && Lookup(s, t, i).Ok? && Load(s, t, i) < MAX_INT64
    ensures Scan(AddSessions(s, t, i, 1), t) == Scan(s, t)
    ensures forall j :: Lookup(AddSessions(s, t, i, 1), t, j) ==
              if j == i then Ok(Lookup(s, t, i).value.(activeSessions := Load(s, t, i) + 1)) else Lookup(s, t, j)
  {
    RegistryProperties.LookupReads(s, t, i, ttl);
    AddSessionsKeepsInv(s, t, i, 1, ttl);
    assert Load(s, t, i) < MAX_INT64 && Agent(t, i) in s.keys;
    var s' := AddSessions(s, t, i, 1);
    hide Inv, AddSessions, Lookup;
    forall j
      ensures Lookup(s', t, j) ==
                if j == i then Ok(Lookup(s, t, i).value.(activeSessions := Load(s, t, i) + 1)) else Lookup(s, t, j)
    {
      CountLookup(s, t, i, j, ttl);
    }
    SameLookupsSameScan(s, s', t, ttl);
  }

  lemma LookupID(s: Store, t: string, i: string)
    requires Lookup(s, t, i).Ok?
    ensures Lookup(s, t, i).value.id == i
  {
  }

  lemma BestIsMin(s: Store, t: string, ids: seq<string>, i: string) returns (p: nat)
    requires Enumerates(s, t, ids) && Lookup(s, t, i).Ok?
    requires Best(s, t, Scan(s, t), Ok(Lookup(s, t, i).value))
    ensures IsMin(Loads(s, t, ids), p) && ids[p] == i
  {
    hide ParseAgentInfo, Scan;
    assert Lookup(s, t, i).value.id == i by { LookupID(s, t, i); }
    assert i in ids;
    p :| 0 <= p < |ids| && ids[p] == i;
    forall n | 0 <= n < |ids| ensures Loads(s, t, ids)[p] <= Loads(s, t, ids)[n] {
      assert ids[n] in ids;
    }
  }

  lemma LoadsUp(s: Store, s': Store, t: string, ids: seq<string>, p: nat)
    requires p < |ids| && forall a, b :: 0 <= a < b < |ids| ==> ids[a] != ids[b]
    requires forall j :: Load(s', t, j) == if j == ids[p] then Load(s, t, j) + 1 else Load(s, t, j)
    ensures Loads(s', t, ids) == Loads(s, t, ids)[p := Loads(s, t, ids)[p] + 1]
  {
    hide Load;
  }

  /** A count raises the one counter and leaves the agents as they are. */
  lemma CountStep(s: Store, t: string, ids: seq<string>, i: string, ttl: nat) returns (p: nat)
    requires Inv(s, ttl) && Enumerates(s, t, ids) && Load(s, t, i) < MAX_INT64 && i in ids
    ensures Enumerates(AddSessions(s, t, i, 1), t, ids) && p < |ids| && ids[p] == i
    ensures Loads(AddSessions(s, t, i, 1), t, ids) == Loads(s, t, ids)[p := Loads(s, t, ids)[p] + 1]
  {
    var s' := AddSessions(s, t, i, 1);
    p :| 0 <= p < |ids| && ids[p] == i;
    hide Inv, AddSessions, Lookup, Scan;
    CountOutcome(s, t, i, ttl);
    assert forall j :: Online(s', t, j) <==> Online(s, t, j);
    LoadsUp(s, s', t, ids, p);
  }

  lemma PickNone(c: seq<int>)
    ensures Picks(c, []) && After(c, []) == c
  {
  }

  lemma PickThen(c: seq<int>, p: nat, rest: seq<nat>)
    requires IsMin(c, p) && p < |c| && Picks(c[p := c[p] + 1], rest)
    ensures Picks(c, [p] + rest) && After(c, [p] + rest) == After(c[p := c[p] + 1], rest)
  {
    assert ([p] + rest)[1..] == rest;
  }

  lemma LoadsLength(s: Store, t: string, ids: seq<string>)
    ensures |Loads(s, t, ids)| == |ids|
  {
  }

  lemma ChosenLoad(s: Store, t: string, ids: seq<string>, i: string)
    requires Enumerates(s, t, ids) && Lookup(s, t, i).Ok? && Best(s, t, Scan(s, t), Ok(Lookup(s, t, i).value))
    ensures exists n :: 0 <= n < |ids| && Loads(s, t, ids)[n] == Load(s, t, i)
  {
    var p := BestIsMin(s, t, ids, i);
    assert Loads(s, t, ids)[p] == Load(s, t, i);
  }

  lemma LoadAt(s: Store, t: string, ids: seq<string>, p: nat)
    requires p < |ids|
    ensures |Loads(s, t, ids)| == |ids| && Loads(s, t, ids)[p] == Load(s, t, ids[p])
  {
  }

  lemma DistinctIDs(s: Store, t: string, ids: seq<string>, p: nat, q: nat)
    requires Enumerates(s, t, ids) && p < |ids| && q < |ids| && ids[p] == ids[q]
    ensures p == q
  {
    hide Scan;
  }

  // ----- What goes on besides -----

  /** The same agent, to routing. */
  predicate AsGood(a: Result<AgentInfo, Error>, b: Result<AgentInfo, Error>) {
    && (a.Ok? <==> b.Ok?)
    && (a.Ok? ==> a.value.status == b.value.status && a.value.activeSessions == b.value.activeSessions)
  }

  lemma SameHash(s: Store, s': Store, t: string, j: string)
    requires s'.At(Agent(t, j)) == s.At(Agent(t, j))
    ensures AsGood(Lookup(s', t, j), Lookup(s, t, j))
  {
  }

  lemma NoBeat(s: Store, t: string, i: string, ttl: nat)
    ensures Agent(t, i) !in s.keys ==> UpdateHeartbeat(s, t, i, ttl) == s
  {
  }

  lemma BeatIsAsGood(s: Store, t: string, i: string, ttl: nat, t': string, j: string)
    requires Inv(s, ttl) && ttl > 0
    ensures AsGood(Lookup(UpdateHeartbeat(s, t, i, ttl), t', j), Lookup(s, t', j))
  {
    RegistryProperties.LookupReads(s, t, i, ttl);
    hide Inv, UpdateHeartbeat, Lookup;
    if Agent(t, i) in s.keys {
      RegistryProperties.BeatReads(s, t, i, ttl, t', j);
    } else {
      NoBeat(s, t, i, ttl);
    }
  }

  lemma InvRegistry(s: Store, c: Runs.Config)
    requires Runs.Inv(s, c)
    ensures Inv(s, c.agentTTL) && WellKinded(s)
  {
  }

  lemma QuietTick(s: Store, c: Runs.Config, dt: nat, t: string, j: string)
    requires AgentOk(s, c.agentTTL, t, j) && Quiet(s, Runs.Tick(dt), t)
    ensures s.Advance(dt).At(Agent(t, j)) == s.At(Agent(t, j))
  {
    assert Agent(t, j) in s.keys ==> j in Scan(s, t);
  }

  lemma QuietClearing(s: Store, g: string, t: string, j: string, ttl: nat)
    requires Inv(s, ttl) && Quiet(s, Runs.UnregisterByGateway(g), t)
    ensures UnregisterByGateway(s, g).At(Agent(t, j)) == s.At(Agent(t, j))
  {
    RegistryProperties.UnregisterByGatewayComplete(s, g, ttl);
    assert Agent(t, j) in s.keys ==> j in Scan(s, t);
    hide Inv, UnregisterByGateway;
  }

  /** Quiet registry operations, and time. */
  lemma QuietRegistry(s: Store, c: Runs.Config, op: Runs.Op, t: string, j: string)
    requires Runs.Inv(s, c) && Runs.Allowed(s, op) && Quiet(s, op, t) && c.agentTTL > 0
    requires Runs.OpFamily(op) == Runs.Agents || Runs.OpFamily(op) == Runs.Time
    ensures AsGood(Lookup(Runs.Apply(s, c, op), t, j), Lookup(s, t, j))
  {
    InvRegistry(s, c);
    var k, s' := Agent(t, j), Runs.Apply(s, c, op);
    assert j in Scan(s, t) <==> k in s.keys;
    assert AgentOk(s, c.agentTTL, t, j);
    if op.Heartbeat? {
      BeatIsAsGood(s, op.t, op.i, c.agentTTL, t, j);
    } else {
      hide Runs.Inv, Inv, AgentOk, PutAgent, Unregister, AddSessions, Scan, Lookup;
      match op
      case Tick(dt) => QuietTick(s, c, dt, t, j);
      case Register(info) => if info.Key() !in s.keys { PutAgentAt(s, info, c.agentTTL, k); }
      case ReRegister(info) => PutAgentAt(s, info, c.agentTTL, k);
      case Unregister(u, i) => RegistryProperties.UnregisterAt(s, u, i, k);
      case AddSessions(u, i, n) => AddSessionsAt(s, u, i, n, k);
      case ListByType(u) => assert s'.At(k) == s.At(k);
      case UnregisterByGateway(g) => QuietClearing(s, g, t, j, c.agentTTL);
      SameHash(s, s', t, j);
    }
  }

  lemma QuietIsAsGood(s: Store, c: Runs.Config, op: Runs.Op, t: string, j: string)
    requires Runs.Inv(s, c) && Runs.Allowed(s, op) && Quiet(s, op, t) && c.agentTTL > 0
    ensures AsGood(Lookup(Runs.Apply(s, c, op), t, j), Lookup(s, t, j))
  {
    hide Runs.Inv, Runs.Apply, Quiet, Lookup;
    if Runs.OpFamily(op) == Runs.Agents || Runs.OpFamily(op) == Runs.Time {
      QuietRegistry(s, c, op, t, j);
    } else {
      Runs.Footprint(s, c, op, Agent(t, j));
      SameHash(s, Runs.Apply(s, c, op), t, j);
    }
  }

  lemma SameLoads(s: Store, s': Store, t: string, ids: seq<string>)
    requires Enumerates(s, t, ids) && Scan(s', t) == Scan(s, t) && forall j :: AsGood(Lookup(s', t, j), Lookup(s, t, j))
    ensures Enumerates(s', t, ids) && Loads(s', t, ids) == Loads(s, t, ids)
  {
    hide Lookup, Scan;
    forall j ensures (Online(s', t, j) <==> Online(s, t, j)) && Load(s', t, j) == Load(s, t, j) {
      assert AsGood(Lookup(s', t, j), Lookup(s, t, j));
    }
    hide Online, Load;
  }

  lemma AsideStep(s: Store, c: Runs.Config, op: Runs.Op, t: string, ids: seq<string>)
    requires Runs.Inv(s, c) && Runs.Allowed(s, op) && Quiet(s, op, t) && c.agentTTL > 0 && Enumerates(s, t, ids)
    ensures var s' := Runs.Apply(s, c, op);
      Runs.Inv(s', c) && Enumerates(s', t, ids) && Loads(s', t, ids) == Loads(s, t, ids)
  {
    var s' := Runs.Apply(s, c, op);
    Runs.StepKeepsInv(s, c, op);
    InvRegistry(s, c);
    InvRegistry(s', c);
    hide Runs.Inv, Runs.Apply, Inv, Quiet, Lookup, Scan, Enumerates, Loads;
    forall j ensures AsGood(Lookup(s', t, j), Lookup(s, t, j)) {
      QuietIsAsGood(s, c, op, t, j);
    }
    SameLookupsSameScan(s, s', t, c.agentTTL);
    SameLoads(s, s', t, ids);
  }

  /** Listing changes no counter, and the agent that routing chooses has the least. */
  lemma ChooseStep(s: Store, c: Runs.Config, t: string, ids: seq<string>, i: string) returns (p: nat)
    requires Runs.Inv(s, c) && c.agentTTL > 0 && Enumerates(s, t, ids)
    requires Lookup(s, t, i).Ok? && Best(s, t, Scan(s, t), Ok(Lookup(s, t, i).value))
    ensures Runs.Inv(Prune(s, t), c) && Enumerates(Prune(s, t), t, ids)
    ensures Loads(Prune(s, t), t, ids) == Loads(s, t, ids)
    ensures IsMin(Loads(s, t, ids), p) && p < |ids| && ids[p] == i
  {
    p := BestIsMin(s, t, ids, i);
    LoadsLength(s, t, ids);
    hide Runs.Inv, Enumerates, Lookup, Scan, Best, IsMin, Loads, Prune;
    AsideStep(s, c, Runs.ListByType(t), t, ids);
  }

  lemma CountedStep(s: Store, c: Runs.Config, t: string, ids: seq<string>, i: string) returns (p: nat)
    requires Runs.Inv(s, c) && Enumerates(s, t, ids) && i in ids && Load(s, t, i) < MAX_INT64
    ensures Runs.Inv(AddSessions(s, t, i, 1), c) && Enumerates(AddSessions(s, t, i, 1), t, ids)
    ensures p < |ids| && ids[p] == i
    ensures Loads(AddSessions(s, t, i, 1), t, ids) == Loads(s, t, ids)[p := Loads(s, t, ids)[p] + 1]
  {
    InvRegistry(s, c);
    Runs.StepKeepsInv(s, c, Runs.AddSessions(t, i, 1));
    hide Runs.Inv, Inv, Enumerates, Loads, Load, AddSessions;
    p := CountStep(s, t, ids, i, c.agentTTL);
  }

  lemma DispatchStep(s: Store, c: Runs.Config, t: string, ids: seq<string>, i: string) returns (p: nat)
    requires Runs.Inv(s, c) && c.agentTTL > 0 && Enumerates(s, t, ids)
    requires Lookup(s, t, i).Ok? && Best(s, t, Scan(s, t), Ok(Lookup(s, t, i).value)) && Load(s, t, i) < MAX_INT64
    ensures Runs.Inv(Dispatch(s, t, i), c) && Enumerates(Dispatch(s, t, i), t, ids)
    ensures p < |Loads(s, t, ids)| && IsMin(Loads(s, t, ids), p)
    ensures Loads(Dispatch(s, t, i), t, ids) == Loads(s, t, ids)[p := Loads(s, t, ids)[p] + 1]
  {
    hide Runs.Inv, Enumerates, Lookup, Scan, Best, IsMin, Loads, Load, Prune, AddSessions;
    p := ChooseStep(s, c, t, ids, i);
    LoadAt(s, t, ids, p);
    LoadAt(Prune(s, t), t, ids, p);
    var q := CountedStep(Prune(s, t), c, t, ids, i);
    DistinctIDs(s, t, ids, p, q);
  }

  // ----- Whole runs -----

  /** A run of requests, with whatever quiet operations between them, is a run of picks on the counters. */
  lemma {:induction false} DispatchesPick(s: Store, c: Runs.Config, t: string, ids: seq<string>, traffic: seq<Traffic>)
    returns (picks: seq<nat>)
    requires Runs.Inv(s, c) && c.agentTTL > 0 && Enumerates(s, t, ids) && Serves(s, c, t, traffic)
    requires forall n :: 0 <= n < |ids| ==> Loads(s, t, ids)[n] + Requests(traffic) <= MAX_INT64
    ensures |picks| == Requests(traffic) && Picks(Loads(s, t, ids), picks)
    ensures Loads(Served(s, c, t, traffic), t, ids) == After(Loads(s, t, ids), picks)
    ensures Enumerates(Served(s, c, t, traffic), t, ids)
    decreases |traffic|
  {
    hide Runs.Inv, Runs.Apply, Inv, Enumerates, Dispatch, Best, Quiet, Lookup, Load, Loads, Scan, IsMin, Picks, After;
    picks := [];
    PickNone(Loads(s, t, ids));
    LoadsLength(s, t, ids);
    if traffic != [] {
      match traffic[0]
      case Aside(op) =>
        AsideStep(s, c, op, t, ids);
        picks := DispatchesPick(Runs.Apply(s, c, op), c, t, ids, traffic[1..]);
      case Request(i) =>
        ChosenLoad(s, t, ids, i);
        var p := DispatchStep(s, c, t, ids, i);
        LoadsLength(Dispatch(s, t, i), t, ids);
        var rest := DispatchesPick(Dispatch(s, t, i), c, t, ids, traffic[1..]);
        picks := [p] + rest;
        PickThen(Loads(s, t, ids), p, rest);
    }
  }

  lemma WithinMore(c: seq<int>, d: nat)
    requires Within(c, d)
    ensures Within(c, if d == 0 then 1 else d)
  {
  }

  lemma FewerSteps(k: nat, d: nat, n: nat)
    requires k > 0 && (k - 1) * d <= n
    ensures d > 0 ==> (k - 1) * (d - 1) <= n
  {
    if d > 0 {
      assert (k - 1) * (d - 1) == (k - 1) * d - (k - 1);
    }
  }

  /** Least-connections routing over k online agents, while they beat and time passes within their leases:
      the spread of their counters never exceeds max(1, d), and is at most one after (k-1)*d requests. */
  lemma RoutingRebalances(s: Store, c: Runs.Config, t: string, ids: seq<string>, traffic: seq<Traffic>, d: nat)
    requires Runs.Inv(s, c) && c.agentTTL > 0 && Enumerates(s, t, ids) && Serves(s, c, t, traffic)
    requires forall n :: 0 <= n < |ids| ==> Loads(s, t, ids)[n] + Requests(traffic) <= MAX_INT64
    requires Within(Loads(s, t, ids), d)
    ensures Within(Loads(Served(s, c, t, traffic), t, ids), if d == 0 then 1 else d)
    ensures ids != [] && (|ids| - 1) * d <= Requests(traffic) ==> Within(Loads(Served(s, c, t, traffic), t, ids), 1)
  {
    var picks := DispatchesPick(s, c, t, ids, traffic);
    var loads := Loads(s, t, ids);
    LoadsLength(s, t, ids);
    WithinMore(loads, d);
    hide Runs.Inv, Enumerates, Serves, Served, Requests, Loads, After, Picks, Within;
    SpreadBounded(loads, picks, if d == 0 then 1 else d);
    if ids != [] && (|ids| - 1) * d <= Requests(traffic) {
      FewerSteps(|ids|, d, Requests(traffic));
      RebalancedAfter(loads, picks, d);
    }
  }

  /** Fresh agents share n requests as evenly as whole requests allow, whatever order the index is
      read in. */
  lemma FreshAgentsShareEvenly(s: Store, c: Runs.Config, t: string, ids: seq<string>, traffic: seq<Traffic>)
    requires Runs.Inv(s, c) && c.agentTTL > 0 && Enumerates(s, t, ids) && Serves(s, c, t, traffic)
    requires ids != [] && Requests(traffic) <= MAX_INT64 && forall i <- ids :: Load(s, t, i) == 0
    ensures var n, k, s' := Requests(traffic), |ids|, Served(s, c, t, traffic);
      && Sum(Loads(s', t, ids)) == n
      && forall i <- ids :: Load(s', t, i) == n / k || (n % k != 0 && Load(s', t, i) == n / k + 1)
  {
    assert Loads(s, t, ids) == seq(|ids|, _ => 0);
    var picks := DispatchesPick(s, c, t, ids, traffic);
    hide Runs.Inv, Enumerates, Serves, Served, Requests, After, Picks, Sum, Load;
    EvenFromZero(|ids|, picks);
    var n, k, s' := Requests(traffic), |ids|, Served(s, c, t, traffic);
    forall i | i in ids ensures Load(s', t, i) == n / k || (n % k != 0 && Load(s', t, i) == n / k + 1) {
      var m :| 0 <= m < |ids| && ids[m] == i;
      assert Loads(s', t, ids)[m] == Load(s', t, i);
    }
  }

  // ----- Requests that overlap -----

  /** The two calls a request makes, or something else that goes on. */
  datatype Event = Chosen(agentID: string) | Counted(agentID: string) | Besides(op: Runs.Op)

  /** Each request goes to an agent that routing may choose in the store it meets, and is counted later;
      at most m are between the two. */
  ghost predicate Overlaps(s: Store, c: Runs.Config, t: string, m: nat, pending: multiset<string>, events: seq<Event>)
    decreases |events|
  {
    events != [] ==>
      match events[0]
      case Chosen(i) =>
        && |pending| < m && Lookup(s, t, i).Ok? && Best(s, t, Scan(s, t), Ok(Lookup(s, t, i).value))
        && Overlaps(Prune(s, t), c, t, m, pending + multiset{i}, events[1..])
      case Counted(i) =>
        i in pending && Overlaps(AddSessions(s, t, i, 1), c, t, m, pending - multiset{i}, events[1..])
      case Besides(op) =>
        Runs.Allowed(s, op) && Quiet(s, op, t) && Overlaps(Runs.Apply(s, c, op), c, t, m, pending, events[1..])
  }

  ghost function Overlapped(s: Store, c: Runs.Config, t: string, events: seq<Event>): Store
    decreases |events|
  {
    if events == [] then s
    else match events[0]
      case Chosen(_) => Overlapped(Prune(s, t), c, t, events[1..])
      case Counted(i) => Overlapped(AddSessions(s, t, i, 1), c, t, events[1..])
      case Besides(op) => Overlapped(Runs.Apply(s, c, op), c, t, events[1..])
  }

  function Chosens(events: seq<Event>): nat {
    if events == [] then 0 else (if events[0].Chosen? then 1 else 0) + Chosens(events[1..])
  }

  /** The counters with the pending requests added. */
  ghost predicate Reserved(c: seq<int>, e: seq<int>, ids: seq<string>, pending: multiset<string>) {
    && |c| == |e| == |ids| && Sum(e) - Sum(c) == |pending|
    && (forall n :: 0 <= n < |ids| ==> e[n] == c[n] + pending[ids[n]])
    && (forall i <- pending :: i in ids)
  }

  lemma ReservedFacts(c: seq<int>, e: seq<int>, ids: seq<string>, pending: multiset<string>)
    requires Reserved(c, e, ids, pending)
    ensures |c| == |e| == |ids| && Sum(e) - Sum(c) == |pending| && forall i <- pending :: i in ids
  {
  }

  lemma ReservedMore(c: seq<int>, e: seq<int>, ids: seq<string>, pending: multiset<string>, p: nat)
    requires Reserved(c, e, ids, pending) && p < |ids| && forall a, b :: 0 <= a < b < |ids| ==> ids[a] != ids[b]
    ensures Reserved(c, e[p := e[p] + 1], ids, pending + multiset{ids[p]})
  {
    SumUpdate(e, p);
  }

  lemma ReservedLess(c: seq<int>, e: seq<int>, ids: seq<string>, pending: multiset<string>, p: nat)
    requires Reserved(c, e, ids, pending) && p < |ids| && forall a, b :: 0 <= a < b < |ids| ==> ids[a] != ids[b]
    requires ids[p] in pending
    ensures c[p] < e[p] && Reserved(c[p := c[p] + 1], e, ids, pending - multiset{ids[p]})
  {
    SumUpdate(c, p);
  }

  lemma NoMoves(c: seq<int>, e: seq<int>, m: nat)
    requires |c| == |e|
    ensures Moves(c, e, m, []) && Moved(c, e, m, []) == c
  {
  }

  /** A pending request leaves room for its count. */
  lemma LoadOf(s: Store, t: string, ids: seq<string>, i: string, e: seq<int>, pending: multiset<string>)
    requires Reserved(Loads(s, t, ids), e, ids, pending) && i in pending
    ensures exists n :: 0 <= n < |ids| && ids[n] == i && Load(s, t, i) < e[n]
  {
    var n :| 0 <= n < |ids| && ids[n] == i;
    LoadAt(s, t, ids, n);
  }

  lemma ChooseThen(c: seq<int>, e: seq<int>, m: nat, p: nat, rest: seq<Move>)
    requires |c| == |e| && IsMin(c, p) && Sum(e) + 1 - Sum(c) <= m && Moves(c, e[p := e[p] + 1], m, rest)
    ensures Moves(c, e, m, [Choose(p)] + rest) && Choices([Choose(p)] + rest) == 1 + Choices(rest)
    ensures Moved(c, e, m, [Choose(p)] + rest) == Moved(c, e[p := e[p] + 1], m, rest)
  {
    assert ([Choose(p)] + rest)[1..] == rest;
  }

  lemma CountThen(c: seq<int>, e: seq<int>, m: nat, p: nat, rest: seq<Move>)
    requires |c| == |e| && p < |c| && c[p] < e[p] && Moves(c[p := c[p] + 1], e, m, rest)
    ensures Moves(c, e, m, [Count(p)] + rest) && Choices([Count(p)] + rest) == Choices(rest)
    ensures Moved(c, e, m, [Count(p)] + rest) == Moved(c[p := c[p] + 1], e, m, rest)
  {
    assert ([Count(p)] + rest)[1..] == rest;
  }

  lemma EnumeratesOnce(s: Store, t: string, ids: seq<string>)
    requires Enumerates(s, t, ids)
    ensures forall a, b :: 0 <= a < b < |ids| ==> ids[a] != ids[b]
  {
  }

  /** Overlapping requests, with whatever quiet operations between their calls, are moves on the counters. */
  lemma {:induction false} OverlapsMove(s: Store, c: Runs.Config, t: string, ids: seq<string>, m: nat,
      pending: multiset<string>, e: seq<int>, events: seq<Event>) returns (moves: seq<Move>)
    requires Runs.Inv(s, c) && c.agentTTL > 0 && Enumerates(s, t, ids) && Overlaps(s, c, t, m, pending, events)
    requires Reserved(Loads(s, t, ids), e, ids, pending)
    requires forall n :: 0 <= n < |ids| ==> e[n] + Chosens(events) <= MAX_INT64
    ensures Moves(Loads(s, t, ids), e, m, moves) && Choices(moves) == Chosens(events)
    ensures Loads(Overlapped(s, c, t, events), t, ids) == Moved(Loads(s, t, ids), e, m, moves)
    ensures Enumerates(Overlapped(s, c, t, events), t, ids)
    decreases |events|
  {
    hide Runs.Inv, Runs.Apply, Enumerates, Best, Quiet, Lookup, Load, Loads, Scan, IsMin, Prune, AddSessions, Sum,
      Moves, Moved, Reserved, Runs.Allowed;
    var now := Loads(s, t, ids);
    ReservedFacts(now, e, ids, pending);
    if events == [] {
      moves := [];
      NoMoves(now, e, m);
    } else {
      EnumeratesOnce(s, t, ids);
      match events[0]
      case Besides(op) =>
        AsideStep(s, c, op, t, ids);
        moves := OverlapsMove(Runs.Apply(s, c, op), c, t, ids, m, pending, e, events[1..]);
      case Chosen(i) =>
        var p := ChooseStep(s, c, t, ids, i);
        ReservedMore(now, e, ids, pending, p);
        var rest := OverlapsMove(Prune(s, t), c, t, ids, m, pending + multiset{i}, e[p := e[p] + 1], events[1..]);
        moves := [Choose(p)] + rest;
        ChooseThen(now, e, m, p, rest);
      case Counted(i) =>
        LoadOf(s, t, ids, i, e, pending);
        var p := CountedStep(s, c, t, ids, i);
        ReservedLess(now, e, ids, pending, p);
        var rest := OverlapsMove(AddSessions(s, t, i, 1), c, t, ids, m, pending - multiset{i}, e, events[1..]);
        moves := [Count(p)] + rest;
        CountThen(now, e, m, p, rest);
    }
  }

  /** Least-connections routing over k online agents when other requests and operations fall between
      choosing an agent and counting it, at most m requests at a time: the spread of the counters never
      exceeds max(d, m), and is at most m after (k-1)*d requests. */
  lemma OverlappingRequestsStayClose(s: Store, c: Runs.Config, t: string, ids: seq<string>, m: nat, events: seq<Event>,
      d: nat)
    requires Runs.Inv(s, c) && c.agentTTL > 0 && Enumerates(s, t, ids) && Overlaps(s, c, t, m, multiset{}, events)
    requires forall n :: 0 <= n < |ids| ==> Loads(s, t, ids)[n] + Chosens(events) <= MAX_INT64
    requires Within(Loads(s, t, ids), d)
    ensures Within(Loads(Overlapped(s, c, t, events), t, ids), if d < m then m else d)
    ensures (|ids| - 1) * d <= Chosens(events) ==> Within(Loads(Overlapped(s, c, t, events), t, ids), m)
  {
    var loads := Loads(s, t, ids);
    LoadsLength(s, t, ids);
    LoadsLength(Overlapped(s, c, t, events), t, ids);
    hide Runs.Inv, Enumerates, Overlaps, Overlapped, Loads, Moves, Moved, Chosens;
    var moves := OverlapsMove(s, c, t, ids, m, multiset{}, loads, events);
    if ids != [] {
      OverlapBounded(loads, m, moves, d);
    }
  }
}
