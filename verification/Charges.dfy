/** N equally long calls that all enter one backend before any leaves: what they are
    charged together, whatever the order they leave in. */
module Charges {
  import opened Client
  import opened Sharing
  import S = Similarity

  // ----- the run -----

  function AllEnter(n: nat, b: string): seq<Event> {
    if n == 0 then [] else AllEnter(n - 1, b) + [Enters(n - 1, b)]
  }

  function TheyLeave(order: seq<nat>, b: string): seq<Event> {
    if order == [] then []
    else TheyLeave(order[..|order| - 1], b) + [Leaves(order[|order| - 1], b)]
  }

  // The order in which the calls 0, 1, .. leave.
  predicate IsOrder(order: seq<nat>) {
    && (forall i | 0 <= i < |order| :: order[i] < |order|)
    && (forall i, j | 0 <= i < j < |order| :: order[i] != order[j])
  }

  function Session(order: seq<nat>, b: string): seq<Event> {
    AllEnter(|order|, b) + TheyLeave(order, b)
  }

  lemma {:induction false} EnterCounts(n: nat, b: string)
    ensures |AllEnter(n, b)| == n && CountOf(Track(AllEnter(n, b)), b) == n
  {
    if n > 0 {
      EnterCounts(n - 1, b);
      assert AllEnter(n, b)[..n - 1] == AllEnter(n - 1, b);
    }
  }

  lemma {:induction false} EnterPrefix(n: nat, b: string, k: nat)
    requires k <= n
    ensures |AllEnter(n, b)| == n && AllEnter(n, b)[..k] == AllEnter(k, b)
  {
    EnterCounts(n, b);
    if k < n {
      EnterPrefix(n - 1, b, k);
      assert AllEnter(n, b)[..k] == AllEnter(n - 1, b)[..k];
    }
  }

  lemma {:induction false} LeaveCounts(order: seq<nat>, b: string, p: nat)
    requires p <= |order|
    ensures |TheyLeave(order, b)| == |order|
    ensures CountOf(Track(AllEnter(|order|, b) + TheyLeave(order, b)[..p]), b) == |order| - p
  {
    hide Track, CountOf, TheyLeave, AllEnter;
    LeaveLength(order, b);
    EnterCounts(|order|, b);
    var ev := AllEnter(|order|, b) + TheyLeave(order, b)[..p];
    if p == 0 {
      assert ev == AllEnter(|order|, b);
    } else {
      LeaveCounts(order, b, p - 1);
      LeaveAt(order, b, p - 1);
      var before := AllEnter(|order|, b) + TheyLeave(order, b)[..p - 1];
      assert ev == before + [Leaves(order[p - 1], b)];
      TrackLeave(before, order[p - 1], b);
    }
  }

  lemma TrackLeave(ev: seq<Event>, c: nat, b: string)
    requires CountOf(Track(ev), b) >= 1
    ensures CountOf(Track(ev + [Leaves(c, b)]), b) == CountOf(Track(ev), b) - 1
  {
    assert (ev + [Leaves(c, b)])[..|ev|] == ev;
  }

  lemma {:induction false} LeaveLength(order: seq<nat>, b: string)
    ensures |TheyLeave(order, b)| == |order|
  {
    if order != [] { LeaveLength(order[..|order| - 1], b); }
  }

  lemma {:induction false} LeaveAt(order: seq<nat>, b: string, p: nat)
    requires p < |order|
    ensures |TheyLeave(order, b)| == |order| && TheyLeave(order, b)[p] == Leaves(order[p], b)
  {
    LeaveLength(order, b);
    LeaveLength(order[..|order| - 1], b);
    if p < |order| - 1 { LeaveAt(order[..|order| - 1], b, p); }
  }

  // What the p-th call to leave is charged: it entered as number order[p] and
  // leaves after p others.
  function ChargeAt(rate: int, latencyMs: int, order: seq<nat>, b: string, p: nat): real
    requires IsOrder(order) && p < |order| && |Session(order, b)| == 2 * |order|
  {
    Charge(rate, latencyMs,
           CountAt(Session(order, b), b, order[p] + 1),
           CountAt(Session(order, b), b, |order| + p))
  }

  lemma SessionPrefixes(order: seq<nat>, b: string, k: nat, p: nat)
    requires k <= |order| && p <= |order|
    ensures |AllEnter(|order|, b)| == |TheyLeave(order, b)| == |order|
    ensures Session(order, b)[..k] == AllEnter(k, b)
    ensures Session(order, b)[..|order| + p] == AllEnter(|order|, b) + TheyLeave(order, b)[..p]
  {
    hide AllEnter, TheyLeave;
    EnterPrefix(|order|, b, k);
    LeaveLength(order, b);
  }

  lemma SessionCounts(order: seq<nat>, b: string, p: nat)
    requires IsOrder(order) && p < |order|
    ensures |Session(order, b)| == 2 * |order|
    ensures CountAt(Session(order, b), b, order[p] + 1) == order[p] + 1
    ensures CountAt(Session(order, b), b, |order| + p) == |order| - p
  {
    hide AllEnter, TheyLeave, Track;
    SessionPrefixes(order, b, order[p] + 1, p);
    EnterCounts(order[p] + 1, b);
    LeaveCounts(order, b, p);
  }

  // The session's calls are those calls: each enters and leaves where the charge
  // looks.
  lemma SessionCalls(order: seq<nat>, b: string, p: nat)
    requires IsOrder(order) && p < |order|
    ensures |Session(order, b)| == 2 * |order|
    ensures IsCall(Session(order, b), order[p], b, order[p], |order| + p)
  {
    SessionPrefixes(order, b, order[p] + 1, p);
    assert Session(order, b)[order[p]] == Session(order, b)[..order[p] + 1][order[p]];
    LeaveAt(order, b, p);
  }

  // ----- sums over the calls -----

  function Total(n: nat, f: nat -> real): real {
    if n == 0 then 0.0 else Total(n - 1, f) + f(n - 1)
  }

  lemma {:induction false} TotalAtLeast(n: nat, f: nat -> real, g: nat -> real)
    requires forall p | 0 <= p < n :: f(p) <= g(p)
    ensures Total(n, f) <= Total(n, g)
  {
    if n > 0 { TotalAtLeast(n - 1, f, g); }
  }

  lemma {:induction false} TotalAgree(n: nat, f: nat -> real, g: nat -> real)
    requires forall p | 0 <= p < n :: f(p) == g(p)
    ensures Total(n, f) == Total(n, g)
  {
    if n > 0 { TotalAgree(n - 1, f, g); }
  }

  lemma {:induction false} TotalPlus(n: nat, f: nat -> real, g: nat -> real)
    ensures Total(n, (p: nat) => f(p) + g(p)) == Total(n, f) + Total(n, g)
  {
    if n > 0 { TotalPlus(n - 1, f, g); }
  }

  lemma {:induction false} TotalScale(n: nat, c: real, f: nat -> real)
    ensures Total(n, (p: nat) => c * f(p)) == c * Total(n, f)
  {
    if n > 0 {
      TotalScale(n - 1, c, f);
      S.Distribute(c, Total(n - 1, f), f(n - 1));
    }
  }

  lemma {:induction false} TotalConstant(n: nat, c: real)
    ensures Total(n, (p: nat) => c) == n as real * c
  {
    if n > 0 {
      TotalConstant(n - 1, c);
      assert n as real == (n - 1) as real + 1.0;
      S.Distribute(c, (n - 1) as real, 1.0);
    }
  }

  // Visiting the calls in another order adds up to the same.
  lemma TotalReordered(order: seq<nat>, f: nat -> real)
    requires IsOrder(order)
    ensures Total(|order|, (p: nat) => if p < |order| then f(order[p]) else 0.0) == Total(|order|, f)
  {
    var n := |order|;
    var fi := (i: int) => if i >= 0 then f(i) else 0.0;
    OrderedSum(order, f, fi, n);
    PlainSum(n, f, fi);
    Covered(order);
  }

  ghost function Values(order: seq<nat>, k: nat): set<int>
    requires k <= |order|
  {
    set i | 0 <= i < k :: order[i]
  }

  lemma {:induction false} OrderedSum(order: seq<nat>, f: nat -> real, fi: int -> real, k: nat)
    requires IsOrder(order) && k <= |order| && forall i: nat :: fi(i) == f(i)
    ensures Total(k, (p: nat) => if p < |order| then f(order[p]) else 0.0) == S.Sum(Values(order, k), fi)
  {
    if k > 0 {
      OrderedSum(order, f, fi, k - 1);
      assert Values(order, k) - {order[k - 1]} == Values(order, k - 1);
      S.SumPick(Values(order, k), fi, order[k - 1]);
    }
  }

  lemma {:induction false} PlainSum(n: nat, f: nat -> real, fi: int -> real)
    requires forall i: nat :: fi(i) == f(i)
    ensures Total(n, f) == S.Sum(S.Below(n), fi)
  {
    if n > 0 {
      PlainSum(n - 1, f, fi);
      assert S.Below(n) - {n - 1} == S.Below(n - 1);
      S.SumPick(S.Below(n), fi, n - 1);
    }
  }

  lemma Covered(order: seq<nat>)
    requires IsOrder(order)
    ensures Values(order, |order|) == S.Below(|order|)
  {
    ValuesCount(order, |order|);
    BelowCount(|order|);
    SameSize(Values(order, |order|), S.Below(|order|));
  }

  lemma {:induction false} ValuesCount(order: seq<nat>, k: nat)
    requires IsOrder(order) && k <= |order|
    ensures |Values(order, k)| == k
  {
    if k > 0 {
      ValuesCount(order, k - 1);
      assert Values(order, k) == Values(order, k - 1) + {order[k - 1]};
    }
  }

  lemma {:induction false} BelowCount(n: nat)
    ensures |S.Below(n)| == n
  {
    if n > 0 { BelowCount(n - 1); }
  }

  lemma SameSize(a: set<int>, b: set<int>)
    requires a <= b && |a| == |b|
    ensures a == b
  {
    assert b == a + (b - a);
    assert |b| == |a| + |b - a|;
  }

  // ----- the bounds -----

  // The n-th harmonic number.
  function Harmonic(n: nat): real { Total(n, (p: nat) => 1.0 / (p + 1) as real) }

  // The p-th call to leave divides the charge by the mean of its two counts.
  function Share(order: seq<nat>, p: nat): real {
    if p < |order| then 2.0 / (order[p] + 1 + |order| - p) as real else 0.0
  }

  // All charges of the session together.
  function Bill(rate: int, latencyMs: int, order: seq<nat>, b: string): real
    requires IsOrder(order) && |Session(order, b)| == 2 * |order|
  {
    Total(|order|, (p: nat) => if p < |order| then ChargeAt(rate, latencyMs, order, b, p) else 0.0)
  }

  lemma ChargeIsShare(rate: int, latencyMs: int, order: seq<nat>, b: string, p: nat)
    requires IsOrder(order) && p < |order| && |Session(order, b)| == 2 * |order|
    ensures ChargeAt(rate, latencyMs, order, b, p) == FullCharge(rate, latencyMs) * Share(order, p)
  {
    SessionCounts(order, b, p);
    var x := (order[p] + 1 + |order| - p) as real;
    assert Concurrency(order[p] + 1, |order| - p) == x / 2.0;
    HalfQuotient(FullCharge(rate, latencyMs), x);
  }

  lemma HalfQuotient(c: real, x: real)
    requires x > 0.0
    ensures c / (x / 2.0) == c * (2.0 / x)
  {
  }

  lemma SessionLength(order: seq<nat>, b: string)
    ensures |Session(order, b)| == 2 * |order|
  {
    EnterCounts(|order|, b);
    LeaveLength(order, b);
  }

  lemma BillIsShares(rate: int, latencyMs: int, order: seq<nat>, b: string)
    requires IsOrder(order)
    ensures |Session(order, b)| == 2 * |order|
    ensures Bill(rate, latencyMs, order, b) == FullCharge(rate, latencyMs) * Total(|order|, (p: nat) => Share(order, p))
  {
    hide Session, ChargeAt, Share, FullCharge, Total;
    SessionLength(order, b);
    forall p: nat | p < |order|
      ensures ChargeAt(rate, latencyMs, order, b, p) == FullCharge(rate, latencyMs) * Share(order, p)
    {
      ChargeIsShare(rate, latencyMs, order, b, p);
    }
    TotalScaled(|order|, (p: nat) => if p < |order| then ChargeAt(rate, latencyMs, order, b, p) else 0.0,
                (p: nat) => Share(order, p), FullCharge(rate, latencyMs));
  }

  lemma {:induction false} TotalScaled(n: nat, f: nat -> real, g: nat -> real, c: real)
    requires forall p: nat | p < n :: f(p) == c * g(p)
    ensures Total(n, f) == c * Total(n, g)
  {
    if n > 0 {
      TotalScaled(n - 1, f, g, c);
      S.Distribute(c, Total(n - 1, g), g(n - 1));
    }
  }

  // 2/x lies above its tangent at any c, and below the mean of 1/a and 1/b.
  lemma Tangent(x: real, c: real)
    requires x > 0.0 && c > 0.0
    ensures 2.0 / x >= 4.0 / c - (2.0 / (c * c)) * x
  {
    var lhs, rhs := 2.0 / x, 4.0 / c - (2.0 / (c * c)) * x;
    S.Positive(c, c, c * c);
    S.Positive(x, c * c, x * (c * c));
    assert lhs * x == 2.0;
    assert (4.0 / c) * c == 4.0;
    assert (2.0 / (c * c)) * (c * c) == 2.0;
    TangentScaled(x, c, lhs, 4.0 / c, 2.0 / (c * c));
  }

  lemma TangentScaled(x: real, c: real, u: real, v: real, w: real)
    requires x > 0.0 && c > 0.0 && u * x == 2.0 && v * c == 4.0 && w * (c * c) == 2.0
    ensures u >= v - w * x
  {
    var d := u - (v - w * x);
    var s := x * (c * c);
    S.Positive(c, c, c * c);
    S.Positive(x, c * c, s);
    assert d * s == (u * x) * (c * c) - (v * c) * (x * c) + (w * (c * c)) * (x * x);
    assert (u * x) * (c * c) == 2.0 * (c * c);
    assert (v * c) * (x * c) == 4.0 * (x * c);
    assert (w * (c * c)) * (x * x) == 2.0 * (x * x);
    S.SquareSign(c - x);
    assert 2.0 * (c * c) - 4.0 * (x * c) + 2.0 * (x * x) == 2.0 * ((c - x) * (c - x));
    if d < 0.0 { S.Positive(-d, s, -d * s); }
  }

  lemma MeanOfInverses(a: real, b: real)
    requires a > 0.0 && b > 0.0
    ensures 2.0 / (a + b) <= 0.5 * (1.0 / a) + 0.5 * (1.0 / b)
  {
    MeanScaled(a, b, 2.0 / (a + b), 1.0 / a, 1.0 / b);
  }

  lemma MeanScaled(a: real, b: real, u: real, v: real, w: real)
    requires a > 0.0 && b > 0.0 && u * (a + b) == 2.0 && v * a == 1.0 && w * b == 1.0
    ensures u <= 0.5 * v + 0.5 * w
  {
  }

  // The numbers of the calls, in whatever order, add up to n (n + 1) twice over.
  lemma EntriesPlusExits(order: seq<nat>)
    requires IsOrder(order)
    ensures var n := |order|;
      Total(n, (p: nat) => if p < |order| then (order[p] + 1 + n - p) as real else 0.0)
      == (n as real) * (n as real + 1.0)
  {
    var n := |order|;
    var entry := (p: nat) => (p + 1) as real;
    var left := (p: nat) => n as real - p as real;
    var visited := (p: nat) => if p < |order| then entry(order[p]) else 0.0;
    TotalReordered(order, entry);
    TotalAgree(n, (p: nat) => if p < |order| then entry(order[p]) else 0.0, visited);
    TotalPlus(n, visited, left);
    TotalAgree(n, (p: nat) => if p < |order| then (order[p] + 1 + n - p) as real else 0.0,
               (p: nat) => visited(p) + left(p));
    EntriesAndPlaces(n, entry, left);
  }

  lemma EntriesAndPlaces(n: nat, entry: nat -> real, left: nat -> real)
    requires forall p: nat :: entry(p) == (p + 1) as real
    requires forall p: nat :: left(p) == n as real - p as real
    ensures Total(n, entry) + Total(n, left) == (n as real) * (n as real + 1.0)
  {
    TotalPlus(n, entry, left);
    TotalAgree(n, (p: nat) => entry(p) + left(p), (p: nat) => n as real + 1.0);
    TotalConstant(n, n as real + 1.0);
  }

  // The lower bound: 2n/(n+1) full charges.
  function Lower(n: nat): real { 2.0 * n as real / (n as real + 1.0) }

  lemma TotalOfLine(n: nat, x: nat -> real, v: real, u: real)
    ensures Total(n, (p: nat) => v + u * x(p)) == n as real * v + u * Total(n, x)
  {
  }

  lemma SharesAtLeast(order: seq<nat>)
    requires IsOrder(order) && order != []
    ensures Total(|order|, (p: nat) => Share(order, p)) >= Lower(|order|)
  {
    hide Total, Lower;
    var n := |order|;
    var c := n as real + 1.0;
    var v, w := 4.0 / c, 2.0 / (c * c);
    var x := (p: nat) => if p < |order| then (order[p] + 1 + n - p) as real else 0.0;
    forall p: nat | p < n
      ensures v + -w * x(p) <= Share(order, p)
    {
      Tangent(x(p), c);
    }
    TotalAtLeast(n, (p: nat) => v + -w * x(p), (p: nat) => Share(order, p));
    TotalOfLine(n, x, v, -w);
    EntriesPlusExits(order);
    LowerValue(n, c, v, w);
  }

  lemma LowerValue(n: nat, c: real, v: real, w: real)
    requires c == n as real + 1.0 && v == 4.0 / c && w == 2.0 / (c * c)
    ensures n as real * v + -w * (n as real * c) == Lower(n)
  {
  }

  lemma SharesAtMost(order: seq<nat>)
    requires IsOrder(order)
    ensures Total(|order|, (p: nat) => Share(order, p)) <= Harmonic(|order|)
  {
    var n := |order|;
    var inverse := (p: nat) => 1.0 / (p + 1) as real;
    var byEntry := (p: nat) => if p < |order| then inverse(order[p]) else 0.0;
    var byExit := (p: nat) => if p < n then 1.0 / (n - p) as real else 0.0;
    forall p: nat | p < n
      ensures Share(order, p) <= 0.5 * byEntry(p) + 0.5 * byExit(p)
    {
      MeanOfInverses((order[p] + 1) as real, (n - p) as real);
    }
    TotalAtLeast(n, (p: nat) => Share(order, p), (p: nat) => 0.5 * byEntry(p) + 0.5 * byExit(p));
    TotalPlus(n, (p: nat) => 0.5 * byEntry(p), (p: nat) => 0.5 * byExit(p));
    TotalAgree(n, (p: nat) => 0.5 * byEntry(p) + 0.5 * byExit(p),
               (p: nat) => ((q: nat) => 0.5 * byEntry(q))(p) + ((q: nat) => 0.5 * byExit(q))(p));
    TotalScale(n, 0.5, byEntry);
    TotalScale(n, 0.5, byExit);
    TotalReordered(order, inverse);
    Backwards(n);
  }

  // Counting down adds up to the same as counting up.
  lemma {:induction false} Backwards(n: nat)
    ensures Total(n, (p: nat) => if p < n then 1.0 / (n - p) as real else 0.0) == Harmonic(n)
  {
    var down := seq(n, i requires 0 <= i < n => (n - 1 - i) as nat);
    var inverse := (p: nat) => 1.0 / (p + 1) as real;
    TotalReordered(down, inverse);
    TotalAgree(n, (p: nat) => if p < n then 1.0 / (n - p) as real else 0.0,
               (p: nat) => if p < |down| then inverse(down[p]) else 0.0);
    TotalAgree(n, inverse, (p: nat) => 1.0 / (p + 1) as real);
  }

  // Whatever the order of leaving, the bill lies between 2N/(N+1) and the N-th
  // harmonic number of full charges.
  lemma BillBounds(rate: int, latencyMs: int, order: seq<nat>, b: string)
    requires IsOrder(order) && order != [] && rate >= 0 && latencyMs >= 0
    ensures |Session(order, b)| == 2 * |order|
    ensures FullCharge(rate, latencyMs) * Lower(|order|) <= Bill(rate, latencyMs, order, b)
    ensures Bill(rate, latencyMs, order, b) <= FullCharge(rate, latencyMs) * Harmonic(|order|)
  {
    hide Bill, Session, Total, Lower, Harmonic, FullCharge, Share;
    BillIsShares(rate, latencyMs, order, b);
    SharesAtLeast(order);
    SharesAtMost(order);
    var t := Total(|order|, (p: nat) => Share(order, p));
    FullChargeSign(rate, latencyMs);
    ScaleOrder(FullCharge(rate, latencyMs), Lower(|order|), t);
    ScaleOrder(FullCharge(rate, latencyMs), t, Harmonic(|order|));
  }

  lemma FullChargeSign(rate: int, latencyMs: int)
    requires rate >= 0 && latencyMs >= 0
    ensures FullCharge(rate, latencyMs) >= 0.0
  {
  }

  lemma ScaleOrder(c: real, x: real, y: real)
    requires c >= 0.0 && x <= y
    ensures c * x <= c * y
  {
  }

  // ----- both bounds are met -----

  function InEntryOrder(n: nat): seq<nat> { seq(n, i requires 0 <= i < n => i as nat) }

  function LastInFirstOut(n: nat): seq<nat> { seq(n, i requires 0 <= i < n => (n - 1 - i) as nat) }

  lemma EntryOrderMeetsLowerBound(rate: int, latencyMs: int, n: nat, b: string)
    requires n > 0
    ensures IsOrder(InEntryOrder(n)) && |Session(InEntryOrder(n), b)| == 2 * n
    ensures Bill(rate, latencyMs, InEntryOrder(n), b)
         == FullCharge(rate, latencyMs) * Lower(n)
  {
    hide Bill, Session, Total, FullCharge;
    var order := InEntryOrder(n);
    BillIsShares(rate, latencyMs, order, b);
    var each := 2.0 / (n + 1) as real;
    TotalAgree(n, (p: nat) => Share(order, p), (p: nat) => each);
    TotalConstant(n, each);
    LowerIsEach(n, each);
  }

  lemma LowerIsEach(n: nat, each: real)
    requires each == 2.0 / (n + 1) as real
    ensures n as real * each == Lower(n)
  {
  }

  lemma LastInFirstOutMeetsUpperBound(rate: int, latencyMs: int, n: nat, b: string)
    ensures IsOrder(LastInFirstOut(n)) && |Session(LastInFirstOut(n), b)| == 2 * n
    ensures Bill(rate, latencyMs, LastInFirstOut(n), b) == FullCharge(rate, latencyMs) * Harmonic(n)
  {
    hide Bill, Session, Total, FullCharge, Harmonic;
    var order := LastInFirstOut(n);
    BillIsShares(rate, latencyMs, order, b);
    forall p: nat | p < n
      ensures Share(order, p) == 1.0 / (n - p) as real
    {
      DoubleQuotient((n - p) as real);
    }
    TotalAgree(n, (p: nat) => Share(order, p), (p: nat) => if p < n then 1.0 / (n - p) as real else 0.0);
    Backwards(n);
  }

  lemma DoubleQuotient(x: real)
    requires x > 0.0
    ensures 2.0 / (2.0 * x) == 1.0 / x
  {
  }

  lemma {:induction false} HarmonicBelow(n: nat)
    ensures Harmonic(n) <= n as real
    ensures n > 1 ==> Harmonic(n) < n as real
  {
    if n > 1 {
      HarmonicBelow(n - 1);
      assert Harmonic(n) == Harmonic(n - 1) + 1.0 / n as real;
    } else if n == 1 {
      assert Harmonic(1) == Harmonic(0) + 1.0;
    }
  }

  // Together the calls pay for the replica at least once, and when there are
  // several for less than each paying for it alone.
  lemma PaidOnceButNotEachInFull(rate: int, latencyMs: int, order: seq<nat>, b: string)
    requires IsOrder(order) && order != [] && rate >= 0 && latencyMs >= 0
    ensures |Session(order, b)| == 2 * |order|
    ensures Bill(rate, latencyMs, order, b) >= FullCharge(rate, latencyMs)
    ensures |order| > 1 && rate > 0 && latencyMs > 0 ==>
              Bill(rate, latencyMs, order, b) < |order| as real * FullCharge(rate, latencyMs)
  {
    hide Bill, Session, Harmonic, FullCharge, Lower;
    BillBounds(rate, latencyMs, order, b);
    HarmonicBelow(|order|);
    FullChargeSign(rate, latencyMs);
    LowerAtLeastOne(|order|);
    ScaleOrder(FullCharge(rate, latencyMs), 1.0, Lower(|order|));
    if |order| > 1 && rate > 0 && latencyMs > 0 {
      PositiveCharge(rate, latencyMs);
      ScaleStrictly(FullCharge(rate, latencyMs), Harmonic(|order|), |order| as real);
    }
  }

  lemma ScaleStrictly(c: real, x: real, y: real)
    requires c > 0.0 && x < y
    ensures c * x < y * c
  {
    S.Positive(c, y - x, c * (y - x));
    assert c * (y - x) == c * y - c * x;
  }

  lemma LowerAtLeastOne(n: nat)
    requires n >= 1
    ensures Lower(n) >= 1.0
  {
  }

  lemma PositiveCharge(rate: int, latencyMs: int)
    requires rate > 0 && latencyMs > 0
    ensures FullCharge(rate, latencyMs) > 0.0
  {
    S.Positive(rate as real, latencyMs as real / 3600000.0, FullCharge(rate, latencyMs));
  }
}
