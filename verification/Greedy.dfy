/** Exact arithmetic of the game and the automatic strategy's choice of puts
    (the-great-approximator/client_logic.cpp:422-442).

    Every number is an integer count of 10^-7: the parser accepts at most seven fractional
    digits and the printer writes exactly seven, so all values stay on that lattice. */
module Greedy {
  const SCALE := 10_000_000
  const MAX_PUT := 5 * SCALE

  datatype Put = Put(point: int, value: int)

  function Abs(x: int): nat {
    if x < 0 then -x else x
  }

  function Clamp(x: int): (v: int)
    ensures -MAX_PUT <= v <= MAX_PUT
    ensures Abs(x - v) == Cut(Abs(x))
  {
    if x < -MAX_PUT then -MAX_PUT else if x > MAX_PUT then MAX_PUT else x
  }

  /** Sum of squared differences, accumulated from point 0 up. */
  function SquaredError(d: seq<int>): int {
    if d == [] then 0 else SquaredError(d[..|d| - 1]) + d[|d| - 1] * d[|d| - 1]
  }

  /** The first point with the largest squared difference (std::max_element). */
  function FirstMax(d: seq<int>): (m: nat)
    requires d != []
    ensures m < |d|
    ensures forall i :: 0 <= i < |d| ==> Abs(d[i]) <= Abs(d[m])
    ensures forall i :: 0 <= i < m ==> Abs(d[i]) < Abs(d[m])
  {
    var last := |d| - 1;
    if last == 0 then 0
    else
      var m := FirstMax(d[..last]);
      SquaresOrdered(d[m], d[last]);
      if d[last] * d[last] > d[m] * d[m] then last else m
  }

  lemma SquaresOrdered(x: int, y: int)
    ensures x * x < y * y <==> Abs(x) < Abs(y)
  {
    AbsSquare(x);
    AbsSquare(y);
    if Abs(x) < Abs(y) {
      SquareStrict(Abs(x), Abs(y));
    } else {
      SquareMonotone(Abs(y), Abs(x));
    }
  }

  lemma AbsSquare(x: int)
    ensures x * x == Abs(x) * Abs(x)
  {
  }

  lemma SquareStrict(a: nat, b: nat)
    requires a < b
    ensures a * a < b * b
  {
    assert a * a <= a * b < b * b;
  }

  lemma SquareMonotone(a: nat, b: nat)
    requires a <= b
    ensures a * a <= b * b
  {
    assert a * a <= a * b <= b * b;
  }

  /** The put get_best_put chooses among the first `limit` points, d being real minus
      current values. */
  function BestPut(d: seq<int>, limit: nat): (p: Put)
    requires 0 < limit <= |d|
    ensures 0 <= p.point < limit && -MAX_PUT <= p.value <= MAX_PUT
  {
    var m := FirstMax(d[..limit]);
    Put(m, Clamp(d[m]))
  }

  /** The first of the allowed points at which the value is furthest off, and the difference
      there, cut to [-5, 5]. */
  lemma BestPutExact(d: seq<int>, limit: nat)
    requires 0 < limit <= |d|
    ensures var p := BestPut(d, limit);
            && p.point < limit
            && (forall i :: 0 <= i < p.point ==> Abs(d[i]) < Abs(d[p.point]))
            && (forall i :: 0 <= i < limit ==> Abs(d[i]) <= Abs(d[p.point]))
            && p.value == (if d[p.point] > 50_000_000 then 50_000_000
                           else if d[p.point] < -50_000_000 then -50_000_000 else d[p.point])
  {
    var first := d[..limit];
    var m := FirstMax(first);
    assert forall i :: 0 <= i < limit ==> first[i] == d[i];
  }

  predicate Legal(p: Put, points: nat) {
    0 <= p.point < points && -MAX_PUT <= p.value <= MAX_PUT
  }

  function ApplyPut(d: seq<int>, p: Put): (r: seq<int>)
    requires 0 <= p.point < |d|
    ensures |r| == |d|
  {
    d[p.point := d[p.point] - p.value]
  }

  ghost predicate LegalPlan(plan: seq<Put>, points: nat) {
    forall i :: 0 <= i < |plan| ==> Legal(plan[i], points)
  }

  function ApplyPlan(d: seq<int>, plan: seq<Put>): (r: seq<int>)
    requires LegalPlan(plan, |d|)
    ensures |r| == |d|
    decreases |plan|
  {
    if plan == [] then d else ApplyPlan(ApplyPut(d, plan[0]), plan[1..])
  }

  function GreedyStep(d: seq<int>, limit: nat): (r: seq<int>)
    requires 0 < limit <= |d|
    ensures |r| == |d|
  {
    ApplyPut(d, BestPut(d, limit))
  }

  function GreedyRun(d: seq<int>, n: nat): (r: seq<int>)
    requires d != []
    ensures |r| == |d|
    decreases n
  {
    if n == 0 then d else GreedyRun(GreedyStep(d, |d|), n - 1)
  }

  // ----- Absolute differences: only how often each point is cut matters

  /** What the best legal put leaves of an absolute difference. */
  function Cut(a: nat): nat {
    if a <= MAX_PUT then 0 else a - MAX_PUT
  }

  function Abss(d: seq<int>): (a: seq<nat>)
    ensures |a| == |d|
    ensures forall i :: 0 <= i < |d| ==> a[i] == Abs(d[i])
  {
    seq(|d|, i requires 0 <= i < |d| => Abs(d[i]))
  }

  function CutAt(a: seq<nat>, x: int): (r: seq<nat>)
    requires 0 <= x < |a|
    ensures |r| == |a|
  {
    a[x := Cut(a[x])]
  }

  ghost predicate Points(xs: seq<int>, points: nat) {
    forall i :: 0 <= i < |xs| ==> 0 <= xs[i] < points
  }

  function CutAll(a: seq<nat>, xs: seq<int>): (r: seq<nat>)
    requires Points(xs, |a|)
    ensures |r| == |a|
    decreases |xs|
  {
    if xs == [] then a else CutAll(CutAt(a, xs[0]), xs[1..])
  }

  lemma {:induction false} ErrorAfterChange(d: seq<int>, x: nat, v: int)
    requires x < |d|
    ensures SquaredError(d[x := v]) == SquaredError(d) - d[x] * d[x] + v * v
  {
    var last := |d| - 1;
    if x == last {
      assert d[x := v][..last] == d[..last];
    } else {
      assert d[x := v][..last] == d[..last][x := v];
      ErrorAfterChange(d[..last], x, v);
    }
  }

  lemma {:induction false} ErrorMonotone(a: seq<nat>, d: seq<int>)
    requires |a| == |d| && forall i :: 0 <= i < |d| ==> a[i] <= Abs(d[i])
    ensures SquaredError(a) <= SquaredError(d)
  {
    if d != [] {
      var last := |d| - 1;
      ErrorMonotone(a[..last], d[..last]);
      SquaresOrdered(d[last], a[last]);
    }
  }

  lemma {:induction false} ErrorOfAbss(d: seq<int>)
    ensures SquaredError(Abss(d)) == SquaredError(d)
  {
    if d != [] {
      assert Abss(d)[..|d| - 1] == Abss(d[..|d| - 1]);
      ErrorOfAbss(d[..|d| - 1]);
    }
  }

  /** What one cut gains grows with the difference it is made at. */
  lemma GainMonotone(a: nat, b: nat)
    requires b <= a
    ensures b * b - Cut(b) * Cut(b) <= a * a - Cut(a) * Cut(a)
  {
    GainAbove(a);
    GainAbove(b);
    if a <= MAX_PUT {
      SquaresOrdered(a, b);
    } else if b <= MAX_PUT {
      SquaresOrdered(MAX_PUT, b);
    }
  }

  lemma GainAbove(a: nat)
    ensures a > MAX_PUT ==> a * a - Cut(a) * Cut(a) == 2 * MAX_PUT * a - MAX_PUT * MAX_PUT
    ensures a <= MAX_PUT ==> Cut(a) * Cut(a) == 0
  {
  }

  lemma {:induction false} CutAllConcat(a: seq<nat>, xs: seq<int>, ys: seq<int>)
    requires Points(xs, |a|) && Points(ys, |a|)
    ensures Points(xs + ys, |a|)
    ensures CutAll(a, xs + ys) == CutAll(CutAll(a, xs), ys)
    decreases |xs|
  {
    if xs == [] {
      assert xs + ys == ys;
    } else {
      assert (xs + ys)[1..] == xs[1..] + ys;
      CutAllConcat(CutAt(a, xs[0]), xs[1..], ys);
    }
  }

  /** A cut can be moved to the front. */
  lemma {:induction false} CutFirst(a: seq<nat>, xs: seq<int>, m: int)
    requires Points(xs, |a|) && 0 <= m < |a|
    ensures CutAll(a, xs + [m]) == CutAll(CutAt(a, m), xs)
    decreases |xs|
  {
    if xs == [] {
      assert [] + [m] == [m] && [m][1..] == [];
      assert CutAll(a, [m]) == CutAll(CutAt(a, m), []);
    } else {
      assert (xs + [m])[1..] == xs[1..] + [m];
      CutFirst(CutAt(a, xs[0]), xs[1..], m);
      assert CutAt(CutAt(a, xs[0]), m) == CutAt(CutAt(a, m), xs[0]);
    }
  }

  lemma {:induction false} CutAllBounds(a: seq<nat>, xs: seq<int>, m: int)
    requires Points(xs, |a|) && 0 <= m < |a|
    ensures CutAll(a, xs)[m] <= a[m]
    ensures m !in xs ==> CutAll(a, xs)[m] == a[m]
    decreases |xs|
  {
    if xs != [] {
      CutAllBounds(CutAt(a, xs[0]), xs[1..], m);
    }
  }

  /** Exchange argument.  If m is a point of largest difference among those where the first
      cut may be made, some plan whose first cut is at m is at least as good. */
  lemma Exchange(a: seq<nat>, xs: seq<int>, m: int) returns (ys: seq<int>)
    requires xs != [] && Points(xs, |a|) && 0 <= m < |a| && a[xs[0]] <= a[m]
    ensures |ys| == |xs| - 1 && Points(ys, |a|)
    ensures SquaredError(CutAll(CutAt(a, m), ys)) <= SquaredError(CutAll(a, xs))
  {
    if m in xs {
      var k :| 0 <= k < |xs| && xs[k] == m;
      ys := xs[..k] + xs[k + 1..];
      assert xs == (xs[..k] + [m]) + xs[k + 1..];
      CutAllConcat(a, xs[..k] + [m], xs[k + 1..]);
      CutFirst(a, xs[..k], m);
      CutAllConcat(CutAt(a, m), xs[..k], xs[k + 1..]);
    } else {
      var x := xs[0];
      ys := xs[1..];
      var b := CutAll(a, ys);
      assert xs == [x] + ys;
      CutFirst(a, ys, x);
      CutFirst(a, ys, m);
      CutAllConcat(a, ys, [x]);
      CutAllConcat(a, ys, [m]);
      CutOne(b, x);
      CutOne(b, m);
      CutAllBounds(a, ys, m);
      CutAllBounds(a, ys, x);
      GainMonotone(b[m], b[x]);
      ErrorAfterChange(b, m, Cut(b[m]));
      ErrorAfterChange(b, x, Cut(b[x]));
    }
  }

  lemma CutOne(b: seq<nat>, x: int)
    requires 0 <= x < |b|
    ensures CutAll(b, [x]) == CutAt(b, x)
  {
    assert CutAll(CutAt(b, x), [x][1..]) == CutAt(b, x);
  }

  lemma GreedyStepCuts(d: seq<int>, limit: nat)
    requires 0 < limit <= |d|
    ensures Abss(GreedyStep(d, limit)) == CutAt(Abss(d), FirstMax(d[..limit]))
  {
  }

  /** If the first cut may only be made among the first `limit` points, starting with the
      greedy put loses nothing. */
  lemma StartGreedily(d: seq<int>, limit: nat, xs: seq<int>) returns (ys: seq<int>)
    requires 0 < limit <= |d| && xs != [] && Points(xs, |d|) && xs[0] < limit
    ensures |ys| == |xs| - 1 && Points(ys, |d|)
    ensures SquaredError(CutAll(Abss(GreedyStep(d, limit)), ys)) <= SquaredError(CutAll(Abss(d), xs))
  {
    var m := FirstMax(d[..limit]);
    assert d[..limit][xs[0]] == d[xs[0]];
    ys := Exchange(Abss(d), xs, m);
    GreedyStepCuts(d, limit);
  }

  /** Greedy cutting beats every sequence of cuts of the same length. */
  lemma {:induction false} GreedyBeatsCuts(d: seq<int>, xs: seq<int>)
    requires d != [] && Points(xs, |d|)
    ensures SquaredError(GreedyRun(d, |xs|)) <= SquaredError(CutAll(Abss(d), xs))
    decreases |xs|
  {
    if xs == [] {
      ErrorOfAbss(d);
    } else {
      var ys := StartGreedily(d, |d|, xs);
      GreedyBeatsCuts(GreedyStep(d, |d|), ys);
    }
  }

  function PointsOf(plan: seq<Put>): (xs: seq<int>)
    ensures |xs| == |plan|
    ensures forall i :: 0 <= i < |plan| ==> xs[i] == plan[i].point
  {
    seq(|plan|, i requires 0 <= i < |plan| => plan[i].point)
  }

  /** No legal plan does better than cutting at its points. */
  lemma {:induction false} PlanAtBestCuts(a: seq<nat>, d: seq<int>, plan: seq<Put>)
    requires LegalPlan(plan, |d|) && |a| == |d| && forall i :: 0 <= i < |d| ==> a[i] <= Abs(d[i])
    ensures Points(PointsOf(plan), |a|)
    ensures SquaredError(CutAll(a, PointsOf(plan))) <= SquaredError(ApplyPlan(d, plan))
    decreases |plan|
  {
    if plan == [] {
      ErrorMonotone(a, d);
    } else {
      assert Legal(plan[0], |d|);
      PlanAtBestCuts(CutAt(a, plan[0].point), ApplyPut(d, plan[0]), plan[1..]);
      assert PointsOf(plan)[1..] == PointsOf(plan[1..]);
    }
  }

  // ----- Main results

  /** Greedy is optimal: n calls of get_best_put leave an error no larger than any n puts at
      any points with any values in [-5, 5]. */
  lemma GreedyIsOptimal(d: seq<int>, plan: seq<Put>)
    requires d != [] && LegalPlan(plan, |d|)
    ensures SquaredError(GreedyRun(d, |plan|)) <= SquaredError(ApplyPlan(d, plan))
  {
    PlanAtBestCuts(Abss(d), d, plan);
    GreedyBeatsCuts(d, PointsOf(plan));
  }

  /** The differences left by the automatic strategy after n puts.  Until it has seen a
      STATE it does not know K, so its first put is at point 0 or 1. */
  function AutoRun(d: seq<int>, n: nat): (r: seq<int>)
    requires |d| >= 2
    ensures |r| == |d|
  {
    if n == 0 then d else GreedyStep(AutoRun(d, n - 1), if n == 1 then 2 else |d|)
  }

  lemma {:induction false} GreedyRunLast(d: seq<int>, n: nat)
    requires d != [] && n > 0
    ensures GreedyRun(d, n) == GreedyStep(GreedyRun(d, n - 1), |d|)
    decreases n
  {
    if n > 1 {
      GreedyRunLast(GreedyStep(d, |d|), n - 1);
    }
  }

  lemma AutoRunLast(d: seq<int>, n: nat)
    requires |d| >= 2 && n > 1
    ensures AutoRun(d, n) == GreedyStep(AutoRun(d, n - 1), |d|)
  {
  }

  lemma SameStep(a: seq<int>, b: seq<int>, limit: nat)
    requires a == b && 0 < limit <= |a|
    ensures GreedyStep(a, limit) == GreedyStep(b, limit)
  {
  }

  lemma {:induction false} AutoRunIsGreedy(d: seq<int>, n: nat)
    requires |d| >= 2 && n > 0
    ensures AutoRun(d, n) == GreedyRun(GreedyStep(d, 2), n - 1)
  {
    if n > 1 {
      var first := GreedyStep(d, 2);
      AutoRunIsGreedy(d, n - 1);
      AutoRunLast(d, n);
      GreedyRunLast(first, n - 1);
      SameStep(AutoRun(d, n - 1), GreedyRun(first, n - 2), |d|);
    }
  }

  /** The automatic strategy is optimal among all plans whose first put is at point 0 or 1. */
  lemma AutoIsOptimal(d: seq<int>, plan: seq<Put>)
    requires |d| >= 2 && LegalPlan(plan, |d|)
    requires plan != [] ==> plan[0].point < 2
    ensures SquaredError(AutoRun(d, |plan|)) <= SquaredError(ApplyPlan(d, plan))
  {
    if plan != [] {
      assert Legal(plan[0], |d|);
      PlanAtBestCuts(Abss(d), d, plan);
      AutoBeatsCuts(d, PointsOf(plan));
    }
  }

  lemma AutoBeatsCuts(d: seq<int>, xs: seq<int>)
    requires |d| >= 2 && xs != [] && Points(xs, |d|) && xs[0] < 2
    ensures SquaredError(AutoRun(d, |xs|)) <= SquaredError(CutAll(Abss(d), xs))
  {
    var ys := StartGreedily(d, 2, xs);
    GreedyBeatsCuts(GreedyStep(d, 2), ys);
    AutoRunIsGreedy(d, |xs|);
  }

  // ----- Progress

  /** How many puts a difference needs. */
  function PutsNeeded(a: nat): nat {
    if a == 0 then 0 else 1 + PutsNeeded(Cut(a))
  }

  lemma {:induction false} PutsNeededIsCeiling(a: nat)
    ensures PutsNeeded(a) == (a + MAX_PUT - 1) / MAX_PUT
  {
    if a > 0 {
      PutsNeededIsCeiling(Cut(a));
    }
  }

  lemma {:induction false} PutsNeededMonotone(a: nat, b: nat)
    requires a <= b
    ensures PutsNeeded(a) <= PutsNeeded(b)
  {
    if a > 0 {
      PutsNeededMonotone(Cut(a), Cut(b));
    }
  }

  function Work(d: seq<int>): nat {
    if d == [] then 0 else Work(d[..|d| - 1]) + PutsNeeded(Abs(d[|d| - 1]))
  }

  lemma {:induction false} WorkAfterChange(d: seq<int>, x: nat, v: int)
    requires x < |d|
    ensures Work(d[x := v]) == Work(d) - PutsNeeded(Abs(d[x])) + PutsNeeded(Abs(v))
  {
    var last := |d| - 1;
    if x == last {
      assert d[x := v][..last] == d[..last];
    } else {
      assert d[x := v][..last] == d[..last][x := v];
      WorkAfterChange(d[..last], x, v);
    }
  }

  ghost predicate Exact(d: seq<int>) {
    forall i :: 0 <= i < |d| ==> d[i] == 0
  }

  lemma {:induction false} NoWorkMeansExact(d: seq<int>)
    ensures Work(d) == 0 <==> Exact(d)
  {
    if d != [] {
      NoWorkMeansExact(d[..|d| - 1]);
    }
  }

  lemma {:induction false} NoErrorMeansExact(d: seq<int>)
    ensures SquaredError(d) >= 0
    ensures SquaredError(d) == 0 <==> Exact(d)
  {
    if d != [] {
      NoErrorMeansExact(d[..|d| - 1]);
      var x := d[|d| - 1];
      SquaresOrdered(0, x);
    }
  }

  /** No legal put lowers the work by more than one. */
  lemma PutLowersWork(d: seq<int>, p: Put)
    requires Legal(p, |d|)
    ensures Work(ApplyPut(d, p)) >= Work(d) - 1
  {
    WorkAfterChange(d, p.point, d[p.point] - p.value);
    PutsNeededMonotone(Cut(Abs(d[p.point])), Abs(d[p.point] - p.value));
  }

  /** While any difference is left, a greedy put lowers the work by exactly one. */
  lemma GreedyLowersWork(d: seq<int>)
    requires d != []
    ensures Work(GreedyStep(d, |d|)) == if Work(d) == 0 then 0 else Work(d) - 1
  {
    var m := FirstMax(d);
    ClampLowersWork(d, m);
    assert GreedyStep(d, |d|) == d[m := d[m] - Clamp(d[m])] by {
      assert d[..|d|] == d;
    }
    if d[m] == 0 {
      AllZero(d);
    }
  }

  lemma AllZero(d: seq<int>)
    requires forall i :: 0 <= i < |d| ==> Abs(d[i]) <= 0
    ensures Work(d) == 0
  {
    NoWorkMeansExact(d);
  }

  lemma ClampLowersWork(d: seq<int>, x: nat)
    requires x < |d|
    ensures Work(d[x := d[x] - Clamp(d[x])]) == if d[x] == 0 then Work(d) else Work(d) - 1
  {
    var left := d[x] - Clamp(d[x]);
    WorkAfterChange(d, x, left);
    assert Abs(left) == Cut(Abs(d[x]));
    assert d[x] != 0 ==> PutsNeeded(Abs(d[x])) == 1 + PutsNeeded(Abs(left));
  }

  lemma {:induction false} WorkOfGreedyRun(d: seq<int>, n: nat)
    requires d != []
    ensures Work(GreedyRun(d, n)) == if n <= Work(d) then Work(d) - n else 0
    decreases n
  {
    if n > 0 {
      GreedyLowersWork(d);
      WorkOfGreedyRun(GreedyStep(d, |d|), n - 1);
    }
  }

  lemma {:induction false} WorkOfPlan(d: seq<int>, plan: seq<Put>)
    requires LegalPlan(plan, |d|)
    ensures Work(ApplyPlan(d, plan)) >= Work(d) - |plan|
    decreases |plan|
  {
    if plan != [] {
      PutLowersWork(d, plan[0]);
      WorkOfPlan(ApplyPut(d, plan[0]), plan[1..]);
    }
  }

  /** Greedy reaches zero error after exactly Work(d) puts, and no plan is faster. */
  lemma GreedyIsFastest(d: seq<int>, n: nat, plan: seq<Put>)
    requires d != [] && LegalPlan(plan, |d|)
    ensures SquaredError(GreedyRun(d, n)) == 0 <==> n >= Work(d)
    ensures SquaredError(ApplyPlan(d, plan)) == 0 ==> |plan| >= Work(d)
  {
    WorkOfGreedyRun(d, n);
    WorkOfPlan(d, plan);
    NoWorkMeansExact(GreedyRun(d, n));
    NoErrorMeansExact(GreedyRun(d, n));
    NoWorkMeansExact(ApplyPlan(d, plan));
    NoErrorMeansExact(ApplyPlan(d, plan));
  }
}
