/** The compact histogram of `hstg.cc` over real arithmetic: four summary cells and a
    count for each of 142 buckets. */
module Histograms {

  const NUM_BUCKETS := 142

  // ----- the bucket limits -----

  const UNITS: seq<real> := [1.0, 2.0, 3.0, 4.0, 5.0, 6.0, 7.0, 8.0, 9.0, 10.0]
  const TENS: seq<real> := [
    12.0, 14.0, 16.0, 18.0, 20.0, 25.0, 30.0, 35.0, 40.0, 45.0, 50.0, 60.0, 70.0, 80.0, 90.0, 100.0]
  const HUNDREDS: seq<real> := [
    120.0, 140.0, 160.0, 180.0, 200.0, 250.0, 300.0, 350.0, 400.0, 450.0, 500.0, 600.0, 700.0, 800.0, 900.0,
    1000.0]
  const E3: seq<real> := [
    1200.0, 1400.0, 1600.0, 1800.0, 2000.0, 2500.0, 3000.0, 3500.0, 4000.0, 4500.0, 5000.0, 6000.0, 7000.0,
    8000.0, 9000.0, 10000.0]
  const E4: seq<real> := [
    12000.0, 14000.0, 16000.0, 18000.0, 20000.0, 25000.0, 30000.0, 35000.0, 40000.0, 45000.0, 50000.0,
    60000.0, 70000.0, 80000.0, 90000.0, 100000.0]
  const E5: seq<real> := [
    120000.0, 140000.0, 160000.0, 180000.0, 200000.0, 250000.0, 300000.0, 350000.0, 400000.0, 450000.0,
    500000.0, 600000.0, 700000.0, 800000.0, 900000.0, 1000000.0]
  const E6: seq<real> := [
    1200000.0, 1400000.0, 1600000.0, 1800000.0, 2000000.0, 2500000.0, 3000000.0, 3500000.0, 4000000.0,
    4500000.0, 5000000.0, 6000000.0, 7000000.0, 8000000.0, 9000000.0, 10000000.0]
  const E7: seq<real> := [
    12000000.0, 14000000.0, 16000000.0, 18000000.0, 20000000.0, 25000000.0, 30000000.0, 35000000.0,
    40000000.0, 45000000.0, 50000000.0, 60000000.0, 70000000.0, 80000000.0, 90000000.0, 100000000.0]
  const E8: seq<real> := [
    120000000.0, 140000000.0, 160000000.0, 180000000.0, 200000000.0, 250000000.0, 300000000.0, 350000000.0,
    400000000.0, 450000000.0, 500000000.0, 600000000.0, 700000000.0, 800000000.0, 900000000.0, 1000000000.0]
  const E50 := 100000000000000000000000000000000000000000000000000.0
  const TOP: seq<real> := [2000000000.0, 4000000000.0, 8000000000.0, E50 * E50 * E50 * E50]

  const LIMITS: seq<real> := UNITS + TENS + HUNDREDS + E3 + E4 + E5 + E6 + E7 + E8 + TOP

  predicate Increasing(s: seq<real>) {
    forall i :: 0 <= i < |s| - 1 ==> s[i] < s[i + 1]
  }

  /** What the code needs of the table. */
  predicate Table(lim: seq<real>) {
    |lim| == NUM_BUCKETS && Increasing(lim) && lim[0] > 0.0
  }

  /** A stretch of the table, by its ends. */
  predicate Row(s: seq<real>, n: nat, first: real, last: real) {
    |s| == n > 0 && Increasing(s) && s[0] == first && s[n - 1] == last
  }

  lemma RowJoin(s: seq<real>, n: nat, a: real, b: real, t: seq<real>, m: nat, c: real, d: real)
    requires Row(s, n, a, b) && Row(t, m, c, d) && b < c
    ensures Row(s + t, n + m, a, d)
  {
  }

  lemma LowRows()
    ensures Row(UNITS, 10, 1.0, 10.0)
    ensures Row(TENS, 16, 12.0, 100.0)
    ensures Row(HUNDREDS, 16, 120.0, 1000.0)
    ensures Row(E3, 16, 1200.0, 10000.0)
    ensures Row(E4, 16, 12000.0, 100000.0)
  {
  }

  lemma HighRows()
    ensures Row(E5, 16, 120000.0, 1000000.0)
    ensures Row(E6, 16, 1200000.0, 10000000.0)
    ensures Row(E7, 16, 12000000.0, 100000000.0)
    ensures Row(E8, 16, 120000000.0, 1000000000.0)
    ensures |TOP| == 4 && Row(TOP, 4, 2000000000.0, TOP[3])
  {
  }

  lemma LimitsTable()
    ensures Table(LIMITS)
  {
    LowRows();
    HighRows();
    RowJoin(UNITS, 10, 1.0, 10.0, TENS, 16, 12.0, 100.0);
    RowJoin(UNITS + TENS, 26, 1.0, 100.0, HUNDREDS, 16, 120.0, 1000.0);
    RowJoin(UNITS + TENS + HUNDREDS, 42, 1.0, 1000.0, E3, 16, 1200.0, 10000.0);
    RowJoin(UNITS + TENS + HUNDREDS + E3, 58, 1.0, 10000.0, E4, 16, 12000.0, 100000.0);
    RowJoin(UNITS + TENS + HUNDREDS + E3 + E4, 74, 1.0, 100000.0, E5, 16, 120000.0, 1000000.0);
    RowJoin(UNITS + TENS + HUNDREDS + E3 + E4 + E5, 90, 1.0, 1000000.0, E6, 16, 1200000.0, 10000000.0);
    RowJoin(UNITS + TENS + HUNDREDS + E3 + E4 + E5 + E6, 106, 1.0, 10000000.0, E7, 16, 12000000.0, 100000000.0);
    RowJoin(UNITS + TENS + HUNDREDS + E3 + E4 + E5 + E6 + E7, 122, 1.0, 100000000.0, E8, 16, 120000000.0, 1000000000.0);
    RowJoin(UNITS + TENS + HUNDREDS + E3 + E4 + E5 + E6 + E7 + E8, 138, 1.0, 1000000000.0, TOP, 4, 2000000000.0,
        TOP[3]);
  }

  /** The limits from one power of ten to the next, as multiples of it. */
  const STEPS: seq<real> := [
    1.2, 1.4, 1.6, 1.8, 2.0, 2.5, 3.0, 3.5, 4.0, 4.5, 5.0, 6.0, 7.0, 8.0, 9.0, 10.0]

  function Decade(k: nat): (s: seq<real>)
    requires k < 8
    ensures |s| == 16
  {
    if k == 0 then TENS else if k == 1 then HUNDREDS else if k == 2 then E3 else if k == 3 then E4
    else if k == 4 then E5 else if k == 5 then E6 else if k == 6 then E7 else E8
  }

  function Power(k: nat): real
    requires k < 8
  {
    if k == 0 then 10.0 else if k == 1 then 100.0 else if k == 2 then 1000.0 else if k == 3 then 10000.0
    else if k == 4 then 100000.0 else if k == 5 then 1000000.0 else if k == 6 then 10000000.0 else 100000000.0
  }

  lemma DecadeSteps(k: nat, j: nat)
    requires k < 8 && j < 16
    ensures Decade(k)[j] == STEPS[j] * Power(k)
  {
  }

  /** The table up to decade `k`. */
  function Upto(k: nat): (s: seq<real>)
    requires k <= 8
    ensures |s| == 10 + 16 * k
  {
    if k == 0 then assert |UNITS| == 10; UNITS else Upto(k - 1) + Decade(k - 1)
  }

  lemma LimitsUpto()
    ensures LIMITS == Upto(8) + TOP
  {
    assert Upto(2) == UNITS + TENS + HUNDREDS;
    assert Upto(4) == Upto(2) + E3 + E4;
    assert Upto(6) == Upto(4) + E5 + E6;
    assert Upto(8) == Upto(6) + E7 + E8;
  }

  lemma AtFront(s: seq<real>, t: seq<real>, i: nat)
    requires i < |s|
    ensures (s + t)[i] == s[i]
  {
  }

  lemma AtEnd(s: seq<real>, t: seq<real>, j: nat)
    requires j < |t|
    ensures (s + t)[|s| + j] == t[j]
  {
  }

  /** Where the decades are in the table. */
  lemma {:induction false} DecadeAt(n: nat, k: nat, j: nat)
    requires k < n <= 8 && j < 16
    ensures Upto(n)[10 + 16 * k + j] == Decade(k)[j]
  {
    if k < n - 1 {
      DecadeAt(n - 1, k, j);
      AtFront(Upto(n - 1), Decade(n - 1), 10 + 16 * k + j);
    } else {
      AtEnd(Upto(k), Decade(k), j);
    }
  }

  lemma {:induction false} UnitsAt(n: nat, b: nat)
    requires n <= 8 && b < 10
    ensures Upto(n)[b] == (b + 1) as real
  {
    if n > 0 {
      UnitsAt(n - 1, b);
      AtFront(Upto(n - 1), Decade(n - 1), b);
    }
  }

  /** The whole table by a rule: one by one up to 10; then sixteen limits to every power of ten
      up to 10^9, always the same multiples of it; then 2, 4 and 8 times 10^9, and 10^200. */
  lemma LimitsAre(b: nat, k: nat, j: nat)
    requires b < 10 && k < 8 && j < 16
    ensures |LIMITS| == 142 && LIMITS[b] == (b + 1) as real
    ensures LIMITS[10 + 16 * k + j] == STEPS[j] * Power(k)
    ensures LIMITS[138..] == [2000000000.0, 4000000000.0, 8000000000.0, E50 * E50 * E50 * E50]
  {
    LimitsUpto();
    UnitsAt(8, b);
    DecadeAt(8, k, j);
    DecadeSteps(k, j);
  }

  lemma {:induction false} LimitsOrdered(lim: seq<real>, i: nat, j: nat)
    requires Increasing(lim) && i <= j < |lim|
    ensures lim[i] <= lim[j] && (i < j ==> lim[i] < lim[j])
    decreases j
  {
    if i < j {
      LimitsOrdered(lim, i, j - 1);
    }
  }

  // ----- adding a sample -----

  /** A histogram: number, maximum, minimum, sum, and the buckets from cell 4 on. */
  type Cells = h: seq<real> | |h| == NUM_BUCKETS + 4 witness seq(NUM_BUCKETS + 4, i => 0.0)

  function Left(lim: seq<real>, b: nat): real
    requires b < |lim|
  {
    if b == 0 then 0.0 else lim[b - 1]
  }

  /** The bucket search: the first limit above `d`, or the last bucket. */
  function Bucket(lim: seq<real>, d: real, b: nat): (r: nat)
    requires |lim| == NUM_BUCKETS && b < NUM_BUCKETS
    ensures b <= r < NUM_BUCKETS
    decreases NUM_BUCKETS - b
  {
    if b < NUM_BUCKETS - 1 && lim[b] <= d then Bucket(lim, d, b + 1) else b
  }

  function Added(lim: seq<real>, h: Cells, d: real): Cells
    requires |lim| == NUM_BUCKETS
  {
    var b := Bucket(lim, d, 0);
    h[4 + b := h[4 + b] + 1.0][0 := h[0] + 1.0][1 := if h[1] < d then d else h[1]]
     [2 := if h[2] > d then d else h[2]][3 := h[3] + d]
  }

  /** `hstg_add`. */
  method Add(lim: seq<real>, h: array<real>, d: real)
    requires |lim| == NUM_BUCKETS && h.Length == NUM_BUCKETS + 4
    modifies h
    ensures h[..] == Added(lim, old(h[..]), d)
  {
    var b := 0;
    while b < NUM_BUCKETS - 1 && lim[b] <= d
      invariant 0 <= b < NUM_BUCKETS && Bucket(lim, d, b) == Bucket(lim, d, 0)
    {
      b := b + 1;
    }
    h[4 + b] := h[4 + b] + 1.0;
    h[0] := h[0] + 1.0;
    if h[1] < d { h[1] := d; }
    if h[2] > d { h[2] := d; }
    h[3] := h[3] + d;
  }

  /** A cleared histogram after `hstg_reset_min`. */
  function Cleared(lim: seq<real>): Cells
    requires |lim| == NUM_BUCKETS
  {
    seq(NUM_BUCKETS + 4, i => 0.0)[2 := lim[NUM_BUCKETS - 1]]
  }

  function HistOf(lim: seq<real>, xs: seq<real>): Cells
    requires |lim| == NUM_BUCKETS
  {
    if xs == [] then Cleared(lim) else Added(lim, HistOf(lim, xs[..|xs| - 1]), xs[|xs| - 1])
  }

  // ----- percentiles -----

  /** Samples counted before bucket `b`. */
  function Before(h: Cells, b: nat): real
    requires b <= NUM_BUCKETS
  {
    if b == 0 then 0.0 else Before(h, b - 1) + h[4 + b - 1]
  }

  function Clamp(h: Cells, r: real): real {
    var r1 := if r < h[2] then h[2] else r;
    if r1 > h[1] then h[1] else r1
  }

  /** Linear interpolation within bucket `b`, for a threshold inside it. */
  function Point(lim: seq<real>, h: Cells, t: real, b: nat, sum: real): real
    requires |lim| == NUM_BUCKETS && b < NUM_BUCKETS && sum < t <= sum + h[4 + b]
  {
    Left(lim, b) + (lim[b] - Left(lim, b)) * ((t - sum) / h[4 + b])
  }

  /** The search of `hstg_ptile` from bucket `b` on, with `sum` samples before it. */
  function PtileFrom(lim: seq<real>, h: Cells, t: real, b: nat, sum: real): real
    requires |lim| == NUM_BUCKETS && b <= NUM_BUCKETS && sum < t
    decreases NUM_BUCKETS - b
  {
    if b == NUM_BUCKETS then h[1]
    else if sum + h[4 + b] >= t then Clamp(h, Point(lim, h, t, b, sum))
    else PtileFrom(lim, h, t, b + 1, sum + h[4 + b])
  }

  function Threshold(h: Cells, p: real): real {
    h[0] * (p / 100.0)
  }

  predicate NonNegative(h: Cells) {
    forall i :: 4 <= i < |h| ==> h[i] >= 0.0
  }

  /** A double: a number, or what a division by zero gives. */
  datatype Num = Fin(x: real) | NegInf | NaN

  /** `n / d` for a `d` that is not negative and an `n` that is not positive if `d` is zero. */
  function Quotient(n: real, d: real): Num
    requires d > 0.0 || n <= 0.0
  {
    if d > 0.0 then Fin(n / d) else if d == 0.0 && n == 0.0 then NaN else NegInf
  }

  /** The clamping at the end: comparisons with a NaN are false. */
  function Clamped(h: Cells, r: Num): Num {
    match r
    case Fin(x) => Fin(Clamp(h, x))
    case NegInf => Fin(if h[2] > h[1] then h[1] else h[2])
    case NaN => NaN
  }

  /** The value inside the bucket where the search stops. */
  function Inside(lim: seq<real>, h: Cells, t: real, b: nat, sum: real): Num
    requires |lim| == NUM_BUCKETS && b < NUM_BUCKETS && (h[4 + b] > 0.0 || t <= sum)
  {
    var pos := Quotient(t - sum, h[4 + b]);
    Clamped(h, if pos.Fin? then Fin(Left(lim, b) + (lim[b] - Left(lim, b)) * pos.x) else pos)
  }

  lemma InsideHigh(lim: seq<real>, h: Cells, t: real, b: nat, sum: real)
    requires |lim| == NUM_BUCKETS && b < NUM_BUCKETS && sum < t <= sum + h[4 + b]
    ensures Inside(lim, h, t, b, sum) == Fin(Clamp(h, Point(lim, h, t, b, sum)))
  {
  }

  /** `hstg_ptile`, inside the bucket it stops at. */
  method Interpolate(lim: seq<real>, h: array<real>, threshold: real, b: nat, left_sum: real) returns (r: Num)
    requires |lim| == NUM_BUCKETS && h.Length == NUM_BUCKETS + 4 && b < NUM_BUCKETS
    requires h[..][4 + b] > 0.0 || threshold <= left_sum
    ensures r == Inside(lim, h[..], threshold, b, left_sum)
  {
    var left_point := if b == 0 then 0.0 else lim[b - 1];
    var right_sum := left_sum + h[4 + b];
    assert right_sum - left_sum == h[4 + b] == h[..][4 + b];
    var pos := Quotient(threshold - left_sum, right_sum - left_sum);
    var point := if pos.Fin? then Fin(left_point + (lim[b] - left_point) * pos.x) else pos;
    r := Clamped(h[..], point);
  }

  /** What `hstg_ptile` returns for any threshold: one that is not positive ends the search in
      the first bucket. */
  function Found(lim: seq<real>, h: Cells, t: real): Num
    requires |lim| == NUM_BUCKETS
  {
    if t > 0.0 then Fin(PtileFrom(lim, h, t, 0, 0.0)) else Inside(lim, h, t, 0, 0.0)
  }

  /** The search has come to bucket `b`, with `sum` samples before it. */
  ghost predicate Searching(lim: seq<real>, h: Cells, t: real, b: nat, sum: real)
    requires |lim| == NUM_BUCKETS
  {
    && b <= NUM_BUCKETS && (if b == 0 then sum == 0.0 else 0.0 <= sum < t)
    && (t > 0.0 ==> sum < t && PtileFrom(lim, h, t, 0, 0.0) == PtileFrom(lim, h, t, b, sum))
  }

  lemma SearchStops(lim: seq<real>, h: Cells, t: real, b: nat, sum: real)
    requires |lim| == NUM_BUCKETS && NonNegative(h) && b < NUM_BUCKETS && Searching(lim, h, t, b, sum)
    requires sum + h[4 + b] >= t
    ensures (h[4 + b] > 0.0 || t <= sum) && Inside(lim, h, t, b, sum) == Found(lim, h, t)
  {
    if t > 0.0 {
      InsideHigh(lim, h, t, b, sum);
    }
  }

  lemma SearchGoesOn(lim: seq<real>, h: Cells, t: real, b: nat, sum: real)
    requires |lim| == NUM_BUCKETS && NonNegative(h) && b < NUM_BUCKETS && Searching(lim, h, t, b, sum)
    requires sum + h[4 + b] < t
    ensures Searching(lim, h, t, b + 1, sum + h[4 + b])
  {
  }

  /** The search loop of `hstg_ptile`.  A threshold that is not positive ends it at once. */
  method Search(lim: seq<real>, h: array<real>, threshold: real) returns (r: Num)
    requires Table(lim) && h.Length == NUM_BUCKETS + 4 && NonNegative(h[..])
    ensures r == Found(lim, h[..], threshold)
  {
    ghost var cells: Cells := h[..];
    var sum, b := 0.0, 0;
    while b < NUM_BUCKETS
      invariant 0 <= b <= NUM_BUCKETS && Searching(lim, cells, threshold, b, sum)
    {
      assert h[4 + b] == cells[4 + b];
      if sum + h[4 + b] >= threshold {
        SearchStops(lim, cells, threshold, b, sum);
        r := Interpolate(lim, h, threshold, b, sum);
        return;
      }
      SearchGoesOn(lim, cells, threshold, b, sum);
      sum := sum + h[4 + b];
      b := b + 1;
    }
    r := Fin(h[1]);
  }

  /** `hstg_ptile`. */
  method Ptile(lim: seq<real>, h: array<real>, p: real) returns (r: Num)
    requires Table(lim) && h.Length == NUM_BUCKETS + 4 && NonNegative(h[..])
    ensures r == Found(lim, h[..], Threshold(h[..], p))
  {
    var threshold := h[0] * (p / 100.0);
    ghost var t := Threshold(h[..], p);
    assert h[..][0] == h[0];
    assert threshold == t;
    r := Search(lim, h, threshold);
  }

  /** The interpolation is linear: the point divides the bucket as the threshold divides its
      samples. */
  lemma PointLinear(lim: seq<real>, h: Cells, t: real, b: nat, sum: real)
    requires |lim| == NUM_BUCKETS && b < NUM_BUCKETS && sum < t <= sum + h[4 + b]
    ensures (Point(lim, h, t, b, sum) - Left(lim, b)) * h[4 + b] == (lim[b] - Left(lim, b)) * (t - sum)
  {
    var w, n := lim[b] - Left(lim, b), h[4 + b];
    assert Point(lim, h, t, b, sum) - Left(lim, b) == w * ((t - sum) / n);
    assert (t - sum) / n * n == t - sum;
    assert w * ((t - sum) / n) * n == w * ((t - sum) / n * n);
  }

  lemma PointBounds(lim: seq<real>, h: Cells, t: real, b: nat, sum: real)
    requires Table(lim) && b < NUM_BUCKETS && sum < t <= sum + h[4 + b]
    ensures Left(lim, b) < Point(lim, h, t, b, sum) <= lim[b]
    ensures Point(lim, h, t, b, sum) == lim[b] <==> t == sum + h[4 + b]
  {
    var w, pos := lim[b] - Left(lim, b), (t - sum) / h[4 + b];
    assert w > 0.0 && pos > 0.0 && pos <= 1.0 && (pos == 1.0 <==> t == sum + h[4 + b]);
    Scaled(w, pos);
    assert Point(lim, h, t, b, sum) == Left(lim, b) + w * pos;
  }

  lemma Scaled(w: real, pos: real)
    requires w > 0.0 && 0.0 < pos <= 1.0
    ensures 0.0 < w * pos <= w && (w * pos == w <==> pos == 1.0)
  {
    assert w - w * pos == w * (1.0 - pos);
  }

  lemma PointMonotone(lim: seq<real>, h: Cells, t: real, u: real, b: nat, sum: real)
    requires Table(lim) && b < NUM_BUCKETS && sum < t <= u <= sum + h[4 + b]
    ensures Point(lim, h, t, b, sum) <= Point(lim, h, u, b, sum)
  {
    var w, x, y := lim[b] - Left(lim, b), (t - sum) / h[4 + b], (u - sum) / h[4 + b];
    assert x <= y by { DivMonotone(t - sum, u - sum, h[4 + b]); }
    assert w * y - w * x == w * (y - x);
  }

  lemma DivMonotone(x: real, y: real, n: real)
    requires x <= y && n > 0.0
    ensures x / n <= y / n
  {
    assert (y / n - x / n) * n == y - x;
  }

  // ----- monotone in the percentile -----

  lemma {:induction false} FromAtLeast(lim: seq<real>, h: Cells, t: real, b: nat, sum: real)
    requires Table(lim) && NonNegative(h) && b < NUM_BUCKETS && sum < t
    ensures PtileFrom(lim, h, t, b, sum) >= Clamp(h, Left(lim, b))
    decreases NUM_BUCKETS - b
  {
    if sum + h[4 + b] >= t {
      PointBounds(lim, h, t, b, sum);
      ClampMonotone(h, Left(lim, b), Point(lim, h, t, b, sum));
    } else if b + 1 < NUM_BUCKETS {
      FromAtLeast(lim, h, t, b + 1, sum + h[4 + b]);
      ClampMonotone(h, Left(lim, b), Left(lim, b + 1));
    }
  }

  lemma ClampMonotone(h: Cells, r: real, s: real)
    requires r <= s
    ensures Clamp(h, r) <= Clamp(h, s) <= h[1]
  {
  }

  /** Clamping a value of a bucket, when some sample `v` is in that bucket. */
  lemma ClampStays(h: Cells, r: real, v: real, lo: real, hi: real)
    requires lo < r <= hi && lo <= v < hi && h[2] <= v <= h[1]
    ensures lo <= Clamp(h, r) <= hi && h[2] <= Clamp(h, r) <= h[1]
    ensures Clamp(h, r) < hi <==> !(r == hi && h[1] >= hi)
  {
  }

  lemma {:induction false} FromMonotone(lim: seq<real>, h: Cells, t: real, u: real, b: nat, sum: real)
    requires Table(lim) && NonNegative(h) && b <= NUM_BUCKETS && sum < t <= u
    ensures PtileFrom(lim, h, t, b, sum) <= PtileFrom(lim, h, u, b, sum)
    decreases NUM_BUCKETS - b
  {
    if b < NUM_BUCKETS {
      if sum + h[4 + b] >= u {
        PointMonotone(lim, h, t, u, b, sum);
        ClampMonotone(h, Point(lim, h, t, b, sum), Point(lim, h, u, b, sum));
      } else if sum + h[4 + b] >= t {
        PointBounds(lim, h, t, b, sum);
        ClampMonotone(h, Point(lim, h, t, b, sum), lim[b]);
        if b + 1 < NUM_BUCKETS {
          FromAtLeast(lim, h, u, b + 1, sum + h[4 + b]);
        }
      } else {
        FromMonotone(lim, h, t, u, b + 1, sum + h[4 + b]);
      }
    }
  }

  /** A larger percentile never gives a smaller value, for any histogram. */
  lemma PtileMonotone(lim: seq<real>, h: Cells, p: real, q: real)
    requires Table(lim) && NonNegative(h) && h[0] > 0.0 && 0.0 < p <= q
    ensures 0.0 < Threshold(h, p) <= Threshold(h, q)
    ensures PtileFrom(lim, h, Threshold(h, p), 0, 0.0) <= PtileFrom(lim, h, Threshold(h, q), 0, 0.0)
  {
    ThresholdGrows(h, p, q);
    FromMonotone(lim, h, Threshold(h, p), Threshold(h, q), 0, 0.0);
  }

  lemma ThresholdGrows(h: Cells, p: real, q: real)
    requires h[0] > 0.0 && 0.0 < p <= q
    ensures 0.0 < Threshold(h, p) <= Threshold(h, q)
  {
    var x, y := p / 100.0, q / 100.0;
    assert h[0] * y - h[0] * x == h[0] * (y - x);
    assert h[0] * x > 0.0;
  }

  // ----- what the cells count -----

  /** Samples below `v`, or up to and including it. */
  function Count(xs: seq<real>, v: real, strict: bool): (n: nat)
    ensures n <= |xs|
  {
    if xs == [] then 0
    else Count(xs[..|xs| - 1], v, strict) + (if xs[|xs| - 1] < v || (!strict && xs[|xs| - 1] == v) then 1 else 0)
  }

  /** Samples the histogram is made for: not negative, below the last limit. */
  predicate InRange(lim: seq<real>, xs: seq<real>)
    requires |lim| == NUM_BUCKETS
  {
    forall i :: 0 <= i < |xs| ==> 0.0 <= xs[i] < lim[NUM_BUCKETS - 1]
  }

  lemma {:induction false} BucketHolds(lim: seq<real>, d: real, b: nat)
    requires Table(lim) && 0.0 <= d < lim[NUM_BUCKETS - 1] && b < NUM_BUCKETS && Left(lim, b) <= d
    ensures var r := Bucket(lim, d, b); Left(lim, r) <= d < lim[r]
    decreases NUM_BUCKETS - b
  {
    if b < NUM_BUCKETS - 1 && lim[b] <= d {
      BucketHolds(lim, d, b + 1);
    }
  }

  lemma BucketIff(lim: seq<real>, d: real, c: nat)
    requires Table(lim) && 0.0 <= d < lim[NUM_BUCKETS - 1] && c < NUM_BUCKETS
    ensures Bucket(lim, d, 0) <= c <==> d < lim[c]
  {
    var r := Bucket(lim, d, 0);
    BucketHolds(lim, d, 0);
    if r <= c {
      LimitsOrdered(lim, r, c);
    } else {
      LimitsOrdered(lim, c, r - 1);
    }
  }

  lemma {:induction false} BeforeAdded(lim: seq<real>, h: Cells, d: real, b: nat)
    requires |lim| == NUM_BUCKETS && b <= NUM_BUCKETS
    ensures Before(Added(lim, h, d), b) == Before(h, b) + (if Bucket(lim, d, 0) < b then 1.0 else 0.0)
  {
    if b > 0 {
      BeforeAdded(lim, h, d, b - 1);
    }
  }

  lemma {:induction false} BeforeCleared(lim: seq<real>, b: nat)
    requires |lim| == NUM_BUCKETS && b <= NUM_BUCKETS
    ensures Before(Cleared(lim), b) == 0.0
  {
    if b > 0 {
      BeforeCleared(lim, b - 1);
    }
  }

  /** The counts of the buckets below a limit are the samples below that limit. */
  lemma {:induction false} BeforeCounts(lim: seq<real>, xs: seq<real>, b: nat)
    requires Table(lim) && InRange(lim, xs) && b < NUM_BUCKETS
    ensures Before(HistOf(lim, xs), b + 1) == Count(xs, lim[b], true) as real
  {
    if xs == [] {
      BeforeCleared(lim, b + 1);
    } else {
      var n := |xs| - 1;
      BeforeCounts(lim, xs[..n], b);
      BeforeAdded(lim, HistOf(lim, xs[..n]), xs[n], b + 1);
      BucketIff(lim, xs[n], b);
    }
  }

  function Sum(xs: seq<real>): real {
    if xs == [] then 0.0 else Sum(xs[..|xs| - 1]) + xs[|xs| - 1]
  }

  /** The sum cell is the sum of the samples. */
  lemma {:induction false} SumCell(lim: seq<real>, xs: seq<real>)
    requires |lim| == NUM_BUCKETS
    ensures HistOf(lim, xs)[3] == Sum(xs)
  {
    if xs != [] {
      SumCell(lim, xs[..|xs| - 1]);
    }
  }

  /** Number, maximum and minimum. */
  ghost predicate Sums(h: Cells, xs: seq<real>) {
    && NonNegative(h) && h[0] == |xs| as real
    && h[1] >= 0.0 && (h[1] == 0.0 || h[1] in xs) && (forall i :: 0 <= i < |xs| ==> h[2] <= xs[i] <= h[1])
    && (xs != [] ==> h[2] in xs)
  }

  lemma SumsAdded(lim: seq<real>, g: Cells, xs: seq<real>, d: real)
    requires |lim| == NUM_BUCKETS && Sums(g, xs) && 0.0 <= d < lim[NUM_BUCKETS - 1]
    requires xs == [] ==> g[2] == lim[NUM_BUCKETS - 1]
    ensures Sums(Added(lim, g, d), xs + [d])
  {
    var h := Added(lim, g, d);
    assert (xs + [d])[|xs|] == d;
    forall i | 0 <= i < |xs + [d]| ensures h[2] <= (xs + [d])[i] <= h[1] {
      assert i < |xs| ==> (xs + [d])[i] == xs[i];
    }
  }

  lemma {:induction false} Summary(lim: seq<real>, xs: seq<real>)
    requires Table(lim) && InRange(lim, xs)
    ensures Sums(HistOf(lim, xs), xs)
  {
    if xs != [] {
      var n := |xs| - 1;
      Summary(lim, xs[..n]);
      SumsAdded(lim, HistOf(lim, xs[..n]), xs[..n], xs[n]);
      assert xs == xs[..n] + [xs[n]];
    }
  }

  // ----- the k-th smallest sample -----

  predicate Sorted(ys: seq<real>) {
    forall i, j :: 0 <= i <= j < |ys| ==> ys[i] <= ys[j]
  }

  lemma {:induction false} CountConcat(xs: seq<real>, ys: seq<real>, v: real, strict: bool)
    ensures Count(xs + ys, v, strict) == Count(xs, v, strict) + Count(ys, v, strict)
  {
    if ys == [] {
      assert xs + ys == xs;
    } else {
      var n := |ys| - 1;
      assert (xs + ys)[..|xs + ys| - 1] == xs + ys[..n];
      CountConcat(xs, ys[..n], v, strict);
    }
  }

  lemma CountRemoved(ys: seq<real>, j: nat, v: real, strict: bool)
    requires j < |ys|
    ensures multiset(ys) - multiset{ys[j]} == multiset(ys[..j] + ys[j + 1..])
    ensures Count(ys, v, strict) == Count(ys[..j] + ys[j + 1..], v, strict) + Count([ys[j]], v, strict)
  {
    assert ys == ys[..j] + [ys[j]] + ys[j + 1..];
    CountConcat(ys[..j], ys[j + 1..], v, strict);
    CountConcat(ys[..j] + [ys[j]], ys[j + 1..], v, strict);
    CountConcat(ys[..j], [ys[j]], v, strict);
  }

  /** Counting does not depend on the order. */
  lemma {:induction false} CountPermuted(xs: seq<real>, ys: seq<real>, v: real, strict: bool)
    requires multiset(xs) == multiset(ys)
    ensures Count(xs, v, strict) == Count(ys, v, strict)
    decreases |xs|
  {
    assert |xs| == |multiset(xs)| == |multiset(ys)| == |ys|;
    if xs != [] {
      var x := xs[0];
      assert x in multiset(ys);
      var j :| 0 <= j < |ys| && ys[j] == x;
      CountRemoved(xs, 0, v, strict);
      CountRemoved(ys, j, v, strict);
      CountPermuted(xs[..0] + xs[1..], ys[..j] + ys[j + 1..], v, strict);
    }
  }

  /** In a sorted list, the elements below number `k` come before it and those up to it
      include the first `k + 1`. */
  lemma {:induction false} SortedCounts(ys: seq<real>, k: nat, n: nat)
    requires Sorted(ys) && k < |ys| && n <= |ys|
    ensures Count(ys[..n], ys[k], true) <= k && (n > k ==> Count(ys[..n], ys[k], false) >= k + 1)
    ensures n <= k ==> Count(ys[..n], ys[k], false) == n
  {
    if n > 0 {
      SortedCounts(ys, k, n - 1);
      assert ys[..n][..n - 1] == ys[..n - 1];
    }
  }

  lemma {:induction false} CountMonotone(xs: seq<real>, u: real, v: real)
    requires u <= v
    ensures Count(xs, u, true) <= Count(xs, v, true)
    ensures u < v ==> Count(xs, u, false) <= Count(xs, v, true)
  {
    if xs != [] {
      CountMonotone(xs[..|xs| - 1], u, v);
    }
  }

  /** The k-th smallest sample: fewer than k are below it, at least k are not above it. */
  lemma KthCounts(xs: seq<real>, ys: seq<real>, k: nat)
    requires multiset(xs) == multiset(ys) && Sorted(ys) && 1 <= k <= |ys|
    ensures Count(xs, ys[k - 1], true) <= k - 1 && k <= Count(xs, ys[k - 1], false)
  {
    SortedCounts(ys, k - 1, |ys|);
    assert ys[..|ys|] == ys;
    CountPermuted(xs, ys, ys[k - 1], true);
    CountPermuted(xs, ys, ys[k - 1], false);
  }

  lemma KthInRange(lim: seq<real>, xs: seq<real>, ys: seq<real>, k: nat)
    requires |lim| == NUM_BUCKETS && InRange(lim, xs) && multiset(xs) == multiset(ys) && 1 <= k <= |ys|
    ensures 0.0 <= ys[k - 1] < lim[NUM_BUCKETS - 1]
  {
    assert ys[k - 1] in multiset(xs);
  }

  /** The bucket of the k-th smallest sample is where the counts pass k. */
  lemma KthBucket(lim: seq<real>, xs: seq<real>, ys: seq<real>, k: nat)
    requires Table(lim) && InRange(lim, xs) && multiset(xs) == multiset(ys) && Sorted(ys) && 1 <= k <= |ys|
    ensures 0.0 <= ys[k - 1] < lim[NUM_BUCKETS - 1]
    ensures var b := Bucket(lim, ys[k - 1], 0);
            Before(HistOf(lim, xs), b) <= (k - 1) as real && k as real <= Before(HistOf(lim, xs), b + 1)
  {
    var v := ys[k - 1];
    KthInRange(lim, xs, ys, k);
    KthCounts(xs, ys, k);
    BucketCounts(lim, xs, v);
  }

  /** The counts around the bucket of `v`. */
  lemma BucketCounts(lim: seq<real>, xs: seq<real>, v: real)
    requires Table(lim) && InRange(lim, xs) && 0.0 <= v < lim[NUM_BUCKETS - 1]
    ensures var h, b := HistOf(lim, xs), Bucket(lim, v, 0);
            Before(h, b) <= Count(xs, v, true) as real && Count(xs, v, false) as real <= Before(h, b + 1)
  {
    var b := Bucket(lim, v, 0);
    BucketHolds(lim, v, 0);
    CountMonotone(xs, v, lim[b]);
    BeforeCounts(lim, xs, b);
    if b > 0 {
      CountMonotone(xs, lim[b - 1], v);
      BeforeCounts(lim, xs, b - 1);
    }
  }

  lemma {:induction false} BeforeMonotone(h: Cells, a: nat, b: nat)
    requires NonNegative(h) && a <= b <= NUM_BUCKETS
    ensures Before(h, a) <= Before(h, b)
    decreases b
  {
    if a < b {
      BeforeMonotone(h, a, b - 1);
    }
  }

  /** Where the search stops. */
  lemma {:induction false} StopsAt(lim: seq<real>, h: Cells, t: real, b: nat, c: nat)
    requires Table(lim) && NonNegative(h) && c <= b < NUM_BUCKETS
    requires Before(h, b) < t <= Before(h, b + 1) && Before(h, c) < t
    ensures PtileFrom(lim, h, t, c, Before(h, c)) == Clamp(h, Point(lim, h, t, b, Before(h, b)))
    decreases b - c
  {
    if c < b {
      BeforeMonotone(h, c + 1, b);
      StopsAt(lim, h, t, b, c + 1);
    }
  }

  /** What is returned for a positive threshold: let `b` be the bucket in which the counts reach
      it; the point that divides this bucket, brought between the smallest and the largest
      sample. */
  lemma PtileIs(lim: seq<real>, h: Cells, t: real, b: nat)
    requires Table(lim) && NonNegative(h) && t > 0.0 && b < NUM_BUCKETS && Before(h, b) < t <= Before(h, b + 1)
    ensures Found(lim, h, t) == Fin(Clamp(h, Point(lim, h, t, b, Before(h, b))))
  {
    assert Before(h, 0) == 0.0;
    StopsAt(lim, h, t, b, 0);
  }

  /** Clamping brings a value between the smallest and the largest sample, and moves it only if
      it is not there. */
  lemma ClampIs(h: Cells, x: real)
    requires h[2] <= h[1]
    ensures h[2] <= Clamp(h, x) <= h[1]
    ensures Clamp(h, x) == x || (x < h[2] && Clamp(h, x) == h[2]) || (x > h[1] && Clamp(h, x) == h[1])
  {
  }

  lemma {:induction false} PtileMax(lim: seq<real>, h: Cells, t: real, c: nat)
    requires Table(lim) && NonNegative(h) && t > 0.0 && c <= NUM_BUCKETS && Before(h, NUM_BUCKETS) < t
    requires Before(h, c) < t
    ensures PtileFrom(lim, h, t, c, Before(h, c)) == h[1]
    decreases NUM_BUCKETS - c
  {
    if c < NUM_BUCKETS {
      BeforeMonotone(h, c + 1, NUM_BUCKETS);
      PtileMax(lim, h, t, c + 1);
    }
  }

  /** The value `r` found for threshold `t` against the bucket of the sample `v`. */
  ghost predicate Bounded(lim: seq<real>, xs: seq<real>, v: real, t: real, r: real)
    requires |lim| == NUM_BUCKETS
  {
    var h, b := HistOf(lim, xs), Bucket(lim, v, 0);
    && Left(lim, b) <= v < lim[b] && Left(lim, b) <= r <= lim[b] && h[2] <= r <= h[1]
    && (r < lim[b] <==> !(t == Count(xs, lim[b], true) as real && h[1] >= lim[b]))
  }

  lemma BoundedAt(lim: seq<real>, xs: seq<real>, v: real, t: real, b: nat)
    requires Table(lim) && InRange(lim, xs) && b == Bucket(lim, v, 0) && Left(lim, b) <= v < lim[b]
    requires var h := HistOf(lim, xs); Before(h, b) < t <= Before(h, b + 1) && h[2] <= v <= h[1]
    ensures var h := HistOf(lim, xs); Bounded(lim, xs, v, t, Clamp(h, Point(lim, h, t, b, Before(h, b))))
  {
    var h := HistOf(lim, xs);
    BeforeCounts(lim, xs, b);
    PointBounds(lim, h, t, b, Before(h, b));
    ClampStays(h, Point(lim, h, t, b, Before(h, b)), v, Left(lim, b), lim[b]);
  }

  lemma PtileAt(lim: seq<real>, xs: seq<real>, ys: seq<real>, t: real, k: nat)
    requires Table(lim) && InRange(lim, xs) && multiset(xs) == multiset(ys) && Sorted(ys) && 1 <= k <= |ys|
    requires (k - 1) as real < t <= k as real
    ensures Bounded(lim, xs, ys[k - 1], t, PtileFrom(lim, HistOf(lim, xs), t, 0, 0.0))
  {
    var h, v := HistOf(lim, xs), ys[k - 1];
    var b := Bucket(lim, v, 0);
    Summary(lim, xs);
    KthBucket(lim, xs, ys, k);
    KthBetween(lim, xs, ys, k);
    BucketHolds(lim, v, 0);
    StopsAt(lim, h, t, b, 0);
    BoundedAt(lim, xs, v, t, b);
  }

  /** Percentile bound.  Let v be the k-th smallest of the samples, where k is num * p / 100
      rounded up, and b its bucket.  The percentile lies between the ends of that bucket and
      between the smallest and the largest sample.  It lies strictly below the upper end,
      that is in the bucket itself, unless num * p / 100 is exactly the number of samples
      below that end and some sample is not below it. */
  lemma PtileInBucket(lim: seq<real>, xs: seq<real>, ys: seq<real>, p: real, t: real, k: nat) returns (r: real)
    requires Table(lim) && InRange(lim, xs) && multiset(xs) == multiset(ys) && Sorted(ys) && 1 <= k <= |ys|
    requires t * 100.0 == |xs| as real * p && (k - 1) as real < t <= k as real
    ensures Found(lim, HistOf(lim, xs), Threshold(HistOf(lim, xs), p)) == Fin(r)
    ensures Bounded(lim, xs, ys[k - 1], t, r)
  {
    CountCell(lim, xs);
    ThresholdIs(HistOf(lim, xs), |xs| as real, p, t);
    r := PtileFound(lim, xs, ys, t, k);
  }

  lemma CountCell(lim: seq<real>, xs: seq<real>)
    requires Table(lim) && InRange(lim, xs)
    ensures HistOf(lim, xs)[0] == |xs| as real
  {
    Summary(lim, xs);
  }

  lemma PtileFound(lim: seq<real>, xs: seq<real>, ys: seq<real>, t: real, k: nat) returns (r: real)
    requires Table(lim) && InRange(lim, xs) && multiset(xs) == multiset(ys) && Sorted(ys) && 1 <= k <= |ys|
    requires (k - 1) as real < t <= k as real
    ensures Found(lim, HistOf(lim, xs), t) == Fin(r) && Bounded(lim, xs, ys[k - 1], t, r)
  {
    PtileAt(lim, xs, ys, t, k);
    r := PtileFrom(lim, HistOf(lim, xs), t, 0, 0.0);
  }

  /** The threshold is p percent of the samples. */
  lemma ThresholdIs(h: Cells, n: real, p: real, t: real)
    requires h[0] == n && t * 100.0 == n * p
    ensures Threshold(h, p) == t
  {
    var x := p / 100.0;
    assert n * p == n * (100.0 * x) == 100.0 * (n * x);
  }

  lemma KthBetween(lim: seq<real>, xs: seq<real>, ys: seq<real>, k: nat)
    requires Table(lim) && InRange(lim, xs) && multiset(xs) == multiset(ys) && 1 <= k <= |ys|
    ensures HistOf(lim, xs)[2] <= ys[k - 1] <= HistOf(lim, xs)[1]
  {
    Summary(lim, xs);
    assert ys[k - 1] in multiset(xs);
    var i :| 0 <= i < |xs| && xs[i] == ys[k - 1];
  }

  lemma FoundLow(lim: seq<real>, h: Cells, t: real)
    requires Table(lim) && t <= 0.0 && h[4] >= 0.0 && 0.0 <= h[2] <= h[1]
    ensures Found(lim, h, t) == if t == 0.0 && h[4] == 0.0 then NaN else Fin(h[2])
  {
    if h[4] > 0.0 {
      LowPoint(lim[0], t, h[4]);
    }
  }

  lemma FirstBucket(lim: seq<real>, xs: seq<real>)
    requires Table(lim) && InRange(lim, xs)
    ensures HistOf(lim, xs)[4] == Count(xs, lim[0], true) as real
  {
    BeforeCounts(lim, xs, 0);
    assert Before(HistOf(lim, xs), 1) == Before(HistOf(lim, xs), 0) + HistOf(lim, xs)[4];
  }

  /** For samples in range and p at or below zero the code returns the smallest sample, except
      that p == 0 gives a NaN if no sample is in the first bucket; and a NaN is what an empty
      histogram gives for every p. */
  lemma PtileLow(lim: seq<real>, xs: seq<real>, p: real)
    requires Table(lim) && InRange(lim, xs) && (xs == [] || p <= 0.0)
    ensures var h := HistOf(lim, xs);
            Found(lim, h, Threshold(h, p))
            == if xs == [] || (p == 0.0 && Count(xs, lim[0], true) == 0) then NaN else Fin(h[2])
  {
    var h := HistOf(lim, xs);
    FirstBucket(lim, xs);
    Summary(lim, xs);
    if xs == [] {
      EmptyThreshold(h, p);
    } else {
      LowThreshold(h, p);
      assert h[2] in xs;
      FoundLow(lim, h, Threshold(h, p));
    }
  }

  lemma EmptyThreshold(h: Cells, p: real)
    requires h[0] == 0.0
    ensures Threshold(h, p) == 0.0
  {
  }

  lemma LowThreshold(h: Cells, p: real)
    requires h[0] > 0.0 && p <= 0.0
    ensures Threshold(h, p) <= 0.0 && (Threshold(h, p) == 0.0 <==> p == 0.0)
  {
    var x := p / 100.0;
    assert x <= 0.0 && (x == 0.0 <==> p == 0.0);
    assert x < 0.0 ==> h[0] * x < 0.0;
  }

  lemma LowPoint(w: real, t: real, n: real)
    requires w > 0.0 && t <= 0.0 && n > 0.0
    ensures w * (t / n) <= 0.0
  {
    assert t / n <= 0.0;
  }

  /** The half-open reading is false: of the samples 0 and 1 the median sample is 0, in the
      bucket below 1, but the histogram answers 1. */
  lemma HalfOpenFails(lim: seq<real>)
    requires Table(lim) && lim[0] == 1.0 && lim[1] > 1.0
    ensures var xs := [0.0, 1.0];
            && InRange(lim, xs) && Bucket(lim, xs[0], 0) == 0 && Threshold(HistOf(lim, xs), 50.0) == 1.0
            && PtileFrom(lim, HistOf(lim, xs), 1.0, 0, 0.0) == lim[0]
  {
    var xs := [0.0, 1.0];
    LimitsOrdered(lim, 1, NUM_BUCKETS - 1);
    Summary(lim, xs);
    assert Threshold(HistOf(lim, xs), 50.0) == 2.0 * (50.0 / 100.0) == 1.0;
    PtileAt(lim, xs, xs, 1.0, 1);
    assert xs[..1] == [0.0] && [0.0][..0] == [];
    assert Count([0.0], 1.0, true) == 1 && Count(xs, 1.0, true) == 1;
  }

  // ----- hstg_reduce -----

  function Larger(a: real, b: real): real { if a < b then b else a }

  function Smaller(a: real, b: real): real { if a > b then b else a }

  function Merged(g: Cells, h: Cells): Cells {
    seq(NUM_BUCKETS + 4, i requires 0 <= i < NUM_BUCKETS + 4 =>
      if i == 1 then Larger(g[1], h[1]) else if i == 2 then Smaller(g[2], h[2]) else g[i] + h[i])
  }

  lemma MergedAdded(lim: seq<real>, g: Cells, h: Cells, d: real)
    requires |lim| == NUM_BUCKETS
    ensures Merged(g, Added(lim, h, d)) == Added(lim, Merged(g, h), d)
  {
    var x, y := Merged(g, Added(lim, h, d)), Added(lim, Merged(g, h), d);
    forall i | 0 <= i < NUM_BUCKETS + 4 ensures x[i] == y[i] {
      AddedAt(lim, h, d, i);
      AddedAt(lim, Merged(g, h), d, i);
      MergedAt(g, h, i);
      MergedAt(g, Added(lim, h, d), i);
    }
  }

  lemma MergedAt(g: Cells, h: Cells, i: nat)
    requires i < NUM_BUCKETS + 4
    ensures Merged(g, h)[i] == if i == 1 then Larger(g[1], h[1]) else if i
            == 2 then Smaller(g[2], h[2]) else g[i] + h[i]
  {
  }

  lemma MergedCleared(lim: seq<real>, h: Cells)
    requires |lim| == NUM_BUCKETS && h[1] >= 0.0 && h[2] <= lim[NUM_BUCKETS - 1]
    ensures Merged(h, Cleared(lim)) == h
  {
    forall i | 0 <= i < NUM_BUCKETS + 4 ensures Merged(h, Cleared(lim))[i] == h[i] {
      MergedAt(h, Cleared(lim), i);
    }
  }

  lemma AddedAt(lim: seq<real>, h: Cells, d: real, i: nat)
    requires |lim| == NUM_BUCKETS && i < NUM_BUCKETS + 4
    ensures Added(lim, h, d)[i] == if i == 1 then Larger(h[1], d) else if i == 2 then Smaller(h[2], d)
                                   else if i == 3 then h[3] + d
                                   else if i == 0 || i == 4 + Bucket(lim, d, 0) then h[i] + 1.0 else h[i]
  {
  }

  lemma {:induction false} MaxMinStart(lim: seq<real>, xs: seq<real>)
    requires |lim| == NUM_BUCKETS
    ensures HistOf(lim, xs)[1] >= 0.0 && HistOf(lim, xs)[2] <= lim[NUM_BUCKETS - 1]
  {
    if xs != [] {
      MaxMinStart(lim, xs[..|xs| - 1]);
    }
  }

  /** Reducing two histograms gives the histogram of all samples together. */
  lemma {:induction false} MergeIsHist(lim: seq<real>, xs: seq<real>, ys: seq<real>)
    requires |lim| == NUM_BUCKETS
    ensures Merged(HistOf(lim, xs), HistOf(lim, ys)) == HistOf(lim, xs + ys)
    decreases |ys|
  {
    if ys == [] {
      MaxMinStart(lim, xs);
      assert xs + ys == xs;
      MergedCleared(lim, HistOf(lim, xs));
    } else {
      var n := |ys| - 1;
      MergeIsHist(lim, xs, ys[..n]);
      MergedAdded(lim, HistOf(lim, xs), HistOf(lim, ys[..n]), ys[n]);
      assert (xs + ys)[..|xs + ys| - 1] == xs + ys[..n];
      HistLast(lim, xs + ys);
      HistLast(lim, ys);
    }
  }

  lemma HistLast(lim: seq<real>, zs: seq<real>)
    requires |lim| == NUM_BUCKETS && zs != []
    ensures HistOf(lim, zs) == Added(lim, HistOf(lim, zs[..|zs| - 1]), zs[|zs| - 1])
  {
  }

  function ReduceAll(hs: seq<Cells>): Cells
    requires hs != []
  {
    if |hs| == 1 then hs[0] else Merged(ReduceAll(hs[..|hs| - 1]), hs[|hs| - 1])
  }

  function Flatten(xss: seq<seq<real>>): seq<real> {
    if xss == [] then [] else Flatten(xss[..|xss| - 1]) + xss[|xss| - 1]
  }

  /** Over any number of ranks. */
  lemma {:induction false} ReduceIsHist(lim: seq<real>, xss: seq<seq<real>>, hs: seq<Cells>)
    requires |lim| == NUM_BUCKETS && xss != [] && |hs| == |xss|
             && forall i :: 0 <= i < |hs| ==> hs[i] == HistOf(lim, xss[i])
    ensures ReduceAll(hs) == HistOf(lim, Flatten(xss))
    decreases |xss|
  {
    var n := |xss| - 1;
    if n == 0 {
      assert Flatten(xss[..0]) == [] && [] + xss[0] == xss[0];
    } else {
      ReduceIsHist(lim, xss[..n], hs[..n]);
      MergeIsHist(lim, Flatten(xss[..n]), xss[n]);
    }
  }
}
