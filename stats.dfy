/** Arithmetic shared by the three estimators: sums and means folded left to
    right as `reduce` does, population variance and standard deviation,
    ascending sort and median, rounding, and the bounded FIFO push used for
    every history queue. Numbers are reals; the square root is supplied by the
    caller as a function that `IsSqrt` constrains. */
module Stats {

  /** `sqrt` is the non-negative square root on the non-negative reals: the
      model's stand-in for `Math.sqrt` and `numpy.sqrt`. */
  ghost predicate IsSqrt(sqrt: real -> real) {
    forall x: real :: 0.0 <= x ==> 0.0 <= sqrt(x) && sqrt(x) * sqrt(x) == x
  }

  lemma SqrtOfZero(sqrt: real -> real)
    requires IsSqrt(sqrt)
    ensures sqrt(0.0) == 0.0
  {
    SquareOrder(0.0, sqrt(0.0));
  }

  lemma SqrtOfOne(sqrt: real -> real)
    requires IsSqrt(sqrt)
    ensures sqrt(1.0) == 1.0
  {
    SquareOrder(sqrt(1.0), 1.0);
    SquareOrder(1.0, sqrt(1.0));
  }

  /** Comparing a root with a positive bound is comparing the radicand with the
      bound's square. */
  lemma SqrtBelow(sqrt: real -> real, x: real, c: real)
    requires IsSqrt(sqrt) && 0.0 <= x && 0.0 < c
    ensures sqrt(x) < c <==> x < c * c
  {
    var r := sqrt(x);
    assert 0.0 <= r && r * r == x;
    SquareOrder(r, c);
    SquareOrder(c, r);
  }

  lemma MultiplyMonotone(k: real, a: real, b: real)
    requires 0.0 <= k && a <= b
    ensures k * a <= k * b
  {
    assert k * b - k * a == k * (b - a);
  }

  lemma PositiveProduct(x: real, y: real)
    requires 0.0 < x && 0.0 < y
    ensures 0.0 < x * y
  {}

  /** Squaring is strictly increasing on the non-negative reals. */
  lemma SquareOrder(a: real, b: real)
    requires 0.0 <= a && 0.0 <= b
    ensures a < b ==> a * a < b * b
  {
    if a < b {
      assert b * b - a * a == (b - a) * (b + a);
      PositiveProduct(b - a, b + a);
    }
  }

  lemma SquareNonNegative(d: real)
    ensures d * d >= 0.0
  {
    if d < 0.0 {
      assert d * d == (-d) * (-d);
      MultiplyMonotone(-d, 0.0, -d);
    } else {
      MultiplyMonotone(d, 0.0, d);
    }
  }

  function Abs(x: real): real {
    if x < 0.0 then -x else x
  }

  function Min(a: real, b: real): real {
    if a <= b then a else b
  }

  function Max(a: real, b: real): real {
    if a >= b then a else b
  }

  /** Sum of a sequence, folded from the left like `reduce((a, b) => a + b, 0)`. */
  function Sum(s: seq<real>): real
    decreases |s|
  {
    if s == [] then 0.0 else Sum(s[..|s| - 1]) + s[|s| - 1]
  }

  lemma {:induction false} SumAppend(a: seq<real>, b: seq<real>)
    ensures Sum(a + b) == Sum(a) + Sum(b)
    decreases |b|
  {
    if b == [] {
      assert a + b == a;
    } else {
      assert (a + b)[..|a + b| - 1] == a + b[..|b| - 1];
      SumAppend(a, b[..|b| - 1]);
    }
  }

  lemma SumSingle(x: real)
    ensures Sum([x]) == x
  {
    assert [x][..0] == [];
  }

  /** The sum of the first element and the rest. */
  lemma SumCons(s: seq<real>)
    requires s != []
    ensures Sum(s) == s[0] + Sum(s[1..])
  {
    assert s == [s[0]] + s[1..];
    SumAppend([s[0]], s[1..]);
    SumSingle(s[0]);
  }

  function Mean(s: seq<real>): real
    requires |s| > 0
  {
    Sum(s) / |s| as real
  }

  /** Sum of squared deviations from `m`, folded from the left. */
  function SquaredDeviations(s: seq<real>, m: real): real
    decreases |s|
  {
    if s == [] then 0.0
    else SquaredDeviations(s[..|s| - 1], m) + (s[|s| - 1] - m) * (s[|s| - 1] - m)
  }

  /** Population variance (divisor n), as `numpy.std` and the TypeScript code compute it. */
  function Variance(s: seq<real>): real
    requires |s| > 0
  {
    SquaredDeviations(s, Mean(s)) / |s| as real
  }

  function StdDev(sqrt: real -> real, s: seq<real>): real
    requires |s| > 0
  {
    sqrt(Variance(s))
  }

  lemma {:induction false} SquaredDeviationsNonNegative(s: seq<real>, m: real)
    ensures SquaredDeviations(s, m) >= 0.0
    decreases |s|
  {
    if s != [] {
      SquaredDeviationsNonNegative(s[..|s| - 1], m);
      SquareNonNegative(s[|s| - 1] - m);
    }
  }

  /** A standard deviation is never negative. */
  lemma StdDevNonNegative(sqrt: real -> real, s: seq<real>)
    requires IsSqrt(sqrt) && |s| > 0
    ensures Variance(s) >= 0.0 && StdDev(sqrt, s) >= 0.0
  {
    SquaredDeviationsNonNegative(s, Mean(s));
  }

  predicate AllEqual(s: seq<real>, c: real) {
    forall i :: 0 <= i < |s| ==> s[i] == c
  }

  lemma {:induction false} SumOfConstant(s: seq<real>, c: real)
    requires AllEqual(s, c)
    ensures Sum(s) == |s| as real * c
    decreases |s|
  {
    if s != [] {
      SumOfConstant(s[..|s| - 1], c);
    }
  }

  lemma {:induction false} SquaredDeviationsOfConstant(s: seq<real>, c: real)
    requires AllEqual(s, c)
    ensures SquaredDeviations(s, c) == 0.0
    decreases |s|
  {
    if s != [] {
      SquaredDeviationsOfConstant(s[..|s| - 1], c);
    }
  }

  /** A constant sequence has its value as mean and zero spread. */
  lemma ConstantHasNoSpread(sqrt: real -> real, s: seq<real>, c: real)
    requires IsSqrt(sqrt) && |s| > 0 && AllEqual(s, c)
    ensures Mean(s) == c && Variance(s) == 0.0 && StdDev(sqrt, s) == 0.0
  {
    SumOfConstant(s, c);
    SquaredDeviationsOfConstant(s, c);
    SqrtOfZero(sqrt);
  }

  /** The last `k` elements, or all of them when there are fewer: JavaScript's
      `slice(-k)` and Python's `[-k:]`. */
  function Recent(s: seq<real>, k: nat): (r: seq<real>)
    ensures |r| == if |s| < k then |s| else k
    ensures s == s[..|s| - |r|] + r
  {
    if |s| <= k then s else s[|s| - k..]
  }

  /** Append `x`, then drop the oldest element if the queue now exceeds `cap`:
      the `push` followed by a guarded `shift` (or `pop(0)`) of every history. */
  function PushBounded<T>(s: seq<T>, x: T, cap: nat): (r: seq<T>)
  {
    if |s| + 1 > cap then (s + [x])[1..] else s + [x]
  }

  /** The push keeps chronological order, evicts at most the oldest element and
      keeps a queue that was within its capacity within it. */
  lemma PushBoundedKeepsOrder<T>(s: seq<T>, x: T, cap: nat)
    ensures var r := PushBounded(s, x, cap);
      && (|s| <= cap ==> |r| <= cap)
      && (|s| < cap ==> r == s + [x])
      && (0 < cap ==> 0 < |r| && r[|r| - 1] == x && r[..|r| - 1] == s[|s| + 1 - |r|..])
  {
    var r := PushBounded(s, x, cap);
    if |s| + 1 > cap && s != [] {
      assert r == s[1..] + [x];
    }
  }

  predicate AllPositive(s: seq<real>) {
    forall i :: 0 <= i < |s| ==> s[i] > 0.0
  }

  lemma {:induction false} SumOfPositives(s: seq<real>)
    requires AllPositive(s) && s != []
    ensures Sum(s) > 0.0
    decreases |s|
  {
    if |s| > 1 {
      SumOfPositives(s[..|s| - 1]);
    }
  }

  /** The mean of positive values is positive. */
  lemma MeanOfPositives(s: seq<real>)
    requires AllPositive(s) && s != []
    ensures Mean(s) > 0.0
  {
    SumOfPositives(s);
    QuotientOfPositives(Sum(s), |s| as real);
  }

  /** A total between n * lo and n * hi, divided by n, lies in [lo, hi]. */
  lemma QuotientWithin(sum: real, n: real, lo: real, hi: real)
    requires n > 0.0 && n * lo <= sum <= n * hi
    ensures lo <= sum / n <= hi
  {
    assert (n * lo) / n == lo && (n * hi) / n == hi;
  }

  lemma QuotientOfPositives(a: real, b: real)
    requires a > 0.0 && b > 0.0
    ensures a / b > 0.0
  {
    var q := a / b;
    assert q * b == a;
  }

  /** Sorting a constant sequence leaves it constant. */
  lemma SortOfConstant(s: seq<real>, c: real)
    requires AllEqual(s, c)
    ensures AllEqual(Sort(s), c)
  {
    forall k | 0 <= k < |s|
      ensures Sort(s)[k] == c
    {
      SortedMember(s, k);
    }
  }

  /** Sorting a sequence that is already ascending leaves it as it is. */
  lemma {:induction false} SortOfSorted(s: seq<real>)
    requires Sorted(s)
    ensures Sort(s) == s
  {
    if s != [] {
      assert Sorted(s[1..]) by {
        forall i, j | 0 <= i <= j < |s[1..]| ensures s[1..][i] <= s[1..][j] {
          assert s[1..][i] == s[i + 1] && s[1..][j] == s[j + 1];
        }
      }
      SortOfSorted(s[1..]);
      assert s == [s[0]] + s[1..];
      if |s| > 1 {
        assert s[0] <= s[1..][0];
      }
    }
  }

  /** `Math.round`: the nearest integer, halves rounded up. */
  function Round(x: real): int {
    (x + 0.5).Floor
  }

  /** `Math.round(x * 10) / 10`: rounding to one decimal. */
  function RoundTo1(x: real): (r: real)
    ensures x - 0.05 < r <= x + 0.05
  {
    Round(x * 10.0) as real / 10.0
  }

  /** Rounding keeps a value within integer bounds. */
  lemma RoundWithin(x: real, lo: int, hi: int)
    requires lo as real <= x <= hi as real
    ensures lo <= Round(x) <= hi
  {}

  lemma RoundOfInteger(n: int)
    ensures Round(n as real) == n
  {}

  lemma RoundTo1OfInteger(n: int)
    ensures RoundTo1(n as real) == n as real
  {
    assert n as real * 10.0 == (n * 10) as real;
    RoundOfInteger(n * 10);
  }

  ghost predicate Sorted(s: seq<real>) {
    forall i, j :: 0 <= i <= j < |s| ==> s[i] <= s[j]
  }

  /** Insert `x` into an ascending sequence. */
  function Insert(x: real, s: seq<real>): (r: seq<real>)
    ensures multiset(r) == multiset(s) + multiset{x}
    ensures Sorted(s) ==> Sorted(r)
    ensures |r| == |s| + 1
  {
    if s == [] || x <= s[0] then [x] + s
    else
      var rest := Insert(x, s[1..]);
      assert s == [s[0]] + s[1..];
      assert rest[0] in multiset(s[1..]) + multiset{x};
      assert Sorted(s) ==> forall k :: 0 <= k < |rest| ==> s[0] <= rest[0] <= rest[k];
      [s[0]] + rest
  }

  /** Ascending sort (`[...s].sort((a, b) => a - b)`, `numpy.sort`). */
  function Sort(s: seq<real>): (r: seq<real>)
    ensures Sorted(r)
    ensures multiset(r) == multiset(s)
    ensures |r| == |s|
  {
    if s == [] then []
    else
      assert s == [s[0]] + s[1..];
      Insert(s[0], Sort(s[1..]))
  }

  /** `numpy.median`: the middle of the sorted values, or the mean of the two
      middle ones for an even count. */
  function Median(s: seq<real>): real
    requires |s| > 0
  {
    var t := Sort(s);
    var n := |t|;
    if n % 2 == 1 then t[n / 2] else (t[n / 2 - 1] + t[n / 2]) / 2.0
  }

  lemma SortedMember(s: seq<real>, k: nat)
    requires k < |s|
    ensures Sort(s)[k] in s
  {
    assert Sort(s)[k] in multiset(Sort(s));
  }

  /** The median lies between the smallest and the largest entry, is an entry
      when the count is odd, and is the common value of a constant sequence. */
  lemma MedianWithinEntries(s: seq<real>)
    requires |s| > 0
    ensures exists i :: 0 <= i < |s| && s[i] <= Median(s)
    ensures exists j :: 0 <= j < |s| && Median(s) <= s[j]
    ensures |s| % 2 == 1 ==> Median(s) in s
    ensures forall c :: AllEqual(s, c) ==> Median(s) == c
  {
    var t := Sort(s);
    var n := |t|;
    SortedMember(s, 0);
    SortedMember(s, n - 1);
    SortedMember(s, n / 2);
    if n % 2 == 0 {
      SortedMember(s, n / 2 - 1);
    }
    assert t[0] <= Median(s) <= t[n - 1];
    forall c | AllEqual(s, c)
      ensures Median(s) == c
    {
      assert t[n / 2] in s;
      if n % 2 == 0 {
        assert t[n / 2 - 1] in s;
      }
    }
  }
}
