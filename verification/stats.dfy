/** Summary statistics over a list of vibration readings: `analyze_vibration_list`
    and `calculate_sum`, and the population mean and variance that the outlier
    search reuses. Readings are reals: floating-point rounding is not modelled. */
module Stats {

  /** Python's `sum(xs)`; the empty list sums to 0. */
  function Sum(xs: seq<real>): real
  {
    if xs == [] then 0.0 else xs[0] + Sum(xs[1..])
  }

  function Square(x: real): real
  {
    x * x
  }

  /** The sum of squares of the elements. */
  function SumSq(xs: seq<real>): real
  {
    if xs == [] then 0.0 else Square(xs[0]) + SumSq(xs[1..])
  }

  lemma {:induction false} SumSqNonNegative(xs: seq<real>)
    ensures SumSq(xs) >= 0.0
  {
    if xs != [] {
      SumSqNonNegative(xs[1..]);
      SumSqHead(xs);
      SquarePlus(xs[0], SumSq(xs[1..]), SumSq(xs));
    }
  }

  /** Summing a concatenation sums the two parts: the sum does not depend on
      how the list is split. */
  lemma {:induction false} SumConcat(a: seq<real>, b: seq<real>)
    ensures Sum(a + b) == Sum(a) + Sum(b)
  {
    if a != [] {
      assert (a + b)[1..] == a[1..] + b;
      SumConcat(a[1..], b);
    } else {
      assert a + b == b;
    }
  }

  lemma {:induction false} SumSqConcat(a: seq<real>, b: seq<real>)
    ensures SumSq(a + b) == SumSq(a) + SumSq(b)
  {
    if a != [] {
      assert (a + b)[1..] == a[1..] + b;
      SumSqConcat(a[1..], b);
    } else {
      assert a + b == b;
    }
  }

  /** `len(values)`, as the real the divisions use. */
  function Count(xs: seq<real>): (r: real)
    ensures r == |xs| as real
  {
    if xs == [] then 0.0 else 1.0 + Count(xs[1..])
  }

  /** A sum of n elements that all lie in [lo, hi] lies in [n * lo, n * hi]. */
  lemma {:induction false} SumBounds(xs: seq<real>, lo: real, hi: real)
    requires forall i :: 0 <= i < |xs| ==> lo <= xs[i] <= hi
    ensures Count(xs) * lo <= Sum(xs) <= Count(xs) * hi
  {
    if xs != [] {
      SumBounds(xs[1..], lo, hi);
      Distribute(Count(xs[1..]), lo);
      Distribute(Count(xs[1..]), hi);
    }
  }

  /** `sum(values) / n` */
  function Mean(xs: seq<real>): real
    requires xs != []
  {
    Sum(xs) / Count(xs)
  }

  /** The deviations `x - m` of the elements from `m`, in order. */
  function Deviations(xs: seq<real>, m: real): (r: seq<real>)
    ensures |r| == |xs|
  {
    if xs == [] then [] else [xs[0] - m] + Deviations(xs[1..], m)
  }

  /** The i-th deviation is the i-th element less `m`. */
  lemma {:induction false} DeviationAt(xs: seq<real>, m: real, i: int)
    requires 0 <= i < |xs|
    ensures Deviations(xs, m)[i] == xs[i] - m
  {
    if i > 0 {
      DeviationAt(xs[1..], m, i - 1);
    }
  }

  /** Population variance, `sum((x - avg) ** 2 for x in values) / n`. */
  function Variance(xs: seq<real>): real
    requires xs != []
  {
    SumSq(Deviations(xs, Mean(xs))) / Count(xs)
  }

  /** Python's `max(values)`. */
  function MaxOf(xs: seq<real>): (r: real)
    requires xs != []
    ensures r in xs
    ensures forall i :: 0 <= i < |xs| ==> xs[i] <= r
  {
    if |xs| == 1 then xs[0]
    else
      var rest := MaxOf(xs[1..]);
      assert forall i :: 1 <= i < |xs| ==> xs[i] == xs[1..][i - 1];
      if xs[0] >= rest then xs[0] else rest
  }

  /** Python's `min(values)`. */
  function MinOf(xs: seq<real>): (r: real)
    requires xs != []
    ensures r in xs
    ensures forall i :: 0 <= i < |xs| ==> r <= xs[i]
  {
    if |xs| == 1 then xs[0]
    else
      var rest := MinOf(xs[1..]);
      assert forall i :: 1 <= i < |xs| ==> xs[i] == xs[1..][i - 1];
      if xs[0] <= rest then xs[0] else rest
  }

  /** The deviations from m sum to the sum less n copies of m; they sum to 0
      for the mean. */
  lemma {:induction false} SumDeviations(xs: seq<real>, m: real)
    ensures Sum(Deviations(xs, m)) == Sum(xs) - Count(xs) * m
  {
    if xs != [] {
      SumDeviations(xs[1..], m);
      assert Deviations(xs, m)[1..] == Deviations(xs[1..], m);
      Distribute(Count(xs[1..]), m);
    }
  }

  lemma {:induction false} MeanTimesCount(xs: seq<real>)
    requires xs != []
    ensures Mean(xs) * Count(xs) == Sum(xs)
  {
    Quotient(Sum(xs), Count(xs), Mean(xs));
  }

  lemma {:induction false} VarianceTimesCount(xs: seq<real>)
    requires xs != []
    ensures Variance(xs) * Count(xs) == SumSq(Deviations(xs, Mean(xs)))
  {
    Quotient(SumSq(Deviations(xs, Mean(xs))), Count(xs), Variance(xs));
  }

  lemma {:induction false} VarianceNonNegative(xs: seq<real>)
    requires xs != []
    ensures Variance(xs) >= 0.0
  {
    SumSqNonNegative(Deviations(xs, Mean(xs)));
    QuotientNonNegative(SumSq(Deviations(xs, Mean(xs))), Count(xs), Variance(xs));
  }

  /** The mean lies between the smallest and the largest reading. */
  lemma {:induction false} MeanBetween(xs: seq<real>)
    requires xs != []
    ensures MinOf(xs) <= Mean(xs) <= MaxOf(xs)
  {
    MeanTimesCount(xs);
    WeightedBetween(xs, Mean(xs), MinOf(xs), MaxOf(xs));
  }

  /** Any m with m·n equal to the sum lies between bounds of all elements. */
  lemma {:induction false} WeightedBetween(xs: seq<real>, m: real, lo: real, hi: real)
    requires xs != [] && m * Count(xs) == Sum(xs)
    requires forall i :: 0 <= i < |xs| ==> lo <= xs[i] <= hi
    ensures lo <= m <= hi
  {
    var n, s := Count(xs), Sum(xs);
    SumBounds(xs, lo, hi);
    BetweenBounds(n, lo, hi, s, m);
  }

  /** The result of `analyze_vibration_list`: the `error` entry for an empty
      list, or the four figures it reports. */
  datatype Analysis =
    | EmptyInput(error: string)
    | Summary(mean: real, variance: real, max: real, min: real)

  const EmptyInputMessage := "Input list is empty."

  /** What the four reported figures promise about the readings: `mean` times
      n is the sum, `variance` times n is the sum of squared deviations from
      `mean`, and `min` and `max` are readings that bound all the others. */
  predicate Describes(values: seq<real>, mean: real, variance: real, max: real, min: real)
  {
    && mean * Count(values) == Sum(values)
    && variance * Count(values) == SumSq(Deviations(values, mean))
    && 0.0 <= variance
    && min <= mean <= max
    && min in values && max in values
    && (forall i :: 0 <= i < |values| ==> min <= values[i] <= max)
  }

  lemma {:induction false} SummaryFacts(values: seq<real>)
    requires values != []
    ensures Describes(values, Mean(values), Variance(values), MaxOf(values), MinOf(values))
  {
    MeanBetween(values);
    MeanTimesCount(values);
    VarianceTimesCount(values);
    VarianceNonNegative(values);
  }

  /** `analyze_vibration_list`: an empty list is reported before anything is
      divided; otherwise the population mean and variance, the maximum and the
      minimum. */
  function Analyze(values: seq<real>): (r: Analysis)
    ensures r.EmptyInput? <==> values == []
    ensures r.EmptyInput? ==> r.error == EmptyInputMessage
    ensures r.Summary? ==> Describes(values, r.mean, r.variance, r.max, r.min)
  {
    if values == [] then EmptyInput(EmptyInputMessage)
    else
      SummaryFacts(values);
      Summary(Mean(values), Variance(values), MaxOf(values), MinOf(values))
  }

  /** `calculate_sum`: Python's `sum` adds the elements from the left,
      starting from 0, and agrees with `Sum`; the empty list gives 0. */
  function CalculateSum(values: seq<real>): (r: real)
    ensures r == Sum(values)
  {
    if values == [] then 0.0
    else
      var init, last := values[..|values| - 1], values[|values| - 1];
      assert init + [last] == values;
      SumConcat(init, [last]);
      assert Sum([last]) == last + Sum([]);
      CalculateSum(init) + last
  }

  /** (Σa)² ≤ n · Σa², the Cauchy–Schwarz inequality against the all-ones vector. */
  lemma {:induction false} SquaredSumBound(a: seq<real>)
    ensures Square(Sum(a)) <= Count(a) * SumSq(a)
  {
    if a != [] {
      var x, rest := a[0], a[1..];
      SquaredSumBound(rest);
      SquaredSumStep(x, Sum(rest), SumSq(rest), Count(rest));
    }
  }


  /** Removing the element at k takes it out of the sum and the sum of squares. */
  lemma {:induction false} RemoveAt(xs: seq<real>, k: int)
    requires 0 <= k < |xs|
    ensures Sum(xs[..k] + xs[k + 1..]) == Sum(xs) - Sum([xs[k]])
    ensures SumSq(xs[..k] + xs[k + 1..]) == SumSq(xs) - SumSq([xs[k]])
  {
    var before, after := xs[..k], xs[k + 1..];
    assert xs == before + ([xs[k]] + after);
    SumConcat(before, [xs[k]] + after);
    SumConcat([xs[k]], after);
    SumConcat(before, after);
    SumSqConcat(before, [xs[k]] + after);
    SumSqConcat([xs[k]], after);
    SumSqConcat(before, after);
  }

  lemma {:induction false} Singleton(d: real)
    ensures Sum([d]) == d && SumSq([d]) == Square(d) && Count([d]) == 1.0
  {
    assert [d][1..] == [];
  }

  /** The deviations from the mean sum to zero. */
  lemma {:induction false} DeviationsFromMeanSumToZero(xs: seq<real>)
    requires xs != []
    ensures Sum(Deviations(xs, Mean(xs))) == 0.0
  {
    SumDeviations(xs, Mean(xs));
    MeanTimesCount(xs);
  }

  /** Samuelson's inequality: no reading deviates from the mean by more than
      sqrt(n - 1) population standard deviations, stated without the root. */
  lemma {:induction false} Samuelson(xs: seq<real>, k: int)
    requires 0 <= k < |xs|
    ensures Square(xs[k] - Mean(xs)) <= (Count(xs) - 1.0) * Variance(xs)
  {
    var m, n, v := Mean(xs), Count(xs), Variance(xs);
    var devs := Deviations(xs, m);
    DeviationAt(xs, m, k);
    assert Count(devs) == n;
    DeviationsFromMeanSumToZero(xs);
    VarianceTimesCount(xs);
    CenteredBound(devs, k, v, n);
  }

  /** Samuelson's inequality for any list `d` summing to zero and any `v`
      with v·n = Σd²: one element's square is at most (n - 1)·v. */
  lemma {:induction false} CenteredBound(d: seq<real>, k: int, v: real, n: real)
    requires 0 <= k < |d| && Sum(d) == 0.0 && n == Count(d) && v * n == SumSq(d)
    ensures Square(d[k]) <= (n - 1.0) * v
  {
    var others := d[..k] + d[k + 1..];
    var x, s, q, total, m := d[k], Sum(others), SumSq(others), SumSq(d), Count(others);
    OthersOf(d, k);
    SquaredSumBound(others);
    SamuelsonStep(x, s, total, q, v, n, m);
  }

  /** What removing the element at k leaves: its value out of the sum, its
      square out of the sum of squares, one element fewer. */
  lemma {:induction false} OthersOf(d: seq<real>, k: int)
    requires 0 <= k < |d|
    ensures Sum(d[..k] + d[k + 1..]) == Sum(d) - d[k]
    ensures SumSq(d[..k] + d[k + 1..]) == SumSq(d) - Square(d[k])
    ensures Count(d[..k] + d[k + 1..]) + 1.0 == Count(d)
  {
    RemoveAt(d, k);
    Singleton(d[k]);
  }

  /** A sum of squares is zero exactly when every element is zero. */
  lemma {:induction false} SumSqZero(a: seq<real>)
    ensures SumSq(a) == 0.0 <==> forall i :: 0 <= i < |a| ==> a[i] == 0.0
  {
    if a != [] {
      SumSqZero(a[1..]);
      SumSqNonNegative(a[1..]);
      assert forall i :: 1 <= i < |a| ==> a[i] == a[1..][i - 1];
      SumSqHead(a);
      SquareZero(a[0], SumSq(a[1..]), SumSq(a));
    }
  }

  lemma {:induction false} SumSqHead(a: seq<real>)
    requires a != []
    ensures SumSq(a) == Square(a[0]) + SumSq(a[1..])
  {
  }

  /** All readings equal: the mean is that reading and the variance is 0. */
  lemma {:induction false} ConstantHasZeroVariance(xs: seq<real>)
    requires xs != []
    requires forall i :: 0 <= i < |xs| ==> xs[i] == xs[0]
    ensures Mean(xs) == xs[0] && Variance(xs) == 0.0
  {
    var n, c, m := Count(xs), xs[0], Mean(xs);
    MeanTimesCount(xs);
    WeightedBetween(xs, m, c, c);
    var devs := Deviations(xs, m);
    forall i | 0 <= i < |devs|
      ensures devs[i] == 0.0
    {
      DeviationAt(xs, m, i);
    }
    SumSqZero(devs);
    VarianceTimesCount(xs);
    ZeroTimes(n, Variance(xs), SumSq(devs));
  }

  /** The population variance is zero exactly when all readings are equal:
      the zero-spread case of the outlier search. */
  lemma {:induction false} VarianceZeroIffConstant(xs: seq<real>)
    requires xs != []
    ensures Variance(xs) == 0.0 <==> forall i, j :: 0 <= i < |xs| && 0 <= j < |xs| ==> xs[i] == xs[j]
  {
    var m, n, v := Mean(xs), Count(xs), Variance(xs);
    var devs := Deviations(xs, m);
    VarianceTimesCount(xs);
    ZeroTimes(n, v, SumSq(devs));
    SumSqZero(devs);
    if v == 0.0 {
      forall i, j | 0 <= i < |xs| && 0 <= j < |xs|
        ensures xs[i] == xs[j]
      {
        DeviationAt(xs, m, i);
        DeviationAt(xs, m, j);
      }
    }
    if forall i, j :: 0 <= i < |xs| && 0 <= j < |xs| ==> xs[i] == xs[j] {
      ConstantHasZeroVariance(xs);
    }
  }

  /** Two sample lists: a single reading, and the readings 1 to 4. */
  lemma {:induction false} SingleReadingExample()
    ensures Analyze([5.0]) == Summary(5.0, 0.0, 5.0, 5.0)
  {
    ConstantHasZeroVariance([5.0]);
  }

  lemma {:induction false} FourReadingsExample()
    ensures Analyze([1.0, 2.0, 3.0, 4.0]) == Summary(2.5, 1.25, 4.0, 1.0)
  {
    var xs := [1.0, 2.0, 3.0, 4.0];
    assert xs[1..] == [2.0, 3.0, 4.0] && xs[1..][1..] == [3.0, 4.0] && xs[1..][1..][1..] == [4.0];
    assert Sum(xs) == 10.0 && Count(xs) == 4.0;
    assert Mean(xs) == 2.5;
    var devs := Deviations(xs, 2.5);
    assert devs == [-1.5, -0.5, 0.5, 1.5];
    assert devs[1..] == [-0.5, 0.5, 1.5] && devs[1..][1..] == [0.5, 1.5] && devs[1..][1..][1..] == [1.5];
    assert Square(-1.5) == 2.25 && Square(-0.5) == 0.25 && Square(0.5) == 0.25 && Square(1.5) == 2.25;
    assert SumSq([1.5]) == 2.25;
    assert SumSq([0.5, 1.5]) == 2.5;
    assert SumSq([-0.5, 0.5, 1.5]) == 2.75;
    assert SumSq(devs) == 5.0;
    assert MaxOf(xs) == 4.0;
    assert MinOf(xs) == 1.0;
  }

  // Arithmetic steps over plain reals, kept apart from the sequence reasoning.

  lemma {:induction false} Distribute(n: real, c: real)
    ensures (1.0 + n) * c == c + n * c
  {
  }

  lemma {:induction false} Quotient(b: real, n: real, q: real)
    requires n > 0.0 && q == b / n
    ensures q * n == b
  {
  }

  lemma {:induction false} QuotientNonNegative(b: real, n: real, q: real)
    requires n > 0.0 && b >= 0.0 && q == b / n
    ensures q >= 0.0
  {
  }

  lemma {:induction false} BetweenBounds(n: real, lo: real, hi: real, s: real, m: real)
    requires n > 0.0 && n * lo <= s <= n * hi && m * n == s
    ensures lo <= m <= hi
  {
  }

  lemma {:induction false} ZeroTimes(n: real, q: real, b: real)
    requires n > 0.0 && q * n == b
    ensures q == 0.0 <==> b == 0.0
  {
  }

  lemma {:induction false} SquareNonNegative(x: real)
    ensures Square(x) >= 0.0
  {
  }

  lemma {:induction false} SquareOverSelf(x: real)
    ensures x != 0.0 ==> Square(x) / x == x
  {
  }

  lemma {:induction false} SquarePlus(x: real, rest: real, total: real)
    requires rest >= 0.0 && total == Square(x) + rest
    ensures total >= 0.0
  {
    SquareNonNegative(x);
  }

  lemma {:induction false} SquareZero(x: real, rest: real, total: real)
    requires rest >= 0.0 && total == Square(x) + rest
    ensures total == 0.0 <==> x == 0.0 && rest == 0.0
  {
    SquareNonNegative(x);
    SquareOverSelf(x);
  }

  /** The induction step of `SquaredSumBound`. */
  lemma {:induction false} SquaredSumStep(x: real, s: real, q: real, m: real)
    requires m >= 0.0 && Square(s) <= m * q && (m == 0.0 ==> s == 0.0 && q == 0.0)
    ensures Square(x + s) <= (1.0 + m) * (Square(x) + q)
  {
    if m > 0.0 {
      CrossTermBound(x, s, q, m);
    }
  }

  /** 2xs ≤ m·x² + q whenever s² ≤ m·q and m > 0, from (mx - s)² ≥ 0. */
  lemma {:induction false} CrossTermBound(x: real, s: real, q: real, m: real)
    requires m > 0.0 && s * s <= m * q
    ensures 2.0 * x * s <= m * x * x + q
  {
    var t := m * x - s;
    assert t * t >= 0.0;
    assert m * (m * x * x + q - 2.0 * x * s) >= t * t;
  }

  /** The arithmetic of `Samuelson`: the other m = n - 1 deviations sum to -d,
      so d² ≤ m·(total - d²), hence n·d² ≤ m·total = m·n·v. */
  lemma {:induction false} SamuelsonStep(d: real, s: real, total: real, rest: real, v: real, n: real, m: real)
    requires m >= 0.0 && n == m + 1.0 && s == -d && rest == total - Square(d)
    requires Square(s) <= m * rest && v * n == total
    ensures Square(d) <= (n - 1.0) * v
  {
    assert n * (d * d) <= m * total;
    assert m * total == n * (m * v);
  }
}
