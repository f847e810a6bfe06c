/** Error metrics, before rounding, and their aggregation into a domain score. */
module Metrics {
  import opened Results

  datatype Status = PASSED | FAILED | NOT_AVAILABLE

  datatype Metric = Metric(name: string, domain: string, value: Option<real>, sampleSize: int, status: Status)

  function Abs(x: real): real {
    if x < 0.0 then -x else x
  }

  /** The differences of paired values, as far as the shorter sequence goes. */
  function Errors(predictions: seq<real>, actuals: seq<real>): (es: seq<real>)
    ensures |es| == if |predictions| <= |actuals| then |predictions| else |actuals|
  {
    if predictions == [] || actuals == [] then []
    else [predictions[0] - actuals[0]] + Errors(predictions[1..], actuals[1..])
  }

  function Square(x: real): real {
    x * x
  }

  function AbsSum(es: seq<real>): real {
    if es == [] then 0.0 else AbsSum(es[..|es| - 1]) + Abs(es[|es| - 1])
  }

  function SquareSum(es: seq<real>): real {
    if es == [] then 0.0 else SquareSum(es[..|es| - 1]) + Square(es[|es| - 1])
  }

  /** The squared distances of the magnitudes from `x`. */
  function Distance(es: seq<real>, x: real): real {
    if es == [] then 0.0 else Distance(es[..|es| - 1], x) + Square(Abs(es[|es| - 1]) - x)
  }

  /** The squared distances of the magnitudes from one another, each pair once. */
  function Spread(es: seq<real>): real {
    if es == [] then 0.0 else Spread(es[..|es| - 1]) + Distance(es[..|es| - 1], Abs(es[|es| - 1]))
  }

  lemma PositiveProduct(a: real, b: real, product: real)
    requires a > 0.0 && b > 0.0 && product == a * b
    ensures product > 0.0
  {
  }

  lemma SquarePositive(d: real)
    requires d > 0.0
    ensures Square(d) > 0.0
  {
    PositiveProduct(d, d, Square(d));
  }

  lemma SquareSign(d: real)
    ensures Square(d) >= 0.0 && (Square(d) == 0.0 <==> d == 0.0) && Square(Abs(d)) == Square(d)
  {
    assert Square(0.0) == 0.0;
    hide Square;
    if d > 0.0 {
      SquarePositive(d);
    } else if d < 0.0 {
      SquarePositive(-d);
    }
  }

  /** What the distance comes to, from the sums alone. */
  function Expanded(q: real, s: real, n: real, x: real): real {
    q - 2.0 * x * s + n * x * x
  }

  lemma DistanceStep(q: real, s: real, n: real, x: real, m: real)
    ensures Expanded(q, s, n, x) + Square(m - x) == Expanded(q + Square(m), s + m, n + 1.0, x)
  {
    assert (m - x) * (m - x) == m * m - 2.0 * x * m + x * x;
    assert 2.0 * x * (s + m) == 2.0 * x * s + 2.0 * x * m;
    assert (n + 1.0) * x * x == n * x * x + x * x;
  }

  lemma ExpandedZero(x: real)
    ensures Expanded(0.0, 0.0, 0.0, x) == 0.0 && Gap(0.0, 0.0, 0.0) == 0.0
  {
  }

  lemma {:induction false} DistanceExpands(es: seq<real>, x: real)
    ensures Distance(es, x) == Expanded(SquareSum(es), AbsSum(es), |es| as real, x)
  {
    hide Expanded, Square, Abs;
    if es == [] {
      ExpandedZero(x);
    } else {
      var front, e := es[..|es| - 1], es[|es| - 1];
      DistanceExpands(front, x);
      SquareSign(e);
      DistanceStep(SquareSum(front), AbsSum(front), |front| as real, x, Abs(e));
      assert |es| as real == |front| as real + 1.0;
    }
  }

  lemma {:induction false} DistanceSign(es: seq<real>, x: real)
    ensures Distance(es, x) >= 0.0
    ensures Distance(es, x) == 0.0 <==> forall i :: 0 <= i < |es| ==> Abs(es[i]) == x
  {
    hide Square, Abs;
    if es != [] {
      DistanceSign(es[..|es| - 1], x);
      SquareSign(Abs(es[|es| - 1]) - x);
    }
  }

  /** n times the sum of squares, less the square of the sum. */
  function Gap(q: real, s: real, n: real): real {
    n * q - s * s
  }

  lemma SpreadStep(q: real, s: real, n: real, m: real)
    ensures Gap(q + Square(m), s + m, n + 1.0) == Gap(q, s, n) + Expanded(q, s, n, m)
  {
    assert (n + 1.0) * (q + m * m) == n * q + n * m * m + q + m * m;
    assert (s + m) * (s + m) == s * s + 2.0 * m * s + m * m;
  }

  ghost predicate SameMagnitude(es: seq<real>) {
    forall i, j :: 0 <= i < j < |es| ==> Abs(es[i]) == Abs(es[j])
  }

  /** n times the sum of squares exceeds the square of the sum by exactly the spread. */
  lemma {:induction false} SpreadIsGap(es: seq<real>)
    ensures Gap(SquareSum(es), AbsSum(es), |es| as real) == Spread(es)
    ensures Spread(es) >= 0.0 && (Spread(es) == 0.0 <==> SameMagnitude(es))
  {
    hide Expanded, Square, Abs, Gap, SameMagnitude;
    if es == [] {
      ExpandedZero(0.0);
      SameMagnitudeShort(es);
    } else {
      var front, e := es[..|es| - 1], es[|es| - 1];
      SpreadIsGap(front);
      DistanceExpands(front, Abs(e));
      DistanceSign(front, Abs(e));
      SquareSign(e);
      SpreadStep(SquareSum(front), AbsSum(front), |front| as real, Abs(e));
      SameMagnitudeAppend(front, e);
      assert front + [e] == es && |es| as real == |front| as real + 1.0;
    }
  }

  lemma SameMagnitudeShort(es: seq<real>)
    requires es == []
    ensures SameMagnitude(es)
  {
  }

  lemma SameMagnitudeAppend(front: seq<real>, e: real)
    ensures SameMagnitude(front + [e]) <==> SameMagnitude(front) && forall i :: 0 <= i < |front| ==> Abs(front[i]) == Abs(e)
  {
    var es := front + [e];
    if SameMagnitude(es) {
      forall i | 0 <= i < |front|
        ensures Abs(front[i]) == Abs(e)
      {
        assert es[i] == front[i] && es[|front|] == e;
      }
      forall i, j | 0 <= i < j < |front|
        ensures Abs(front[i]) == Abs(front[j])
      {
        assert es[i] == front[i] && es[j] == front[j];
      }
    }
  }

  function Mean(total: real, n: nat): real {
    if n > 0 then total / n as real else 0.0
  }

  /** `root` is the unrounded RMSE of these errors: the nonnegative square root of their mean square. */
  predicate IsRmse(root: real, es: seq<real>) {
    root >= 0.0 && Square(root) == Mean(SquareSum(es), |es|)
  }

  lemma {:induction false} SquareSumZero(es: seq<real>)
    ensures SquareSum(es) >= 0.0
    ensures SquareSum(es) == 0.0 <==> forall i :: 0 <= i < |es| ==> es[i] == 0.0
  {
    if es != [] {
      var front, last := es[..|es| - 1], es[|es| - 1];
      SquareSumZero(front);
      SquareSign(last);
      assert es == front + [last];
      hide Square;
    }
  }

  /** The RMSE is zero exactly if every prediction is right. */
  lemma ZeroRmse(es: seq<real>)
    ensures IsRmse(0.0, es) <==> forall i :: 0 <= i < |es| ==> es[i] == 0.0
  {
    SquareSumZero(es);
  }

  lemma SquaresOrder(a: real, b: real)
    requires a >= 0.0 && b >= 0.0
    ensures Square(a) <= Square(b) <==> a <= b
  {
    SquareSign(a);
    SquareSign(b);
    if a > 0.0 && b > 0.0 {
      ScaleOrder(a, b, a);
      ScaleOrder(a, b, b);
      assert a * b == b * a;
    }
  }

  lemma {:induction false} AbsSumNonnegative(es: seq<real>)
    ensures AbsSum(es) >= 0.0
  {
    if es != [] {
      AbsSumNonnegative(es[..|es| - 1]);
    }
  }

  lemma Divide(total: real, n: real) returns (a: real)
    requires n > 0.0
    ensures a == total / n && a * n == total && (total >= 0.0 ==> a >= 0.0)
  {
    a := total / n;
    ScaleOrder(0.0, a, n);
  }

  lemma ScaleOrder(a: real, b: real, c: real)
    requires c > 0.0
    ensures a * c <= b * c <==> a <= b
    ensures a * c == b * c <==> a == b
  {
    if a < b {
      assert (b - a) * c > 0.0;
    } else if b < a {
      assert (a - b) * c > 0.0;
    }
  }

  /** The gap of the sums has the sign of the gap of the means. */
  lemma MeansCompare(s: real, q: real, n: nat)
    requires n > 0 && s >= 0.0
    ensures Mean(s, n) >= 0.0
    ensures Square(Mean(s, n)) <= Mean(q, n) <==> Gap(q, s, n as real) >= 0.0
    ensures Square(Mean(s, n)) == Mean(q, n) <==> Gap(q, s, n as real) == 0.0
  {
    var r := n as real;
    var a := Divide(s, r);
    var b := Divide(q, r);
    assert r * q == b * (r * r);
    assert r * r > 0.0;
    ScaleOrder(a * a, b, r * r);
  }

  /** The unrounded MAE never exceeds the unrounded RMSE, and equals it exactly when all
      errors have the same magnitude. */
  lemma MaeAtMostRmse(predictions: seq<real>, actuals: seq<real>, rmse: real)
    requires IsRmse(rmse, Errors(predictions, actuals))
    ensures var es := Errors(predictions, actuals);
            var mae := Mean(AbsSum(es), |es|);
            mae <= rmse && (mae == rmse <==> SameMagnitude(es))
  {
    var es := Errors(predictions, actuals);
    var mae := Mean(AbsSum(es), |es|);
    hide Square, Gap, SameMagnitude;
    if es != [] {
      SpreadIsGap(es);
      AbsSumNonnegative(es);
      MeansCompare(AbsSum(es), SquareSum(es), |es|);
      hide Mean;
      SquaresOrder(mae, rmse);
      SquaresOrder(rmse, mae);
    } else {
      SquareSign(rmse);
      SameMagnitudeShort(es);
    }
  }

  function ComputeMae(predictions: seq<real>, actuals: seq<real>, name: string, domain: string, minSamples: int): Metric {
    var es := Errors(predictions, actuals);
    if |es| < minSamples then Metric(name, domain, None, |es|, NOT_AVAILABLE)
    else
      var mae := Mean(AbsSum(es), |es|);
      Metric(name, domain, Some(mae), |es|, if mae <= 3.0 then PASSED else FAILED)
  }

  /** `root` is the square root of the mean square error. */
  function ComputeRmse(predictions: seq<real>, actuals: seq<real>, root: real, name: string, domain: string, minSamples: int): Metric
    requires IsRmse(root, Errors(predictions, actuals))
  {
    var n := |Errors(predictions, actuals)|;
    if n < minSamples then Metric(name, domain, None, n, NOT_AVAILABLE)
    else Metric(name, domain, Some(root), n, if root <= 4.0 then PASSED else FAILED)
  }

  /** Both metrics are available on the same inputs; a MAE above 4 fails both. */
  lemma MetricsAgree(predictions: seq<real>, actuals: seq<real>, root: real, name: string, domain: string, minSamples: int)
    requires IsRmse(root, Errors(predictions, actuals))
    ensures var mae := ComputeMae(predictions, actuals, name, domain, minSamples);
            var rmse := ComputeRmse(predictions, actuals, root, name, domain, minSamples);
            && (mae.value.None? <==> rmse.value.None?)
            && (mae.value.Some? ==> mae.value.value <= rmse.value.value)
            && (mae.value.Some? && mae.value.value > 4.0 ==> mae.status == FAILED && rmse.status == FAILED)
            && (rmse.value.Some? && rmse.value.value <= 3.0 ==> mae.status == PASSED)
  {
    MaeAtMostRmse(predictions, actuals, root);
  }

  lemma {:induction false} ErrorsPaired(predictions: seq<real>, actuals: seq<real>, i: nat)
    requires i < |predictions| && i < |actuals|
    ensures i < |Errors(predictions, actuals)| && Errors(predictions, actuals)[i] == predictions[i] - actuals[i]
  {
    if i > 0 {
      ErrorsPaired(predictions[1..], actuals[1..], i - 1);
    }
  }

  lemma MeanExactly(total: real, n: nat, c: real, scaled: real)
    requires scaled == c * n as real && c >= 0.0 && (n == 0 ==> total == 0.0)
    ensures Times(Mean(total, n), n as real) == total
    ensures Mean(total, n) <= c <==> total <= scaled
  {
    if n > 0 {
      var mean := Divide(total, n as real);
      ScaleOrder(mean, c, n as real);
    }
  }

  /** The MAE passes while the errors add up to at most three a sample. */
  lemma MaeExactly(predictions: seq<real>, actuals: seq<real>, name: string, domain: string, minSamples: int)
    ensures var (es, m) := (Errors(predictions, actuals), ComputeMae(predictions, actuals, name, domain, minSamples));
            && m.name == name && m.domain == domain && m.sampleSize == |es|
            && (if |es| < minSamples then m.value.None? && m.status == NOT_AVAILABLE
                else
                  && m.value.Some? && Times(m.value.value, |es| as real) == AbsSum(es) && (|es| == 0 ==> m.value.value == 0.0)
                  && m.status == (if AbsSum(es) <= 3.0 * |es| as real then PASSED else FAILED))
  {
    var es := Errors(predictions, actuals);
    MeanExactly(AbsSum(es), |es|, 3.0, 3.0 * |es| as real);
    hide Times, Errors;
  }

  /** The RMSE passes while the squares of the errors add up to at most sixteen a sample. */
  lemma RmseExactly(predictions: seq<real>, actuals: seq<real>, root: real, name: string, domain: string, minSamples: int)
    requires IsRmse(root, Errors(predictions, actuals))
    ensures var (es, m) := (Errors(predictions, actuals), ComputeRmse(predictions, actuals, root, name, domain, minSamples));
            && root >= 0.0 && Times(Square(root), |es| as real) == SquareSum(es) && (|es| == 0 ==> root == 0.0)
            && m.name == name && m.domain == domain && m.sampleSize == |es|
            && (if |es| < minSamples then m.value.None? && m.status == NOT_AVAILABLE
                else m.value == Some(root) && m.status == (if SquareSum(es) <= 16.0 * |es| as real then PASSED else FAILED))
  {
    var es := Errors(predictions, actuals);
    SquaresOrder(root, 4.0);
    SquareFour();
    SquareSign(root);
    MeanExactly(SquareSum(es), |es|, 16.0, 16.0 * |es| as real);
    hide Times, Errors, Square;
  }

  lemma SquareFour()
    ensures Square(4.0) == 16.0
  {
  }

  // ----- the domain score

  datatype Score = Score(domain: string, value: Option<real>, status: Status, metricCount: nat)

  function Min(a: real, b: real): (m: real)
    ensures m <= a && m <= b && (m == a || m == b)
  {
    if a <= b then a else b
  }

  function Max(a: real, b: real): (m: real)
    ensures m >= a && m >= b && (m == a || m == b)
  {
    if a >= b then a else b
  }

  function Normal(v: real): real {
    if v > 1.0 then Max(0.0, Min(1.0, 1.0 / (1.0 + v / 30.0)))
    else if v < 0.0 then 0.0
    else v
  }

  lemma NormalInRange(v: real)
    ensures 0.0 <= Normal(v) <= 1.0
  {
  }

  lemma Reciprocals(a: real, b: real)
    requires 0.0 < a < b
    ensures 0.0 < 1.0 / b < 1.0 / a
  {
    var x := Divide(1.0, a);
    var y := Divide(1.0, b);
    assert y > 0.0;
    var gap := (b - a) * y;
    assert gap > 0.0;
    assert y * a == 1.0 - gap by {
      assert gap == b * y - a * y;
    }
    ScaleOrder(x, y, a);
    assert y * a < x * a;
  }

  /** The score of a value above one, compared with another number. */
  lemma AboveOne(x: real, v: real, scaled: real)
    requires v > 1.0 && scaled == x * (30.0 + v)
    ensures x < Normal(v) <==> scaled < 30.0
    ensures x > Normal(v) <==> scaled > 30.0
    ensures 0.0 < Normal(v) < 1.0
  {
    var d := 1.0 + v / 30.0;
    var q := Divide(1.0, d);
    Reciprocals(1.0, d);
    ScaleOrder(x, q, d);
    assert x * d == scaled / 30.0 by {
      assert 30.0 * d == 30.0 + v;
    }
    hide *;
    assert q == 1.0 / d;
  }

  /** What a value scores: nothing below zero, itself up to one, and from there 30 of 30 more than it. */
  lemma NormalExactly(v: real)
    ensures v <= 0.0 ==> Normal(v) == 0.0
    ensures 0.0 <= v <= 1.0 ==> Normal(v) == v
    ensures v > 1.0 ==> Times(Normal(v), 30.0 + v) == 30.0
  {
    if v > 1.0 {
      AboveOne(Normal(v), v, Times(Normal(v), 30.0 + v));
    }
  }

  /** Exactly when a larger value scores higher, and when lower. It scores higher up to one,
      and lower above one; across one, an error of 0.1 scores below an error of 1.1. */
  lemma NormalTurns(a: real, b: real)
    requires a < b
    ensures Normal(a) < Normal(b) <==> 0.0 < b <= 1.0 || (a <= 1.0 < b && Times(Max(a, 0.0), 30.0 + b) < 30.0)
    ensures Normal(b) < Normal(a) <==> 1.0 < a || (a <= 1.0 < b && Times(Max(a, 0.0), 30.0 + b) > 30.0)
  {
    if 1.0 < a {
      Reciprocals(1.0 + a / 30.0, 1.0 + b / 30.0);
    } else if 1.0 < b {
      AboveOne(Max(a, 0.0), b, Times(Max(a, 0.0), 30.0 + b));
    }
  }

  function Weight(weights: map<string, real>, name: string): real {
    if name in weights then weights[name] else 1.0
  }

  predicate Counts(m: Metric, domain: string) {
    m.domain == domain && m.value.Some?
  }

  function InDomain(ms: seq<Metric>, domain: string): (r: seq<Metric>)
    ensures forall m :: m in r <==> m in ms && Counts(m, domain)
  {
    if ms == [] then [] else (if Counts(ms[0], domain) then [ms[0]] else []) + InDomain(ms[1..], domain)
  }

  /** Domains are kept apart: a further metric is added in its place exactly if it is of the domain
      and has a value, and otherwise changes nothing. */
  lemma {:induction false} DomainsApart(ms: seq<Metric>, m: Metric, domain: string)
    ensures InDomain([], domain) == []
    ensures InDomain(ms + [m], domain) == InDomain(ms, domain) + (if m.domain == domain && m.value.Some? then [m] else [])
  {
    if ms != [] {
      assert (ms + [m])[1..] == ms[1..] + [m];
      DomainsApart(ms[1..], m, domain);
    } else {
      assert ms + [m] == [m];
    }
  }

  function TotalWeight(ms: seq<Metric>, weights: map<string, real>): real {
    if ms == [] then 0.0 else TotalWeight(ms[..|ms| - 1], weights) + Weight(weights, ms[|ms| - 1].name)
  }

  function WeightedSum(ms: seq<Metric>, weights: map<string, real>): real
    requires forall m :: m in ms ==> m.value.Some?
  {
    if ms == [] then 0.0
    else
      var m := ms[|ms| - 1];
      WeightedSum(ms[..|ms| - 1], weights) + Times(Normal(m.value.value), Weight(weights, m.name))
  }

  ghost predicate WeightedUp(ms: seq<Metric>, weights: map<string, real>) {
    forall m :: m in ms ==> Weight(weights, m.name) >= 0.0
  }

  function Times(a: real, b: real): real {
    a * b
  }

  lemma TimesStep(lo: real, total: real, w: real, x: real, hi: real)
    requires lo <= x <= hi && w >= 0.0
    ensures Times(lo, total + w) <= Times(lo, total) + Times(x, w)
    ensures Times(hi, total) + Times(x, w) <= Times(hi, total + w)
    ensures Times(lo, 0.0) == 0.0 == Times(hi, 0.0)
  {
    assert (x - lo) * w >= 0.0 && (hi - x) * w >= 0.0;
    assert lo * (total + w) == lo * total + lo * w;
    assert hi * (total + w) == hi * total + hi * w;
  }

  /** With nonnegative weights the weighted sum lies between the least and the greatest
      normalized value, times the total weight. */
  lemma {:induction false} SumsBetween(ms: seq<Metric>, weights: map<string, real>, lo: real, hi: real)
    requires WeightedUp(ms, weights) && lo <= hi
    requires forall m :: m in ms ==> m.value.Some? && lo <= Normal(m.value.value) <= hi
    ensures TotalWeight(ms, weights) >= 0.0
    ensures Times(lo, TotalWeight(ms, weights)) <= WeightedSum(ms, weights) <= Times(hi, TotalWeight(ms, weights))
  {
    hide Normal, Times, Weight;
    if ms == [] {
      TimesStep(lo, 0.0, 0.0, lo, hi);
    } else {
      var front, m := ms[..|ms| - 1], ms[|ms| - 1];
      SumsBetween(front, weights, lo, hi);
      assert m in ms;
      TimesStep(lo, TotalWeight(front, weights), Weight(weights, m.name), Normal(m.value.value), hi);
    }
  }

  function Quotient(sum: real, total: real): real {
    if total > 0.0 then sum / total else 0.0
  }

  function Aggregate(ms: seq<Metric>, weights: map<string, real>): real
    requires forall m :: m in ms ==> m.value.Some?
  {
    Quotient(WeightedSum(ms, weights), TotalWeight(ms, weights))
  }

  /** The score times the total weight is the weighted sum; without weight the score is zero. */
  lemma ScoreExactly(ms: seq<Metric>, weights: map<string, real>)
    requires forall m :: m in ms ==> m.value.Some?
    ensures if TotalWeight(ms, weights) > 0.0 then Times(Aggregate(ms, weights), TotalWeight(ms, weights)) == WeightedSum(ms, weights)
            else Aggregate(ms, weights) == 0.0
  {
    hide TotalWeight, WeightedSum;
    if TotalWeight(ms, weights) > 0.0 {
      var q := Divide(WeightedSum(ms, weights), TotalWeight(ms, weights));
    }
  }

  lemma QuotientBetween(lo: real, total: real, sum: real, hi: real)
    requires total > 0.0 && Times(lo, total) <= sum <= Times(hi, total)
    ensures lo <= sum / total <= hi
  {
    var q := sum / total;
    assert q * total == sum;
    ScaleOrder(lo, q, total);
    ScaleOrder(q, hi, total);
  }

  /** With nonnegative weights, some positive, the score is an average: it lies in any range
      that holds every normalized value. */
  lemma ScoreIsAverage(ms: seq<Metric>, weights: map<string, real>, lo: real, hi: real)
    requires WeightedUp(ms, weights) && lo <= hi && TotalWeight(ms, weights) > 0.0
    requires forall m :: m in ms ==> m.value.Some? && lo <= Normal(m.value.value) <= hi
    ensures lo <= Aggregate(ms, weights) <= hi
  {
    hide Normal, Times, WeightedUp, TotalWeight, WeightedSum;
    SumsBetween(ms, weights, lo, hi);
    QuotientBetween(lo, TotalWeight(ms, weights), WeightedSum(ms, weights), hi);
  }

  /** In particular the score is always in [0, 1]. */
  lemma ScoreInRange(ms: seq<Metric>, weights: map<string, real>)
    requires WeightedUp(ms, weights) && forall m :: m in ms ==> m.value.Some?
    ensures 0.0 <= Aggregate(ms, weights) <= 1.0
  {
    hide Normal, WeightedUp, WeightedSum;
    forall m | m in ms
      ensures 0.0 <= Normal(m.value.value) <= 1.0
    {
      NormalInRange(m.value.value);
    }
    if TotalWeight(ms, weights) > 0.0 {
      ScoreIsAverage(ms, weights, 0.0, 1.0);
    }
  }

  /** Python's round to four places: to the nearest, and of two as near to the one with an even
      last digit. */
  function Round4(x: real): real {
    var n := (x * 10000.0).Floor;
    var rest := x * 10000.0 - n as real;
    (if rest < 0.5 || (rest == 0.5 && n % 2 == 0) then n else n + 1) as real / 10000.0
  }

  /** That is, a whole number of ten-thousandths, at most half of one away, and even if exactly half. */
  lemma RoundedExactly(x: real) returns (n: int)
    ensures Round4(x) * 10000.0 == n as real && -0.5 <= x * 10000.0 - n as real <= 0.5
    ensures (x * 10000.0 - n as real == 0.5 || x * 10000.0 - n as real == -0.5) ==> n % 2 == 0
  {
    var below := (x * 10000.0).Floor;
    n := if Round4(x) * 10000.0 == below as real then below else below + 1;
  }

  lemma RoundedNear(x: real)
    ensures Round4(x) - 0.00005 <= x <= Round4(x) + 0.00005
    ensures 0.0 <= x <= 1.0 ==> 0.0 <= Round4(x) <= 1.0
  {
  }

  predicate InRange(x: real) {
    0.0 <= x <= 1.0
  }

  /** Enough metrics count, and their rounded score is one that the score's own contract refuses. */
  predicate Raises(domain: string, metrics: seq<Metric>, weights: map<string, real>, minMetrics: int) {
    |InDomain(metrics, domain)| >= minMetrics && !InRange(Round4(Aggregate(InDomain(metrics, domain), weights)))
  }

  // ----- when the aggregation never raises

  /** The lengths that a metric allows its name. */
  predicate Named(name: string) {
    1 <= |name| <= 128
  }

  ghost predicate NeverRaises(domain: string, weights: map<string, real>) {
    forall metrics: seq<Metric>, minMetrics ::
      (forall m :: m in metrics ==> Named(m.name)) ==> !Raises(domain, metrics, weights, minMetrics)
  }

  /** No two names weigh one up and the other down. */
  ghost predicate OneSigned(weights: map<string, real>) {
    || (forall name :: Named(name) ==> Weight(weights, name) >= 0.0)
    || (forall name :: Named(name) ==> Weight(weights, name) <= 0.0)
  }

  lemma {:induction false} NoWeightLeft(ms: seq<Metric>, weights: map<string, real>)
    requires forall m :: m in ms ==> Weight(weights, m.name) <= 0.0
    ensures TotalWeight(ms, weights) <= 0.0
  {
    hide Weight;
    if ms != [] {
      NoWeightLeft(ms[..|ms| - 1], weights);
      assert ms[|ms| - 1] in ms;
    }
  }

  lemma OneSignedInRange(domain: string, weights: map<string, real>, metrics: seq<Metric>, minMetrics: int)
    requires OneSigned(weights) && forall m :: m in metrics ==> Named(m.name)
    ensures !Raises(domain, metrics, weights, minMetrics)
  {
    hide Round4, Weight, TotalWeight, WeightedSum, InDomain;
    var ms := InDomain(metrics, domain);
    if WeightedUp(ms, weights) {
      ScoreInRange(ms, weights);
    } else {
      NoWeightLeft(ms, weights);
    }
    RoundedNear(Aggregate(ms, weights));
  }

  lemma {:induction false} CopiesAdd(ms: seq<Metric>, m: Metric, k: nat, weights: map<string, real>)
    requires m.value.Some? && forall x :: x in ms ==> x.value.Some?
    ensures var more := ms + seq(k, _ => m);
            && (forall x :: x in more ==> x.value.Some?)
            && TotalWeight(more, weights) == TotalWeight(ms, weights) + Times(k as real, Weight(weights, m.name))
            && WeightedSum(more, weights)
               == WeightedSum(ms, weights) + Times(k as real, Times(Normal(m.value.value), Weight(weights, m.name)))
  {
    hide Normal, Weight;
    var more := ms + seq(k, _ => m);
    if k == 0 {
      assert more == ms;
    } else {
      CopiesAdd(ms, m, k - 1, weights);
      assert more[..|more| - 1] == ms + seq(k - 1, _ => m);
      TimesOneMore(k, Weight(weights, m.name));
      TimesOneMore(k, Times(Normal(m.value.value), Weight(weights, m.name)));
      hide Times;
    }
  }

  lemma TimesOneMore(k: nat, w: real)
    requires k > 0
    ensures Times(k as real, w) == Times((k - 1) as real, w) + w
  {
  }

  lemma {:induction false} AllInDomain(ms: seq<Metric>, domain: string)
    requires forall m :: m in ms ==> Counts(m, domain)
    ensures InDomain(ms, domain) == ms
  {
    if ms != [] {
      AllInDomain(ms[1..], domain);
    }
  }

  /** A multiple of `d` just above `x`. */
  lemma Multiple(d: real, x: real) returns (k: nat)
    requires d > 0.0 && x >= 0.0
    ensures x < Times(k as real, d) <= x + d
  {
    var q := Divide(x, d);
    var f := q.Floor;
    k := f + 1;
    ScaleOrder(q, f as real + 1.0, d);
    ScaleOrder(f as real, q, d);
    assert Times(k as real, d) == f as real * d + d;
  }

  lemma QuotientBelow(sum: real, total: real)
    requires total > 0.0 && sum <= -total
    ensures Quotient(sum, total) <= -1.0
  {
    var q := Divide(sum, total);
    ScaleOrder(q, -1.0, total);
  }

  /** Enough metrics of value one under a negative weight, offset by ones of value zero under a
      positive weight, make a score of at most minus one. */
  lemma MixedSignsRaise(domain: string, weights: map<string, real>, down: string, up: string)
    requires Named(down) && Named(up) && Weight(weights, down) < 0.0 < Weight(weights, up)
    ensures !NeverRaises(domain, weights)
  {
    hide Weight, TotalWeight, WeightedSum, Normal, InDomain, Round4, Times, Quotient, InRange;
    var x, y := Metric(down, domain, Some(1.0), 1, PASSED), Metric(up, domain, Some(0.0), 1, PASSED);
    var d, u := -Weight(weights, down), Weight(weights, up);
    var m := Multiple(d, u);
    var k := Multiple(u, Times(m as real, d));
    var ms := [] + seq(m, _ => x);
    var all := ms + seq(k, _ => y);
    CopiesAdd([], x, m, weights);
    CopiesAdd(ms, y, k, weights);
    EmptySums(weights);
    NormalEnds();
    TimesSigns(m as real, d);
    TimesSigns(k as real, u);
    AllInDomain(all, domain);
    QuotientBelow(WeightedSum(all, weights), TotalWeight(all, weights));
    RoundedLow(Aggregate(all, weights));
    assert forall z :: z in all ==> Named(z.name);
    assert Raises(domain, all, weights, |all|);
  }

  lemma EmptySums(weights: map<string, real>)
    ensures TotalWeight([], weights) == 0.0 && WeightedSum([], weights) == 0.0
  {
  }

  lemma NormalEnds()
    ensures Normal(1.0) == 1.0 && Normal(0.0) == 0.0
  {
  }

  lemma TimesSigns(n: real, w: real)
    ensures Times(n, -w) == -Times(n, w) && Times(1.0, -w) == -w && Times(0.0, w) == 0.0 == Times(n, 0.0)
  {
  }

  lemma RoundedLow(x: real)
    requires x <= -1.0
    ensures !InRange(Round4(x))
  {
  }

  /** A weight map never makes the aggregation raise, whatever the metrics, if and only if it does
      not weigh one name up and another down. */
  lemma NeverRaisesExactly(domain: string, weights: map<string, real>)
    ensures NeverRaises(domain, weights) <==> OneSigned(weights)
  {
    hide Raises, Weight;
    if OneSigned(weights) {
      forall metrics: seq<Metric>, minMetrics: int | forall m :: m in metrics ==> Named(m.name)
        ensures !Raises(domain, metrics, weights, minMetrics)
      {
        OneSignedInRange(domain, weights, metrics, minMetrics);
      }
    } else {
      var down :| Named(down) && Weight(weights, down) < 0.0;
      var up :| Named(up) && Weight(weights, up) > 0.0;
      MixedSignsRaise(domain, weights, down, up);
    }
  }

  /** A map that leaves some name out, which then weighs one, must have no negative weight. */
  lemma NonnegativeExactly(domain: string, weights: map<string, real>, other: string)
    requires Named(other) && other !in weights
    ensures NeverRaises(domain, weights) <==> forall name :: name in weights && Named(name) ==> weights[name] >= 0.0
  {
    hide NeverRaises;
    NeverRaisesExactly(domain, weights);
    assert Weight(weights, other) == 1.0;
    if forall name :: name in weights && Named(name) ==> weights[name] >= 0.0 {
      assert forall name :: Named(name) ==> Weight(weights, name) >= 0.0;
    } else {
      var name :| name in weights && Named(name) && weights[name] < 0.0;
      assert Weight(weights, name) < 0.0;
    }
  }

  lemma SumsStart(ms: seq<Metric>, weights: map<string, real>)
    ensures TotalWeight(ms[..0], weights) == 0.0 && WeightedSum(ms[..0], weights) == 0.0
  {
  }

  lemma SumsStep(ms: seq<Metric>, weights: map<string, real>, i: nat)
    requires i < |ms| && forall m :: m in ms ==> m.value.Some?
    ensures forall m :: m in ms[..i + 1] ==> m in ms
    ensures TotalWeight(ms[..i + 1], weights) == TotalWeight(ms[..i], weights) + Weight(weights, ms[i].name)
    ensures WeightedSum(ms[..i + 1], weights)
            == WeightedSum(ms[..i], weights) + Times(Normal(ms[i].value.value), Weight(weights, ms[i].name))
  {
    hide Times, Normal, Weight;
    assert ms[..i + 1][..i] == ms[..i];
  }

  /** The code's loop over the metrics of the domain. */
  method Accumulate(ms: seq<Metric>, weights: map<string, real>) returns (total: real, sum: real)
    requires forall m :: m in ms ==> m.value.Some?
    ensures total == TotalWeight(ms, weights) && sum == WeightedSum(ms, weights)
  {
    hide Times, Normal, Weight, TotalWeight, WeightedSum;
    total, sum := 0.0, 0.0;
    SumsStart(ms, weights);
    for i := 0 to |ms|
      invariant forall m :: m in ms[..i] ==> m in ms
      invariant total == TotalWeight(ms[..i], weights) && sum == WeightedSum(ms[..i], weights)
    {
      SumsStep(ms, weights, i);
      var w := Weight(weights, ms[i].name);
      total := total + w;
      sum := sum + Times(Normal(ms[i].value.value), w);
    }
    assert ms[..|ms|] == ms;
  }

  /** The domain score, or the error of a score outside [0, 1], which the score's contract refuses. */
  method AggregateDomainScore(domain: string, metrics: seq<Metric>, weights: Option<map<string, real>>, minMetrics: int)
    returns (r: Result<Score, real>)
    ensures r.Err? <==> Raises(domain, metrics, weights.UnwrapOr(map[]), minMetrics)
    ensures r.Err? ==> r.error == Round4(Aggregate(InDomain(metrics, domain), weights.UnwrapOr(map[]))) && !(0.0 <= r.error <= 1.0)
    ensures r.Ok? ==>
              && r.value.domain == domain && r.value.metricCount == |InDomain(metrics, domain)|
              && (r.value.value.None? <==> |InDomain(metrics, domain)| < minMetrics)
              && (r.value.status == NOT_AVAILABLE <==> r.value.value.None?)
    ensures r.Ok? && r.value.value.Some? ==>
              && r.value.value.value == Round4(Aggregate(InDomain(metrics, domain), weights.UnwrapOr(map[])))
              && 0.0 <= r.value.value.value <= 1.0
              && (r.value.status == FAILED <==> exists m :: m in metrics && Counts(m, domain) && m.status == FAILED)
  {
    hide Quotient, TotalWeight, WeightedSum, Round4;
    var ms := InDomain(metrics, domain);
    if |ms| < minMetrics {
      return Ok(Score(domain, None, NOT_AVAILABLE, |ms|));
    }
    var total, sum := Accumulate(ms, weights.UnwrapOr(map[]));
    var value := Round4(Quotient(sum, total));
    if !InRange(value) {
      return Err(value);
    }
    var hasFailed := exists m :: m in ms && m.status == FAILED;
    r := Ok(Score(domain, Some(value), if hasFailed then FAILED else PASSED, |ms|));
  }
}
