/**
 * Per-row errors between the predicted and the "actual" minimum temperature
 * columns, and their arithmetic means (MAE and MSE).
 */
module ErrorMetrics {
  import opened Results

  /** Absolute error |predicted - actual|. */
  function AbsError(predicted: real, actual: real): (e: real)
    ensures e >= 0.0
    ensures e == predicted - actual || e == actual - predicted
  {
    if predicted >= actual then predicted - actual else actual - predicted
  }

  /** Squared error (predicted - actual)^2; it is the absolute error squared. */
  function SquaredError(predicted: real, actual: real): (e: real)
    ensures e >= 0.0
    ensures e == AbsError(predicted, actual) * AbsError(predicted, actual)
  {
    (predicted - actual) * (predicted - actual)
  }

  /** The "Absolute Error" column, row by row. */
  function AbsErrors(predicted: seq<real>, actual: seq<real>): seq<real>
    requires |predicted| == |actual|
  {
    seq(|predicted|, i requires 0 <= i < |predicted| => AbsError(predicted[i], actual[i]))
  }

  /** The "Squared Error" column, row by row. */
  function SquaredErrors(predicted: seq<real>, actual: seq<real>): seq<real>
    requires |predicted| == |actual|
  {
    seq(|predicted|, i requires 0 <= i < |predicted| => SquaredError(predicted[i], actual[i]))
  }

  /** Each element squared. */
  function Squares(s: seq<real>): seq<real>
  {
    seq(|s|, i requires 0 <= i < |s| => s[i] * s[i])
  }

  function Sum(s: seq<real>): real
  {
    if s == [] then 0.0 else s[0] + Sum(s[1..])
  }

  /** Arithmetic mean; `None` for an empty column, where pandas yields NaN. */
  function Mean(s: seq<real>): (m: Option<real>)
    ensures m.Some? <==> |s| > 0
  {
    if |s| == 0 then None else Some(Sum(s) / |s| as real)
  }

  predicate NonNegative(s: seq<real>)
  {
    forall i :: 0 <= i < |s| ==> s[i] >= 0.0
  }

  /**
   * Fills the two error columns for the rows of the two temperature columns,
   * leaving those columns as they were.
   */
  method CalculateErrors(predicted: array<real>, actual: array<real>,
                         absoluteError: array<real>, squaredError: array<real>)
    requires actual.Length == predicted.Length
    requires absoluteError.Length == predicted.Length && squaredError.Length == predicted.Length
    requires absoluteError != squaredError
    requires absoluteError != predicted && absoluteError != actual
    requires squaredError != predicted && squaredError != actual
    modifies absoluteError, squaredError
    ensures absoluteError[..] == AbsErrors(predicted[..], actual[..])
    ensures squaredError[..] == SquaredErrors(predicted[..], actual[..])
  {
    var i := 0;
    while i < predicted.Length
      invariant 0 <= i <= predicted.Length
      invariant forall j :: 0 <= j < i ==> absoluteError[j] == AbsError(predicted[j], actual[j])
      invariant forall j :: 0 <= j < i ==> squaredError[j] == SquaredError(predicted[j], actual[j])
    {
      absoluteError[i] := AbsError(predicted[i], actual[i]);
      squaredError[i] := SquaredError(predicted[i], actual[i]);
      i := i + 1;
    }
  }

  /** Both error columns keep the row count, are non-negative, and the squared one squares the absolute one. */
  lemma ErrorColumns(predicted: seq<real>, actual: seq<real>)
    requires |predicted| == |actual|
    ensures |AbsErrors(predicted, actual)| == |predicted| == |SquaredErrors(predicted, actual)|
    ensures NonNegative(AbsErrors(predicted, actual))
    ensures NonNegative(SquaredErrors(predicted, actual))
    ensures SquaredErrors(predicted, actual) == Squares(AbsErrors(predicted, actual))
  {
    var sq, abs := SquaredErrors(predicted, actual), AbsErrors(predicted, actual);
    forall i | 0 <= i < |sq|
      ensures sq[i] == Squares(abs)[i]
    {
      assert sq[i] == SquaredError(predicted[i], actual[i]);
    }
  }

  /** A sum of non-negative terms is non-negative. */
  lemma {:induction false} SumNonNegative(s: seq<real>)
    requires NonNegative(s)
    ensures Sum(s) >= 0.0
  {
    if s != [] {
      SumNonNegative(s[1..]);
    }
  }

  /** The mean of a non-empty non-negative column is non-negative. */
  lemma MeanNonNegative(s: seq<real>)
    requires NonNegative(s) && |s| > 0
    ensures Mean(s).value >= 0.0
  {
    SumNonNegative(s);
  }

  /** Sum of (x - a)^2 over the column. */
  function SumSquaredDeviation(s: seq<real>, a: real): real
  {
    if s == [] then 0.0 else (s[0] - a) * (s[0] - a) + SumSquaredDeviation(s[1..], a)
  }

  /** Sum of x^2 over the column. */
  function SumOfSquares(s: seq<real>): real
  {
    if s == [] then 0.0 else s[0] * s[0] + SumOfSquares(s[1..])
  }

  /** The number of elements, counted in `real`, so that the expansion below needs no integer arithmetic. */
  function Count(s: seq<real>): real
  {
    if s == [] then 0.0 else 1.0 + Count(s[1..])
  }

  /** d = q - 2 a t + n a^2: the expansion of a sum of squared deviations from `a`. */
  predicate Expands(d: real, q: real, t: real, n: real, a: real)
  {
    d == q - 2.0 * a * t + n * a * a
  }

  /** The sum of the squared column is the sum of squares. */
  lemma {:induction false} SumSquaresIsSumOfSquares(s: seq<real>)
    ensures Sum(Squares(s)) == SumOfSquares(s)
  {
    if s == [] {
      assert Squares(s) == [];
    } else {
      SumSquaresIsSumOfSquares(s[1..]);
      forall i | 0 <= i < |s| - 1
        ensures Squares(s)[1..][i] == Squares(s[1..])[i]
      {
      }
      assert Squares(s)[1..] == Squares(s[1..]);
    }
  }

  /** The real-valued count is the length. */
  lemma {:induction false} CountIsLength(s: seq<real>)
    ensures Count(s) == |s| as real
  {
    if s != [] {
      CountIsLength(s[1..]);
    }
  }

  /** Expanding the squares: sum (x - a)^2 = sum x^2 - 2 a sum x + n a^2, which is non-negative. */
  lemma {:induction false} DeviationExpansion(s: seq<real>, a: real)
    ensures Expands(SumSquaredDeviation(s, a), SumOfSquares(s), Sum(s), Count(s), a)
    ensures SumSquaredDeviation(s, a) >= 0.0
  {
    if s != [] {
      var rest := s[1..];
      DeviationExpansion(rest, a);
      ExpansionStep(s[0], a,
        SumOfSquares(rest), Sum(rest), Count(rest), SumSquaredDeviation(rest, a),
        SumOfSquares(s), Sum(s), Count(s), SumSquaredDeviation(s, a));
    }
  }

  /**
   * One induction step of the previous lemma: the lower-case quantities
   * describe the tail, the upper-case ones the whole column with head `x`.
   */
  lemma ExpansionStep(x: real, a: real, q: real, t: real, n: real, d: real,
                      bigQ: real, bigT: real, bigN: real, bigD: real)
    requires Expands(d, q, t, n, a) && d >= 0.0
    requires bigQ == x * x + q && bigT == x + t && bigN == n + 1.0
    requires bigD == (x - a) * (x - a) + d
    ensures Expands(bigD, bigQ, bigT, bigN, a)
    ensures bigD >= 0.0
  {
    ExpandOneMore(x, a, q, t, n, d);
    SquareNonNegative(x - a);
  }

  /** Adding one element x to the column keeps the expansion. */
  lemma ExpandOneMore(x: real, a: real, q: real, t: real, n: real, d: real)
    requires Expands(d, q, t, n, a)
    ensures Expands((x - a) * (x - a) + d, x * x + q, x + t, n + 1.0, a)
  {
    assert (x - a) * (x - a) == x * x - 2.0 * a * x + a * a;
    assert 2.0 * a * (x + t) == 2.0 * a * x + 2.0 * a * t;
    assert (n + 1.0) * a * a == n * a * a + a * a;
  }

  lemma SquareNonNegative(y: real)
    ensures y * y >= 0.0
  {
    if y < 0.0 {
      assert y * y == (-y) * (-y);
    }
  }

  /** The mean of the squares is at least the square of the mean. */
  lemma MeanSquareAtLeastSquaredMean(s: seq<real>)
    requires |s| > 0
    ensures Mean(Squares(s)).value >= Mean(s).value * Mean(s).value
  {
    var n := |s| as real;
    var m := Sum(s) / n;
    DeviationExpansion(s, m);
    SumSquaresIsSumOfSquares(s);
    CountIsLength(s);
    QuotientBound(SumSquaredDeviation(s, m), Sum(Squares(s)), Sum(s), n, m);
    assert Mean(s).value == m;
    assert Mean(Squares(s)).value == Sum(Squares(s)) / n;
  }

  /** The arithmetic step of the previous lemma: from 0 <= d = q - 2 m t + n m^2 and t = n m, q / n >= m^2. */
  lemma QuotientBound(d: real, q: real, t: real, n: real, m: real)
    requires n > 0.0 && m == t / n
    requires Expands(d, q, t, n, m) && d >= 0.0
    ensures q / n >= m * m
  {
    assert t == n * m;
    assert 2.0 * m * t == 2.0 * (n * m * m);
    assert q >= n * (m * m);
    assert q / n >= (n * (m * m)) / n;
  }

  /** MSE is at least MAE squared: the squared-error mean dominates the absolute-error mean squared. */
  lemma MseAtLeastMaeSquared(predicted: seq<real>, actual: seq<real>)
    requires |predicted| == |actual| > 0
    ensures Mean(AbsErrors(predicted, actual)).value >= 0.0
    ensures Mean(SquaredErrors(predicted, actual)).value >= 0.0
    ensures Mean(SquaredErrors(predicted, actual)).value
         >= Mean(AbsErrors(predicted, actual)).value * Mean(AbsErrors(predicted, actual)).value
  {
    ErrorColumns(predicted, actual);
    MeanNonNegative(AbsErrors(predicted, actual));
    MeanNonNegative(SquaredErrors(predicted, actual));
    MeanSquareAtLeastSquaredMean(AbsErrors(predicted, actual));
  }

  /** Any non-negative square root of the MSE (the RMSE) is at least the MAE. */
  lemma RmseAtLeastMae(predicted: seq<real>, actual: seq<real>, rmse: real)
    requires |predicted| == |actual| > 0
    requires rmse >= 0.0 && rmse * rmse == Mean(SquaredErrors(predicted, actual)).value
    ensures rmse >= Mean(AbsErrors(predicted, actual)).value
  {
    MseAtLeastMaeSquared(predicted, actual);
    RootBound(rmse, Mean(AbsErrors(predicted, actual)).value, Mean(SquaredErrors(predicted, actual)).value);
  }

  /** A non-negative root of a value at least m^2, with m non-negative, is at least m. */
  lemma RootBound(r: real, m: real, q: real)
    requires r >= 0.0 && m >= 0.0 && r * r == q && q >= m * m
    ensures r >= m
  {
    if r < m {
      SquareStrictlyMonotone(r, m);
    }
  }

  /** Squaring is strictly increasing on the non-negative reals. */
  lemma SquareStrictlyMonotone(r: real, m: real)
    requires 0.0 <= r < m
    ensures r * r < m * m
  {
    var d := m - r;
    assert m * m == r * r + 2.0 * r * d + d * d;
    assert d * d > 0.0;
    assert r * d >= 0.0;
  }

  /** Predicted [10, 12, 15] against actual [11, 13, 14]: every error is 1, and so are MAE and MSE. */
  lemma ErrorExamples()
    ensures AbsErrors([10.0, 12.0, 15.0], [11.0, 13.0, 14.0]) == [1.0, 1.0, 1.0]
    ensures SquaredErrors([10.0, 12.0, 15.0], [11.0, 13.0, 14.0]) == [1.0, 1.0, 1.0]
    ensures Mean([1.0, 1.0, 1.0]) == Some(1.0)
  {
    var ones: seq<real> := [1.0, 1.0, 1.0];
    assert Sum(ones[1..][1..]) == 1.0;
  }
}
