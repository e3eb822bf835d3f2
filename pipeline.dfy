/**
 * The computational part of the analysis pipeline: for every observation row,
 * in order, the predicted and the "actual" overnight minimum temperature, then
 * the two error columns and their means (MAE and MSE).
 *
 * The "actual" column feeds the looked-up K straight into the McKenzie
 * formula; for a row whose wind speed is above 51 that K is `None`, the
 * subtraction raises a type error and the whole pipeline stops. The model
 * reports that as `Failure(UndefinedK(row))` for the first such row.
 */
module Pipeline {
  import opened Results
  import opened KLookup
  import opened Predictor
  import opened ErrorMetrics

  /** One input row: midday temperature and dew point (degrees C), wind speed and cloud cover (oktas). */
  datatype Observation = Observation(middayTemp: real, dewPoint: real, windSpeed: real, cloudCover: real)

  /** Why the pipeline stopped: the row (0-based, in table order) whose K was undefined. */
  datatype PipelineError = UndefinedK(row: nat)

  /** The two temperature columns added to the table. */
  datatype Columns = Columns(predicted: seq<real>, actual: seq<real>)

  /** The completed table's derived columns and the two aggregate metrics (`None` when the table is empty). */
  datatype Report = Report(predicted: seq<real>, actual: seq<real>,
                           absoluteError: seq<real>, squaredError: seq<real>,
                           mae: Option<real>, mse: Option<real>)

  function PredictedOf(o: Observation): Option<real>
  {
    MinTemp(o.middayTemp, o.dewPoint, o.windSpeed, o.cloudCover)
  }

  /** The "Overnight Min Temp" column as first computed, with `None` where K is undefined. */
  function PredictedColumn(rows: seq<Observation>): seq<Option<real>>
  {
    seq(|rows|, i requires 0 <= i < |rows| => PredictedOf(rows[i]))
  }

  /** The "actual" minimum of a row, with the K of the same lookup; defined only when that K is. */
  function ActualOf(o: Observation): real
    requires o.windSpeed <= 51.0
  {
    ActualMinTemp(o.middayTemp, o.dewPoint, GetK(o.windSpeed, o.cloudCover).value)
  }

  /** The index of the first row whose K is undefined, or the row count when there is none. */
  function FirstUndefinedK(rows: seq<Observation>): (i: nat)
    ensures i <= |rows|
    ensures forall j :: 0 <= j < i ==> rows[j].windSpeed <= 51.0
    ensures i < |rows| ==> rows[i].windSpeed > 51.0
  {
    if rows == [] then 0
    else if GetK(rows[0].windSpeed, rows[0].cloudCover).None? then 0
    else 1 + FirstUndefinedK(rows[1..])
  }

  /** The row-wise transform: both temperature columns, or the failure of the first undefined K. */
  function Transform(rows: seq<Observation>): (r: Result<Columns, PipelineError>)
    ensures r.Success? <==> forall i :: 0 <= i < |rows| ==> rows[i].windSpeed <= 51.0
    ensures r.Success? ==> |r.value.predicted| == |rows| && |r.value.actual| == |rows|
  {
    var bad := FirstUndefinedK(rows);
    if bad < |rows| then Failure(UndefinedK(bad))
    else Success(Columns(
      seq(|rows|, i requires 0 <= i < |rows| => PredictedOf(rows[i]).value),
      seq(|rows|, i requires 0 <= i < |rows| => ActualOf(rows[i]))))
  }

  /** The whole computation: the transform, the error columns and the two means. */
  function Run(rows: seq<Observation>): Result<Report, PipelineError>
  {
    match Transform(rows)
    case Failure(e) => Failure(e)
    case Success(cols) =>
      var absoluteError := AbsErrors(cols.predicted, cols.actual);
      var squaredError := SquaredErrors(cols.predicted, cols.actual);
      Success(Report(cols.predicted, cols.actual, absoluteError, squaredError,
                     Mean(absoluteError), Mean(squaredError)))
  }

  /**
   * The two column-wise applications of the source, one after the other:
   * first the predicted column (keeping `None`), then the "actual" column,
   * which stops at the first row whose K is undefined.
   */
  method ApplyFormulas(rows: seq<Observation>) returns (r: Result<Columns, PipelineError>)
    ensures r == Transform(rows)
  {
    var predicted: seq<Option<real>> := [];
    var i := 0;
    while i < |rows|
      invariant 0 <= i <= |rows|
      invariant predicted == PredictedColumn(rows)[..i]
    {
      predicted := predicted + [PredictedOf(rows[i])];
      i := i + 1;
    }
    var actual: seq<real> := [];
    i := 0;
    while i < |rows|
      invariant 0 <= i <= |rows|
      invariant forall j :: 0 <= j < i ==> rows[j].windSpeed <= 51.0
      invariant |actual| == i && forall j :: 0 <= j < i ==> actual[j] == ActualOf(rows[j])
    {
      match GetK(rows[i].windSpeed, rows[i].cloudCover)
      case None =>
        assert FirstUndefinedK(rows) == i by {
          FirstUndefinedIsUnique(rows, i);
        }
        return Failure(UndefinedK(i));
      case Some(k) =>
        actual := actual + [ActualMinTemp(rows[i].middayTemp, rows[i].dewPoint, k)];
      i := i + 1;
    }
    assert predicted == PredictedColumn(rows);
    assert FirstUndefinedK(rows) == |rows|;
    var values := seq(|rows|, j requires 0 <= j < |rows| => predicted[j].value);
    assert values == seq(|rows|, j requires 0 <= j < |rows| => PredictedOf(rows[j]).value);
    assert actual == seq(|rows|, j requires 0 <= j < |rows| => ActualOf(rows[j]));
    r := Success(Columns(values, actual));
  }

  /** The first undefined row is determined by its two defining facts. */
  lemma FirstUndefinedIsUnique(rows: seq<Observation>, i: nat)
    requires i < |rows| && rows[i].windSpeed > 51.0
    requires forall j :: 0 <= j < i ==> rows[j].windSpeed <= 51.0
    ensures FirstUndefinedK(rows) == i
  {
  }

  /**
   * The full computation on a table: the derived columns and the MAE and
   * MSE, with the error columns filled in place by `CalculateErrors`.
   */
  method RunPipeline(rows: seq<Observation>) returns (r: Result<Report, PipelineError>)
    ensures r == Run(rows)
  {
    var transformed := ApplyFormulas(rows);
    if transformed.Failure? {
      return Failure(transformed.error);
    }
    var cols := transformed.value;
    var n := |rows|;
    var predicted := new real[n](i requires 0 <= i < n => cols.predicted[i]);
    var actual := new real[n](i requires 0 <= i < n => cols.actual[i]);
    var absoluteError := new real[n];
    var squaredError := new real[n];
    assert predicted[..] == cols.predicted;
    assert actual[..] == cols.actual;
    CalculateErrors(predicted, actual, absoluteError, squaredError);
    r := Success(Report(cols.predicted, cols.actual, absoluteError[..], squaredError[..],
                        Mean(absoluteError[..]), Mean(squaredError[..])));
  }

  /** The pipeline succeeds exactly when every row's wind speed is at most 51. */
  lemma RunSucceedsIff(rows: seq<Observation>)
    ensures Run(rows).Success? <==> forall i :: 0 <= i < |rows| ==> rows[i].windSpeed <= 51.0
  {
  }

  /** On failure the reported row is the first, in table order, whose K is undefined. */
  lemma RunFailsAtFirstUndefinedRow(rows: seq<Observation>)
    requires Run(rows).Failure?
    ensures Run(rows).error.row < |rows|
    ensures rows[Run(rows).error.row].windSpeed > 51.0
    ensures GetK(rows[Run(rows).error.row].windSpeed, rows[Run(rows).error.row].cloudCover) == None
    ensures forall j :: 0 <= j < Run(rows).error.row ==> rows[j].windSpeed <= 51.0
  {
  }

  /**
   * On success every column has one entry per row, in row order: the
   * prediction, the "actual" minimum with the same K, and the two errors
   * between them.
   */
  lemma RunRow(rows: seq<Observation>, i: nat)
    requires Run(rows).Success? && i < |rows|
    ensures var rep := Run(rows).value;
      && |rep.predicted| == |rep.actual| == |rep.absoluteError| == |rep.squaredError| == |rows|
      && var o := rows[i];
      && var k := GetK(o.windSpeed, o.cloudCover).value;
      && Some(rep.predicted[i]) == MinTemp(o.middayTemp, o.dewPoint, o.windSpeed, o.cloudCover)
      && rep.actual[i] == ActualMinTemp(o.middayTemp, o.dewPoint, k)
      && rep.absoluteError[i] == AbsError(rep.predicted[i], rep.actual[i])
      && rep.squaredError[i] == SquaredError(rep.predicted[i], rep.actual[i])
      && rep.predicted[i] - rep.actual[i] == 0.048 * o.dewPoint - 0.184 * o.middayTemp - 1.24 + 2.0 * k
  {
  }

  /**
   * On a successful non-empty run both metrics are defined and non-negative,
   * and the MSE is at least the square of the MAE; on an empty table neither
   * is defined.
   */
  lemma RunMetrics(rows: seq<Observation>)
    requires Run(rows).Success?
    ensures |rows| == 0 ==> Run(rows).value.mae == None && Run(rows).value.mse == None
    ensures |rows| > 0 ==> Run(rows).value.mae.Some? && Run(rows).value.mse.Some?
    ensures |rows| > 0 ==> Run(rows).value.mae.value >= 0.0
    ensures |rows| > 0 ==> Run(rows).value.mse.value >= Run(rows).value.mae.value * Run(rows).value.mae.value
  {
    if |rows| > 0 {
      var cols := Transform(rows).value;
      MseAtLeastMaeSquared(cols.predicted, cols.actual);
    }
  }
}
