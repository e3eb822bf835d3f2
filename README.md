# Overnight minimum temperature: a Dafny model

This project models the computational core of `TechExe/.idea/TempCalc.py`, a small
pipeline that predicts the overnight minimum air temperature from midday
observations and compares it with the "actual" minimum of the McKenzie method:

- **K lookup** (`KLookup`): the correction constant K as a two-level step table over
  wind speed (bands up to 12, 25, 38 and 51, each closed above) and cloud cover
  (bands up to 2, 4, 6 and above 6 oktas); no value for a wind speed above 51.
  The nested conditionals of the source (`GetK`) are proved equal to an explicit
  table indexed by the selected bands (`TableK`).
- **Predictor** (`Predictor`): the predicted minimum 0.316 T + 0.548 D - 1.24 + K
  (undefined when K is) and the "actual" minimum 0.5 (T + D) - K, both over exact
  `real` arithmetic.
- **Error metrics** (`ErrorMetrics`): the "Absolute Error" and "Squared Error"
  columns, filled row by row into two arrays, and their arithmetic means (MAE and
  MSE). Beyond non-negativity, the model proves MSE >= MAE^2 and hence that every
  non-negative square root of the MSE (the RMSE) is at least the MAE.
- **Pipeline** (`Pipeline`): the row-wise part of `main` without file loading,
  logging and plotting. The predicted column is computed for every row, then the
  "actual" column reuses the same K lookup. For a row whose wind speed is above 51
  that lookup gives `None`, and `0.5 * (T + D) - None` raises a type error that
  aborts the whole pipeline. The model returns `Failure(UndefinedK(row))` for the
  first such row in table order, and no metrics.

Rows whose K is undefined are not skipped or flagged individually: the code aborts
the run instead (TempCalc.py:131, 73 and 150-151), and the model follows the code.
Cloud cover is any real number, as in the code; the code does not restrict it to
whole oktas 0 to 8.

## Model

| member | source | states |
|---|---|---|
| `KLookup.GetK` | TechExe/.idea/TempCalc.py:16-56 | K is defined exactly when wind speed <= 51, whatever the cloud cover, and every defined K lies in [-2.2, 3.5] |
| `KLookup.GetKMatchesTable` | TechExe/.idea/TempCalc.py:19-54 | the nested conditionals give, for every input, the table entry of the first wind band and first cloud band whose upper bounds are not exceeded, and no value past the last wind band |
| `KLookup.Band` | TechExe/.idea/TempCalc.py:19-54 | the selected band is the first whose upper bound the value does not exceed: every lower bound is exceeded and the selected one is met |
| `KLookup.BandIsUnique` | TechExe/.idea/TempCalc.py:19-54 | those two facts determine the selected band |
| `KLookup.BoundsAreInclusive` | TechExe/.idea/TempCalc.py:19-54 | a wind speed of exactly 12, 25, 38 or 51, and a cloud cover of exactly 2, 4 or 6, falls in the band it bounds, not the next one |
| `KLookup.KConstantWithinBands` | TechExe/.idea/TempCalc.py:19-54 | K depends on wind speed and cloud cover only through the selected bands |
| `KLookup.UndefinedAboveWindLimit` | TechExe/.idea/TempCalc.py:46-56 | any wind speed above 51 gives no K, for every cloud cover |
| `KLookup.KMonotoneInCloud` | TechExe/.idea/TempCalc.py:19-54 | for a fixed wind speed up to 51, more cloud never lowers K |
| `KLookup.KMonotoneInWind` | TechExe/.idea/TempCalc.py:19-54 | for a fixed cloud cover, a higher wind speed up to 51 never lowers K |
| `KLookup.KExamples` | TechExe/.idea/tests.py:14-19 | the sample lookups (10,2), (15,4), (30,6), (40,8) and (60,8), plus lookups exactly on the wind-band bounds |
| `Predictor.MinTemp` | TechExe/.idea/TempCalc.py:62-68 | the prediction is missing exactly when K is (wind speed above 51), and otherwise lies within the K range around 0.316 T + 0.548 D - 1.24 |
| `Predictor.ActualMinTemp` | TechExe/.idea/TempCalc.py:71-73 | the "actual" minimum lies between the smaller and the larger of midday temperature and dew point, shifted down by K |
| `Predictor.MinTempShiftsWithK` | TechExe/.idea/TempCalc.py:68 | two predictions from the same T and D differ by exactly the difference of their K values |
| `Predictor.MinTempMonotone` | TechExe/.idea/TempCalc.py:68 | a higher midday temperature or dew point never lowers the prediction |
| `Predictor.PredictionMinusActual` | TechExe/.idea/TempCalc.py:62-73 | with the same K in both formulas, prediction minus "actual" is 0.048 D - 0.184 T - 1.24 + 2 K |
| `Predictor.FormulaExamples` | TechExe/.idea/tests.py:21-32 | the prediction for (20, 10, 10, 2), the missing prediction for wind 60, and "actual" (20, 10, -2.2) = 17.2 |
| `ErrorMetrics.AbsError` | TechExe/.idea/TempCalc.py:78 | the absolute error is non-negative and is one of the two differences |
| `ErrorMetrics.SquaredError` | TechExe/.idea/TempCalc.py:79 | the squared error is non-negative and equals the absolute error squared |
| `ErrorMetrics.Mean` | TechExe/.idea/TempCalc.py:139-140 | the mean is defined exactly for a non-empty column |
| `ErrorMetrics.CalculateErrors` | TechExe/.idea/TempCalc.py:76-80 | fills the two error columns, one entry per row in row order, leaving the temperature columns unchanged |
| `ErrorMetrics.ErrorColumns` | TechExe/.idea/TempCalc.py:78-79 | both error columns keep the row count, are non-negative, and the squared column is the absolute column squared element by element |
| `ErrorMetrics.SumNonNegative` | TechExe/.idea/TempCalc.py:139-140 | a sum of non-negative errors is non-negative |
| `ErrorMetrics.MeanNonNegative` | TechExe/.idea/TempCalc.py:139-140 | the mean of a non-empty non-negative column is non-negative |
| `ErrorMetrics.DeviationExpansion` | TechExe/.idea/TempCalc.py:139-140 | the sum of squared deviations from any a is sum x^2 - 2 a sum x + n a^2 and is non-negative |
| `ErrorMetrics.MeanSquareAtLeastSquaredMean` | TechExe/.idea/TempCalc.py:139-140 | the mean of the squares of a non-empty column is at least its mean squared |
| `ErrorMetrics.MseAtLeastMaeSquared` | TechExe/.idea/TempCalc.py:139-140 | on a non-empty table MAE >= 0, MSE >= 0 and MSE >= MAE^2 |
| `ErrorMetrics.RmseAtLeastMae` | TechExe/.idea/TempCalc.py:139-141 | any non-negative r with r^2 = MSE, which is what the RMSE is, is at least the MAE |
| `ErrorMetrics.ErrorExamples` | TechExe/.idea/tests.py:34-50 | predicted [10, 12, 15] against actual [11, 13, 14] gives absolute and squared errors [1, 1, 1], and their mean is 1 |
| `Pipeline.FirstUndefinedK` | TechExe/.idea/TempCalc.py:129-133 | the row where the "actual" column stops: every earlier row has wind speed <= 51 and it, if any, has wind speed above 51 |
| `Pipeline.FirstUndefinedIsUnique` | TechExe/.idea/TempCalc.py:129-133 | that row is determined by those two facts |
| `Pipeline.Transform` | TechExe/.idea/TempCalc.py:123-133 | both temperature columns are produced, one entry per row, exactly when every wind speed is at most 51 |
| `Pipeline.ApplyFormulas` | TechExe/.idea/TempCalc.py:123-133 | the two column-wise passes (predicted with missing values kept, then "actual", stopping at the first undefined K) compute the row-wise transform |
| `Pipeline.RunPipeline` | TechExe/.idea/TempCalc.py:123-140 | the transform, the in-place error columns and the two means compute the pipeline result |
| `Pipeline.RunSucceedsIff` | TechExe/.idea/TempCalc.py:123-151 | the pipeline completes exactly when every row's wind speed is at most 51 |
| `Pipeline.RunFailsAtFirstUndefinedRow` | TechExe/.idea/TempCalc.py:129-151 | a failed run names the first row, in table order, whose K is undefined |
| `Pipeline.RunRow` | TechExe/.idea/TempCalc.py:123-136 | on success each row's prediction, "actual" minimum (with the same K), absolute and squared error sit at that row's position, and their difference has the closed form 0.048 D - 0.184 T - 1.24 + 2 K |
| `Pipeline.RunMetrics` | TechExe/.idea/TempCalc.py:136-140 | on success MAE and MSE are defined exactly for a non-empty table, MAE >= 0 and MSE >= MAE^2 |

## Left out

- File existence check, CSV loading and the column names of the input file (TempCalc.py:113-120): I/O. The model starts from a sequence of observation rows.
- Logging configuration and every log line, including the metric lines rounded to 2 decimals (TempCalc.py:9, 58, 66, 114, 120, 143-145, 151): observability only.
- `plot_results` (TempCalc.py:83-108): chart rendering.
- RMSE (TempCalc.py:99, 141): the square root is a foreign numeric call; it is stated only abstractly, as a non-negative r with r^2 = MSE (`ErrorMetrics.RmseAtLeastMae`).
- IEEE floating-point rounding: all arithmetic is exact over `real`, so the decimal constants are exact and the sample values hold exactly rather than to 2 decimal places.
- NaN inputs and pandas' NaN-skipping means: the model has no NaN; a missing value is an explicit `Option`.
- The `except` branch of `get_k_value` (TempCalc.py:57-59): it only fires for non-numeric inputs, which real-typed inputs exclude.
- The top-level `except` that logs and swallows a pipeline failure (TempCalc.py:150-151): represented only by the `Failure` result of the pipeline.
- Empty tables: the means of an empty column are `None` (pandas' NaN); how `DataFrame.apply` itself behaves on an empty frame depends on the pandas version and is not modelled.
- Running the pipeline twice on the same input gives the same metrics because every member of the model is a function of its inputs; there is no separate statement of it.
