/**
 * The correction constant K of the overnight minimum temperature formula,
 * chosen by a step table over wind speed and cloud cover (oktas).
 */
module KLookup {
  import opened Results

  /** Upper bounds (inclusive) of the four wind-speed bands for which K is defined. */
  const WindBounds: seq<real> := [12.0, 25.0, 38.0, 51.0]

  /** Upper bounds (inclusive) of the first three cloud-cover bands; above 6 is the last band. */
  const CloudBounds: seq<real> := [2.0, 4.0, 6.0]

  /** K by wind band (rows) and cloud band (columns). */
  const KTable: seq<seq<real>> := [
    [-2.2, -1.7, -0.6, 0.0],
    [-1.1,  0.0,  0.6, 1.1],
    [-0.6,  0.0,  0.6, 1.1],
    [ 1.1,  1.7,  2.8, 3.5]
  ]

  /**
   * The lookup as the nested conditionals of the source: the first wind band
   * and then the first cloud band whose upper bound is not exceeded; no value
   * above the last wind bound.
   */
  function GetK(windSpeed: real, cloudCover: real): (k: Option<real>)
    ensures k.Some? <==> windSpeed <= 51.0
    ensures k.Some? ==> -2.2 <= k.value <= 3.5
  {
    if windSpeed <= 12.0 then
      if cloudCover <= 2.0 then Some(-2.2)
      else if cloudCover <= 4.0 then Some(-1.7)
      else if cloudCover <= 6.0 then Some(-0.6)
      else Some(0.0)
    else if windSpeed <= 25.0 then
      if cloudCover <= 2.0 then Some(-1.1)
      else if cloudCover <= 4.0 then Some(0.0)
      else if cloudCover <= 6.0 then Some(0.6)
      else Some(1.1)
    else if windSpeed <= 38.0 then
      if cloudCover <= 2.0 then Some(-0.6)
      else if cloudCover <= 4.0 then Some(0.0)
      else if cloudCover <= 6.0 then Some(0.6)
      else Some(1.1)
    else if windSpeed <= 51.0 then
      if cloudCover <= 2.0 then Some(1.1)
      else if cloudCover <= 4.0 then Some(1.7)
      else if cloudCover <= 6.0 then Some(2.8)
      else Some(3.5)
    else
      None
  }

  /**
   * The index of the first band whose upper bound `x` does not exceed, or
   * `|bounds|` when `x` lies above every bound.
   */
  function Band(bounds: seq<real>, x: real): (i: nat)
    ensures i <= |bounds|
    ensures forall j :: 0 <= j < i ==> bounds[j] < x
    ensures i < |bounds| ==> x <= bounds[i]
  {
    if bounds == [] then 0
    else if x <= bounds[0] then 0
    else 1 + Band(bounds[1..], x)
  }

  /** The reference definition of K: an explicit table indexed by the selected bands. */
  function TableK(windSpeed: real, cloudCover: real): Option<real>
  {
    var w := Band(WindBounds, windSpeed);
    if w == |WindBounds| then None else Some(KTable[w][Band(CloudBounds, cloudCover)])
  }

  /** A band index is determined by its two defining facts: its bound is met and every lower bound is exceeded. */
  lemma BandIsUnique(bounds: seq<real>, x: real, i: nat)
    requires i <= |bounds|
    requires forall j :: 0 <= j < i ==> bounds[j] < x
    requires i < |bounds| ==> x <= bounds[i]
    ensures Band(bounds, x) == i
  {
  }

  /** The nested conditionals and the explicit table agree on every input. */
  lemma {:induction false} GetKMatchesTable(windSpeed: real, cloudCover: real)
    ensures GetK(windSpeed, cloudCover) == TableK(windSpeed, cloudCover)
  {
    var w := if windSpeed <= 12.0 then 0 else if windSpeed <= 25.0 then 1
             else if windSpeed <= 38.0 then 2 else if windSpeed <= 51.0 then 3 else 4;
    var c := if cloudCover <= 2.0 then 0 else if cloudCover <= 4.0 then 1
             else if cloudCover <= 6.0 then 2 else 3;
    BandIsUnique(WindBounds, windSpeed, w);
    BandIsUnique(CloudBounds, cloudCover, c);
  }

  /** Every band is closed above: a value equal to a band's bound selects that band, not the next. */
  lemma {:induction false} BoundsAreInclusive(i: nat, j: nat)
    requires i < |WindBounds| && j < |CloudBounds|
    ensures Band(WindBounds, WindBounds[i]) == i
    ensures Band(CloudBounds, CloudBounds[j]) == j
  {
    BandIsUnique(WindBounds, WindBounds[i], i);
    BandIsUnique(CloudBounds, CloudBounds[j], j);
  }

  /** K depends on the inputs only through the selected bands. */
  lemma {:induction false} KConstantWithinBands(w1: real, c1: real, w2: real, c2: real)
    requires Band(WindBounds, w1) == Band(WindBounds, w2)
    requires Band(CloudBounds, c1) == Band(CloudBounds, c2)
    ensures GetK(w1, c1) == GetK(w2, c2)
  {
    GetKMatchesTable(w1, c1);
    GetKMatchesTable(w2, c2);
  }

  /** K is undefined for every wind speed above 51, whatever the cloud cover. */
  lemma UndefinedAboveWindLimit(windSpeed: real, cloudCover: real)
    requires windSpeed > 51.0
    ensures GetK(windSpeed, cloudCover) == None
  {
  }

  /** For a fixed wind band, more cloud never lowers K. */
  lemma KMonotoneInCloud(windSpeed: real, c1: real, c2: real)
    requires windSpeed <= 51.0 && c1 <= c2
    ensures GetK(windSpeed, c1).value <= GetK(windSpeed, c2).value
  {
  }

  /** For a fixed cloud band, more wind (up to 51) never lowers K. */
  lemma KMonotoneInWind(w1: real, w2: real, cloudCover: real)
    requires w1 <= w2 <= 51.0
    ensures GetK(w1, cloudCover).value <= GetK(w2, cloudCover).value
  {
  }

  /** Sample lookups, including values on the band boundaries. */
  lemma KExamples()
    ensures GetK(10.0, 2.0) == Some(-2.2)
    ensures GetK(15.0, 4.0) == Some(0.0)
    ensures GetK(30.0, 6.0) == Some(0.6)
    ensures GetK(40.0, 8.0) == Some(3.5)
    ensures GetK(60.0, 8.0) == None
    ensures GetK(12.0, 2.0) == Some(-2.2)
    ensures GetK(25.0, 7.0) == Some(1.1)
    ensures GetK(38.0, 4.0) == Some(0.0)
    ensures GetK(51.0, 6.0) == Some(2.8)
  {
  }
}
