/** The AQI of a table of daily readings: every pollutant column is mapped
    to its sub-index column, and a row's AQI is the largest sub-index that
    is defined in that row. */
module AqiAggregator {
  import opened Options
  import opened Pollutants
  import opened SubIndexCalculator

  /** One input row: a possibly missing reading per pollutant column. */
  datatype Reading = Reading(
    pm25: Option<real>, pm10: Option<real>, ozone: Option<real>,
    no2: Option<real>, so2: Option<real>, co: Option<real>)

  function Column(r: Reading, p: Pollutant): Option<real>
  {
    match p
    case PM25 => r.pm25
    case PM10 => r.pm10
    case Ozone => r.ozone
    case NO2 => r.no2
    case SO2 => r.so2
    case CO => r.co
  }

  predicate AllMissing(r: Reading)
  {
    forall p :: Column(r, p).None?
  }

  /** One output row: the readings unchanged, the six sub-index columns in
      the order of `Columns`, and the AQI. */
  datatype ScoredRow = ScoredRow(reading: Reading, subIndices: seq<Option<real>>, aqi: Option<real>)

  /** The six sub-index columns of a row, each computed by looking its
      pollutant up by name. A sub-index is defined exactly when its reading
      is present, and it is then that pollutant's score. */
  function SubIndices(r: Reading): (s: seq<Option<real>>)
    ensures |s| == |Columns|
    ensures forall k :: 0 <= k < |s| ==> (s[k].Some? <==> Column(r, Columns[k]).Some?)
    ensures forall k :: 0 <= k < |s| && s[k].Some? ==> s[k].value == SubIndex(Columns[k], Column(r, Columns[k]).value)
  {
    seq(|Columns|, k requires 0 <= k < |Columns| => CalculateSubIndex(Column(r, Columns[k]), Name(Columns[k])))
  }

  /** The largest present value, skipping missing ones; no value when every
      entry is missing. */
  function MaxDefined(xs: seq<Option<real>>): (r: Option<real>)
    ensures r.None? <==> forall k :: 0 <= k < |xs| ==> xs[k].None?
    ensures r.Some? ==> exists k :: 0 <= k < |xs| && xs[k] == r
    ensures r.Some? ==> forall k :: 0 <= k < |xs| && xs[k].Some? ==> xs[k].value <= r.value
  {
    if |xs| == 0 then None
    else
      var rest := MaxDefined(xs[1..]);
      match xs[0]
      case None => rest
      case Some(x) =>
        match rest
        case None => Some(x)
        case Some(m) => Some(if x >= m then x else m)
  }

  /** The AQI of one row: undefined exactly when all six readings are
      missing, and otherwise one of the row's sub-indices and no smaller
      than any of them. */
  function RowAqi(r: Reading): (a: Option<real>)
    ensures a.None? <==> AllMissing(r)
    ensures a.Some? ==> exists k :: 0 <= k < |Columns| && SubIndices(r)[k] == a
    ensures forall k :: 0 <= k < |Columns| && SubIndices(r)[k].Some? ==> a.Some? && SubIndices(r)[k].value <= a.value
  {
    NoSubIndexIffAllMissing(r);
    MaxDefined(SubIndices(r))
  }

  /** A row has no defined sub-index exactly when all six readings are missing. */
  lemma NoSubIndexIffAllMissing(r: Reading)
    ensures AllMissing(r) <==> forall k :: 0 <= k < |Columns| ==> SubIndices(r)[k].None?
  {
    var s := SubIndices(r);
    if forall k :: 0 <= k < |Columns| ==> s[k].None? {
      forall p
        ensures Column(r, p).None?
      {
        assert s[ColumnIndex(p)].None?;
      }
    }
  }

  /** The AQI step: one output row per input row, in the same order (no row
      is dropped, not even one whose AQI is undefined), with the readings
      unchanged, the row's six sub-index columns added, and as AQI the
      largest defined entry of those columns. */
  function CalculateAqi(rows: seq<Reading>): (out: seq<ScoredRow>)
    ensures |out| == |rows|
    ensures forall i :: 0 <= i < |rows| ==> out[i].reading == rows[i]
    ensures forall i :: 0 <= i < |rows| ==> out[i].subIndices == SubIndices(rows[i])
    ensures forall i :: 0 <= i < |rows| ==> out[i].aqi == MaxDefined(out[i].subIndices)
  {
    seq(|rows|, i requires 0 <= i < |rows| => ScoredRow(rows[i], SubIndices(rows[i]), RowAqi(rows[i])))
  }

  /** Rows are scored independently: scoring two tables one after the other
      gives the rows of scoring them joined. */
  lemma RowsIndependent(a: seq<Reading>, b: seq<Reading>)
    ensures CalculateAqi(a + b) == CalculateAqi(a) + CalculateAqi(b)
  {
    var lhs, rhs := CalculateAqi(a + b), CalculateAqi(a) + CalculateAqi(b);
    forall i | 0 <= i < |lhs|
      ensures lhs[i] == rhs[i]
    {
      if i < |a| {
        assert (a + b)[i] == a[i];
      } else {
        assert (a + b)[i] == b[i - |a|];
      }
    }
  }

  /** Raising present entries, without changing which entries are present,
      never lowers the maximum. */
  lemma {:induction false} MaxDefinedMonotone(xs: seq<Option<real>>, ys: seq<Option<real>>)
    requires |xs| == |ys|
    requires forall k :: 0 <= k < |xs| ==> (xs[k].Some? <==> ys[k].Some?)
    requires forall k :: 0 <= k < |xs| && xs[k].Some? && ys[k].Some? ==> xs[k].value <= ys[k].value
    ensures MaxDefined(xs).Some? <==> MaxDefined(ys).Some?
    ensures MaxDefined(xs).Some? ==> MaxDefined(xs).value <= MaxDefined(ys).value
  {
    if |xs| > 0 {
      MaxDefinedMonotone(xs[1..], ys[1..]);
    }
  }

  /** Higher concentrations never give a lower AQI: if every present reading
      of one row is at most the same reading of another row with the same
      readings present, its AQI is at most the other's. */
  lemma AqiMonotone(r1: Reading, r2: Reading)
    requires forall p :: Column(r1, p).Some? <==> Column(r2, p).Some?
    requires forall p :: Column(r1, p).Some? && Column(r2, p).Some? ==> Column(r1, p).value <= Column(r2, p).value
    ensures RowAqi(r1).Some? <==> RowAqi(r2).Some?
    ensures RowAqi(r1).Some? ==> RowAqi(r1).value <= RowAqi(r2).value
  {
    var xs, ys := SubIndices(r1), SubIndices(r2);
    forall k | 0 <= k < |xs| && xs[k].Some? && ys[k].Some?
      ensures xs[k].value <= ys[k].value
    {
      var p := Columns[k];
      var a, b := Column(r1, p).value, Column(r2, p).value;
      if a < b {
        Monotone(p, a, b);
      }
    }
    MaxDefinedMonotone(xs, ys);
  }

  /** The worked example: sub-indices 125/3, 40, 45, 37.5, 25 and 25 for
      PM2.5, PM10, Ozone, NO2, SO2 and CO, so the AQI is 45, from Ozone. */
  lemma WorkedExample()
    ensures var r := Reading(Some(25.0), Some(40.0), Some(45.0), Some(30.0), Some(20.0), Some(0.5));
      && SubIndices(r) == [Some(125.0 / 3.0), Some(40.0), Some(45.0), Some(37.5), Some(25.0), Some(25.0)]
      && RowAqi(r) == Some(45.0)
  {
    var r := Reading(Some(25.0), Some(40.0), Some(45.0), Some(30.0), Some(20.0), Some(0.5));
    var t := SubIndices(r);
    assert t[0] == Some(SubIndex(PM25, 25.0));
    assert t[1] == Some(SubIndex(PM10, 40.0));
    assert t[2] == Some(SubIndex(Ozone, 45.0));
    assert t[3] == Some(SubIndex(NO2, 30.0));
    assert t[4] == Some(SubIndex(SO2, 20.0));
    assert t[5] == Some(SubIndex(CO, 0.5));
  }

  /** A concentration in the open top segment drives the AQI: PM2.5 at 300
      with every other reading at 0 gives 400 + 50 * 100 / 130. */
  lemma OpenSegmentExample()
    ensures RowAqi(Reading(Some(300.0), Some(0.0), Some(0.0), Some(0.0), Some(0.0), Some(0.0)))
      == Some(400.0 + 50.0 * 100.0 / 130.0)
  {
    var r := Reading(Some(300.0), Some(0.0), Some(0.0), Some(0.0), Some(0.0), Some(0.0));
    var s := [Some(400.0 + 50.0 * 100.0 / 130.0), Some(0.0), Some(0.0), Some(0.0), Some(0.0), Some(0.0)];
    var t := SubIndices(r);
    assert t[0] == Some(SubIndex(PM25, 300.0));
    assert t[1] == Some(SubIndex(PM10, 0.0));
    assert t[2] == Some(SubIndex(Ozone, 0.0));
    assert t[3] == Some(SubIndex(NO2, 0.0));
    assert t[4] == Some(SubIndex(SO2, 0.0));
    assert t[5] == Some(SubIndex(CO, 0.0));
    assert t == s;
    assert MaxDefined(s[1..]) == Some(0.0);
  }
}
