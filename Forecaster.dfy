/** The forecast trainer (`src/model/train_forecaster.py`): per-state loads
    grouped from the canonical records, and for each state the bundle built
    from what the forecasting library returns. The library itself (history
    simulation, fitting, cross-validation, prediction) is a parameter. */
module Forecaster {
  import opened Wrappers
  import opened Numeric
  import opened Text
  import opened Ordering
  import opened Grouping
  import Ingest

  datatype Trend = Increasing | Stable

  /** One state's entry of the exported `forecasts` dictionary. */
  datatype Bundle = Bundle(values: seq<int>, accuracy: real, trend: Trend)

  /** What the forecasting library gives back for one state: the predicted
      points (history followed by three future months) and the MAPE of the
      first cross-validation row, `None` when cross-validation raises. */
  datatype ProphetRun = ProphetRun(yhat: seq<real>, mape: Option<real>)

  /** The accuracy used when cross-validation raises. */
  const FallbackAccuracy: real := 94.1

  /** `100 - mape * 100`, or the fallback. */
  function RawAccuracy(mape: Option<real>): (a: real)
    ensures mape.None? ==> a == FallbackAccuracy
    ensures mape.Some? ==> a + mape.value * 100.0 == 100.0
  {
    match mape
    case None => FallbackAccuracy
    case Some(m) => 100.0 - m * 100.0
  }

  /** `round(max(85, min(98.2, raw)), 1)`. */
  function ReportedAccuracy(raw: real): (r: real)
    ensures 85.0 <= r <= 98.2
    ensures raw <= 85.0 ==> r == 85.0
    ensures 98.2 <= raw ==> r == 98.2
    ensures 85.0 <= raw <= 98.2 ==> raw - 0.05 <= r <= raw + 0.05
  {
    var c := Clamp(raw, 85.0, 98.2);
    RoundPlacesBetween(c, 10, 850, 982);
    if c == 85.0 then RoundHalfEvenOfInteger(850); RoundPlaces(c, 10)
    else if c == 98.2 then RoundHalfEvenOfInteger(982); RoundPlaces(c, 10)
    else RoundPlaces(c, 10)
  }

  /** A higher raw accuracy is never reported lower. */
  lemma ReportedAccuracyMonotone(a: real, b: real)
    requires a <= b
    ensures ReportedAccuracy(a) <= ReportedAccuracy(b)
  {
    var ca := Clamp(a, 85.0, 98.2);
    var cb := Clamp(b, 85.0, 98.2);
    RoundHalfEvenMonotone(ca * 10 as real, cb * 10 as real);
    var ra := RoundPlaces(ca, 10);
    var rb := RoundPlaces(cb, 10);
    assert ra * 10.0 <= rb * 10.0;
  }

  /** The fallback accuracy is reported as it is. */
  lemma FallbackReportedUnchanged()
    ensures ReportedAccuracy(RawAccuracy(None)) == FallbackAccuracy
  {
    RoundHalfEvenOfInteger(941);
    assert Clamp(94.1, 85.0, 98.2) * 10 as real == 941 as real;
  }

  /** `clip(lower=0).round().astype(int)` on one predicted point. */
  function ClipRound(y: real): (n: int)
    ensures n >= 0
    ensures y <= 0.0 ==> n == 0
    ensures 0.0 <= y ==> y - 0.5 <= n as real <= y + 0.5
  {
    if y < 0.0 then RoundHalfEvenOfInteger(0); RoundHalfEven(0.0)
    else RoundHalfEven(y)
  }

  lemma ClipRoundMonotone(x: real, y: real)
    requires x <= y
    ensures ClipRound(x) <= ClipRound(y)
  {
    var cx := if x < 0.0 then 0.0 else x;
    var cy := if y < 0.0 then 0.0 else y;
    RoundHalfEvenMonotone(cx, cy);
    RoundHalfEvenOfInteger(0);
  }

  /** `forecast.tail(3)['yhat']` clipped and rounded: the last (up to) three
      points, in order. */
  function LastValues(yhat: seq<real>): (vals: seq<int>)
    ensures |vals| == if |yhat| < 3 then |yhat| else 3
    ensures forall i :: 0 <= i < |vals| ==> vals[i] == ClipRound(yhat[|yhat| - |vals| + i])
    ensures forall i :: 0 <= i < |vals| ==> vals[i] >= 0
  {
    var k := if |yhat| < 3 then |yhat| else 3;
    var tail := yhat[|yhat| - k..];
    seq(k, i requires 0 <= i < k => ClipRound(tail[i]))
  }

  /** `"INCREASING" if vals[-1] > vals[0] else "STABLE"`. */
  function TrendOf(vals: seq<int>): (t: Trend)
    requires vals != []
    ensures t == Increasing <==> vals[|vals| - 1] > vals[0]
    ensures t == Stable <==> vals[|vals| - 1] <= vals[0]
  {
    if vals[|vals| - 1] > vals[0] then Increasing else Stable
  }

  /** The bundle of one state; `None` when there is no predicted point, where
      `vals[-1]` raises. */
  function BuildBundle(run: ProphetRun): (b: Option<Bundle>)
    ensures b.None? <==> run.yhat == []
  {
    var vals := LastValues(run.yhat);
    if vals == [] then None
    else Some(Bundle(vals, ReportedAccuracy(RawAccuracy(run.mape)), TrendOf(vals)))
  }

  /** What a built bundle holds: the last (up to three) predicted points
      clipped and rounded, an accuracy in [85, 98.2] taken from the MAPE or
      the fallback, and a rising trend exactly when the last of those values
      exceeds the first. */
  lemma BundleContents(run: ProphetRun)
    requires run.yhat != []
    ensures var b := BuildBundle(run).value;
            && b.values == LastValues(run.yhat)
            && 1 <= |b.values| <= 3
            && (forall i :: 0 <= i < |b.values| ==> b.values[i] >= 0)
            && b.accuracy == ReportedAccuracy(RawAccuracy(run.mape))
            && 85.0 <= b.accuracy <= 98.2
            && (b.trend == Increasing <==> ClipRound(run.yhat[|run.yhat| - 1]) > ClipRound(run.yhat[|run.yhat| - |b.values|]))
  {
  }

  /** When the last predicted point is no higher than the first of the
      reported ones, the trend is stable. */
  lemma StableWhenNotRising(run: ProphetRun)
    requires run.yhat != []
    requires var k := if |run.yhat| < 3 then |run.yhat| else 3;
             run.yhat[|run.yhat| - 1] <= run.yhat[|run.yhat| - k]
    ensures BuildBundle(run).value.trend == Stable
  {
    var k := if |run.yhat| < 3 then |run.yhat| else 3;
    ClipRoundMonotone(run.yhat[|run.yhat| - 1], run.yhat[|run.yhat| - k]);
  }

  /** The (state, mobile update volume) column pair of the canonical records. */
  function StateVolumes(records: seq<Ingest.CanonicalRecord>): (r: seq<(string, int)>)
    ensures |r| == |records|
    ensures forall i :: 0 <= i < |records| ==> r[i] == (records[i].state, records[i].mobileUpdateVolume)
  {
    seq(|records|, i requires 0 <= i < |records| => (records[i].state, records[i].mobileUpdateVolume))
  }

  /** The state's load handed to the library: the sum of its records'
      mobile update volumes. */
  function StateLoad(records: seq<Ingest.CanonicalRecord>, state: string): int {
    SumFor(StateVolumes(records), state)
  }

  /** Every state of the records gets a bundle. */
  ghost predicate AllBuild(records: seq<Ingest.CanonicalRecord>, prophet: (string, int) -> ProphetRun) {
    forall s :: s in KeysOf(StateVolumes(records)) ==> BuildBundle(prophet(s, StateLoad(records, s))).Some?
  }

  /** The grouped states in the order pandas iterates them: ascending, each
      once. */
  function SortedStates(pairs: seq<(string, int)>): (states: seq<string>)
    ensures StrictlySorted(states, StrLess)
    ensures forall s :: s in states <==> s in KeysOf(pairs)
  {
    SortStrings(KeySeq(pairs))
  }

  /** The loop of `main` over `state_loads`: for each state, in the given
      order, build its bundle from the state's load, or abort the whole run
      when one cannot be built. */
  method BuildEach(states: seq<string>, loads: map<string, int>, build: (string, int) -> Option<Bundle>)
    returns (r: Option<map<string, Bundle>>)
    requires forall k :: 0 <= k < |states| ==> states[k] in loads
    ensures r.Some? <==> forall k :: 0 <= k < |states| ==> build(states[k], loads[states[k]]).Some?
    ensures r.Some? ==> forall s :: s in r.value <==> s in states
    ensures r.Some? ==> forall s :: s in r.value ==> s in loads && Some(r.value[s]) == build(s, loads[s])
  {
    var forecasts: map<string, Bundle> := map[];
    for i := 0 to |states|
      invariant forall k :: 0 <= k < i ==> states[k] in forecasts
      invariant forall s :: s in forecasts ==> s in states[..i]
      invariant forall s :: s in forecasts ==> s in loads && Some(forecasts[s]) == build(s, loads[s])
    {
      var state := states[i];
      match build(state, loads[state])
      case None =>
        return None;
      case Some(bundle) =>
        forecasts := forecasts[state := bundle];
    }
    return Some(forecasts);
  }

  /** `main`'s loop on grouped (state, volume) pairs: the states in ascending
      order, each with the sum of its volumes; the run succeeds exactly when
      every state's bundle can be built. */
  method ForecastLoads(pairs: seq<(string, int)>, build: (string, int) -> Option<Bundle>)
    returns (r: Option<map<string, Bundle>>)
    ensures r.Some? <==> forall s :: s in KeysOf(pairs) ==> build(s, SumFor(pairs, s)).Some?
    ensures r.Some? ==> r.value.Keys == KeysOf(pairs)
    ensures r.Some? ==> forall s :: s in r.value ==> Some(r.value[s]) == build(s, SumFor(pairs, s))
  {
    var stateLoads := GroupSum(pairs);
    var states := SortedStates(pairs);
    r := BuildEach(states, stateLoads, build);
    if r.None? {
      var k :| 0 <= k < |states| && build(states[k], stateLoads[states[k]]).None?;
      assert states[k] in KeysOf(pairs);
    }
  }

  /** `main`: group the records' volumes by state and build every state's
      bundle from the library's run on that state's load. */
  method TrainForecasts(records: seq<Ingest.CanonicalRecord>, prophet: (string, int) -> ProphetRun)
    returns (r: Option<map<string, Bundle>>)
    ensures r.Some? <==> AllBuild(records, prophet)
    ensures r.Some? ==> r.value.Keys == KeysOf(StateVolumes(records))
    ensures r.Some? ==> forall s :: s in r.value ==> Some(r.value[s]) == BuildBundle(prophet(s, StateLoad(records, s)))
  {
    r := ForecastLoads(StateVolumes(records), (s, v) => BuildBundle(prophet(s, v)));
  }

  /** Every exported bundle has an accuracy in [85, 98.2] and one to three
      non-negative values. */
  lemma TrainedBundlesBounded(records: seq<Ingest.CanonicalRecord>, prophet: (string, int) -> ProphetRun,
                              forecasts: map<string, Bundle>, s: string)
    requires forall t :: t in forecasts ==> Some(forecasts[t]) == BuildBundle(prophet(t, StateLoad(records, t)))
    requires s in forecasts
    ensures 85.0 <= forecasts[s].accuracy <= 98.2
    ensures 1 <= |forecasts[s].values| <= 3
    ensures forall i :: 0 <= i < |forecasts[s].values| ==> forecasts[s].values[i] >= 0
  {
    var run := prophet(s, StateLoad(records, s));
    assert BuildBundle(run) == Some(forecasts[s]);
    BundleContents(run);
  }
}
