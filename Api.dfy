/** The query side (`src/api/app.py`): the snapshot's title-case step on
    load, the name cleaning before each query, the audit resolution with its
    error statuses, the three-pillar classifier, the fixed-multiplier
    fallback forecast and the metadata grouping. Flask transport is not
    modelled: each endpoint returns its payload or an `HttpError`. */
module Api {
  import opened Wrappers
  import opened Text
  import opened Numeric
  import opened Ordering
  import Grouping
  import Ingest

  /** A snapshot record as the query side reads it. The audit takes `volume`
      from column `Mobile_Number_Updates` and `ratio` from `Gender_Female`. */
  datatype SnapshotRecord = SnapshotRecord(state: string, district: string, volume: int, ratio: real)

  /** The error answers; `InternalError` is Flask's answer to the uncaught
      `KeyError` raised when the snapshot holds no record (the frame then has
      no `State` column). */
  datatype HttpError = StateRequired | DataNotReady | StateNotFound(state: string) | DistrictNotFound | InternalError

  function StatusCode(e: HttpError): (code: int)
    ensures 400 <= code <= 503
  {
    match e
    case StateRequired => 400
    case DataNotReady => 503
    case StateNotFound(_) => 404
    case DistrictNotFound => 404
    case InternalError => 500
  }

  // ---------------------------------------------------------------------------
  // Name cleaning
  // ---------------------------------------------------------------------------

  /** `s.strip().title()`: how a query parameter is normalised, and how
      `load_data` normalises both columns. Unlike the batch side it does not
      replace `&`. */
  function NormalizeQuery(s: string): string {
    Title(Strip(s))
  }

  /** `load_data`, lines 39-40. */
  function TitleCaseRecord(r: SnapshotRecord): SnapshotRecord {
    r.(state := NormalizeQuery(r.state), district := NormalizeQuery(r.district))
  }

  /** The cleaning before each query: `State` gets `&` replaced, then strip and
      title; `District` gets strip and title. */
  function CleanRecord(r: SnapshotRecord): SnapshotRecord {
    r.(state := Title(Strip(ReplaceAmpersand(r.state))), district := Title(Strip(r.district)))
  }

  function TitleCased(rows: seq<SnapshotRecord>): (r: seq<SnapshotRecord>)
    ensures |r| == |rows| && forall i :: 0 <= i < |rows| ==> r[i] == TitleCaseRecord(rows[i])
  {
    seq(|rows|, i requires 0 <= i < |rows| => TitleCaseRecord(rows[i]))
  }

  function Cleaned(rows: seq<SnapshotRecord>): (r: seq<SnapshotRecord>)
    ensures |r| == |rows| && forall i :: 0 <= i < |rows| ==> r[i] == CleanRecord(rows[i])
  {
    seq(|rows|, i requires 0 <= i < |rows| => CleanRecord(rows[i]))
  }

  /** Loading and then cleaning a state name normalises it exactly as the
      batch side does; a district name ends up query-normalised. */
  lemma LoadThenClean(r: SnapshotRecord)
    ensures CleanRecord(TitleCaseRecord(r)) ==
            r.(state := Ingest.NormalizeLocation(r.state), district := NormalizeQuery(r.district))
  {
    var x := Strip(r.state);
    var y := Title(x);
    TitleStripped(x);
    ReplaceAmpersandStripped(y);
    StripStripped(ReplaceAmpersand(y));
    TitleShape(x);
    ReplaceAmpersandLower(y, x);
    TitleIgnoresCase(ReplaceAmpersand(y), ReplaceAmpersand(x));

    var d := Strip(r.district);
    TitleStripped(d);
    StripStripped(Title(d));
    TitleIdempotent(d);
  }

  /** A query name agrees with the batch side's normalisation of the same
      text exactly when the text has no ampersand. */
  lemma QueryMatchesBatchIffNoAmpersand(s: string)
    ensures NormalizeQuery(s) == Ingest.NormalizeLocation(s) <==> '&' !in s
  {
    if '&' in s {
      var i :| 0 <= i < |s| && s[i] == '&';
      StripKeeps(s, i);
      TitleAmpersand(Strip(s));
      assert '&' in NormalizeQuery(s);
    } else {
      if '&' in Strip(s) {
        StripSubset(s, '&');
      }
      ReplaceAmpersandNone(Strip(s));
    }
  }

  lemma NormalizeQueryIdempotent(s: string)
    ensures NormalizeQuery(NormalizeQuery(s)) == NormalizeQuery(s)
  {
    TitleStripped(Strip(s));
    StripStripped(Title(Strip(s)));
    TitleIdempotent(Strip(s));
  }

  /** The snapshot frame that `load_data` returns and the endpoints then
      rewrite in place. */
  class SnapshotFrame {
    var rows: seq<SnapshotRecord>

    constructor (rows: seq<SnapshotRecord>)
      ensures this.rows == rows
    {
      this.rows := rows;
    }

    /** `load_data`, lines 38-40: title-case both columns of a non-empty frame. */
    method TitleCaseLocations()
      modifies this
      ensures rows == if old(rows) == [] then [] else TitleCased(old(rows))
    {
      if rows != [] {
        rows := TitleCased(rows);
      }
    }

    /** Lines 86-87 and 116-117: overwrite `State` and `District` with their
        cleaned forms. */
    method CleanLocations()
      modifies this
      ensures rows == Cleaned(old(rows))
    {
      rows := Cleaned(rows);
    }
  }

  /** `load_data`: `None` when the snapshot is missing or unreadable. */
  method LoadData(snapshot: Option<seq<SnapshotRecord>>) returns (df: SnapshotFrame?)
    ensures snapshot.None? <==> df == null
    ensures df != null ==> fresh(df) && df.rows == (if snapshot.value == [] then [] else TitleCased(snapshot.value))
  {
    if snapshot.None? {
      return null;
    }
    df := new SnapshotFrame(snapshot.value);
    df.TitleCaseLocations();
  }

  // ---------------------------------------------------------------------------
  // The three pillars
  // ---------------------------------------------------------------------------

  datatype Status = Safe | Critical | Warning

  datatype SecurityMessage = HighAnomaly(updates: int) | NormalActivity

  /** "Low Female Enrolment (<percent>%)" or "Gender Ratio Healthy.". */
  datatype InclusivityMessage = LowFemaleEnrolment(percent: int) | GenderRatioHealthy

  datatype SecurityCard = SecurityCard(status: Status, message: SecurityMessage, mobileUpdateVolume: int)

  datatype InclusivityCard = InclusivityCard(status: Status, message: InclusivityMessage, femaleEnrolmentPct: real)

  datatype EfficiencyCard = EfficiencyCard(status: Status, biometricTrafficTrend: seq<int>)

  datatype Cards = Cards(security: SecurityCard, inclusivity: InclusivityCard, efficiency: EfficiencyCard)

  /** `analyze_logic`. */
  function AnalyzeLogic(volume: int, ratio: real, forecast: seq<int>): (c: Cards)
    ensures c.security.status == Critical <==> volume > 1000
    ensures c.security.status == Safe <==> volume <= 1000
    ensures c.security.message == (if volume > 1000 then HighAnomaly(volume) else NormalActivity)
    ensures c.security.mobileUpdateVolume == volume
    ensures c.inclusivity.status == Warning <==> ratio < 0.40
    ensures c.inclusivity.status == Safe <==> ratio >= 0.40
    ensures c.inclusivity.message == (if ratio < 0.40 then LowFemaleEnrolment(TruncToInt(ratio * 100.0)) else GenderRatioHealthy)
    ensures c.inclusivity.femaleEnrolmentPct * 100.0 == RoundHalfEven(ratio * 100.0) as real
    ensures c.efficiency == EfficiencyCard(Safe, forecast)
  {
    var securityStatus := if volume > 1000 then Critical else Safe;
    var securityMessage := if securityStatus == Critical then HighAnomaly(volume) else NormalActivity;
    var inclusivityStatus := if ratio < 0.40 then Warning else Safe;
    var inclusivityMessage :=
      if inclusivityStatus == Warning then LowFemaleEnrolment(TruncToInt(ratio * 100.0)) else GenderRatioHealthy;
    Cards(SecurityCard(securityStatus, securityMessage, volume),
          InclusivityCard(inclusivityStatus, inclusivityMessage, RoundPlaces(ratio, 100)),
          EfficiencyCard(Safe, forecast))
  }

  // ---------------------------------------------------------------------------
  // Fallback forecast
  // ---------------------------------------------------------------------------

  /** `[int(v * 1.05), int(v * 1.1), int(v * 1.15)]` for a whole state. */
  function StateFallback(volume: int): seq<int> {
    [TruncToInt(volume as real * 1.05), TruncToInt(volume as real * 1.1), TruncToInt(volume as real * 1.15)]
  }

  /** `[int(v * 1.02), int(v * 1.05), int(v * 1.08)]` for one district. */
  function DistrictFallback(volume: int): seq<int> {
    [TruncToInt(volume as real * 1.02), TruncToInt(volume as real * 1.05), TruncToInt(volume as real * 1.08)]
  }

  /** Truncating a product with a factor of at least 1 keeps a count at least
      as large, and a larger factor never gives less. */
  lemma {:induction false} TruncGrowth(v: int, f: real, g: real)
    requires v >= 0 && 1.0 <= f <= g
    ensures v <= TruncToInt(v as real * f) <= TruncToInt(v as real * g)
  {
    var a := v as real * f;
    var b := v as real * g;
    assert v as real <= a <= b by {
      assert v as real * (g - f) >= 0.0;
      assert v as real * (f - 1.0) >= 0.0;
    }
  }

  /** For a non-negative volume both fallbacks are three values that never
      decrease and never fall below the volume. */
  lemma FallbackGrowth(volume: int)
    requires volume >= 0
    ensures var s := StateFallback(volume);
            |s| == 3 && volume <= s[0] <= s[1] <= s[2]
    ensures var d := DistrictFallback(volume);
            |d| == 3 && volume <= d[0] <= d[1] <= d[2]
  {
    TruncGrowth(volume, 1.05, 1.1);
    TruncGrowth(volume, 1.1, 1.15);
    TruncGrowth(volume, 1.02, 1.05);
    TruncGrowth(volume, 1.05, 1.08);
  }

  // ---------------------------------------------------------------------------
  // Audit resolution
  // ---------------------------------------------------------------------------

  datatype AuditReport = AuditReport(location: string, cards: Cards)

  /** `df[df['State'] == state]`, order kept. */
  function RowsOfState(rows: seq<SnapshotRecord>, state: string): (r: seq<SnapshotRecord>)
    ensures forall x :: x in r <==> x in rows && x.state == state
    ensures |r| <= |rows|
  {
    if rows == [] then []
    else if rows[0].state == state then [rows[0]] + RowsOfState(rows[1..], state)
    else RowsOfState(rows[1..], state)
  }

  /** Filtering a concatenation filters each part, order kept. */
  lemma {:induction false} RowsOfStateAppend(a: seq<SnapshotRecord>, b: seq<SnapshotRecord>, state: string)
    ensures RowsOfState(a + b, state) == RowsOfState(a, state) + RowsOfState(b, state)
  {
    if a == [] {
      assert a + b == b;
    } else {
      assert (a + b)[0] == a[0];
      assert (a + b)[1..] == a[1..] + b;
      RowsOfStateAppend(a[1..], b, state);
      if a[0].state == state {
        assert [a[0]] + (RowsOfState(a[1..], state) + RowsOfState(b, state)) ==
               ([a[0]] + RowsOfState(a[1..], state)) + RowsOfState(b, state);
      }
    }
  }

  /** One record is kept exactly when it is of the state. */
  lemma RowsOfStateSingle(x: SnapshotRecord, state: string)
    ensures RowsOfState([x], state) == if x.state == state then [x] else []
  {
    assert [x][1..] == [];
  }

  /** A district left out, empty, or whose lower-case form is "all", "none"
      or "" asks for the whole state. */
  predicate IsWholeRegion(district: Option<string>) {
    district.None? || district.value == "" || Lower(district.value) in ["all", "none", ""]
  }

  function TotalVolume(rows: seq<SnapshotRecord>): int {
    if rows == [] then 0 else rows[0].volume + TotalVolume(rows[1..])
  }

  function TotalRatio(rows: seq<SnapshotRecord>): real {
    if rows == [] then 0.0 else rows[0].ratio + TotalRatio(rows[1..])
  }

  /** `mean()`: the unweighted mean of the ratios. */
  function MeanRatio(rows: seq<SnapshotRecord>): real
    requires rows != []
  {
    TotalRatio(rows) / |rows| as real
  }

  /** `match_df.iloc[0]`: the first of the state's rows in `district`, if any. */
  function FirstOfDistrict(rows: seq<SnapshotRecord>, district: string): Option<SnapshotRecord> {
    if rows == [] then None
    else if rows[0].district == district then Some(rows[0])
    else FirstOfDistrict(rows[1..], district)
  }

  /** Lines 120-142 on the cleaned rows. */
  function Resolve(targetState: string, targetDistrict: Option<string>, rows: seq<SnapshotRecord>): Result<AuditReport, HttpError> {
    var stateRows := RowsOfState(rows, NormalizeQuery(targetState));
    if stateRows == [] then Failure(StateNotFound(targetState))
    else if IsWholeRegion(targetDistrict) then
      var volume := TotalVolume(stateRows);
      Success(AuditReport("All " + targetState, AnalyzeLogic(volume, MeanRatio(stateRows), StateFallback(volume))))
    else
      match FirstOfDistrict(stateRows, NormalizeQuery(targetDistrict.value))
      case None => Failure(DistrictNotFound)
      case Some(record) =>
        Success(AuditReport(record.district, AnalyzeLogic(record.volume, record.ratio, DistrictFallback(record.volume))))
  }

  /** `get_audit_report` as a function of its two parameters and of the
      snapshot (`None` when the file is missing or unreadable). */
  function Audit(targetState: Option<string>, targetDistrict: Option<string>,
                 snapshot: Option<seq<SnapshotRecord>>): Result<AuditReport, HttpError>
  {
    if targetState.None? || targetState.value == "" then Failure(StateRequired)
    else if snapshot.None? then Failure(DataNotReady)
    else if snapshot.value == [] then Failure(InternalError)
    else Resolve(targetState.value, targetDistrict, Cleaned(TitleCased(snapshot.value)))
  }

  /** `get_audit_report`: check the state parameter, load, clean the frame in
      place, then filter and aggregate. */
  method GetAuditReport(targetState: Option<string>, targetDistrict: Option<string>,
                        snapshot: Option<seq<SnapshotRecord>>)
    returns (r: Result<AuditReport, HttpError>)
    ensures r == Audit(targetState, targetDistrict, snapshot)
  {
    if targetState.None? || targetState.value == "" {
      return Failure(StateRequired);
    }
    var df := LoadData(snapshot);
    if df == null {
      return Failure(DataNotReady);
    }
    if df.rows == [] {
      return Failure(InternalError);
    }
    df.CleanLocations();
    r := Resolve(targetState.value, targetDistrict, df.rows);
  }

  /** `match_df.iloc[0]` read straight off the cleaned frame: the index of
      the first record of `state` and `district`, if any. */
  function FirstRecord(rows: seq<SnapshotRecord>, state: string, district: string): (r: Option<nat>)
    ensures r.Some? ==> r.value < |rows| && rows[r.value].state == state && rows[r.value].district == district
    ensures r.Some? ==> forall j :: 0 <= j < r.value ==> !(rows[j].state == state && rows[j].district == district)
    ensures r.None? ==> forall j :: 0 <= j < |rows| ==> !(rows[j].state == state && rows[j].district == district)
  {
    if rows == [] then None
    else if rows[0].state == state && rows[0].district == district then Some(0)
    else match FirstRecord(rows[1..], state, district)
      case None => None
      case Some(i) => Some(i + 1)
  }

  /** Filtering by state and then taking the first row of the district finds
      the first record of that state and district in the whole frame. */
  lemma {:induction false} FilterThenFirst(rows: seq<SnapshotRecord>, state: string, district: string)
    ensures FirstOfDistrict(RowsOfState(rows, state), district) ==
            match FirstRecord(rows, state, district)
            case None => None
            case Some(j) => Some(rows[j])
  {
    if rows != [] {
      FilterThenFirst(rows[1..], state, district);
      var rest := RowsOfState(rows[1..], state);
      var g := FirstRecord(rows[1..], state, district);
      if rows[0].state == state && rows[0].district == district {
        assert FirstRecord(rows, state, district) == Some(0);
        assert FirstOfDistrict([rows[0]] + rest, district) == Some(rows[0]);
      } else {
        assert FirstRecord(rows, state, district) == if g.None? then None else Some(g.value + 1);
        if rows[0].state == state {
          assert ([rows[0]] + rest)[1..] == rest;
          assert FirstOfDistrict(RowsOfState(rows, state), district) == FirstOfDistrict(rest, district);
        } else {
          assert FirstOfDistrict(RowsOfState(rows, state), district) == FirstOfDistrict(rest, district);
        }
      }
    }
  }

  /** The (state, volume) pairs of the cleaned frame. */
  function Loads(rows: seq<SnapshotRecord>): (r: seq<(string, int)>)
    ensures |r| == |rows| && forall i :: 0 <= i < |rows| ==> r[i] == (rows[i].state, rows[i].volume)
  {
    seq(|rows|, i requires 0 <= i < |rows| => (rows[i].state, rows[i].volume))
  }

  /** Summing the filtered volumes is grouping the volumes by state. */
  lemma {:induction false} StateVolumeIsGroupSum(rows: seq<SnapshotRecord>, state: string)
    ensures TotalVolume(RowsOfState(rows, state)) == Grouping.SumFor(Loads(rows), state)
  {
    if rows != [] {
      StateVolumeIsGroupSum(rows[1..], state);
      assert Loads(rows)[1..] == Loads(rows[1..]);
      var rest := RowsOfState(rows[1..], state);
      if rows[0].state == state {
        assert ([rows[0]] + rest)[1..] == rest;
      }
    }
  }

  /** The (state, volume) pairs of a snapshot under the batch side's
      normalisation of state names. */
  function StateLoads(snapshot: seq<SnapshotRecord>): (r: seq<(string, int)>)
    ensures |r| == |snapshot|
    ensures forall i :: 0 <= i < |snapshot| ==> r[i] == (Ingest.NormalizeLocation(snapshot[i].state), snapshot[i].volume)
  {
    seq(|snapshot|, i requires 0 <= i < |snapshot| => (Ingest.NormalizeLocation(snapshot[i].state), snapshot[i].volume))
  }

  lemma CleanedLoads(snapshot: seq<SnapshotRecord>)
    ensures Loads(Cleaned(TitleCased(snapshot))) == StateLoads(snapshot)
  {
    forall i | 0 <= i < |snapshot| ensures Cleaned(TitleCased(snapshot))[i].state == Ingest.NormalizeLocation(snapshot[i].state) {
      LoadThenClean(snapshot[i]);
    }
  }

  /** Checks run in order: a missing state is a 400 whatever the snapshot, a
      missing snapshot a 503, an empty snapshot a 500; the lookups never
      answer 400 or 503. */
  lemma AuditErrorOrder(targetState: Option<string>, targetDistrict: Option<string>,
                        snapshot: Option<seq<SnapshotRecord>>)
    ensures Audit(targetState, targetDistrict, snapshot) == Failure(StateRequired) <==>
              targetState.None? || targetState.value == ""
    ensures Audit(targetState, targetDistrict, snapshot) == Failure(DataNotReady) <==>
              targetState.Some? && targetState.value != "" && snapshot.None?
    ensures Audit(targetState, targetDistrict, snapshot) == Failure(InternalError) <==>
              targetState.Some? && targetState.value != "" && snapshot == Some([])
    ensures Audit(targetState, targetDistrict, snapshot).Failure? ==>
              StatusCode(Audit(targetState, targetDistrict, snapshot).error) in {400, 404, 500, 503}
  {
    var r := Audit(targetState, targetDistrict, snapshot);
    if targetState.None? || targetState.value == "" {
      assert r == Failure(StateRequired);
    } else if snapshot.None? {
      assert r == Failure(DataNotReady);
    } else if snapshot.value == [] {
      assert r == Failure(InternalError);
    } else {
      AuditResolves(targetState.value, targetDistrict, snapshot.value);
      ResolveFailures(targetState.value, targetDistrict, Cleaned(TitleCased(snapshot.value)));
    }
  }

  /** Which condition gives which status code: each code of the endpoint
      belongs to exactly one of its checks. */
  lemma AuditStatusCodes(targetState: Option<string>, targetDistrict: Option<string>,
                         snapshot: Option<seq<SnapshotRecord>>)
    ensures var r := Audit(targetState, targetDistrict, snapshot);
            r.Failure? && StatusCode(r.error) == 400 <==> targetState.None? || targetState.value == ""
    ensures var r := Audit(targetState, targetDistrict, snapshot);
            r.Failure? && StatusCode(r.error) == 503 <==> targetState.Some? && targetState.value != "" && snapshot.None?
    ensures var r := Audit(targetState, targetDistrict, snapshot);
            r.Failure? && StatusCode(r.error) == 500 <==> targetState.Some? && targetState.value != "" && snapshot == Some([])
    ensures var r := Audit(targetState, targetDistrict, snapshot);
            r.Failure? && StatusCode(r.error) == 404 <==>
              targetState.Some? && targetState.value != "" && snapshot.Some? && snapshot.value != [] &&
              Resolve(targetState.value, targetDistrict, Cleaned(TitleCased(snapshot.value))).Failure?
  {
    AuditErrorOrder(targetState, targetDistrict, snapshot);
    if targetState.Some? && targetState.value != "" && snapshot.Some? && snapshot.value != [] {
      AuditResolves(targetState.value, targetDistrict, snapshot.value);
      ResolveFailures(targetState.value, targetDistrict, Cleaned(TitleCased(snapshot.value)));
    }
  }

  /** The lookups fail only with a 404. */
  lemma ResolveFailures(targetState: string, targetDistrict: Option<string>, rows: seq<SnapshotRecord>)
    ensures var r := Resolve(targetState, targetDistrict, rows);
            r.Failure? ==> r.error == StateNotFound(targetState) || r.error == DistrictNotFound
  {
    var q := NormalizeQuery(targetState);
    if RowsOfState(rows, q) != [] && !IsWholeRegion(targetDistrict) {
      match FirstOfDistrict(RowsOfState(rows, q), NormalizeQuery(targetDistrict.value))
      case None =>
      case Some(record) =>
    }
  }

  /** On a non-empty snapshot with a state given, the audit resolves the
      query against the cleaned frame. */
  lemma AuditResolves(targetState: string, targetDistrict: Option<string>, snapshot: seq<SnapshotRecord>)
    requires targetState != "" && snapshot != []
    ensures Audit(Some(targetState), targetDistrict, Some(snapshot)) ==
            Resolve(targetState, targetDistrict, Cleaned(TitleCased(snapshot)))
  {
  }

  /** A state no cleaned record carries is a 404 for the state. */
  lemma ResolveStateMissing(targetState: string, targetDistrict: Option<string>, rows: seq<SnapshotRecord>)
    requires forall j :: 0 <= j < |rows| ==> rows[j].state != NormalizeQuery(targetState)
    ensures Resolve(targetState, targetDistrict, rows) == Failure(StateNotFound(targetState))
  {
  }

  /** A state some cleaned record carries is found. */
  lemma ResolveStatePresent(targetState: string, targetDistrict: Option<string>, rows: seq<SnapshotRecord>, j: nat)
    requires j < |rows| && rows[j].state == NormalizeQuery(targetState)
    ensures RowsOfState(rows, NormalizeQuery(targetState)) != []
  {
    assert rows[j] in RowsOfState(rows, NormalizeQuery(targetState));
  }

  /** Whole-state resolution: the pillars of the state's total volume and
      of the unweighted mean of its ratios, under "All " and the state as
      given, with the state fallback trend. */
  lemma ResolveWholeState(targetState: string, targetDistrict: Option<string>, rows: seq<SnapshotRecord>)
    requires IsWholeRegion(targetDistrict) && RowsOfState(rows, NormalizeQuery(targetState)) != []
    ensures var stateRows := RowsOfState(rows, NormalizeQuery(targetState));
            var volume := TotalVolume(stateRows);
            Resolve(targetState, targetDistrict, rows) ==
              Success(AuditReport("All " + targetState,
                                  AnalyzeLogic(volume, MeanRatio(stateRows), StateFallback(volume))))
  {
  }

  /** Whole-state resolution in terms of the grouped (state, volume) pairs
      of the cleaned frame. */
  lemma WholeStateOnRows(targetState: string, targetDistrict: Option<string>, rows: seq<SnapshotRecord>)
    requires IsWholeRegion(targetDistrict)
    ensures var r := Resolve(targetState, targetDistrict, rows);
            var q := NormalizeQuery(targetState);
            var volume := Grouping.SumFor(Loads(rows), q);
            var stateRows := RowsOfState(rows, q);
            && (r.Failure? <==> q !in Grouping.KeysOf(Loads(rows)))
            && (r.Failure? ==> r.error == StateNotFound(targetState))
            && (r.Success? ==>
                  stateRows != [] &&
                  r.value == AuditReport("All " + targetState,
                                         AnalyzeLogic(volume, MeanRatio(stateRows), StateFallback(volume))))
  {
    var q := NormalizeQuery(targetState);
    var loads := Loads(rows);
    if q in Grouping.KeysOf(loads) {
      var i :| 0 <= i < |loads| && loads[i].0 == q;
      ResolveStatePresent(targetState, targetDistrict, rows, i);
      StateVolumeIsGroupSum(rows, q);
      ResolveWholeState(targetState, targetDistrict, rows);
    } else {
      forall j | 0 <= j < |rows| ensures rows[j].state != q {
        assert loads[j].0 == rows[j].state;
      }
      ResolveStateMissing(targetState, targetDistrict, rows);
    }
  }

  /** A whole-state query: 404 exactly when no record carries the state
      after normalisation; otherwise the pillars of the state's grouped sum
      of volumes and of the unweighted mean ratio of its records, under
      "All " and the state as given, with the state fallback of that
      volume. */
  lemma AuditWholeState(targetState: string, targetDistrict: Option<string>, snapshot: seq<SnapshotRecord>)
    requires targetState != "" && snapshot != [] && IsWholeRegion(targetDistrict)
    ensures var r := Audit(Some(targetState), targetDistrict, Some(snapshot));
            var q := NormalizeQuery(targetState);
            var volume := Grouping.SumFor(StateLoads(snapshot), q);
            var records := RecordsOfState(snapshot, q);
            && (r.Failure? <==> q !in Grouping.KeysOf(StateLoads(snapshot)))
            && (r.Failure? ==> r.error == StateNotFound(targetState))
            && (r.Success? ==>
                  records != [] &&
                  r.value == AuditReport("All " + targetState,
                                         AnalyzeLogic(volume, MeanRatio(records), StateFallback(volume))))
  {
    var rows := Cleaned(TitleCased(snapshot));
    var q := NormalizeQuery(targetState);
    AuditResolves(targetState, targetDistrict, snapshot);
    CleanedLoads(snapshot);
    WholeStateOnRows(targetState, targetDistrict, rows);
    CleanedMeanRatio(snapshot, q);
  }

  /** The snapshot records whose state the ETL normalises to `state`, in
      order. */
  function RecordsOfState(snapshot: seq<SnapshotRecord>, state: string): (r: seq<SnapshotRecord>)
    ensures forall x :: x in r <==> x in snapshot && Ingest.NormalizeLocation(x.state) == state
  {
    if snapshot == [] then []
    else if Ingest.NormalizeLocation(snapshot[0].state) == state then [snapshot[0]] + RecordsOfState(snapshot[1..], state)
    else RecordsOfState(snapshot[1..], state)
  }

  /** Filtering a concatenation of snapshots filters each part, order kept. */
  lemma {:induction false} RecordsOfStateAppend(a: seq<SnapshotRecord>, b: seq<SnapshotRecord>, state: string)
    ensures RecordsOfState(a + b, state) == RecordsOfState(a, state) + RecordsOfState(b, state)
  {
    if a == [] {
      assert a + b == b;
    } else {
      assert (a + b)[0] == a[0];
      assert (a + b)[1..] == a[1..] + b;
      RecordsOfStateAppend(a[1..], b, state);
      if Ingest.NormalizeLocation(a[0].state) == state {
        assert [a[0]] + (RecordsOfState(a[1..], state) + RecordsOfState(b, state)) ==
               ([a[0]] + RecordsOfState(a[1..], state)) + RecordsOfState(b, state);
      }
    }
  }

  /** One record is kept exactly when its state normalises to `state`. */
  lemma RecordsOfStateSingle(x: SnapshotRecord, state: string)
    ensures RecordsOfState([x], state) == if Ingest.NormalizeLocation(x.state) == state then [x] else []
  {
    assert [x][1..] == [];
  }

  /** Rows that carry the normalised states and the ratios of the records
      filter to as many rows, with the same total ratio. */
  lemma {:induction false} FilterNormalizedRatios(rows: seq<SnapshotRecord>, snapshot: seq<SnapshotRecord>, state: string)
    requires |rows| == |snapshot|
    requires forall i :: 0 <= i < |rows| ==>
               rows[i].state == Ingest.NormalizeLocation(snapshot[i].state) && rows[i].ratio == snapshot[i].ratio
    ensures |RowsOfState(rows, state)| == |RecordsOfState(snapshot, state)|
    ensures TotalRatio(RowsOfState(rows, state)) == TotalRatio(RecordsOfState(snapshot, state))
  {
    if rows != [] {
      FilterNormalizedRatios(rows[1..], snapshot[1..], state);
      var a := RowsOfState(rows[1..], state);
      var b := RecordsOfState(snapshot[1..], state);
      if rows[0].state == state {
        assert ([rows[0]] + a)[1..] == a;
        assert ([snapshot[0]] + b)[1..] == b;
      }
    }
  }

  /** The mean ratio of a state on the cleaned frame is the mean ratio of
      the snapshot records whose state normalises to it. */
  lemma CleanedMeanRatio(snapshot: seq<SnapshotRecord>, state: string)
    ensures var stateRows := RowsOfState(Cleaned(TitleCased(snapshot)), state);
            stateRows != [] ==>
              RecordsOfState(snapshot, state) != [] && MeanRatio(stateRows) == MeanRatio(RecordsOfState(snapshot, state))
  {
    var rows := Cleaned(TitleCased(snapshot));
    CleanedLoads(snapshot);
    forall i | 0 <= i < |rows|
      ensures rows[i].state == Ingest.NormalizeLocation(snapshot[i].state) && rows[i].ratio == snapshot[i].ratio
    {
      assert Loads(rows)[i] == StateLoads(snapshot)[i];
    }
    FilterNormalizedRatios(rows, snapshot, state);
  }

  /** District resolution on the cleaned frame. */
  lemma ResolveDistrict(targetState: string, targetDistrict: string, rows: seq<SnapshotRecord>)
    requires !IsWholeRegion(Some(targetDistrict)) && RowsOfState(rows, NormalizeQuery(targetState)) != []
    ensures var r := Resolve(targetState, Some(targetDistrict), rows);
            match FirstRecord(rows, NormalizeQuery(targetState), NormalizeQuery(targetDistrict))
            case Some(j) =>
              r == Success(AuditReport(rows[j].district,
                                       AnalyzeLogic(rows[j].volume, rows[j].ratio, DistrictFallback(rows[j].volume))))
            case None => r == Failure(DistrictNotFound)
  {
    FilterThenFirst(rows, NormalizeQuery(targetState), NormalizeQuery(targetDistrict));
  }

  /** A district query: the answer comes from the first record of the
      normalised state and district, a 404 for the state when no record has
      the state, and a 404 for the district otherwise. */
  lemma AuditDistrict(targetState: string, targetDistrict: string, snapshot: seq<SnapshotRecord>)
    requires targetState != "" && snapshot != [] && !IsWholeRegion(Some(targetDistrict))
    ensures var rows := Cleaned(TitleCased(snapshot));
            var q := NormalizeQuery(targetState);
            var r := Audit(Some(targetState), Some(targetDistrict), Some(snapshot));
            match FirstRecord(rows, q, NormalizeQuery(targetDistrict))
            case Some(j) =>
              r == Success(AuditReport(rows[j].district,
                                       AnalyzeLogic(rows[j].volume, rows[j].ratio, DistrictFallback(rows[j].volume))))
            case None =>
              r == Failure(if forall j :: 0 <= j < |rows| ==> rows[j].state != q
                           then StateNotFound(targetState) else DistrictNotFound)
  {
    var rows := Cleaned(TitleCased(snapshot));
    var q := NormalizeQuery(targetState);
    AuditResolves(targetState, Some(targetDistrict), snapshot);
    if forall j :: 0 <= j < |rows| ==> rows[j].state != q {
      ResolveStateMissing(targetState, Some(targetDistrict), rows);
      if FirstRecord(rows, q, NormalizeQuery(targetDistrict)).Some? {
        assert false;
      }
    } else {
      var j :| 0 <= j < |rows| && rows[j].state == q;
      ResolveStatePresent(targetState, Some(targetDistrict), rows, j);
      ResolveDistrict(targetState, targetDistrict, rows);
    }
  }

  /** Cleaning never leaves an ampersand in a state name while the query
      keeps it, so a state asked for with `&` is never found. */
  lemma AmpersandStateNotFound(targetState: string, targetDistrict: Option<string>, snapshot: seq<SnapshotRecord>)
    requires '&' in targetState && snapshot != []
    ensures Audit(Some(targetState), targetDistrict, Some(snapshot)) == Failure(StateNotFound(targetState))
  {
    var rows := Cleaned(TitleCased(snapshot));
    var q := NormalizeQuery(targetState);
    var i :| 0 <= i < |targetState| && targetState[i] == '&';
    StripKeeps(targetState, i);
    TitleAmpersand(Strip(targetState));
    assert '&' in q;
    forall j | 0 <= j < |rows| ensures rows[j].state != q {
      LoadThenClean(snapshot[j]);
      assert '&' !in rows[j].state;
    }
    AuditResolves(targetState, targetDistrict, snapshot);
    ResolveStateMissing(targetState, targetDistrict, rows);
  }

  /** `StateFallback(1)` shows that the fallback values need not increase. */
  lemma FallbackNotStrictlyIncreasing()
    ensures StateFallback(1) == [1, 1, 1]
    ensures DistrictFallback(1) == [1, 1, 1]
  {
  }

  // ---------------------------------------------------------------------------
  // Metadata
  // ---------------------------------------------------------------------------

  /** The state column, in frame order. */
  function StatesOf(rows: seq<SnapshotRecord>): (r: seq<string>)
    ensures |r| == |rows| && forall i :: 0 <= i < |rows| ==> r[i] == rows[i].state
  {
    seq(|rows|, i requires 0 <= i < |rows| => rows[i].state)
  }

  /** `df[df['State'] == state]['District']`, in frame order. */
  function DistrictsIn(rows: seq<SnapshotRecord>, state: string): (r: seq<string>)
    ensures forall x :: x in rows && x.state == state ==> x.district in r
    ensures forall d :: d in r ==> exists x :: x in rows && x.state == state && x.district == d
  {
    var sr := RowsOfState(rows, state);
    var r := seq(|sr|, i requires 0 <= i < |sr| => sr[i].district);
    assert forall x :: x in sr ==> x.district in r by {
      forall x | x in sr ensures x.district in r {
        var i :| 0 <= i < |sr| && sr[i] == x;
        assert r[i] == x.district;
      }
    }
    assert forall k :: 0 <= k < |r| ==> sr[k] in sr;
    r
  }

  /** The state names of the metadata, in order. */
  function MetadataStates(md: seq<(string, seq<string>)>): (r: seq<string>)
    ensures |r| == |md| && forall i :: 0 <= i < |md| ==> r[i] == md[i].0
  {
    seq(|md|, i requires 0 <= i < |md| => md[i].0)
  }

  /** What `/api/metadata` promises about the cleaned frame: the states in
      ascending order, each once, exactly those of the frame; under each, its
      districts in ascending order, each once, exactly those recorded for it. */
  ghost predicate IsMetadataOf(md: seq<(string, seq<string>)>, rows: seq<SnapshotRecord>) {
    && StrictlySorted(MetadataStates(md), StrLess)
    && (forall s :: s in MetadataStates(md) <==> s in StatesOf(rows))
    && (forall i :: 0 <= i < |md| ==> StrictlySorted(md[i].1, StrLess))
    && (forall i, d :: 0 <= i < |md| ==> (d in md[i].1 <==> d in DistrictsIn(rows, md[i].0)))
  }

  /** The grouping step of `get_metadata` (lines 89-95) on the cleaned
      frame: one entry per sorted distinct state, holding its sorted
      distinct districts. */
  method BuildMetadata(rows: seq<SnapshotRecord>) returns (md: seq<(string, seq<string>)>)
    ensures IsMetadataOf(md, rows)
  {
    var states := SortStrings(StatesOf(rows));
    md := GroupDistricts(rows, states);
    MetadataEntries(md, rows, states);
  }

  /** The loop of `get_metadata`: for each state in turn, its sorted
      distinct districts. */
  method GroupDistricts(rows: seq<SnapshotRecord>, states: seq<string>) returns (md: seq<(string, seq<string>)>)
    ensures |md| == |states|
    ensures forall k :: 0 <= k < |md| ==> md[k].0 == states[k]
    ensures forall k :: 0 <= k < |md| ==> md[k].1 == SortStrings(DistrictsIn(rows, md[k].0))
  {
    md := [];
    for i := 0 to |states|
      invariant |md| == i
      invariant forall k :: 0 <= k < i ==> md[k].0 == states[k]
      invariant forall k :: 0 <= k < i ==> md[k].1 == SortStrings(DistrictsIn(rows, md[k].0))
    {
      md := md + [(states[i], SortStrings(DistrictsIn(rows, states[i])))];
    }
  }

  lemma MetadataEntries(md: seq<(string, seq<string>)>, rows: seq<SnapshotRecord>, states: seq<string>)
    requires StrictlySorted(states, StrLess)
    requires forall s :: s in states <==> s in StatesOf(rows)
    requires |md| == |states|
    requires forall k :: 0 <= k < |md| ==> md[k].0 == states[k]
    requires forall k :: 0 <= k < |md| ==> md[k].1 == SortStrings(DistrictsIn(rows, md[k].0))
    ensures IsMetadataOf(md, rows)
  {
    assert MetadataStates(md) == states;
  }

  /** `get_metadata`: load, clean in place, then group. */
  method GetMetadata(snapshot: Option<seq<SnapshotRecord>>) returns (r: Result<seq<(string, seq<string>)>, HttpError>)
    ensures snapshot.None? ==> r == Failure(DataNotReady)
    ensures snapshot == Some([]) ==> r == Failure(InternalError)
    ensures snapshot.Some? && snapshot.value != [] ==>
              r.Success? && IsMetadataOf(r.value, Cleaned(TitleCased(snapshot.value)))
  {
    var df := LoadData(snapshot);
    if df == null {
      return Failure(DataNotReady);
    }
    if df.rows == [] {
      return Failure(InternalError);
    }
    df.CleanLocations();
    var md := BuildMetadata(df.rows);
    return Success(md);
  }

  /** Every state the metadata lists can be audited as a whole state, and
      every listed district of it (other than a whole-state sentinel) can be
      audited on its own, unless the state name cleaned down to nothing. */
  lemma ListedLocationsResolve(snapshot: seq<SnapshotRecord>, i: nat)
    requires i < |snapshot|
    ensures var rec := Cleaned(TitleCased(snapshot))[i];
            rec.state != "" ==>
              && Audit(Some(rec.state), None, Some(snapshot)).Success?
              && (!IsWholeRegion(Some(rec.district)) ==>
                    Audit(Some(rec.state), Some(rec.district), Some(snapshot)).Success?)
  {
    var rows := Cleaned(TitleCased(snapshot));
    var rec := rows[i];
    if rec.state != "" {
      LoadThenClean(snapshot[i]);
      var s := rec.state;
      Ingest.NormalizeLocationIdempotent(snapshot[i].state);
      QueryMatchesBatchIffNoAmpersand(s);
      assert NormalizeQuery(s) == s;
      NormalizeQueryIdempotent(snapshot[i].district);
      assert NormalizeQuery(rec.district) == rec.district;
      AuditResolves(s, None, snapshot);
      ResolveStatePresent(s, None, rows, i);
      ResolveWholeState(s, None, rows);
      if !IsWholeRegion(Some(rec.district)) {
        AuditResolves(s, Some(rec.district), snapshot);
        ResolveDistrict(s, rec.district, rows);
        assert FirstRecord(rows, s, rec.district).Some?;
      }
    }
  }
}
