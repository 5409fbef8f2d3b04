/** The batch side of the pipeline (`src/etl_pipeline/ingest_data.py`):
    location normalisation, the per-category sums grouped by
    (state, district), the left join anchored on the enrolment keys with
    zero fill, the female/enrolment ratio and the fixed five-field output. */
module Ingest {
  import opened Wrappers
  import opened Text
  import opened Numeric
  import opened Ordering
  import opened Grouping

  /** A normalised (state, district) pair. */
  type Key = (string, string)

  datatype Category = Enrolment | Biometric | Demographic

  /** One CSV row of a category: free-text location and that category's
      age-bracket columns `B`. */
  datatype Row<B> = Row(state: string, district: string, ages: B)

  /** Columns `age_0_5`, `age_5_17`, `age_18_greater`. */
  datatype EnrolmentAges = EnrolmentAges(age0To5: int, age5To17: int, age18Greater: int)

  /** Columns `bio_age_5_17`, `bio_age_17_`. */
  datatype BiometricAges = BiometricAges(bioAge5To17: int, bioAge17Plus: int)

  /** Columns `demo_age_5_17`, `demo_age_17_`. */
  datatype DemographicAges = DemographicAges(demoAge5To17: int, demoAge17Plus: int)

  /** The derived column `total_enrolment`. */
  function TotalEnrolment(a: EnrolmentAges): int {
    a.age0To5 + a.age5To17 + a.age18Greater
  }

  /** The derived column `female_count` (a proxy taken from biometric captures). */
  function FemaleCount(a: BiometricAges): int {
    a.bioAge5To17 + a.bioAge17Plus
  }

  /** The derived column `mobile_update_volume` (a proxy taken from demographic updates). */
  function MobileUpdateVolume(a: DemographicAges): int {
    a.demoAge5To17 + a.demoAge17Plus
  }

  // ---------------------------------------------------------------------------
  // Location normalisation
  // ---------------------------------------------------------------------------

  /** One cell of `normalize_location_names`: strip, `&` to `And`, title case.
      The result has no surrounding whitespace and no ampersand. */
  function NormalizeLocation(s: string): (r: string)
    ensures IsStripped(r)
    ensures '&' !in r
  {
    var t := ReplaceAmpersand(Strip(s));
    ReplaceAmpersandStripped(Strip(s));
    TitleStripped(t);
    TitleAmpersand(t);
    Title(t)
  }

  lemma NormalizeLocationIdempotent(s: string)
    ensures NormalizeLocation(NormalizeLocation(s)) == NormalizeLocation(s)
  {
    var n := NormalizeLocation(s);
    StripStripped(n);
    ReplaceAmpersandNone(n);
    TitleIdempotent(ReplaceAmpersand(Strip(s)));
  }

  function NormalizeRow<B>(r: Row<B>): Row<B> {
    r.(state := NormalizeLocation(r.state), district := NormalizeLocation(r.district))
  }

  function NormalizedRows<B>(rows: seq<Row<B>>): (r: seq<Row<B>>)
    ensures |r| == |rows|
    ensures forall i :: 0 <= i < |rows| ==> r[i] == NormalizeRow(rows[i])
  {
    seq(|rows|, i requires 0 <= i < |rows| => NormalizeRow(rows[i]))
  }

  /** The normalised key of a raw row. */
  function RowKey<B>(r: Row<B>): Key {
    (NormalizeLocation(r.state), NormalizeLocation(r.district))
  }

  // ---------------------------------------------------------------------------
  // Loading
  // ---------------------------------------------------------------------------

  /** `pd.concat` of the files of one category, in order. */
  function Concat<B>(files: seq<seq<Row<B>>>): (rows: seq<Row<B>>)
    ensures rows == [] <==> forall i :: 0 <= i < |files| ==> files[i] == []
    ensures forall i, j :: 0 <= i < |files| && 0 <= j < |files[i]| ==> files[i][j] in rows
  {
    if files == [] then []
    else
      var rest := Concat(files[1..]);
      assert forall i :: 1 <= i < |files| ==> files[i] == files[1..][i - 1];
      files[0] + rest
  }

  /** Concatenating one more file appends its rows, in order. */
  lemma {:induction false} ConcatAppend<B>(files: seq<seq<Row<B>>>, f: seq<Row<B>>)
    ensures Concat(files + [f]) == Concat(files) + f
  {
    if files == [] {
      assert files + [f] == [f];
      assert [f][1..] == [];
    } else {
      assert (files + [f])[0] == files[0];
      assert (files + [f])[1..] == files[1..] + [f];
      ConcatAppend(files[1..], f);
    }
  }

  /** A single file concatenates to its own rows. */
  lemma ConcatSingle<B>(f: seq<Row<B>>)
    ensures Concat([f]) == f
  {
    assert [f][1..] == [];
  }

  /** `load_chunked_data`: `None` is the column-less empty frame returned when
      no file matches; otherwise the concatenated rows. */
  function LoadChunkedData<B>(files: seq<seq<Row<B>>>): Option<seq<Row<B>>> {
    if files == [] then None else Some(Concat(files))
  }

  /** A frame of one category as `main` handles it: its rows (state and
      district included) and the derived column, empty until assigned. */
  class Frame<B> {
    var rows: seq<Row<B>>
    var derived: seq<int>

    constructor (rows: seq<Row<B>>)
      ensures this.rows == rows && derived == []
    {
      this.rows := rows;
      derived := [];
    }

    /** `normalize_location_names`: overwrites the state and district columns. */
    method NormalizeLocationNames()
      modifies this
      ensures rows == NormalizedRows(old(rows))
      ensures derived == old(derived)
    {
      rows := NormalizedRows(rows);
    }

    /** `df[column] = <sum of the age-bracket columns>`. */
    method AddDerivedColumn(metric: B -> int)
      modifies this
      ensures rows == old(rows)
      ensures |derived| == |rows|
      ensures forall i :: 0 <= i < |rows| ==> derived[i] == metric(rows[i].ages)
    {
      var rs := rows;
      derived := seq(|rs|, i requires 0 <= i < |rs| => metric(rs[i].ages));
    }

    /** The (state, district) key and derived value of every row: what
        `groupby(["state", "district"]).agg(sum)` reads. */
    function Keyed(): seq<(Key, int)>
      reads this
      requires |derived| == |rows|
    {
      KeyedRows(rows, derived)
    }
  }

  // ---------------------------------------------------------------------------
  // Aggregation and merge
  // ---------------------------------------------------------------------------

  /** Each row's (state, district) paired with its derived value. */
  function KeyedRows<B>(rows: seq<Row<B>>, derived: seq<int>): (r: seq<(Key, int)>)
    requires |derived| == |rows|
    ensures |r| == |rows|
    ensures forall i :: 0 <= i < |rows| ==> r[i] == ((rows[i].state, rows[i].district), derived[i])
  {
    seq(|rows|, i requires 0 <= i < |rows| => ((rows[i].state, rows[i].district), derived[i]))
  }

  /** The normalised key and derived metric of every raw row. */
  function KeyedMetric<B>(rows: seq<Row<B>>, metric: B -> int): (r: seq<(Key, int)>)
    ensures |r| == |rows|
    ensures forall i :: 0 <= i < |rows| ==> r[i] == (RowKey(rows[i]), metric(rows[i].ages))
  {
    seq(|rows|, i requires 0 <= i < |rows| => (RowKey(rows[i]), metric(rows[i].ages)))
  }

  /** Normalising in place and then adding the derived column gives the
      normalised key and metric of every raw row. */
  lemma KeyedAfterNormalizing<B>(raw: seq<Row<B>>, metric: B -> int, derived: seq<int>)
    requires |derived| == |raw|
    requires forall i :: 0 <= i < |raw| ==> derived[i] == metric(NormalizedRows(raw)[i].ages)
    ensures KeyedRows(NormalizedRows(raw), derived) == KeyedMetric(raw, metric)
  {
  }

  /** The normalised keys of `rows`. */
  function RowKeys<B>(rows: seq<Row<B>>): set<Key> {
    set i | 0 <= i < |rows| :: RowKey(rows[i])
  }

  lemma KeysOfKeyedMetric<B>(rows: seq<Row<B>>, metric: B -> int)
    ensures KeysOf(KeyedMetric(rows, metric)) == RowKeys(rows)
  {
    var keyed := KeyedMetric(rows, metric);
    forall k | k in RowKeys(rows) ensures k in KeysOf(keyed) {
      var i :| 0 <= i < |rows| && RowKey(rows[i]) == k;
      assert keyed[i].0 == k;
    }
  }

  /** Reference definition of one category's aggregate at `k`: the metric
      summed over the raw rows that normalise to `k`. */
  function CategorySum<B>(rows: seq<Row<B>>, metric: B -> int, k: Key): int {
    if rows == [] then 0
    else (if RowKey(rows[0]) == k then metric(rows[0].ages) else 0) + CategorySum(rows[1..], metric, k)
  }

  lemma {:induction false} CategorySumIsGroupSum<B>(rows: seq<Row<B>>, metric: B -> int, k: Key)
    ensures SumFor(KeyedMetric(rows, metric), k) == CategorySum(rows, metric, k)
  {
    if rows != [] {
      assert KeyedMetric(rows, metric)[1..] == KeyedMetric(rows[1..], metric);
      CategorySumIsGroupSum(rows[1..], metric, k);
    }
  }

  /** `female_count / total_enrolment` rounded to 3 decimals. Where the source
      divides by zero (inf or NaN) the model has no value. */
  function FemaleEnrolmentPct(femaleCount: int, totalEnrolment: int): (r: Option<real>)
    ensures r.None? <==> totalEnrolment == 0
    ensures r.Some? ==> var exact := femaleCount as real / totalEnrolment as real;
                        exact * 1000.0 - 0.5 <= r.value * 1000.0 <= exact * 1000.0 + 0.5
  {
    if totalEnrolment == 0 then None
    else Some(RoundPlaces(femaleCount as real / totalEnrolment as real, 1000))
  }

  /** The ratio is a fraction whenever the female count does not exceed the
      enrolment total (which nothing in the source enforces). */
  lemma FemaleEnrolmentPctInUnitRange(femaleCount: int, totalEnrolment: int)
    requires 0 <= femaleCount <= totalEnrolment && totalEnrolment > 0
    ensures FemaleEnrolmentPct(femaleCount, totalEnrolment).Some?
    ensures 0.0 <= FemaleEnrolmentPct(femaleCount, totalEnrolment).value <= 1.0
  {
    var exact := femaleCount as real / totalEnrolment as real;
    assert 0.0 <= exact * 1000.0 <= 1000.0 by {
      assert exact <= 1.0;
    }
    RoundPlacesBetween(exact, 1000, 0, 1000);
  }

  /** A zero female count gives ratio 0, or none over a zero total. */
  lemma FemaleEnrolmentPctOfNone(totalEnrolment: int)
    ensures FemaleEnrolmentPct(0, totalEnrolment) == if totalEnrolment == 0 then None else Some(0.0)
  {
    if totalEnrolment != 0 {
      assert 0 as real / totalEnrolment as real == 0.0;
      RoundHalfEvenOfInteger(0);
    }
  }

  /** Output row: the five columns `State`, `District`,
      `mobile_update_volume`, `female_enrolment_pct`, `total_enrolment`. */
  datatype CanonicalRecord = CanonicalRecord(
    state: string,
    district: string,
    mobileUpdateVolume: int,
    femaleEnrolmentPct: Option<real>,
    totalEnrolment: int)
  {
    function Key(): Key { (state, district) }
  }

  /** The keys of the output records, in output order. */
  function Keys(out: seq<CanonicalRecord>): (ks: seq<Key>)
    ensures |ks| == |out|
    ensures forall i :: 0 <= i < |out| ==> ks[i] == out[i].Key()
  {
    seq(|out|, i requires 0 <= i < |out| => out[i].Key())
  }

  /** The left-joined row for anchor key `k`: a key the biometric or the
      demographic aggregate lacks is filled with 0 (`fillna(0)`). */
  function MergedRecord(k: Key, enrol: map<Key, int>, bio: map<Key, int>, demo: map<Key, int>): CanonicalRecord
    requires k in enrol
  {
    var female := if k in bio then bio[k] else 0;
    var volume := if k in demo then demo[k] else 0;
    CanonicalRecord(k.0, k.1, volume, FemaleEnrolmentPct(female, enrol[k]), enrol[k])
  }

  /** From the keyed derived columns of the three categories: the grouped
      sums, the enrolment keys in sorted order (pandas sorts groupby keys and
      a left merge keeps the left order), and one merged row per key. */
  function Merge(enrol: seq<(Key, int)>, bio: seq<(Key, int)>, demo: seq<(Key, int)>): (out: seq<CanonicalRecord>)
    ensures StrictlySorted(Keys(out), PairLess)
    ensures forall k :: k in Keys(out) <==> k in KeysOf(enrol)
    ensures forall i :: 0 <= i < |out| ==>
      var k := out[i].Key();
      && out[i].totalEnrolment == SumFor(enrol, k)
      && out[i].mobileUpdateVolume == SumFor(demo, k)
      && out[i].femaleEnrolmentPct == FemaleEnrolmentPct(SumFor(bio, k), SumFor(enrol, k))
  {
    var enrolAgg := GroupSum(enrol);
    var bioAgg := GroupSum(bio);
    var demoAgg := GroupSum(demo);
    PairLessIsStrictTotalOrder();
    var anchors := SortedDistinct(KeySeq(enrol), PairLess);
    var out := seq(|anchors|, i requires 0 <= i < |anchors| => MergedRecord(anchors[i], enrolAgg, bioAgg, demoAgg));
    assert Keys(out) == anchors;
    forall k | k !in bioAgg ensures SumFor(bio, k) == 0 { SumForAbsent(bio, k); }
    forall k | k !in demoAgg ensures SumFor(demo, k) == 0 { SumForAbsent(demo, k); }
    out
  }

  // ---------------------------------------------------------------------------
  // The batch run
  // ---------------------------------------------------------------------------

  /** Why `main` stops without writing: a category with no files leaves a
      frame without columns, so normalising it raises `KeyError`; a category
      whose files hold no rows hits the explicit emptiness check. */
  datatype EtlError = MissingColumns(category: Category) | NoRows(category: Category)

  /** What `main` writes to `processed_metrics.json`, or why it writes nothing. */
  function Etl(enrolFiles: seq<seq<Row<EnrolmentAges>>>,
               bioFiles: seq<seq<Row<BiometricAges>>>,
               demoFiles: seq<seq<Row<DemographicAges>>>): Result<seq<CanonicalRecord>, EtlError>
  {
    var enrol := LoadChunkedData(enrolFiles);
    var bio := LoadChunkedData(bioFiles);
    var demo := LoadChunkedData(demoFiles);
    if enrol.None? then Failure(MissingColumns(Enrolment))
    else if bio.None? then Failure(MissingColumns(Biometric))
    else if demo.None? then Failure(MissingColumns(Demographic))
    else if enrol.value == [] then Failure(NoRows(Enrolment))
    else if bio.value == [] then Failure(NoRows(Biometric))
    else if demo.value == [] then Failure(NoRows(Demographic))
    else Success(Merge(KeyedMetric(enrol.value, TotalEnrolment),
                       KeyedMetric(bio.value, FemaleCount),
                       KeyedMetric(demo.value, MobileUpdateVolume)))
  }

  /** `main`, step by step on frames: load, normalise in place, check for
      rows, add the derived columns, then group, merge and project. */
  method RunEtl(enrolFiles: seq<seq<Row<EnrolmentAges>>>,
                bioFiles: seq<seq<Row<BiometricAges>>>,
                demoFiles: seq<seq<Row<DemographicAges>>>)
    returns (r: Result<seq<CanonicalRecord>, EtlError>)
    ensures r == Etl(enrolFiles, bioFiles, demoFiles)
  {
    var enrolLoaded := LoadChunkedData(enrolFiles);
    var bioLoaded := LoadChunkedData(bioFiles);
    var demoLoaded := LoadChunkedData(demoFiles);
    if enrolLoaded.None? { return Failure(MissingColumns(Enrolment)); }
    var enrol := new Frame(enrolLoaded.value);
    enrol.NormalizeLocationNames();
    if bioLoaded.None? { return Failure(MissingColumns(Biometric)); }
    var bio := new Frame(bioLoaded.value);
    bio.NormalizeLocationNames();
    if demoLoaded.None? { return Failure(MissingColumns(Demographic)); }
    var demo := new Frame(demoLoaded.value);
    demo.NormalizeLocationNames();

    if enrol.rows == [] { return Failure(NoRows(Enrolment)); }
    if bio.rows == [] { return Failure(NoRows(Biometric)); }
    if demo.rows == [] { return Failure(NoRows(Demographic)); }

    enrol.AddDerivedColumn(TotalEnrolment);
    bio.AddDerivedColumn(FemaleCount);
    demo.AddDerivedColumn(MobileUpdateVolume);
    KeyedAfterNormalizing(enrolLoaded.value, TotalEnrolment, enrol.derived);
    KeyedAfterNormalizing(bioLoaded.value, FemaleCount, bio.derived);
    KeyedAfterNormalizing(demoLoaded.value, MobileUpdateVolume, demo.derived);
    r := Success(Merge(enrol.Keyed(), bio.Keyed(), demo.Keyed()));
  }

  // ---------------------------------------------------------------------------
  // Properties of the batch run
  // ---------------------------------------------------------------------------

  /** Nothing is written unless every category has at least one row; a
      category without files is reported before any category without rows,
      and within each kind enrolment, then biometric, then demographic. */
  lemma EtlFailFast(enrolFiles: seq<seq<Row<EnrolmentAges>>>,
                    bioFiles: seq<seq<Row<BiometricAges>>>,
                    demoFiles: seq<seq<Row<DemographicAges>>>)
    ensures Etl(enrolFiles, bioFiles, demoFiles).Success? <==>
            Concat(enrolFiles) != [] && Concat(bioFiles) != [] && Concat(demoFiles) != []
    ensures enrolFiles == [] ==> Etl(enrolFiles, bioFiles, demoFiles) == Failure(MissingColumns(Enrolment))
    ensures enrolFiles != [] && bioFiles == [] ==> Etl(enrolFiles, bioFiles, demoFiles) == Failure(MissingColumns(Biometric))
    ensures enrolFiles != [] && bioFiles != [] && demoFiles == [] ==>
            Etl(enrolFiles, bioFiles, demoFiles) == Failure(MissingColumns(Demographic))
    ensures enrolFiles != [] && bioFiles != [] && demoFiles != [] && Concat(enrolFiles) == [] ==>
            Etl(enrolFiles, bioFiles, demoFiles) == Failure(NoRows(Enrolment))
  {
  }

  /** The written records are the merge of the three categories' rows. */
  lemma EtlSuccess(enrolFiles: seq<seq<Row<EnrolmentAges>>>,
                   bioFiles: seq<seq<Row<BiometricAges>>>,
                   demoFiles: seq<seq<Row<DemographicAges>>>)
    requires Etl(enrolFiles, bioFiles, demoFiles).Success?
    ensures Etl(enrolFiles, bioFiles, demoFiles).value ==
            Merge(KeyedMetric(Concat(enrolFiles), TotalEnrolment),
                  KeyedMetric(Concat(bioFiles), FemaleCount),
                  KeyedMetric(Concat(demoFiles), MobileUpdateVolume))
  {
  }

  /** One output record per normalised enrolment key, in ascending
      (state, district) order; a key seen only in the biometric or the
      demographic files gets no record. */
  lemma EtlOneRecordPerEnrolmentKey(enrolFiles: seq<seq<Row<EnrolmentAges>>>,
                                    bioFiles: seq<seq<Row<BiometricAges>>>,
                                    demoFiles: seq<seq<Row<DemographicAges>>>)
    requires Etl(enrolFiles, bioFiles, demoFiles).Success?
    ensures var out := Etl(enrolFiles, bioFiles, demoFiles).value;
            && StrictlySorted(Keys(out), PairLess)
            && (forall i, j :: 0 <= i < j < |out| ==> out[i].Key() != out[j].Key())
            && forall k :: k in Keys(out) <==> k in RowKeys(Concat(enrolFiles))
  {
    var out := Etl(enrolFiles, bioFiles, demoFiles).value;
    EtlSuccess(enrolFiles, bioFiles, demoFiles);
    KeysOfKeyedMetric(Concat(enrolFiles), TotalEnrolment);
    PairLessIsStrictTotalOrder();
    forall i, j | 0 <= i < j < |out| ensures out[i].Key() != out[j].Key() {
      assert PairLess(Keys(out)[i], Keys(out)[j]);
    }
  }

  /** Every output field is the sum, over the raw rows of its category whose
      location normalises to the record's key, of that category's age
      brackets; a key absent from a category therefore reads 0. */
  lemma EtlRecordSums(enrolFiles: seq<seq<Row<EnrolmentAges>>>,
                      bioFiles: seq<seq<Row<BiometricAges>>>,
                      demoFiles: seq<seq<Row<DemographicAges>>>,
                      i: nat)
    requires Etl(enrolFiles, bioFiles, demoFiles).Success?
    requires i < |Etl(enrolFiles, bioFiles, demoFiles).value|
    ensures var rec := Etl(enrolFiles, bioFiles, demoFiles).value[i];
            var female := CategorySum(Concat(bioFiles), FemaleCount, rec.Key());
            && rec.totalEnrolment == CategorySum(Concat(enrolFiles), TotalEnrolment, rec.Key())
            && rec.mobileUpdateVolume == CategorySum(Concat(demoFiles), MobileUpdateVolume, rec.Key())
            && rec.femaleEnrolmentPct == FemaleEnrolmentPct(female, rec.totalEnrolment)
  {
    var k := Etl(enrolFiles, bioFiles, demoFiles).value[i].Key();
    EtlSuccess(enrolFiles, bioFiles, demoFiles);
    CategorySumIsGroupSum(Concat(enrolFiles), TotalEnrolment, k);
    CategorySumIsGroupSum(Concat(bioFiles), FemaleCount, k);
    CategorySumIsGroupSum(Concat(demoFiles), MobileUpdateVolume, k);
  }

  /** A category whose rows never normalise to a key contributes 0 to it. */
  lemma {:induction false} CategorySumAbsent<B>(rows: seq<Row<B>>, metric: B -> int, k: Key)
    requires k !in RowKeys(rows)
    ensures CategorySum(rows, metric, k) == 0
  {
    if rows != [] {
      assert RowKeys(rows[1..]) <= RowKeys(rows) by {
        forall x | x in RowKeys(rows[1..]) ensures x in RowKeys(rows) {
          var i :| 0 <= i < |rows[1..]| && RowKey(rows[1..][i]) == x;
          assert RowKey(rows[i + 1]) == x;
        }
      }
      assert RowKey(rows[0]) in RowKeys(rows);
      CategorySumAbsent(rows[1..], metric, k);
    }
  }

  /** Zero fill: an enrolment key with no biometric rows gets ratio 0 (or no
      ratio when its enrolment total is 0), and one with no demographic rows
      gets volume 0, instead of being dropped. */
  lemma EtlZeroFill(enrolFiles: seq<seq<Row<EnrolmentAges>>>,
                    bioFiles: seq<seq<Row<BiometricAges>>>,
                    demoFiles: seq<seq<Row<DemographicAges>>>,
                    i: nat)
    requires Etl(enrolFiles, bioFiles, demoFiles).Success?
    requires i < |Etl(enrolFiles, bioFiles, demoFiles).value|
    ensures var rec := Etl(enrolFiles, bioFiles, demoFiles).value[i];
            && (rec.Key() !in RowKeys(Concat(bioFiles)) ==>
                  rec.femaleEnrolmentPct == (if rec.totalEnrolment == 0 then None else Some(0.0)))
            && (rec.Key() !in RowKeys(Concat(demoFiles)) ==>
                  rec.mobileUpdateVolume == 0)
  {
    var rec := Etl(enrolFiles, bioFiles, demoFiles).value[i];
    EtlRecordSums(enrolFiles, bioFiles, demoFiles, i);
    if rec.Key() !in RowKeys(Concat(bioFiles)) {
      CategorySumAbsent(Concat(bioFiles), FemaleCount, rec.Key());
      FemaleEnrolmentPctOfNone(rec.totalEnrolment);
    }
    if rec.Key() !in RowKeys(Concat(demoFiles)) {
      CategorySumAbsent(Concat(demoFiles), MobileUpdateVolume, rec.Key());
    }
  }

  /** With non-negative age brackets, every written enrolment total and
      mobile update volume is non-negative. */
  lemma EtlTotalsNonNegative(enrolFiles: seq<seq<Row<EnrolmentAges>>>,
                             bioFiles: seq<seq<Row<BiometricAges>>>,
                             demoFiles: seq<seq<Row<DemographicAges>>>,
                             i: nat)
    requires Etl(enrolFiles, bioFiles, demoFiles).Success?
    requires i < |Etl(enrolFiles, bioFiles, demoFiles).value|
    requires forall r :: r in Concat(enrolFiles) ==> TotalEnrolment(r.ages) >= 0
    requires forall r :: r in Concat(demoFiles) ==> MobileUpdateVolume(r.ages) >= 0
    ensures Etl(enrolFiles, bioFiles, demoFiles).value[i].totalEnrolment >= 0
    ensures Etl(enrolFiles, bioFiles, demoFiles).value[i].mobileUpdateVolume >= 0
  {
    var k := Etl(enrolFiles, bioFiles, demoFiles).value[i].Key();
    EtlSuccess(enrolFiles, bioFiles, demoFiles);
    var enrolRows := Concat(enrolFiles);
    var demoRows := Concat(demoFiles);
    var enrol := KeyedMetric(enrolRows, TotalEnrolment);
    var demo := KeyedMetric(demoRows, MobileUpdateVolume);
    forall j | 0 <= j < |enrol| ensures enrol[j].1 >= 0 {
      assert enrolRows[j] in enrolRows;
    }
    forall j | 0 <= j < |demo| ensures demo[j].1 >= 0 {
      assert demoRows[j] in demoRows;
    }
    SumForNonNegative(enrol, k);
    SumForNonNegative(demo, k);
  }
}
