/**
 * The dashboard's data pipeline over the two SARI extracts.
 *
 * Patients by place of residence (`df`): the legacy age-group label is
 * renamed, the rows are grouped by week label and age group (four counters
 * summed, the population taken as a maximum), and the aggregated frame `df2`
 * gains a `total_diseases` column and a `real_date` column. Hospitals by
 * region (`df_kh`): the rows are grouped by week label and federal state with
 * five summed counters, and the aggregated frame `df_kh_2` gains `real_date`.
 *
 * The frames that the script changes by assigning a column are classes; the
 * grouping and the conversions are functions.
 */
module Dashboard {
  import opened Wrappers
  import opened Keys
  import opened Aggregate
  import opened Calendar
  import opened WeekLabel

  // ---------------------------------------------------------------------------
  // Rows

  /** One row of the patient extract, with the column names given at load time. */
  datatype PatientRecord = PatientRecord(
    weeknrYear: string, region: string, sex: string, ageGroup: string, station: string,
    covid: int, influenza: int, rsv: int, other: int, admission: int, population: int)

  /** The columns of the hospital extract that the dashboard reads. */
  datatype HospitalRecord = HospitalRecord(
    kw: string, bundesland: string,
    covid: int, influenza: int, rsv: int, sonstige: int, aufnahmen: int)

  /** The rows of a frame, projected on its group key and its aggregated columns. */
  function Project<R>(rows: seq<R>, toEntry: R -> Entry): (es: seq<Entry>)
    ensures |es| == |rows|
    ensures forall i :: 0 <= i < |rows| ==> es[i] == toEntry(rows[i])
  {
    seq(|rows|, i requires 0 <= i < |rows| => toEntry(rows[i]))
  }

  // ---------------------------------------------------------------------------
  // The age-group label

  /** The label the extract uses for children from 5 to 14 years, which sorts after "15 - 29". */
  const LEGACY_AGE_GROUP := "5 - 14"
  /** The same age group with a leading zero, which sorts with the others. */
  const AGE_GROUP_5_TO_14 := "05 - 14"

  /** `replace({"5 - 14": "05 - 14"})` on one value: the legacy label is renamed, anything else is kept. */
  function NormaliseAgeGroup(ageGroup: string): (r: string)
    ensures r != LEGACY_AGE_GROUP
    ensures ageGroup == LEGACY_AGE_GROUP ==> r == AGE_GROUP_5_TO_14
    ensures ageGroup != LEGACY_AGE_GROUP ==> r == ageGroup
  {
    if ageGroup == LEGACY_AGE_GROUP then AGE_GROUP_5_TO_14 else ageGroup
  }

  /** The rows after the `age_group` column has been replaced. */
  function NormaliseRows(rows: seq<PatientRecord>): (out: seq<PatientRecord>)
    ensures |out| == |rows|
    ensures forall i :: 0 <= i < |rows| ==> out[i].ageGroup != LEGACY_AGE_GROUP
    ensures forall i :: 0 <= i < |rows| ==> out[i].(ageGroup := rows[i].ageGroup) == rows[i]
    ensures forall i :: 0 <= i < |rows| && rows[i].ageGroup != LEGACY_AGE_GROUP ==> out[i] == rows[i]
    ensures forall i :: 0 <= i < |rows| && rows[i].ageGroup == LEGACY_AGE_GROUP ==> out[i].ageGroup == AGE_GROUP_5_TO_14
  {
    seq(|rows|, i requires 0 <= i < |rows| => rows[i].(ageGroup := NormaliseAgeGroup(rows[i].ageGroup)))
  }

  /** Replacing the label a second time changes nothing. */
  lemma NormaliseIdempotent(rows: seq<PatientRecord>)
    ensures NormaliseRows(NormaliseRows(rows)) == NormaliseRows(rows)
  {
  }

  /** Rows without the legacy label are left exactly as they are. */
  lemma NormaliseCleanRows(rows: seq<PatientRecord>)
    requires forall i :: 0 <= i < |rows| ==> rows[i].ageGroup != LEGACY_AGE_GROUP
    ensures NormaliseRows(rows) == rows
  {
  }

  /** The patient frame `df` of total_diseases.py, whose `age_group` column is rewritten in place (line 30). */
  class PatientFrame {
    var rows: seq<PatientRecord>

    constructor (loaded: seq<PatientRecord>)
      ensures rows == loaded
    {
      rows := loaded;
    }

    /** `df["age_group"] = df["age_group"].replace({"5 - 14": "05 - 14"})`. */
    method NormaliseAgeGroups()
      modifies this
      ensures rows == NormaliseRows(old(rows))
      ensures forall i :: 0 <= i < |rows| ==> rows[i].ageGroup != LEGACY_AGE_GROUP
    {
      rows := NormaliseRows(rows);
    }
  }

  // ---------------------------------------------------------------------------
  // The patient aggregation

  const COVID := 0
  const INFLUENZA := 1
  const RSV := 2
  const OTHER := 3
  const POPULATION := 4

  /** `{"covid": "sum", "influenza": "sum", "rsv": "sum", "other": "sum", "population": "max"}`. */
  const PATIENT_REDUCERS: seq<Reducer> := [Sum, Sum, Sum, Sum, Max]

  /** `groupby(["weeknr_year", "age_group"])`. */
  function PatientKey(r: PatientRecord): Key {
    Key(r.weeknrYear, r.ageGroup)
  }

  function PatientEntry(r: PatientRecord): Entry {
    Entry(PatientKey(r), [r.covid, r.influenza, r.rsv, r.other, r.population])
  }

  function PatientEntries(rows: seq<PatientRecord>): (es: seq<Entry>)
    ensures |es| == |rows| && HasWidth(es, |PATIENT_REDUCERS|)
  {
    Project(rows, PatientEntry)
  }

  /**
   * `df2` as total_diseases.py builds it at lines 31-43: one row per key present in the input, in
   * ascending key order, with each counter summed over the rows of its key
   * and the population the largest of them.
   */
  function GroupPatients(rows: seq<PatientRecord>): (summary: seq<Entry>)
    ensures IsGrouping(PatientEntries(rows), PATIENT_REDUCERS, summary)
  {
    GroupBy(PatientEntries(rows), PATIENT_REDUCERS)
  }

  /** The keys of the aggregated frame are exactly the (week, age group) pairs of the input rows. */
  lemma PatientGroupKeys(rows: seq<PatientRecord>)
    ensures KeysOf(GroupPatients(rows)) == set r | r in rows :: PatientKey(r)
  {
    var es := PatientEntries(rows);
    forall k | k in KeysOf(es)
      ensures k in set r | r in rows :: PatientKey(r)
    {
      var e :| e in es && e.key == k;
      var i :| 0 <= i < |es| && es[i] == e;
      assert PatientKey(rows[i]) == k;
    }
    forall k | k in set r | r in rows :: PatientKey(r)
      ensures k in KeysOf(es)
    {
      var r :| r in rows && PatientKey(r) == k;
      var i :| 0 <= i < |rows| && rows[i] == r;
      assert es[i].key == k;
    }
  }

  /** Each aggregated row's population is at least that of every input row of its key, and equals one of them. */
  lemma PopulationIsMaximum(rows: seq<PatientRecord>, s: Entry)
    requires s in GroupPatients(rows)
    ensures |s.values| == |PATIENT_REDUCERS|
    ensures forall r :: r in rows && PatientKey(r) == s.key ==> r.population <= s.values[POPULATION]
    ensures exists r :: r in rows && PatientKey(r) == s.key && r.population == s.values[POPULATION]
  {
    var es := PatientEntries(rows);
    assert IsGrouping(es, PATIENT_REDUCERS, GroupPatients(rows));
    assert Reduces(es, PATIENT_REDUCERS[POPULATION], s.key, POPULATION, s.values[POPULATION]);
    MaxOfEntries(rows, s.key, s.values[POPULATION]);
  }

  /** A maximum of the projected population column is a maximum over the records. */
  lemma MaxOfEntries(rows: seq<PatientRecord>, k: Key, v: int)
    requires IsMaxOf(PatientEntries(rows), k, POPULATION, v)
    ensures forall r :: r in rows && PatientKey(r) == k ==> r.population <= v
    ensures exists r :: r in rows && PatientKey(r) == k && r.population == v
  {
    var es := PatientEntries(rows);
    forall r | r in rows && PatientKey(r) == k
      ensures r.population <= v
    {
      var i :| 0 <= i < |rows| && rows[i] == r;
      assert es[i] in es;
    }
    var e :| e in es && e.key == k && e.values[POPULATION] == v;
    var i :| 0 <= i < |es| && es[i] == e;
    assert rows[i] in rows && PatientKey(rows[i]) == k;
  }

  /** After the rename, no aggregated row carries the legacy label. */
  lemma NoLegacyGroup(rows: seq<PatientRecord>)
    ensures forall s :: s in GroupPatients(NormaliseRows(rows)) ==> s.key.second != LEGACY_AGE_GROUP
  {
    var clean := NormaliseRows(rows);
    PatientGroupKeys(clean);
    forall s | s in GroupPatients(clean)
      ensures s.key.second != LEGACY_AGE_GROUP
    {
      assert s.key in KeysOf(GroupPatients(clean));
      var r :| r in clean && PatientKey(r) == s.key;
      var i :| 0 <= i < |clean| && clean[i] == r;
    }
  }

  /**
   * The rename merges the two spellings of the age group: after it, a week's
   * "05 - 14" group adds up the rows that carried either label.
   */
  lemma {:induction false} LegacyRowsMerge(rows: seq<PatientRecord>, week: string, j: nat)
    requires j < |PATIENT_REDUCERS|
    ensures ColumnSum(PatientEntries(NormaliseRows(rows)), Key(week, AGE_GROUP_5_TO_14), j)
      == ColumnSum(PatientEntries(rows), Key(week, AGE_GROUP_5_TO_14), j)
      + ColumnSum(PatientEntries(rows), Key(week, LEGACY_AGE_GROUP), j)
    decreases |rows|
  {
    if rows != [] {
      LegacyRowsMerge(rows[1..], week, j);
      assert NormaliseRows(rows)[1..] == NormaliseRows(rows[1..]);
      assert PatientEntries(rows)[1..] == PatientEntries(rows[1..]);
      assert PatientEntries(NormaliseRows(rows))[1..] == PatientEntries(NormaliseRows(rows[1..]));
    }
  }

  /** Projection distributes over concatenation. */
  lemma ProjectConcat<R>(a: seq<R>, b: seq<R>, toEntry: R -> Entry)
    ensures Project(a + b, toEntry) == Project(a, toEntry) + Project(b, toEntry)
  {
  }

  /** Projecting two orderings of the same rows gives two orderings of the same entries. */
  lemma {:induction false} ProjectPermutation<R>(a: seq<R>, b: seq<R>, toEntry: R -> Entry)
    requires multiset(a) == multiset(b)
    ensures multiset(Project(a, toEntry)) == multiset(Project(b, toEntry))
    decreases |a|
  {
    if a == [] {
      assert |b| == |multiset(b)| == 0;
    } else {
      var x := a[0];
      assert x in multiset(b);
      var i :| 0 <= i < |b| && b[i] == x;
      var front, back := b[..i], b[i + 1..];
      RemoveMatching(a, b, i);
      assert b == front + [x] + back;
      assert a == [x] + a[1..];
      ProjectPermutation(a[1..], front + back, toEntry);
      ProjectConcat([x], a[1..], toEntry);
      ProjectConcat(front, [x], toEntry);
      ProjectConcat(front + [x], back, toEntry);
      ProjectConcat(front, back, toEntry);
    }
  }

  /** The aggregated frame does not depend on the order of the input rows. */
  lemma GroupPatientsOrderIndependent(rows: seq<PatientRecord>, shuffled: seq<PatientRecord>)
    requires multiset(rows) == multiset(shuffled)
    ensures GroupPatients(rows) == GroupPatients(shuffled)
  {
    ProjectPermutation(rows, shuffled, PatientEntry);
    GroupByOrderIndependent(PatientEntries(rows), PatientEntries(shuffled), PATIENT_REDUCERS);
  }

  // ---------------------------------------------------------------------------
  // total_diseases

  /** `df2[["covid", "influenza", "rsv", "other"]].sum(axis=1)` of one row. */
  function TotalDiseases(e: Entry): int
    requires |e.values| == |PATIENT_REDUCERS|
  {
    e.values[COVID] + e.values[INFLUENZA] + e.values[RSV] + e.values[OTHER]
  }

  /** The `total_diseases` column of `df2`: one total per row, in the rows' order. */
  function TotalsColumn(rows: seq<Entry>): (t: seq<int>)
    requires HasWidth(rows, |PATIENT_REDUCERS|)
    ensures |t| == |rows|
    ensures forall i :: 0 <= i < |rows| ==> t[i] == TotalDiseases(rows[i])
  {
    seq(|rows|, i requires 0 <= i < |rows| => TotalDiseases(rows[i]))
  }

  function SumOf(xs: seq<int>): int {
    if xs == [] then 0 else xs[0] + SumOf(xs[1..])
  }

  /** The four disease counters added up over all patient rows. */
  function CounterTotal(rows: seq<PatientRecord>): int {
    if rows == [] then 0
    else rows[0].covid + rows[0].influenza + rows[0].rsv + rows[0].other + CounterTotal(rows[1..])
  }

  /** A frame's totals add up to the totals of its four counter columns. */
  lemma {:induction false} TotalsByColumn(rows: seq<Entry>)
    requires HasWidth(rows, |PATIENT_REDUCERS|)
    ensures SumOf(TotalsColumn(rows)) == ColumnTotal(rows, COVID) + ColumnTotal(rows, INFLUENZA)
      + ColumnTotal(rows, RSV) + ColumnTotal(rows, OTHER)
    decreases |rows|
  {
    if rows != [] {
      TotalsByColumn(rows[1..]);
      assert TotalsColumn(rows)[1..] == TotalsColumn(rows[1..]);
    }
  }

  lemma {:induction false} CounterTotalByColumn(rows: seq<PatientRecord>)
    ensures var es := PatientEntries(rows);
      CounterTotal(rows) == ColumnTotal(es, COVID) + ColumnTotal(es, INFLUENZA)
        + ColumnTotal(es, RSV) + ColumnTotal(es, OTHER)
    decreases |rows|
  {
    if rows != [] {
      CounterTotalByColumn(rows[1..]);
      assert PatientEntries(rows)[1..] == PatientEntries(rows[1..]);
    }
  }

  /** Summed over the aggregated frame, `total_diseases` adds up to the four counters over all input rows. */
  lemma TotalDiseasesConserved(rows: seq<PatientRecord>)
    ensures SumOf(TotalsColumn(GroupPatients(rows))) == CounterTotal(rows)
  {
    var es := PatientEntries(rows);
    TotalsByColumn(GroupPatients(rows));
    CounterTotalByColumn(rows);
    GroupByConservesSum(es, PATIENT_REDUCERS, COVID);
    GroupByConservesSum(es, PATIENT_REDUCERS, INFLUENZA);
    GroupByConservesSum(es, PATIENT_REDUCERS, RSV);
    GroupByConservesSum(es, PATIENT_REDUCERS, OTHER);
  }

  // ---------------------------------------------------------------------------
  // real_date

  /** The week-label column of an aggregated frame: the first grouping key. */
  function WeekLabels(rows: seq<Entry>): (labels: seq<string>)
    ensures |labels| == |rows|
  {
    seq(|rows|, i requires 0 <= i < |rows| => rows[i].key.first)
  }

  /**
   * `pd.to_datetime(column + "-1", format="%W. KW %Y-%w")` over a column: the
   * dates, or `None` when one label makes the conversion raise.
   */
  function ParseColumn(labels: seq<string>): (r: Option<seq<Date>>)
    ensures r.Some? <==> forall i :: 0 <= i < |labels| ==> ToDatetime(labels[i]).Some?
    ensures r.Some? ==> |r.value| == |labels|
    ensures r.Some? ==> forall i :: 0 <= i < |labels| ==> ToDatetime(labels[i]) == Some(r.value[i])
  {
    ConvertColumn(labels, ToDatetime)
  }

  /** Every label converted by `convert`, or `None` as soon as one conversion fails. */
  function ConvertColumn(labels: seq<string>, convert: string -> Option<Date>): (r: Option<seq<Date>>)
    ensures r.Some? <==> forall i :: 0 <= i < |labels| ==> convert(labels[i]).Some?
    ensures r.Some? ==> |r.value| == |labels|
    ensures r.Some? ==> forall i :: 0 <= i < |labels| ==> convert(labels[i]) == Some(r.value[i])
  {
    if labels == [] then Some([])
    else
      var head := convert(labels[0]);
      var tail := ConvertColumn(labels[1..], convert);
      assert forall i :: 1 <= i < |labels| ==> labels[i] == labels[1..][i - 1];
      if head.Some? && tail.Some? then Some([head.value] + tail.value) else None
  }

  /** Every date of a converted column is a Monday. */
  lemma ParseColumnMondays(labels: seq<string>)
    requires ParseColumn(labels).Some?
    ensures forall d :: d in ParseColumn(labels).value ==> Weekday(d) == MONDAY
  {
    var ds := ParseColumn(labels).value;
    forall d | d in ds
      ensures Weekday(d) == MONDAY
    {
      var i :| 0 <= i < |ds| && ds[i] == d;
      ToDatetimeIsMonday(labels[i]);
    }
  }

  /** `df2`: the aggregated patient rows and the two columns total_diseases.py adds to them at lines 45 and 46. */
  class DiseaseSummary {
    var rows: seq<Entry>
    var totalDiseases: Option<seq<int>>
    var realDate: Option<seq<Date>>

    ghost predicate Valid()
      reads this
    {
      && HasWidth(rows, |PATIENT_REDUCERS|)
      && (totalDiseases.Some? ==> |totalDiseases.value| == |rows|)
      && (realDate.Some? ==> |realDate.value| == |rows|)
    }

    /** `df2 = df.groupby(["weeknr_year", "age_group"]).aggregate(...).reset_index()` (total_diseases.py:31-43). */
    constructor FromPatients(df: PatientFrame)
      ensures rows == GroupPatients(df.rows)
      ensures totalDiseases == None && realDate == None
      ensures Valid()
    {
      rows := GroupPatients(df.rows);
      totalDiseases := None;
      realDate := None;
    }

    /** `df2["total_diseases"] = ...`: one total per row; nothing else changes. */
    method AddTotalDiseases()
      requires Valid()
      modifies this
      ensures rows == old(rows) && realDate == old(realDate)
      ensures totalDiseases == Some(TotalsColumn(rows))
      ensures Valid()
    {
      totalDiseases := Some(TotalsColumn(rows));
    }

    /**
     * `df2["real_date"] = pd.to_datetime(...)`. When a label cannot be
     * converted the conversion raises before the assignment: `ok` is false and
     * the frame is as it was.
     */
    method AddRealDate() returns (ok: bool)
      requires Valid()
      modifies this
      ensures rows == old(rows) && totalDiseases == old(totalDiseases)
      ensures ok <==> ParseColumn(WeekLabels(rows)).Some?
      ensures realDate == if ok then ParseColumn(WeekLabels(rows)) else old(realDate)
      ensures Valid()
    {
      var labels := WeekLabels(rows);
      var dates := ParseColumn(labels);
      ok := dates.Some?;
      if ok {
        assert |dates.value| == |labels| == |rows|;
        realDate := dates;
      }
    }
  }

  /**
   * total_diseases.py:30-46 one after the other: normalise the labels, aggregate, add the
   * totals, add the dates. `ok` is false when the date conversion raises.
   */
  method DiseaseDashboard(loaded: seq<PatientRecord>) returns (df2: DiseaseSummary, ok: bool)
    ensures fresh(df2) && df2.Valid()
    ensures df2.rows == GroupPatients(NormaliseRows(loaded))
    ensures df2.totalDiseases == Some(TotalsColumn(df2.rows))
    ensures SumOf(df2.totalDiseases.value) == CounterTotal(loaded)
    ensures ok <==> ParseColumn(WeekLabels(df2.rows)).Some?
    ensures ok ==> df2.realDate == ParseColumn(WeekLabels(df2.rows))
    ensures ok ==> forall d :: d in df2.realDate.value ==> Weekday(d) == MONDAY
    ensures !ok ==> df2.realDate == None
  {
    var df := new PatientFrame(loaded);
    df.NormaliseAgeGroups();
    df2 := new DiseaseSummary.FromPatients(df);
    df2.AddTotalDiseases();
    TotalDiseasesConserved(df.rows);
    NormalisedCounterTotal(loaded);
    ok := df2.AddRealDate();
    if ok {
      ParseColumnMondays(WeekLabels(df2.rows));
    }
  }

  /** The rename leaves the counters alone. */
  lemma {:induction false} NormalisedCounterTotal(rows: seq<PatientRecord>)
    ensures CounterTotal(NormaliseRows(rows)) == CounterTotal(rows)
    decreases |rows|
  {
    if rows != [] {
      NormalisedCounterTotal(rows[1..]);
      assert NormaliseRows(rows)[1..] == NormaliseRows(rows[1..]);
    }
  }

  // ---------------------------------------------------------------------------
  // The hospital aggregation

  const AUFNAHMEN := 4

  /** `{"COVID": "sum", "INFLUENZA": "sum", "RSV": "sum", "SONSTIGE": "sum", "AUFNAHMEN": "sum"}`. */
  const HOSPITAL_REDUCERS: seq<Reducer> := [Sum, Sum, Sum, Sum, Sum]

  /** `groupby(["KW", "BUNDESLAND"])`. */
  function HospitalKey(r: HospitalRecord): Key {
    Key(r.kw, r.bundesland)
  }

  function HospitalEntry(r: HospitalRecord): Entry {
    Entry(HospitalKey(r), [r.covid, r.influenza, r.rsv, r.sonstige, r.aufnahmen])
  }

  function HospitalEntries(rows: seq<HospitalRecord>): (es: seq<Entry>)
    ensures |es| == |rows| && HasWidth(es, |HOSPITAL_REDUCERS|)
  {
    Project(rows, HospitalEntry)
  }

  /**
   * `df_kh_2` as total_diseases.py builds it at lines 68-76: one row per (week, state) pair present
   * in the input, in ascending key order, each of the five counters summed
   * over the rows of its key.
   */
  function GroupAdmissions(rows: seq<HospitalRecord>): (summary: seq<Entry>)
    ensures IsGrouping(HospitalEntries(rows), HOSPITAL_REDUCERS, summary)
  {
    GroupBy(HospitalEntries(rows), HOSPITAL_REDUCERS)
  }

  /** The keys of `df_kh_2` are exactly the (week, state) pairs of the input rows. */
  lemma HospitalGroupKeys(rows: seq<HospitalRecord>)
    ensures KeysOf(GroupAdmissions(rows)) == set r | r in rows :: HospitalKey(r)
  {
    var es := HospitalEntries(rows);
    forall k | k in KeysOf(es)
      ensures k in set r | r in rows :: HospitalKey(r)
    {
      var e :| e in es && e.key == k;
      var i :| 0 <= i < |es| && es[i] == e;
      assert HospitalKey(rows[i]) == k;
    }
    forall k | k in set r | r in rows :: HospitalKey(r)
      ensures k in KeysOf(es)
    {
      var r :| r in rows && HospitalKey(r) == k;
      var i :| 0 <= i < |rows| && rows[i] == r;
      assert es[i].key == k;
    }
  }

  /** Admissions added up over all hospital rows. */
  function AdmissionsTotal(rows: seq<HospitalRecord>): int {
    if rows == [] then 0 else rows[0].aufnahmen + AdmissionsTotal(rows[1..])
  }

  lemma {:induction false} AdmissionsColumn(rows: seq<HospitalRecord>)
    ensures ColumnTotal(HospitalEntries(rows), AUFNAHMEN) == AdmissionsTotal(rows)
    decreases |rows|
  {
    if rows != [] {
      AdmissionsColumn(rows[1..]);
      assert HospitalEntries(rows)[1..] == HospitalEntries(rows[1..]);
    }
  }

  /** Summed over `df_kh_2`, `AUFNAHMEN` adds up to the admissions of all input rows. */
  lemma AdmissionsConserved(rows: seq<HospitalRecord>)
    ensures ColumnTotal(GroupAdmissions(rows), AUFNAHMEN) == AdmissionsTotal(rows)
  {
    AdmissionsColumn(rows);
    GroupByConservesSum(HospitalEntries(rows), HOSPITAL_REDUCERS, AUFNAHMEN);
  }

  /** `df_kh_2` does not depend on the order of the hospital rows. */
  lemma GroupAdmissionsOrderIndependent(rows: seq<HospitalRecord>, shuffled: seq<HospitalRecord>)
    requires multiset(rows) == multiset(shuffled)
    ensures GroupAdmissions(rows) == GroupAdmissions(shuffled)
  {
    ProjectPermutation(rows, shuffled, HospitalEntry);
    GroupByOrderIndependent(HospitalEntries(rows), HospitalEntries(shuffled), HOSPITAL_REDUCERS);
  }

  /** `df_kh_2`: the aggregated hospital rows and the `real_date` column total_diseases.py adds at line 78. */
  class AdmissionSummary {
    var rows: seq<Entry>
    var realDate: Option<seq<Date>>

    ghost predicate Valid()
      reads this
    {
      && HasWidth(rows, |HOSPITAL_REDUCERS|)
      && (realDate.Some? ==> |realDate.value| == |rows|)
    }

    /** `df_kh_2 = df_kh.groupby(["KW", "BUNDESLAND"]).aggregate(...).reset_index()` (total_diseases.py:68-76). */
    constructor FromRecords(records: seq<HospitalRecord>)
      ensures rows == GroupAdmissions(records) && realDate == None
      ensures Valid()
    {
      rows := GroupAdmissions(records);
      realDate := None;
    }

    /** `df_kh_2['real_date'] = pd.to_datetime(...)`; `ok` is false, and nothing changes, when it raises. */
    method AddRealDate() returns (ok: bool)
      requires Valid()
      modifies this
      ensures rows == old(rows)
      ensures ok <==> ParseColumn(WeekLabels(rows)).Some?
      ensures realDate == if ok then ParseColumn(WeekLabels(rows)) else old(realDate)
      ensures Valid()
    {
      var labels := WeekLabels(rows);
      var dates := ParseColumn(labels);
      ok := dates.Some?;
      if ok {
        assert |dates.value| == |labels| == |rows|;
        realDate := dates;
      }
    }
  }

  /** total_diseases.py:68-78 one after the other: aggregate the hospital rows, then add the dates. */
  method AdmissionDashboard(loaded: seq<HospitalRecord>) returns (dfKh2: AdmissionSummary, ok: bool)
    ensures fresh(dfKh2) && dfKh2.Valid()
    ensures dfKh2.rows == GroupAdmissions(loaded)
    ensures ColumnTotal(dfKh2.rows, AUFNAHMEN) == AdmissionsTotal(loaded)
    ensures ok <==> ParseColumn(WeekLabels(dfKh2.rows)).Some?
    ensures ok ==> dfKh2.realDate == ParseColumn(WeekLabels(dfKh2.rows))
    ensures ok ==> forall d :: d in dfKh2.realDate.value ==> Weekday(d) == MONDAY
    ensures !ok ==> dfKh2.realDate == None
  {
    dfKh2 := new AdmissionSummary.FromRecords(loaded);
    AdmissionsConserved(loaded);
    ok := dfKh2.AddRealDate();
    if ok {
      ParseColumnMondays(WeekLabels(dfKh2.rows));
    }
  }

  // ---------------------------------------------------------------------------
  // A worked case

  /**
   * Two rows of one week and age group, written once with the legacy label
   * and once without, end up in one aggregated row: the counters added, the
   * population the larger one (not the sum), and a total of 11.
   */
  lemma TwoRowsOneGroup()
    ensures var rows := [
        PatientRecord("1. KW 2023", "Wien", "M", "5 - 14", "Normalstation", 3, 1, 0, 0, 4, 1000),
        PatientRecord("1. KW 2023", "Wien", "W", "05 - 14", "Normalstation", 5, 0, 2, 0, 7, 1000)];
      var summary := GroupPatients(NormaliseRows(rows));
      && summary == [Entry(Key("1. KW 2023", "05 - 14"), [8, 1, 2, 0, 1000])]
      && TotalsColumn(summary) == [11]
  {
    var rows := [
      PatientRecord("1. KW 2023", "Wien", "M", "5 - 14", "Normalstation", 3, 1, 0, 0, 4, 1000),
      PatientRecord("1. KW 2023", "Wien", "W", "05 - 14", "Normalstation", 5, 0, 2, 0, 7, 1000)];
    var clean := NormaliseRows(rows);
    var k := Key("1. KW 2023", "05 - 14");
    assert clean[0] == rows[0].(ageGroup := "05 - 14");
    assert clean[1] == rows[1];
    var es := PatientEntries(clean);
    assert es[0] == Entry(k, [3, 1, 0, 0, 1000]);
    assert es[1] == Entry(k, [5, 0, 2, 0, 1000]);
    assert es[1..][1..] == [];
    assert GroupBy(es[1..], PATIENT_REDUCERS) == [es[1]];
    assert Combine(es[1].values, es[0].values, PATIENT_REDUCERS) == [8, 1, 2, 0, 1000];
    var summary := GroupPatients(clean);
    assert summary == [Entry(k, [8, 1, 2, 0, 1000])];
    assert TotalDiseases(summary[0]) == 11;
  }
}
