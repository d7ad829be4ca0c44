/** The whole workbench as the live calculation builds it from scans and issues, and the proof
    that the normaliser keeps it. */
module LiveTrends {
  import opened Wrappers
  import opened Text
  import opened Counting
  import opened Domain
  import opened Series
  import opened Sections
  import opened Json
  import opened Normalizer
  import opened Profiles
  import opened ScanTimes
  import opened SizeProfiles
  import opened PageProfiles
  import opened Statistics
  import opened WorkbenchBuilder
  import opened Workbench

  // ---------------------------------------------------------------- findings per month

  /** A row of the findings series: a period and its severity counters. */
  function FindingRow(row: Row): Value
  {
    Obj(map k | k in SEVERITY_COLUMNS + {"period"} ::
      if k == "period" then Str(row.period) else Num(CellOf(row.cells, FINDINGS, k)))
  }

  function FindingRows(rows: seq<Row>): (r: seq<Value>)
    ensures |r| == |rows| && forall i :: 0 <= i < |r| ==> r[i] == FindingRow(rows[i])
  {
    seq(|rows|, i requires 0 <= i < |rows| => FindingRow(rows[i]))
  }

  function RunningRow(r: Running): Value
  {
    Obj(map["period" := Str(r.period), "monthly_total" := Num(r.monthlyTotal),
            "cumulative_total" := Num(r.cumulativeTotal)])
  }

  function RunningRows(series: seq<Running>): (r: seq<Value>)
    ensures |r| == |series| && forall i :: 0 <= i < |r| ==> r[i] == RunningRow(series[i])
  {
    seq(|series|, i requires 0 <= i < |series| => RunningRow(series[i]))
  }

  /** One list of the findings series, per week, month or year. */
  ghost predicate ShowsFindings(rows: Value, issues: seq<Issue>, period: Period, current: string)
  {
    exists table ::
      Charted(table, FindingsOf(issues), period, FINDING_SHAPE, current) && rows == Arr(FindingRows(table))
  }

  /** The findings of a bundle: week, month and year. */
  ghost predicate ShowsSeries(findings: Value, issues: seq<Issue>, now: Now)
  {
    && Full(findings, PERIODS)
    && ShowsFindings(Get(findings, "week"), issues, Week, now.week)
    && ShowsFindings(Get(findings, "month"), issues, Month, now.month)
    && ShowsFindings(Get(findings, "year"), issues, Year, now.year)
  }

  /** The first two monthly lists: findings by severity, and their running total. */
  ghost predicate ShowsMonths(criticality: Value, cumulative: Value, issues: seq<Issue>, current: string)
  {
    exists months, series ::
      && Charted(months, FindingsOf(issues), Month, FINDING_SHAPE, current) && RunsUp(series, months)
      && criticality == Arr(FindingRows(months)) && cumulative == Arr(RunningRows(series))
  }

  lemma FindingsFit(issues: seq<Issue>)
    ensures forall e :: e in FindingsOf(issues) ==> Fits(e, FINDING_SHAPE)
  {
    forall e | e in FindingsOf(issues) ensures Fits(e, FINDING_SHAPE) {
      var i :| 0 <= i < |issues| && FindingsOf(issues)[i] == e;
      FindingTotals(issues[i]);
    }
  }

  method BuildFindings(issues: seq<Issue>, period: Period, current: string) returns (rows: seq<Row>)
    requires current != "" && Trimmed(current)
    ensures Charted(rows, FindingsOf(issues), period, FINDING_SHAPE, current)
  {
    FindingsFit(issues);
    rows := BuildSeries(FindingsOf(issues), period, FINDING_SHAPE, current);
  }

  function FindingsJson(weeks: Value, months: Value, years: Value): Value
  {
    Obj(map["week" := weeks, "month" := months, "year" := years])
  }

  lemma FindingsAt(weeks: Value, months: Value, years: Value)
    ensures var f := FindingsJson(weeks, months, years);
            Full(f, PERIODS) && Get(f, "week") == weeks && Get(f, "month") == months && Get(f, "year") == years
  {
  }

  method BuildFindingsList(issues: seq<Issue>, period: Period, current: string) returns (rows: Value)
    requires current != "" && Trimmed(current)
    ensures ShowsFindings(rows, issues, period, current)
  {
    var table := BuildFindings(issues, period, current);
    rows := Arr(FindingRows(table));
  }

  /** The three findings lists of a bundle. */
  method BuildFindingsSeries(issues: seq<Issue>, now: Now) returns (findings: Value)
    requires Proper(now)
    ensures ShowsSeries(findings, issues, now)
  {
    var weeks := BuildFindingsList(issues, Week, now.week);
    var months := BuildFindingsList(issues, Month, now.month);
    var years := BuildFindingsList(issues, Year, now.year);
    findings := FindingsJson(weeks, months, years);
    FindingsAt(weeks, months, years);
  }

  /** The list of findings is the same wherever the bundle holds it. */
  lemma OneFindingsList(a: Value, b: Value, issues: seq<Issue>, period: Period, current: string)
    requires ShowsFindings(a, issues, period, current) && ShowsFindings(b, issues, period, current)
    ensures a == b
  {
    var s :| Charted(s, FindingsOf(issues), period, FINDING_SHAPE, current) && a == Arr(FindingRows(s));
    var t :| Charted(t, FindingsOf(issues), period, FINDING_SHAPE, current) && b == Arr(FindingRows(t));
    ChartedOnce(s, t, FindingsOf(issues), period, FINDING_SHAPE, current);
  }

  // ---------------------------------------------------------------- a missing list made up again

  lemma FindingAt(row: Row, k: string, default: Value)
    requires k in SEVERITY_COLUMNS + {"period"}
    ensures GetOr(FindingRow(row), k, default) == if k == "period" then Str(row.period)
              else Num(CellOf(row.cells, FINDINGS, k))
  {
  }

  lemma ColumnNames()
    ensures "total" in SEVERITY_COLUMNS && "total" != "period" && "compliance_meta" !in WORKBENCH_KEYS
  {
  }

  lemma FindingRowFields(row: Row, lib: Library)
    ensures CountUnder("total", lib)(FindingRow(row)) == Some(MonthlyTotal()(row))
    ensures PeriodOfRow(FindingRow(row), lib) == Str(row.period)
  {
    ColumnNames();
    FindingAt(row, "total", Num(0));
    FindingAt(row, "period", Str(""));
  }

  lemma {:induction false} AccumulateCounts(rows: seq<Value>, count: Value -> Option<int>,
                                            made: (Value, int, int) -> Value, before: int)
    requires forall r :: r in rows ==> count(r).Some?
    ensures Accumulate(rows, count, made, before).Some? && |Accumulate(rows, count, made, before).value| == |rows|
    decreases |rows|
  {
    if rows != [] {
      assert rows[0] in rows;
      AccumulateCounts(rows[1..], count, made, before + count(rows[0]).value);
    }
  }

  /** Rows whose periods and counts are those of the months. */
  ghost predicate Mirrored(rows: seq<Value>, months: seq<Row>, lib: Library)
  {
    && |rows| == |months|
    && forall i :: 0 <= i < |rows| ==>
         CountUnder("total", lib)(rows[i]) == Some(MonthlyTotal()(months[i]))
             && PeriodOfRow(rows[i], lib) == Str(months[i].period)
  }

  lemma FindingsMirror(months: seq<Row>, lib: Library)
    ensures Mirrored(FindingRows(months), months, lib)
  {
    var rows := FindingRows(months);
    forall i | 0 <= i < |rows|
      ensures CountUnder("total", lib)(rows[i]) == Some(MonthlyTotal()(months[i]))
                && PeriodOfRow(rows[i], lib) == Str(months[i].period)
    {
      FindingRowFields(months[i], lib);
    }
  }

  lemma MadeUp(row: Value, n: int, sum: int, r: Running, lib: Library)
    requires PeriodOfRow(row, lib) == Str(r.period) && r.monthlyTotal == n && r.cumulativeTotal == sum
    ensures CumulativeRow(lib)(row, n, sum) == RunningRow(r)
  {
  }

  lemma SameCounts(rows: seq<Value>, months: seq<Row>, count: Value -> Option<int>, total: Row -> int, i: nat)
    requires i < |rows| == |months| && forall k :: 0 <= k < |rows| ==> count(rows[k]) == Some(total(months[k]))
    ensures Counted(count)(rows[i]) == total(months[i])
    ensures Sum(rows[..i + 1], Counted(count)) == Sum(months[..i + 1], total)
  {
    SumPaired(rows[..i + 1], months[..i + 1], Counted(count), total);
  }

  lemma AccumulatedAt(rows: seq<Value>, months: seq<Row>, count: Value -> Option<int>, total: Row -> int,
                      made: (Value, int, int) -> Value, all: seq<Value>, i: nat)
    requires i < |rows| == |months| && forall k :: 0 <= k < |rows| ==> count(rows[k]) == Some(total(months[k]))
    requires Accumulate(rows, count, made, 0) == Some(all)
    ensures i < |all| && all[i] == made(rows[i], total(months[i]), Sum(months[..i + 1], total))
  {
    RunningTotalsAddUp(rows, count, made, 0, i);
    SameCounts(rows, months, count, total, i);
  }

  lemma CumulativeAt(rows: seq<Value>, months: seq<Row>, series: seq<Running>, made: seq<Value>, i: nat, lib: Library)
    requires Mirrored(rows, months, lib) && RunsUp(series, months) && CumulativeRows(rows, 0, lib) == Some(made)
              && i < |rows|
    ensures i < |made| && made[i] == RunningRow(series[i])
  {
    AccumulatedAt(rows, months, CountUnder("total", lib), MonthlyTotal(), CumulativeRow(lib), made, i);
    MadeUp(rows[i], MonthlyTotal()(months[i]), Sum(months[..i + 1], MonthlyTotal()), series[i], lib);
  }

  /** What the normaliser makes up for a missing running total is the live one. */
  lemma CumulativeComesBack(months: seq<Row>, series: seq<Running>, lib: Library)
    requires RunsUp(series, months)
    ensures CumulativeRows(FindingRows(months), 0, lib) == Some(RunningRows(series))
  {
    var rows := FindingRows(months);
    FindingsMirror(months, lib);
    AccumulateCounts(rows, CountUnder("total", lib), CumulativeRow(lib), 0);
    var made := CumulativeRows(rows, 0, lib).value;
    forall i | 0 <= i < |rows| ensures made[i] == RunningRow(series[i]) {
      CumulativeAt(rows, months, series, made, i, lib);
    }
    assert made == RunningRows(series);
  }

  lemma ListsComeBack(t: Trends, stored: Trends, month: Value, summary: Value, now: Now, lib: Library)
    requires HasLists(t) && CumulativeRows(RowsOf(t.criticality), 0, lib) == Some(RowsOf(t.cumulative))
              && month == t.criticality
    requires stored.criticality == t.criticality || !stored.criticality.Arr?
    requires stored.cumulative == t.cumulative || !stored.cumulative.Arr?
    requires stored.compliance == t.compliance && stored.onboarded == t.onboarded && stored.days == t.days
    ensures TrendsFrom(stored, month, summary, now, lib) == Some(t)
  {
    assert CriticalityFrom(stored.criticality, month, now) == Some(t.criticality);
    ListElseIsList(t.cumulative, CumulativeRows(RowsOf(t.criticality), 0, lib));
    ListElseIsList(t.compliance, ComplianceRows(RowsOf(t.criticality), summary, lib));
    ListElseIsList(t.onboarded, OnboardedRows(RowsOf(t.compliance), 0, lib));
    ListElseIsList(t.days, ResolveDayRows(RowsOf(t.compliance), lib));
  }

  lemma MonthsAddUp(criticality: Value, cumulative: Value, issues: seq<Issue>, current: string, lib: Library)
    requires ShowsMonths(criticality, cumulative, issues, current)
    ensures ShowsFindings(criticality, issues, Month, current)
    ensures criticality.Arr? && criticality.items != [] && cumulative.Arr?
    ensures CumulativeRows(criticality.items, 0, lib) == Some(cumulative.items)
  {
    var months, series :|
      && Charted(months, FindingsOf(issues), Month, FINDING_SHAPE, current) && RunsUp(series, months)
      && criticality == Arr(FindingRows(months)) && cumulative == Arr(RunningRows(series));
    CumulativeComesBack(months, series, lib);
  }

  /** A workbench from before the two lists were stored gets them back as the live build
      makes them, the findings per month being stored beside it. */
  lemma MonthsComeBack(t: Trends, stored: Trends, month: Value, issues: seq<Issue>, current: string, summary: Value,
                       now: Now, lib: Library)
    requires ShowsMonths(t.criticality, t.cumulative, issues, current) && HasLists(t)
    requires ShowsFindings(month, issues, Month, current)
    requires stored.criticality == t.criticality || !stored.criticality.Arr?
    requires stored.cumulative == t.cumulative || !stored.cumulative.Arr?
    requires stored.compliance == t.compliance && stored.onboarded == t.onboarded && stored.days == t.days
    ensures TrendsFrom(stored, month, summary, now, lib) == Some(t)
  {
    MonthsAddUp(t.criticality, t.cumulative, issues, current, lib);
    OneFindingsList(month, t.criticality, issues, Month, current);
    ListsComeBack(t, stored, month, summary, now, lib);
  }

  // ---------------------------------------------------------------- the workbench

  function SectionsOf(b: Bench): Sectioned
  {
    Sectioned(b.times, b.sizes, b.pages)
  }

  /** Every part is there, in the shape the normaliser leaves it. */
  ghost predicate NormalBench(b: Bench)
  {
    && HasLists(b.trends)
    && b.license.Obj? && "technologies" in b.license.fields
    && NormalSections(SectionsOf(b))
    && b.rescanned.Arr?
  }

  /** A workbench built from scans and issues. */
  ghost predicate BuiltFrom(b: Bench, scans: seq<Scan>, issues: seq<Issue>, now: Now)
  {
    && ShowsMonths(b.trends.criticality, b.trends.cumulative, issues, now.month)
    && b.trends.compliance.Arr? && b.trends.onboarded.Arr? && b.trends.days.Arr?
    && b.license.Obj? && "technologies" in b.license.fields
    && ShowsScans(SectionsOf(b), scans, now)
    && b.rescanned.Arr?
  }

  lemma BuiltIsNormal(b: Bench, scans: seq<Scan>, issues: seq<Issue>, now: Now, lib: Library)
    requires BuiltFrom(b, scans, issues, now)
    ensures NormalBench(b)
  {
    MonthsAddUp(b.trends.criticality, b.trends.cumulative, issues, now.month, lib);
    ShownIsNormalised(SectionsOf(b), scans, now);
  }

  lemma PartsStay(b: Bench, trends: Trends, month: Value, summary: Value, now: Now, lib: Library)
    requires TrendsFrom(trends, month, summary, now, lib) == Some(b.trends)
    requires b.license.Obj? && "technologies" in b.license.fields && b.rescanned.Arr?
    requires ScanTimeFrom(b.times, now, lib) == Some(b.times) && SizesFrom(b.sizes, now, lib) == b.sizes
    requires PagesFrom(b.pages, now, lib) == b.pages
    ensures BenchFrom(b.(trends := trends), month, summary, now, lib) == Some(b)
  {
  }

  lemma NormalRestStays(b: Bench, trends: Trends, month: Value, summary: Value, now: Now, lib: Library)
    requires NormalBench(b) && Prints(lib) && TrendsFrom(trends, month, summary, now, lib) == Some(b.trends)
    ensures BenchFrom(b.(trends := trends), month, summary, now, lib) == Some(b)
  {
    NormalSectionsStay(SectionsOf(b), now, lib);
    PartsStay(b, trends, month, summary, now, lib);
  }

  /** The normaliser leaves such a workbench alone, whenever it runs. */
  lemma NormalBenchStays(b: Bench, month: Value, summary: Value, now: Now, lib: Library)
    requires NormalBench(b) && Prints(lib)
    ensures BenchFrom(b, month, summary, now, lib) == Some(b)
  {
    ListsAreKept(b.trends, month, summary, now, lib);
    NormalRestStays(b, b.trends, month, summary, now, lib);
  }

  /** What the model takes as given of a workbench: the lists and tables it does not build. */
  datatype Rest = Rest(compliance: seq<Value>, onboarded: seq<Value>, days: seq<Value>, license: Fields,
                       technologies: seq<Value>,
                       topSizes: seq<Value>, topPages: seq<Value>, rescanned: seq<Value>, rule: Value)

  /** The given parts are in their places. */
  predicate Carries(b: Bench, rest: Rest)
  {
    && b.trends.compliance == Arr(rest.compliance) && b.trends.onboarded == Arr(rest.onboarded)
    && b.trends.days == Arr(rest.days)
    && b.license == Obj(rest.license["technologies" := Arr(rest.technologies)])
    && Get(b.sizes, "top10") == Arr(rest.topSizes) && Get(b.pages, "top10") == Arr(rest.topPages)
    && b.rescanned == Arr(rest.rescanned)
  }

  /** A workbench of these parts, with one more key. */
  function Wrapped(b: Bench, k: string, v: Value): Value
  {
    WithBench(Obj(map[k := v]), b)
  }

  lemma WrappedHolds(b: Bench, k: string, v: Value)
    ensures Full(Wrapped(b, k, v), WORKBENCH_KEYS) && Stored(Wrapped(b, k, v)) == b
    ensures k !in WORKBENCH_KEYS ==> Get(Wrapped(b, k, v), k) == v
  {
    StoredBench(Obj(map[k := v]), b);
  }

  lemma MonthsShown(months: seq<Row>, series: seq<Running>, issues: seq<Issue>, current: string)
    requires Charted(months, FindingsOf(issues), Month, FINDING_SHAPE, current) && RunsUp(series, months)
    ensures ShowsMonths(Arr(FindingRows(months)), Arr(RunningRows(series)), issues, current)
  {
  }

  /** The two findings lists. */
  method BuildMonths(issues: seq<Issue>, current: string) returns (criticality: Value, cumulative: Value)
    requires current != "" && Trimmed(current)
    ensures ShowsMonths(criticality, cumulative, issues, current)
  {
    var months := BuildFindings(issues, Month, current);
    var series := Cumulate(months);
    criticality, cumulative := Arr(FindingRows(months)), Arr(RunningRows(series));
    MonthsShown(months, series, issues, current);
  }

  method BuildBench(scans: seq<Scan>, issues: seq<Issue>, rest: Rest, now: Now) returns (b: Bench)
    requires Proper(now)
    ensures BuiltFrom(b, scans, issues, now) && Carries(b, rest)
  {
    var criticality, cumulative := BuildMonths(issues, now.month);
    var trends := Trends(criticality, cumulative, Arr(rest.compliance), Arr(rest.onboarded), Arr(rest.days));
    var s := BuildSections(scans, now, rest.topSizes, rest.topPages);
    var license := Obj(rest.license["technologies" := Arr(rest.technologies)]);
    b := Bench(trends, license, s.times, s.sizes, s.pages, Arr(rest.rescanned));
    assert SectionsOf(b) == s;
  }

  /** The live workbench: the two findings lists counted from the issues, the bucketed sections
      from the scans. */
  method BuildWorkbench(scans: seq<Scan>, issues: seq<Issue>, rest: Rest, now: Now) returns (w: Value)
    requires Proper(now)
    ensures Full(w, WORKBENCH_KEYS) && BuiltFrom(Stored(w), scans, issues, now)
    ensures Carries(Stored(w), rest) && Get(w, "compliance_meta") == rest.rule
  {
    var b := BuildBench(scans, issues, rest, now);
    w := Wrapped(b, "compliance_meta", rest.rule);
    ColumnNames();
    WrappedHolds(b, "compliance_meta", rest.rule);
  }
}
