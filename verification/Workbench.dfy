/** The workbench of a stored payload, part by part, as the normaliser completes it. */
module Workbench {
  import opened Wrappers
  import opened Counting
  import opened Json
  import opened Statistics
  import opened Normalizer
  import opened Profiles
  import opened ScanTimes
  import opened SizeProfiles
  import opened PageProfiles

  // ---------------------------------------------------------------- conversions that may raise

  /** `list(v)`; None where it raises. */
  function ListOf(v: Value): Option<seq<Value>>
  {
    if v.Arr? then Some(v.items) else if v == Str("") || v == Obj(map[]) then Some([]) else None
  }

  /** `list(v or [])`. */
  function ListOrEmpty(v: Value): Option<seq<Value>>
  {
    ListOf(Or(v, Arr([])))
  }

  /** `dict(v or {})`. */
  function DictOrEmpty(v: Value): Option<Fields>
  {
    if !Truthy(v) then Some(map[]) else if v.Obj? then Some(v.fields) else None
  }

  /** `int(v or 0)`. */
  function IntOrZero(v: Value, lib: Library): Option<int>
  {
    if !Truthy(v) then Some(0) else if v.Num? then Some(v.n) else lib.number(v)
  }

  /** Keeps a value that is a list. */
  function ListElse(v: Value, default: Option<seq<Value>>): Option<Value>
  {
    if v.Arr? then Some(v) else if default.Some? then Some(Arr(default.value)) else None
  }

  // ---------------------------------------------------------------- monthly lists

  const SEVERITY_COLUMNS := {"critical", "high", "medium", "low", "unknown", "total"}

  /** A row of severity counters, all findings of unknown severity. */
  function UnknownRow(period: string, total: int): Value
  {
    Obj(map k | k in SEVERITY_COLUMNS + {"period"} ::
      if k == "period" then Str(period) else if k == "unknown" || k == "total" then Num(total) else Num(0))
  }

  predicate Full(v: Value, keys: set<string>)
  {
    v.Obj? && keys <= v.fields.Keys
  }

  function PeriodOfRow(row: Value, lib: Library): Value
  {
    Str(TextOf(GetOr(row, "period", Str("")), lib))
  }

  predicate AllObjects(rows: seq<Value>)
  {
    forall r :: r in rows ==> r.Obj?
  }

  function CriticalityFrom(v: Value, month: Value, now: Now): Option<Value>
  {
    var rows := ListElse(v, ListOf(month));
    if rows.None? then None
    else if rows.value == Arr([]) then Some(Arr([UnknownRow(now.month, 0)])) else rows
  }

  /** A list of running totals: each row's own count, and the sum up to it; None where a
      row has no count. */
  function Accumulate(rows: seq<Value>, count: Value -> Option<int>, made: (Value, int, int) -> Value,
                      before: int): Option<seq<Value>>
  {
    if rows == [] then Some([])
    else
      var n := count(rows[0]);
      if n.None? then None
      else
        var rest := Accumulate(rows[1..], count, made, before + n.value);
        if rest.None? then None else Some([made(rows[0], n.value, before + n.value)] + rest.value)
  }

  function Counted(count: Value -> Option<int>): Value -> int
  {
    (row: Value) => if count(row).Some? then count(row).value else 0
  }

  lemma SumFromFront(rows: seq<Value>, f: Value -> int, i: nat)
    requires i < |rows|
    ensures Sum(rows[..i + 1], f) == f(rows[0]) + Sum(rows[1..][..i], f)
  {
    assert rows[..i + 1] == [rows[0]] + rows[1..][..i];
    SumConcat([rows[0]], rows[1..][..i], f);
    SumOne([], rows[0], f);
    assert [] + [rows[0]] == [rows[0]];
  }

  lemma AccumulateFront(rows: seq<Value>, count: Value -> Option<int>, made: (Value, int, int) -> Value, before: int)
    returns (n: int, rest: seq<Value>)
    requires rows != [] && Accumulate(rows, count, made, before).Some?
    ensures count(rows[0]) == Some(n) && Accumulate(rows[1..], count, made, before + n) == Some(rest)
    ensures Accumulate(rows, count, made, before) == Some([made(rows[0], n, before + n)] + rest)
  {
    n := count(rows[0]).value;
    rest := Accumulate(rows[1..], count, made, before + n).value;
  }

  /** The running total made up for a row is the sum of the counts up to it. */
  lemma {:induction false} RunningTotalsAddUp(rows: seq<Value>, count: Value -> Option<int>,
                                              made: (Value, int, int) -> Value, before: int, i: nat)
    requires i < |rows|
    ensures var r := Accumulate(rows, count, made, before);
            r.Some? ==>
              && i < |r.value|
              && r.value[i] == made(rows[i], Counted(count)(rows[i]), before + Sum(rows[..i + 1], Counted(count)))
    decreases |rows|
  {
    if Accumulate(rows, count, made, before).Some? {
      var n, rest := AccumulateFront(rows, count, made, before);
      SumFromFront(rows, Counted(count), i);
      if i > 0 {
        assert rows[1..][i - 1] == rows[i];
        RunningTotalsAddUp(rows[1..], count, made, before + n, i - 1);
      }
    }
  }

  function CountUnder(column: string, lib: Library): Value -> Option<int>
  {
    (row: Value) => if row.Obj? then IntOrZero(GetOr(row, column, Num(0)), lib) else None
  }

  function CumulativeRow(lib: Library): (Value, int, int) -> Value
  {
    (row: Value, n: int, sum: int) =>
        Obj(map["period" := PeriodOfRow(row, lib), "monthly_total" := Num(n), "cumulative_total" := Num(sum)])
  }

  /** The running total over the months. */
  function CumulativeRows(rows: seq<Value>, before: int, lib: Library): Option<seq<Value>>
  {
    Accumulate(rows, CountUnder("total", lib), CumulativeRow(lib), before)
  }

  function ComplianceRow(row: Value, apps: int, lib: Library): Value
  {
    Obj(map["period" := PeriodOfRow(row, lib), "total_apps" := Num(apps), "compliant" := Num(apps),
            "non_compliant" := Num(0), "compliance_rate" := Real(if apps > 0 then 100.0 else 0.0)])
  }

  function ComplianceRows(rows: seq<Value>, summary: Value, lib: Library): Option<seq<Value>>
  {
    var apps := IntOrZero(GetOr(summary, "application_count", Num(0)), lib);
    if !summary.Obj? || apps.None? || !AllObjects(rows) then None
    else Some(seq(|rows|, i requires 0 <= i < |rows| => ComplianceRow(rows[i], apps.value, lib)))
  }

  function OnboardedRow(lib: Library): (Value, int, int) -> Value
  {
    (row: Value, n: int, sum: int) =>
        Obj(map["period" := PeriodOfRow(row, lib), "onboarded_count" := Num(n), "cumulative_onboarded" := Num(sum)])
  }

  function OnboardedRows(rows: seq<Value>, before: int, lib: Library): Option<seq<Value>>
  {
    Accumulate(rows, CountUnder("total_apps", lib), OnboardedRow(lib), before)
  }

  function ResolveDayRows(rows: seq<Value>, lib: Library): Option<seq<Value>>
  {
    if !AllObjects(rows) then None
    else Some(seq(|rows|, i requires 0 <= i < |rows| =>
      Obj(map["period" := PeriodOfRow(rows[i], lib), "average_days" := Real(0.0), "fixed_count" := Num(0)])))
  }

  // ---------------------------------------------------------------- license consumption

  function LicenseRow(technology: string, scans: int, apps: int): Value
  {
    Obj(map["technology" := Str(technology), "consumed_units" := Num(scans), "consumed_scans" := Num(scans),
            "consumed_apps" := Num(apps), "peak_concurrent" := Num(0)])
  }

  function LicenseTable(source: string, dastScans: int, dastApps: int, sastScans: int, sastApps: int): Value
  {
    Obj(map["detected_model" := Str("unknown"), "detected_model_label" := Str("Unknown"), "model_source" := Str(source),
            "technologies" := Arr(LicenseRows(dastScans, dastApps, sastScans, sastApps)),
            "summary" := LicenseSummary(dastScans + sastScans, dastApps + sastApps)])
  }

  function LicenseFrom(v: Value, lib: Library): Option<Value>
  {
    if !v.Obj? then Some(LicenseTable("unknown", 0, 0, 0, 0))
    else if "technologies" in v.fields then Some(v)
    else
      var dast, sast := DictOrEmpty(Get(v, "dast")), DictOrEmpty(Get(v, "sast"));
      if dast.None? || sast.None? then None
      else Some(LicenseTable("legacy",
                             CountOf(dast.value, "consumed_scans", lib), CountOf(dast.value, "consumed_apps", lib),
                             CountOf(sast.value, "consumed_scans", lib), CountOf(sast.value, "consumed_apps", lib)))
  }

  lemma LicenseStays(v: Value, lib: Library)
    requires LicenseFrom(v, lib).Some?
    ensures LicenseFrom(LicenseFrom(v, lib).value, lib) == LicenseFrom(v, lib)
  {
  }

  function RowCount(column: string): Value -> int
  {
    (row: Value) => var v := Get(row, column); if v.Num? then v.n else 0
  }

  lemma LicenseRowCounts(technology: string, scans: int, apps: int)
    ensures RowCount("consumed_scans")(LicenseRow(technology, scans, apps)) == scans
    ensures RowCount("consumed_apps")(LicenseRow(technology, scans, apps)) == apps
  {
    var row := LicenseRow(technology, scans, apps);
    assert Get(row, "consumed_scans") == Num(scans);
    assert Get(row, "consumed_apps") == Num(apps);
  }

  lemma SumOfFour(f: Value -> int, a: Value, b: Value, c: Value, d: Value)
    ensures Sum([a, b, c, d], f) == f(a) + f(b) + f(c) + f(d)
  {
    SumOne([], a, f);
    SumOne([a], b, f);
    SumOne([a, b], c, f);
    SumOne([a, b, c], d, f);
    assert [] + [a] == [a] && [a] + [b] == [a, b] && [a, b] + [c] == [a, b, c] && [a, b, c] + [d] == [a, b, c, d];
  }

  function LicenseRows(dastScans: int, dastApps: int, sastScans: int, sastApps: int): seq<Value>
  {
    [LicenseRow("DAST", dastScans, dastApps), LicenseRow("SAST", sastScans, sastApps), LicenseRow("SCA", 0, 0),
     LicenseRow("IAST", 0, 0)]
  }

  lemma RowsAddUp(f: Value -> int, a: Value, b: Value, c: Value, d: Value, x: int, y: int)
    requires f(a) == x && f(b) == y && f(c) == 0 && f(d) == 0
    ensures Sum([a, b, c, d], f) == x + y
  {
    SumOfFour(f, a, b, c, d);
  }

  lemma LicenseScans(dastScans: int, dastApps: int, sastScans: int, sastApps: int)
    ensures Sum(LicenseRows(dastScans, dastApps, sastScans, sastApps), RowCount("consumed_scans"))
              == dastScans + sastScans
  {
    LicenseRowCounts("DAST", dastScans, dastApps);
    LicenseRowCounts("SAST", sastScans, sastApps);
    LicenseRowCounts("SCA", 0, 0);
    LicenseRowCounts("IAST", 0, 0);
    RowsAddUp(RowCount("consumed_scans"), LicenseRow("DAST", dastScans, dastApps),
              LicenseRow("SAST", sastScans, sastApps),
              LicenseRow("SCA", 0, 0), LicenseRow("IAST", 0, 0), dastScans, sastScans);
  }

  lemma LicenseApps(dastScans: int, dastApps: int, sastScans: int, sastApps: int)
    ensures Sum(LicenseRows(dastScans, dastApps, sastScans, sastApps), RowCount("consumed_apps")) == dastApps + sastApps
  {
    LicenseRowCounts("DAST", dastScans, dastApps);
    LicenseRowCounts("SAST", sastScans, sastApps);
    LicenseRowCounts("SCA", 0, 0);
    LicenseRowCounts("IAST", 0, 0);
    RowsAddUp(RowCount("consumed_apps"), LicenseRow("DAST", dastScans, dastApps),
              LicenseRow("SAST", sastScans, sastApps),
              LicenseRow("SCA", 0, 0), LicenseRow("IAST", 0, 0), dastApps, sastApps);
  }

  function LicenseSummary(scans: int, apps: int): Value
  {
    Obj(map["total_scans" := Num(scans), "total_apps" := Num(apps)])
  }

  /** The table holds those rows and that summary. */
  lemma LicenseParts(source: string, dastScans: int, dastApps: int, sastScans: int, sastApps: int)
    ensures var t := LicenseTable(source, dastScans, dastApps, sastScans, sastApps);
            && Get(t, "technologies") == Arr(LicenseRows(dastScans, dastApps, sastScans, sastApps))
            && Get(t, "summary") == LicenseSummary(dastScans + sastScans, dastApps + sastApps)
  {
  }

  /** What the rows of a license table add up to, and what its summary says. */
  datatype Consumption = Consumption(scans: int, apps: int, summary: Value)

  function ConsumptionOf(table: Value): Consumption
  {
    var rows := RowsOf(Get(table, "technologies"));
    Consumption(Sum(rows, RowCount("consumed_scans")), Sum(rows, RowCount("consumed_apps")), Get(table, "summary"))
  }

  /** Rows and summary agree. */
  function Balanced(scans: int, apps: int): Consumption
  {
    Consumption(scans, apps, LicenseSummary(scans, apps))
  }

  lemma TableAddsUp(source: string, dastScans: int, dastApps: int, sastScans: int, sastApps: int)
    ensures ConsumptionOf(LicenseTable(source, dastScans, dastApps, sastScans, sastApps))
              == Balanced(dastScans + sastScans, dastApps + sastApps)
  {
    LicenseParts(source, dastScans, dastApps, sastScans, sastApps);
    LicenseScans(dastScans, dastApps, sastScans, sastApps);
    LicenseApps(dastScans, dastApps, sastScans, sastApps);
  }

  /** A count of the old shape, which had one object for each of two technologies. */
  function Former(v: Value, technology: string, column: string, lib: Library): int
  {
    var counts := DictOrEmpty(Get(v, technology));
    if counts.Some? then CountOf(counts.value, column, lib) else 0
  }

  lemma LicenseIs(v: Value, lib: Library)
    requires v.Obj? && "technologies" !in v.fields && LicenseFrom(v, lib).Some?
    ensures LicenseFrom(v, lib)
              == Some(LicenseTable("legacy",
                                   Former(v, "dast", "consumed_scans", lib), Former(v, "dast", "consumed_apps", lib),
                                   Former(v, "sast", "consumed_scans", lib), Former(v, "sast", "consumed_apps", lib)))
  {
  }

  /** A stored table of the old shape becomes one whose rows add up to its summary and to the
      old counts: the migration loses none and makes up none. */
  lemma LicenseAddsUp(v: Value, lib: Library)
    requires v.Obj? && "technologies" !in v.fields && LicenseFrom(v, lib).Some?
    ensures ConsumptionOf(LicenseFrom(v, lib).value)
              == Balanced(Former(v, "dast", "consumed_scans", lib) + Former(v, "sast", "consumed_scans", lib),
                          Former(v, "dast", "consumed_apps", lib) + Former(v, "sast", "consumed_apps", lib))
  {
    LicenseIs(v, lib);
    TableAddsUp("legacy", Former(v, "dast", "consumed_scans", lib), Former(v, "dast", "consumed_apps", lib),
                Former(v, "sast", "consumed_scans", lib), Former(v, "sast", "consumed_apps", lib));
  }

  // ---------------------------------------------------------------- the workbench

  const WORKBENCH_KEYS := {"vulnerabilities_criticality", "cumulative_vulnerabilities", "application_compliance",
                           "application_onboarded", "average_days_to_resolve", "license_consumption",
                           "scan_time_trend", "application_file_size_profile", "top_dast_page_coverage",
                           "most_frequently_rescanned"}

  /** The monthly lists of a workbench, each made up from the ones before it if missing. */
  datatype Trends = Trends(criticality: Value, cumulative: Value, compliance: Value, onboarded: Value, days: Value)

  function CumulativeFrom(v: Value, criticality: Value, lib: Library): Option<Value>
  {
    ListElse(v, CumulativeRows(RowsOf(criticality), 0, lib))
  }

  function ComplianceFrom(v: Value, criticality: Value, summary: Value, lib: Library): Option<Value>
  {
    ListElse(v, ComplianceRows(RowsOf(criticality), summary, lib))
  }

  function OnboardedFrom(v: Value, compliance: Value, lib: Library): Option<Value>
  {
    ListElse(v, OnboardedRows(RowsOf(compliance), 0, lib))
  }

  function DaysFrom(v: Value, compliance: Value, lib: Library): Option<Value>
  {
    ListElse(v, ResolveDayRows(RowsOf(compliance), lib))
  }

  function RowsOf(v: Value): seq<Value>
  {
    if v.Arr? then v.items else []
  }

  function TrendsFrom(t: Trends, month: Value, summary: Value, now: Now, lib: Library): Option<Trends>
  {
    var criticality := CriticalityFrom(t.criticality, month, now);
    if criticality.None? then None
    else
      var cumulative, compliance := CumulativeFrom(t.cumulative, criticality.value, lib),
          ComplianceFrom(t.compliance, criticality.value, summary, lib);
      if cumulative.None? || compliance.None? then None
      else
        var onboarded, days := OnboardedFrom(t.onboarded, compliance.value, lib),
            DaysFrom(t.days, compliance.value, lib);
        if onboarded.None? || days.None? then None
        else Some(Trends(criticality.value, cumulative.value, compliance.value, onboarded.value, days.value))
  }

  /** All lists are there, and the first is not empty. */
  predicate HasLists(t: Trends)
  {
    t.criticality.Arr? && t.criticality.items != [] && t.cumulative.Arr? && t.compliance.Arr? && t.onboarded.Arr?
        && t.days.Arr?
  }

  lemma ListElseIsList(v: Value, default: Option<seq<Value>>)
    ensures ListElse(v, default).Some? ==> ListElse(v, default).value.Arr?
    ensures v.Arr? ==> ListElse(v, default) == Some(v)
  {
  }

  lemma ListsAreKept(t: Trends, month: Value, summary: Value, now: Now, lib: Library)
    requires HasLists(t)
    ensures TrendsFrom(t, month, summary, now, lib) == Some(t)
  {
    assert CriticalityFrom(t.criticality, month, now) == Some(t.criticality);
    ListElseIsList(t.cumulative, CumulativeRows(RowsOf(t.criticality), 0, lib));
    ListElseIsList(t.compliance, ComplianceRows(RowsOf(t.criticality), summary, lib));
    ListElseIsList(t.onboarded, OnboardedRows(RowsOf(t.compliance), 0, lib));
    ListElseIsList(t.days, ResolveDayRows(RowsOf(t.compliance), lib));
  }

  lemma ListsAreMade(t: Trends, month: Value, summary: Value, now: Now, lib: Library)
    requires TrendsFrom(t, month, summary, now, lib).Some?
    ensures HasLists(TrendsFrom(t, month, summary, now, lib).value)
  {
    var criticality := CriticalityFrom(t.criticality, month, now).value;
    var compliance := ComplianceFrom(t.compliance, criticality, summary, lib).value;
    ListElseIsList(t.cumulative, CumulativeRows(RowsOf(criticality), 0, lib));
    ListElseIsList(t.compliance, ComplianceRows(RowsOf(criticality), summary, lib));
    ListElseIsList(t.onboarded, OnboardedRows(RowsOf(compliance), 0, lib));
    ListElseIsList(t.days, ResolveDayRows(RowsOf(compliance), lib));
  }

  /** The parts of a workbench. */
  datatype Bench = Bench(trends: Trends, license: Value, times: Value, sizes: Value, pages: Value, rescanned: Value)

  function BenchField(k: string, b: Bench): Value
  {
    if k == "vulnerabilities_criticality" then b.trends.criticality
    else if k == "cumulative_vulnerabilities" then b.trends.cumulative
    else if k == "application_compliance" then b.trends.compliance
    else if k == "application_onboarded" then b.trends.onboarded
    else if k == "average_days_to_resolve" then b.trends.days
    else if k == "license_consumption" then b.license
    else if k == "scan_time_trend" then b.times
    else if k == "application_file_size_profile" then b.sizes
    else if k == "top_dast_page_coverage" then b.pages
    else b.rescanned
  }

  /** The parts as stored. */
  function Stored(w: Value): Bench
  {
    Bench(Trends(Get(w, "vulnerabilities_criticality"), Get(w, "cumulative_vulnerabilities"),
                 Get(w, "application_compliance"),
                 Get(w, "application_onboarded"), Get(w, "average_days_to_resolve")),
          Get(w, "license_consumption"), Get(w, "scan_time_trend"), Get(w, "application_file_size_profile"),
          Get(w, "top_dast_page_coverage"), Get(w, "most_frequently_rescanned"))
  }

  /** The parts normalised, one after the other. */
  function BenchFrom(b: Bench, month: Value, summary: Value, now: Now, lib: Library): Option<Bench>
  {
    var trends, license, times := TrendsFrom(b.trends, month, summary, now, lib), LicenseFrom(b.license, lib),
        ScanTimeFrom(b.times, now, lib);
    if trends.None? || license.None? || times.None? then None
    else Some(Bench(trends.value, license.value, times.value, SizesFrom(b.sizes, now, lib),
                    PagesFrom(b.pages, now, lib),
                    if b.rescanned.Arr? then b.rescanned else Arr([])))
  }

  function WithBench(w: Value, b: Bench): Value
  {
    var fields := if w.Obj? then w.fields else map[];
    Obj(map k | k in fields.Keys + WORKBENCH_KEYS :: if k in WORKBENCH_KEYS then BenchField(k, b) else fields[k])
  }

  /** Parts that the normaliser leaves alone, but for the page coverage. */
  lemma SettledBench(b: Bench, month: Value, summary: Value, now: Now, lib: Library)
    requires HasLists(b.trends) && LicenseFrom(b.license, lib) == Some(b.license) && b.rescanned.Arr?
    requires ScanTimeFrom(b.times, now, lib) == Some(b.times) && SizesFrom(b.sizes, now, lib) == b.sizes
    ensures BenchFrom(b, month, summary, now, lib) == Some(b.(pages := PagesFrom(b.pages, now, lib)))
  {
    ListsAreKept(b.trends, month, summary, now, lib);
  }

  /** A second pass over the parts changes the page coverage at most, and that exactly when
      the first pass had to make up its bins. */
  lemma BenchStays(b: Bench, month: Value, summary: Value, now: Now, month': Value, summary': Value, later: Now,
                   lib: Library)
    requires Proper(now) && Proper(later) && Prints(lib)
    ensures BenchFrom(b, month, summary, now, lib).Some? ==>
              var once := BenchFrom(b, month, summary, now, lib).value;
              && BenchFrom(once, month', summary', later, lib)
                  == Some(once.(pages := PagesFrom(once.pages, later, lib)))
              && (PagesFrom(once.pages, later, lib) == once.pages <==> HasBins(b.pages))
  {
    if BenchFrom(b, month, summary, now, lib).Some? {
      ListsAreMade(b.trends, month, summary, now, lib);
      LicenseStays(b.license, lib);
      ScanTimeIdempotent(b.times, now, later, lib);
      SizesIdempotent(b.sizes, now, later, lib);
      PagesIdempotentExactly(b.pages, now, later, later, lib);
      SettledBench(BenchFrom(b, month, summary, now, lib).value, month', summary', later, lib);
    }
  }

  lemma StoredBench(w: Value, b: Bench)
    ensures Stored(WithBench(w, b)) == b
  {
    StoredHalf(w, b);
    OtherHalf(w, b);
  }

  lemma BenchAt(w: Value, b: Bench, k: string)
    requires k in WORKBENCH_KEYS
    ensures Get(WithBench(w, b), k) == BenchField(k, b)
  {
  }

  lemma StoredHalf(w: Value, b: Bench)
    ensures Get(WithBench(w, b), "vulnerabilities_criticality") == b.trends.criticality
    ensures Get(WithBench(w, b), "cumulative_vulnerabilities") == b.trends.cumulative
    ensures Get(WithBench(w, b), "application_compliance") == b.trends.compliance
    ensures Get(WithBench(w, b), "application_onboarded") == b.trends.onboarded
    ensures Get(WithBench(w, b), "average_days_to_resolve") == b.trends.days
  {
    BenchAt(w, b, "vulnerabilities_criticality");
    BenchAt(w, b, "cumulative_vulnerabilities");
    BenchAt(w, b, "application_compliance");
    BenchAt(w, b, "application_onboarded");
    BenchAt(w, b, "average_days_to_resolve");
  }

  lemma OtherHalf(w: Value, b: Bench)
    ensures Get(WithBench(w, b), "license_consumption") == b.license
    ensures Get(WithBench(w, b), "scan_time_trend") == b.times
    ensures Get(WithBench(w, b), "application_file_size_profile") == b.sizes
    ensures Get(WithBench(w, b), "top_dast_page_coverage") == b.pages
    ensures Get(WithBench(w, b), "most_frequently_rescanned") == b.rescanned
  {
    BenchAt(w, b, "license_consumption");
    BenchAt(w, b, "scan_time_trend");
    BenchAt(w, b, "application_file_size_profile");
    BenchAt(w, b, "top_dast_page_coverage");
    BenchAt(w, b, "most_frequently_rescanned");
  }

  lemma SameBench(w: Value, b: Bench)
    requires Full(w, WORKBENCH_KEYS)
    ensures b == Stored(w) ==> WithBench(w, b) == w
  {
    if b == Stored(w) {
      assert WithBench(w, b).fields == w.fields;
    }
  }
}
