/** The normaliser every stored payload passes through before it is served, and the agreement
    of what a snapshot serves with what the live build returned. */
module Bundle {
  import opened Wrappers
  import opened Domain
  import opened Json
  import opened Statistics
  import opened Normalizer
  import opened Profiles
  import opened PageProfiles
  import opened Workbench
  import opened LiveTrends

  // ---------------------------------------------------------------- findings and scans

  /** The findings made up from the monthly trend; rows without a period are dropped. */
  function TrendSeries(rows: seq<Value>, lib: Library): Option<seq<Value>>
  {
    if rows == [] then Some([])
    else if !rows[0].Obj? then None
    else
      var period := TextOf(Or(Or(Get(rows[0], "month"), Get(rows[0], "period")), Str("")), lib);
      var total := IntOrZero(Or(Get(rows[0], "issues"), Get(rows[0], "total")), lib);
      var rest := TrendSeries(rows[1..], lib);
      if total.None? || rest.None? then None
      else Some((if period == "" then [] else [UnknownRow(period, total.value)]) + rest.value)
  }

  /** An object whose missing keys are filled in; anything else counts as empty. */
  function Filled(v: Value, keys: set<string>, defaults: string -> Value): Value
  {
    var fields := if v.Obj? then v.fields else map[];
    Obj(map k | k in fields.Keys + keys :: if k in fields then fields[k] else defaults(k))
  }

  lemma FilledIsFull(v: Value, keys: set<string>, defaults: string -> Value)
    ensures Full(Filled(v, keys, defaults), keys)
  {
  }

  lemma FullStays(v: Value, keys: set<string>, defaults: string -> Value)
    requires Full(v, keys)
    ensures Filled(v, keys, defaults) == v
  {
    assert v.fields.Keys + keys == v.fields.Keys;
    assert Filled(v, keys, defaults).fields == v.fields;
  }

  lemma FullIsFilled(v: Value, keys: set<string>, defaults: string -> Value)
    ensures Full(Filled(v, keys, defaults), keys)
    ensures Full(v, keys) ==> Filled(v, keys, defaults) == v
  {
    FilledIsFull(v, keys, defaults);
    if Full(v, keys) {
      FullStays(v, keys, defaults);
    }
  }

  const SCAN_PERIODS := {"day", "week", "month"}
  const MODES := {"derived", "native", "hybrid"}

  function Same(v: Value): string -> Value
  {
    (k: string) => v
  }

  function ScanDefaults(day: string, now: Now): string -> Value
  {
    (k: string) => Arr([UnknownRow(if k == "day" then day else if k == "week" then now.week else now.month, 0)])
  }

  function FindingsFrom(v: Value, trend: seq<Value>): Value
  {
    Filled(v, PERIODS, Same(Arr(trend)))
  }

  function ScansFrom(v: Value, day: string, now: Now): Value
  {
    Filled(v, SCAN_PERIODS, ScanDefaults(day, now))
  }

  /** `list(scans.get(k))` for the three periods, evaluated whether or not it is needed. */
  predicate Listed(scans: Value)
  {
    && ListOf(Get(scans, "day")).Some? && ListOf(Get(scans, "week")).Some? && ListOf(Get(scans, "month")).Some?
  }

  function ListAt(scans: Value): string -> Value
  {
    (k: string) => var items := ListOf(Get(scans, k)); Arr(if items.Some? then items.value else [])
  }

  function ModeFrom(v: Value, scans: Value): string -> Value
  {
    (m: string) => Filled(Get(v, m), SCAN_PERIODS, ListAt(scans))
  }

  /** The three series again for each of the three ways to attribute severities. */
  function SourcesFrom(v: Value, scans: Value): Value
  {
    var fields := if v.Obj? then v.fields else map[];
    Obj(map k | k in fields.Keys + MODES :: if k in MODES then ModeFrom(v, scans)(k) else fields[k])
  }

  predicate FullSources(v: Value)
  {
    Full(v, MODES) && forall m :: m in MODES ==> Full(v.fields[m], SCAN_PERIODS)
  }

  lemma SourcesAreFull(v: Value, scans: Value)
    ensures FullSources(SourcesFrom(v, scans))
  {
    var r := SourcesFrom(v, scans);
    forall m | m in MODES ensures Full(r.fields[m], SCAN_PERIODS) {
      FilledIsFull(Get(v, m), SCAN_PERIODS, ListAt(scans));
    }
  }

  lemma FullModeStays(v: Value, scans: Value, m: string)
    requires FullSources(v) && m in MODES
    ensures ModeFrom(v, scans)(m) == v.fields[m]
  {
    assert Get(v, m) == v.fields[m];
    FullStays(v.fields[m], SCAN_PERIODS, ListAt(scans));
  }

  lemma FullSourcesStay(v: Value, scans: Value)
    requires FullSources(v)
    ensures SourcesFrom(v, scans) == v
  {
    forall m | m in MODES ensures ModeFrom(v, scans)(m) == v.fields[m] {
      FullModeStays(v, scans, m);
    }
    assert v.fields.Keys + MODES == v.fields.Keys;
    assert SourcesFrom(v, scans).fields == v.fields;
  }

  const OPTION_KEYS := {"technologies", "vulnerabilities", "unclassified_count"}

  function OptionDefaults(): string -> Value
  {
    (k: string) => if k == "unclassified_count" then Num(0) else Arr([])
  }

  /** The filter options of an answer. */
  function OptionsFrom(v: Value): Value
  {
    Filled(v, OPTION_KEYS, OptionDefaults())
  }

  // ---------------------------------------------------------------- prioritisation

  const NO_GROUPS := Obj(map["total_groups" := Num(0),
                             "totals" := Obj(map c | c in SEVERITY_COLUMNS :: Num(0)),
                             "top_groups" := Arr([])])

  /** The raw counts taken from the statistics; None where a figure is no number. */
  function RawFindings(stats: Fields, lib: Library): Option<Value>
  {
    var critical, high := IntOrZero(Field(stats, "critical_issues"), lib), IntOrZero(Field(stats, "high_issues"), lib);
    var medium, low := IntOrZero(Field(stats, "medium_issues"), lib), IntOrZero(Field(stats, "low_issues"), lib);
    if critical.None? || high.None? || medium.None? || low.None? then None
    else
      var total := IntOrZero(Or(Field(stats, "total_issues"),
                                Num(critical.value + high.value + medium.value + low.value)), lib);
      if total.None? then None
      else Some(Obj(map["critical" := Num(critical.value), "high" := Num(high.value), "medium" := Num(medium.value),
                        "low" := Num(low.value), "unknown" := Num(0), "total" := Num(total.value)]))
  }

  function PrioritizationFrom(raw: Value): Value
  {
    Obj(map["raw_findings" := raw, "fix_groups" := NO_GROUPS, "most_critical" := Arr([]),
            "correlated_findings" := Arr([]),
            "highlights" := Obj(map["critical_hotspot_total" := Num(0), "correlated_high_risk_total" := Num(0)])])
  }

  // ---------------------------------------------------------------- the bundle

  const BUNDLE_KEYS := {"statistics", "trend_active", "trend_all", "kpi", "mttr", "portfolio_summary", "prioritization",
                        "findings_series", "scan_series", "scan_series_by_source", "workbench_trends",
                        "issue_filter_options"}

  datatype Parts = Parts(statistics: Value, active: Value, all: Value, kpi: Value, mttr: Value, summary: Value,
                         prioritization: Value, findings: Value, scans: Value, sources: Value, workbench: Value,
                         options: Value)

  function PartField(k: string, p: Parts): Value
  {
    if k == "statistics" then p.statistics
    else if k == "trend_active" then p.active
    else if k == "trend_all" then p.all
    else if k == "kpi" then p.kpi
    else if k == "mttr" then p.mttr
    else if k == "portfolio_summary" then p.summary
    else if k == "prioritization" then p.prioritization
    else if k == "findings_series" then p.findings
    else if k == "scan_series" then p.scans
    else if k == "scan_series_by_source" then p.sources
    else if k == "workbench_trends" then p.workbench
    else p.options
  }

  /** `setdefault`. */
  function Given(b: Fields, k: string, default: Value): Value
  {
    if k in b then b[k] else default
  }

  /** The parts of a payload before the normaliser completes them. */
  function Raw(b: Fields, noGroups: Value): Parts
  {
    Parts(Field(b, "statistics"), Field(b, "trend_active"), Field(b, "trend_all"),
          Given(b, "kpi", Arr([])), Given(b, "mttr", Arr([])), Given(b, "portfolio_summary", Obj(map[])),
          Given(b, "prioritization", noGroups), Field(b, "findings_series"), Field(b, "scan_series"),
          Field(b, "scan_series_by_source"), Field(b, "workbench_trends"), Field(b, "issue_filter_options"))
  }

  /** What the two trends make up for missing findings. */
  function TrendUsed(active: seq<Value>, all: seq<Value>, lib: Library): Option<seq<Value>>
  {
    TrendSeries(if all != [] then all else active, lib)
  }

  /** The outer parts made from what was read of them. */
  function Made(p: Parts, statistics: Fields, active: seq<Value>, all: seq<Value>, trend: seq<Value>,
                scans: Value): Parts
  {
    p.(statistics := Obj(statistics), active := Arr(active), all := Arr(all),
       findings := FindingsFrom(p.findings, trend),
       scans := scans, sources := SourcesFrom(p.sources, scans), options := OptionsFrom(p.options))
  }

  /** Everything but the workbench. */
  function OuterParts(p: Parts, day: string, now: Now, lib: Library): Option<Parts>
  {
    var stats, active, all, summary := DictOrEmpty(p.statistics), ListOrEmpty(p.active), ListOrEmpty(p.all),
        DictOrEmpty(p.summary);
    if stats.None? || active.None? || all.None? || summary.None? then None
    else
      var trend, scans := TrendUsed(active.value, all.value, lib), ScansFrom(p.scans, day, now);
      if trend.None? || RawFindings(stats.value, lib).None? || !Listed(scans) then None
      else Some(Made(p, Hydrated(stats.value, summary.value, lib), active.value, all.value, trend.value, scans))
  }

  lemma OuterIs(p: Parts, day: string, now: Now, lib: Library, stats: Fields, summary: Fields, active: seq<Value>,
                all: seq<Value>, trend: seq<Value>)
    requires DictOrEmpty(p.statistics) == Some(stats) && DictOrEmpty(p.summary) == Some(summary)
    requires ListOrEmpty(p.active) == Some(active) && ListOrEmpty(p.all) == Some(all)
    requires TrendUsed(active, all, lib) == Some(trend) && RawFindings(stats, lib).Some?
              && Listed(ScansFrom(p.scans, day, now))
    ensures OuterParts(p, day, now, lib)
              == Some(Made(p, Hydrated(stats, summary, lib), active, all, trend, ScansFrom(p.scans, day, now)))
  {
  }

  /** The prioritisation used when none is stored, made from the statistics as stored. */
  function NoGroups(b: Fields, lib: Library): Value
  {
    var stats := DictOrEmpty(Field(b, "statistics"));
    var raw := if stats.Some? then RawFindings(stats.value, lib) else None;
    if raw.Some? then PrioritizationFrom(raw.value) else Null
  }

  function WithParts(b: Fields, p: Parts): Fields
  {
    map k | k in b.Keys + BUNDLE_KEYS :: if k in BUNDLE_KEYS then PartField(k, p) else b[k]
  }

  /** The bench of a payload whose other parts are complete. */
  function BenchOf(p: Parts, now: Now, lib: Library): Option<Bench>
  {
    BenchFrom(Stored(p.workbench), Get(p.findings, "month"), p.summary, now, lib)
  }

  /** `_hydrate_bundle_defaults`; None where it raises. */
  function Hydrate(b: Fields, day: string, now: Now, lib: Library): Option<Fields>
  {
    var p := OuterParts(Raw(b, NoGroups(b, lib)), day, now, lib);
    if p.None? || BenchOf(p.value, now, lib).None? then None
    else Some(WithParts(b, p.value.(workbench := WithBench(p.value.workbench, BenchOf(p.value, now, lib).value))))
  }

  lemma PartAt(b: Fields, p: Parts, k: string)
    requires k in BUNDLE_KEYS
    ensures k in WithParts(b, p) && WithParts(b, p)[k] == PartField(k, p)
  {
  }

  lemma RawHalf(b: Fields, p: Parts, noGroups: Value)
    ensures var r := Raw(WithParts(b, p), noGroups);
            r.statistics == p.statistics && r.active == p.active && r.all == p.all && r.kpi == p.kpi
                && r.mttr == p.mttr && r.summary == p.summary
  {
    PartAt(b, p, "statistics");
    PartAt(b, p, "trend_active");
    PartAt(b, p, "trend_all");
    PartAt(b, p, "kpi");
    PartAt(b, p, "mttr");
    PartAt(b, p, "portfolio_summary");
  }

  lemma RawOtherHalf(b: Fields, p: Parts, noGroups: Value)
    ensures var r := Raw(WithParts(b, p), noGroups);
            && r.prioritization == p.prioritization && r.findings == p.findings && r.scans == p.scans
            && r.sources == p.sources && r.workbench == p.workbench && r.options == p.options
  {
    PartAt(b, p, "issue_filter_options");
    PartAt(b, p, "prioritization");
    PartAt(b, p, "findings_series");
    PartAt(b, p, "scan_series");
    PartAt(b, p, "scan_series_by_source");
    PartAt(b, p, "workbench_trends");
  }

  lemma RawOfWritten(b: Fields, p: Parts, noGroups: Value)
    ensures Raw(WithParts(b, p), noGroups) == p
  {
    RawHalf(b, p, noGroups);
    RawOtherHalf(b, p, noGroups);
  }

  lemma WrittenAgain(b: Fields, p: Parts, q: Parts)
    ensures WithParts(WithParts(b, p), q) == WithParts(b, q)
  {
  }

  lemma ConversionsStay(fields: Fields, items: seq<Value>)
    ensures DictOrEmpty(Obj(fields)) == Some(fields)
    ensures ListOrEmpty(Arr(items)) == Some(items)
  {
  }

  predicate NumberOrNothing(v: Value)
  {
    v.Null? || v.Num?
  }

  predicate ReadableFigures(stats: Fields)
  {
    && NumberOrNothing(Field(stats, "critical_issues")) && NumberOrNothing(Field(stats, "high_issues"))
    && NumberOrNothing(Field(stats, "medium_issues"))
    && NumberOrNothing(Field(stats, "low_issues")) && NumberOrNothing(Field(stats, "total_issues"))
  }

  lemma ReadableInt(v: Value, lib: Library)
    requires NumberOrNothing(v)
    ensures IntOrZero(v, lib).Some?
  {
  }

  lemma ReadableFindings(stats: Fields, lib: Library)
    requires ReadableFigures(stats)
    ensures RawFindings(stats, lib).Some?
  {
    ReadableInt(Field(stats, "critical_issues"), lib);
    ReadableInt(Field(stats, "high_issues"), lib);
    ReadableInt(Field(stats, "medium_issues"), lib);
    ReadableInt(Field(stats, "low_issues"), lib);
  }

  lemma AnswerIsReadable(stats: Fields, summary: Fields, lib: Library)
    ensures ReadableFigures(Hydrated(stats, summary, lib))
  {
    var f := FiguresOf(stats, summary, lib);
    KeptKeys();
    WrittenKept(stats, f, "critical_issues");
    WrittenKept(stats, f, "high_issues");
    WrittenKept(stats, f, "medium_issues");
    WrittenKept(stats, f, "low_issues");
    WrittenKept(stats, f, "total_issues");
  }

  lemma RawFindingsOfHydrated(stats: Fields, summary: Fields, lib: Library)
    ensures RawFindings(Hydrated(stats, summary, lib), lib).Some?
  {
    AnswerIsReadable(stats, summary, lib);
    ReadableFindings(Hydrated(stats, summary, lib), lib);
  }

  lemma SeriesStay(p: Parts, trend: seq<Value>, trend': seq<Value>, day: string, now: Now, day': string, later: Now)
    ensures var findings, scans := FindingsFrom(p.findings, trend), ScansFrom(p.scans, day, now);
            && FindingsFrom(findings, trend') == findings && ScansFrom(scans, day', later) == scans
            && SourcesFrom(SourcesFrom(p.sources, scans), scans) == SourcesFrom(p.sources, scans)
  {
    var findings, scans := FindingsFrom(p.findings, trend), ScansFrom(p.scans, day, now);
    FullIsFilled(p.findings, PERIODS, Same(Arr(trend)));
    FullIsFilled(findings, PERIODS, Same(Arr(trend')));
    FullIsFilled(p.scans, SCAN_PERIODS, ScanDefaults(day, now));
    FullIsFilled(scans, SCAN_PERIODS, ScanDefaults(day', later));
    SourcesAreFull(p.sources, scans);
    FullSourcesStay(SourcesFrom(p.sources, scans), scans);
  }

  lemma OptionsStay(v: Value)
    ensures OptionsFrom(OptionsFrom(v)) == OptionsFrom(v)
    ensures Full(v, OPTION_KEYS) ==> OptionsFrom(v) == v
  {
    FullIsFilled(v, OPTION_KEYS, OptionDefaults());
    FullIsFilled(OptionsFrom(v), OPTION_KEYS, OptionDefaults());
  }

  lemma MadeTwice(p: Parts, statistics: Fields, active: seq<Value>, all: seq<Value>, trend: seq<Value>, day: string,
                  now: Now, workbench: Value, day': string, later: Now)
    ensures var once := Made(p, statistics, active, all, trend, ScansFrom(p.scans, day, now)).(workbench := workbench);
            && ScansFrom(once.scans, day', later) == once.scans
            && Made(once, statistics, active, all, trend, once.scans) == once
  {
    SeriesStay(p, trend, trend, day, now, day', later);
    OptionsStay(p.options);
  }

  /** Completing the outer parts again changes nothing. */
  lemma OuterPartsStay(p: Parts, day: string, now: Now, workbench: Value, day': string, later: Now, lib: Library)
    requires OuterParts(p, day, now, lib).Some?
    ensures var once := OuterParts(p, day, now, lib).value.(workbench := workbench);
            OuterParts(once, day', later, lib) == Some(once)
  {
    var stats, active, all, summary := DictOrEmpty(p.statistics).value, ListOrEmpty(p.active).value,
        ListOrEmpty(p.all).value, DictOrEmpty(p.summary).value;
    var trend, hydrated := TrendUsed(active, all, lib).value, Hydrated(stats, summary, lib);
    var once := Made(p, hydrated, active, all, trend, ScansFrom(p.scans, day, now)).(workbench := workbench);
    OuterIs(p, day, now, lib, stats, summary, active, all, trend);
    ConversionsStay(hydrated, active);
    ConversionsStay(hydrated, all);
    HydrationIdempotent(stats, summary, lib);
    RawFindingsOfHydrated(stats, summary, lib);
    MadeTwice(p, hydrated, active, all, trend, day, now, workbench, day', later);
    OuterIs(once, day', later, lib, hydrated, summary, active, all, trend);
  }

  // ---------------------------------------------------------------- a payload read back twice

  function PagesSection(b: Fields): Value
  {
    Get(Field(b, "workbench_trends"), "top_dast_page_coverage")
  }

  lemma WorkbenchTwice(w: Value, b: Bench, c: Bench)
    ensures WithBench(WithBench(w, b), c) == WithBench(w, c)
    ensures WithBench(w, b) == WithBench(w, c) <==> b == c
  {
    StoredBench(w, b);
    StoredBench(w, c);
    SameOuterKeys(w, b, c);
  }

  lemma SameOuterKeys(w: Value, b: Bench, c: Bench)
    ensures WithBench(WithBench(w, b), c) == WithBench(w, c)
  {
    assert WithBench(WithBench(w, b), c).fields == WithBench(w, c).fields;
  }

  /** The completed parts, written back. */
  function Completed(p: Parts, bench: Bench): Parts
  {
    p.(workbench := WithBench(p.workbench, bench))
  }

  lemma HydrateIs(b: Fields, day: string, now: Now, lib: Library, p: Parts, bench: Bench)
    requires OuterParts(Raw(b, NoGroups(b, lib)), day, now, lib) == Some(p) && BenchOf(p, now, lib) == Some(bench)
    ensures Hydrate(b, day, now, lib) == Some(WithParts(b, Completed(p, bench)))
  {
  }

  lemma PartsOf(b: Fields, day: string, now: Now, lib: Library) returns (p: Parts, bench: Bench)
    requires Hydrate(b, day, now, lib).Some?
    ensures OuterParts(Raw(b, NoGroups(b, lib)), day, now, lib) == Some(p) && BenchOf(p, now, lib) == Some(bench)
    ensures Hydrate(b, day, now, lib) == Some(WithParts(b, Completed(p, bench)))
  {
    p := OuterParts(Raw(b, NoGroups(b, lib)), day, now, lib).value;
    bench := BenchOf(p, now, lib).value;
  }

  lemma BenchOfWorkbench(p: Parts, day: string, now: Now, lib: Library, raw: Parts)
    requires OuterParts(raw, day, now, lib) == Some(p)
    ensures p.workbench == raw.workbench && p.summary == raw.summary
  {
  }

  /** The second pass over parts that were completed. */
  lemma SecondPass(raw: Parts, p: Parts, bench: Bench, day: string, now: Now, day': string, later: Now, lib: Library)
    returns (again: Bench)
    requires Proper(now) && Proper(later) && Prints(lib)
    requires OuterParts(raw, day, now, lib) == Some(p) && BenchOf(p, now, lib) == Some(bench)
    ensures OuterParts(Completed(p, bench), day', later, lib) == Some(Completed(p, bench))
    ensures BenchOf(Completed(p, bench), later, lib) == Some(again)
    ensures again == bench <==> HasBins(Stored(raw.workbench).pages)
  {
    OuterPartsStay(raw, day, now, WithBench(p.workbench, bench), day', later, lib);
    BenchOfWorkbench(p, day, now, lib, raw);
    StoredBench(p.workbench, bench);
    BenchStays(Stored(p.workbench), Get(p.findings, "month"), p.summary, now, Get(p.findings, "month"), p.summary,
               later, lib);
    again := BenchOf(Completed(p, bench), later, lib).value;
  }

  /** Normalising what was served once more changes nothing but, at most, the page coverage;
      and nothing at all exactly when the stored page coverage held a list of bins. */
  lemma HydratedTwice(b: Fields, day: string, now: Now, day': string, later: Now, lib: Library)
    requires Proper(now) && Proper(later) && Prints(lib)
    ensures Hydrate(b, day, now, lib).Some? ==>
              var once := Hydrate(b, day, now, lib).value;
              && Hydrate(once, day', later, lib).Some?
              && (Hydrate(once, day', later, lib).value == once <==> HasBins(PagesSection(b)))
              && SameButWorkbench(once, Hydrate(once, day', later, lib).value)
  {
    if Hydrate(b, day, now, lib).None? {
      return;
    }
    var p, bench := PartsOf(b, day, now, lib);
    var q := Completed(p, bench);
    var once := WithParts(b, q);
    RawOfWritten(b, q, NoGroups(once, lib));
    var again := SecondPass(Raw(b, NoGroups(b, lib)), p, bench, day, now, day', later, lib);
    HydrateIs(once, day', later, lib, q, again);
    WrittenTwice(b, p, bench, again);
  }

  predicate SameButWorkbench(a: Fields, b: Fields)
  {
    a.Keys == b.Keys && forall k :: k in a && k != "workbench_trends" ==> b[k] == a[k]
  }

  lemma WrittenTwice(b: Fields, p: Parts, bench: Bench, again: Bench)
    ensures var once, q := WithParts(b, Completed(p, bench)), Completed(p, bench);
            && (WithParts(once, Completed(q, again)) == once <==> again == bench)
            && SameButWorkbench(once, WithParts(once, Completed(q, again)))
  {
    var q := Completed(p, bench);
    var r := Completed(q, again);
    WrittenAgain(b, q, r);
    WorkbenchTwice(p.workbench, bench, again);
    PartAt(b, q, "workbench_trends");
    PartAt(b, r, "workbench_trends");
    OnlyWorkbench(b, q, r.workbench);
  }

  lemma OnlyWorkbench(b: Fields, p: Parts, workbench: Value)
    ensures SameButWorkbench(WithParts(b, p), WithParts(b, p.(workbench := workbench)))
  {
  }

  // ---------------------------------------------------------------- the statistics answer

  /** What the statistics route answers for a bundle, live or read back. */
  function StatisticsAnswer(b: Fields, lib: Library): Option<Fields>
  {
    var stats, summary := DictOrEmpty(Field(b, "statistics")), DictOrEmpty(Field(b, "portfolio_summary"));
    if stats.None? || summary.None? then None else Some(Hydrated(stats.value, summary.value, lib))
  }

  lemma OuterStatistics(raw: Parts, p: Parts, day: string, now: Now, lib: Library)
    requires OuterParts(raw, day, now, lib) == Some(p)
    ensures DictOrEmpty(raw.statistics).Some? && DictOrEmpty(raw.summary).Some? && p.summary == raw.summary
    ensures p.statistics == Obj(Hydrated(DictOrEmpty(raw.statistics).value, DictOrEmpty(raw.summary).value, lib))
  {
  }

  lemma SummaryOrEmpty(b: Fields)
    ensures DictOrEmpty(Given(b, "portfolio_summary", Obj(map[]))) == DictOrEmpty(Field(b, "portfolio_summary"))
  {
  }

  lemma AnswerOf(b: Fields, stats: Fields, summary: Value, lib: Library)
    requires Field(b, "statistics") == Obj(stats) && Field(b, "portfolio_summary") == summary
              && DictOrEmpty(summary).Some?
    ensures StatisticsAnswer(b, lib) == Some(Hydrated(stats, DictOrEmpty(summary).value, lib))
  {
    ConversionsStay(stats, []);
  }

  /** The answer is the same from the snapshot as from the live build, for every payload. */
  lemma StatisticsAgree(b: Fields, day: string, now: Now, lib: Library)
    ensures Hydrate(b, day, now, lib).Some? ==>
              StatisticsAnswer(b, lib).Some?
                  && StatisticsAnswer(Hydrate(b, day, now, lib).value, lib) == StatisticsAnswer(b, lib)
  {
    if Hydrate(b, day, now, lib).None? {
      return;
    }
    var raw := Raw(b, NoGroups(b, lib));
    var p, bench := PartsOf(b, day, now, lib);
    OuterStatistics(raw, p, day, now, lib);
    SummaryOrEmpty(b);
    var stats, summary := DictOrEmpty(raw.statistics).value, DictOrEmpty(raw.summary).value;
    PartAt(b, Completed(p, bench), "statistics");
    PartAt(b, Completed(p, bench), "portfolio_summary");
    AnswerOf(WithParts(b, Completed(p, bench)), Hydrated(stats, summary, lib), p.summary, lib);
    HydrationIdempotent(stats, summary, lib);
  }

  // ---------------------------------------------------------------- live bundles

  predicate CountedMonths(rows: seq<Value>)
  {
    forall r :: r in rows ==> r.Obj? && Get(r, "issues").Num? && !Truthy(Get(r, "total"))
  }

  /** The parts of a bundle outside the workbench, as a live build returns them. */
  ghost predicate LiveOuter(b: Fields)
  {
    && BUNDLE_KEYS <= b.Keys
    && Field(b, "statistics").Obj? && Field(b, "portfolio_summary").Obj?
    && ReadableFigures(Field(b, "statistics").fields)
    && Field(b, "trend_active").Arr? && CountedMonths(Field(b, "trend_active").items)
    && Field(b, "trend_all").Arr? && CountedMonths(Field(b, "trend_all").items)
    && Full(Field(b, "findings_series"), PERIODS) && Full(Field(b, "scan_series"), SCAN_PERIODS)
    && Listed(Field(b, "scan_series"))
    && FullSources(Field(b, "scan_series_by_source")) && Full(Field(b, "issue_filter_options"), OPTION_KEYS)
  }

  /** The bundle a live build returns: every part of the workbench is there, and the bucketed
      sections have the form the normaliser gives them. */
  ghost predicate LiveBundle(b: Fields)
  {
    LiveOuter(b) && Full(Field(b, "workbench_trends"), WORKBENCH_KEYS)
        && NormalBench(Stored(Field(b, "workbench_trends")))
  }

  /** A live bundle whose findings are built from the issues, and whose workbench from the
      scans and issues. */
  ghost predicate BuiltBundle(b: Fields, scans: seq<Scan>, issues: seq<Issue>, built: Now)
  {
    && LiveOuter(b) && ShowsSeries(Field(b, "findings_series"), issues, built)
    && Full(Field(b, "workbench_trends"), WORKBENCH_KEYS)
    && BuiltFrom(Stored(Field(b, "workbench_trends")), scans, issues, built)
  }

  lemma {:induction false} CountedTrend(rows: seq<Value>, lib: Library)
    requires CountedMonths(rows)
    ensures TrendSeries(rows, lib).Some?
  {
    if rows != [] {
      assert rows[0] in rows;
      CountedTrend(rows[1..], lib);
    }
  }

  lemma LiveMade(p: Parts, statistics: Fields, trend: seq<Value>)
    requires p.active.Arr? && p.all.Arr?
    requires Full(p.findings, PERIODS) && FullSources(p.sources) && Full(p.options, OPTION_KEYS)
    ensures Made(p, statistics, p.active.items, p.all.items, trend, p.scans) == p.(statistics := Obj(statistics))
  {
    FullStays(p.findings, PERIODS, Same(Arr(trend)));
    FullSourcesStay(p.sources, p.scans);
    OptionsStay(p.options);
  }

  lemma LiveOuterParts(p: Parts, day: string, now: Now, lib: Library)
    requires p.statistics.Obj? && p.summary.Obj? && RawFindings(p.statistics.fields, lib).Some?
    requires p.active.Arr? && CountedMonths(p.active.items) && p.all.Arr? && CountedMonths(p.all.items)
    requires Full(p.findings, PERIODS) && Full(p.scans, SCAN_PERIODS) && Listed(p.scans) && FullSources(p.sources)
              && Full(p.options, OPTION_KEYS)
    ensures OuterParts(p, day, now, lib)
              == Some(p.(statistics := Obj(Hydrated(p.statistics.fields, p.summary.fields, lib))))
  {
    var stats, summary := p.statistics.fields, p.summary.fields;
    ConversionsStay(stats, p.active.items);
    ConversionsStay(summary, p.all.items);
    CountedTrend(p.active.items, lib);
    CountedTrend(p.all.items, lib);
    var trend := TrendUsed(p.active.items, p.all.items, lib).value;
    FullStays(p.scans, SCAN_PERIODS, ScanDefaults(day, now));
    OuterIs(p, day, now, lib, stats, summary, p.active.items, p.all.items, trend);
    LiveMade(p, Hydrated(stats, summary, lib), trend);
  }

  /** The statistics of an answer made of a live bundle. */
  function Answered(b: Fields, lib: Library): Value
  {
    Obj(Hydrated(FieldsOf(Field(b, "statistics")), FieldsOf(Field(b, "portfolio_summary")), lib))
  }

  /** A live bundle with its statistics completed, and nothing else changed. */
  function Served(b: Fields, lib: Library): Fields
  {
    b["statistics" := Answered(b, lib)]
  }

  function FieldsOf(v: Value): Fields
  {
    if v.Obj? then v.fields else map[]
  }

  lemma WrittenBack(b: Fields, noGroups: Value, statistics: Value, workbench: Value)
    requires BUNDLE_KEYS <= b.Keys
    ensures WithParts(b, Raw(b, noGroups).(statistics := statistics, workbench := workbench))
              == b["statistics" := statistics]["workbench_trends" := workbench]
  {
  }

  lemma LiveParts(b: Fields, noGroups: Value, day: string, now: Now, lib: Library)
    requires LiveOuter(b)
    ensures OuterParts(Raw(b, noGroups), day, now, lib) == Some(Raw(b, noGroups).(statistics := Answered(b, lib)))
  {
    ReadableFindings(Field(b, "statistics").fields, lib);
    LiveOuterParts(Raw(b, noGroups), day, now, lib);
  }

  /** Of a live bundle the normaliser completes the statistics and makes the workbench anew. */
  lemma HydrateLive(b: Fields, bench: Bench, day: string, now: Now, lib: Library)
    requires LiveOuter(b)
    requires BenchFrom(Stored(Field(b, "workbench_trends")), Get(Field(b, "findings_series"), "month"),
                       Field(b, "portfolio_summary"), now, lib) == Some(bench)
    ensures Hydrate(b, day, now, lib)
              == Some(b["statistics" := Answered(b, lib)]["workbench_trends" := WithBench(Field(b, "workbench_trends"),
                  bench)])
  {
    var raw := Raw(b, NoGroups(b, lib));
    LiveParts(b, NoGroups(b, lib), day, now, lib);
    var p := raw.(statistics := Answered(b, lib));
    HydrateIs(b, day, now, lib, p, bench);
    WrittenBack(b, NoGroups(b, lib), Answered(b, lib), WithBench(Field(b, "workbench_trends"), bench));
  }

  lemma SameWritten(b: Fields, statistics: Value)
    requires BUNDLE_KEYS <= b.Keys
    ensures b["statistics" := statistics]["workbench_trends" := Field(b, "workbench_trends")]
              == b["statistics" := statistics]
  {
  }

  /** The cached view equals the live view: what the normaliser makes of a live bundle is
      that bundle with its statistics completed, and nothing else. So every section, the
      workbench among them, is served from the snapshot as it was built, and the statistics
      route answers the same. */
  lemma CachedEqualsLive(b: Fields, day: string, now: Now, lib: Library)
    requires LiveBundle(b) && Prints(lib)
    ensures Hydrate(b, day, now, lib) == Some(Served(b, lib))
    ensures StatisticsAnswer(Served(b, lib), lib) == StatisticsAnswer(b, lib)
  {
    var w := Field(b, "workbench_trends");
    NormalBenchStays(Stored(w), Get(Field(b, "findings_series"), "month"), Field(b, "portfolio_summary"), now, lib);
    HydrateLive(b, Stored(w), day, now, lib);
    SameBench(w, Stored(w));
    SameWritten(b, Answered(b, lib));
    StatisticsAgree(b, day, now, lib);
  }

  /** From scans and issues to the answer: a bundle whose findings and workbench were built
      from them comes back from a snapshot with exactly those, whenever it is read. */
  lemma ServedAsBuilt(b: Fields, scans: seq<Scan>, issues: seq<Issue>, built: Now, day: string, now: Now, lib: Library)
    requires BuiltBundle(b, scans, issues, built) && Prints(lib)
    ensures Hydrate(b, day, now, lib) == Some(Served(b, lib))
    ensures StatisticsAnswer(Served(b, lib), lib) == StatisticsAnswer(b, lib)
    ensures BuiltBundle(Served(b, lib), scans, issues, built)
  {
    BuiltIsNormal(Stored(Field(b, "workbench_trends")), scans, issues, built, lib);
    CachedEqualsLive(b, day, now, lib);
    StillBuilt(b, scans, issues, built, lib);
  }

  lemma StillBuilt(b: Fields, scans: seq<Scan>, issues: seq<Issue>, built: Now, lib: Library)
    requires BuiltBundle(b, scans, issues, built)
    ensures BuiltBundle(Served(b, lib), scans, issues, built)
  {
    AnswerIsReadable(Field(b, "statistics").fields, Field(b, "portfolio_summary").fields, lib);
    OuterStillLive(b, Answered(b, lib));
  }

  lemma OuterStillLive(b: Fields, statistics: Value)
    requires LiveOuter(b) && statistics.Obj? && ReadableFigures(statistics.fields)
    ensures LiveOuter(b["statistics" := statistics])
    ensures Field(b["statistics" := statistics], "findings_series") == Field(b, "findings_series")
    ensures Field(b["statistics" := statistics], "workbench_trends") == Field(b, "workbench_trends")
  {
  }

  // ---------------------------------------------------------------- snapshots from before a list was stored

  const MONTH_LISTS := {"vulnerabilities_criticality", "cumulative_vulnerabilities"}

  /** A value without some of its keys. */
  function Without(w: Value, gone: set<string>): Value
  {
    Obj(FieldsOf(w) - gone)
  }

  lemma WithoutLists(w: Value, gone: set<string>)
    requires Full(w, WORKBENCH_KEYS) && gone <= MONTH_LISTS
    ensures var old', b := Stored(Without(w, gone)), Stored(w);
            && old' == b.(trends := old'.trends)
            && (old'.trends.criticality == b.trends.criticality || old'.trends.criticality.Null?)
            && (old'.trends.cumulative == b.trends.cumulative || old'.trends.cumulative.Null?)
            && old'.trends.compliance == b.trends.compliance && old'.trends.onboarded == b.trends.onboarded
            && old'.trends.days == b.trends.days
  {
  }

  lemma ListsWritten(w: Value, gone: set<string>)
    requires Full(w, WORKBENCH_KEYS) && gone <= MONTH_LISTS
    ensures WithBench(Without(w, gone), Stored(w)) == w
  {
    SameBench(w, Stored(w));
    assert MONTH_LISTS <= WORKBENCH_KEYS;
    assert WithBench(Without(w, gone), Stored(w)).fields == WithBench(w, Stored(w)).fields;
  }

  lemma BenchComesBack(w: Value, gone: set<string>, findings: Value, summary: Value, scans: seq<Scan>,
                       issues: seq<Issue>, built: Now, now: Now, lib: Library)
    requires Full(w, WORKBENCH_KEYS) && BuiltFrom(Stored(w), scans, issues, built) && gone <= MONTH_LISTS
    requires ShowsSeries(findings, issues, built) && Prints(lib)
    ensures BenchFrom(Stored(Without(w, gone)), Get(findings, "month"), summary, now, lib) == Some(Stored(w))
  {
    var bench, old', month := Stored(w), Stored(Without(w, gone)), Get(findings, "month");
    BuiltIsNormal(bench, scans, issues, built, lib);
    WithoutLists(w, gone);
    MonthsComeBack(bench.trends, old'.trends, month, issues, built.month, summary, now, lib);
    NormalRestStays(bench, old'.trends, month, summary, now, lib);
  }

  lemma WrittenOver(b: Fields, k: string, v: Value, j: string, u: Value)
    requires k in b && k != j
    ensures b[k := v][j := u][k := b[k]] == b[j := u]
  {
  }

  lemma OtherFields(b: Fields, v: Value)
    ensures var stored := b["workbench_trends" := v];
            && Field(stored, "workbench_trends") == v && Field(stored, "findings_series") == Field(b, "findings_series")
            && Field(stored, "portfolio_summary") == Field(b, "portfolio_summary")
            && Field(stored, "statistics") == Field(b, "statistics")
  {
  }

  lemma StillLive(b: Fields, v: Value, lib: Library)
    requires LiveOuter(b)
    ensures LiveOuter(b["workbench_trends" := v]) && Answered(b["workbench_trends" := v], lib) == Answered(b, lib)
  {
    OtherFields(b, v);
  }

  /** A workbench that the normaliser makes into the one of a bundle is served as that one. */
  lemma ServedAlike(b: Fields, old': Value, bench: Bench, day: string, now: Now, lib: Library)
    requires LiveOuter(b) && WithBench(old', bench) == Field(b, "workbench_trends")
    requires BenchFrom(Stored(old'), Get(Field(b, "findings_series"), "month"), Field(b, "portfolio_summary"), now, lib)
               == Some(bench)
    ensures Hydrate(b["workbench_trends" := old'], day, now, lib) == Some(Served(b, lib))
  {
    OtherFields(b, old');
    StillLive(b, old', lib);
    HydrateLive(b["workbench_trends" := old'], bench, day, now, lib);
    WrittenOver(b, "workbench_trends", old', "statistics", Answered(b, lib));
  }

  /** A snapshot from before the severity trend or its running total were stored is served with
      both as the live build makes them: with or without them, the answer is the same. */
  lemma MonthListsComeBack(b: Fields, gone: set<string>, scans: seq<Scan>, issues: seq<Issue>, built: Now,
                           day: string, now: Now, lib: Library)
    requires BuiltBundle(b, scans, issues, built) && Prints(lib) && gone <= MONTH_LISTS
    ensures var stored := b["workbench_trends" := Without(Field(b, "workbench_trends"), gone)];
            Hydrate(stored, day, now, lib) == Hydrate(b, day, now, lib) == Some(Served(b, lib))
  {
    var w := Field(b, "workbench_trends");
    ServedAsBuilt(b, scans, issues, built, day, now, lib);
    BenchComesBack(w, gone, Field(b, "findings_series"), Field(b, "portfolio_summary"), scans, issues, built, now, lib);
    ListsWritten(w, gone);
    ServedAlike(b, Without(w, gone), Stored(w), day, now, lib);
  }
}
