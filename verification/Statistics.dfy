/** The statistics every answer carries: completed from the portfolio summary. */
module Statistics {
  import opened Wrappers
  import opened Json

  type Fields = map<string, Value>

  /** The figures of the statistics, before they are written back. */
  datatype Figures = Figures(
    total: int, active: int, resolved: int, critical: int, high: int, medium: int, low: int,
    openScans: int, running: int, failed: int, scans: int, apps: int, groups: int,
    byStatus: Fields, byType: Fields)

  function Field(m: Fields, k: string): Value
  {
    if k in m then m[k] else Null
  }

  function StatusCounts(summary: Fields, lib: Library): Fields
  {
    if Field(summary, "scan_count_by_status").Obj? then lib.foldCounts(Field(summary, "scan_count_by_status"))
        else map[]
  }

  function CountOf(counts: Fields, k: string, lib: Library): int
  {
    ToInt(Field(counts, k), 0, lib)
  }

  /** What is given wins; what is missing is taken from the summary or made from the rest. */
  function FiguresOf(stats: Fields, summary: Fields, lib: Library): Figures
  {
    var byStatus := StatusCounts(summary, lib);
    var running := CountOf(byStatus, "running", lib) + CountOf(byStatus, "pending", lib)
        + CountOf(byStatus, "queued", lib) + CountOf(byStatus, "scheduled", lib);
    var total := ToInt(Field(stats, "total_issues"), CountOf(summary, "total_issues", lib), lib);
    var active := ToInt(Field(stats, "active_issues"), CountOf(summary, "active_issues", lib), lib);
    var critical, high, medium := CountOf(stats, "critical_issues", lib), CountOf(stats, "high_issues", lib),
        CountOf(stats, "medium_issues", lib);
    Figures(
      total, active,
      ToInt(Field(stats, "resolved_issues"), Max(total - active, 0), lib),
      critical, high, medium,
      ToInt(Field(stats, "low_issues"), Max(total - (critical + high + medium), 0), lib),
      ToInt(Field(stats, "open_scans"), running, lib), running, CountOf(byStatus, "failed", lib),
      ToInt(Field(stats, "total_scans"),
            ToInt(Field(stats, "scan_count"), CountOf(summary, "scan_count", lib), lib), lib),
      CountOf(summary, "application_count", lib), CountOf(summary, "asset_group_count", lib),
      byStatus,
      if Field(summary, "scan_count_by_type").Obj? then Field(summary, "scan_count_by_type").fields else map[])
  }

  /** The figures that are read from the statistics themselves. */
  const KEPT := {"total_issues", "active_issues", "resolved_issues", "critical_issues", "high_issues", "medium_issues",
                 "low_issues", "open_scans", "total_scans"}
  const DERIVED := {"running_or_pending_scans", "failed_scans", "scan_count", "application_count", "asset_group_count",
                    "scan_count_by_status", "scan_count_by_type", "severity"}

  function KeptFigure(k: string, f: Figures): int
  {
    if k == "total_issues" then f.total
    else if k == "active_issues" then f.active
    else if k == "resolved_issues" then f.resolved
    else if k == "critical_issues" then f.critical
    else if k == "high_issues" then f.high
    else if k == "medium_issues" then f.medium
    else if k == "low_issues" then f.low
    else if k == "open_scans" then f.openScans
    else f.scans
  }

  function SeverityTable(f: Figures): Value
  {
    Obj(map["critical" := Num(f.critical), "high" := Num(f.high), "medium" := Num(f.medium), "low" := Num(f.low),
            "total" := Num(f.total)])
  }

  function DerivedField(k: string, f: Figures): Value
  {
    if k == "running_or_pending_scans" then Num(f.running)
    else if k == "failed_scans" then Num(f.failed)
    else if k == "scan_count" then Num(f.scans)
    else if k == "application_count" then Num(f.apps)
    else if k == "asset_group_count" then Num(f.groups)
    else if k == "scan_count_by_status" then Obj(f.byStatus)
    else if k == "scan_count_by_type" then Obj(f.byType)
    else SeverityTable(f)
  }

  function Written(stats: Fields, f: Figures): Fields
  {
    map k | k in stats.Keys + KEPT + DERIVED ::
      if k in KEPT then Num(KeptFigure(k, f)) else if k in DERIVED then DerivedField(k, f) else stats[k]
  }

  /** The statistics of an answer. */
  function Hydrated(stats: Fields, summary: Fields, lib: Library): Fields
  {
    Written(stats, FiguresOf(stats, summary, lib))
  }

  lemma WrittenKept(stats: Fields, f: Figures, k: string)
    requires k in KEPT
    ensures Field(Written(stats, f), k) == Num(KeptFigure(k, f))
  {
  }

  lemma KeptKeys()
    ensures "total_issues" in KEPT && "active_issues" in KEPT && "resolved_issues" in KEPT && "critical_issues" in KEPT
              && "high_issues" in KEPT
    ensures "medium_issues" in KEPT && "low_issues" in KEPT && "open_scans" in KEPT && "total_scans" in KEPT
  {
  }

  lemma KeptFigures(f: Figures)
    ensures KeptFigure("total_issues", f) == f.total && KeptFigure("active_issues", f) == f.active
              && KeptFigure("resolved_issues", f) == f.resolved
    ensures KeptFigure("critical_issues", f) == f.critical && KeptFigure("high_issues", f) == f.high
              && KeptFigure("medium_issues", f) == f.medium
    ensures KeptFigure("low_issues", f) == f.low && KeptFigure("open_scans", f) == f.openScans
              && KeptFigure("total_scans", f) == f.scans
  {
  }

  lemma KeptWritten(stats: Fields, f: Figures)
    ensures var r := Written(stats, f);
            && Field(r, "total_issues") == Num(f.total) && Field(r, "active_issues") == Num(f.active)
            && Field(r, "resolved_issues") == Num(f.resolved) && Field(r, "critical_issues") == Num(f.critical)
            && Field(r, "high_issues") == Num(f.high) && Field(r, "medium_issues") == Num(f.medium)
            && Field(r, "low_issues") == Num(f.low) && Field(r, "open_scans") == Num(f.openScans)
            && Field(r, "total_scans") == Num(f.scans)
  {
    KeptKeys();
    KeptFigures(f);
    WrittenKept(stats, f, "total_issues");
    WrittenKept(stats, f, "active_issues");
    WrittenKept(stats, f, "resolved_issues");
    WrittenKept(stats, f, "critical_issues");
    WrittenKept(stats, f, "high_issues");
    WrittenKept(stats, f, "medium_issues");
    WrittenKept(stats, f, "low_issues");
    WrittenKept(stats, f, "open_scans");
    WrittenKept(stats, f, "total_scans");
  }

  /** Figures read back from what was written are the figures written. */
  lemma FiguresSurvive(stats: Fields, summary: Fields, lib: Library)
    ensures FiguresOf(Hydrated(stats, summary, lib), summary, lib) == FiguresOf(stats, summary, lib)
  {
    var f := FiguresOf(stats, summary, lib);
    KeptWritten(stats, f);
  }

  /** Completing the statistics twice is completing them once. */
  lemma HydrationIdempotent(stats: Fields, summary: Fields, lib: Library)
    ensures Hydrated(Hydrated(stats, summary, lib), summary, lib) == Hydrated(stats, summary, lib)
  {
    FiguresSurvive(stats, summary, lib);
    WrittenTwice(stats, FiguresOf(stats, summary, lib));
  }

  lemma WrittenTwice(stats: Fields, f: Figures)
    ensures Written(Written(stats, f), f) == Written(stats, f)
  {
  }

  lemma GivenFigure(stats: Fields, summary: Fields, lib: Library, k: string)
    requires k in stats && k in KEPT && stats[k].Num?
    ensures KeptFigure(k, FiguresOf(stats, summary, lib)) == stats[k].n
  {
    assert Field(stats, k) == stats[k];
    if k == "total_issues" {
    } else if k == "active_issues" {
    } else if k == "resolved_issues" {
    } else if k == "critical_issues" {
    } else if k == "high_issues" {
    } else if k == "medium_issues" {
    } else if k == "low_issues" {
    } else if k == "open_scans" {
    } else {
      assert k == "total_scans";
    }
  }

  /** A number that is given is never overwritten, and what is not a figure stays. */
  lemma GivenFiguresStay(stats: Fields, summary: Fields, lib: Library, k: string)
    requires k in stats
    ensures k in KEPT && stats[k].Num? ==> Hydrated(stats, summary, lib)[k] == stats[k]
    ensures k !in KEPT && k !in DERIVED ==> Hydrated(stats, summary, lib)[k] == stats[k]
  {
    if k in KEPT && stats[k].Num? {
      GivenFigure(stats, summary, lib, k);
      WrittenKept(stats, FiguresOf(stats, summary, lib), k);
    }
  }

  lemma DerivedAt(stats: Fields, f: Figures, k: string)
    requires k in DERIVED && k !in KEPT
    ensures Field(Written(stats, f), k) == DerivedField(k, f)
  {
  }

  lemma SeverityColumns(f: Figures)
    ensures var t := SeverityTable(f);
            && Get(t, "critical") == Num(f.critical) && Get(t, "high") == Num(f.high)
            && Get(t, "medium") == Num(f.medium)
            && Get(t, "low") == Num(f.low) && Get(t, "total") == Num(f.total)
  {
  }

  lemma DerivedNames()
    ensures "severity" in DERIVED && "severity" !in KEPT && "scan_count" in DERIVED && "scan_count" !in KEPT
  {
  }

  lemma DerivedFields(f: Figures)
    ensures DerivedField("scan_count", f) == Num(f.scans) && DerivedField("severity", f) == SeverityTable(f)
  {
  }

  /** The answer agrees with itself: both scan counts are one figure, and the table of
      severities repeats the figures beside it. */
  lemma FiguresAgree(stats: Fields, summary: Fields, lib: Library)
    ensures var r := Hydrated(stats, summary, lib);
            && Field(r, "scan_count") == Field(r, "total_scans")
            && TableAgrees(Field(r, "severity"), r)
  {
    var f := FiguresOf(stats, summary, lib);
    DerivedNames();
    DerivedFields(f);
    DerivedAt(stats, f, "scan_count");
    DerivedAt(stats, f, "severity");
    KeptWritten(stats, f);
    TableOf(stats, f);
  }

  predicate TableAgrees(table: Value, r: Fields)
  {
    && Get(table, "critical") == Field(r, "critical_issues") && Get(table, "high") == Field(r, "high_issues")
    && Get(table, "medium") == Field(r, "medium_issues") && Get(table, "low") == Field(r, "low_issues")
    && Get(table, "total") == Field(r, "total_issues")
  }

  lemma TableOf(stats: Fields, f: Figures)
    ensures TableAgrees(SeverityTable(f), Written(stats, f))
  {
    SeverityColumns(f);
    KeptWritten(stats, f);
  }

  /** What is missing is the remainder: unless the given parts exceed the total, the four
      severities add up to it, and so do active and resolved issues. */
  lemma MissingIsRemainder(stats: Fields, summary: Fields, lib: Library)
    ensures var f := FiguresOf(stats, summary, lib);
            && (Field(stats, "low_issues").Null? && f.critical + f.high + f.medium <= f.total ==>
                f.critical + f.high + f.medium + f.low == f.total)
            && (Field(stats, "resolved_issues").Null? && f.active <= f.total ==> f.active + f.resolved == f.total)
            && (Field(stats, "low_issues").Null? ==> f.low >= 0)
            && (Field(stats, "resolved_issues").Null? ==> f.resolved >= 0)
  {
  }

  // ---------------------------------------------------------------- which number goes where

  /** The field is this number, or is not there and the number is zero. */
  predicate Says(m: Fields, k: string, n: int)
  {
    if k in m then m[k] == Num(n) else n == 0
  }

  lemma SaysCount(m: Fields, k: string, n: int, lib: Library)
    requires Says(m, k, n)
    ensures CountOf(m, k, lib) == n
  {
  }

  lemma ScanNames()
    ensures "running_or_pending_scans" in DERIVED && "running_or_pending_scans" !in KEPT
    ensures "failed_scans" in DERIVED && "failed_scans" !in KEPT
    ensures "application_count" in DERIVED && "application_count" !in KEPT
    ensures "asset_group_count" in DERIVED && "asset_group_count" !in KEPT
    ensures "scan_count_by_status" in DERIVED && "scan_count_by_status" !in KEPT
    ensures "scan_count_by_type" in DERIVED && "scan_count_by_type" !in KEPT
  {
  }

  lemma ScanFields(f: Figures)
    ensures DerivedField("running_or_pending_scans", f) == Num(f.running)
    ensures DerivedField("failed_scans", f) == Num(f.failed)
    ensures DerivedField("application_count", f) == Num(f.apps)
    ensures DerivedField("asset_group_count", f) == Num(f.groups)
    ensures DerivedField("scan_count_by_status", f) == Obj(f.byStatus)
    ensures DerivedField("scan_count_by_type", f) == Obj(f.byType)
  {
  }

  lemma ScanFieldsWritten(stats: Fields, f: Figures)
    ensures var r := Written(stats, f);
            && Field(r, "running_or_pending_scans") == Num(f.running) && Field(r, "failed_scans") == Num(f.failed)
            && Field(r, "application_count") == Num(f.apps) && Field(r, "asset_group_count") == Num(f.groups)
            && Field(r, "scan_count_by_status") == Obj(f.byStatus) && Field(r, "scan_count_by_type") == Obj(f.byType)
  {
    ScanNames();
    ScanFields(f);
    DerivedAt(stats, f, "running_or_pending_scans");
    DerivedAt(stats, f, "failed_scans");
    DerivedAt(stats, f, "application_count");
    DerivedAt(stats, f, "asset_group_count");
    DerivedAt(stats, f, "scan_count_by_status");
    DerivedAt(stats, f, "scan_count_by_type");
  }

  lemma ScanFigures(stats: Fields, summary: Fields, lib: Library, byStatus: Fields, running: int, pending: int,
                    queued: int, scheduled: int)
    requires byStatus == StatusCounts(summary, lib)
    requires Says(byStatus, "running", running) && Says(byStatus, "pending", pending)
    requires Says(byStatus, "queued", queued) && Says(byStatus, "scheduled", scheduled)
    ensures var f := FiguresOf(stats, summary, lib);
            && f.running == running + pending + queued + scheduled
            && ("open_scans" !in stats ==> f.openScans == f.running)
  {
    SaysCount(byStatus, "running", running, lib);
    SaysCount(byStatus, "pending", pending, lib);
    SaysCount(byStatus, "queued", queued, lib);
    SaysCount(byStatus, "scheduled", scheduled, lib);
  }

  lemma RestOfFigures(stats: Fields, summary: Fields, lib: Library)
    ensures var f := FiguresOf(stats, summary, lib);
            && f.failed == CountOf(StatusCounts(summary, lib), "failed", lib)
            && f.apps == CountOf(summary, "application_count", lib)
            && f.groups == CountOf(summary, "asset_group_count", lib)
            && f.byStatus == StatusCounts(summary, lib)
            && (Field(summary, "scan_count_by_type").Obj? ==> Obj(f.byType) == Field(summary, "scan_count_by_type"))
  {
  }

  /** The scans in progress are those running, pending, queued or scheduled. They, the failed scans
      and the numbers of applications and asset groups always come from the summary; so do the
      tables by status, in lower case, and by type. */
  lemma ScanCounts(stats: Fields, summary: Fields, lib: Library, byStatus: Fields, running: int, pending: int,
                   queued: int, scheduled: int, failed: int, applications: int, groups: int)
    requires "scan_count_by_status" in summary && summary["scan_count_by_status"].Obj?
    requires byStatus == lib.foldCounts(summary["scan_count_by_status"])
    requires Says(byStatus, "running", running) && Says(byStatus, "pending", pending)
    requires Says(byStatus, "queued", queued) && Says(byStatus, "scheduled", scheduled)
    requires Says(byStatus, "failed", failed)
    requires Says(summary, "application_count", applications) && Says(summary, "asset_group_count", groups)
    ensures var r := Hydrated(stats, summary, lib);
            && Field(r, "running_or_pending_scans") == Num(running + pending + queued + scheduled)
            && Field(r, "failed_scans") == Num(failed)
            && Field(r, "application_count") == Num(applications) && Field(r, "asset_group_count") == Num(groups)
            && Field(r, "scan_count_by_status") == Obj(byStatus)
            && (Field(summary, "scan_count_by_type").Obj? ==>
                Field(r, "scan_count_by_type") == Field(summary, "scan_count_by_type"))
            && ("open_scans" !in stats ==> Field(r, "open_scans") == Num(running + pending + queued + scheduled))
  {
    var f := FiguresOf(stats, summary, lib);
    ScanFigures(stats, summary, lib, byStatus, running, pending, queued, scheduled);
    SaysCount(byStatus, "failed", failed, lib);
    SaysCount(summary, "application_count", applications, lib);
    SaysCount(summary, "asset_group_count", groups, lib);
    RestOfFigures(stats, summary, lib);
    ScanFieldsWritten(stats, f);
    KeptWritten(stats, f);
  }

  lemma FromSummary(stats: Fields, summary: Fields, lib: Library, total: int, active: int, scans: int)
    requires Says(summary, "total_issues", total) && Says(summary, "active_issues", active)
    requires Says(summary, "scan_count", scans)
    ensures var f := FiguresOf(stats, summary, lib);
            && ("total_issues" !in stats ==> f.total == total)
            && ("active_issues" !in stats ==> f.active == active)
            && ("total_scans" !in stats && "scan_count" !in stats ==> f.scans == scans)
            && ("total_scans" !in stats ==> forall n :: Field(stats, "scan_count") == Num(n) ==> f.scans == n)
  {
    SaysCount(summary, "total_issues", total, lib);
    SaysCount(summary, "active_issues", active, lib);
    SaysCount(summary, "scan_count", scans, lib);
  }

  /** A total that is not given is the summary's; the total of scans is first looked for under its
      other name. */
  lemma MissingTotals(stats: Fields, summary: Fields, lib: Library, total: int, active: int, scans: int)
    requires Says(summary, "total_issues", total) && Says(summary, "active_issues", active)
    requires Says(summary, "scan_count", scans)
    ensures var r := Hydrated(stats, summary, lib);
            && ("total_issues" !in stats ==> Field(r, "total_issues") == Num(total))
            && ("active_issues" !in stats ==> Field(r, "active_issues") == Num(active))
            && ("total_scans" !in stats && "scan_count" !in stats ==> Field(r, "total_scans") == Num(scans))
            && ("total_scans" !in stats ==>
                forall n :: Field(stats, "scan_count") == Num(n) ==> Field(r, "total_scans") == Num(n))
  {
    var f := FiguresOf(stats, summary, lib);
    FromSummary(stats, summary, lib, total, active, scans);
    KeptWritten(stats, f);
  }

  lemma PartFigures(stats: Fields, summary: Fields, lib: Library, critical: int, high: int, medium: int)
    requires Says(stats, "critical_issues", critical) && Says(stats, "high_issues", high)
    requires Says(stats, "medium_issues", medium)
    ensures var f := FiguresOf(stats, summary, lib);
            && f.critical == critical && f.high == high && f.medium == medium
            && ("low_issues" !in stats ==> f.low == Max(f.total - (critical + high + medium), 0))
            && ("resolved_issues" !in stats ==> f.resolved == Max(f.total - f.active, 0))
  {
    SaysCount(stats, "critical_issues", critical, lib);
    SaysCount(stats, "high_issues", high, lib);
    SaysCount(stats, "medium_issues", medium, lib);
  }

  /** Of what is not given, the three higher severities are zero; the low and the resolved issues
      are what the other parts leave of the total, nothing if those exceed it. */
  lemma MissingParts(stats: Fields, summary: Fields, lib: Library, total: int, active: int, critical: int, high: int,
                     medium: int)
    requires Says(stats, "critical_issues", critical) && Says(stats, "high_issues", high)
    requires Says(stats, "medium_issues", medium)
    requires Field(Hydrated(stats, summary, lib), "total_issues") == Num(total)
    requires Field(Hydrated(stats, summary, lib), "active_issues") == Num(active)
    ensures var r := Hydrated(stats, summary, lib);
            && Field(r, "critical_issues") == Num(critical) && Field(r, "high_issues") == Num(high)
            && Field(r, "medium_issues") == Num(medium)
            && ("low_issues" !in stats ==>
                Field(r, "low_issues") == Num(if critical + high + medium <= total then total - critical - high - medium
                                              else 0))
            && ("resolved_issues" !in stats ==>
                Field(r, "resolved_issues") == Num(if active <= total then total - active else 0))
  {
    PartFigures(stats, summary, lib, critical, high, medium);
    KeptWritten(stats, FiguresOf(stats, summary, lib));
  }
}
