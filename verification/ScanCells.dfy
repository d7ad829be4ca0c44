/** What the cells of the counted sections hold, told by the fields of the scans and issues:
    ranges of seconds, bytes and pages, scan types and severities. */
module ScanCells {
  import opened Counting
  import opened Domain
  import opened Filtering
  import opened Series
  import opened Sections
  import opened Wrappers

  // ---------------------------------------------------------------- ranges

  /** How long a scan of a duration bucket takes, in seconds. */
  predicate LastsIn(bucket: string, seconds: real)
  {
    || (bucket == "lt5" && seconds < 300.0)
    || (bucket == "m5_10" && 300.0 <= seconds < 600.0)
    || (bucket == "m10_30" && 600.0 <= seconds < 1800.0)
    || (bucket == "m30_60" && 1800.0 <= seconds < 3600.0)
    || (bucket == "m60_120" && 3600.0 <= seconds < 7200.0)
    || (bucket == "m120_240" && 7200.0 <= seconds < 14400.0)
    || (bucket == "m240_300" && 14400.0 <= seconds < 18000.0)
    || (bucket == "gte300" && 18000.0 <= seconds)
  }

  /** How large an application of a size bucket is: below 5,000 the number counts megabytes, below
      5,000,000 kilobytes, from there bytes. */
  predicate WeighsIn(bucket: string, size: real)
  {
    || (bucket == "lt1" && size < 1.0)
    || (bucket == "m1_5" && (1.0 <= size < 5.0 || 5000.0 <= size < 5120.0 || 5000000.0 <= size < 5242880.0))
    || (bucket == "m5_10" && (5.0 <= size < 10.0 || 5120.0 <= size < 10240.0 || 5242880.0 <= size < 10485760.0))
    || (bucket == "m10_20" && (10.0 <= size < 20.0 || 10240.0 <= size < 20480.0 || 10485760.0 <= size < 20971520.0))
    || (bucket == "m20_100"
        && (20.0 <= size < 100.0 || 20480.0 <= size < 102400.0 || 20971520.0 <= size < 104857600.0))
    || (bucket == "m100_500"
        && (100.0 <= size < 500.0 || 102400.0 <= size < 512000.0 || 104857600.0 <= size < 524288000.0))
    || (bucket == "m500_1g"
        && (500.0 <= size < 1024.0 || 512000.0 <= size < 1048576.0 || 524288000.0 <= size < 1073741824.0))
    || (bucket == "gt1g" && (1024.0 <= size < 5000.0 || 1048576.0 <= size < 5000000.0 || 1073741824.0 <= size))
  }

  /** How many pages a scan of a coverage bucket has. */
  predicate SpansIn(bucket: string, pages: int)
  {
    || (bucket == "lt10" && pages < 10)
    || (bucket == "m10_50" && 10 <= pages < 50)
    || (bucket == "m50_100" && 50 <= pages < 100)
    || (bucket == "m100_500" && 100 <= pages < 500)
    || (bucket == "m500_1000" && 500 <= pages < 1000)
    || (bucket == "gte1000" && 1000 <= pages)
  }

  /** The types a column of the durations counts. */
  predicate TimedAs(column: string, t: ScanType)
  {
    || (t == SastScan && (column == "sast" || column == "total"))
    || (t == ScaScan && (column == "sca" || column == "total"))
    || (t == DastScan && (column == "dast" || column == "total"))
  }

  /** The types a column of the sizes counts. */
  predicate SizedAs(column: string, t: ScanType)
  {
    || (t == SastScan && (column == "sast" || column == "total"))
    || (t == ScaScan && (column == "sca" || column == "total"))
  }

  predicate RatedAs(column: string, s: Severity)
  {
    || column == "total"
    || (column == "critical" && s == Critical)
    || (column == "high" && s == High)
    || (column == "medium" && s == Medium)
    || (column == "low" && s == Low)
    || (column == "unknown" && s == Unknown)
  }

  lemma LastsExactly(b: string, seconds: real)
    ensures BucketOf(DURATIONS, seconds / 60.0) == b <==> LastsIn(b, seconds)
  {
    BucketsSurround(DURATIONS, seconds / 60.0, 0);
    BucketsSurround(DURATIONS, seconds / 60.0, 1);
    BucketsSurround(DURATIONS, seconds / 60.0, 2);
    BucketsSurround(DURATIONS, seconds / 60.0, 3);
    BucketsSurround(DURATIONS, seconds / 60.0, 4);
    BucketsSurround(DURATIONS, seconds / 60.0, 5);
    BucketsSurround(DURATIONS, seconds / 60.0, 6);
  }

  lemma WeighsExactly(b: string, size: real)
    ensures BucketOf(SIZES, SizeInMb(size)) == b <==> WeighsIn(b, size)
  {
    var mb := SizeInMb(size);
    BucketsSurround(SIZES, mb, 0);
    BucketsSurround(SIZES, mb, 1);
    BucketsSurround(SIZES, mb, 2);
    BucketsSurround(SIZES, mb, 3);
    BucketsSurround(SIZES, mb, 4);
    BucketsSurround(SIZES, mb, 5);
    BucketsSurround(SIZES, mb, 6);
  }

  lemma SpansExactly(b: string, pages: int)
    ensures BucketOf(PAGES, pages as real) == b <==> SpansIn(b, pages)
  {
    var x := pages as real;
    BucketsSurround(PAGES, x, 0);
    BucketsSurround(PAGES, x, 1);
    BucketsSurround(PAGES, x, 2);
    BucketsSurround(PAGES, x, 3);
    BucketsSurround(PAGES, x, 4);
  }

  // ---------------------------------------------------------------- entries and scans

  /** What a scan's entry adds, if it has one. */
  function Adds(section: Section, w: Entry -> int): Scan -> int
  {
    (scan: Scan) => if Counts(section, scan) then w(EntryOf(section, scan)) else 0
  }

  lemma {:induction false} EntriesAdd(section: Section, scans: seq<Scan>, w: Entry -> int)
    ensures Sum(EntriesOf(section, scans), w) == Sum(scans, Adds(section, w))
  {
    if scans != [] {
      var first, rest := scans[0], scans[1..];
      var head := if Counts(section, first) then [EntryOf(section, first)] else [];
      EntriesAdd(section, rest, w);
      assert scans == [first] + rest;
      SumConcat(head, EntriesOf(section, rest), w);
      SumConcat([first], rest, Adds(section, w));
      SumOne([], first, Adds(section, w));
      SumOne([], EntryOf(section, first), w);
      assert [] + [first] == [first] && [] + [EntryOf(section, first)] == [EntryOf(section, first)];
    }
  }

  /** A date in a period, or any date when none is asked for. */
  predicate DatedIn(when: Option<Stamp>, span: Option<(Period, string)>)
  {
    span.Some? ==> PeriodKey(when, span.value.0) == Some(span.value.1)
  }

  function TimedIn(b: string, c: string, span: Option<(Period, string)>): Scan -> bool
  {
    (s: Scan) => TimedAs(c, s.scanType) && LastsIn(b, s.durationSeconds) && DatedIn(s.createdAt, span)
  }

  function SizedIn(b: string, c: string, span: Option<(Period, string)>): Scan -> bool
  {
    (s: Scan) => SizedAs(c, s.scanType) && WeighsIn(b, s.size) && DatedIn(s.createdAt, span)
  }

  function SpannedIn(b: string, span: Option<(Period, string)>): Scan -> bool
  {
    (s: Scan) => s.scanType == DastScan && SpansIn(b, s.pages) && DatedIn(s.createdAt, span)
  }

  /** The pages of the dynamic scans of a bucket and period. */
  function PagesIn(b: string, span: Option<(Period, string)>): Scan -> int
  {
    (s: Scan) => if SpannedIn(b, span)(s) then s.pages else 0
  }

  function RatedIn(c: string, span: Option<(Period, string)>): Issue -> bool
  {
    (i: Issue) => RatedAs(c, i.severity) && DatedIn(i.openedAt, span)
  }

  /** The number a cell shows, from the fields of the scans. */
  function CellNumber(section: Section, scans: seq<Scan>, b: string, c: string, span: Option<(Period, string)>): int
  {
    match section
    case ScanTime => |Filter(scans, TimedIn(b, c, span))|
    case FileSize => |Filter(scans, SizedIn(b, c, span))|
    case PageCoverage => if c == "page_count" then Sum(scans, PagesIn(b, span)) else |Filter(scans, SpannedIn(b, span))|
  }

  /** The entries a cell adds up: those of its bucket, column and period. */
  function Weighed(b: string, c: string, span: Option<(Period, string)>): Entry -> int
  {
    (e: Entry) => if DatedIn(e.when, span) then Weight(b, c)(e) else 0
  }

  lemma TimeEntry(scan: Scan, b: string, c: string, span: Option<(Period, string)>)
    requires c in {"sast", "sca", "dast", "total"}
    ensures Adds(ScanTime, Weighed(b, c, span))(scan) == if TimedIn(b, c, span)(scan) then 1 else 0
  {
    LastsExactly(b, scan.durationSeconds);
    ColumnsDiffer();
    if Counts(ScanTime, scan) {
      EntryWeight(ScanTime, scan, b, c);
    }
  }

  lemma SizeEntry(scan: Scan, b: string, c: string, span: Option<(Period, string)>)
    requires c in {"sast", "sca", "total"}
    ensures Adds(FileSize, Weighed(b, c, span))(scan) == if SizedIn(b, c, span)(scan) then 1 else 0
  {
    WeighsExactly(b, scan.size);
    ColumnsDiffer();
    if Counts(FileSize, scan) {
      EntryWeight(FileSize, scan, b, c);
    }
  }

  lemma PageWeight(scan: Scan, b: string)
    ensures var e := EntryOf(PageCoverage, scan);
            && Weight(b, "scan_count")(e) == (if e.bucket == b then 1 else 0)
            && Weight(b, "page_count")(e) == (if e.bucket == b then scan.pages else 0)
  {
    var e := EntryOf(PageCoverage, scan);
    assert "scan_count" != "page_count" by { assert "scan_count"[0] != "page_count"[0]; }
    assert e.adds == map["scan_count" := 1, "page_count" := scan.pages];
    assert e.adds["scan_count"] == 1 && e.adds["page_count"] == scan.pages;
  }

  lemma PageEntry(scan: Scan, b: string, span: Option<(Period, string)>)
    ensures Adds(PageCoverage, Weighed(b, "scan_count", span))(scan) == if SpannedIn(b, span)(scan) then 1 else 0
    ensures Adds(PageCoverage, Weighed(b, "page_count", span))(scan) == PagesIn(b, span)(scan)
  {
    SpansExactly(b, scan.pages);
    PageWeight(scan, b);
    if Counts(PageCoverage, scan) {
      assert scan.scanType == DastScan;
    }
  }

  /** The columns of a section. */
  predicate HasColumn(section: Section, c: string)
  {
    match section
    case ScanTime => c in {"sast", "sca", "dast", "total"}
    case FileSize => c in {"sast", "sca", "total"}
    case PageCoverage => c in {"scan_count", "page_count"}
  }

  lemma EntriesShow(section: Section, scans: seq<Scan>, b: string, c: string, span: Option<(Period, string)>)
    requires HasColumn(section, c)
    ensures Sum(EntriesOf(section, scans), Weighed(b, c, span)) == CellNumber(section, scans, b, c, span)
  {
    var f := Adds(section, Weighed(b, c, span));
    EntriesAdd(section, scans, Weighed(b, c, span));
    match section {
      case ScanTime =>
        forall s | s in scans ensures f(s) == if TimedIn(b, c, span)(s) then 1 else 0 { TimeEntry(s, b, c, span); }
        SumIsCount(scans, f, TimedIn(b, c, span));
      case FileSize =>
        forall s | s in scans ensures f(s) == if SizedIn(b, c, span)(s) then 1 else 0 { SizeEntry(s, b, c, span); }
        SumIsCount(scans, f, SizedIn(b, c, span));
      case PageCoverage =>
        PagesShow(scans, b, c, span);
    }
  }

  lemma PagesShow(scans: seq<Scan>, b: string, c: string, span: Option<(Period, string)>)
    requires c in {"scan_count", "page_count"}
    ensures Sum(scans, Adds(PageCoverage, Weighed(b, c, span))) == CellNumber(PageCoverage, scans, b, c, span)
  {
    var f := Adds(PageCoverage, Weighed(b, c, span));
    if c == "page_count" {
      forall s | s in scans ensures f(s) == PagesIn(b, span)(s) { PageEntry(s, b, span); }
      SumSame(scans, f, PagesIn(b, span));
    } else {
      forall s | s in scans ensures f(s) == if SpannedIn(b, span)(s) then 1 else 0 { PageEntry(s, b, span); }
      SumIsCount(scans, f, SpannedIn(b, span));
    }
  }

  /** A cell of a series is the number of scans of its type, range and period, or their pages. */
  lemma RowShows(section: Section, scans: seq<Scan>, rows: seq<Row>, period: Period, r: Row, b: string, c: string)
    requires Tabulated(rows, EntriesOf(section, scans), period, ShapeOf(section)) && r in rows && HasColumn(section, c)
    ensures CellOf(r.cells, b, c) == CellNumber(section, scans, b, c, Some((period, r.period)))
  {
    var entries, span := EntriesOf(section, scans), Some((period, r.period));
    assert RowExact(r, entries, period, ShapeOf(section));
    SumSame(entries, Member(Keyed(period), Weight(b, c), r.period), Weighed(b, c, span));
    EntriesShow(section, scans, b, c, span);
  }

  /** A bin is the number of scans of its type and range, dated or not, or their pages. */
  lemma BinShows(section: Section, scans: seq<Scan>, b: string, c: string)
    requires HasColumn(section, c)
    ensures Sum(EntriesOf(section, scans), Weight(b, c)) == CellNumber(section, scans, b, c, None)
  {
    SumSame(EntriesOf(section, scans), Weight(b, c), Weighed(b, c, None));
    EntriesShow(section, scans, b, c, None);
  }

  /** The scan types a section is about. */
  predicate About(section: Section, t: ScanType)
  {
    match section
    case ScanTime => t == SastScan || t == ScaScan || t == DastScan
    case FileSize => t == SastScan || t == ScaScan
    case PageCoverage => t == DastScan
  }

  lemma {:induction false} EntriesAre(section: Section, scans: seq<Scan>)
    ensures forall e :: e in EntriesOf(section, scans) ==>
              exists s :: s in scans && About(section, s.scanType) && e == EntryOf(section, s)
    ensures forall s :: s in scans && About(section, s.scanType) ==> EntryOf(section, s) in EntriesOf(section, scans)
  {
    if scans != [] {
      EntriesAre(section, scans[1..]);
      forall e | e in EntriesOf(section, scans)
        ensures exists s :: s in scans && About(section, s.scanType) && e == EntryOf(section, s)
      {
        if e in EntriesOf(section, scans[1..]) {
          var s :| s in scans[1..] && About(section, s.scanType) && e == EntryOf(section, s);
          assert s in scans;
        } else {
          assert scans[0] in scans && e == EntryOf(section, scans[0]);
        }
      }
    }
  }

  lemma DatedEntries(section: Section, scans: seq<Scan>, period: Period, key: string)
    ensures (exists e :: e in EntriesOf(section, scans) && PeriodKey(e.when, period) == Some(key)) <==>
            exists s :: s in scans && About(section, s.scanType) && PeriodKey(s.createdAt, period) == Some(key)
    ensures (exists e :: e in EntriesOf(section, scans) && e.when.Some?) <==>
            exists s :: s in scans && About(section, s.scanType) && s.createdAt.Some?
  {
    EntriesAre(section, scans);
    if s :| s in scans && About(section, s.scanType) && s.createdAt.Some? {
      assert EntryOf(section, s).when == s.createdAt;
    }
    if s :| s in scans && About(section, s.scanType) && PeriodKey(s.createdAt, period) == Some(key) {
      assert EntryOf(section, s).when == s.createdAt;
    }
  }

  /** Which rows a series has: one for each period in which a scan of the section was created, or
      a single one for the current period if no such scan has a date. */
  lemma PeriodsShown(section: Section, scans: seq<Scan>, rows: seq<Row>, period: Period, current: string, key: string)
    requires Charted(rows, EntriesOf(section, scans), period, ShapeOf(section), current)
    ensures (exists s :: s in scans && About(section, s.scanType) && s.createdAt.Some?) ==>
              ((exists r :: r in rows && r.period == key) <==>
               exists s :: s in scans && About(section, s.scanType) && PeriodKey(s.createdAt, period) == Some(key))
    ensures !(exists s :: s in scans && About(section, s.scanType) && s.createdAt.Some?) ==>
              |rows| == 1 && rows[0].period == current
  {
    DatedEntries(section, scans, period, key);
    ChartedPeriods(rows, EntriesOf(section, scans), period, ShapeOf(section), current, key);
  }

  function Marked(p: Issue -> bool): Issue -> int
  {
    (i: Issue) => if p(i) then 1 else 0
  }

  lemma FindingEntry(issue: Issue, period: Period, key: string, c: string)
    requires c in SEVERITIES || c == "total"
    ensures Member(Keyed(period), Weight(FINDINGS, c), key)(FindingOf(issue))
              == Marked(RatedIn(c, Some((period, key))))(issue)
  {
    FindingWeight(issue, FINDINGS, c);
    ColumnsDiffer();
  }

  /** A cell of the findings is the number of issues of its severity and period. */
  lemma FindingShows(issues: seq<Issue>, rows: seq<Row>, period: Period, r: Row, c: string)
    requires Tabulated(rows, FindingsOf(issues), period, FINDING_SHAPE) && r in rows
    requires c in SEVERITIES || c == "total"
    ensures CellOf(r.cells, FINDINGS, c) == |Filter(issues, RatedIn(c, Some((period, r.period))))|
  {
    var entries, f, p := FindingsOf(issues), Member(Keyed(period), Weight(FINDINGS, c), r.period),
        RatedIn(c, Some((period, r.period)));
    assert RowExact(r, entries, period, FINDING_SHAPE);
    forall i | 0 <= i < |issues| ensures f(entries[i]) == Marked(p)(issues[i]) {
      FindingEntry(issues[i], period, r.period, c);
    }
    SumPaired(entries, issues, f, Marked(p));
    SumIsCount(issues, Marked(p), p);
  }
}
