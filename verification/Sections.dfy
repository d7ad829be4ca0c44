/** The counted sections of the workbench: scan durations, application sizes, page coverage
    and findings, as entries for the period series. */
module Sections {
  import opened Text
  import opened Sorting
  import opened Counting
  import opened Domain
  import opened Series
  import opened SeriesLaws

  // ---------------------------------------------------------------- buckets

  /** Upper edges in ascending order; values past the last edge go to `rest`. */
  datatype Scale = Scale(edges: seq<(string, real)>, rest: string)

  const DURATIONS := Scale([("lt5", 5.0), ("m5_10", 10.0), ("m10_30", 30.0), ("m30_60", 60.0), ("m60_120", 120.0),
                            ("m120_240", 240.0), ("m240_300", 300.0)], "gte300")
  const SIZES := Scale([("lt1", 1.0), ("m1_5", 5.0), ("m5_10", 10.0), ("m10_20", 20.0), ("m20_100", 100.0),
                        ("m100_500", 500.0), ("m500_1g", 1024.0)], "gt1g")
  const PAGES := Scale([("lt10", 10.0), ("m10_50", 50.0), ("m50_100", 100.0), ("m100_500", 500.0),
                        ("m500_1000", 1000.0)], "gte1000")

  function Keys(scale: Scale): set<string>
  {
    (set e | e in scale.edges :: e.0) + {scale.rest}
  }

  /** The buckets in order. */
  function KeyList(scale: Scale): (r: seq<string>)
    ensures |r| == |scale.edges| + 1
  {
    seq(|scale.edges| + 1, i requires 0 <= i <= |scale.edges| =>
        if i < |scale.edges| then scale.edges[i].0 else scale.rest)
  }

  lemma KeyListExact(scale: Scale)
    ensures forall k :: k in Keys(scale) <==> k in KeyList(scale)
    ensures Ascending(scale.edges) && (forall e :: e in scale.edges ==> e.0 != scale.rest) ==>
              NoDuplicates(KeyList(scale))
  {
    var list := KeyList(scale);
    forall k ensures k in Keys(scale) <==> k in list {
      if k in Keys(scale) {
        if k == scale.rest {
          assert list[|scale.edges|] == k;
        } else {
          var e :| e in scale.edges && e.0 == k;
          var i :| 0 <= i < |scale.edges| && scale.edges[i] == e;
          assert list[i] == k;
        }
      }
    }
    if Ascending(scale.edges) && forall e :: e in scale.edges ==> e.0 != scale.rest {
      forall i, j | 0 <= i < j < |list| ensures list[i] != list[j] {
        assert scale.edges[i] in scale.edges;
      }
    }
  }

  function FirstBelow(edges: seq<(string, real)>, rest: string, x: real): string
  {
    if edges == [] then rest else if x < edges[0].1 then edges[0].0 else FirstBelow(edges[1..], rest, x)
  }

  function BucketOf(scale: Scale, x: real): string
  {
    FirstBelow(scale.edges, scale.rest, x)
  }

  ghost predicate Ascending(edges: seq<(string, real)>)
  {
    forall i, j :: 0 <= i < j < |edges| ==> edges[i].1 < edges[j].1 && edges[i].0 != edges[j].0
  }

  lemma {:induction false} FirstBelowExact(edges: seq<(string, real)>, rest: string, x: real, i: nat)
    requires Ascending(edges) && i < |edges| && forall e :: e in edges ==> e.0 != rest
    ensures FirstBelow(edges, rest, x) == edges[i].0 <==> x < edges[i].1 && (i == 0 || edges[i - 1].1 <= x)
    ensures FirstBelow(edges, rest, x) == rest <==> edges[|edges| - 1].1 <= x
  {
    var tail := edges[1..];
    if x < edges[0].1 {
      assert edges[0] in edges;
    } else if tail != [] {
      forall e | e in tail ensures e.0 != rest {
        assert e in edges;
      }
      FirstBelowExact(tail, rest, x, if i == 0 then 0 else i - 1);
      if i == 0 { NotFirst(tail, rest, x, edges[0].0); }
    }
  }

  lemma {:induction false} NotFirst(edges: seq<(string, real)>, rest: string, x: real, key: string)
    requires key != rest && forall e :: e in edges ==> e.0 != key
    ensures FirstBelow(edges, rest, x) != key
  {
    if edges != [] {
      assert edges[0] in edges;
      NotFirst(edges[1..], rest, x, key);
    }
  }

  lemma DurationsAscend()
    ensures Ascending(DURATIONS.edges) && forall e :: e in DURATIONS.edges ==> e.0 != DURATIONS.rest
  {
  }

  lemma SizesAscend()
    ensures Ascending(SIZES.edges) && forall e :: e in SIZES.edges ==> e.0 != SIZES.rest
  {
  }

  lemma PagesAscend()
    ensures Ascending(PAGES.edges) && forall e :: e in PAGES.edges ==> e.0 != PAGES.rest
  {
  }

  /** No bucket is called "period" or "". */
  predicate BucketName(key: string)
  {
    key != "" && key[0] in {'l', 'm', 'g'} && Trimmed(key)
  }

  lemma KeyIndex(scale: Scale, key: string) returns (i: nat)
    requires key in Keys(scale) && key != scale.rest
    ensures i < |scale.edges| && scale.edges[i].0 == key
  {
    var e :| e in scale.edges && e.0 == key;
    i :| 0 <= i < |scale.edges| && scale.edges[i] == e;
  }

  lemma KeysAreNames(scale: Scale)
    requires BucketName(scale.rest) && forall i :: 0 <= i < |scale.edges| ==> BucketName(scale.edges[i].0)
    ensures forall key :: key in Keys(scale) ==> BucketName(key)
  {
    forall key | key in Keys(scale) ensures BucketName(key) {
      if key != scale.rest {
        var i := KeyIndex(scale, key);
      }
    }
  }

  lemma DurationNames()
    ensures forall key :: key in Keys(DURATIONS) ==> BucketName(key)
  {
    KeysAreNames(DURATIONS);
  }

  lemma SizeNames()
    ensures forall key :: key in Keys(SIZES) ==> BucketName(key)
  {
    KeysAreNames(SIZES);
  }

  lemma PageNames()
    ensures forall key :: key in Keys(PAGES) ==> BucketName(key)
  {
    KeysAreNames(PAGES);
  }

  lemma KeysAreDistinct(scale: Scale)
    requires scale == DURATIONS || scale == SIZES || scale == PAGES
    ensures NoDuplicates(KeyList(scale)) && forall k :: k in Keys(scale) <==> k in KeyList(scale)
  {
    if scale == DURATIONS {
      DurationsAscend();
    } else if scale == SIZES {
      SizesAscend();
    } else {
      PagesAscend();
    }
    KeyListExact(scale);
  }

  lemma EdgeIsKey(scale: Scale, i: nat)
    requires i < |scale.edges|
    ensures scale.edges[i].0 in Keys(scale)
  {
    assert scale.edges[i] in scale.edges;
  }

  /** Every value falls in exactly the bucket whose edges surround it. */
  lemma BucketsSurround(scale: Scale, x: real, i: nat)
    requires scale == DURATIONS || scale == SIZES || scale == PAGES
    requires i < |scale.edges|
    ensures BucketOf(scale, x) == scale.edges[i].0 <==> x < scale.edges[i].1 && (i == 0 || scale.edges[i - 1].1 <= x)
    ensures BucketOf(scale, x) == scale.rest <==> scale.edges[|scale.edges| - 1].1 <= x
  {
    if scale == DURATIONS {
      DurationsAscend();
    } else if scale == SIZES {
      SizesAscend();
    } else {
      PagesAscend();
    }
    FirstBelowExact(scale.edges, scale.rest, x, i);
  }

  lemma {:induction false} FirstBelowIsKey(edges: seq<(string, real)>, rest: string, x: real)
    ensures FirstBelow(edges, rest, x) in (set e | e in edges :: e.0) + {rest}
  {
    if edges != [] && !(x < edges[0].1) {
      FirstBelowIsKey(edges[1..], rest, x);
      if FirstBelow(edges[1..], rest, x) != rest {
        var e :| e in edges[1..] && e.0 == FirstBelow(edges[1..], rest, x);
        assert e in edges;
      }
    } else if edges != [] {
      assert edges[0] in edges;
    }
  }

  // ---------------------------------------------------------------- entries

  /** Sizes come in bytes, kilobytes or megabytes; the magnitude decides which. */
  function SizeInMb(raw: real): real
  {
    if raw <= 0.0 then 0.0
    else if raw >= 5_000_000.0 then raw / 1_048_576.0
    else if raw >= 5_000.0 then raw / 1_024.0
    else raw
  }

  function TechColumn(t: Domain.Technology): string
  {
    match t
    case SAST => "sast"
    case SCA => "sca"
    case DAST => "dast"
    case IAST => "iast"
    case UNKNOWN => "unknown"
  }

  function SeverityColumn(s: Severity): string
  {
    match s
    case Critical => "critical"
    case High => "high"
    case Medium => "medium"
    case Low => "low"
    case Unknown => "unknown"
  }

  datatype Section = ScanTime | FileSize | PageCoverage

  function ShapeOf(section: Section): Shape
  {
    match section
    case ScanTime => Shape(Keys(DURATIONS), {"sast", "sca", "dast", "total"})
    case FileSize => Shape(Keys(SIZES), {"sast", "sca", "total"})
    case PageCoverage => Shape(Keys(PAGES), {"scan_count", "page_count"})
  }

  predicate Counts(section: Section, scan: Scan)
  {
    match section
    case ScanTime => KindOf(scan) in {SAST, SCA, DAST}
    case FileSize => KindOf(scan) in {SAST, SCA}
    case PageCoverage => KindOf(scan) == DAST
  }

  function EntryOf(section: Section, scan: Scan): Entry
  {
    match section
    case ScanTime => Entry(scan.createdAt, BucketOf(DURATIONS, scan.durationSeconds / 60.0),
                           map[TechColumn(KindOf(scan)) := 1, "total" := 1])
    case FileSize => Entry(scan.createdAt, BucketOf(SIZES, SizeInMb(scan.size)),
                           map[TechColumn(KindOf(scan)) := 1, "total" := 1])
    case PageCoverage => Entry(scan.createdAt, BucketOf(PAGES, scan.pages as real),
                               map["scan_count" := 1, "page_count" := scan.pages])
  }

  function EntriesOf(section: Section, scans: seq<Scan>): seq<Entry>
  {
    if scans == [] then []
    else (if Counts(section, scans[0]) then [EntryOf(section, scans[0])] else []) + EntriesOf(section, scans[1..])
  }

  const FINDINGS := "findings"
  const FINDING_SHAPE := Shape({FINDINGS}, {"critical", "high", "medium", "low", "unknown", "total"})
  const SEVERITIES := ["critical", "high", "medium", "low", "unknown"]

  function FindingOf(issue: Issue): Entry
  {
    Entry(issue.openedAt, FINDINGS, map[SeverityColumn(issue.severity) := 1, "total" := 1])
  }

  function FindingsOf(issues: seq<Issue>): (r: seq<Entry>)
    ensures |r| == |issues| && forall i :: 0 <= i < |r| ==> r[i] == FindingOf(issues[i])
  {
    seq(|issues|, i requires 0 <= i < |issues| => FindingOf(issues[i]))
  }

  function Parts(section: Section): seq<string>
  {
    match section
    case ScanTime => ["sast", "sca", "dast"]
    case FileSize => ["sast", "sca"]
    case PageCoverage => []
  }

  lemma EntryFits(section: Section, scan: Scan)
    requires Counts(section, scan)
    ensures Fits(EntryOf(section, scan), ShapeOf(section))
  {
    match section {
      case ScanTime => FirstBelowIsKey(DURATIONS.edges, DURATIONS.rest, scan.durationSeconds / 60.0);
      case FileSize => FirstBelowIsKey(SIZES.edges, SIZES.rest, SizeInMb(scan.size));
      case PageCoverage => FirstBelowIsKey(PAGES.edges, PAGES.rest, scan.pages as real);
    }
  }

  lemma SumThree(f: string -> int, a: string, b: string, c: string)
    ensures Sum([a, b, c], f) == f(a) + f(b) + f(c)
    ensures Sum([a, b], f) == f(a) + f(b)
  {
    SumOne([], a, f);
    SumOne([a], b, f);
    SumOne([a, b], c, f);
    assert [] + [a] == [a] && [a] + [b] == [a, b] && [a, b] + [c] == [a, b, c];
  }

  lemma SumFive(f: string -> int, a: string, b: string, c: string, d: string, e: string)
    ensures Sum([a, b, c, d, e], f) == f(a) + f(b) + f(c) + f(d) + f(e)
  {
    SumThree(f, a, b, c);
    SumOne([a, b, c], d, f);
    SumOne([a, b, c, d], e, f);
    assert [a, b, c] + [d] == [a, b, c, d] && [a, b, c, d] + [e] == [a, b, c, d, e];
  }

  lemma ColumnsDiffer()
    ensures "sast" != "sca" && "sast" != "dast" && "sca" != "dast" && "total" !in ["sast", "sca", "dast"]
    ensures "total" !in SEVERITIES && "unknown" != "low" && "unknown" != "medium" && "unknown" != "high"
              && "unknown" != "critical"
    ensures "low" != "medium" && "low" != "high" && "low" != "critical" && "medium" != "high" && "medium" != "critical"
              && "high" != "critical"
  {
    assert "sast"[0] != "dast"[0];
  }

  lemma EntryWeight(section: Section, scan: Scan, b: string, c: string)
    requires Counts(section, scan) && !section.PageCoverage? && c in ["sast", "sca", "dast", "total"]
    ensures var e := EntryOf(section, scan);
            Weight(b, c)(e) == if b == e.bucket && (c == "total" || c == TechColumn(KindOf(scan))) then 1 else 0
  {
    ColumnsDiffer();
  }

  lemma EntryTotals(section: Section, scan: Scan)
    requires Counts(section, scan) && !section.PageCoverage?
    ensures TotalOf(EntryOf(section, scan), Parts(section))
  {
    var e := EntryOf(section, scan);
    forall b: string ensures Weight(b, "total")(e) == Sum(Parts(section), PartOf(e, b)) {
      ColumnsDiffer();
      EntryWeight(section, scan, b, "sast");
      EntryWeight(section, scan, b, "sca");
      EntryWeight(section, scan, b, "dast");
      EntryWeight(section, scan, b, "total");
      SumThree(PartOf(e, b), "sast", "sca", "dast");
    }
  }

  lemma FindingWeight(issue: Issue, b: string, c: string)
    requires c in SEVERITIES || c == "total"
    ensures Weight(b, c)(FindingOf(issue)) == if b == FINDINGS && (c == "total" || c == SeverityColumn(issue.severity))
              then 1 else 0
  {
    ColumnsDiffer();
  }

  lemma FindingTotals(issue: Issue)
    ensures TotalOf(FindingOf(issue), SEVERITIES) && Fits(FindingOf(issue), FINDING_SHAPE)
  {
    var e := FindingOf(issue);
    forall b: string ensures Weight(b, "total")(e) == Sum(SEVERITIES, PartOf(e, b)) {
      ColumnsDiffer();
      FindingWeight(issue, b, "critical");
      FindingWeight(issue, b, "high");
      FindingWeight(issue, b, "medium");
      FindingWeight(issue, b, "low");
      FindingWeight(issue, b, "unknown");
      FindingWeight(issue, b, "total");
      SumFive(PartOf(e, b), "critical", "high", "medium", "low", "unknown");
    }
  }

  lemma {:induction false} EntriesFit(section: Section, scans: seq<Scan>)
    ensures forall e :: e in EntriesOf(section, scans) ==> Fits(e, ShapeOf(section))
    ensures !section.PageCoverage? ==> forall e :: e in EntriesOf(section, scans) ==> TotalOf(e, Parts(section))
  {
    if scans != [] {
      EntriesFit(section, scans[1..]);
      if Counts(section, scans[0]) {
        EntryFits(section, scans[0]);
        if !section.PageCoverage? { EntryTotals(section, scans[0]); }
      }
    }
  }

  // ---------------------------------------------------------------- overall bins

  /** The bins over all scans, dated or not. */
  method BuildBins(entries: seq<Entry>, shape: Shape) returns (bins: Cells)
    requires forall e :: e in entries ==> Fits(e, shape)
    ensures Shaped(bins, shape)
    ensures forall b, c {:trigger CellOf(bins, b, c)} :: CellOf(bins, b, c) == Sum(entries, Weight(b, c))
  {
    bins := EmptyCells(shape);
    for i := 0 to |entries|
      invariant Shaped(bins, shape)
      invariant forall b, c {:trigger CellOf(bins, b, c)} :: CellOf(bins, b, c) == Sum(entries[..i], Weight(b, c))
    {
      var e := entries[i];
      assert e in entries;
      assert entries[..i + 1][..i] == entries[..i];
      ghost var before := bins;
      bins := Bumped(bins, e);
      forall b, c ensures CellOf(bins, b, c) == Sum(entries[..i + 1], Weight(b, c)) {
        BumpedCell(before, e, shape, b, c);
        assert CellOf(before, b, c) == Sum(entries[..i], Weight(b, c));
      }
      BumpedCell(before, e, shape, "", "");
    }
    assert entries[..|entries|] == entries;
  }

  function Lost(b: string, c: string): Entry -> int
  {
    (e: Entry) => if e.when.None? then Weight(b, c)(e) else 0
  }

  /** A bin holds what the series of its section holds, plus the entries without a date. */
  lemma BinsAndSeries(rows: seq<Row>, entries: seq<Entry>, period: Period, shape: Shape, b: string, c: string)
    requires Tabulated(rows, entries, period, shape)
    ensures Sum(entries, Weight(b, c)) == Sum(rows, RowCell(b, c)) + Sum(entries, Lost(b, c))
  {
    SeriesConserves(rows, entries, period, shape, b, c);
    SumAdds(entries, Weight(b, c), Dated(b, c), Lost(b, c));
  }

  // ---------------------------------------------------------------- findings and their running total

  datatype Running = Running(period: string, monthlyTotal: int, cumulativeTotal: int)

  function MonthlyTotal(): Row -> int
  {
    RowCell(FINDINGS, "total")
  }

  /** Each month's own total and the sum of the totals up to it. */
  ghost predicate RunsUp(series: seq<Running>, months: seq<Row>)
  {
    && |series| == |months|
    && forall i :: 0 <= i < |series| ==>
         series[i] == Running(months[i].period, MonthlyTotal()(months[i]), Sum(months[..i + 1], MonthlyTotal()))
  }

  method Cumulate(months: seq<Row>) returns (series: seq<Running>)
    ensures RunsUp(series, months)
  {
    series := [];
    var total := 0;
    for i := 0 to |months|
      invariant |series| == i && total == Sum(months[..i], MonthlyTotal())
      invariant forall j :: 0 <= j < i ==>
                  series[j] == Running(months[j].period, CellOf(months[j].cells, FINDINGS, "total"),
                                       Sum(months[..j + 1], MonthlyTotal()))
    {
      assert months[..i + 1][..i] == months[..i];
      var monthly := CellOf(months[i].cells, FINDINGS, "total");
      total := total + monthly;
      series := series + [Running(months[i].period, monthly, total)];
    }
  }

  function HasDate(): Issue -> int
  {
    (issue: Issue) => if issue.openedAt.Some? then 1 else 0
  }

  lemma {:induction false} DatedFindings(issues: seq<Issue>)
    ensures Sum(FindingsOf(issues), Dated(FINDINGS, "total")) == Sum(issues, HasDate())
    decreases |issues|
  {
    if issues != [] {
      var n := |issues| - 1;
      DatedFindings(issues[..n]);
      assert FindingsOf(issues)[..n] == FindingsOf(issues[..n]);
      assert FindingsOf(issues)[n] == FindingOf(issues[n]);
      FindingWeight(issues[n], FINDINGS, "total");
    }
  }

  /** The last cumulative value is the sum of all monthly totals, which is the number of
      issues with a date; each month's total is the sum of its severities. */
  lemma CumulativeIsComplete(months: seq<Row>, issues: seq<Issue>, series: seq<Running>, r: Row)
    requires Tabulated(months, FindingsOf(issues), Month, FINDING_SHAPE) && r in months && RunsUp(series, months)
    ensures series[|series| - 1].cumulativeTotal == Sum(months, MonthlyTotal()) == Sum(issues, HasDate())
    ensures CellOf(r.cells, FINDINGS, "total") == Sum(SEVERITIES, PartCell(r, FINDINGS))
  {
    assert months[..|months|] == months;
    SeriesConserves(months, FindingsOf(issues), Month, FINDING_SHAPE, FINDINGS, "total");
    DatedFindings(issues);
    forall e | e in FindingsOf(issues) ensures TotalOf(e, SEVERITIES) {
      var i :| 0 <= i < |issues| && FindingsOf(issues)[i] == e;
      FindingTotals(issues[i]);
    }
    TotalsArePartSums(months, FindingsOf(issues), Month, FINDING_SHAPE, SEVERITIES, r, FINDINGS);
  }

  /** For every section and every scan list: the three series agree, and (for durations and
      sizes) every total is the sum of its technologies. */
  lemma SectionLaws(section: Section, scans: seq<Scan>, weeks: seq<Row>, months: seq<Row>, years: seq<Row>, r: Row,
                    b: string, c: string)
    requires Tabulated(weeks, EntriesOf(section, scans), Week, ShapeOf(section))
    requires Tabulated(months, EntriesOf(section, scans), Month, ShapeOf(section))
    requires Tabulated(years, EntriesOf(section, scans), Year, ShapeOf(section)) && r in years
    ensures Sum(weeks, RowCell(b, c)) == Sum(months, RowCell(b, c)) == Sum(years, RowCell(b, c))
              == Sum(EntriesOf(section, scans), Dated(b, c))
    ensures CellOf(r.cells, b, c) == Sum(months, InYear(r.period, b, c))
    ensures !section.PageCoverage? ==> CellOf(r.cells, b, "total") == Sum(Parts(section), PartCell(r, b))
  {
    var entries, shape := EntriesOf(section, scans), ShapeOf(section);
    EntriesFit(section, scans);
    PeriodsAgree(weeks, months, years, entries, shape, b, c);
    YearIsSumOfMonths(months, years, entries, shape, r, b, c);
    if !section.PageCoverage? {
      TotalsArePartSums(years, entries, Year, shape, Parts(section), r, b);
    }
  }
}
