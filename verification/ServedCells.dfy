/** From the fields of scans and issues to the numbers a client reads: what each cell of a served
    bundle shows. */
module ServedCells {
  import opened Bundle
  import opened Counting
  import opened Domain
  import opened Filtering
  import opened Json
  import opened LiveTrends
  import opened Normalizer
  import opened PageProfiles
  import opened Profiles
  import opened ScanCells
  import opened Sections
  import opened Series
  import opened ScanTimes
  import opened SizeProfiles
  import opened Statistics
  import opened Workbench
  import opened WorkbenchBuilder
  import opened Wrappers

  // ---------------------------------------------------------------- rows

  function PeriodName(period: Period): string
  {
    match period
    case Week => "week"
    case Month => "month"
    case Year => "year"
  }

  function Current(period: Period, now: Now): string
  {
    match period
    case Week => now.week
    case Month => now.month
    case Year => now.year
  }

  /** The rows of one of the lists of a series. */
  function SeriesRows(series: Value, period: Period): seq<Value>
  {
    RowsOf(Get(series, PeriodName(period)))
  }

  lemma CellJsonAt(cells: Cells, shape: Shape, b: string, c: string)
    requires Shaped(cells, shape) && b in shape.buckets && c in shape.columns
    ensures Get(CellsJson(cells)(b), c) == Num(CellOf(cells, b, c))
  {
  }

  lemma PeriodOfRowOf(form: Form, period: string, cell: string -> Value)
    ensures PeriodText(RowOf(form, period, cell)) == period
  {
    assert Get(RowOf(form, period, cell), "period") == Str(period);
  }

  lemma RowJsonCell(form: Form, row: Row, b: string, c: string)
    requires Shaped(row.cells, Shape(form.buckets, form.columns))
    requires b in form.buckets && b != "period" && c in form.columns
    ensures Get(Get(RowJson(form, row), b), c) == Num(CellOf(row.cells, b, c))
    ensures PeriodText(RowJson(form, row)) == row.period
  {
    CellOfRow(form, row.period, CellsJson(row.cells), b);
    PeriodOfRowOf(form, row.period, CellsJson(row.cells));
    CellJsonAt(row.cells, Shape(form.buckets, form.columns), b, c);
  }

  lemma TableCell(form: Form, section: Section, scans: seq<Scan>, rows: seq<Row>, period: Period, i: nat, b: string,
                  c: string)
    requires form == FormOf(section) && HasColumn(section, c) && c in form.columns && b in form.buckets && b != "period"
    requires Tabulated(rows, EntriesOf(section, scans), period, ShapeOf(section)) && i < |rows|
    ensures var row := RowsJson(form, rows)[i];
            Get(Get(row, b), c) == Num(CellNumber(section, scans, b, c, Some((period, PeriodText(row)))))
  {
    assert rows[i] in rows;
    assert RowExact(rows[i], EntriesOf(section, scans), period, ShapeOf(section));
    RowJsonCell(form, rows[i], b, c);
    RowShows(section, scans, rows, period, rows[i], b, c);
  }

  lemma SeriesAt(form: Form, weeks: seq<Row>, months: seq<Row>, years: seq<Row>)
    ensures var series := SeriesJson(form, weeks, months, years);
            && SeriesRows(series, Week) == RowsJson(form, weeks) && SeriesRows(series, Month) == RowsJson(form, months)
            && SeriesRows(series, Year) == RowsJson(form, years)
  {
  }

  lemma NoPeriod(scale: Scale)
    requires forall key :: key in Keys(scale) ==> BucketName(key)
    ensures "period" !in Keys(scale)
  {
    assert "period"[0] == 'p';
  }

  lemma PeriodIsNoBucket(section: Section)
    ensures "period" !in ShapeOf(section).buckets
  {
    match section {
      case ScanTime =>
        DurationNames();
        NoPeriod(DURATIONS);
      case FileSize =>
        SizeNames();
        NoPeriod(SIZES);
      case PageCoverage =>
        PageNames();
        NoPeriod(PAGES);
    }
  }

  /** A cell of a section shows the number of scans of its type, range and period, or their pages. */
  lemma SeriesCell(series: Value, section: Section, scans: seq<Scan>, now: Now, period: Period, i: nat, b: string,
                   c: string)
    requires Shows(series, section, scans, now) && HasColumn(section, c) && b in ShapeOf(section).buckets
    requires i < |SeriesRows(series, period)|
    ensures var row := SeriesRows(series, period)[i];
            Get(Get(row, b), c) == Num(CellNumber(section, scans, b, c, Some((period, PeriodText(row)))))
  {
    var entries, form := EntriesOf(section, scans), FormOf(section);
    var w, m, y :|
      && series == SeriesJson(form, w, m, y)
      && Charted(w, entries, Week, ShapeOf(section), now.week)
      && Charted(m, entries, Month, ShapeOf(section), now.month)
      && Charted(y, entries, Year, ShapeOf(section), now.year);
    SeriesAt(form, w, m, y);
    PeriodIsNoBucket(section);
    var rows := match period case Week => w case Month => m case Year => y;
    TableCell(form, section, scans, rows, period, i, b, c);
  }

  // ---------------------------------------------------------------- bins

  lemma SizeBinFields(bucket: string, key: string, sast: int, sca: int)
    ensures var bin := SizeBin(bucket, key, sast, sca);
            && Get(bin, "bucket") == Str(bucket) && Get(bin, "key") == Str(key)
            && Get(bin, "sast") == Num(sast) && Get(bin, "sca") == Num(sca)
  {
  }

  /** A size bin shows how many scans of its range there are, dated or not. */
  lemma SizeBinShows(sizes: Value, style: Style, scans: seq<Scan>, now: Now, i: nat)
    requires ShowsSizes(sizes, style, scans, now) && i < 8
    ensures var bins, key := RowsOf(Get(sizes, "bins")), KeyList(SIZES)[i];
            && |bins| == 8 && Get(bins[i], "key") == Str(key) && Get(bins[i], "bucket") == Str(SIZE_LABELS[i])
            && Get(bins[i], "sast") == Num(|Filter(scans, SizedIn(key, "sast", None))|)
            && Get(bins[i], "sca") == Num(|Filter(scans, SizedIn(key, "sca", None))|)
  {
    var top, series, key := Get(sizes, "top10"), Get(sizes, "by_period"), KeyList(SIZES)[i];
    var bins :| Holds(bins, FileSize, scans) && sizes == BuiltProfile(style, Arr(BuiltSizeBins(bins)), top, series);
    assert CellOf(bins, key, "sast") == Sum(EntriesOf(FileSize, scans), Weight(key, "sast"));
    assert CellOf(bins, key, "sca") == Sum(EntriesOf(FileSize, scans), Weight(key, "sca"));
    BinShows(FileSize, scans, key, "sast");
    BinShows(FileSize, scans, key, "sca");
    SizeBinFields(SIZE_LABELS[i], key, CellOf(bins, key, "sast"), CellOf(bins, key, "sca"));
    BuiltBins(style, Arr(BuiltSizeBins(bins)), top, series);
  }

  lemma BuiltBins(style: Style, bins: Value, top: Value, series: Value)
    ensures Get(BuiltProfile(style, bins, top, series), "bins") == bins
  {
  }

  /** The fields of a coverage bin. */
  lemma PageBinFields(bucket: Bucket, scans: int, pages: int)
    ensures var bin := PageBin(bucket, scans, pages);
            && Get(bin, "key") == Str(bucket.key) && Get(bin, "bucket") == Str(bucket.title)
            && Get(bin, "count") == Get(bin, "scan_count") == Num(scans) && Get(bin, "page_count") == Num(pages)
  {
  }

  lemma PageBinNumbers(bins: Cells, scans: seq<Scan>, key: string)
    requires Holds(bins, PageCoverage, scans)
    ensures CellOf(bins, key, "scan_count") == |Filter(scans, SpannedIn(key, None))|
    ensures CellOf(bins, key, "page_count") == Sum(scans, PagesIn(key, None))
  {
    assert CellOf(bins, key, "scan_count") == Sum(EntriesOf(PageCoverage, scans), Weight(key, "scan_count"));
    assert CellOf(bins, key, "page_count") == Sum(EntriesOf(PageCoverage, scans), Weight(key, "page_count"));
    BinShows(PageCoverage, scans, key, "scan_count");
    BinShows(PageCoverage, scans, key, "page_count");
  }

  /** A coverage bin shows how many dynamic scans of its range there are, and their pages. */
  lemma PageBinShows(pages: Value, style: Style, buckets: seq<Bucket>, scans: seq<Scan>, now: Now, i: nat)
    requires ShowsPages(pages, style, buckets, scans, now) && i < |buckets|
    ensures var bins := RowsOf(Get(pages, "bins"));
            && |bins| == |buckets|
            && Get(bins[i], "key") == Str(buckets[i].key) && Get(bins[i], "bucket") == Str(buckets[i].title)
            && Get(bins[i], "count") == Get(bins[i], "scan_count")
                 == Num(|Filter(scans, SpannedIn(buckets[i].key, None))|)
            && Get(bins[i], "page_count") == Num(Sum(scans, PagesIn(buckets[i].key, None)))
  {
    var top, series := Get(pages, "top10"), Get(pages, "by_period");
    var bins :|
      Holds(bins, PageCoverage, scans) && pages == BuiltProfile(style, Arr(BuiltPageBins(buckets, bins)), top, series);
    PageBinNumbers(bins, scans, buckets[i].key);
    PageBinFields(buckets[i], |Filter(scans, SpannedIn(buckets[i].key, None))|,
                  Sum(scans, PagesIn(buckets[i].key, None)));
    BuiltBins(style, Arr(BuiltPageBins(buckets, bins)), top, series);
  }

  /** What a client finds preselected. */
  lemma Preselected(bench: Bench, scans: seq<Scan>, issues: seq<Issue>, built: Now)
    requires BuiltFrom(bench, scans, issues, built)
    ensures Get(bench.times, "default_bucket") == Str("lt5") && Get(bench.times, "default_period") == Str("month")
    ensures Get(bench.sizes, "default_bucket") == Str("lt1") && Get(bench.sizes, "default_period") == Str("month")
    ensures Get(bench.pages, "default_bucket") == Str("lt10") && Get(bench.pages, "default_period") == Str("month")
  {
    TimesAre(bench.times, TimeStyle(), scans, built);
    SizesAre(bench.sizes, SizeStyle(), scans, built);
    PagesAre(bench.pages, PageStyle(), Buckets(), scans, built);
  }

  lemma TimeFields(style: Style, series: Value)
    ensures var t := BuiltTime(style, series);
            Get(t, "default_bucket") == Str(style.first) && Get(t, "default_period") == Str("month")
  {
    assert "default_bucket" in TIME_KEYS && "default_period" in TIME_KEYS;
  }

  lemma TimesAre(times: Value, style: Style, scans: seq<Scan>, built: Now)
    requires ShowsTimes(times, style, scans, built)
    ensures Get(times, "default_bucket") == Str(style.first) && Get(times, "default_period") == Str("month")
  {
    TimeFields(style, Get(times, "by_period"));
  }

  lemma ProfileFields(style: Style, bins: Value, top: Value, series: Value)
    ensures var p := BuiltProfile(style, bins, top, series);
            Get(p, "default_bucket") == Str(style.first) && Get(p, "default_period") == Str("month")
  {
  }

  lemma SizesAre(sizes: Value, style: Style, scans: seq<Scan>, built: Now)
    requires ShowsSizes(sizes, style, scans, built)
    ensures Get(sizes, "default_bucket") == Str(style.first) && Get(sizes, "default_period") == Str("month")
  {
    var top, series := Get(sizes, "top10"), Get(sizes, "by_period");
    var bins :| Holds(bins, FileSize, scans) && sizes == BuiltProfile(style, Arr(BuiltSizeBins(bins)), top, series);
    ProfileFields(style, Arr(BuiltSizeBins(bins)), top, series);
  }

  lemma PagesAre(pages: Value, style: Style, buckets: seq<Bucket>, scans: seq<Scan>, built: Now)
    requires ShowsPages(pages, style, buckets, scans, built)
    ensures Get(pages, "default_bucket") == Str(style.first) && Get(pages, "default_period") == Str("month")
  {
    var top, series := Get(pages, "top10"), Get(pages, "by_period");
    var bins :|
      Holds(bins, PageCoverage, scans) && pages == BuiltProfile(style, Arr(BuiltPageBins(buckets, bins)), top, series);
    ProfileFields(style, Arr(BuiltPageBins(buckets, bins)), top, series);
  }

  // ---------------------------------------------------------------- findings

  /** A row of the findings shows the number of issues of each severity in its period. */
  lemma FindingsCell(rows: Value, issues: seq<Issue>, period: Period, current: string, i: nat, c: string)
    requires ShowsFindings(rows, issues, period, current) && i < |RowsOf(rows)| && (c in SEVERITIES || c == "total")
    ensures var row := RowsOf(rows)[i];
            Get(row, c) == Num(|Filter(issues, RatedIn(c, Some((period, PeriodText(row)))))|)
  {
    var table :| Charted(table, FindingsOf(issues), period, FINDING_SHAPE, current) && rows == Arr(FindingRows(table));
    assert table[i] in table;
    SeverityNames(c);
    FindingAt(table[i], c, Null);
    FindingAt(table[i], "period", Null);
    FindingShows(issues, table, period, table[i], c);
  }

  lemma SeverityNames(c: string)
    requires c in SEVERITIES || c == "total"
    ensures c in SEVERITY_COLUMNS && c != "period"
  {
  }

  // ---------------------------------------------------------------- the served bundle

  function SectionOf(b: Bench, section: Section): Value
  {
    match section
    case ScanTime => b.times
    case FileSize => b.sizes
    case PageCoverage => b.pages
  }

  lemma BuiltCell(bench: Bench, scans: seq<Scan>, issues: seq<Issue>, built: Now, section: Section, period: Period,
                  i: nat, b: string, c: string)
    requires BuiltFrom(bench, scans, issues, built) && HasColumn(section, c) && b in ShapeOf(section).buckets
    requires i < |SeriesRows(Get(SectionOf(bench, section), "by_period"), period)|
    ensures var row := SeriesRows(Get(SectionOf(bench, section), "by_period"), period)[i];
            Get(Get(row, b), c) == Num(CellNumber(section, scans, b, c, Some((period, PeriodText(row)))))
  {
    SeriesCell(Get(SectionOf(bench, section), "by_period"), section, scans, built, period, i, b, c);
  }

  lemma CellServed(served: Fields, scans: seq<Scan>, issues: seq<Issue>, built: Now, section: Section, period: Period,
                   i: nat, bucket: string, c: string)
    requires BuiltBundle(served, scans, issues, built)
    requires HasColumn(section, c) && bucket in ShapeOf(section).buckets
    ensures var bench := Stored(Field(served, "workbench_trends"));
            var rows := SeriesRows(Get(SectionOf(bench, section), "by_period"), period);
            i < |rows| ==>
              Get(Get(rows[i], bucket), c)
                == Num(CellNumber(section, scans, bucket, c, Some((period, PeriodText(rows[i])))))
  {
    var bench := Stored(Field(served, "workbench_trends"));
    if i < |SeriesRows(Get(SectionOf(bench, section), "by_period"), period)| {
      BuiltCell(bench, scans, issues, built, section, period, i, bucket, c);
    }
  }

  /** What a client reads in a bundle served from a snapshot: in every section, row, bucket and
      column the number of scans of that type, range and period, or the pages of them. */
  lemma ServedCell(b: Fields, served: Fields, scans: seq<Scan>, issues: seq<Issue>, built: Now,
                   day: string, now: Now, lib: Library, section: Section, period: Period,
                   i: nat, bucket: string, c: string)
    requires BuiltBundle(b, scans, issues, built) && Prints(lib) && Hydrate(b, day, now, lib) == Some(served)
    requires HasColumn(section, c) && bucket in ShapeOf(section).buckets
    ensures var bench := Stored(Field(served, "workbench_trends"));
            var rows := SeriesRows(Get(SectionOf(bench, section), "by_period"), period);
            i < |rows| ==>
              Get(Get(rows[i], bucket), c)
                == Num(CellNumber(section, scans, bucket, c, Some((period, PeriodText(rows[i])))))
  {
    ServedAsBuilt(b, scans, issues, built, day, now, lib);
    CellServed(served, scans, issues, built, section, period, i, bucket, c);
  }

  lemma FindingServed(served: Fields, scans: seq<Scan>, issues: seq<Issue>, built: Now, period: Period, i: nat,
                      c: string)
    requires BuiltBundle(served, scans, issues, built) && (c in SEVERITIES || c == "total")
    ensures var rows := SeriesRows(Field(served, "findings_series"), period);
            i < |rows| ==> Get(rows[i], c) == Num(|Filter(issues, RatedIn(c, Some((period, PeriodText(rows[i])))))|)
  {
    var list := Get(Field(served, "findings_series"), PeriodName(period));
    if i < |RowsOf(list)| {
      FindingsCell(list, issues, period, Current(period, built), i, c);
    }
  }

  /** And in the findings the number of issues of each severity. */
  lemma ServedFinding(b: Fields, served: Fields, scans: seq<Scan>, issues: seq<Issue>, built: Now,
                      day: string, now: Now, lib: Library, period: Period, i: nat, c: string)
    requires BuiltBundle(b, scans, issues, built) && Prints(lib) && Hydrate(b, day, now, lib) == Some(served)
    requires c in SEVERITIES || c == "total"
    ensures var rows := SeriesRows(Field(served, "findings_series"), period);
            i < |rows| ==> Get(rows[i], c) == Num(|Filter(issues, RatedIn(c, Some((period, PeriodText(rows[i])))))|)
  {
    ServedAsBuilt(b, scans, issues, built, day, now, lib);
    FindingServed(served, scans, issues, built, period, i, c);
  }
}
