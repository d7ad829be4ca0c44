/** The bucketed workbench sections as the live calculation builds them, and the proof that
    the normaliser of stored payloads leaves them alone. */
module WorkbenchBuilder {
  import opened Wrappers
  import opened Text
  import opened Sorting
  import opened Counting
  import opened Domain
  import opened Series
  import opened Sections
  import opened Json
  import opened Normalizer
  import opened Profiles
  import opened ScanTimes
  import opened SizeProfiles
  import opened PageProfiles

  // ---------------------------------------------------------------- rows as payload

  function RowJson(form: Form, row: Row): Value
  {
    RowOf(form, row.period, CellsJson(row.cells))
  }

  function RowsJson(form: Form, rows: seq<Row>): (r: seq<Value>)
    ensures |r| == |rows| && forall i :: 0 <= i < |r| ==> r[i] == RowJson(form, rows[i])
  {
    seq(|rows|, i requires 0 <= i < |rows| => RowJson(form, rows[i]))
  }

  lemma RowJsonIsNormal(form: Form, row: Row)
    requires Shaped(row.cells, Shape(form.buckets, form.columns)) && row.period != "" && Trimmed(row.period)
    ensures NormalRow(form, RowJson(form, row))
    ensures PeriodText(RowJson(form, row)) == row.period
  {
    RowOfIsNormal(form, row.period, CellsJson(row.cells));
  }

  /** A series as the loop leaves it is in the normaliser's own form. */
  lemma SeriesIsNormal(form: Form, rows: seq<Row>)
    requires rows != [] && SortedBy(rows, EarlierFirst)
    requires forall r :: r in rows ==>
              Shaped(r.cells, Shape(form.buckets, form.columns)) && r.period != "" && Trimmed(r.period)
    ensures NormalRows(form, Arr(RowsJson(form, rows)))
  {
    var json := RowsJson(form, rows);
    forall v | v in json ensures NormalRow(form, v) {
      var i :| 0 <= i < |json| && json[i] == v;
      assert rows[i] in rows;
      RowJsonIsNormal(form, rows[i]);
    }
    forall i, j | 0 <= i < j < |json| ensures PeriodLe(json[i], json[j]) {
      assert rows[i] in rows && rows[j] in rows && EarlierFirst(rows[i], rows[j]);
      RowJsonIsNormal(form, rows[i]);
      RowJsonIsNormal(form, rows[j]);
    }
  }

  function SeriesJson(form: Form, weeks: seq<Row>, months: seq<Row>, years: seq<Row>): Value
  {
    Obj(map["week" := Arr(RowsJson(form, weeks)), "month" := Arr(RowsJson(form, months)),
            "year" := Arr(RowsJson(form, years))])
  }

  lemma SeriesJsonIsNormal(form: Form, weeks: seq<Row>, months: seq<Row>, years: seq<Row>)
    requires NormalRows(form, Arr(RowsJson(form, weeks))) && NormalRows(form, Arr(RowsJson(form, months)))
              && NormalRows(form, Arr(RowsJson(form, years)))
    ensures NormalByPeriod(form, SeriesJson(form, weeks, months, years))
  {
  }

  /** The series count the scans of their section, per week, month and year. */
  ghost predicate Shows(series: Value, section: Section, scans: seq<Scan>, now: Now)
  {
    exists weeks, months, years ::
      && series == SeriesJson(FormOf(section), weeks, months, years)
      && Charted(weeks, EntriesOf(section, scans), Week, ShapeOf(section), now.week)
      && Charted(months, EntriesOf(section, scans), Month, ShapeOf(section), now.month)
      && Charted(years, EntriesOf(section, scans), Year, ShapeOf(section), now.year)
  }

  lemma ShownIsNormal(series: Value, section: Section, scans: seq<Scan>, now: Now)
    requires Shows(series, section, scans, now)
    ensures NormalByPeriod(FormOf(section), series)
  {
    var entries, form := EntriesOf(section, scans), FormOf(section);
    var w, m, y :|
      && series == SeriesJson(form, w, m, y)
      && Charted(w, entries, Week, ShapeOf(section), now.week)
      && Charted(m, entries, Month, ShapeOf(section), now.month)
      && Charted(y, entries, Year, ShapeOf(section), now.year);
    ChartedIsNormal(form, w, entries, Week, now.week);
    ChartedIsNormal(form, m, entries, Month, now.month);
    ChartedIsNormal(form, y, entries, Year, now.year);
    SeriesJsonIsNormal(form, w, m, y);
  }

  /** The bins count all of them, dated or not. */
  ghost predicate Holds(bins: Cells, section: Section, scans: seq<Scan>)
  {
    forall b, c {:trigger CellOf(bins, b, c)} :: CellOf(bins, b, c) == Sum(EntriesOf(section, scans), Weight(b, c))
  }

  /** The three series of a section. */
  method BuildPeriods(section: Section, scans: seq<Scan>, now: Now) returns (series: Value)
    requires Proper(now)
    ensures Shows(series, section, scans, now)
  {
    var entries, shape := EntriesOf(section, scans), ShapeOf(section);
    EntriesFit(section, scans);
    var w := BuildSeries(entries, Week, shape, now.week);
    var m := BuildSeries(entries, Month, shape, now.month);
    var y := BuildSeries(entries, Year, shape, now.year);
    series := SeriesJson(FormOf(section), w, m, y);
  }

  method BuildOverall(section: Section, scans: seq<Scan>) returns (bins: Cells)
    ensures Holds(bins, section, scans)
  {
    EntriesFit(section, scans);
    bins := BuildBins(EntriesOf(section, scans), ShapeOf(section));
  }

  lemma ChartedIsNormal(form: Form, rows: seq<Row>, entries: seq<Entry>, period: Period, current: string)
    requires Charted(rows, entries, period, Shape(form.buckets, form.columns), current)
    ensures NormalRows(form, Arr(RowsJson(form, rows)))
  {
    forall r | r in rows ensures Shaped(r.cells, Shape(form.buckets, form.columns)) && r.period != ""
        && Trimmed(r.period) {
      assert RowExact(r, entries, period, Shape(form.buckets, form.columns));
    }
    SeriesIsNormal(form, rows);
  }

  // ---------------------------------------------------------------- the sections

  function BuiltField(k: string, style: Style, bins: Value, top: Value, series: Value): Value
  {
    if k == "bins" then bins
    else if k == "top10" then top
    else if k == "default_period" then Str("month")
    else if k == "default_bucket" then Str(style.first)
    else if k == "period_options" then ALL_PERIODS
    else if k == "bucket_options" then style.legend
    else series
  }

  function BuiltProfile(style: Style, bins: Value, top: Value, series: Value): Value
  {
    Obj(map k | k in PROFILE_KEYS :: BuiltField(k, style, bins, top, series))
  }

  function BuiltTime(style: Style, series: Value): Value
  {
    Obj(map k | k in TIME_KEYS :: BuiltField(k, style, Null, Null, series))
  }

  lemma AllPeriodsAreNormal()
    ensures NormalPeriodOptions(ALL_PERIODS)
  {
  }

  lemma BuiltFieldIsNormal(k: string, style: Style, bins: Value, top: Value, series: Value)
    requires k in PROFILE_KEYS && style.first in style.form.buckets && NormalByPeriod(style.form, series)
              && (k == "top10" ==> top.Arr?)
    requires k == "bucket_options" ==> NormalOptions(style.legend, style.form)
    ensures NormalField(k, BuiltField(k, style, bins, top, series), style)
  {
    AllPeriodsAreNormal();
  }

  lemma BuiltProfileIsNormal(style: Style, bins: Value, top: Value, series: Value)
    requires Fitting(style) && NormalByPeriod(style.form, series) && top.Arr?
    ensures NormalProfile(BuiltProfile(style, bins, top, series), style)
    ensures Get(BuiltProfile(style, bins, top, series), "bins") == bins
  {
    forall k | k in PROFILE_KEYS ensures NormalField(k, BuiltField(k, style, bins, top, series), style) {
      BuiltFieldIsNormal(k, style, bins, top, series);
    }
  }

  lemma BuiltTimeIsNormal(style: Style, series: Value)
    requires style.first in style.form.buckets && NormalByPeriod(style.form, series)
    ensures NormalTime(BuiltTime(style, series), style)
  {
    forall k | k in TIME_KEYS ensures NormalTimeField(k, BuiltField(k, style, Null, Null, series), style) {
      if k != "bucket_options" {
        BuiltFieldIsNormal(k, style, Null, Null, series);
      }
    }
  }

  function BuiltSizeBins(bins: Cells): (r: seq<Value>)
    ensures |r| == 8
  {
    seq(8, i requires 0 <= i < 8 =>
        SizeBin(SIZE_LABELS[i], KeyList(SIZES)[i], CellOf(bins, KeyList(SIZES)[i], "sast"),
                CellOf(bins, KeyList(SIZES)[i], "sca")))
  }

  lemma SizeBinIsItself(bucket: string, key: string, sast: int, sca: int)
    requires bucket != ""
    ensures NormalSizeBin(SizeBin(bucket, key, sast, sca))
  {
  }

  lemma BuiltSizeBinsAreNormal(bins: Cells)
    ensures NormalSizeBins(Arr(BuiltSizeBins(bins)))
  {
    SizeLabels();
    forall i | 0 <= i < 8 ensures NormalSizeBin(BuiltSizeBins(bins)[i]) {
      var key := KeyList(SIZES)[i];
      SizeBinIsItself(SIZE_LABELS[i], key, CellOf(bins, key, "sast"), CellOf(bins, key, "sca"));
    }
  }

  function BuiltPageBins(buckets: seq<Bucket>, bins: Cells): (r: seq<Value>)
    ensures |r| == |buckets|
  {
    seq(|buckets|, i requires 0 <= i < |buckets| =>
        PageBin(buckets[i], CellOf(bins, buckets[i].key, "scan_count"), CellOf(bins, buckets[i].key, "page_count")))
  }

  lemma BuiltPageBinsAreNormal(buckets: seq<Bucket>, bins: Cells)
    ensures NormalPageBins(BuiltPageBins(buckets, bins), buckets)
  {
    forall i | 0 <= i < |buckets| ensures NormalPageBin(BuiltPageBins(buckets, bins)[i], buckets[i]) {
      PageBinIsNormal(buckets[i], CellOf(bins, buckets[i].key, "scan_count"),
                      CellOf(bins, buckets[i].key, "page_count"));
    }
  }

  lemma BuiltSizesAreNormal(style: Style, bins: Cells, top: Value, series: Value)
    requires Fitting(style) && NormalByPeriod(style.form, series) && top.Arr?
    ensures NormalSizes(BuiltProfile(style, Arr(BuiltSizeBins(bins)), top, series), style)
  {
    BuiltProfileIsNormal(style, Arr(BuiltSizeBins(bins)), top, series);
    BuiltSizeBinsAreNormal(bins);
  }

  /** A page profile in the normaliser's form, its bins included. */
  ghost predicate NormalPages(v: Value, style: Style, buckets: seq<Bucket>)
  {
    NormalProfile(v, style) && HasBins(v) && NormalPageBins(StoredBins(v), buckets)
  }

  lemma BuiltPagesAreNormal(style: Style, buckets: seq<Bucket>, bins: Cells, top: Value, series: Value)
    requires Fitting(style) && NormalByPeriod(style.form, series) && top.Arr?
    ensures NormalPages(BuiltProfile(style, Arr(BuiltPageBins(buckets, bins)), top, series), style, buckets)
  {
    BuiltProfileIsNormal(style, Arr(BuiltPageBins(buckets, bins)), top, series);
    BuiltPageBinsAreNormal(buckets, bins);
  }

  lemma NormalPagesAreFixed(v: Value, style: Style, buckets: seq<Bucket>, now: Now, lib: Library)
    requires NormalPages(v, style, buckets) && Fitting(style) && OwnKeys(buckets)
    ensures PagesWith(v, style, buckets, now, lib) == v
  {
    NormalPageBinsAreFixed(StoredBins(v), buckets, lib);
    LaterPagesPass(v, style, buckets, now, lib);
  }

  /** The three bucketed sections of a workbench. */
  datatype Sectioned = Sectioned(times: Value, sizes: Value, pages: Value)

  /** All three in the form the normaliser leaves them. */
  ghost predicate NormalSections(s: Sectioned)
  {
    && NormalTime(s.times, TimeStyle())
    && NormalSizes(s.sizes, SizeStyle())
    && NormalPages(s.pages, PageStyle(), Buckets())
  }

  /** The normaliser leaves such sections alone, whenever it runs. */
  lemma NormalSectionsStay(s: Sectioned, now: Now, lib: Library)
    requires NormalSections(s)
    ensures ScanTimeFrom(s.times, now, lib) == Some(s.times)
    ensures Prints(lib) ==> SizesFrom(s.sizes, now, lib) == s.sizes
    ensures PagesFrom(s.pages, now, lib) == s.pages
  {
    NormalScanTimeIsFixed(s.times, now, lib);
    SizeStyleFits();
    if Prints(lib) {
      NormalSizesAreFixed(s.sizes, SizeStyle(), DefaultSizeBins(), now, lib);
    }
    PageStyleFits();
    BucketsOwnKeys();
    NormalPagesAreFixed(s.pages, PageStyle(), Buckets(), now, lib);
  }

  // ---------------------------------------------------------------- sections built from scans

  ghost predicate ShowsTimes(times: Value, style: Style, scans: seq<Scan>, now: Now)
  {
    times == BuiltTime(style, Get(times, "by_period")) && Shows(Get(times, "by_period"), ScanTime, scans, now)
  }

  ghost predicate ShowsSizes(sizes: Value, style: Style, scans: seq<Scan>, now: Now)
  {
    var top, series := Get(sizes, "top10"), Get(sizes, "by_period");
    && top.Arr? && Shows(series, FileSize, scans, now)
    && exists bins ::
         Holds(bins, FileSize, scans) && sizes == BuiltProfile(style, Arr(BuiltSizeBins(bins)), top, series)
  }

  ghost predicate ShowsPages(pages: Value, style: Style, buckets: seq<Bucket>, scans: seq<Scan>, now: Now)
  {
    var top, series := Get(pages, "top10"), Get(pages, "by_period");
    && top.Arr? && Shows(series, PageCoverage, scans, now)
    && exists bins ::
         Holds(bins, PageCoverage, scans)
             && pages == BuiltProfile(style, Arr(BuiltPageBins(buckets, bins)), top, series)
  }

  /** The sections as the live calculation builds them: per period and overall they count the
      scans, under the legends and defaults of their kind. */
  ghost predicate ShowsScans(s: Sectioned, scans: seq<Scan>, now: Now)
  {
    && ShowsTimes(s.times, TimeStyle(), scans, now)
    && ShowsSizes(s.sizes, SizeStyle(), scans, now)
    && ShowsPages(s.pages, PageStyle(), Buckets(), scans, now)
  }

  lemma ShownTimesAreNormal(times: Value, style: Style, scans: seq<Scan>, now: Now)
    requires ShowsTimes(times, style, scans, now) && style.form == FormOf(ScanTime) && style.first in style.form.buckets
    ensures NormalTime(times, style)
  {
    ShownIsNormal(Get(times, "by_period"), ScanTime, scans, now);
    BuiltTimeIsNormal(style, Get(times, "by_period"));
  }

  lemma ShownSizesAreNormal(sizes: Value, style: Style, scans: seq<Scan>, now: Now)
    requires ShowsSizes(sizes, style, scans, now) && style.form == FormOf(FileSize) && Fitting(style)
    ensures NormalSizes(sizes, style)
  {
    var top, series := Get(sizes, "top10"), Get(sizes, "by_period");
    var bins :| Holds(bins, FileSize, scans) && sizes == BuiltProfile(style, Arr(BuiltSizeBins(bins)), top, series);
    ShownIsNormal(series, FileSize, scans, now);
    BuiltSizesAreNormal(style, bins, top, series);
  }

  lemma ShownPagesAreNormal(pages: Value, style: Style, buckets: seq<Bucket>, scans: seq<Scan>, now: Now)
    requires ShowsPages(pages, style, buckets, scans, now) && style.form == FormOf(PageCoverage) && Fitting(style)
    ensures NormalPages(pages, style, buckets)
  {
    var top, series := Get(pages, "top10"), Get(pages, "by_period");
    var bins :|
      Holds(bins, PageCoverage, scans) && pages == BuiltProfile(style, Arr(BuiltPageBins(buckets, bins)), top, series);
    ShownIsNormal(series, PageCoverage, scans, now);
    BuiltPagesAreNormal(style, buckets, bins, top, series);
  }

  /** Whatever the scans, sections built from them are in the normaliser's own form. */
  lemma ShownIsNormalised(s: Sectioned, scans: seq<Scan>, now: Now)
    requires ShowsScans(s, scans, now)
    ensures NormalSections(s)
  {
    TimeStyleFits();
    ShownTimesAreNormal(s.times, TimeStyle(), scans, now);
    SizeStyleFits();
    ShownSizesAreNormal(s.sizes, SizeStyle(), scans, now);
    PageStyleFits();
    ShownPagesAreNormal(s.pages, PageStyle(), Buckets(), scans, now);
  }

  lemma BuiltFields(style: Style, bins: Value, top: Value, series: Value)
    ensures Get(BuiltTime(style, series), "by_period") == series
    ensures Get(BuiltProfile(style, bins, top, series), "by_period") == series
    ensures Get(BuiltProfile(style, bins, top, series), "top10") == top
  {
  }

  /** The bucketed sections of the live calculation. Whatever the scans, and whenever a
      snapshot of them is read back, the normaliser returns them as they were built. */
  method BuildSections(scans: seq<Scan>, now: Now, topSizes: seq<Value>, topPages: seq<Value>) returns (s: Sectioned)
    requires Proper(now)
    ensures ShowsScans(s, scans, now) && Get(s.sizes, "top10") == Arr(topSizes)
              && Get(s.pages, "top10") == Arr(topPages)
    ensures forall later: Now, lib: Library :: ScanTimeFrom(s.times, later, lib) == Some(s.times)
    ensures forall later: Now, lib: Library :: Prints(lib) ==> SizesFrom(s.sizes, later, lib) == s.sizes
    ensures forall later: Now, lib: Library :: PagesFrom(s.pages, later, lib) == s.pages
  {
    var times := BuildTimes(scans, now, TimeStyle());
    var sizes := BuildSizes(scans, now, topSizes, SizeStyle());
    var pages := BuildPages(scans, now, topPages, PageStyle(), Buckets());
    s := Sectioned(times, sizes, pages);
    ShownIsNormalised(s, scans, now);
    forall later: Now, lib: Library
      ensures ScanTimeFrom(s.times, later, lib) == Some(s.times)
      ensures Prints(lib) ==> SizesFrom(s.sizes, later, lib) == s.sizes
      ensures PagesFrom(s.pages, later, lib) == s.pages
    {
      NormalSectionsStay(s, later, lib);
    }
  }

  method BuildTimes(scans: seq<Scan>, now: Now, style: Style) returns (times: Value)
    requires Proper(now)
    ensures ShowsTimes(times, style, scans, now)
  {
    var series := BuildPeriods(ScanTime, scans, now);
    times := BuiltTime(style, series);
    BuiltFields(style, Null, Null, series);
  }

  method BuildSizes(scans: seq<Scan>, now: Now, top: seq<Value>, style: Style) returns (sizes: Value)
    requires Proper(now)
    ensures ShowsSizes(sizes, style, scans, now) && Get(sizes, "top10") == Arr(top)
  {
    var series := BuildPeriods(FileSize, scans, now);
    var bins := BuildOverall(FileSize, scans);
    sizes := BuiltProfile(style, Arr(BuiltSizeBins(bins)), Arr(top), series);
    BuiltFields(style, Arr(BuiltSizeBins(bins)), Arr(top), series);
  }

  method BuildPages(scans: seq<Scan>, now: Now, top: seq<Value>, style: Style, buckets: seq<Bucket>)
    returns (pages: Value)
    requires Proper(now)
    ensures ShowsPages(pages, style, buckets, scans, now) && Get(pages, "top10") == Arr(top)
  {
    var series := BuildPeriods(PageCoverage, scans, now);
    var bins := BuildOverall(PageCoverage, scans);
    pages := BuiltProfile(style, Arr(BuiltPageBins(buckets, bins)), Arr(top), series);
    BuiltFields(style, Arr(BuiltPageBins(buckets, bins)), Arr(top), series);
  }
}
