/** Which bucket a stored bin or cell counts in: bins of former profiles, labels without keys, and
    the cells of former rows. */
module FormerBuckets {
  import opened Wrappers
  import opened Text
  import opened Json
  import opened Sections
  import opened Normalizer
  import opened SizeProfiles
  import opened PageProfiles

  /** A former bucket: its key and the values it counted, from `low` up to but without `high`. */
  datatype Former = Former(key: string, low: real, high: real)

  const FORMER_SIZES := [Former("m10_50", 10.0, 50.0), Former("m50_100", 50.0, 100.0), Former("m100_300", 100.0, 300.0),
                         Former("m300_500", 300.0, 500.0), Former("m500_1000", 500.0, 1000.0)]

  const FORMER_PAGES := [Former("m100_200", 100.0, 200.0), Former("m200_500", 200.0, 500.0)]

  lemma SizeEdges(x: real)
    ensures 20.0 <= x < 100.0 <==> BucketOf(SIZES, x) == "m20_100"
    ensures 100.0 <= x < 500.0 <==> BucketOf(SIZES, x) == "m100_500"
    ensures 500.0 <= x < 1024.0 <==> BucketOf(SIZES, x) == "m500_1g"
    ensures 1024.0 <= x <==> BucketOf(SIZES, x) == "gt1g"
  {
    BucketsSurround(SIZES, x, 4);
    BucketsSurround(SIZES, x, 5);
    BucketsSurround(SIZES, x, 6);
  }

  lemma FormerSizeKeys()
    ensures SizeAlias("m10_50") == SizeAlias("m50_100") == Some("m20_100")
    ensures SizeAlias("m100_300") == SizeAlias("m300_500") == Some("m100_500")
    ensures SizeAlias("m500_1000") == Some("m500_1g") && SizeAlias("gte1000") == Some("gt1g")
  {
    SizeKeys();
  }

  lemma SizeKeys()
    ensures KeyList(SIZES) == ["lt1", "m1_5", "m5_10", "m10_20", "m20_100", "m100_500", "m500_1g", "gt1g"]
  {
    var names := KeyList(SIZES);
    assert names[0] == "lt1" && names[1] == "m1_5" && names[2] == "m5_10" && names[3] == "m10_20";
    assert names[4] == "m20_100" && names[5] == "m100_500" && names[6] == "m500_1g" && names[7] == "gt1g";
  }

  /** A former size bucket goes where its sizes are counted today, but for 10 up to 20 megabytes,
      which a bin of `m10_50` takes to `m20_100`, and the last 24 megabytes below a gigabyte, which
      a bin of `gte1000` takes to `gt1g`. */
  lemma FormerSizes(f: Former, key: string, label': string, x: real)
    requires Fold(key) == f.key && f.low <= x < f.high
    requires f in FORMER_SIZES || f == Former("gte1000", 1000.0, f.high)
    ensures ResolveSize(key, label') == Some(BucketOf(SIZES, x)) <==> !(10.0 <= x < 20.0 || 1000.0 <= x < 1024.0)
  {
    FormerSizeKeys();
    SizeEdges(x);
  }

  lemma PageEdges(x: real)
    ensures 100.0 <= x < 500.0 ==> BucketOf(PAGES, x) == "m100_500"
  {
    BucketsSurround(PAGES, x, 3);
  }

  lemma PageKeys()
    ensures KeyList(PAGES) == ["lt10", "m10_50", "m50_100", "m100_500", "m500_1000", "gte1000"]
  {
    var names := KeyList(PAGES);
    assert names[0] == "lt10" && names[1] == "m10_50" && names[2] == "m50_100" && names[3] == "m100_500";
    assert names[4] == "m500_1000" && names[5] == "gte1000";
  }

  /** Both former page buckets go where their page counts are counted today. */
  lemma FormerPages(f: Former, key: string, label': string, x: real)
    requires Fold(key) == f.key && f in FORMER_PAGES && f.low <= x < f.high
    ensures ResolvePages(key, label') == Some(BucketOf(PAGES, x))
  {
    PageKeys();
    PageEdges(x);
  }

  // ---------------------------------------------------------------- labels

  /** These two characters of the needle stand as far apart in the text. */
  predicate PairAt(hay: string, needle: string, p: nat, q: nat, i: nat)
    requires p < |needle| && q < |needle| && i + |needle| <= |hay|
  {
    hay[i + p] == needle[p] && hay[i + q] == needle[q]
  }

  lemma Missing(hay: string, needle: string, p: nat, q: nat)
    requires p < |needle| && q < |needle|
    requires forall i: nat :: i + |needle| <= |hay| ==> !PairAt(hay, needle, p, q, i)
    ensures !Contains(hay, needle)
  {
    ContainsExactly(hay, needle);
    forall i: nat | i + |needle| <= |hay| ensures !StandsAt(hay, needle, i) {
      assert hay[i..i + |needle|][p] == hay[i + p] && hay[i..i + |needle|][q] == hay[i + q];
      assert !PairAt(hay, needle, p, q, i);
    }
  }

  lemma Found(hay: string, needle: string, i: nat)
    requires StandsAt(hay, needle, i)
    ensures Contains(hay, needle)
  {
    ContainsExactly(hay, needle);
  }

  /** A bin without a key resolves by its label alone, in lower case. */
  lemma NoKey(label': string, folded: string)
    requires |label'| == |folded| > 0 && forall i :: 0 <= i < |folded| ==> LowerChar(label'[i]) == folded[i]
    requires Trimmed(label')
    ensures ResolveSize("", label') == SizeByLabel(folded) && ResolvePages("", label') == PagesByLabel(folded)
  {
    TrimIsTrimmed(label');
    TrimIsTrimmed("");
    assert Fold(label') == folded && Fold("") == "";
    SizeKeys();
    PageKeys();
  }

  lemma BelowOneMb(label': string, folded: string)
    requires label' == "<1MB" && folded == "<1mb"
    ensures ResolveSize("", label') == Some("lt1")
  {
    Found(folded, "<1", 0);
    NoKey(label', folded);
  }

  lemma OneToFiveMb(label': string, folded: string)
    requires label' == "1-5MB" && folded == "1-5mb"
    ensures ResolveSize("", label') == Some("m1_5")
  {
    Missing(folded, "<1", 0, 1);
    Found(folded, "1-5", 0);
    NoKey(label', folded);
  }

  lemma FiveToTenMb(label': string, folded: string)
    requires label' == "5-10MB" && folded == "5-10mb"
    ensures ResolveSize("", label') == Some("m5_10")
  {
    Missing(folded, "<1", 0, 1);
    Missing(folded, "1-5", 1, 2);
    Found(folded, "5-10", 0);
    NoKey(label', folded);
  }

  lemma TenToTwentyMb(label': string, folded: string)
    requires label' == "10-20MB" && folded == "10-20mb"
    ensures ResolveSize("", label') == Some("m10_20")
  {
    Missing(folded, "<1", 0, 1);
    Missing(folded, "1-5", 1, 2);
    Missing(folded, "5-10", 0, 1);
    Found(folded, "10-20", 0);
    NoKey(label', folded);
  }

  lemma TwentyToHundredMb(label': string, folded: string)
    requires label' == "20-100MB" && folded == "20-100mb"
    ensures ResolveSize("", label') == Some("m20_100")
  {
    Missing(folded, "<1", 0, 1);
    Missing(folded, "1-5", 1, 2);
    Missing(folded, "5-10", 0, 1);
    Missing(folded, "10-20", 2, 3);
    Found(folded, "20-100", 0);
    NoKey(label', folded);
  }

  lemma NotBelowTen(folded: string)
    requires folded == "100-500mb"
    ensures !Contains(folded, "<1") && !Contains(folded, "1-5") && !Contains(folded, "5-10")
  {
    Missing(folded, "<1", 0, 1);
    Missing(folded, "1-5", 0, 1);
    Missing(folded, "5-10", 0, 1);
  }

  lemma HundredToFiveHundredMb(label': string, folded: string)
    requires label' == "100-500MB" && folded == "100-500mb"
    ensures ResolveSize("", label') == Some("m100_500")
  {
    NotBelowTen(folded);
    Missing(folded, "10-20", 2, 3);
    Missing(folded, "20-100", 0, 1);
    Found(folded, "100-500", 0);
    NoKey(label', folded);
  }

  lemma NoneOfTheLower(folded: string)
    requires folded == "500mb-1gb"
    ensures !Contains(folded, "<1") && !Contains(folded, "1-5") && !Contains(folded, "5-10")
    ensures !Contains(folded, "10-20") && !Contains(folded, "20-100")
  {
    Missing(folded, "<1", 0, 1);
    Missing(folded, "1-5", 0, 1);
    Missing(folded, "5-10", 0, 1);
    Missing(folded, "10-20", 2, 3);
    Missing(folded, "20-100", 0, 1);
  }

  lemma UpToOneGb(label': string, folded: string)
    requires label' == "500MB-1GB" && folded == "500mb-1gb"
    ensures ResolveSize("", label') == Some("m500_1g")
  {
    NoneOfTheLower(folded);
    Missing(folded, "100-500", 0, 1);
    Found(folded, "500", 0);
    Found(folded, "1gb", 6);
    NoKey(label', folded);
  }

  lemma AboveOneGb(label': string, folded: string)
    requires label' == ">1GB" && folded == ">1gb"
    ensures ResolveSize("", label') == Some("gt1g")
  {
    Missing(folded, "<1", 0, 1);
    Missing(folded, "1-5", 0, 1);
    Missing(folded, "5-10", 0, 1);
    Missing(folded, "10-20", 2, 3);
    Missing(folded, "20-100", 0, 1);
    Missing(folded, "100-500", 0, 1);
    Missing(folded, "500", 0, 1);
    Found(folded, ">1gb", 0);
    NoKey(label', folded);
  }

  lemma BelowTenPages(label': string)
    requires label' == "<10"
    ensures PagesByLabel(label') == Some("lt10")
  {
    Found(label', "<10", 0);
  }

  lemma TenToFiftyPages(label': string)
    requires label' == "10-50"
    ensures PagesByLabel(label') == Some("m10_50")
  {
    Missing(label', "<10", 0, 1);
    Found(label', "10-50", 0);
  }

  lemma FiftyToHundredPages(label': string)
    requires label' == "50-100"
    ensures PagesByLabel(label') == Some("m50_100")
  {
    Missing(label', "<10", 0, 1);
    Missing(label', "10-50", 2, 3);
    Found(label', "50-100", 0);
  }

  lemma HundredToFiveHundredPages(label': string)
    requires label' == "100-500"
    ensures PagesByLabel(label') == Some("m100_500")
  {
    Missing(label', "<10", 0, 1);
    Missing(label', "10-50", 0, 2);
    Missing(label', "50-100", 2, 3);
    Found(label', "100-500", 0);
  }

  lemma UpToThousandPages(label': string)
    requires label' == "500-1000"
    ensures PagesByLabel(label') == Some("m500_1000")
  {
    Missing(label', "<10", 0, 1);
    Missing(label', "10-50", 2, 3);
    Missing(label', "50-100", 0, 2);
    Missing(label', "100-500", 3, 4);
    Found(label', "500-1000", 0);
  }

  lemma ThousandPages(label': string)
    requires label' == ">=1000"
    ensures PagesByLabel(label') == Some("gte1000")
  {
    Missing(label', "<10", 0, 1);
    Missing(label', "10-50", 2, 3);
    Missing(label', "50-100", 2, 3);
    Missing(label', "100-500", 3, 4);
    Missing(label', "500-1000", 3, 4);
    Found(label', ">=1000", 0);
  }

  /** A bin without a key goes to the bucket whose label it bears. */
  lemma SizeLabelsResolve(i: nat)
    requires i < |SIZE_LABELS|
    ensures ResolveSize("", SIZE_LABELS[i]) == Some(KeyList(SIZES)[i])
  {
    SizeKeys();
    match i
    case 0 => BelowOneMb(SIZE_LABELS[i], "<1mb");
    case 1 => OneToFiveMb(SIZE_LABELS[i], "1-5mb");
    case 2 => FiveToTenMb(SIZE_LABELS[i], "5-10mb");
    case 3 => TenToTwentyMb(SIZE_LABELS[i], "10-20mb");
    case 4 => TwentyToHundredMb(SIZE_LABELS[i], "20-100mb");
    case 5 => HundredToFiveHundredMb(SIZE_LABELS[i], "100-500mb");
    case 6 => UpToOneGb(SIZE_LABELS[i], "500mb-1gb");
    case _ => AboveOneGb(SIZE_LABELS[i], ">1gb");
  }

  lemma PageLabelIsFolded(i: nat)
    requires i < |PAGE_LABELS|
    ensures |PAGE_LABELS[i]| > 0 && Trimmed(PAGE_LABELS[i])
    ensures forall j :: 0 <= j < |PAGE_LABELS[i]| ==> LowerChar(PAGE_LABELS[i][j]) == PAGE_LABELS[i][j]
  {
  }

  lemma PageLabelsResolve(i: nat)
    requires i < |PAGE_LABELS|
    ensures ResolvePages("", PAGE_LABELS[i]) == Some(KeyList(PAGES)[i])
  {
    PageKeys();
    PageLabelIsFolded(i);
    NoKey(PAGE_LABELS[i], PAGE_LABELS[i]);
    match i
    case 0 => BelowTenPages(PAGE_LABELS[i]);
    case 1 => TenToFiftyPages(PAGE_LABELS[i]);
    case 2 => FiftyToHundredPages(PAGE_LABELS[i]);
    case 3 => HundredToFiveHundredPages(PAGE_LABELS[i]);
    case 4 => UpToThousandPages(PAGE_LABELS[i]);
    case _ => ThousandPages(PAGE_LABELS[i]);
  }

  // ---------------------------------------------------------------- cells of stored rows

  /** A cell of the row made from a stored row. */
  function Kept(form: Form, row: Value, fallback: string, bucket: string, column: string, lib: Library): Value
  {
    Get(Get(RowFrom(form, row, fallback, lib), bucket), column)
  }

  lemma KeptIsRead(form: Form, row: Value, fallback: string, bucket: string, column: string, lib: Library)
    requires bucket in form.buckets && bucket != "period" && column in form.columns
    ensures Kept(form, row, fallback, bucket, column, lib) == Get(CellFrom(form, Get(row, bucket), lib), column)
    ensures Get(row, bucket).Obj? ==>
              Kept(form, row, fallback, bucket, column, lib) == Num(CellValue(form, Get(row, bucket), column, lib))
  {
  }

  /** A number that stands in a stored row under its column stays; a bucket the row does not have
      is counted as zero. */
  lemma GivenCellStays(section: Section, row: Value, fallback: string, bucket: string, column: string, n: int,
                       lib: Library)
    requires bucket in FormOf(section).buckets && bucket != "period" && column in FormOf(section).columns
    ensures Get(Get(row, bucket), column) == Num(n) ==>
              Kept(FormOf(section), row, fallback, bucket, column, lib) == Num(n)
    ensures Get(row, bucket) == Null ==> Kept(FormOf(section), row, fallback, bucket, column, lib) == Num(0)
  {
    KeptIsRead(FormOf(section), row, fallback, bucket, column, lib);
  }

  lemma TotalOf(form: Form, v: Value, sast: int, sca: int, lib: Library)
    requires form.section.FileSize? && Get(v, "total") == Null
    requires Get(v, "sast") == Num(sast) && Get(v, "sca") == Num(sca)
    ensures v.Obj? && CellValue(form, v, "total", lib) == sast + sca
  {
  }

  /** A size cell without a total is given the sum of its two parts. */
  lemma TotalIsMadeUp(form: Form, row: Value, fallback: string, bucket: string, sast: int, sca: int, lib: Library)
    requires form.section.FileSize? && "total" in form.columns && bucket in form.buckets && bucket != "period"
    requires Get(Get(row, bucket), "sast") == Num(sast) && Get(Get(row, bucket), "sca") == Num(sca)
    requires Get(Get(row, bucket), "total") == Null
    ensures Kept(form, row, fallback, bucket, "total", lib) == Num(sast + sca)
  {
    KeptIsRead(form, row, fallback, bucket, "total", lib);
    TotalOf(form, Get(row, bucket), sast, sca, lib);
  }

  lemma PageColumns()
    ensures "scan_count" in FormOf(PageCoverage).columns && "page_count" in FormOf(PageCoverage).columns
    ensures "scan_count" != "page_count"
  {
    assert "scan_count"[0] != "page_count"[0];
  }

  /** The counts of a page cell are also found under their former names, and a bare number is a
      number of scans. */
  lemma FormerCounts(row: Value, fallback: string, bucket: string, n: int, lib: Library)
    requires bucket in FormOf(PageCoverage).buckets && bucket != "period"
    ensures var v := Get(row, bucket);
            && (v.Obj? && "scan_count" !in v.fields && Get(v, "count") == Num(n) ==>
                Kept(FormOf(PageCoverage), row, fallback, bucket, "scan_count", lib) == Num(n))
            && (v.Obj? && "page_count" !in v.fields && Get(v, "pages") == Num(n) ==>
                Kept(FormOf(PageCoverage), row, fallback, bucket, "page_count", lib) == Num(n))
            && (v == Num(n) ==> Kept(FormOf(PageCoverage), row, fallback, bucket, "scan_count", lib) == Num(n)
                                && Kept(FormOf(PageCoverage), row, fallback, bucket, "page_count", lib) == Num(0))
  {
    PageColumns();
    KeptIsRead(FormOf(PageCoverage), row, fallback, bucket, "scan_count", lib);
    KeptIsRead(FormOf(PageCoverage), row, fallback, bucket, "page_count", lib);
  }
}
