/** The page coverage profile as the normaliser leaves it. */
module PageProfiles {
  import opened Wrappers
  import opened Text
  import opened Counting
  import opened Json
  import opened Sections
  import opened Normalizer
  import opened Profiles

  const PAGE_FORM := FormOf(PageCoverage)
  const PAGE_LABELS := ["<10", "10-50", "50-100", "100-500", "500-1000", ">=1000"]
  const PAGE_COLORS := ["#b91c1c", "#dc2626", "#ea580c", "#d97706", "#65a30d", "#0f766e"]

  function PageStyle(): Style
  {
    Style(PAGE_FORM, "lt10", Legend(PAGES, PAGE_LABELS, PAGE_COLORS))
  }

  lemma PageLabels()
    ensures forall i :: 0 <= i < |PAGE_LABELS| ==> PAGE_LABELS[i] != ""
  {
  }

  lemma PageLegend()
    ensures NormalOptions(Legend(PAGES, PAGE_LABELS, PAGE_COLORS), PAGE_FORM)
  {
    PageNames();
    PageLabels();
    LegendIsNormal(PAGES, PAGE_LABELS, PAGE_COLORS, PAGE_FORM);
  }

  lemma PageStyleFits()
    ensures Fitting(PageStyle())
  {
    PageNames();
    EdgeIsKey(PAGES, 0);
    PageLegend();
  }

  function PageAlias(key: string): Option<string>
  {
    if key in KeyList(PAGES) then Some(key)
    else if key == "m100_200" || key == "m200_500" then Some("m100_500")
    else None
  }

  function PagesByLabel(label': string): Option<string>
  {
    if Contains(label', "<10") then Some("lt10")
    else if Contains(label', "10-50") then Some("m10_50")
    else if Contains(label', "50-100") then Some("m50_100")
    else if Contains(label', "100-500") then Some("m100_500")
    else if Contains(label', "500-1000") then Some("m500_1000")
    else if Contains(label', ">=1000") || Contains(label', ">1000") then Some("gte1000")
    else None
  }

  function ResolvePages(key: string, bucket: string): Option<string>
  {
    if PageAlias(Fold(key)).Some? then PageAlias(Fold(key)) else PagesByLabel(Fold(bucket))
  }

  function PageKey(lib: Library): Value -> Option<string>
  {
    (bin: Value) => if bin.Obj? then ResolvePages(TextIn(bin, "key", lib), TextIn(bin, "bucket", lib)) else None
  }

  /** A count of a bin, under its present or its former name. */
  function CountIn(bin: Value, name: string, former: string, lib: Library): int
  {
    ToInt(GetOr(bin, name, Get(bin, former)), 0, lib)
  }

  function PageWeight(lib: Library): (string, Value) -> int
  {
    (c: string, bin: Value) =>
      if c == "scan_count" then CountIn(bin, "scan_count", "count", lib) else CountIn(bin, "page_count", "pages", lib)
  }

  // ---------------------------------------------------------------- bins

  const BARE_BIN := {"bucket", "key", "count"}
  const PAGE_BIN := {"bucket", "key", "count", "scan_count", "page_count"}

  /** The buckets of the profile in order: their keys and labels. */
  datatype Bucket = Bucket(key: string, title: string)

  function Buckets(): (r: seq<Bucket>)
    ensures |r| == 6
  {
    seq(6, i requires 0 <= i < 6 => Bucket(KeyList(PAGES)[i], PAGE_LABELS[i]))
  }

  function PageBin(bucket: Bucket, scans: int, pages: int): Value
  {
    Obj(map k | k in PAGE_BIN ::
      if k == "bucket" then Str(bucket.title) else if k == "key" then Str(bucket.key)
      else if k == "page_count" then Num(pages) else Num(scans))
  }

  function Scans(items: seq<Value>, lib: Library): string -> int
  {
    Share(items, PageKey(lib), At(PageWeight(lib), "scan_count"))
  }

  function Pages(items: seq<Value>, lib: Library): string -> int
  {
    Share(items, PageKey(lib), At(PageWeight(lib), "page_count"))
  }

  /** One bin a bucket, holding the sums of the stored bins resolved to it. */
  function PageBins(buckets: seq<Bucket>, items: seq<Value>, lib: Library): (r: seq<Value>)
    ensures |r| == |buckets|
    ensures forall i :: 0 <= i < |r| ==>
              r[i] == PageBin(buckets[i], Scans(items, lib)(buckets[i].key), Pages(items, lib)(buckets[i].key))
  {
    seq(|buckets|, i requires 0 <= i < |buckets| =>
        PageBin(buckets[i], Scans(items, lib)(buckets[i].key), Pages(items, lib)(buckets[i].key)))
  }

  function BareBin(bucket: Bucket): Value
  {
    Obj(map k | k in BARE_BIN ::
        if k == "bucket" then Str(bucket.title) else if k == "key" then Str(bucket.key) else Num(0))
  }

  /** The bins made up when none are stored: they have no scan and page counts. */
  function DefaultPageBins(buckets: seq<Bucket>): (r: seq<Value>)
    ensures |r| == |buckets| && forall i :: 0 <= i < |r| ==> r[i] == BareBin(buckets[i])
  {
    seq(|buckets|, i requires 0 <= i < |buckets| => BareBin(buckets[i]))
  }

  function PageMonth(items: seq<Value>, form: Form, now: Now, lib: Library): Value
  {
    RowOf(form, now.month, Merged(form, items, PageKey(lib), PageWeight(lib)))
  }

  function StoredBins(raw: Value): seq<Value>
  {
    if Get(raw, "bins").Arr? then Get(raw, "bins").items else []
  }

  /** The profiles that hold a list of bins. */
  predicate HasBins(raw: Value)
  {
    raw.Obj? && Get(raw, "bins").Arr?
  }

  function BinsWith(raw: Value, buckets: seq<Bucket>, lib: Library): seq<Value>
  {
    if HasBins(raw) then PageBins(buckets, StoredBins(raw), lib) else DefaultPageBins(buckets)
  }

  function PagesWith(raw: Value, style: Style, buckets: seq<Bucket>, now: Now, lib: Library): Value
  {
    ProfileOf(raw, style, Arr(BinsWith(raw, buckets, lib)), PageMonth(StoredBins(raw), style.form, now, lib), now, lib)
  }

  function PagesFrom(raw: Value, now: Now, lib: Library): Value
  {
    PagesWith(raw, PageStyle(), Buckets(), now, lib)
  }

  // ---------------------------------------------------------------- what a pass leaves

  predicate NormalPageBin(bin: Value, bucket: Bucket)
  {
    && bin.Obj? && "scan_count" in bin.fields && bin.fields["scan_count"].Num?
    && "page_count" in bin.fields && bin.fields["page_count"].Num?
    && bin == PageBin(bucket, bin.fields["scan_count"].n, bin.fields["page_count"].n)
  }

  predicate NormalPageBins(items: seq<Value>, buckets: seq<Bucket>)
  {
    |items| == |buckets| && forall i :: 0 <= i < |items| ==> NormalPageBin(items[i], buckets[i])
  }

  /** Each bucket has its own key, which resolves to itself. */
  predicate OwnKeys(buckets: seq<Bucket>)
  {
    && (forall i :: 0 <= i < |buckets| ==> OwnKey(buckets[i].key))
    && (forall i, j :: 0 <= i < j < |buckets| ==> buckets[i].key != buckets[j].key)
  }

  predicate OwnKey(key: string)
  {
    key != "" && Fold(key) == key && PageAlias(key) == Some(key)
  }

  lemma PageKeysAreLower(i: nat)
    requires i < 6
    ensures Lower(KeyList(PAGES)[i]) == KeyList(PAGES)[i]
  {
  }

  lemma BucketsOwnKeys()
    ensures OwnKeys(Buckets())
  {
    PageNames();
    KeysAreDistinct(PAGES);
    forall i | 0 <= i < 6 ensures OwnKey(Buckets()[i].key) {
      var key := KeyList(PAGES)[i];
      assert key in KeyList(PAGES) && BucketName(key);
      TrimIsTrimmed(key);
      PageKeysAreLower(i);
    }
  }

  lemma PageBinIsNormal(bucket: Bucket, scans: int, pages: int)
    ensures NormalPageBin(PageBin(bucket, scans, pages), bucket)
    ensures var fields := PageBin(bucket, scans, pages).fields;
            && fields.Keys == PAGE_BIN && fields["key"] == Str(bucket.key)
            && fields["scan_count"] == Num(scans) && fields["page_count"] == Num(pages)
  {
  }

  lemma PageBinsAreNormal(buckets: seq<Bucket>, items: seq<Value>, lib: Library)
    ensures NormalPageBins(PageBins(buckets, items, lib), buckets)
  {
    forall i | 0 <= i < |buckets| ensures NormalPageBin(PageBins(buckets, items, lib)[i], buckets[i]) {
      PageBinIsNormal(buckets[i], Scans(items, lib)(buckets[i].key), Pages(items, lib)(buckets[i].key));
    }
  }

  lemma OwnKeyResolves(key: string, bucket: string)
    requires OwnKey(key)
    ensures ResolvePages(key, bucket) == Some(key)
  {
  }

  lemma KeyIn(bin: Value, key: string, lib: Library)
    requires bin.Obj? && "key" in bin.fields && bin.fields["key"] == Str(key) && OwnKey(key)
    ensures PageKey(lib)(bin) == Some(key)
  {
    OwnKeyResolves(key, TextIn(bin, "bucket", lib));
  }

  lemma CountGiven(bin: Value, name: string, former: string, n: int, lib: Library)
    requires Get(bin, name) == Num(n)
    ensures CountIn(bin, name, former, lib) == n
  {
  }

  lemma WeightsAre(bin: Value, lib: Library)
    ensures PageWeight(lib)("scan_count", bin) == CountIn(bin, "scan_count", "count", lib)
    ensures PageWeight(lib)("page_count", bin) == CountIn(bin, "page_count", "pages", lib)
  {
    assert "scan_count"[0] != "page_count"[0];
  }

  lemma PageBinResolves(bin: Value, bucket: Bucket, lib: Library)
    requires NormalPageBin(bin, bucket) && OwnKey(bucket.key)
    ensures PageKey(lib)(bin) == Some(bucket.key)
    ensures PageWeight(lib)("scan_count", bin) == bin.fields["scan_count"].n
    ensures PageWeight(lib)("page_count", bin) == bin.fields["page_count"].n
  {
    var scans, pages := bin.fields["scan_count"].n, bin.fields["page_count"].n;
    PageBinIsNormal(bucket, scans, pages);
    KeyIn(bin, bucket.key, lib);
    CountGiven(bin, "scan_count", "count", scans, lib);
    CountGiven(bin, "page_count", "pages", pages, lib);
    WeightsAre(bin, lib);
  }

  lemma {:induction false} SumAtOne(s: seq<Value>, f: Value -> int, k: nat)
    requires k < |s| && forall i :: 0 <= i < |s| && i != k ==> f(s[i]) == 0
    ensures Sum(s, f) == f(s[k])
    decreases |s|
  {
    if k == |s| - 1 {
      SumZero(s[..k], f);
    } else {
      SumAtOne(s[..|s| - 1], f, k);
    }
  }

  lemma OwnShare(items: seq<Value>, buckets: seq<Bucket>, k: nat, column: string, lib: Library)
    requires NormalPageBins(items, buckets) && OwnKeys(buckets) && k < |items|
    ensures Share(items, PageKey(lib), At(PageWeight(lib), column))(buckets[k].key) == PageWeight(lib)(column, items[k])
  {
    forall i | 0 <= i < |items| ensures PageKey(lib)(items[i]) == Some(buckets[i].key) {
      PageBinResolves(items[i], buckets[i], lib);
    }
    SumAtOne(items, Member(PageKey(lib), At(PageWeight(lib), column), buckets[k].key), k);
  }

  lemma NormalPageBinsAreFixed(items: seq<Value>, buckets: seq<Bucket>, lib: Library)
    requires NormalPageBins(items, buckets) && OwnKeys(buckets)
    ensures PageBins(buckets, items, lib) == items
  {
    var r := PageBins(buckets, items, lib);
    forall k | 0 <= k < |items| ensures r[k] == items[k] {
      OwnShare(items, buckets, k, "scan_count", lib);
      OwnShare(items, buckets, k, "page_count", lib);
      PageBinResolves(items[k], buckets[k], lib);
    }
    assert r == items;
  }

  lemma PagesWithIsNormal(raw: Value, style: Style, buckets: seq<Bucket>, now: Now, lib: Library)
    requires Proper(now) && Prints(lib) && Fitting(style)
    ensures NormalProfile(PagesWith(raw, style, buckets, now, lib), style)
    ensures Get(PagesWith(raw, style, buckets, now, lib), "bins") == Arr(BinsWith(raw, buckets, lib))
  {
    MergedRowIsNormal(style.form, now.month, StoredBins(raw), PageKey(lib), PageWeight(lib));
    ProfileOfIsNormal(raw, style, Arr(BinsWith(raw, buckets, lib)), PageMonth(StoredBins(raw), style.form, now, lib),
                      now, lib);
  }

  /** A later pass changes nothing exactly when it leaves the bins alone. */
  lemma LaterPagesPass(v: Value, style: Style, buckets: seq<Bucket>, now: Now, lib: Library)
    requires NormalProfile(v, style) && Fitting(style) && HasBins(v)
    ensures PagesWith(v, style, buckets, now, lib) == v <==> PageBins(buckets, StoredBins(v), lib) == StoredBins(v)
  {
    LaterPass(v, style, Arr(BinsWith(v, buckets, lib)), PageMonth(StoredBins(v), style.form, now, lib), now, lib);
  }

  lemma BareBinDiffers(bucket: Bucket, scans: int, pages: int)
    ensures PageBin(bucket, scans, pages) != BareBin(bucket)
  {
    PageBinIsNormal(bucket, scans, pages);
    assert "scan_count" in PAGE_BIN && "scan_count" !in BARE_BIN;
    assert BareBin(bucket).fields.Keys == BARE_BIN;
  }

  lemma BareBinsAreRewritten(buckets: seq<Bucket>, items: seq<Value>, lib: Library)
    requires buckets != []
    ensures PageBins(buckets, items, lib) != DefaultPageBins(buckets)
  {
    BareBinDiffers(buckets[0], Scans(items, lib)(buckets[0].key), Pages(items, lib)(buckets[0].key));
    assert PageBins(buckets, items, lib)[0] != DefaultPageBins(buckets)[0];
  }

  /** Normalising the page coverage a second time changes nothing exactly when the stored
      profile held a list of bins: the bins made up for the others lack the scan and page
      counts that the second pass adds. A third pass never changes anything. */
  lemma PagesIdempotentExactly(raw: Value, now: Now, later: Now, last: Now, lib: Library)
    requires Proper(now) && Proper(later) && Prints(lib)
    ensures PagesFrom(PagesFrom(raw, now, lib), later, lib) == PagesFrom(raw, now, lib) <==> HasBins(raw)
    ensures var twice := PagesFrom(PagesFrom(raw, now, lib), later, lib); PagesFrom(twice, last, lib) == twice
  {
    PageStyleFits();
    BucketsOwnKeys();
    IdempotentExactly(raw, PageStyle(), Buckets(), now, later, last, lib);
  }

  lemma SecondIsLast(raw: Value, style: Style, buckets: seq<Bucket>, now: Now, later: Now, lib: Library)
    requires Proper(now) && Prints(lib) && Fitting(style) && OwnKeys(buckets) && HasBins(raw)
    ensures PagesWith(PagesWith(raw, style, buckets, now, lib), style, buckets, later, lib)
              == PagesWith(raw, style, buckets, now, lib)
  {
    var once := PagesWith(raw, style, buckets, now, lib);
    PagesWithIsNormal(raw, style, buckets, now, lib);
    LaterPagesPass(once, style, buckets, later, lib);
    PageBinsAreNormal(buckets, StoredBins(raw), lib);
    NormalPageBinsAreFixed(StoredBins(once), buckets, lib);
  }

  lemma IdempotentExactly(raw: Value, style: Style, buckets: seq<Bucket>, now: Now, later: Now, last: Now, lib: Library)
    requires Proper(now) && Proper(later) && Prints(lib) && Fitting(style) && OwnKeys(buckets) && buckets != []
    ensures var once := PagesWith(raw, style, buckets, now, lib);
            PagesWith(once, style, buckets, later, lib) == once <==> HasBins(raw)
    ensures var twice := PagesWith(PagesWith(raw, style, buckets, now, lib), style, buckets, later, lib);
            PagesWith(twice, style, buckets, last, lib) == twice
  {
    var once := PagesWith(raw, style, buckets, now, lib);
    PagesWithIsNormal(raw, style, buckets, now, lib);
    SecondIsLast(once, style, buckets, later, last, lib);
    if HasBins(raw) {
      SecondIsLast(raw, style, buckets, now, later, lib);
    } else {
      LaterPagesPass(once, style, buckets, later, lib);
      BareBinsAreRewritten(buckets, StoredBins(once), lib);
    }
  }

  // ---------------------------------------------------------------- conservation

  lemma PageKeyIsBucket(bin: Value, lib: Library)
    ensures PageKey(lib)(bin).Some? ==> PageKey(lib)(bin).value in KeyList(PAGES)
  {
    var names := KeyList(PAGES);
    assert names[0] == "lt10" && names[1] == "m10_50" && names[2] == "m50_100" && names[3] == "m100_500";
    assert names[4] == "m500_1000" && names[5] == "gte1000";
  }

  lemma PageKeysAreBuckets(items: seq<Value>, lib: Library)
    ensures forall bin :: bin in items && PageKey(lib)(bin).Some? ==> PageKey(lib)(bin).value in PAGE_FORM.buckets
  {
    KeysAreDistinct(PAGES);
    forall bin | bin in items && PageKey(lib)(bin).Some? ensures PageKey(lib)(bin).value in PAGE_FORM.buckets {
      PageKeyIsBucket(bin, lib);
    }
  }

  predicate KeysIn(buckets: seq<Bucket>, form: Form)
  {
    (forall i :: 0 <= i < |buckets| ==> buckets[i].key in form.buckets) && "scan_count" in form.columns
        && "page_count" in form.columns
  }

  lemma BucketKeys()
    ensures KeysIn(Buckets(), PAGE_FORM)
  {
    KeysAreDistinct(PAGES);
    forall i | 0 <= i < 6 ensures Buckets()[i].key in PAGE_FORM.buckets {
      assert KeyList(PAGES)[i] in KeyList(PAGES);
    }
  }

  function Cell(cells: map<string, map<string, int>>, b: string, c: string): int
  {
    if b in cells && c in cells[b] then cells[b][c] else 0
  }

  lemma TallyCell(form: Form, items: seq<Value>, b: string, c: string, lib: Library)
    requires b in form.buckets && c in form.columns
    ensures Cell(Tally(form, items, PageKey(lib), PageWeight(lib)), b, c)
              == Share(items, PageKey(lib), At(PageWeight(lib), c))(b)
  {
    TallyAt(form, items, PageKey(lib), PageWeight(lib), b, c);
  }

  /** The bins written from the merged counts. */
  method WriteBins(cells: map<string, map<string, int>>, buckets: seq<Bucket>) returns (bins: seq<Value>)
    ensures |bins| == |buckets|
    ensures forall i :: 0 <= i < |bins| ==>
              bins[i] == PageBin(buckets[i], Cell(cells, buckets[i].key, "scan_count"),
                                 Cell(cells, buckets[i].key, "page_count"))
  {
    bins := [];
    for i := 0 to |buckets|
      invariant |bins| == i
      invariant forall j :: 0 <= j < i ==>
                  bins[j] == PageBin(buckets[j], Cell(cells, buckets[j].key, "scan_count"),
                                     Cell(cells, buckets[j].key, "page_count"))
    {
      bins := bins + [PageBin(buckets[i], Cell(cells, buckets[i].key, "scan_count"),
                              Cell(cells, buckets[i].key, "page_count"))];
    }
  }

  lemma WrittenBins(bins: seq<Value>, cells: map<string, map<string, int>>, form: Form, items: seq<Value>,
                    buckets: seq<Bucket>, lib: Library)
    requires KeysIn(buckets, form) && cells == Tally(form, items, PageKey(lib), PageWeight(lib)) && |bins| == |buckets|
    requires forall i :: 0 <= i < |bins| ==>
               bins[i] == PageBin(buckets[i], Cell(cells, buckets[i].key, "scan_count"),
                                  Cell(cells, buckets[i].key, "page_count"))
    ensures bins == PageBins(buckets, items, lib)
  {
    forall i | 0 <= i < |bins| ensures bins[i] == PageBins(buckets, items, lib)[i] {
      TallyCell(form, items, buckets[i].key, "scan_count", lib);
      TallyCell(form, items, buckets[i].key, "page_count", lib);
    }
  }

  /** The loop over stored bins makes the bins and the month of the specification. */
  method MergePages(items: seq<Value>, form: Form, buckets: seq<Bucket>, now: Now, lib: Library)
    returns (bins: seq<Value>, month: Value)
    requires form == PAGE_FORM && buckets == Buckets()
    ensures bins == PageBins(buckets, items, lib) && month == PageMonth(items, form, now, lib)
  {
    PageKeysAreBuckets(items, lib);
    var cells := MergeBins(form, items, PageKey(lib), PageWeight(lib));
    bins := WriteBins(cells, buckets);
    BucketKeys();
    WrittenBins(bins, cells, form, items, buckets, lib);
    month := RowOf(form, now.month, CellsJson(cells));
    TallyRow(form, now.month, items, PageKey(lib), PageWeight(lib));
  }

  /** The bins a pass writes add up, scans and pages alike, to the stored bins that resolve
      to a bucket: merging aliases loses none of them. */
  lemma PageMergingConserves(items: seq<Value>, column: string, lib: Library)
    ensures Sum(KeyList(PAGES), Share(items, PageKey(lib), At(PageWeight(lib), column)))
              == Sum(items, Grouped(PageKey(lib), At(PageWeight(lib), column)))
  {
    KeysAreDistinct(PAGES);
    forall bin | bin in items && PageKey(lib)(bin).Some? ensures PageKey(lib)(bin).value in KeyList(PAGES) {
      PageKeyIsBucket(bin, lib);
    }
    MergingConserves(KeyList(PAGES), items, PageKey(lib), At(PageWeight(lib), column));
  }
}
