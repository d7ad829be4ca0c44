/** The application size profile as the normaliser leaves it. */
module SizeProfiles {
  import opened Wrappers
  import opened Text
  import opened Counting
  import opened Json
  import opened Sections
  import opened Normalizer
  import opened Profiles

  const SIZE_FORM := FormOf(FileSize)
  const SIZE_LABELS := ["<1MB", "1-5MB", "5-10MB", "10-20MB", "20-100MB", "100-500MB", "500MB-1GB", ">1GB"]
  const SIZE_COLORS := ["#b91c1c", "#dc2626", "#ea580c", "#d97706", "#ca8a04", "#65a30d", "#0f766e", "#1d4ed8"]

  function SizeStyle(): Style
  {
    Style(SIZE_FORM, "lt1", Legend(SIZES, SIZE_LABELS, SIZE_COLORS))
  }

  lemma SizeLabels()
    ensures forall i :: 0 <= i < |SIZE_LABELS| ==> SIZE_LABELS[i] != ""
  {
  }

  lemma SizeLegend()
    ensures NormalOptions(Legend(SIZES, SIZE_LABELS, SIZE_COLORS), SIZE_FORM)
  {
    SizeNames();
    SizeLabels();
    LegendIsNormal(SIZES, SIZE_LABELS, SIZE_COLORS, SIZE_FORM);
  }

  lemma SizeStyleFits()
    ensures Fitting(SizeStyle())
  {
    SizeNames();
    EdgeIsKey(SIZES, 0);
    SizeLegend();
  }

  /** Present and former bucket keys. */
  function SizeAlias(key: string): Option<string>
  {
    if key in KeyList(SIZES) then Some(key)
    else if key == "m10_50" || key == "m50_100" then Some("m20_100")
    else if key == "m100_300" || key == "m300_500" then Some("m100_500")
    else if key == "m500_1000" then Some("m500_1g")
    else if key == "gte1000" then Some("gt1g")
    else None
  }

  /** The bucket a label speaks of. */
  function SizeByLabel(label': string): Option<string>
  {
    if Contains(label', "<1") then Some("lt1")
    else if Contains(label', "1-5") then Some("m1_5")
    else if Contains(label', "5-10") then Some("m5_10")
    else if Contains(label', "10-20") then Some("m10_20")
    else if Contains(label', "20-100") then Some("m20_100")
    else if Contains(label', "100-500") then Some("m100_500")
    else if Contains(label', "500") && (Contains(label', "1gb") || Contains(label', "1000")) then Some("m500_1g")
    else if Contains(label', ">1gb") || Contains(label', ">=1000") then Some("gt1g")
    else None
  }

  function ResolveSize(key: string, bucket: string): Option<string>
  {
    if SizeAlias(Fold(key)).Some? then SizeAlias(Fold(key)) else SizeByLabel(Fold(bucket))
  }

  function SizeKey(lib: Library): Value -> Option<string>
  {
    (bin: Value) => if bin.Obj? then ResolveSize(TextIn(bin, "key", lib), TextIn(bin, "bucket", lib)) else None
  }

  function SizeWeight(lib: Library): (string, Value) -> int
  {
    (c: string, bin: Value) =>
      if c == "total" then ToInt(Get(bin, "sast"), 0, lib) + ToInt(Get(bin, "sca"), 0, lib)
          else ToInt(Get(bin, c), 0, lib)
  }

  const SIZE_BIN := {"bucket", "key", "sast", "sca"}

  function SizeBin(bucket: string, key: string, sast: int, sca: int): Value
  {
    Obj(map k | k in SIZE_BIN ::
        if k == "bucket" then Str(bucket) else if k == "key" then Str(key) else if k == "sast" then Num(sast)
            else Num(sca))
  }

  function SizeBinFrom(bin: Value, lib: Library): Value
  {
    SizeBin(TextOf(Or(Or(Get(bin, "bucket"), Get(bin, "key")), Str("Unknown")), lib), TextIn(bin, "key", lib),
            ToInt(Get(bin, "sast"), 0, lib), ToInt(Get(bin, "sca"), 0, lib))
  }

  function SizeBinsFrom(items: seq<Value>, lib: Library): seq<Value>
    decreases |items|
  {
    if items == [] then []
    else SizeBinsFrom(items[..|items| - 1], lib) + if items[|items| - 1].Obj?
        then [SizeBinFrom(items[|items| - 1], lib)] else []
  }

  function DefaultSizeBins(): (r: seq<Value>)
    ensures |r| == 8
  {
    seq(8, i requires 0 <= i < 8 => SizeBin(SIZE_LABELS[i], KeyList(SIZES)[i], 0, 0))
  }

  function SizeBins(raw: Value, defaults: seq<Value>, lib: Library): seq<Value>
  {
    if raw.Arr? && SizeBinsFrom(raw.items, lib) != [] then SizeBinsFrom(raw.items, lib) else defaults
  }

  /** A month made up from bins. */
  function SizeMonth(bins: seq<Value>, form: Form, now: Now, lib: Library): Value
  {
    RowOf(form, now.month, Merged(form, bins, SizeKey(lib), SizeWeight(lib)))
  }

  function SizesWith(raw: Value, style: Style, defaults: seq<Value>, now: Now, lib: Library): Value
  {
    var bins := SizeBins(Get(raw, "bins"), defaults, lib);
    ProfileOf(raw, style, Arr(bins), SizeMonth(bins, style.form, now, lib), now, lib)
  }

  function SizesFrom(raw: Value, now: Now, lib: Library): Value
  {
    SizesWith(raw, SizeStyle(), DefaultSizeBins(), now, lib)
  }

  predicate NormalSizeBin(bin: Value)
  {
    && bin.Obj? && bin.fields.Keys == SIZE_BIN && bin.fields["bucket"].Str? && bin.fields["bucket"].s != ""
    && bin.fields["key"].Str? && bin.fields["sast"].Num? && bin.fields["sca"].Num?
  }

  predicate NormalSizeBins(bins: Value)
  {
    bins.Arr? && bins.items != [] && forall bin :: bin in bins.items ==> NormalSizeBin(bin)
  }

  ghost predicate NormalSizes(v: Value, style: Style)
  {
    NormalProfile(v, style) && NormalSizeBins(v.fields["bins"])
  }

  lemma SizeBinIsNormal(bin: Value, lib: Library)
    requires Prints(lib)
    ensures NormalSizeBin(SizeBinFrom(bin, lib))
  {
  }

  lemma NormalSizeBinIsFixed(bin: Value, lib: Library)
    requires NormalSizeBin(bin)
    ensures SizeBinFrom(bin, lib) == bin
  {
    assert SizeBinFrom(bin, lib).fields == bin.fields;
  }

  lemma {:induction false} SizeBinsAreNormal(items: seq<Value>, lib: Library)
    requires Prints(lib)
    ensures forall bin :: bin in SizeBinsFrom(items, lib) ==> NormalSizeBin(bin)
    ensures (forall bin :: bin in items ==> NormalSizeBin(bin)) ==> SizeBinsFrom(items, lib) == items
    decreases |items|
  {
    if items != [] {
      var init, bin := items[..|items| - 1], items[|items| - 1];
      SizeBinsAreNormal(init, lib);
      SizeBinIsNormal(bin, lib);
      assert items == init + [bin];
      if NormalSizeBin(bin) { NormalSizeBinIsFixed(bin, lib); }
    }
  }

  lemma DefaultSizeBinsAreNormal()
    ensures NormalSizeBins(Arr(DefaultSizeBins()))
  {
    forall i | 0 <= i < 8 ensures NormalSizeBin(DefaultSizeBins()[i]) {
      assert SIZE_LABELS[i] != "";
    }
  }

  lemma BinsUsedAreNormal(raw: Value, defaults: seq<Value>, lib: Library)
    requires Prints(lib) && NormalSizeBins(Arr(defaults))
    ensures NormalSizeBins(Arr(SizeBins(raw, defaults, lib)))
  {
    if raw.Arr? {
      SizeBinsAreNormal(raw.items, lib);
    }
  }

  lemma SizesWithIsNormal(raw: Value, style: Style, defaults: seq<Value>, now: Now, lib: Library)
    requires Proper(now) && Prints(lib) && Fitting(style) && NormalSizeBins(Arr(defaults))
    ensures NormalSizes(SizesWith(raw, style, defaults, now, lib), style)
  {
    var bins := SizeBins(Get(raw, "bins"), defaults, lib);
    BinsUsedAreNormal(Get(raw, "bins"), defaults, lib);
    MergedRowIsNormal(style.form, now.month, bins, SizeKey(lib), SizeWeight(lib));
    ProfileOfIsNormal(raw, style, Arr(bins), SizeMonth(bins, style.form, now, lib), now, lib);
  }

  lemma NormalSizesAreFixed(v: Value, style: Style, defaults: seq<Value>, now: Now, lib: Library)
    requires NormalSizes(v, style) && Prints(lib) && Fitting(style)
    ensures SizesWith(v, style, defaults, now, lib) == v
  {
    var bins := v.fields["bins"].items;
    SizeBinsAreNormal(bins, lib);
    LaterPass(v, style, Arr(bins), SizeMonth(bins, style.form, now, lib), now, lib);
  }

  /** Normalising the size profile a second time changes nothing, at whatever time. */
  lemma SizesIdempotent(raw: Value, now: Now, later: Now, lib: Library)
    requires Proper(now) && Prints(lib)
    ensures SizesFrom(SizesFrom(raw, now, lib), later, lib) == SizesFrom(raw, now, lib)
  {
    SizeStyleFits();
    DefaultSizeBinsAreNormal();
    SizesWithIsNormal(raw, SizeStyle(), DefaultSizeBins(), now, lib);
    NormalSizesAreFixed(SizesFrom(raw, now, lib), SizeStyle(), DefaultSizeBins(), later, lib);
  }

  // ---------------------------------------------------------------- conservation

  /** A stored bin as the merging sees it. */
  function RawSizeKey(lib: Library): Value -> Option<string>
  {
    (bin: Value) => if bin.Obj? then SizeKey(lib)(SizeBinFrom(bin, lib)) else None
  }

  lemma SizeKeyIsBucket(bin: Value, lib: Library)
    ensures SizeKey(lib)(bin).Some? ==> SizeKey(lib)(bin).value in KeyList(SIZES)
  {
    var names := KeyList(SIZES);
    assert names[0] == "lt1" && names[1] == "m1_5" && names[2] == "m5_10" && names[3] == "m10_20";
    assert names[4] == "m20_100" && names[5] == "m100_500" && names[6] == "m500_1g" && names[7] == "gt1g";
  }

  lemma SizeKeysAreBuckets(bins: seq<Value>, lib: Library)
    ensures forall bin :: bin in bins && SizeKey(lib)(bin).Some? ==> SizeKey(lib)(bin).value in SIZE_FORM.buckets
  {
    KeysAreDistinct(SIZES);
    forall bin | bin in bins && SizeKey(lib)(bin).Some? ensures SizeKey(lib)(bin).value in SIZE_FORM.buckets {
      SizeKeyIsBucket(bin, lib);
    }
  }

  /** The loop that seeds a month from the bins makes the month of the specification. */
  method SeedMonth(bins: seq<Value>, form: Form, now: Now, lib: Library) returns (month: Value)
    requires form == SIZE_FORM
    ensures month == SizeMonth(bins, form, now, lib)
  {
    SizeKeysAreBuckets(bins, lib);
    var cells := MergeBins(form, bins, SizeKey(lib), SizeWeight(lib));
    month := RowOf(form, now.month, CellsJson(cells));
    TallyRow(form, now.month, bins, SizeKey(lib), SizeWeight(lib));
  }

  function Total(lib: Library, key: Value -> Option<string>, column: string): Value -> int
  {
    Grouped(key, At(SizeWeight(lib), column))
  }

  lemma SizeBinWeighs(bin: Value, column: string, lib: Library)
    requires column in ["sast", "sca", "total"]
    ensures SizeWeight(lib)(column, SizeBinFrom(bin, lib)) == SizeWeight(lib)(column, bin)
  {
    var made := SizeBinFrom(bin, lib);
    assert Get(made, "sast") == Num(ToInt(Get(bin, "sast"), 0, lib));
    assert Get(made, "sca") == Num(ToInt(Get(bin, "sca"), 0, lib));
  }

  lemma {:induction false} BinsKeepTotals(items: seq<Value>, column: string, lib: Library)
    requires column in ["sast", "sca", "total"]
    ensures Sum(SizeBinsFrom(items, lib), Total(lib, SizeKey(lib), column))
              == Sum(items, Total(lib, RawSizeKey(lib), column))
    decreases |items|
  {
    if items != [] {
      var init, bin := items[..|items| - 1], items[|items| - 1];
      BinsKeepTotals(init, column, lib);
      if bin.Obj? {
        SizeBinWeighs(bin, column, lib);
        SumOne(SizeBinsFrom(init, lib), SizeBinFrom(bin, lib), Total(lib, SizeKey(lib), column));
      } else {
        assert SizeBinsFrom(items, lib) == SizeBinsFrom(init, lib);
      }
    }
  }

  /** The cells of the month seeded from stored bins add up, column by column, to the stored
      bins that resolve to a bucket: merging aliases loses none of them. */
  lemma SeedingConserves(items: seq<Value>, column: string, now: Now, lib: Library)
    requires column in ["sast", "sca", "total"] && SizeBinsFrom(items, lib) != []
    ensures var bins := SizeBins(Arr(items), DefaultSizeBins(), lib);
            Sum(KeyList(SIZES), Share(bins, SizeKey(lib), At(SizeWeight(lib), column)))
                == Sum(items, Total(lib, RawSizeKey(lib), column))
  {
    var bins := SizeBinsFrom(items, lib);
    KeysAreDistinct(SIZES);
    forall bin | bin in bins && SizeKey(lib)(bin).Some? ensures SizeKey(lib)(bin).value in KeyList(SIZES) {
      SizeKeyIsBucket(bin, lib);
    }
    MergingConserves(KeyList(SIZES), bins, SizeKey(lib), At(SizeWeight(lib), column));
    BinsKeepTotals(items, column, lib);
  }

  /** Those sums are the cells of the seeded row. */
  lemma SeededCell(bins: seq<Value>, now: Now, b: string, column: string, lib: Library)
    requires b in SIZE_FORM.buckets && b != "period" && column in SIZE_FORM.columns
    ensures Get(Get(SizeMonth(bins, SIZE_FORM, now, lib), b), column)
              == Num(Share(bins, SizeKey(lib), At(SizeWeight(lib), column))(b))
  {
    CellOfRow(SIZE_FORM, now.month, Merged(SIZE_FORM, bins, SizeKey(lib), SizeWeight(lib)), b);
  }
}
