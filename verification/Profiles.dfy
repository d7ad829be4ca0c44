/** The profile sections (sizes, pages): their fields, legends and bins, and the merging of
    bins whose keys are aliases. */
module Profiles {
  import opened Wrappers
  import opened Text
  import opened Sorting
  import opened Counting
  import opened Json
  import opened Sections
  import opened Normalizer

  // ---------------------------------------------------------------- profiles

  function EmptyCells(form: Form): string -> Value
  {
    (b: string) => EmptyCell(form)
  }

  function EmptyRow(form: Form, period: string): Value
  {
    RowOf(form, period, EmptyCells(form))
  }

  /** Series made up around one month row, when none are stored. */
  function Seeded(form: Form, month: seq<Value>, now: Now): Value
  {
    Obj(map["week" := Arr([EmptyRow(form, now.week)]), "month" := Arr(month),
            "year" := Arr([EmptyRow(form, now.year)])])
  }

  lemma SeededIsNormal(form: Form, month: seq<Value>, now: Now)
    requires Proper(now) && NormalRows(form, Arr(month))
    ensures NormalByPeriod(form, Seeded(form, month, now))
  {
    RowOfIsNormal(form, now.week, EmptyCells(form));
    RowOfIsNormal(form, now.year, EmptyCells(form));
  }

  const PROFILE_KEYS := {"bins", "top10", "default_period", "default_bucket", "period_options", "bucket_options",
                         "by_period"}

  /** What is particular to a profile section: its first bucket and its legend. */
  datatype Style = Style(form: Form, first: string, legend: Value)

  predicate Fitting(style: Style)
  {
    style.first in style.form.buckets && "" !in style.form.buckets && NormalOptions(style.legend, style.form)
  }

  function ProfileField(k: string, raw: Value, style: Style, bins: Value, month: Value, now: Now, lib: Library): Value
  {
    if k == "bins" then bins
    else if k == "top10" then (if Get(raw, k).Arr? then Get(raw, k) else Arr([]))
    else if k == "default_period" then DefaultPeriod(raw, lib)
    else if k == "default_bucket" then DefaultBucket(raw, style.form, style.first, lib)
    else if k == "period_options" then PeriodOptions(Get(raw, k), lib)
    else if k == "bucket_options" then BucketOptions(Get(raw, k), style.form, style.legend, lib)
    else if Get(raw, k).Obj? then ByPeriodFrom(style.form, Get(raw, k), now, lib)
    else Seeded(style.form, [month], now)
  }

  /** A profile section: its bins, its legend and its series, or series seeded with a month. */
  function ProfileFrom(raw: Value, style: Style, bins: Value, month: Value, now: Now, lib: Library): Value
  {
    Obj(map k | k in PROFILE_KEYS :: ProfileField(k, raw, style, bins, month, now, lib))
  }

  ghost predicate NormalField(k: string, v: Value, style: Style)
  {
    if k == "top10" then v.Arr?
    else if k == "default_period" then v.Str? && v.s in PERIODS
    else if k == "default_bucket" then v.Str? && v.s in style.form.buckets
    else if k == "period_options" then NormalPeriodOptions(v)
    else if k == "bucket_options" then NormalOptions(v, style.form)
    else if k == "by_period" then NormalByPeriod(style.form, v)
    else true
  }

  ghost predicate NormalProfile(v: Value, style: Style)
  {
    v.Obj? && v.fields.Keys == PROFILE_KEYS && forall k :: k in PROFILE_KEYS ==> NormalField(k, v.fields[k], style)
  }

  /** Every truthy value prints as some text. */
  ghost predicate Prints(lib: Library)
  {
    forall v :: Truthy(v) ==> lib.text(v) != ""
  }

  lemma DefaultsAreNormal(raw: Value, style: Style, lib: Library)
    requires Fitting(style)
    ensures NormalField("default_period", DefaultPeriod(raw, lib), style)
    ensures NormalField("default_bucket", DefaultBucket(raw, style.form, style.first, lib), style)
  {
  }

  lemma PeriodOptionsAreNormal(raw: Value, lib: Library)
    ensures NormalPeriodOptions(PeriodOptions(raw, lib))
  {
    if raw.Arr? { PeriodNamesAreNormal(raw.items, lib); }
  }

  lemma BucketOptionsAreNormal(raw: Value, style: Style, lib: Library)
    requires Fitting(style) && Prints(lib)
    ensures NormalOptions(BucketOptions(raw, style.form, style.legend, lib), style.form)
  {
    if raw.Arr? { OptionsAreNormal(raw.items, style.form, lib); }
  }

  lemma SingleRow(form: Form, row: Value)
    requires NormalRow(form, row)
    ensures NormalRows(form, Arr([row]))
  {
  }

  lemma ProfileIsNormal(raw: Value, style: Style, bins: Value, month: Value, now: Now, lib: Library)
    requires Fitting(style) && Prints(lib) && Proper(now) && NormalRow(style.form, month)
    ensures NormalProfile(ProfileFrom(raw, style, bins, month, now, lib), style)
  {
    forall k | k in PROFILE_KEYS ensures NormalField(k, ProfileField(k, raw, style, bins, month, now, lib), style) {
      DefaultsAreNormal(raw, style, lib);
      PeriodOptionsAreNormal(Get(raw, k), lib);
      BucketOptionsAreNormal(Get(raw, k), style, lib);
      SingleRow(style.form, month);
      SeededIsNormal(style.form, [month], now);
      ByPeriodFromIsNormal(style.form, Get(raw, k), now, lib);
    }
  }

  lemma DefaultPeriodIsFixed(section: Value, lib: Library)
    requires var p := Get(section, "default_period"); p.Str? && p.s in PERIODS
    ensures DefaultPeriod(section, lib) == Get(section, "default_period")
  {
    PeriodsAreLower(Get(section, "default_period").s);
  }

  lemma DefaultBucketIsFixed(section: Value, form: Form, first: string, lib: Library)
    requires "" !in form.buckets
    requires var b := Get(section, "default_bucket"); b.Str? && b.s in form.buckets
    ensures DefaultBucket(section, form, first, lib) == Get(section, "default_bucket")
  {
  }

  lemma PeriodOptionsAreFixed(v: Value, lib: Library)
    requires NormalPeriodOptions(v)
    ensures PeriodOptions(v, lib) == v
  {
    PeriodNamesAreNormal(v.items, lib);
  }

  lemma BucketOptionsAreFixed(v: Value, form: Form, default: Value, lib: Library)
    requires NormalOptions(v, form)
    ensures BucketOptions(v, form, default, lib) == v
  {
    NormalOptionsAreFixed(v.items, form, lib);
  }

  lemma NormalFieldIsFixed(k: string, v: Value, style: Style, bins: Value, month: Value, now: Now, lib: Library)
    requires Fitting(style) && k in PROFILE_KEYS && k != "bins"
    requires v.Obj? && k in v.fields && NormalField(k, v.fields[k], style)
    ensures ProfileField(k, v, style, bins, month, now, lib) == v.fields[k]
  {
    assert Get(v, k) == v.fields[k];
    if k == "default_period" {
      DefaultPeriodIsFixed(v, lib);
    } else if k == "default_bucket" {
      DefaultBucketIsFixed(v, style.form, style.first, lib);
    } else if k == "period_options" {
      PeriodOptionsAreFixed(v.fields[k], lib);
    } else if k == "bucket_options" {
      BucketOptionsAreFixed(v.fields[k], style.form, style.legend, lib);
    } else if k == "by_period" {
      NormalByPeriodIsFixed(style.form, v.fields[k], now, lib);
    }
  }

  /** A normal profile is left alone but for its bins. */
  lemma NormalProfileIsFixed(v: Value, style: Style, bins: Value, month: Value, now: Now, lib: Library)
    requires Fitting(style) && NormalProfile(v, style)
    ensures ProfileFrom(v, style, bins, month, now, lib) == Obj(v.fields["bins" := bins])
  {
    var r := ProfileFrom(v, style, bins, month, now, lib).fields;
    forall k | k in PROFILE_KEYS && k != "bins" ensures r[k] == v.fields[k] {
      NormalFieldIsFixed(k, v, style, bins, month, now, lib);
    }
    UpdatedAtOne(v.fields, r, "bins");
  }

  lemma UpdatedAtOne(m: map<string, Value>, r: map<string, Value>, k: string)
    requires m.Keys == r.Keys && k in m && forall j :: j in m && j != k ==> r[j] == m[j]
    ensures r == m[k := r[k]]
  {
  }

  /** The profile made of what is stored; the former format was just the list of the top ten. */
  function ProfileOf(raw: Value, style: Style, bins: Value, month: Value, now: Now, lib: Library): Value
  {
    if raw.Obj? then ProfileFrom(raw, style, bins, month, now, lib)
    else ProfileFrom(Obj(map["top10" := raw]), style, bins, EmptyRow(style.form, now.month), now, lib)
  }

  lemma ProfileOfIsNormal(raw: Value, style: Style, bins: Value, month: Value, now: Now, lib: Library)
    requires Fitting(style) && Prints(lib) && Proper(now) && NormalRow(style.form, month)
    ensures NormalProfile(ProfileOf(raw, style, bins, month, now, lib), style)
    ensures Get(ProfileOf(raw, style, bins, month, now, lib), "bins") == bins
  {
    if raw.Obj? {
      ProfileIsNormal(raw, style, bins, month, now, lib);
    } else {
      RowOfIsNormal(style.form, now.month, EmptyCells(style.form));
      ProfileIsNormal(Obj(map["top10" := raw]), style, bins, EmptyRow(style.form, now.month), now, lib);
    }
  }

  /** A later pass over a normal profile rewrites its bins and nothing else. */
  lemma LaterPass(v: Value, style: Style, bins: Value, month: Value, now: Now, lib: Library)
    requires Fitting(style) && NormalProfile(v, style)
    ensures ProfileOf(v, style, bins, month, now, lib) == Obj(v.fields["bins" := bins])
    ensures bins == Get(v, "bins") <==> ProfileOf(v, style, bins, month, now, lib) == v
  {
    NormalProfileIsFixed(v, style, bins, month, now, lib);
    assert v.fields["bins" := v.fields["bins"]] == v.fields;
    assert v.fields["bins" := bins]["bins"] == bins;
  }

  // ---------------------------------------------------------------- legends

  /** The legend of a scale: key, label and colour of each bucket. */
  function Legend(scale: Scale, labels: seq<string>, colors: seq<string>): Value
    requires |labels| == |colors| == |scale.edges| + 1
  {
    Arr(seq(|labels|, i requires 0 <= i < |labels| =>
      Obj(map["key" := Str(KeyList(scale)[i]), "label" := Str(labels[i]), "color" := Str(colors[i])])))
  }

  lemma LegendIsNormal(scale: Scale, labels: seq<string>, colors: seq<string>, form: Form)
    requires |labels| == |colors| == |scale.edges| + 1 && form.buckets == Keys(scale)
    requires forall k :: k in Keys(scale) ==> BucketName(k)
    requires forall i :: 0 <= i < |labels| ==> labels[i] != ""
    ensures NormalOptions(Legend(scale, labels, colors), form)
  {
    KeyListExact(scale);
    var items := Legend(scale, labels, colors).items;
    forall item | item in items ensures NormalOption(item, form) {
      var i :| 0 <= i < |items| && items[i] == item;
      assert KeyList(scale)[i] in KeyList(scale);
    }
  }

  // ---------------------------------------------------------------- merging bins

  function TextIn(item: Value, k: string, lib: Library): string
  {
    TextOf(Or(Get(item, k), Str("")), lib)
  }

  /** The cells that hold, bucket by bucket, the sum of the bins resolved to them. */
  function Merged(form: Form, items: seq<Value>, key: Value -> Option<string>,
                  weight: (string, Value) -> int): string -> Value
  {
    (b: string) => Obj(map c | c in form.columns :: Num(Sum(items, Member(key, At(weight, c), b))))
  }

  lemma MergedRowIsNormal(form: Form, period: string, items: seq<Value>, key: Value -> Option<string>,
                          weight: (string, Value) -> int)
    requires period != "" && Trimmed(period)
    ensures NormalRow(form, RowOf(form, period, Merged(form, items, key, weight)))
  {
    RowOfIsNormal(form, period, Merged(form, items, key, weight));
  }

  function At(weight: (string, Value) -> int, column: string): Value -> int
  {
    (item: Value) => weight(column, item)
  }

  function Share(items: seq<Value>, key: Value -> Option<string>, weight: Value -> int): string -> int
  {
    (b: string) => Sum(items, Member(key, weight, b))
  }

  function Self(): string -> string
  {
    (b: string) => b
  }

  /** Merging under aliases keeps the sum of the bins that resolve to a bucket. */
  lemma MergingConserves(buckets: seq<string>, items: seq<Value>, key: Value -> Option<string>, weight: Value -> int)
    requires NoDuplicates(buckets)
    requires forall item :: item in items && key(item).Some? ==> key(item).value in buckets
    ensures Sum(buckets, Share(items, key, weight)) == Sum(items, Grouped(key, weight))
  {
    forall x | x in items && key(x).Some? ensures exists b :: b in buckets && Self()(b) == key(x).value {
      assert Self()(key(x).value) == key(x).value;
    }
    PartitionLaw(buckets, Self(), Share(items, key, weight), items, key, weight);
  }

  function Tallies(form: Form, items: seq<Value>, key: Value -> Option<string>, weight: (string, Value) -> int,
                   b: string): map<string, int>
  {
    map c | c in form.columns :: Sum(items, Member(key, At(weight, c), b))
  }

  function Tally(form: Form, items: seq<Value>, key: Value -> Option<string>,
                 weight: (string, Value) -> int): map<string, map<string, int>>
  {
    map b | b in form.buckets :: Tallies(form, items, key, weight, b)
  }

  lemma TalliesStep(form: Form, items: seq<Value>, item: Value, key: Value -> Option<string>,
                    weight: (string, Value) -> int, b: string)
    ensures var before := Tallies(form, items, key, weight, b);
            Tallies(form, items + [item], key, weight, b)
              == if key(item) == Some(b) then map c | c in before :: before[c] + weight(c, item) else before
  {
    var before, later := Tallies(form, items, key, weight, b), Tallies(form, items + [item], key, weight, b);
    forall c | c in form.columns ensures later[c] == before[c] + if key(item) == Some(b) then weight(c, item) else 0 {
      SumOne(items, item, Member(key, At(weight, c), b));
    }
  }

  lemma TallyStep(form: Form, items: seq<Value>, item: Value, key: Value -> Option<string>,
                  weight: (string, Value) -> int)
    requires key(item).Some? ==> key(item).value in form.buckets
    ensures var before := Tally(form, items, key, weight);
            Tally(form, items + [item], key, weight)
              == if key(item).None? then before
                 else before[key(item).value := map c | c in before[key(item).value] ::
                             before[key(item).value][c] + weight(c, item)]
  {
    forall b | b in form.buckets
      ensures var before := Tallies(form, items, key, weight, b);
              Tallies(form, items + [item], key, weight, b) == if key(item) == Some(b) then map c | c in before ::
                  before[c] + weight(c, item) else before
    {
      TalliesStep(form, items, item, key, weight, b);
    }
  }

  /** The loop over the bins, which adds each to the cell its key resolves to. */
  method MergeBins(form: Form, items: seq<Value>, key: Value -> Option<string>, weight: (string, Value) -> int)
    returns (cells: map<string, map<string, int>>)
    requires forall item :: item in items && key(item).Some? ==> key(item).value in form.buckets
    ensures cells == Tally(form, items, key, weight)
  {
    cells := map b | b in form.buckets :: map c | c in form.columns :: 0;
    forall b | b in form.buckets ensures cells[b] == Tallies(form, items[..0], key, weight, b) {
    }
    for i := 0 to |items|
      invariant cells == Tally(form, items[..i], key, weight)
    {
      var item := items[i];
      assert item in items && items[..i + 1] == items[..i] + [item];
      TallyStep(form, items[..i], item, key, weight);
      if key(item).Some? {
        var b := key(item).value;
        cells := cells[b := map c | c in cells[b] :: cells[b][c] + weight(c, item)];
      }
    }
    assert items[..|items|] == items;
  }

  // ---------------------------------------------------------------- cells written down

  function CellJson(cell: map<string, int>): Value
  {
    Obj(map c | c in cell :: Num(cell[c]))
  }

  function CellsJson(cells: map<string, map<string, int>>): string -> Value
  {
    (b: string) => if b in cells then CellJson(cells[b]) else Null
  }

  lemma TalliesAt(form: Form, items: seq<Value>, key: Value -> Option<string>, weight: (string, Value) -> int,
                  b: string, c: string)
    requires c in form.columns
    ensures var cell, merged := CellJson(Tallies(form, items, key, weight, b)), Merged(form, items, key, weight)(b);
            c in cell.fields && c in merged.fields && cell.fields[c] == merged.fields[c]
  {
  }

  lemma TalliesJson(form: Form, items: seq<Value>, key: Value -> Option<string>, weight: (string, Value) -> int,
                    b: string)
    ensures CellJson(Tallies(form, items, key, weight, b)) == Merged(form, items, key, weight)(b)
  {
    var cell, merged := CellJson(Tallies(form, items, key, weight, b)), Merged(form, items, key, weight)(b);
    forall c | c in form.columns ensures cell.fields[c] == merged.fields[c] {
      TalliesAt(form, items, key, weight, b, c);
    }
    assert cell.fields == merged.fields;
  }

  lemma TallyOf(form: Form, items: seq<Value>, key: Value -> Option<string>, weight: (string, Value) -> int, b: string)
    requires b in form.buckets
    ensures b in Tally(form, items, key, weight)
              && Tally(form, items, key, weight)[b] == Tallies(form, items, key, weight, b)
  {
  }

  /** Written down, the tallies are the cells of the merged row. */
  lemma TallyIsMerged(form: Form, items: seq<Value>, key: Value -> Option<string>, weight: (string, Value) -> int,
                      b: string)
    requires b in form.buckets
    ensures CellsJson(Tally(form, items, key, weight))(b) == Merged(form, items, key, weight)(b)
  {
    TallyOf(form, items, key, weight, b);
    TalliesJson(form, items, key, weight, b);
  }

  lemma TallyAt(form: Form, items: seq<Value>, key: Value -> Option<string>, weight: (string, Value) -> int, b: string,
                c: string)
    requires b in form.buckets && c in form.columns
    ensures b in Tally(form, items, key, weight) && c in Tally(form, items, key, weight)[b]
    ensures Tally(form, items, key, weight)[b][c] == Share(items, key, At(weight, c))(b)
  {
  }

  lemma SameRow(form: Form, period: string, f: string -> Value, g: string -> Value)
    requires forall b :: b in form.buckets ==> f(b) == g(b)
    ensures RowOf(form, period, f) == RowOf(form, period, g)
  {
    forall k | k in form.buckets && k != "period"
      ensures RowOf(form, period, f).fields[k] == RowOf(form, period, g).fields[k]
    {
    }
    assert RowOf(form, period, f).fields == RowOf(form, period, g).fields;
  }

  lemma TallyRow(form: Form, period: string, items: seq<Value>, key: Value -> Option<string>,
                 weight: (string, Value) -> int)
    ensures RowOf(form, period, CellsJson(Tally(form, items, key, weight)))
              == RowOf(form, period, Merged(form, items, key, weight))
  {
    forall b | b in form.buckets
      ensures CellsJson(Tally(form, items, key, weight))(b) == Merged(form, items, key, weight)(b)
    {
      TallyIsMerged(form, items, key, weight, b);
    }
    SameRow(form, period, CellsJson(Tally(form, items, key, weight)), Merged(form, items, key, weight));
  }
}
