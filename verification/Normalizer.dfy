/** The rows of the three bucketed workbench sections, and what the normaliser makes of
    whatever a stored payload holds in their place. */
module Normalizer {
  import opened Wrappers
  import opened Text
  import opened Sorting
  import opened Json
  import opened Sections

  const PERIODS := {"week", "month", "year"}

  /** The current week, month and year, for payloads that have no rows. */
  datatype Now = Now(week: string, month: string, year: string)

  predicate Proper(now: Now)
  {
    && now.week != "" && Trimmed(now.week) && now.month != "" && Trimmed(now.month)
    && now.year != "" && Trimmed(now.year)
  }

  /** What distinguishes the sections: their buckets, their columns, how a cell is read. */
  datatype Form = Form(section: Section, buckets: set<string>, columns: set<string>)

  function FormOf(section: Section): Form
  {
    Form(section, ShapeOf(section).buckets, ShapeOf(section).columns)
  }

  // ---------------------------------------------------------------- cells

  function CellValue(form: Form, raw: Value, column: string, lib: Library): int
  {
    match form.section
    case ScanTime => ToInt(Get(raw, column), 0, lib)
    case FileSize =>
      if column == "total" then ToInt(Get(raw, "total"),
                                      ToInt(Get(raw, "sast"), 0, lib) + ToInt(Get(raw, "sca"), 0, lib), lib)
      else ToInt(Get(raw, column), 0, lib)
    case PageCoverage =>
      if column == "scan_count" then ToInt(GetOr(raw, "scan_count", Get(raw, "count")), 0, lib)
      else if column == "page_count" then ToInt(GetOr(raw, "page_count", Get(raw, "pages")), 0, lib)
      else ToInt(Get(raw, column), 0, lib)
  }

  function EmptyCell(form: Form): Value
  {
    Obj(map c | c in form.columns :: Num(0))
  }

  /** The cell of one bucket, from whatever the stored row has there. */
  function CellFrom(form: Form, raw: Value, lib: Library): Value
  {
    if raw.Obj? then Obj(map c | c in form.columns :: Num(CellValue(form, raw, c, lib)))
    else if form.section.PageCoverage? && !raw.Null? then
      Obj(map c | c in form.columns :: Num(if c == "scan_count" then ToInt(raw, 0, lib) else 0))
    else EmptyCell(form)
  }

  predicate NormalCell(form: Form, cell: Value)
  {
    cell.Obj? && cell.fields.Keys == form.columns && forall c :: c in cell.fields ==> cell.fields[c].Num?
  }

  lemma CellFromIsNormal(form: Form, raw: Value, lib: Library)
    ensures NormalCell(form, CellFrom(form, raw, lib))
  {
  }

  lemma NormalCellIsFixed(form: Form, cell: Value, lib: Library)
    requires NormalCell(form, cell)
    ensures CellFrom(form, cell, lib) == cell
  {
    forall c | c in form.columns ensures Num(CellValue(form, cell, c, lib)) == cell.fields[c] {
      assert c in cell.fields && cell.fields[c].Num?;
    }
    assert CellFrom(form, cell, lib).fields == cell.fields;
  }

  // ---------------------------------------------------------------- rows

  function PeriodOf(raw: Value, fallback: string, lib: Library): string
  {
    var t := Trim(if raw.Obj? then TextOf(GetOr(raw, "period", Str("")), lib) else "");
    if t == "" then fallback else t
  }

  function RowFrom(form: Form, raw: Value, fallback: string, lib: Library): Value
  {
    Obj(map k | k in form.buckets + {"period"} ::
      if k == "period" then Str(PeriodOf(raw, fallback, lib)) else CellFrom(form, Get(raw, k), lib))
  }

  predicate NormalRow(form: Form, row: Value)
  {
    && row.Obj? && row.fields.Keys == form.buckets + {"period"}
    && row.fields["period"].Str? && row.fields["period"].s != "" && Trimmed(row.fields["period"].s)
    && forall k :: k in form.buckets && k != "period" ==> NormalCell(form, row.fields[k])
  }

  lemma RowFromIsNormal(form: Form, raw: Value, fallback: string, lib: Library)
    requires fallback != "" && Trimmed(fallback)
    ensures NormalRow(form, RowFrom(form, raw, fallback, lib))
  {
    TrimIsTrimmed(if raw.Obj? then TextOf(GetOr(raw, "period", Str("")), lib) else "");
    var row := RowFrom(form, raw, fallback, lib);
    forall k | k in form.buckets && k != "period" ensures NormalCell(form, row.fields[k]) {
      CellFromIsNormal(form, Get(raw, k), lib);
    }
  }

  lemma NormalRowIsFixed(form: Form, row: Value, fallback: string, lib: Library)
    requires NormalRow(form, row)
    ensures RowFrom(form, row, fallback, lib) == row
  {
    TrimIsTrimmed(row.fields["period"].s);
    var row' := RowFrom(form, row, fallback, lib);
    forall k | k in row.fields ensures row'.fields[k] == row.fields[k] {
      if k != "period" {
        NormalCellIsFixed(form, row.fields[k], lib);
      }
    }
    assert row'.fields == row.fields;
  }

  /** A row written down cell by cell. */
  function RowOf(form: Form, period: string, cell: string -> Value): Value
  {
    Obj(map k | k in form.buckets + {"period"} :: if k == "period" then Str(period) else cell(k))
  }

  lemma RowOfIsNormal(form: Form, period: string, cell: string -> Value)
    requires period != "" && Trimmed(period)
    requires forall k :: k in form.buckets ==> NormalCell(form, cell(k))
    ensures NormalRow(form, RowOf(form, period, cell))
  {
  }

  lemma CellOfRow(form: Form, period: string, cell: string -> Value, bucket: string)
    requires bucket in form.buckets && bucket != "period"
    ensures Get(RowOf(form, period, cell), bucket) == cell(bucket)
  {
  }

  function PeriodText(row: Value): string
  {
    var p := Get(row, "period");
    if p.Str? then p.s else ""
  }

  predicate PeriodLe(a: Value, b: Value)
  {
    StrLe(PeriodText(a), PeriodText(b))
  }

  lemma PeriodLeIsPreorder()
    ensures TotalPreorder(PeriodLe)
  {
    forall a, b ensures PeriodLe(a, b) || PeriodLe(b, a) {
      StrLeTotal(PeriodText(a), PeriodText(b));
    }
    forall a, b, c | PeriodLe(a, b) && PeriodLe(b, c) ensures PeriodLe(a, c) {
      StrLeTransitive(PeriodText(a), PeriodText(b), PeriodText(c));
    }
  }

  /** Each stored row normalised, in stored order; one row for the current period if none. */
  function EachRow(form: Form, raw: seq<Value>, fallback: string, lib: Library): (r: seq<Value>)
    ensures |r| == |raw|
    ensures forall i :: 0 <= i < |r| ==> r[i] == RowFrom(form, raw[i], fallback, lib)
  {
    seq(|raw|, i requires 0 <= i < |raw| => RowFrom(form, raw[i], fallback, lib))
  }

  function RowsFrom(form: Form, raw: Value, fallback: string, lib: Library): seq<Value>
  {
    var source := if raw.Arr? && raw.items != [] then raw.items else [Obj(map["period" := Str(fallback)])];
    Sort(EachRow(form, source, fallback, lib), PeriodLe)
  }

  ghost predicate NormalRows(form: Form, rows: Value)
  {
    rows.Arr? && rows.items != [] && (forall row :: row in rows.items ==> NormalRow(form, row))
        && SortedBy(rows.items, PeriodLe)
  }

  lemma RowsFromIsNormal(form: Form, raw: Value, fallback: string, lib: Library)
    requires fallback != "" && Trimmed(fallback)
    ensures NormalRows(form, Arr(RowsFrom(form, raw, fallback, lib)))
  {
    var source := if raw.Arr? && raw.items != [] then raw.items else [Obj(map["period" := Str(fallback)])];
    var each := EachRow(form, source, fallback, lib);
    SortElements(each, PeriodLe);
    PeriodLeIsPreorder();
    SortSorts(each, PeriodLe);
    forall row | row in RowsFrom(form, raw, fallback, lib) ensures NormalRow(form, row) {
      var i :| 0 <= i < |each| && each[i] == row;
      RowFromIsNormal(form, source[i], fallback, lib);
    }
  }

  lemma NormalRowsAreFixed(form: Form, rows: Value, fallback: string, lib: Library)
    requires NormalRows(form, rows)
    ensures Arr(RowsFrom(form, rows, fallback, lib)) == rows
  {
    var each := EachRow(form, rows.items, fallback, lib);
    forall i | 0 <= i < |each| ensures each[i] == rows.items[i] {
      assert rows.items[i] in rows.items;
      NormalRowIsFixed(form, rows.items[i], fallback, lib);
    }
    assert each == rows.items;
    SortedIsFixed(rows.items, PeriodLe);
  }

  // ---------------------------------------------------------------- the three series of a section

  function ByPeriodFrom(form: Form, raw: Value, now: Now, lib: Library): Value
  {
    Obj(map["week" := Arr(RowsFrom(form, Get(raw, "week"), now.week, lib)),
            "month" := Arr(RowsFrom(form, Get(raw, "month"), now.month, lib)),
            "year" := Arr(RowsFrom(form, Get(raw, "year"), now.year, lib))])
  }

  ghost predicate NormalByPeriod(form: Form, v: Value)
  {
    v.Obj? && v.fields.Keys == PERIODS && forall p :: p in PERIODS ==> NormalRows(form, v.fields[p])
  }

  lemma ByPeriodFromIsNormal(form: Form, raw: Value, now: Now, lib: Library)
    requires Proper(now)
    ensures NormalByPeriod(form, ByPeriodFrom(form, raw, now, lib))
  {
    RowsFromIsNormal(form, Get(raw, "week"), now.week, lib);
    RowsFromIsNormal(form, Get(raw, "month"), now.month, lib);
    RowsFromIsNormal(form, Get(raw, "year"), now.year, lib);
  }

  lemma NormalByPeriodIsFixed(form: Form, v: Value, now: Now, lib: Library)
    requires NormalByPeriod(form, v)
    ensures ByPeriodFrom(form, v, now, lib) == v
  {
    NormalRowsAreFixed(form, v.fields["week"], now.week, lib);
    NormalRowsAreFixed(form, v.fields["month"], now.month, lib);
    NormalRowsAreFixed(form, v.fields["year"], now.year, lib);
    assert ByPeriodFrom(form, v, now, lib).fields == v.fields;
  }

  // ---------------------------------------------------------------- options and defaults

  const ALL_PERIODS := Arr([Str("week"), Str("month"), Str("year")])

  function PeriodNames(items: seq<Value>, lib: Library): seq<Value>
  {
    if items == [] then []
    else
      var name := Lower(TextOf(items[0], lib));
      (if name in PERIODS then [Str(name)] else []) + PeriodNames(items[1..], lib)
  }

  function PeriodOptions(raw: Value, lib: Library): Value
  {
    if raw.Arr? && PeriodNames(raw.items, lib) != [] then Arr(PeriodNames(raw.items, lib)) else ALL_PERIODS
  }

  predicate NormalPeriodOptions(v: Value)
  {
    v.Arr? && v.items != [] && forall i :: i in v.items ==> i.Str? && i.s in PERIODS
  }

  lemma PeriodsAreLower(p: string)
    requires p in PERIODS
    ensures Lower(p) == p
  {
  }

  lemma {:induction false} PeriodNamesAreNormal(items: seq<Value>, lib: Library)
    ensures forall i :: i in PeriodNames(items, lib) ==> i.Str? && i.s in PERIODS
    ensures (forall i :: i in items ==> i.Str? && i.s in PERIODS) ==> PeriodNames(items, lib) == items
  {
    if items != [] {
      PeriodNamesAreNormal(items[1..], lib);
      assert items == [items[0]] + items[1..];
      if forall i :: i in items ==> i.Str? && i.s in PERIODS {
        assert items[0] in items;
        PeriodsAreLower(items[0].s);
      }
    }
  }

  function DefaultPeriod(section: Value, lib: Library): Value
  {
    var t := Lower(TextOf(Or(GetOr(section, "default_period", Str("month")), Str("month")), lib));
    Str(if t in PERIODS then t else "month")
  }

  function DefaultBucket(section: Value, form: Form, first: string, lib: Library): Value
  {
    var t := TextOf(Or(GetOr(section, "default_bucket", Str(first)), Str(first)), lib);
    Str(if t in form.buckets then t else first)
  }

  /** One entry of a bucket legend. */
  function OptionFrom(item: Value, form: Form, lib: Library): Option<Value>
  {
    var key := Trim(TextOf(Or(Get(item, "key"), Str("")), lib));
    if !item.Obj? || key !in form.buckets then None
    else Some(Obj(map["key" := Str(key), "label" := Str(TextOf(Or(Get(item, "label"), Str(key)), lib)),
                      "color" := Str(TextOf(Or(Get(item, "color"), Str("")), lib))]))
  }

  function OptionsFrom(items: seq<Value>, form: Form, lib: Library): seq<Value>
  {
    if items == [] then []
    else
      var o := OptionFrom(items[0], form, lib);
      (if o.Some? then [o.value] else []) + OptionsFrom(items[1..], form, lib)
  }

  function BucketOptions(raw: Value, form: Form, default: Value, lib: Library): Value
  {
    if raw.Arr? && OptionsFrom(raw.items, form, lib) != [] then Arr(OptionsFrom(raw.items, form, lib)) else default
  }

  predicate NormalOption(item: Value, form: Form)
  {
    && item.Obj? && item.fields.Keys == {"key", "label", "color"}
    && item.fields["key"].Str? && item.fields["key"].s in form.buckets && Trimmed(item.fields["key"].s)
    && item.fields["label"].Str? && item.fields["label"].s != "" && item.fields["color"].Str?
  }

  predicate NormalOptions(v: Value, form: Form)
  {
    v.Arr? && v.items != [] && forall i :: i in v.items ==> NormalOption(i, form)
  }

  lemma NormalOptionIsFixed(item: Value, form: Form, lib: Library)
    requires NormalOption(item, form)
    ensures OptionFrom(item, form, lib) == Some(item)
  {
    var key := item.fields["key"].s;
    TrimIsTrimmed(key);
    TrimIsTrimmed("");
    assert TextOf(Or(Get(item, "key"), Str("")), lib) == key;
    assert OptionFrom(item, form, lib).value.fields == item.fields;
  }

  lemma OptionFromIsNormal(item: Value, form: Form, lib: Library)
    requires OptionFrom(item, form, lib).Some?
    requires forall v :: Truthy(v) ==> lib.text(v) != ""
    requires "" !in form.buckets
    ensures NormalOption(OptionFrom(item, form, lib).value, form)
  {
    TrimIsTrimmed(TextOf(Or(Get(item, "key"), Str("")), lib));
  }

  lemma {:induction false} OptionsAreNormal(items: seq<Value>, form: Form, lib: Library)
    requires forall v :: Truthy(v) ==> lib.text(v) != ""
    requires "" !in form.buckets
    ensures forall i :: i in OptionsFrom(items, form, lib) ==> NormalOption(i, form)
  {
    if items != [] {
      OptionsAreNormal(items[1..], form, lib);
      if OptionFrom(items[0], form, lib).Some? {
        OptionFromIsNormal(items[0], form, lib);
      }
    }
  }

  lemma {:induction false} NormalOptionsAreFixed(items: seq<Value>, form: Form, lib: Library)
    requires forall i :: i in items ==> NormalOption(i, form)
    ensures OptionsFrom(items, form, lib) == items
  {
    if items != [] {
      NormalOptionIsFixed(items[0], form, lib);
      NormalOptionsAreFixed(items[1..], form, lib);
      assert items == [items[0]] + items[1..];
    }
  }
}
