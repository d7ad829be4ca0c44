/** The scan-time rows of stored payloads from before the weekly and yearly series: one list
    counts SAST and SCA together, the other DAST, both per month and with other buckets. */
module LegacyRows {
  import opened Wrappers
  import opened Text
  import opened Sorting
  import opened Counting
  import opened Json
  import opened Sections
  import opened Normalizer

  const FORM := FormOf(ScanTime)
  const NO_ROW := Obj(map[])

  // ---------------------------------------------------------------- one row

  /** The combined SAST and SCA counter that moves to a bucket. */
  function CombinedKey(bucket: string): Option<string>
  {
    if bucket in {"lt5", "m5_10", "m10_30", "m30_60", "m60_120"} then Some(bucket)
    else if bucket == "gte300" then Some("gte120")
    else None
  }

  /** The DAST counter that moves to a bucket. */
  function DynamicKey(bucket: string): Option<string>
  {
    if bucket in {"m30_60", "m60_120", "m120_240"} then Some(bucket)
    else if bucket == "m10_30" then Some("lt30")
    else if bucket == "gte300" then Some("gte240")
    else None
  }

  function CountUnder(row: Value, key: Option<string>, lib: Library): int
  {
    if key.Some? then ToInt(Get(row, key.value), 0, lib) else 0
  }

  /** What the two old counters leave in the columns of a new bucket. */
  function LegacyCount(column: string, combined: int, dynamic: int): int
  {
    if column == "sast" then combined / 2
    else if column == "sca" then combined - combined / 2
    else if column == "dast" then dynamic
    else combined + dynamic
  }

  function LegacyCell(combined: int, dynamic: int): Value
  {
    Obj(map c | c in FORM.columns :: Num(LegacyCount(c, combined, dynamic)))
  }

  function LegacyCells(mixed: Value, dast: Value, lib: Library): string -> Value
  {
    (b: string) => LegacyCell(CountUnder(mixed, CombinedKey(b), lib), CountUnder(dast, DynamicKey(b), lib))
  }

  function LegacyRow(period: string, mixed: Value, dast: Value, lib: Library): Value
  {
    RowOf(FORM, period, LegacyCells(mixed, dast, lib))
  }

  lemma LegacyCellIsNormal(combined: int, dynamic: int)
    ensures NormalCell(FORM, LegacyCell(combined, dynamic))
  {
  }

  lemma LegacyRowIsNormal(period: string, mixed: Value, dast: Value, lib: Library)
    requires period != "" && Trimmed(period)
    ensures NormalRow(FORM, LegacyRow(period, mixed, dast, lib))
    ensures PeriodText(LegacyRow(period, mixed, dast, lib)) == period
  {
    var cells := LegacyCells(mixed, dast, lib);
    forall k ensures NormalCell(FORM, cells(k)) {
      LegacyCellIsNormal(CountUnder(mixed, CombinedKey(k), lib), CountUnder(dast, DynamicKey(k), lib));
    }
    RowOfIsNormal(FORM, period, cells);
  }

  // ---------------------------------------------------------------- periods and the rows used for them

  /** Where a row belongs; nothing for what is no row or has no period. */
  type Dating = Value -> Option<string>

  function PeriodKeyOf(lib: Library): Dating
  {
    (row: Value) => if PeriodOf(row, "", lib) == "" then None else Some(PeriodOf(row, "", lib))
  }

  lemma KeysAreTrimmed(row: Value, lib: Library)
    ensures var k := PeriodKeyOf(lib)(row); k.Some? ==> k.value != "" && Trimmed(k.value)
  {
    TrimIsTrimmed(if row.Obj? then TextOf(GetOr(row, "period", Str("")), lib) else "");
  }

  function Periods(rows: seq<Value>, key: Dating): seq<string>
    decreases |rows|
  {
    if rows == [] then []
    else
      var before, k := Periods(rows[..|rows| - 1], key), key(rows[|rows| - 1]);
      if k.None? || k.value in before then before else before + [k.value]
  }

  lemma {:induction false} PeriodsExact(rows: seq<Value>, key: Dating)
    ensures NoDuplicates(Periods(rows, key))
    ensures forall p :: p in Periods(rows, key) <==> exists row :: row in rows && key(row) == Some(p)
    decreases |rows|
  {
    if rows != [] {
      var init, x := rows[..|rows| - 1], rows[|rows| - 1];
      PeriodsExact(init, key);
      assert rows == init + [x];
      forall p ensures p in Periods(rows, key) <==> exists row :: row in rows && key(row) == Some(p) {
        if p in Periods(init, key) {
          var row :| row in init && key(row) == Some(p);
          assert row in rows;
        }
      }
    }
  }

  /** The first row of a period, which is the one the migration reads. */
  function FirstRow(rows: seq<Value>, period: string, key: Dating): Value
    decreases |rows|
  {
    if rows == [] then NO_ROW
    else
      var init, x := rows[..|rows| - 1], rows[|rows| - 1];
      if period in Periods(init, key) then FirstRow(init, period, key)
      else if key(x) == Some(period) then x
      else NO_ROW
  }

  /** The rows that are the first of their period, and the ones behind them. */
  function Firsts(rows: seq<Value>, key: Dating): seq<Value>
    decreases |rows|
  {
    if rows == [] then []
    else
      var init, x := rows[..|rows| - 1], rows[|rows| - 1];
      if key(x).Some? && key(x).value !in Periods(init, key) then Firsts(init, key) + [x] else Firsts(init, key)
  }

  function Shadowed(rows: seq<Value>, key: Dating): seq<Value>
    decreases |rows|
  {
    if rows == [] then []
    else
      var init, x := rows[..|rows| - 1], rows[|rows| - 1];
      if key(x).Some? && key(x).value in Periods(init, key) then Shadowed(init, key) + [x] else Shadowed(init, key)
  }

  lemma {:induction false} FirstsAndShadowed(rows: seq<Value>, weight: Value -> int, key: Dating)
    ensures Sum(rows, Grouped(key, weight)) == Sum(Firsts(rows, key), weight) + Sum(Shadowed(rows, key), weight)
    decreases |rows|
  {
    if rows != [] {
      var init, x := rows[..|rows| - 1], rows[|rows| - 1];
      FirstsAndShadowed(init, weight, key);
      if key(x).Some? {
        if key(x).value in Periods(init, key) {
          SumOne(Shadowed(init, key), x, weight);
        } else {
          SumOne(Firsts(init, key), x, weight);
        }
      }
    }
  }

  predicate OneRowAPeriod(rows: seq<Value>, key: Dating)
  {
    forall i, j :: 0 <= i < j < |rows| && key(rows[i]).Some? ==> key(rows[i]) != key(rows[j])
  }

  /** One row a period: nothing is shadowed. */
  lemma {:induction false} NoneShadowed(rows: seq<Value>, key: Dating)
    requires OneRowAPeriod(rows, key)
    ensures Shadowed(rows, key) == []
    decreases |rows|
  {
    if rows != [] {
      var n := |rows| - 1;
      NoneShadowed(rows[..n], key);
      PeriodsExact(rows[..n], key);
    }
  }

  /** The weight read for a period is the weight of its first row. */
  lemma {:induction false} FirstRowWeighs(rows: seq<Value>, period: string, weight: Value -> int, key: Dating)
    requires weight(NO_ROW) == 0
    ensures weight(FirstRow(rows, period, key)) == Sum(Firsts(rows, key), Member(key, weight, period))
    ensures period !in Periods(rows, key) ==> FirstRow(rows, period, key) == NO_ROW
    decreases |rows|
  {
    if rows != [] {
      var init, x := rows[..|rows| - 1], rows[|rows| - 1];
      FirstRowWeighs(init, period, weight, key);
      SumOne(Firsts(init, key), x, Member(key, weight, period));
    }
  }

  function WeightAt(rows: seq<Value>, weight: Value -> int, key: Dating): string -> int
  {
    (p: string) => weight(FirstRow(rows, p, key))
  }

  function Itself(): string -> string
  {
    (p: string) => p
  }

  lemma {:induction false} FirstsAreDatedRows(rows: seq<Value>, key: Dating)
    ensures forall row :: row in Firsts(rows, key) ==> row in rows && key(row).Some?
    decreases |rows|
  {
    if rows != [] {
      FirstsAreDatedRows(rows[..|rows| - 1], key);
    }
  }

  /** Reading the first row of each period reads every first row exactly once. */
  lemma PeriodsReadFirsts(periods: seq<string>, rows: seq<Value>, weight: Value -> int, key: Dating)
    requires NoDuplicates(periods) && weight(NO_ROW) == 0
    requires forall p :: p in Periods(rows, key) ==> p in periods
    ensures Sum(periods, WeightAt(rows, weight, key)) == Sum(Firsts(rows, key), weight)
  {
    var firsts := Firsts(rows, key);
    FirstsAreDatedRows(rows, key);
    PeriodsExact(rows, key);
    forall p | p in periods ensures WeightAt(rows, weight, key)(p) == Sum(firsts, Member(key, weight, Itself()(p))) {
      FirstRowWeighs(rows, p, weight, key);
    }
    forall x | x in firsts && key(x).Some? ensures exists p :: p in periods && Itself()(p) == key(x).value {
      assert key(x).value in Periods(rows, key);
      assert Itself()(key(x).value) == key(x).value;
    }
    PartitionLaw(periods, Itself(), WeightAt(rows, weight, key), firsts, key, weight);
    SumSame(firsts, Grouped(key, weight), weight);
  }

  // ---------------------------------------------------------------- the migration

  function PeriodsUsed(mixed: seq<Value>, dast: seq<Value>, now: string, key: Dating): seq<string>
  {
    var found := Sort(Periods(mixed + dast, key), StrLe);
    if found == [] then [now] else found
  }

  /** The row of a period: its first rows, split and renamed. */
  function MonthRow(mixed: seq<Value>, dast: seq<Value>, lib: Library): string -> Value
  {
    (period: string) => LegacyRow(period, FirstRow(mixed, period, PeriodKeyOf(lib)),
                                  FirstRow(dast, period, PeriodKeyOf(lib)), lib)
  }

  function Rows(periods: seq<string>, row: string -> Value): (r: seq<Value>)
    ensures |r| == |periods| && forall i :: 0 <= i < |r| ==> r[i] == row(periods[i])
    decreases |periods|
  {
    if periods == [] then [] else Rows(periods[..|periods| - 1], row) + [row(periods[|periods| - 1])]
  }

  function MonthRows(mixed: seq<Value>, dast: seq<Value>, now: string, lib: Library): seq<Value>
  {
    Rows(PeriodsUsed(mixed, dast, now, PeriodKeyOf(lib)), MonthRow(mixed, dast, lib))
  }

  /** The loop over the periods: each takes its first row of either list. */
  method Migrate(mixed: seq<Value>, dast: seq<Value>, now: string, lib: Library) returns (rows: seq<Value>)
    ensures rows == MonthRows(mixed, dast, now, lib)
  {
    var periods, key := PeriodsUsed(mixed, dast, now, PeriodKeyOf(lib)), PeriodKeyOf(lib);
    ghost var row := MonthRow(mixed, dast, lib);
    rows := [];
    for i := 0 to |periods|
      invariant rows == Rows(periods[..i], row)
    {
      assert periods[..i + 1][..i] == periods[..i];
      var mixedRow, dastRow := FirstRow(mixed, periods[i], key), FirstRow(dast, periods[i], key);
      assert row(periods[i]) == LegacyRow(periods[i], mixedRow, dastRow, lib);
      rows := rows + [LegacyRow(periods[i], mixedRow, dastRow, lib)];
    }
    assert periods[..|periods|] == periods;
  }

  lemma StrLeIsOrder()
    ensures TotalPreorder(StrLe)
  {
    forall a, b ensures StrLe(a, b) || StrLe(b, a) {
      StrLeTotal(a, b);
    }
    forall a, b, c | StrLe(a, b) && StrLe(b, c) ensures StrLe(a, c) {
      StrLeTransitive(a, b, c);
    }
  }

  lemma SortedPeriods(rows: seq<Value>, key: Dating)
    ensures var found := Sort(Periods(rows, key), StrLe);
            && NoDuplicates(found) && SortedBy(found, StrLe)
            && forall p :: p in found <==> p in Periods(rows, key)
  {
    var periods := Periods(rows, key);
    PeriodsExact(rows, key);
    SortElements(periods, StrLe);
    StrLeIsOrder();
    SortSorts(periods, StrLe);
    RearrangedNoDuplicates(periods, Sort(periods, StrLe));
  }

  lemma PeriodsUsedExact(mixed: seq<Value>, dast: seq<Value>, now: string, key: Dating)
    ensures var periods := PeriodsUsed(mixed, dast, now, key);
            && periods != [] && NoDuplicates(periods) && SortedBy(periods, StrLe)
            && (forall p :: p in periods ==> p == now || p in Periods(mixed + dast, key))
            && (forall p :: p in Periods(mixed, key) || p in Periods(dast, key) ==> p in periods)
  {
    SortedPeriods(mixed + dast, key);
    PeriodsOfBoth(mixed, dast, key);
  }

  lemma PeriodsOfBoth(mixed: seq<Value>, dast: seq<Value>, key: Dating)
    ensures forall p :: p in Periods(mixed, key) || p in Periods(dast, key) ==> p in Periods(mixed + dast, key)
  {
    PeriodsExact(mixed + dast, key);
    PeriodsExact(mixed, key);
    PeriodsExact(dast, key);
    forall p | p in Periods(mixed, key) || p in Periods(dast, key) ensures p in Periods(mixed + dast, key) {
      if p in Periods(mixed, key) {
        var row :| row in mixed && key(row) == Some(p);
        assert row in mixed + dast;
      } else {
        var row :| row in dast && key(row) == Some(p);
        assert row in mixed + dast;
      }
    }
  }

  lemma PeriodsAreTrimmed(mixed: seq<Value>, dast: seq<Value>, now: string, lib: Library)
    requires now != "" && Trimmed(now)
    ensures forall p :: p in PeriodsUsed(mixed, dast, now, PeriodKeyOf(lib)) ==> p != "" && Trimmed(p)
  {
    var key := PeriodKeyOf(lib);
    PeriodsUsedExact(mixed, dast, now, key);
    forall p | p in PeriodsUsed(mixed, dast, now, key) ensures p != "" && Trimmed(p) {
      if p != now {
        PeriodsExact(mixed + dast, key);
        var row :| row in mixed + dast && key(row) == Some(p);
        KeysAreTrimmed(row, lib);
      }
    }
  }

  lemma RowsAreNormal(form: Form, periods: seq<string>, row: string -> Value)
    requires periods != [] && SortedBy(periods, StrLe)
    requires forall p :: p in periods ==> NormalRow(form, row(p)) && PeriodText(row(p)) == p
    ensures NormalRows(form, Arr(Rows(periods, row)))
  {
    var rows := Rows(periods, row);
    forall i, j | 0 <= i < j < |rows| ensures PeriodLe(rows[i], rows[j]) {
      assert StrLe(periods[i], periods[j]);
    }
  }

  /** The rows come out as the normaliser itself leaves rows. */
  lemma MonthRowsAreNormal(mixed: seq<Value>, dast: seq<Value>, now: string, lib: Library)
    requires now != "" && Trimmed(now)
    ensures NormalRows(FORM, Arr(MonthRows(mixed, dast, now, lib)))
  {
    var key, row := PeriodKeyOf(lib), MonthRow(mixed, dast, lib);
    var periods := PeriodsUsed(mixed, dast, now, key);
    PeriodsUsedExact(mixed, dast, now, key);
    PeriodsAreTrimmed(mixed, dast, now, lib);
    forall p | p in periods ensures NormalRow(FORM, row(p)) && PeriodText(row(p)) == p {
      LegacyRowIsNormal(p, FirstRow(mixed, p, key), FirstRow(dast, p, key), lib);
    }
    RowsAreNormal(FORM, periods, row);
  }

  // ---------------------------------------------------------------- conservation

  function CountIn(row: Value, bucket: string, column: string): int
  {
    var cell := Get(Get(row, bucket), column);
    if cell.Num? then cell.n else 0
  }

  function InBucket(bucket: string, column: string): Value -> int
  {
    (row: Value) => CountIn(row, bucket, column)
  }

  /** SAST and SCA together, in one bucket of a new row. */
  function StaticIn(bucket: string): Value -> int
  {
    (row: Value) => CountIn(row, bucket, "sast") + CountIn(row, bucket, "sca")
  }

  function OldCount(key: Option<string>, lib: Library): Value -> int
  {
    (row: Value) => CountUnder(row, key, lib)
  }

  lemma CountInRow(form: Form, period: string, cells: string -> Value, b: string, c: string, n: int)
    requires b in form.buckets && b != "period" && Get(cells(b), c) == Num(n)
    ensures CountIn(RowOf(form, period, cells), b, c) == n
  {
    CellOfRow(form, period, cells, b);
  }

  lemma LegacyColumn(c: string, combined: int, dynamic: int)
    requires c in FORM.columns
    ensures Get(LegacyCell(combined, dynamic), c) == Num(LegacyCount(c, combined, dynamic))
  {
  }

  lemma LegacyCountsAre(combined: int, dynamic: int)
    ensures LegacyCount("sast", combined, dynamic) == combined / 2
    ensures LegacyCount("sca", combined, dynamic) == combined - combined / 2
    ensures LegacyCount("dast", combined, dynamic) == dynamic
    ensures LegacyCount("total", combined, dynamic) == combined + dynamic
  {
    ColumnsDiffer();
  }

  lemma LegacyColumns()
    ensures "sast" in FORM.columns && "sca" in FORM.columns && "dast" in FORM.columns && "total" in FORM.columns
  {
  }

  lemma CountsInCell(period: string, cells: string -> Value, b: string, combined: int, dynamic: int)
    requires b in FORM.buckets && b != "period" && cells(b) == LegacyCell(combined, dynamic)
    ensures var row := RowOf(FORM, period, cells);
            CountIn(row, b, "sast") == combined / 2 && CountIn(row, b, "sca") == combined - combined / 2
            && CountIn(row, b, "dast") == dynamic && CountIn(row, b, "total") == combined + dynamic
  {
    LegacyColumns();
    LegacyCountsAre(combined, dynamic);
    LegacyColumn("sast", combined, dynamic);
    LegacyColumn("sca", combined, dynamic);
    LegacyColumn("dast", combined, dynamic);
    LegacyColumn("total", combined, dynamic);
    CountInRow(FORM, period, cells, b, "sast", combined / 2);
    CountInRow(FORM, period, cells, b, "sca", combined - combined / 2);
    CountInRow(FORM, period, cells, b, "dast", dynamic);
    CountInRow(FORM, period, cells, b, "total", combined + dynamic);
  }

  /** One new row: the combined counter in two nearly equal parts, the DAST counter, their sum. */
  lemma LegacyCounts(period: string, mixed: Value, dast: Value, lib: Library, b: string)
    requires b in FORM.buckets && b != "period"
    ensures var row := LegacyRow(period, mixed, dast, lib);
            && StaticIn(b)(row) == CountUnder(mixed, CombinedKey(b), lib)
            && InBucket(b, "dast")(row) == CountUnder(dast, DynamicKey(b), lib)
            && InBucket(b, "total")(row) == StaticIn(b)(row) + InBucket(b, "dast")(row)
            && 0 <= CountIn(row, b, "sca") - CountIn(row, b, "sast") <= 1
  {
    CountsInCell(period, LegacyCells(mixed, dast, lib), b, CountUnder(mixed, CombinedKey(b), lib),
                 CountUnder(dast, DynamicKey(b), lib));
  }

  lemma {:induction false} SumOfRows(periods: seq<string>, row: string -> Value, f: Value -> int, g: string -> int)
    requires forall p :: p in periods ==> f(row(p)) == g(p)
    ensures Sum(Rows(periods, row), f) == Sum(periods, g)
    decreases |periods|
  {
    if periods != [] {
      var init, p := periods[..|periods| - 1], periods[|periods| - 1];
      assert p in periods && forall q :: q in init ==> q in periods;
      SumOfRows(init, row, f, g);
      SumOne(Rows(init, row), row(p), f);
    }
  }

  lemma MonthCounts(period: string, mixed: seq<Value>, dast: seq<Value>, lib: Library, b: string)
    requires b in FORM.buckets && b != "period"
    ensures var row, key := MonthRow(mixed, dast, lib)(period), PeriodKeyOf(lib);
            && StaticIn(b)(row) == WeightAt(mixed, OldCount(CombinedKey(b), lib), key)(period)
            && InBucket(b, "dast")(row) == WeightAt(dast, OldCount(DynamicKey(b), lib), key)(period)
            && InBucket(b, "total")(row) == StaticIn(b)(row) + InBucket(b, "dast")(row)
  {
    var key := PeriodKeyOf(lib);
    LegacyCounts(period, FirstRow(mixed, period, key), FirstRow(dast, period, key), lib, b);
  }

  lemma RowsReadFirsts(periods: seq<string>, rows: seq<Value>, key: Dating, row: string -> Value, count: Value -> int,
                       weight: Value -> int)
    requires NoDuplicates(periods) && weight(NO_ROW) == 0 && forall p :: p in Periods(rows, key) ==> p in periods
    requires forall p :: p in periods ==> count(row(p)) == weight(FirstRow(rows, p, key))
    ensures Sum(Rows(periods, row), count) == Sum(Firsts(rows, key), weight)
  {
    SumOfRows(periods, row, count, WeightAt(rows, weight, key));
    PeriodsReadFirsts(periods, rows, weight, key);
  }

  lemma StaticRead(periods: seq<string>, mixed: seq<Value>, dast: seq<Value>, lib: Library, b: string)
    requires b in FORM.buckets && b != "period" && NoDuplicates(periods)
    requires forall p :: p in Periods(mixed, PeriodKeyOf(lib)) ==> p in periods
    ensures Sum(Rows(periods, MonthRow(mixed, dast, lib)), StaticIn(b))
              == Sum(Firsts(mixed, PeriodKeyOf(lib)), OldCount(CombinedKey(b), lib))
  {
    var key, row, weight := PeriodKeyOf(lib), MonthRow(mixed, dast, lib), OldCount(CombinedKey(b), lib);
    forall p | p in periods ensures StaticIn(b)(row(p)) == weight(FirstRow(mixed, p, key)) {
      MonthCounts(p, mixed, dast, lib, b);
    }
    RowsReadFirsts(periods, mixed, key, row, StaticIn(b), weight);
  }

  lemma DynamicRead(periods: seq<string>, mixed: seq<Value>, dast: seq<Value>, lib: Library, b: string)
    requires b in FORM.buckets && b != "period" && NoDuplicates(periods)
    requires forall p :: p in Periods(dast, PeriodKeyOf(lib)) ==> p in periods
    ensures Sum(Rows(periods, MonthRow(mixed, dast, lib)), InBucket(b, "dast"))
              == Sum(Firsts(dast, PeriodKeyOf(lib)), OldCount(DynamicKey(b), lib))
  {
    var key, row, weight := PeriodKeyOf(lib), MonthRow(mixed, dast, lib), OldCount(DynamicKey(b), lib);
    forall p | p in periods ensures InBucket(b, "dast")(row(p)) == weight(FirstRow(dast, p, key)) {
      MonthCounts(p, mixed, dast, lib, b);
    }
    RowsReadFirsts(periods, dast, key, row, InBucket(b, "dast"), weight);
  }

  /** The eight buckets in order. */
  function BucketAt(i: nat): string
    requires i < 8
  {
    KeyList(DURATIONS)[i]
  }

  lemma BucketIsOne(i: nat)
    requires i < 8
    ensures BucketAt(i) in FORM.buckets && BucketAt(i) != "period"
  {
    KeysAreDistinct(DURATIONS);
    DurationNames();
    assert BucketAt(i) in KeyList(DURATIONS);
    assert BucketName(BucketAt(i));
  }

  /** Splitting and renaming loses nothing: every new bucket holds, over all months, exactly
      the counter that moves to it, summed over the first row of each period. */
  lemma MigrationConserves(mixed: seq<Value>, dast: seq<Value>, now: string, lib: Library, i: nat)
    requires i < 8
    ensures var rows, key, b := MonthRows(mixed, dast, now, lib), PeriodKeyOf(lib), BucketAt(i);
            && Sum(rows, StaticIn(b)) == Sum(Firsts(mixed, key), OldCount(CombinedKey(b), lib))
            && Sum(rows, InBucket(b, "dast")) == Sum(Firsts(dast, key), OldCount(DynamicKey(b), lib))
            && Sum(rows, InBucket(b, "total")) == Sum(rows, StaticIn(b)) + Sum(rows, InBucket(b, "dast"))
  {
    var b := BucketAt(i);
    var periods := PeriodsUsed(mixed, dast, now, PeriodKeyOf(lib));
    BucketIsOne(i);
    PeriodsUsedExact(mixed, dast, now, PeriodKeyOf(lib));
    StaticRead(periods, mixed, dast, lib, b);
    DynamicRead(periods, mixed, dast, lib, b);
    TotalsOfRows(periods, mixed, dast, lib, b);
  }

  lemma TotalsOfRows(periods: seq<string>, mixed: seq<Value>, dast: seq<Value>, lib: Library, b: string)
    requires b in FORM.buckets && b != "period"
    ensures var rows := Rows(periods, MonthRow(mixed, dast, lib));
            Sum(rows, InBucket(b, "total")) == Sum(rows, StaticIn(b)) + Sum(rows, InBucket(b, "dast"))
  {
    var row := MonthRow(mixed, dast, lib);
    var rows := Rows(periods, row);
    forall v | v in rows ensures InBucket(b, "total")(v) == StaticIn(b)(v) + InBucket(b, "dast")(v) {
      var i :| 0 <= i < |rows| && rows[i] == v;
      MonthCounts(periods[i], mixed, dast, lib, b);
    }
    SumAdds(rows, InBucket(b, "total"), StaticIn(b), InBucket(b, "dast"));
  }

  /** A counter over all rows that have a period. */
  function Dated(key: Option<string>, lib: Library): Value -> int
  {
    Grouped(PeriodKeyOf(lib), OldCount(key, lib))
  }

  /** Exactly when the migration loses nothing that has a period: when what stands behind the
      first row of its period adds up to nothing. With one row a period it always does. */
  lemma MigrationIsComplete(mixed: seq<Value>, dast: seq<Value>, now: string, lib: Library, i: nat)
    requires i < 8
    ensures var rows, key, b := MonthRows(mixed, dast, now, lib), PeriodKeyOf(lib), BucketAt(i);
            && (Sum(rows, StaticIn(b)) == Sum(mixed, Dated(CombinedKey(b), lib)) <==>
                Sum(Shadowed(mixed, key), OldCount(CombinedKey(b), lib)) == 0)
            && (Sum(rows, InBucket(b, "dast")) == Sum(dast, Dated(DynamicKey(b), lib)) <==>
                Sum(Shadowed(dast, key), OldCount(DynamicKey(b), lib)) == 0)
            && (OneRowAPeriod(mixed, key) ==> Sum(rows, StaticIn(b)) == Sum(mixed, Dated(CombinedKey(b), lib)))
            && (OneRowAPeriod(dast, key) ==> Sum(rows, InBucket(b, "dast")) == Sum(dast, Dated(DynamicKey(b), lib)))
  {
    var b := BucketAt(i);
    MigrationConserves(mixed, dast, now, lib, i);
    FirstsAreAll(mixed, CombinedKey(b), lib);
    FirstsAreAll(dast, DynamicKey(b), lib);
  }

  lemma FirstsAreAll(rows: seq<Value>, old': Option<string>, lib: Library)
    ensures var key := PeriodKeyOf(lib);
            && (Sum(Firsts(rows, key), OldCount(old', lib)) == Sum(rows, Dated(old', lib)) <==>
                Sum(Shadowed(rows, key), OldCount(old', lib)) == 0)
            && (OneRowAPeriod(rows, key) ==> Sum(Shadowed(rows, key), OldCount(old', lib)) == 0)
  {
    FirstsAndShadowed(rows, OldCount(old', lib), PeriodKeyOf(lib));
    if OneRowAPeriod(rows, PeriodKeyOf(lib)) {
      NoneShadowed(rows, PeriodKeyOf(lib));
    }
  }

  // ---------------------------------------------------------------- every counter moves once

  const COMBINED := ["lt5", "m5_10", "m10_30", "m30_60", "m60_120", "gte120"]
  const DYNAMIC := ["lt30", "m30_60", "m60_120", "m120_240", "gte240"]

  lemma SumPrefix<T>(s: seq<T>, f: T -> int, i: nat)
    requires i < |s|
    ensures Sum(s[..i + 1], f) == Sum(s[..i], f) + f(s[i])
  {
    assert s[..i + 1] == s[..i] + [s[i]];
    SumOne(s[..i], s[i], f);
  }

  lemma SumEight<T>(s: seq<T>, f: T -> int)
    requires |s| == 8
    ensures Sum(s, f) == f(s[0]) + f(s[1]) + f(s[2]) + f(s[3]) + f(s[4]) + f(s[5]) + f(s[6]) + f(s[7])
  {
    SumPrefix(s, f, 0);
    SumPrefix(s, f, 1);
    SumPrefix(s, f, 2);
    SumPrefix(s, f, 3);
    SumPrefix(s, f, 4);
    SumPrefix(s, f, 5);
    SumPrefix(s, f, 6);
    SumPrefix(s, f, 7);
    assert s[..8] == s;
  }

  lemma SumSix<T>(s: seq<T>, f: T -> int)
    requires |s| == 6
    ensures Sum(s, f) == f(s[0]) + f(s[1]) + f(s[2]) + f(s[3]) + f(s[4]) + f(s[5])
  {
    SumPrefix(s, f, 0);
    SumPrefix(s, f, 1);
    SumPrefix(s, f, 2);
    SumPrefix(s, f, 3);
    SumPrefix(s, f, 4);
    SumPrefix(s, f, 5);
    assert s[..6] == s;
  }

  lemma SumFive<T>(s: seq<T>, f: T -> int)
    requires |s| == 5
    ensures Sum(s, f) == f(s[0]) + f(s[1]) + f(s[2]) + f(s[3]) + f(s[4])
  {
    SumPrefix(s, f, 0);
    SumPrefix(s, f, 1);
    SumPrefix(s, f, 2);
    SumPrefix(s, f, 3);
    SumPrefix(s, f, 4);
    assert s[..5] == s;
  }

  function Named(f: Option<string> -> int): string -> int
  {
    (k: string) => f(Some(k))
  }

  function Sent(f: Option<string> -> int, source: string -> Option<string>): string -> int
  {
    (b: string) => f(source(b))
  }

  lemma CombinedSources()
    ensures forall i :: 0 <= i < 5 ==> CombinedKey(BucketAt(i)) == Some(COMBINED[i])
    ensures CombinedKey(BucketAt(5)) == None && CombinedKey(BucketAt(6)) == None
              && CombinedKey(BucketAt(7)) == Some(COMBINED[5])
  {
  }

  lemma DynamicSources()
    ensures DynamicKey(BucketAt(0)) == None && DynamicKey(BucketAt(1)) == None
    ensures DynamicKey(BucketAt(2)) == Some(DYNAMIC[0]) && DynamicKey(BucketAt(3)) == Some(DYNAMIC[1])
    ensures DynamicKey(BucketAt(4)) == Some(DYNAMIC[2]) && DynamicKey(BucketAt(5)) == Some(DYNAMIC[3])
    ensures DynamicKey(BucketAt(6)) == None && DynamicKey(BucketAt(7)) == Some(DYNAMIC[4])
  {
  }

  /** Over the eight buckets, whatever is counted, each combined counter is taken once. */
  lemma CombinedOnce(f: Option<string> -> int, total: string -> int)
    requires f(None) == 0 && forall b :: b in KeyList(DURATIONS) ==> total(b) == Sent(f, CombinedKey)(b)
    ensures Sum(KeyList(DURATIONS), total) == Sum(COMBINED, Named(f))
  {
    SumSame(KeyList(DURATIONS), total, Sent(f, CombinedKey));
    CombinedSources();
    SumEight(KeyList(DURATIONS), Sent(f, CombinedKey));
    SumSix(COMBINED, Named(f));
  }

  lemma DynamicOnce(f: Option<string> -> int, total: string -> int)
    requires f(None) == 0 && forall b :: b in KeyList(DURATIONS) ==> total(b) == Sent(f, DynamicKey)(b)
    ensures Sum(KeyList(DURATIONS), total) == Sum(DYNAMIC, Named(f))
  {
    SumSame(KeyList(DURATIONS), total, Sent(f, DynamicKey));
    DynamicSources();
    SumEight(KeyList(DURATIONS), Sent(f, DynamicKey));
    SumFive(DYNAMIC, Named(f));
  }

  /** A counter over the rows read. */
  function Read(rows: seq<Value>, lib: Library): Option<string> -> int
  {
    (k: Option<string>) => Sum(Firsts(rows, PeriodKeyOf(lib)), OldCount(k, lib))
  }

  lemma NothingRead(rows: seq<Value>, lib: Library)
    ensures Read(rows, lib)(None) == 0
  {
    SumZero(Firsts(rows, PeriodKeyOf(lib)), OldCount(None, lib));
  }

  function StaticTotal(rows: seq<Value>): string -> int
  {
    (b: string) => Sum(rows, StaticIn(b))
  }

  function DynamicTotal(rows: seq<Value>): string -> int
  {
    (b: string) => Sum(rows, InBucket(b, "dast"))
  }

  lemma BucketMoves(mixed: seq<Value>, dast: seq<Value>, now: string, lib: Library, b: string)
    requires b in KeyList(DURATIONS)
    ensures var rows := MonthRows(mixed, dast, now, lib);
            && StaticTotal(rows)(b) == Sent(Read(mixed, lib), CombinedKey)(b)
            && DynamicTotal(rows)(b) == Sent(Read(dast, lib), DynamicKey)(b)
  {
    var i :| 0 <= i < 8 && KeyList(DURATIONS)[i] == b;
    MigrationConserves(mixed, dast, now, lib, i);
  }

  /** Every old counter moves once: over all months and all eight buckets together, SAST and
      SCA hold what the six combined counters held, and DAST what its five held. */
  lemma CountersMoveOnce(mixed: seq<Value>, dast: seq<Value>, now: string, lib: Library)
    ensures var rows := MonthRows(mixed, dast, now, lib);
            && Sum(KeyList(DURATIONS), StaticTotal(rows)) == Sum(COMBINED, Named(Read(mixed, lib)))
            && Sum(KeyList(DURATIONS), DynamicTotal(rows)) == Sum(DYNAMIC, Named(Read(dast, lib)))
  {
    var rows := MonthRows(mixed, dast, now, lib);
    forall b | b in KeyList(DURATIONS)
      ensures StaticTotal(rows)(b) == Sent(Read(mixed, lib), CombinedKey)(b)
      ensures DynamicTotal(rows)(b) == Sent(Read(dast, lib), DynamicKey)(b)
    {
      BucketMoves(mixed, dast, now, lib, b);
    }
    NothingRead(mixed, lib);
    NothingRead(dast, lib);
    CombinedOnce(Read(mixed, lib), StaticTotal(rows));
    DynamicOnce(Read(dast, lib), DynamicTotal(rows));
  }

  /** Every old counter moves to a bucket. */
  lemma CombinedMoves(key: string)
    requires key in {"lt5", "m5_10", "m10_30", "m30_60", "m60_120", "gte120"}
    ensures exists b :: b in FORM.buckets && CombinedKey(b) == Some(key)
  {
    if key == "gte120" {
      assert CombinedKey("gte300") == Some(key);
    } else {
      EdgeIsKey(DURATIONS, 0);
      EdgeIsKey(DURATIONS, 1);
      EdgeIsKey(DURATIONS, 2);
      EdgeIsKey(DURATIONS, 3);
      EdgeIsKey(DURATIONS, 4);
      assert CombinedKey(key) == Some(key);
    }
  }

  lemma DynamicMoves(key: string)
    requires key in {"lt30", "m30_60", "m60_120", "m120_240", "gte240"}
    ensures exists b :: b in FORM.buckets && DynamicKey(b) == Some(key)
  {
    if key == "gte240" {
      assert DynamicKey("gte300") == Some(key);
    } else if key == "lt30" {
      EdgeIsKey(DURATIONS, 2);
      assert DynamicKey("m10_30") == Some(key);
    } else {
      SameNameMoves(key);
    }
  }

  lemma SameNameMoves(key: string)
    requires key in {"m30_60", "m60_120", "m120_240"}
    ensures key in FORM.buckets && DynamicKey(key) == Some(key)
  {
    EdgeIsKey(DURATIONS, 3);
    EdgeIsKey(DURATIONS, 4);
    EdgeIsKey(DURATIONS, 5);
  }
}
