/** Period series: scans and issues counted per week, month and year, per bucket and column.
    The duration, size, page and severity sections all run the same loop over entries. */
module Series {
  import opened Wrappers
  import opened Text
  import opened Sorting
  import opened Counting
  import opened Domain

  datatype Period = Week | Month | Year

  /** What one scan or issue adds: to which bucket, and how much to which columns. */
  datatype Entry = Entry(when: Option<Stamp>, bucket: string, adds: map<string, int>)

  type Cells = map<string, map<string, int>>

  /** One row of a series: a period and its buckets, each a small dictionary of columns. */
  datatype Row = Row(period: string, cells: Cells)

  // ---------------------------------------------------------------- period keys

  function Digits(n: nat): (r: string)
    ensures r != "" && forall i :: 0 <= i < |r| ==> '0' <= r[i] <= '9'
  {
    var last := [('0' as int + n % 10) as char];
    if n < 10 then last else Digits(n / 10) + last
  }

  function TwoDigits(n: nat): string
  {
    if n < 10 then "0" + Digits(n) else Digits(n)
  }

  function YearText(s: Stamp): string
  {
    Digits(s.year)
  }

  /** The key of the period an instant lies in; nothing for a date that does not parse. */
  function PeriodKey(when: Option<Stamp>, period: Period): Option<string>
  {
    match when
    case None => None
    case Some(s) =>
      match period
      case Year => Some(YearText(s))
      case Month => Some(YearText(s) + "-" + TwoDigits(s.month))
      case Week => Some(Digits(s.isoYear) + "-W" + TwoDigits(s.isoWeek))
  }

  lemma PeriodKeyIsTrimmed(when: Option<Stamp>, period: Period)
    requires when.Some?
    ensures var k := PeriodKey(when, period).value; k != "" && Trimmed(k)
  {
  }

  function Keyed(period: Period): Entry -> Option<string>
  {
    (e: Entry) => PeriodKey(e.when, period)
  }

  function Weight(bucket: string, column: string): Entry -> int
  {
    (e: Entry) => if e.bucket == bucket && column in e.adds then e.adds[column] else 0
  }

  function CellOf(cells: Cells, bucket: string, column: string): int
  {
    if bucket in cells && column in cells[bucket] then cells[bucket][column] else 0
  }

  function RowCell(bucket: string, column: string): Row -> int
  {
    (r: Row) => CellOf(r.cells, bucket, column)
  }

  function RowPeriod(): Row -> string
  {
    (r: Row) => r.period
  }

  /** The buckets and columns of a section. */
  datatype Shape = Shape(buckets: set<string>, columns: set<string>)

  predicate Shaped(cells: Cells, shape: Shape)
  {
    cells.Keys == shape.buckets && forall b :: b in cells ==> cells[b].Keys == shape.columns
  }

  predicate Fits(e: Entry, shape: Shape)
  {
    e.bucket in shape.buckets && e.adds.Keys <= shape.columns
  }

  function EmptyCells(shape: Shape): (c: Cells)
    ensures Shaped(c, shape)
  {
    map b | b in shape.buckets :: map c | c in shape.columns :: 0
  }

  /** The increments of one entry in its row. */
  function Bumped(cells: Cells, e: Entry): Cells
    requires e.bucket in cells
  {
    var cell := cells[e.bucket];
    cells[e.bucket := map c | c in cell :: cell[c] + if c in e.adds then e.adds[c] else 0]
  }

  // ---------------------------------------------------------------- the loop

  /** One row a period that occurs, in which every cell is the sum over its entries. */
  ghost predicate Tabulated(rows: seq<Row>, entries: seq<Entry>, period: Period, shape: Shape)
  {
    && (forall i, j :: 0 <= i < j < |rows| ==> rows[i].period != rows[j].period)
    && (forall e :: e in entries && e.when.Some? ==>
        exists r :: r in rows && Some(r.period) == PeriodKey(e.when, period))
    && (forall r :: r in rows ==> RowExact(r, entries, period, shape))
  }

  ghost predicate RowExact(r: Row, entries: seq<Entry>, period: Period, shape: Shape)
  {
    && Shaped(r.cells, shape)
    && r.period != "" && Trimmed(r.period)
    && forall b, c {:trigger CellOf(r.cells, b, c)} ::
        CellOf(r.cells, b, c) == Sum(entries, Member(Keyed(period), Weight(b, c), r.period))
  }

  lemma EmptyRowExact(entries: seq<Entry>, period: Period, shape: Shape, key: string)
    requires key != "" && Trimmed(key)
    requires forall e :: e in entries ==> PeriodKey(e.when, period) != Some(key)
    ensures RowExact(Row(key, EmptyCells(shape)), entries, period, shape)
  {
    forall b, c ensures CellOf(EmptyCells(shape), b, c) == Sum(entries, Member(Keyed(period), Weight(b, c), key)) {
      SumZero(entries, Member(Keyed(period), Weight(b, c), key));
    }
  }

  lemma BumpedCell(cells: Cells, e: Entry, shape: Shape, b: string, c: string)
    requires Shaped(cells, shape) && Fits(e, shape)
    ensures Shaped(Bumped(cells, e), shape)
    ensures CellOf(Bumped(cells, e), b, c) == CellOf(cells, b, c) + Weight(b, c)(e)
  {
  }

  lemma RowStep(r: Row, entries: seq<Entry>, period: Period, shape: Shape, e: Entry)
    requires RowExact(r, entries, period, shape) && Fits(e, shape)
    ensures RowExact(if Some(r.period) == PeriodKey(e.when, period) then r.(cells := Bumped(r.cells, e))
                     else r, entries + [e], period, shape)
  {
    var r' := if Some(r.period) == PeriodKey(e.when, period) then r.(cells := Bumped(r.cells, e)) else r;
    forall b, c ensures CellOf(r'.cells, b, c) == Sum(entries + [e], Member(Keyed(period), Weight(b, c), r.period)) {
      SumOne(entries, e, Member(Keyed(period), Weight(b, c), r.period));
      BumpedCell(r.cells, e, shape, b, c);
    }
    BumpedCell(r.cells, e, shape, "", "");
  }

  lemma WithRow(rows: seq<Row>, entries: seq<Entry>, period: Period, shape: Shape, key: string)
    requires Tabulated(rows, entries, period, shape) && key != "" && Trimmed(key)
    requires forall j :: 0 <= j < |rows| ==> rows[j].period != key
    ensures Tabulated(rows + [Row(key, EmptyCells(shape))], entries, period, shape)
  {
    var rows' := rows + [Row(key, EmptyCells(shape))];
    forall e | e in entries ensures PeriodKey(e.when, period) != Some(key)
      && (e.when.Some? ==> exists r :: r in rows' && Some(r.period) == PeriodKey(e.when, period))
    {
      if e.when.Some? {
        var r :| r in rows && Some(r.period) == PeriodKey(e.when, period);
        assert r in rows';
      }
    }
    EmptyRowExact(entries, period, shape, key);
  }

  lemma BumpRow(rows: seq<Row>, entries: seq<Entry>, period: Period, shape: Shape, e: Entry, i: nat)
    requires Tabulated(rows, entries, period, shape) && Fits(e, shape) && e.when.Some?
    requires i < |rows| && Some(rows[i].period) == PeriodKey(e.when, period)
    ensures Shaped(rows[i].cells, shape)
    ensures Tabulated(rows[i := rows[i].(cells := Bumped(rows[i].cells, e))], entries + [e], period, shape)
  {
    assert rows[i] in rows;
    var rows' := rows[i := rows[i].(cells := Bumped(rows[i].cells, e))];
    forall r | r in rows' ensures RowExact(r, entries + [e], period, shape) {
      var k :| 0 <= k < |rows'| && rows'[k] == r;
      assert rows[k] in rows;
      RowStep(rows[k], entries, period, shape, e);
    }
    forall x | x in entries + [e] && x.when.Some?
      ensures exists r :: r in rows' && Some(r.period) == PeriodKey(x.when, period)
    {
      if x == e {
        assert rows'[i] in rows';
      } else {
        var r :| r in rows && Some(r.period) == PeriodKey(x.when, period);
        var k :| 0 <= k < |rows| && rows[k] == r;
        assert rows'[k] in rows' && rows'[k].period == r.period;
      }
    }
  }

  lemma Undated(rows: seq<Row>, entries: seq<Entry>, period: Period, shape: Shape, e: Entry)
    requires Tabulated(rows, entries, period, shape) && Fits(e, shape) && e.when.None?
    ensures Tabulated(rows, entries + [e], period, shape)
  {
    forall r | r in rows ensures RowExact(r, entries + [e], period, shape) {
      RowStep(r, entries, period, shape, e);
    }
  }

  predicate EarlierFirst(a: Row, b: Row)
  {
    StrLe(a.period, b.period)
  }

  lemma EarlierFirstIsPreorder()
    ensures TotalPreorder(EarlierFirst)
  {
    forall a, b ensures EarlierFirst(a, b) || EarlierFirst(b, a) {
      StrLeTotal(a.period, b.period);
    }
    forall a, b, c | EarlierFirst(a, b) && EarlierFirst(b, c) ensures EarlierFirst(a, c) {
      StrLeTransitive(a.period, b.period, c.period);
    }
  }

  /** A whole series: a row for each period that occurs, in the order of the periods, or one
      empty row for the current period if nothing has a date. */
  ghost predicate Charted(rows: seq<Row>, entries: seq<Entry>, period: Period, shape: Shape, current: string)
  {
    && Tabulated(rows, entries, period, shape)
    && rows != [] && SortedBy(rows, EarlierFirst)
    && ((forall e :: e in entries ==> e.when.None?) ==> rows == [Row(current, EmptyCells(shape))])
    && ((exists e :: e in entries && e.when.Some?) ==>
          forall r :: r in rows ==> exists e :: e in entries && PeriodKey(e.when, period) == Some(r.period))
  }

  /** One series: the counting loop, the row for the current period, the sorting. */
  method BuildSeries(entries: seq<Entry>, period: Period, shape: Shape, current: string) returns (rows: seq<Row>)
    requires forall e :: e in entries ==> Fits(e, shape)
    requires current != "" && Trimmed(current)
    ensures Charted(rows, entries, period, shape, current)
  {
    rows := [];
    for i := 0 to |entries|
      invariant Tabulated(rows, entries[..i], period, shape)
      invariant forall r :: r in rows ==> exists e :: e in entries[..i] && PeriodKey(e.when, period) == Some(r.period)
    {
      assert entries[..i + 1] == entries[..i] + [entries[i]];
      rows := AddEntry(rows, entries[i], period, shape, entries[..i]);
    }
    assert entries[..|entries|] == entries;
    RowsNeedDates(rows, entries, period);
    if rows == [] {
      rows := [Row(current, EmptyCells(shape))];
      NoDates(entries, period, shape, current);
    }
    SortKeepsTable(rows, entries, period, shape);
    rows := Sort(rows, EarlierFirst);
  }

  /** One pass of the loop: `setdefault`, then the increments. */
  method AddEntry(rows: seq<Row>, e: Entry, period: Period, shape: Shape, ghost entries: seq<Entry>)
    returns (rows': seq<Row>)
    requires Tabulated(rows, entries, period, shape) && Fits(e, shape)
    requires forall r :: r in rows ==> exists x :: x in entries && PeriodKey(x.when, period) == Some(r.period)
    ensures Tabulated(rows', entries + [e], period, shape)
    ensures forall r :: r in rows' ==> exists x :: x in entries + [e] && PeriodKey(x.when, period) == Some(r.period)
  {
    rows' := rows;
    var key := PeriodKey(e.when, period);
    if key.None? {
      Undated(rows, entries, period, shape, e);
      return;
    }
    PeriodKeyIsTrimmed(e.when, period);
    var k := IndexOf(rows', RowPeriod(), key.value);
    if k == |rows'| {
      WithRow(rows', entries, period, shape, key.value);
      rows' := rows' + [Row(key.value, EmptyCells(shape))];
    }
    BumpRow(rows', entries, period, shape, e, k);
    ghost var before := rows';
    rows' := rows'[k := rows'[k].(cells := Bumped(rows'[k].cells, e))];
    RowsHaveEntries(rows, before, rows', entries, e, period, k);
  }

  lemma RowsHaveEntries(rows: seq<Row>, before: seq<Row>, rows': seq<Row>, entries: seq<Entry>, e: Entry,
                        period: Period, k: nat)
    requires forall r :: r in rows ==> exists x :: x in entries && PeriodKey(x.when, period) == Some(r.period)
    requires |rows| <= |before| == |rows'| <= |rows| + 1 && k < |before| && (|before| > |rows| ==> k == |rows|)
    requires forall i :: 0 <= i < |rows| ==> before[i] == rows[i]
    requires Some(before[k].period) == PeriodKey(e.when, period)
    requires forall i :: 0 <= i < |before| ==> rows'[i].period == before[i].period
    ensures forall r :: r in rows' ==> exists x :: x in entries + [e] && PeriodKey(x.when, period) == Some(r.period)
  {
    forall r | r in rows' ensures exists x :: x in entries + [e] && PeriodKey(x.when, period) == Some(r.period) {
      var i :| 0 <= i < |rows'| && rows'[i] == r;
      if i == k {
        assert e in entries + [e];
      } else {
        assert rows[i] in rows;
        var x :| x in entries && PeriodKey(x.when, period) == Some(rows[i].period);
        assert x in entries + [e];
      }
    }
  }

  lemma RowsNeedDates(rows: seq<Row>, entries: seq<Entry>, period: Period)
    requires forall r :: r in rows ==> exists e :: e in entries && PeriodKey(e.when, period) == Some(r.period)
    ensures (forall e :: e in entries ==> e.when.None?) ==> rows == []
  {
    if rows != [] {
      assert rows[0] in rows;
      var e :| e in entries && PeriodKey(e.when, period) == Some(rows[0].period);
      assert e.when.Some?;
    }
  }

  lemma NoDates(entries: seq<Entry>, period: Period, shape: Shape, current: string)
    requires Tabulated([], entries, period, shape) && current != "" && Trimmed(current)
    ensures Tabulated([Row(current, EmptyCells(shape))], entries, period, shape)
    ensures forall e :: e in entries ==> e.when.None?
  {
    forall e | e in entries ensures e.when.None? {
    }
    EmptyRowExact(entries, period, shape, current);
  }

  lemma SortedPeriodsDistinct(rows: seq<Row>)
    requires forall i, j :: 0 <= i < j < |rows| ==> rows[i].period != rows[j].period
    ensures var sorted := Sort(rows, EarlierFirst);
            && (forall i, j :: 0 <= i < j < |sorted| ==> sorted[i].period != sorted[j].period)
            && (forall r :: r in sorted <==> r in rows)
            && SortedBy(sorted, EarlierFirst)
  {
    var sorted := Sort(rows, EarlierFirst);
    SortElements(rows, EarlierFirst);
    EarlierFirstIsPreorder();
    SortSorts(rows, EarlierFirst);
    RearrangedNoDuplicates(rows, sorted);
    forall i, j | 0 <= i < j < |sorted| ensures sorted[i].period != sorted[j].period {
      assert sorted[i] in rows && sorted[j] in rows;
    }
  }

  lemma SortKeepsTable(rows: seq<Row>, entries: seq<Entry>, period: Period, shape: Shape)
    requires Tabulated(rows, entries, period, shape)
    ensures var sorted := Sort(rows, EarlierFirst);
            && Tabulated(sorted, entries, period, shape) && SortedBy(sorted, EarlierFirst)
            && forall r :: r in sorted <==> r in rows
    ensures |rows| == 1 ==> Sort(rows, EarlierFirst) == rows
  {
    var sorted := Sort(rows, EarlierFirst);
    SortedPeriodsDistinct(rows);
    forall e | e in entries && e.when.Some?
      ensures exists r :: r in sorted && Some(r.period) == PeriodKey(e.when, period)
    {
      var r :| r in rows && Some(r.period) == PeriodKey(e.when, period);
      assert r in sorted;
    }
  }

  lemma HasRow(rows: seq<Row>, entries: seq<Entry>, period: Period, shape: Shape, key: string)
    requires Tabulated(rows, entries, period, shape)
    requires exists e :: e in entries && PeriodKey(e.when, period) == Some(key)
    ensures exists r :: r in rows && r.period == key
  {
    var e :| e in entries && PeriodKey(e.when, period) == Some(key);
    var r :| r in rows && Some(r.period) == PeriodKey(e.when, period);
  }

  lemma HasEntry(rows: seq<Row>, entries: seq<Entry>, period: Period, shape: Shape, current: string, r: Row)
    requires Charted(rows, entries, period, shape, current) && r in rows
    ensures (exists e :: e in entries && e.when.Some?) ==>
              exists e :: e in entries && PeriodKey(e.when, period) == Some(r.period)
  {
  }

  /** The rows of a series: one for each period of an entry, or the current one alone. */
  lemma ChartedPeriods(rows: seq<Row>, entries: seq<Entry>, period: Period, shape: Shape, current: string, key: string)
    requires Charted(rows, entries, period, shape, current)
    ensures (exists e :: e in entries && e.when.Some?) ==>
              ((exists r :: r in rows && r.period == key) <==>
               exists e :: e in entries && PeriodKey(e.when, period) == Some(key))
    ensures (forall e :: e in entries ==> e.when.None?) ==> |rows| == 1 && rows[0].period == current
  {
    if exists e :: e in entries && PeriodKey(e.when, period) == Some(key) {
      HasRow(rows, entries, period, shape, key);
    }
    if r :| r in rows && r.period == key {
      HasEntry(rows, entries, period, shape, current, r);
    }
  }

  // ---------------------------------------------------------------- one series for one list of entries

  lemma SameRow(a: Row, b: Row, entries: seq<Entry>, period: Period, shape: Shape)
    requires RowExact(a, entries, period, shape) && RowExact(b, entries, period, shape) && a.period == b.period
    ensures a == b
  {
    forall k | k in shape.buckets ensures a.cells[k] == b.cells[k] {
      forall c | c in shape.columns ensures a.cells[k][c] == b.cells[k][c] {
        assert CellOf(a.cells, k, c) == CellOf(b.cells, k, c);
      }
    }
  }

  predicate DistinctPeriods(rows: seq<Row>)
  {
    forall i, j :: 0 <= i < j < |rows| ==> rows[i].period != rows[j].period
  }

  lemma SameFirst(a: seq<Row>, b: seq<Row>)
    requires a != [] && b != [] && SortedBy(a, EarlierFirst) && SortedBy(b, EarlierFirst) && DistinctPeriods(a)
    requires a[0] in b && b[0] in a
    ensures a[0] == b[0]
  {
    SortedHeadIsLeast(a, b[0], EarlierFirst);
    SortedHeadIsLeast(b, a[0], EarlierFirst);
    StrLeTotal(a[0].period, b[0].period);
  }

  lemma {:induction false} SameRows(a: seq<Row>, b: seq<Row>)
    requires SortedBy(a, EarlierFirst) && SortedBy(b, EarlierFirst) && DistinctPeriods(a)
    requires multiset(a) == multiset(b)
    ensures a == b
  {
    assert |a| == |multiset(a)| == |multiset(b)| == |b|;
    if a != [] {
      assert a[0] in multiset(a) && b[0] in multiset(b);
      SameFirst(a, b);
      TailElements(a);
      TailElements(b);
      SameRows(a[1..], b[1..]);
      assert a == [a[0]] + a[1..] && b == [b[0]] + b[1..];
    }
  }

  lemma SameElements(a: seq<Row>, b: seq<Row>)
    requires NoDuplicates(a) && NoDuplicates(b) && forall r :: r in a <==> r in b
    ensures multiset(a) == multiset(b)
  {
    forall r ensures multiset(a)[r] == multiset(b)[r] {
      OnceEach(a, r);
      OnceEach(b, r);
      assert (r in a <==> r in multiset(a)) && (r in b <==> r in multiset(b));
    }
  }

  lemma RowInBoth(r: Row, a: seq<Row>, b: seq<Row>, entries: seq<Entry>, period: Period, shape: Shape, current: string)
    requires Charted(a, entries, period, shape, current) && Charted(b, entries, period, shape, current) && r in a
    ensures r in b
  {
    if exists e :: e in entries && e.when.Some? {
      var e :| e in entries && PeriodKey(e.when, period) == Some(r.period);
      var q :| q in b && Some(q.period) == PeriodKey(e.when, period);
      SameRow(r, q, entries, period, shape);
    }
  }

  /** The entries settle the series: there is one, whoever builds it. */
  lemma ChartedOnce(a: seq<Row>, b: seq<Row>, entries: seq<Entry>, period: Period, shape: Shape, current: string)
    requires Charted(a, entries, period, shape, current) && Charted(b, entries, period, shape, current)
    ensures a == b
  {
    forall r ensures r in a <==> r in b {
      if r in a { RowInBoth(r, a, b, entries, period, shape, current); }
      if r in b { RowInBoth(r, b, a, entries, period, shape, current); }
    }
    SameElements(a, b);
    SameRows(a, b);
  }
}
