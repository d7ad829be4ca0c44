/** Conservation laws of the period series: rows and entries, periods, years and their months,
    totals and their parts. */
module SeriesLaws {
  import opened Wrappers
  import opened Counting
  import opened Domain
  import opened Series
  import opened Text

  import Timestamps

  /** What an entry with a date adds to a cell. */
  function Dated(bucket: string, column: string): Entry -> int
  {
    (e: Entry) => if e.when.Some? then Weight(bucket, column)(e) else 0
  }

  /** The grand total of every cell is what the dated entries add to it. */
  lemma SeriesConserves(rows: seq<Row>, entries: seq<Entry>, period: Period, shape: Shape, b: string, c: string)
    requires Tabulated(rows, entries, period, shape)
    ensures Sum(rows, RowCell(b, c)) == Sum(entries, Dated(b, c))
  {
    assert Groups(rows, RowPeriod(), RowCell(b, c), entries, Keyed(period), Weight(b, c)) by {
      forall r | r in rows ensures RowCell(b, c)(r) == Sum(entries, Member(Keyed(period), Weight(b, c), r.period)) {
        assert RowExact(r, entries, period, shape);
        assert CellOf(r.cells, b, c) == Sum(entries, Member(Keyed(period), Weight(b, c), r.period));
      }
    }
    PartitionLaw(rows, RowPeriod(), RowCell(b, c), entries, Keyed(period), Weight(b, c));
    SumSame(entries, Grouped(Keyed(period), Weight(b, c)), Dated(b, c));
  }

  /** Week, month and year series of the same entries carry the same grand total per bucket
      and column. */
  lemma PeriodsAgree(weeks: seq<Row>, months: seq<Row>, years: seq<Row>, entries: seq<Entry>, shape: Shape, b: string,
                     c: string)
    requires Tabulated(weeks, entries, Week, shape) && Tabulated(months, entries, Month, shape)
              && Tabulated(years, entries, Year, shape)
    ensures Sum(weeks, RowCell(b, c)) == Sum(months, RowCell(b, c)) == Sum(years, RowCell(b, c))
              == Sum(entries, Dated(b, c))
  {
    SeriesConserves(weeks, entries, Week, shape, b, c);
    SeriesConserves(months, entries, Month, shape, b, c);
    SeriesConserves(years, entries, Year, shape, b, c);
  }

  // ---------------------------------------------------------------- years and their months

  /** The year a month key starts with. */
  function YearPart(month: string): string
  {
    if month == "" || month[0] == '-' then "" else [month[0]] + YearPart(month[1..])
  }

  lemma {:induction false} YearPartOf(year: string, rest: string)
    requires forall i :: 0 <= i < |year| ==> year[i] != '-'
    ensures YearPart(year + "-" + rest) == year
    decreases |year|
  {
    var s := year + "-" + rest;
    if year != "" {
      assert s[0] == year[0] && s[1..] == year[1..] + "-" + rest;
      YearPartOf(year[1..], rest);
    }
  }

  /** A month row as part of a year: its cell if it lies there. */
  function InYear(year: string, b: string, c: string): Row -> int
  {
    (r: Row) => if YearPart(r.period) == year then CellOf(r.cells, b, c) else 0
  }

  function WeightInYear(year: string, b: string, c: string): Entry -> int
  {
    (e: Entry) => if PeriodKey(e.when, Year) == Some(year) then Weight(b, c)(e) else 0
  }

  lemma MonthHasYear(e: Entry)
    requires e.when.Some?
    ensures PeriodKey(e.when, Year) == Some(YearPart(PeriodKey(e.when, Month).value))
  {
    var s := e.when.value;
    YearPartOf(YearText(s), TwoDigits(s.month));
  }

  lemma MonthCellInYear(r: Row, entries: seq<Entry>, shape: Shape, year: string, b: string, c: string)
    requires RowExact(r, entries, Month, shape)
    ensures InYear(year, b, c)(r) == Sum(entries, Member(Keyed(Month), WeightInYear(year, b, c), r.period))
  {
    var inYear, all := Member(Keyed(Month), WeightInYear(year, b, c), r.period),
        Member(Keyed(Month), Weight(b, c), r.period);
    assert CellOf(r.cells, b, c) == Sum(entries, all);
    forall e | e in entries ensures inYear(e) == if YearPart(r.period) == year then all(e) else 0 {
      if e.when.Some? { MonthHasYear(e); }
    }
    if YearPart(r.period) == year {
      SumSame(entries, inYear, all);
    } else {
      SumZero(entries, inYear);
    }
  }

  /** Each year row is the sum of the month rows of that year. */
  lemma YearIsSumOfMonths(months: seq<Row>, years: seq<Row>, entries: seq<Entry>, shape: Shape, y: Row, b: string,
                          c: string)
    requires Tabulated(months, entries, Month, shape) && Tabulated(years, entries, Year, shape) && y in years
    ensures CellOf(y.cells, b, c) == Sum(months, InYear(y.period, b, c))
  {
    var w := WeightInYear(y.period, b, c);
    forall r | r in months ensures InYear(y.period, b, c)(r) == Sum(entries, Member(Keyed(Month), w, RowPeriod()(r))) {
      MonthCellInYear(r, entries, shape, y.period, b, c);
    }
    PartitionLaw(months, RowPeriod(), InYear(y.period, b, c), entries, Keyed(Month), w);
    assert RowExact(y, entries, Year, shape);
    assert CellOf(y.cells, b, c) == Sum(entries, Member(Keyed(Year), Weight(b, c), y.period));
    SumSame(entries, Grouped(Keyed(Month), w), Member(Keyed(Year), Weight(b, c), y.period));
  }

  // ---------------------------------------------------------------- totals

  /** The columns of an entry add up to its total. */
  ghost predicate TotalOf(e: Entry, parts: seq<string>)
  {
    forall b: string :: Weight(b, "total")(e) == Sum(parts, PartOf(e, b))
  }

  function PartOf(e: Entry, b: string): string -> int
  {
    (c: string) => Weight(b, c)(e)
  }

  function PartCell(r: Row, b: string): string -> int
  {
    (c: string) => CellOf(r.cells, b, c)
  }

  function PartSum(entries: seq<Entry>, period: Period, key: string, b: string): string -> int
  {
    (c: string) => Sum(entries, Member(Keyed(period), Weight(b, c), key))
  }

  lemma {:induction false} TotalsDistribute(entries: seq<Entry>, period: Period, key: string, b: string,
                                            parts: seq<string>)
    requires forall e :: e in entries ==> TotalOf(e, parts)
    ensures Sum(entries, Member(Keyed(period), Weight(b, "total"), key)) == Sum(parts, PartSum(entries, period, key, b))
    decreases |entries|
  {
    if entries == [] {
      SumZero(parts, PartSum([], period, key, b));
    } else {
      var init, e := entries[..|entries| - 1], entries[|entries| - 1];
      assert e in entries && forall x :: x in init ==> x in entries;
      TotalsDistribute(init, period, key, b, parts);
      var here := if PeriodKey(e.when, period) == Some(key) then PartOf(e, b) else NoPart();
      assert Sum(parts, here) == Member(Keyed(period), Weight(b, "total"), key)(e) by {
        assert TotalOf(e, parts);
        if here == NoPart() { SumZero(parts, NoPart()); }
      }
      SumAdds(parts, PartSum(entries, period, key, b), PartSum(init, period, key, b), here);
    }
  }

  function NoPart(): string -> int
  {
    (c: string) => 0
  }

  /** In every row and bucket the total is the sum of its parts. */
  lemma TotalsArePartSums(rows: seq<Row>, entries: seq<Entry>, period: Period, shape: Shape, parts: seq<string>,
                          r: Row, b: string)
    requires Tabulated(rows, entries, period, shape) && r in rows
    requires forall e :: e in entries ==> TotalOf(e, parts)
    ensures CellOf(r.cells, b, "total") == Sum(parts, PartCell(r, b))
  {
    assert RowExact(r, entries, period, shape);
    TotalsDistribute(entries, period, r.period, b, parts);
    assert CellOf(r.cells, b, "total") == Sum(entries, Member(Keyed(period), Weight(b, "total"), r.period));
    forall c | c in parts ensures PartCell(r, b)(c) == PartSum(entries, period, r.period, b)(c) {
      assert CellOf(r.cells, b, c) == Sum(entries, Member(Keyed(period), Weight(b, c), r.period));
    }
    SumSame(parts, PartCell(r, b), PartSum(entries, period, r.period, b));
  }

  // ---------------------------------------------------------------- rows come in the order of time

  lemma FourDigits(n: nat)
    requires 1000 <= n <= 9999
    ensures Digits(n) == Timestamps.Pad(n, 4)
  {
    assert Digits(n / 1000) == Timestamps.Pad(n / 1000, 1);
    assert Digits(n / 100) == Timestamps.Pad(n / 100, 2);
    assert Digits(n / 10) == Timestamps.Pad(n / 10, 3);
  }

  lemma TwoAsPadded(n: nat)
    requires n <= 99
    ensures TwoDigits(n) == Timestamps.Pad(n, 2)
  {
    var tens, ones := [Timestamps.Digit(n / 10)], [Timestamps.Digit(n % 10)];
    assert Timestamps.Pad(n / 10, 1) == Timestamps.Pad(n / 10 / 10, 0) + tens == tens;
    assert Timestamps.Pad(n, 2) == tens + ones;
    if n < 10 {
      assert Digits(n) == ones && tens == "0";
    } else {
      assert Digits(n / 10) == tens && Digits(n) == Digits(n / 10) + ones;
    }
  }

  lemma PaddedPairs(y: nat, m: nat, z: nat, n: nat, sep: string)
    requires y <= 9999 && z <= 9999 && m <= 99 && n <= 99
    ensures StrLe(Timestamps.Pad(y, 4) + sep + Timestamps.Pad(m, 2), Timestamps.Pad(z, 4) + sep + Timestamps.Pad(n, 2))
            <==> y < z || (y == z && m <= n)
  {
    assert Timestamps.Pow10(4) == 10_000 && Timestamps.Pow10(2) == 100 by { assert Timestamps.Pow10(2) == 100; }
    var a, b, p, q := Timestamps.Pad(y, 4), Timestamps.Pad(z, 4), Timestamps.Pad(m, 2), Timestamps.Pad(n, 2);
    Timestamps.PadOrder(y, z, 4);
    Timestamps.PadOrder(m, n, 2);
    assert a + sep + p == a + (sep + p) && b + sep + q == b + (sep + q);
    StrLeHead(a, b, sep + p, sep + q);
    StrLeHead(sep, sep, p, q);
  }

  /** The text order of period keys is the order of time: months by year and month, weeks by
      their ISO year and week, years by themselves. */
  lemma KeysFollowTime(s: Stamp, t: Stamp)
    requires 1000 <= s.year <= 9999 && 1000 <= t.year <= 9999 && 1000 <= s.isoYear <= 9999 && 1000 <= t.isoYear <= 9999
    requires s.month <= 12 && t.month <= 12 && s.isoWeek <= 53 && t.isoWeek <= 53
    ensures StrLe(PeriodKey(Some(s), Month).value, PeriodKey(Some(t), Month).value) <==>
              s.year < t.year || (s.year == t.year && s.month <= t.month)
    ensures StrLe(PeriodKey(Some(s), Week).value, PeriodKey(Some(t), Week).value) <==>
              s.isoYear < t.isoYear || (s.isoYear == t.isoYear && s.isoWeek <= t.isoWeek)
    ensures StrLe(PeriodKey(Some(s), Year).value, PeriodKey(Some(t), Year).value) <==> s.year <= t.year
  {
    FourDigits(s.year);
    FourDigits(t.year);
    FourDigits(s.isoYear);
    FourDigits(t.isoYear);
    TwoAsPadded(s.month);
    TwoAsPadded(t.month);
    TwoAsPadded(s.isoWeek);
    TwoAsPadded(t.isoWeek);
    PaddedPairs(s.year, s.month, t.year, t.month, "-");
    PaddedPairs(s.isoYear, s.isoWeek, t.isoYear, t.isoWeek, "-W");
    assert Timestamps.Pow10(4) == 10_000 by { assert Timestamps.Pow10(2) == 100; }
    Timestamps.PadOrder(s.year, t.year, 4);
  }
}
