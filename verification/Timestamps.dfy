/** UTC timestamps as text: `isoformat` prints a fraction of either no or six digits, and
    the database compares the texts bytewise. */
module Timestamps {
  import opened Wrappers
  import opened Text

  const MICROS_PER_DAY := 86_400_000_000

  datatype DateTime = DateTime(year: nat, month: nat, day: nat, hour: nat, minute: nat, second: nat, micro: nat)

  // ---------------------------------------------------------------- calendar

  predicate Leap(year: nat)
  {
    year % 4 == 0 && (year % 100 != 0 || year % 400 == 0)
  }

  function DaysInMonth(year: nat, month: nat): (r: nat)
    ensures 28 <= r <= 31
  {
    if month == 2 then (if Leap(year) then 29 else 28)
    else if month == 4 || month == 6 || month == 9 || month == 11 then 30
    else 31
  }

  function DaysBeforeMonth(year: nat, month: nat): nat
  {
    if month <= 1 then 0 else DaysBeforeMonth(year, month - 1) + DaysInMonth(year, month - 1)
  }

  function YearLength(year: nat): nat
  {
    DaysBeforeMonth(year, 13)
  }

  function DaysBeforeYear(year: nat): nat
  {
    if year <= 1 then 0 else DaysBeforeYear(year - 1) + YearLength(year - 1)
  }

  predicate Valid(d: DateTime)
  {
    && 1 <= d.year <= 9999 && 1 <= d.month <= 12 && 1 <= d.day <= DaysInMonth(d.year, d.month)
    && d.hour < 24 && d.minute < 60 && d.second < 60 && d.micro < 1_000_000
  }

  function Days(d: DateTime): nat
  {
    DaysBeforeYear(d.year) + DaysBeforeMonth(d.year, d.month) + d.day
  }

  function TimeOfDay(d: DateTime): nat
  {
    ((d.hour * 60 + d.minute) * 60 + d.second) * 1_000_000 + d.micro
  }

  /** The instant, in microseconds from the start of year 1 (day 1). */
  function Instant(d: DateTime): nat
  {
    Days(d) * MICROS_PER_DAY + TimeOfDay(d)
  }

  // ---------------------------------------------------------------- printing

  function Digit(n: nat): (c: char)
    requires n < 10
    ensures '0' <= c <= '9'
  {
    ('0' as int + n) as char
  }

  function Pow10(w: nat): (r: nat)
    ensures r > 0
  {
    if w == 0 then 1 else 10 * Pow10(w - 1)
  }

  /** `n` in exactly `w` decimal digits. */
  function Pad(n: nat, w: nat): (r: string)
    ensures |r| == w
  {
    if w == 0 then "" else Pad(n / 10, w - 1) + [Digit(n % 10)]
  }

  /** Widths of the fields and what is printed after each. */
  const LAYOUT: seq<(nat, string)> := [(4, "-"), (2, "-"), (2, "T"), (2, ":"), (2, ":"), (2, "")]

  function Fields(d: DateTime): (r: seq<nat>)
    ensures |r| == |LAYOUT|
  {
    [d.year, d.month, d.day, d.hour, d.minute, d.second]
  }

  function PrintFields(fields: seq<nat>, layout: seq<(nat, string)>, tail: string): string
    requires |fields| == |layout|
  {
    if fields == [] then tail
    else Pad(fields[0], layout[0].0) + (layout[0].1 + PrintFields(fields[1..], layout[1..], tail))
  }

  function Fraction(micro: nat): string
  {
    (if micro == 0 then "" else "." + Pad(micro, 6)) + "+00:00"
  }

  /** `datetime.isoformat()` of a UTC datetime. */
  function Iso(d: DateTime): string
  {
    PrintFields(Fields(d), LAYOUT, Fraction(d.micro))
  }

  // ---------------------------------------------------------------- text order is field order

  lemma {:induction false} PadOrder(m: nat, n: nat, w: nat)
    requires m < Pow10(w) && n < Pow10(w)
    ensures StrLe(Pad(m, w), Pad(n, w)) <==> m <= n
    ensures Pad(m, w) == Pad(n, w) ==> m == n
  {
    if w > 0 {
      PadOrder(m / 10, n / 10, w - 1);
      var p, q := Pad(m / 10, w - 1), Pad(n / 10, w - 1);
      var c, d := [Digit(m % 10)], [Digit(n % 10)];
      StrLeHead(p, q, c, d);
      if p + c == q + d {
        assert (p + c)[..w - 1] == p && (q + d)[..w - 1] == q;
        assert (p + c)[w - 1] == (q + d)[w - 1];
      }
    }
  }

  /** Lexicographic order of the fields, `last` deciding when they are all equal. */
  predicate FieldsLe(a: seq<nat>, b: seq<nat>, last: bool)
    requires |a| == |b|
  {
    if a == [] then last else a[0] < b[0] || (a[0] == b[0] && FieldsLe(a[1..], b[1..], last))
  }

  predicate Fit(fields: seq<nat>, layout: seq<(nat, string)>)
    requires |fields| == |layout|
  {
    forall i :: 0 <= i < |fields| ==> fields[i] < Pow10(layout[i].0)
  }

  lemma {:induction false} PrintOrder(a: seq<nat>, b: seq<nat>, layout: seq<(nat, string)>, s: string, t: string)
    requires |a| == |b| == |layout| && Fit(a, layout) && Fit(b, layout)
    ensures StrLe(PrintFields(a, layout, s), PrintFields(b, layout, t)) <==> FieldsLe(a, b, StrLe(s, t))
    decreases |a|
  {
    if a != [] {
      var w, sep := layout[0].0, layout[0].1;
      var ra, rb := PrintFields(a[1..], layout[1..], s), PrintFields(b[1..], layout[1..], t);
      PrintOrder(a[1..], b[1..], layout[1..], s, t);
      PadOrder(a[0], b[0], w);
      StrLeHead(Pad(a[0], w), Pad(b[0], w), sep + ra, sep + rb);
      StrLeHead(sep, sep, ra, rb);
    }
  }

  /** '+' sorts before '.', so a missing fraction sorts first. */
  lemma FractionOrder(m: nat, n: nat)
    requires m < 1_000_000 && n < 1_000_000
    ensures StrLe(Fraction(m), Fraction(n)) <==> m <= n
  {
    assert Pow10(6) == 1_000_000;
    if m > 0 && n > 0 {
      PadOrder(m, n, 6);
      StrLeHead("." + Pad(m, 6), "." + Pad(n, 6), "+00:00", "+00:00");
      StrLeHead(".", ".", Pad(m, 6), Pad(n, 6));
    } else {
      var with := Max(m, n);
      assert Fraction(0) == "+" + "00:00" && (with > 0 ==> Fraction(with) == "." + (Pad(with, 6) + "+00:00"));
      StrLeHead("+", ".", "00:00", Pad(with, 6) + "+00:00");
      StrLeHead(".", "+", Pad(with, 6) + "+00:00", "00:00");
      StrLeTotal(Fraction(0), Fraction(0));
    }
  }

  // ---------------------------------------------------------------- field order is time order

  lemma {:induction false} MonthsAscend(year: nat, m: nat, n: nat)
    requires 1 <= m < n
    ensures DaysBeforeMonth(year, m) + DaysInMonth(year, m) <= DaysBeforeMonth(year, n)
  {
    if m + 1 < n {
      MonthsAscend(year, m, n - 1);
    }
  }

  lemma {:induction false} YearsAscend(y: nat, z: nat)
    requires 1 <= y < z
    ensures DaysBeforeYear(y) + YearLength(y) <= DaysBeforeYear(z)
  {
    if y + 1 < z {
      YearsAscend(y, z - 1);
    }
  }

  predicate Before(a: DateTime, b: DateTime)
  {
    FieldsLe(Fields(a), Fields(b), a.micro < b.micro)
  }

  lemma DateAscends(a: DateTime, b: DateTime)
    requires Valid(a) && Valid(b)
    requires a.year < b.year || (a.year == b.year && (a.month < b.month || (a.month == b.month && a.day < b.day)))
    ensures Days(a) < Days(b)
  {
    MonthsAscend(a.year, a.month, 13);
    if a.year < b.year {
      YearsAscend(a.year, b.year);
    } else if a.month < b.month {
      MonthsAscend(a.year, a.month, b.month);
    }
  }

  lemma UnfoldThree(x: nat, y: nat, z: nat, x': nat, y': nat, z': nat, rest: seq<nat>, rest': seq<nat>, last: bool)
    requires |rest| == |rest'|
    ensures FieldsLe([x, y, z] + rest, [x', y', z'] + rest', last) <==>
            || x < x'
            || (x == x' && (y < y' || (y == y' && (z < z' || (z == z' && FieldsLe(rest, rest', last))))))
  {
    var f, g := [x, y, z] + rest, [x', y', z'] + rest';
    assert f[1..] == [y, z] + rest && g[1..] == [y', z'] + rest';
    assert ([y, z] + rest)[1..] == [z] + rest && ([y', z'] + rest')[1..] == [z'] + rest';
    assert ([z] + rest)[1..] == rest && ([z'] + rest')[1..] == rest';
    assert FieldsLe([z] + rest, [z'] + rest', last) <==> z < z' || (z == z' && FieldsLe(rest, rest', last));
  }

  lemma UnfoldBefore(a: DateTime, b: DateTime, last: bool)
    ensures FieldsLe(Fields(a), Fields(b), last) <==>
            || a.year < b.year
            || (a.year == b.year && (a.month < b.month
            || (a.month == b.month && (a.day < b.day
            || (a.day == b.day && (a.hour < b.hour
            || (a.hour == b.hour && (a.minute < b.minute
            || (a.minute == b.minute && (a.second < b.second
            || (a.second == b.second && last)))))))))))
  {
    var ta, tb := [a.hour, a.minute, a.second], [b.hour, b.minute, b.second];
    assert Fields(a) == [a.year, a.month, a.day] + ta && Fields(b) == [b.year, b.month, b.day] + tb;
    UnfoldThree(a.year, a.month, a.day, b.year, b.month, b.day, ta, tb, last);
    assert ta == ta + [] && tb == tb + [];
    UnfoldThree(a.hour, a.minute, a.second, b.hour, b.minute, b.second, [], [], last);
  }

  lemma BeforeIsEarlier(a: DateTime, b: DateTime)
    requires Valid(a) && Valid(b) && Before(a, b)
    ensures Instant(a) < Instant(b)
  {
    UnfoldBefore(a, b, a.micro < b.micro);
    if a.year == b.year && a.month == b.month && a.day == b.day {
    } else {
      DateAscends(a, b);
    }
  }

  /** Bytewise comparison of the printed timestamps is comparison of the instants, whether
      or not either carries a fraction. */
  lemma TextOrderIsTimeOrder(a: DateTime, b: DateTime)
    requires Valid(a) && Valid(b)
    ensures StrLe(Iso(a), Iso(b)) <==> Instant(a) <= Instant(b)
    ensures Iso(a) == Iso(b) ==> a == b
  {
    assert Pow10(4) == 10_000 && Pow10(2) == 100 by { assert Pow10(2) == 100; }
    PrintOrder(Fields(a), Fields(b), LAYOUT, Fraction(a.micro), Fraction(b.micro));
    PrintOrder(Fields(b), Fields(a), LAYOUT, Fraction(b.micro), Fraction(a.micro));
    FractionOrder(a.micro, b.micro);
    FractionOrder(b.micro, a.micro);
    UnfoldBefore(a, b, a.micro <= b.micro);
    UnfoldBefore(b, a, b.micro <= a.micro);
    UnfoldBefore(a, b, a.micro < b.micro);
    UnfoldBefore(b, a, b.micro < a.micro);
    if Before(a, b) {
      BeforeIsEarlier(a, b);
    } else if Before(b, a) {
      BeforeIsEarlier(b, a);
    } else {
      assert a == b;
    }
    if Iso(a) == Iso(b) {
      StrLeTotal(Iso(a), Iso(b));
    }
  }

  // ---------------------------------------------------------------- instants as numbers

  /** Year and day of the year of the `n`-th day counted from the start of `year`. */
  function YearFrom(year: nat, n: nat): (r: (nat, nat))
    requires year >= 1 && n >= 1
    ensures r.0 >= 1 && 1 <= r.1 <= YearLength(r.0)
    ensures DaysBeforeYear(r.0) + r.1 == DaysBeforeYear(year) + n
    decreases n
  {
    if n <= YearLength(year) then (year, n)
    else
      assert YearLength(year) >= 28;
      YearFrom(year + 1, n - YearLength(year))
  }

  function MonthFrom(year: nat, month: nat, n: nat): (r: (nat, nat))
    requires 1 <= month <= 12 && n >= 1 && DaysBeforeMonth(year, month) + n <= YearLength(year)
    ensures 1 <= r.0 <= 12 && 1 <= r.1 <= DaysInMonth(year, r.0)
    ensures DaysBeforeMonth(year, r.0) + r.1 == DaysBeforeMonth(year, month) + n
    decreases 12 - month
  {
    if n <= DaysInMonth(year, month) then (month, n)
    else MonthFrom(year, month + 1, n - DaysInMonth(year, month))
  }

  /** Quotient and remainder by a constant, as one step of splitting a time of day. */
  function Split(n: nat, unit: nat): (r: (nat, nat))
    requires unit > 0
    ensures n == r.0 * unit + r.1 && r.1 < unit
  {
    (n / unit, n % unit)
  }

  function Clock(tod: nat): (r: (nat, nat, nat, nat))
    requires tod < MICROS_PER_DAY
    ensures r.0 < 24 && r.1 < 60 && r.2 < 60 && r.3 < 1_000_000
    ensures ((r.0 * 60 + r.1) * 60 + r.2) * 1_000_000 + r.3 == tod
  {
    var seconds := Split(tod, 1_000_000);
    var minutes := Split(seconds.0, 60);
    var hours := Split(minutes.0, 60);
    (hours.0, hours.1, minutes.1, seconds.1)
  }

  /** The datetime of an instant. */
  function FromInstant(t: int): (d: DateTime)
    requires t >= MICROS_PER_DAY
    ensures d.year <= 9999 ==> Valid(d)
    ensures Instant(d) == t
  {
    var day := Split(t, MICROS_PER_DAY);
    var c := Clock(day.1);
    var y := YearFrom(1, day.0);
    var m := MonthFrom(y.0, 1, y.1);
    DateTime(y.0, m.0, m.1, c.0, c.1, c.2, c.3)
  }

  /** Instants Python can print: years 1 to 9999. */
  predicate Printable(t: int)
  {
    t >= MICROS_PER_DAY && FromInstant(t).year <= 9999
  }

  /** The text stored for an instant. */
  function Printed(t: int): string
    requires Printable(t)
  {
    Iso(FromInstant(t))
  }

  lemma PrintedOrder(t: int, u: int)
    requires Printable(t) && Printable(u)
    ensures StrLe(Printed(t), Printed(u)) <==> t <= u
    ensures Printed(t) == Printed(u) ==> t == u
  {
    TextOrderIsTimeOrder(FromInstant(t), FromInstant(u));
  }

  // ---------------------------------------------------------------- texts in another form

  /** A wall-clock time to the second, and whatever is written behind it. */
  function WithSuffix(d: DateTime, suffix: string): string
  {
    PrintFields(Fields(d), LAYOUT, suffix)
  }

  function Seconds(d: DateTime): nat
  {
    Days(d) * 86_400 + (d.hour * 60 + d.minute) * 60 + d.second
  }

  lemma SecondsOf(d: DateTime)
    ensures Instant(d) == Seconds(d) * 1_000_000 + d.micro
  {
  }

  lemma LaterFields(a: DateTime, b: DateTime)
    requires Valid(a) && Valid(b) && FieldsLe(Fields(a), Fields(b), false)
    ensures Seconds(a) < Seconds(b)
  {
    var a0, b0 := a.(micro := 0), b.(micro := 0);
    assert Fields(a0) == Fields(a) && Fields(b0) == Fields(b);
    BeforeIsEarlier(a0, b0);
    SecondsOf(a0);
    SecondsOf(b0);
  }

  /** Compared with a printed timestamp such a text counts as its wall clock, and within the
      same second by what is written behind it. */
  lemma SuffixDecides(d: DateTime, suffix: string, b: DateTime)
    requires Valid(d) && Valid(b)
    ensures StrLe(WithSuffix(d, suffix), Iso(b)) <==>
            Seconds(d) < Seconds(b) || (Seconds(d) == Seconds(b) && StrLe(suffix, Fraction(b.micro)))
  {
    assert Pow10(4) == 10_000 && Pow10(2) == 100 by { assert Pow10(2) == 100; }
    var last := StrLe(suffix, Fraction(b.micro));
    PrintOrder(Fields(d), Fields(b), LAYOUT, suffix, Fraction(b.micro));
    UnfoldBefore(d, b, last);
    UnfoldBefore(d, b, false);
    UnfoldBefore(b, d, false);
    if FieldsLe(Fields(d), Fields(b), false) {
      LaterFields(d, b);
    } else if FieldsLe(Fields(b), Fields(d), false) {
      LaterFields(b, d);
    } else {
      assert Fields(d) == Fields(b);
    }
  }

  lemma ZuluSortsLast(micro: nat)
    ensures !StrLe("Z", Fraction(micro))
  {
    assert Fraction(micro)[0] == if micro == 0 then '+' else '.';
  }

  /** A time written with "Z" comes due one second late. */
  lemma ZuluIsLate(d: DateTime, now: int)
    requires Valid(d) && d.micro == 0 && Printable(now)
    ensures StrLe(WithSuffix(d, "Z"), Printed(now)) <==> Instant(d) + 1_000_000 <= now
  {
    var b := FromInstant(now);
    SuffixDecides(d, "Z", b);
    ZuluSortsLast(b.micro);
    SecondsOf(d);
    SecondsOf(b);
  }

  lemma OffsetSorts(suffix: string, micro: nat)
    requires suffix != "" && suffix[0] in {'+', '-'} && !StrLe(suffix, "+00:00")
    ensures StrLe(suffix, Fraction(micro)) <==> micro > 0
  {
    assert micro > 0 ==> Fraction(micro)[0] == '.';
    assert micro == 0 ==> Fraction(micro) == "+00:00";
  }

  /** The offset of a time written with one counts for nothing: the wall clock is taken as UTC. */
  lemma OffsetIsIgnored(d: DateTime, suffix: string, now: int)
    requires Valid(d) && d.micro == 0 && Printable(now)
    requires suffix != "" && suffix[0] in {'+', '-'} && !StrLe(suffix, "+00:00")
    ensures StrLe(WithSuffix(d, suffix), Printed(now)) <==> Instant(d) < now
  {
    var b := FromInstant(now);
    SuffixDecides(d, suffix, b);
    OffsetSorts(suffix, b.micro);
    SecondsOf(d);
    SecondsOf(b);
  }

  function TextAt(t: int): string
  {
    if Printable(t) then Printed(t) else ""
  }

  lemma TextAtOrder(t: int, u: int)
    requires Printable(t) && Printable(u)
    ensures StrLe(TextAt(t), TextAt(u)) <==> t <= u
  {
    PrintedOrder(t, u);
  }

  /** The texts of some instants, in the order of those instants. */
  ghost predicate Ordered(text: int -> string, known: int -> bool)
  {
    forall t, u :: known(t) && known(u) && t <= u ==> StrLe(text(t), text(u))
  }

  /** Due at an instant and from then on, not before. */
  ghost predicate DueFrom(x: string, t: int, text: int -> string, known: int -> bool)
  {
    forall now :: known(now) ==> (StrLe(x, text(now)) <==> t <= now)
  }

  lemma DueBetween(x: string, t: int, text: int -> string, known: int -> bool)
    requires Ordered(text, known) && known(t) && known(t - 1)
    ensures DueFrom(x, t, text, known) <==> StrLe(x, text(t)) && !StrLe(x, text(t - 1))
  {
    if StrLe(x, text(t)) && !StrLe(x, text(t - 1)) {
      forall now | known(now) ensures StrLe(x, text(now)) <==> t <= now {
        if t <= now {
          StrLeTransitive(x, text(t), text(now));
        } else if StrLe(x, text(now)) {
          StrLeTransitive(x, text(now), text(t - 1));
        }
      }
    }
  }

  lemma PrintedAreOrdered()
    ensures Ordered(TextAt, Printable)
  {
    forall t, u | Printable(t) && Printable(u) && t <= u ensures StrLe(TextAt(t), TextAt(u)) {
      TextAtOrder(t, u);
    }
  }

  /** Whatever text is stored, it comes due exactly at an instant if and only if it sorts after
      what is printed a microsecond earlier and not after what is printed then. */
  lemma DueExactlyAt(x: string, t: int)
    requires Printable(t) && Printable(t - 1)
    ensures DueFrom(x, t, TextAt, Printable) <==> StrLe(x, TextAt(t)) && !StrLe(x, TextAt(t - 1))
  {
    PrintedAreOrdered();
    DueBetween(x, t, TextAt, Printable);
  }
}
