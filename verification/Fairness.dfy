/** Who is served by the rotating refresh cursor, and who never is. */
module Fairness {
  import opened Wrappers
  import opened RefreshQueue

  // ---------------------------------------------------------------- one round

  /** How many scans outside the priority prefix the walk from `start` meets before `p`. */
  function Rank(n: nat, start: nat, p: nat): int
    requires RECENT_PRIORITY <= p < n && start < n
  {
    if start <= p then p - Max(start, RECENT_PRIORITY) else n - start + p - RECENT_PRIORITY
  }

  /** Position `p` of `n` is asked about when the walk starts at `start`. */
  predicate Served(n: nat, start: nat, p: nat)
    requires p < n && start < n
  {
    p < RECENT_PRIORITY || Rank(n, start, p) < Window(n) - RECENT_PRIORITY
  }

  lemma {:induction false} SkipSeen(a: seq<Waiting>, b: seq<Waiting>, seen: set<string>)
    requires Ids(a) <= seen
    ensures FirstOfEach(a + b, seen) == FirstOfEach(b, seen)
    decreases |a|
  {
    if a == [] {
      assert a + b == b;
    } else {
      assert a[0].id in Ids(a);
      assert (a + b)[1..] == a[1..] + b;
      SkipSeen(a[1..], b, seen);
    }
  }

  lemma RestIsNew(a: seq<Waiting>, seen: set<string>)
    requires a != [] && DistinctIds(a) && Ids(a) !! seen
    ensures DistinctIds(a[1..]) && Ids(a[1..]) !! seen + {a[0].id} && a[0].id !in seen
  {
    assert a[0].id in Ids(a);
    forall w | w in a[1..] ensures w.id !in seen + {a[0].id} {
      assert w.id in Ids(a);
    }
  }

  lemma {:induction false} TakeNew(a: seq<Waiting>, seen: set<string>)
    requires DistinctIds(a) && Ids(a) !! seen
    ensures FirstOfEach(a, seen) == a
    decreases |a|
  {
    if a != [] {
      RestIsNew(a, seen);
      TakeNew(a[1..], seen + {a[0].id});
      assert a == [a[0]] + a[1..];
    }
  }

  lemma SplitDistinct(s: seq<Waiting>, i: nat, j: nat)
    requires i <= j <= |s| && DistinctIds(s)
    ensures DistinctIds(s[i..j])
    ensures Ids(s[i..j]) !! Ids(s[..i])
    ensures Ids(s[i..j]) !! Ids(s[j..])
  {
  }

  /** The walk outside the prefix: from `b` to the end, then from the prefix up to `b`. */
  function Tour(s: seq<Waiting>, start: nat): seq<Waiting>
    requires start < |s|
  {
    var r := Recent(|s|);
    var b := Max(start, r);
    s[b..] + s[r..b]
  }

  /** For distinct ids the pick has a closed form. */
  lemma DistinctOrder(s: seq<Waiting>, start: nat)
    requires start < |s| && DistinctIds(s)
    ensures FirstOfEach(s[..Recent(|s|)] + Rotate(s, start), {}) == s[..Recent(|s|)] + Tour(s, start)
  {
    var r := Recent(|s|);
    var head := s[..r];
    FirstOfEachConcat(head, Rotate(s, start), {});
    SplitDistinct(s, 0, r);
    TakeNew(head, {});
    assert {} + Ids(head) == Ids(head);
    if r <= start {
      TourLate(s, start);
    } else {
      TourEarly(s, start);
    }
  }

  lemma TourLate(s: seq<Waiting>, start: nat)
    requires Recent(|s|) <= start < |s| && DistinctIds(s)
    ensures FirstOfEach(Rotate(s, start), Ids(s[..Recent(|s|)])) == Tour(s, start)
  {
    var r := Recent(|s|);
    var seen := Ids(s[..r]);
    assert Rotate(s, start) == s[start..] + (s[..r] + s[r..start]);
    FirstOfEachConcat(s[start..], s[..r] + s[r..start], seen);
    SplitDistinct(s, start, |s|);
    SplitDistinct(s, r, start);
    assert seen <= Ids(s[..start]);
    TakeNew(s[start..], seen);
    SkipSeen(s[..r], s[r..start], seen + Ids(s[start..]));
    TakeNew(s[r..start], seen + Ids(s[start..]));
  }

  lemma TourEarly(s: seq<Waiting>, start: nat)
    requires start < Recent(|s|) && DistinctIds(s)
    ensures FirstOfEach(Rotate(s, start), Ids(s[..Recent(|s|)])) == Tour(s, start)
  {
    var r := Recent(|s|);
    var seen := Ids(s[..r]);
    var tail := s[r..];
    assert Rotate(s, start) == s[start..r] + (tail + s[..start]);
    assert Ids(s[start..r]) <= seen && Ids(s[..start]) <= seen;
    SkipSeen(s[start..r], tail + s[..start], seen);
    FirstOfEachConcat(tail, s[..start], seen);
    SplitDistinct(s, r, |s|);
    assert s[..|s|] == s && s[r..|s|] == tail;
    TakeNew(tail, seen);
    SkipSeen(s[..start], [], seen + Ids(tail));
    assert s[..start] + [] == s[..start];
    assert Tour(s, start) == tail;
  }

  lemma TourIndex(s: seq<Waiting>, start: nat, p: nat)
    requires start < |s| && RECENT_PRIORITY <= p < |s|
    ensures 0 <= Rank(|s|, start, p) < |Tour(s, start)| == |s| - RECENT_PRIORITY
    ensures Tour(s, start)[Rank(|s|, start, p)] == s[p]
  {
  }

  /** A position is in the pick exactly when the arithmetic says so. */
  lemma PickedIffServed(s: seq<Waiting>, start: nat, p: nat)
    requires start < |s| && p < |s| && DistinctIds(s)
    ensures s[p] in Picks(s, start) <==> Served(|s|, start, p)
  {
    var n, r := |s|, Recent(|s|);
    DistinctOrder(s, start);
    var order := s[..r] + Tour(s, start);
    var w := Window(n);
    assert Picks(s, start) == order[..Min(w, |order|)];
    OrderDistinct(s, start);
    assert p < RECENT_PRIORITY <==> p < r;
    if p < r {
      assert order[p] == s[p];
      assert Picks(s, start)[p] == s[p];
    } else {
      TourIndex(s, start, p);
      assert order[r + Rank(n, start, p)] == s[p];
      if Rank(n, start, p) < w - r {
        assert Picks(s, start)[r + Rank(n, start, p)] == s[p];
      }
    }
  }

  lemma OrderDistinct(s: seq<Waiting>, start: nat)
    requires start < |s| && DistinctIds(s)
    ensures DistinctIds(s[..Recent(|s|)] + Tour(s, start))
    ensures |Tour(s, start)| == |s| - Recent(|s|)
  {
    DistinctOrder(s, start);
    FirstOfEachFacts(s[..Recent(|s|)] + Rotate(s, start), {});
  }

  // ---------------------------------------------------------------- the cursor over rounds

  /** The cursor before round `r`, the list staying the same. */
  function CursorAfter(n: nat, cursor: nat, r: nat): nat
    requires n > 0
  {
    if r == 0 then cursor else NextCursor(n, CursorAfter(n, cursor, r - 1))
  }

  /** The position the walk of round `r` starts at. */
  function StartOf(n: nat, cursor: nat, r: nat): (s: nat)
    requires n > 0
    ensures s < n
  {
    CursorAfter(n, cursor, r) % n
  }

  lemma AddMod(a: nat, b: nat, n: nat)
    requires n > 0
    ensures (a % n + b) % n == (a + b) % n
  {
    var q := a / n;
    assert a == n * q + a % n;
    ModUnique(a + b, n, q + (a % n + b) / n, (a % n + b) % n);
  }

  lemma MulAtLeast(n: int, d: int)
    requires n > 0
    ensures d >= 1 ==> n * d >= n
    ensures d <= -1 ==> n * d <= -n
  {
    if d >= 1 {
      assert n * d == n * (d - 1) + n && n * (d - 1) >= 0;
    } else if d <= -1 {
      assert n * d == n * (d + 1) - n && n * (d + 1) <= 0;
    }
  }

  lemma ModUnique(x: int, n: int, q: int, r: int)
    requires n > 0 && 0 <= r < n && x == n * q + r
    ensures x % n == r
  {
    var q', r' := x / n, x % n;
    assert n * (q - q') == n * q - n * q' == r' - r;
    MulAtLeast(n, q - q');
  }

  lemma ModSmall(x: nat, n: nat)
    requires x < n
    ensures x % n == x
  {
    ModUnique(x, n, 0, x);
  }

  lemma {:induction false} StartIsLinear(n: nat, cursor: nat, r: nat)
    requires n > 0
    ensures StartOf(n, cursor, r) == (cursor + r * Window(n)) % n
  {
    if r == 0 {
      assert r * Window(n) == 0;
    } else {
      var w, before := Window(n), CursorAfter(n, cursor, r - 1);
      StartIsLinear(n, cursor, r - 1);
      NextStart(n, before);
      StepMultiple(r, w);
      AddMod(cursor + (r - 1) * w, w, n);
    }
  }

  lemma NextStart(n: nat, cursor: nat)
    requires n > 0
    ensures NextCursor(n, cursor) % n == (cursor % n + Window(n)) % n
  {
    ModSmall(NextCursor(n, cursor), n);
  }

  lemma StepMultiple(r: nat, w: nat)
    requires r > 0
    ensures r * w == (r - 1) * w + w
  {
  }

  // ---------------------------------------------------------------- greatest common divisor

  function Gcd(a: nat, b: nat): (g: nat)
    requires a > 0 || b > 0
    ensures g > 0
    decreases b
  {
    if b == 0 then a else Gcd(b, a % b)
  }

  /** Gcd divides both numbers and is a combination of them. */
  lemma {:induction false} Bezout(a: nat, b: nat) returns (x: int, y: int, ca: int, cb: int)
    requires a > 0 || b > 0
    ensures a * x + b * y == Gcd(a, b)
    ensures a == Gcd(a, b) * ca && b == Gcd(a, b) * cb
    decreases b
  {
    if b == 0 {
      x, y, ca, cb := 1, 0, 1, 0;
    } else {
      var x', y', c, d := Bezout(b, a % b);
      var q, m := DivMod(a, b);
      x, y := y', x' - q * y';
      ca, cb := c * q + d, c;
      BezoutStep(a, b, q, m, x', y');
      FactorStep(a, b, q, m, Gcd(a, b), c, d);
    }
  }

  lemma DivMod(a: nat, b: nat) returns (q: int, m: int)
    requires b > 0
    ensures a == b * q + m && m == a % b
  {
    q, m := a / b, a % b;
  }

  lemma BezoutStep(a: int, b: int, q: int, m: int, x: int, y: int)
    requires a == b * q + m
    ensures a * y + b * (x - q * y) == b * x + m * y
  {
    assert a * y == (b * q) * y + m * y;
    assert b * (x - q * y) == b * x - b * (q * y);
    assert (b * q) * y == b * (q * y);
  }

  lemma FactorStep(a: int, b: int, q: int, m: int, g: int, c: int, d: int)
    requires a == b * q + m && b == g * c && m == g * d
    ensures a == g * (c * q + d)
  {
    assert g * (c * q + d) == g * (c * q) + g * d;
    assert (g * c) * q == g * (c * q);
  }

  // ---------------------------------------------------------------- which starts occur

  /** The starts of n / gcd(n, 500) consecutive rounds run through a whole coset of the gcd. */
  lemma ReachStart(n: nat, cursor: nat, t: nat, k: int, m: int) returns (r: nat)
    requires n > REFRESH_LIMIT && t < n
    requires t == cursor + Gcd(n, REFRESH_LIMIT) * k + n * m
    ensures r < n / Gcd(n, REFRESH_LIMIT)
    ensures StartOf(n, cursor, r) == t
  {
    var g := Gcd(n, REFRESH_LIMIT);
    var x, y, cn, c5 := Bezout(n, REFRESH_LIMIT);
    QuotientIs(n, g, cn);
    var q;
    r, q := EuclidMod(y * k, cn);
    StartIsLinear(n, cursor, r);
    StepsAddUp(n, g, x, y, cn, c5, k, q, r);
    LandsOn(n, t, cursor + r * 500, g * k, m, x * k, c5 * q, cursor);
  }

  lemma LandsOn(n: nat, t: nat, total: int, gk: int, m: int, u: int, v: int, cursor: int)
    requires t < n && t == cursor + gk + n * m && total == cursor + gk - n * u - n * v
    ensures total % n == t
  {
    var z := -(m + u + v);
    assert n * z == -(n * m) - n * u - n * v;
    ModUnique(total, n, z, t);
  }

  lemma QuotientIs(n: nat, g: nat, c: int)
    requires n > 0 && g > 0 && n == g * c
    ensures c > 0 && n / g == c
  {
    if c <= 0 { MulAtMost(g, c); }
    DivUnique(n, g, c);
  }

  lemma MulAtMost(g: nat, c: int)
    requires c <= 0
    ensures g * c <= 0
  {
  }

  lemma DivUnique(n: int, g: int, c: int)
    requires g > 0 && n == g * c
    ensures n / g == c
  {
    var q, m := n / g, n % g;
    assert g * (c - q) == g * c - g * q == m;
    MulAtLeast(g, c - q);
  }

  lemma EuclidMod(a: int, b: int) returns (r: nat, q: int)
    requires b > 0
    ensures r < b && a == b * q + r
  {
    q, r := a / b, a % b;
  }

  /** 500 r = g k, up to multiples of n. */
  lemma StepsAddUp(n: int, g: int, x: int, y: int, cn: int, c5: int, k: int, q: int, r: int)
    requires n * x + 500 * y == g && n == g * cn && 500 == g * c5
    requires y * k == cn * q + r
    ensures r * 500 == g * k - n * (x * k) - n * (c5 * q)
  {
    assert g * k == (n * x) * k + 500 * (y * k) by {
      assert (n * x + 500 * y) * k == (n * x) * k + (500 * y) * k;
      assert (500 * y) * k == 500 * (y * k);
    }
    assert (n * x) * k == n * (x * k);
    assert 500 * (cn * q) == n * (c5 * q) by {
      assert (g * c5) * (cn * q) == (g * cn) * (c5 * q);
    }
  }

  lemma GcdOf500(n: nat)
    requires n > REFRESH_LIMIT
    ensures var g := Gcd(n, REFRESH_LIMIT); g <= 250 || (g == REFRESH_LIMIT && n % REFRESH_LIMIT == 0)
  {
    var g := Gcd(n, REFRESH_LIMIT);
    var x, y, cn, c5 := Bezout(n, REFRESH_LIMIT);
    if c5 <= 0 { MulAtMost(g, c5); }
    if c5 >= 2 {
      assert g * c5 == g * 2 + g * (c5 - 2) && g * (c5 - 2) >= 0;
    } else {
      assert g == REFRESH_LIMIT;
      ModUnique(n, REFRESH_LIMIT, cn, 0);
    }
  }

  // ---------------------------------------------------------------- the exact condition

  /** The positions the rotation never reaches: only in lists of 1000, 1500, ... scans,
      in the last twenty places of each stretch of 500 counted from the cursor. */
  predicate Starved(n: nat, cursor: nat, p: nat)
  {
    && n > 500 && n % 500 == 0
    && p >= 500
    && (p - cursor) % 500 >= 480
  }

  lemma ServedFromJustBefore(n: nat, cursor: nat, p: nat) returns (r: nat)
    requires n > REFRESH_LIMIT && p < n && !Starved(n, cursor, p)
    ensures r < n / Gcd(n, REFRESH_LIMIT)
    ensures Served(n, StartOf(n, cursor, r), p)
  {
    GcdOf500(n);
    var g := Gcd(n, REFRESH_LIMIT);
    var e, k := EuclidMod(p - cursor, g);
    if g == REFRESH_LIMIT {
      ModUnique(p - cursor, REFRESH_LIMIT, k, e);
    }
    if e <= p {
      r := ReachStart(n, cursor, p - e, k, 0);
    } else {
      r := ReachStart(n, cursor, p - e + n, k, 1);
    }
  }

  lemma {:induction false} StartsKeepResidue(n: nat, cursor: nat, r: nat)
    requires n > REFRESH_LIMIT && n % REFRESH_LIMIT == 0
    ensures StartOf(n, cursor, r) % REFRESH_LIMIT == cursor % REFRESH_LIMIT
  {
    var m, total := n / REFRESH_LIMIT, cursor + r * REFRESH_LIMIT;
    StartIsLinear(n, cursor, r);
    var s, q := EuclidMod(total, n);
    ModUnique(total, n, q, s);
    assert n * q == REFRESH_LIMIT * (m * q);
    var z := r - m * q + cursor / REFRESH_LIMIT;
    assert s == REFRESH_LIMIT * z + cursor % REFRESH_LIMIT;
    ModUnique(s, REFRESH_LIMIT, z, cursor % REFRESH_LIMIT);
  }

  lemma FarBehind(rank: int, t: int, e: int)
    requires rank == REFRESH_LIMIT * t + e && 0 <= rank && REFRESH_LIMIT - RECENT_PRIORITY <= e < REFRESH_LIMIT
    ensures rank >= REFRESH_LIMIT - RECENT_PRIORITY
  {
  }

  lemma StarvedRank(n: nat, cursor: nat, p: nat, s: nat)
    requires p < n && s < n && Starved(n, cursor, p)
    requires s % REFRESH_LIMIT == cursor % REFRESH_LIMIT
    ensures Rank(n, s, p) >= REFRESH_LIMIT - RECENT_PRIORITY
  {
    var e, k := EuclidMod(p - cursor, REFRESH_LIMIT);
    var residue, a := EuclidMod(s, REFRESH_LIMIT);
    var b, m := cursor / REFRESH_LIMIT, n / REFRESH_LIMIT;
    ModUnique(p - cursor, REFRESH_LIMIT, k, e);
    ModUnique(s, REFRESH_LIMIT, a, residue);
    assert cursor == 500 * b + residue && n == 500 * m;
    if p >= s {
      FarBehind(p - s, k - a + b, e);
    } else {
      FarBehind(p - s + n, k - a + b + m, e);
    }
  }

  lemma StarvedNeverServed(n: nat, cursor: nat, p: nat, r: nat)
    requires p < n && Starved(n, cursor, p)
    ensures !Served(n, StartOf(n, cursor, r), p)
  {
    var s := StartOf(n, cursor, r);
    StartsKeepResidue(n, cursor, r);
    StarvedRank(n, cursor, p, s);
  }

  /** Round-robin fairness, with its exact condition: on a list that stays the same, a
      scan is asked about within n / gcd(n, 500) rounds whatever the cursor, unless it is
      one of the starved positions, which are never asked about. */
  lemma RotationIsFair(s: seq<Waiting>, cursor: nat, p: nat)
    requires DistinctIds(s) && p < |s|
    ensures !Starved(|s|, cursor, p) ==>
              exists r: nat :: r < |s| / Gcd(|s|, 500) && s[p] in Picks(s, StartOf(|s|, cursor, r))
    ensures Starved(|s|, cursor, p) ==> forall r: nat :: s[p] !in Picks(s, StartOf(|s|, cursor, r))
  {
    var n := |s|;
    if !Starved(n, cursor, p) {
      var r: nat := 0;
      if n <= REFRESH_LIMIT {
        AtLeastOneRound(n);
      } else {
        r := ServedFromJustBefore(n, cursor, p);
      }
      PickedIffServed(s, StartOf(n, cursor, r), p);
      assert s[p] in Picks(s, StartOf(n, cursor, r));
    } else {
      forall r: nat ensures s[p] !in Picks(s, StartOf(n, cursor, r)) {
        StarvedNeverServed(n, cursor, p, r);
        PickedIffServed(s, StartOf(n, cursor, r), p);
      }
    }
  }

  lemma AtLeastOneRound(n: nat)
    requires n > 0
    ensures 0 < n / Gcd(n, REFRESH_LIMIT)
  {
    var g := Gcd(n, REFRESH_LIMIT);
    var x, y, cn, c5 := Bezout(n, REFRESH_LIMIT);
    QuotientIs(n, g, cn);
  }

  /** In a list of 1000, 1500, ... scans this position is starved, whatever the cursor. */
  function StarvedPosition(cursor: nat): nat
  {
    500 + (480 + cursor) % 500
  }

  /** So a list is served completely from every cursor if and only if it fits the window
      or its length is no multiple of 500; otherwise every cursor starves someone. */
  lemma FairLengths(n: nat)
    ensures (forall cursor: nat, p: nat :: p < n ==> !Starved(n, cursor, p)) <==>
              (n <= 500 || n % 500 != 0)
    ensures n > 500 && n % 500 == 0 ==>
              forall cursor: nat :: StarvedPosition(cursor) < n && Starved(n, cursor, StarvedPosition(cursor))
  {
    if n > REFRESH_LIMIT && n % REFRESH_LIMIT == 0 {
      forall cursor: nat ensures StarvedPosition(cursor) < n && Starved(n, cursor, StarvedPosition(cursor)) {
        var residue, b := EuclidMod(480 + cursor, REFRESH_LIMIT);
        ModUnique(480 + cursor, 500, b, residue);
        ModUnique(StarvedPosition(cursor) - cursor, 500, 1 - b, 480);
      }
      assert Starved(n, 0, StarvedPosition(0));
    }
  }
}
