/** Which of the waiting scans a coverage refresh asks about: a priority prefix of
    the most recent ones, then a walk round the list from a rotating cursor. */
module RefreshQueue {
  import opened Wrappers

  const REFRESH_LIMIT := 500
  const RECENT_PRIORITY := 20

  /** A scan whose page count is not known yet. */
  datatype Waiting = Waiting(id: string, created: int, execId: string)

  function Ids(s: seq<Waiting>): set<string>
  {
    set w | w in s :: w.id
  }

  ghost predicate AllNamed(s: seq<Waiting>)
  {
    forall w :: w in s ==> w.id != ""
  }

  ghost predicate DistinctIds(s: seq<Waiting>)
  {
    forall i, j :: 0 <= i < j < |s| ==> s[i].id != s[j].id
  }

  function Window(n: nat): nat { Min(REFRESH_LIMIT, n) }

  function Recent(n: nat): nat { Min(RECENT_PRIORITY, Window(n)) }

  function Rotate(s: seq<Waiting>, k: nat): seq<Waiting>
    requires k <= |s|
  {
    s[k..] + s[..k]
  }

  /** The list without the scans already seen, each id kept where it first occurs. */
  function FirstOfEach(s: seq<Waiting>, seen: set<string>): seq<Waiting>
  {
    if s == [] then []
    else if s[0].id in seen then FirstOfEach(s[1..], seen)
    else [s[0]] + FirstOfEach(s[1..], seen + {s[0].id})
  }

  /** The reference definition of the pick: the priority prefix followed by one full
      turn round the list from `start`, duplicates dropped, cut at the window. */
  function Picks(prepared: seq<Waiting>, start: nat): (r: seq<Waiting>)
    requires start < |prepared|
  {
    var order := FirstOfEach(prepared[..Recent(|prepared|)] + Rotate(prepared, start), {});
    order[..Min(Window(|prepared|), |order|)]
  }

  /** Where the cursor stands after a pick: one full window further. */
  function NextCursor(n: nat, cursor: nat): (r: nat)
    requires n > 0
    ensures r < n
  {
    (cursor % n + Window(n)) % n
  }

  lemma {:induction false} FirstOfEachConcat(a: seq<Waiting>, b: seq<Waiting>, seen: set<string>)
    ensures FirstOfEach(a + b, seen) == FirstOfEach(a, seen) + FirstOfEach(b, seen + Ids(a))
    decreases |a|
  {
    if a == [] {
      assert a + b == b;
      assert seen + Ids(a) == seen;
    } else {
      assert (a + b)[1..] == a[1..] + b && a == [a[0]] + a[1..];
      var seen' := seen + {a[0].id};
      assert seen + Ids(a) == seen' + Ids(a[1..]);
      if a[0].id in seen {
        assert seen == seen';
        FirstOfEachConcat(a[1..], b, seen);
      } else {
        FirstOfEachConcat(a[1..], b, seen');
      }
    }
  }

  lemma {:induction false} FirstOfEachFacts(s: seq<Waiting>, seen: set<string>)
    ensures DistinctIds(FirstOfEach(s, seen))
    ensures Ids(FirstOfEach(s, seen)) == Ids(s) - seen
    ensures |FirstOfEach(s, seen)| <= |s|
    ensures forall w :: w in FirstOfEach(s, seen) ==> w in s
  {
    if s != [] {
      assert s == [s[0]] + s[1..];
      assert Ids(s) == {s[0].id} + Ids(s[1..]);
      if s[0].id in seen {
        FirstOfEachFacts(s[1..], seen);
      } else {
        var rest := FirstOfEach(s[1..], seen + {s[0].id});
        FirstOfEachFacts(s[1..], seen + {s[0].id});
        IdsOfCons(s[0], rest);
        forall i | 0 <= i < |rest| ensures rest[i].id != s[0].id {
          assert rest[i].id in Ids(rest);
        }
      }
    }
  }

  lemma IdsOfCons(w: Waiting, s: seq<Waiting>)
    ensures Ids([w] + s) == {w.id} + Ids(s)
  {
    assert forall x :: x in [w] + s <==> x == w || x in s;
  }

  lemma IdsOfConcat(a: seq<Waiting>, b: seq<Waiting>)
    ensures Ids(a + b) == Ids(a) + Ids(b)
  {
    assert forall x :: x in a + b <==> x in a || x in b;
  }

  lemma {:induction false} DistinctCardinality(s: seq<Waiting>)
    requires DistinctIds(s)
    ensures |Ids(s)| == |s|
  {
    if s != [] {
      DistinctCardinality(s[1..]);
      assert s == [s[0]] + s[1..];
      IdsOfCons(s[0], s[1..]);
      assert s[0].id !in Ids(s[1..]);
    }
  }

  lemma IdsSize(s: seq<Waiting>)
    ensures |Ids(s)| == |FirstOfEach(s, {})| <= |s|
  {
    FirstOfEachFacts(s, {});
    DistinctCardinality(FirstOfEach(s, {}));
  }

  /** One more scan met: it joins the pick unless its id was met before. */
  lemma MeetOne(s: seq<Waiting>, x: Waiting)
    ensures FirstOfEach(s + [x], {}) == FirstOfEach(s, {}) + (if x.id in Ids(s) then [] else [x])
    ensures Ids(s + [x]) == Ids(s) + {x.id}
  {
    FirstOfEachConcat(s, [x], {});
    assert {} + Ids(s) == Ids(s);
    IdsOfConcat(s, [x]);
    assert Ids([x]) == {x.id};
  }

  /** What the scheduler has looked at after the prefix and `visited` steps of the turn. */
  ghost function Walked(prepared: seq<Waiting>, start: nat, visited: nat): seq<Waiting>
    requires start < |prepared| && visited <= |prepared|
  {
    prepared[..Recent(|prepared|)] + Rotate(prepared, start)[..visited]
  }

  ghost function WalkIndex(n: nat, start: nat, visited: nat): nat
    requires start < n && visited <= n
  {
    if start + visited < n then start + visited else start + visited - n
  }

  lemma NextIndex(i: nat, n: nat)
    requires i < n
    ensures (i + 1) % n == if i + 1 == n then 0 else i + 1
  {
  }

  lemma WalkOne(prepared: seq<Waiting>, start: nat, visited: nat)
    requires start < |prepared| && visited < |prepared|
    ensures Walked(prepared, start, visited + 1) ==
            Walked(prepared, start, visited) + [prepared[WalkIndex(|prepared|, start, visited)]]
    ensures (WalkIndex(|prepared|, start, visited) + 1) % |prepared| == WalkIndex(|prepared|, start, visited + 1)
  {
    NextIndex(WalkIndex(|prepared|, start, visited), |prepared|);
    var turn := Rotate(prepared, start);
    assert turn[visited] == prepared[WalkIndex(|prepared|, start, visited)];
    assert turn[..visited + 1] == turn[..visited] + [turn[visited]];
  }

  /** Stopping the turn early loses nothing once the window is full. */
  lemma WalkStops(prepared: seq<Waiting>, start: nat, visited: nat)
    requires start < |prepared| && visited <= |prepared|
    requires var met := |FirstOfEach(Walked(prepared, start, visited), {})|;
             met <= Window(|prepared|) && (met == Window(|prepared|) || visited == |prepared|)
    ensures FirstOfEach(Walked(prepared, start, visited), {}) == Picks(prepared, start)
  {
    var head, turn := prepared[..Recent(|prepared|)], Rotate(prepared, start);
    var walked := Walked(prepared, start, visited);
    assert turn == turn[..visited] + turn[visited..];
    assert head + turn == walked + turn[visited..];
    FirstOfEachConcat(walked, turn[visited..], {});
    if visited == |prepared| {
      assert walked == head + turn;
    }
  }

  /** First loop of the scheduler: the most recent scans. */
  method TakeRecent(prepared: seq<Waiting>) returns (candidates: seq<Waiting>, selected: set<string>)
    requires AllNamed(prepared)
    ensures candidates == FirstOfEach(prepared[..Recent(|prepared|)], {})
    ensures selected == Ids(prepared[..Recent(|prepared|)])
  {
    candidates := [];
    selected := {};
    for i := 0 to Recent(|prepared|)
      invariant selected == Ids(prepared[..i])
      invariant candidates == FirstOfEach(prepared[..i], {})
    {
      var scan := prepared[i];
      assert prepared[..i + 1] == prepared[..i] + [scan];
      MeetOne(prepared[..i], scan);
      if scan.id != "" && scan.id !in selected {
        candidates := candidates + [scan];
        selected := selected + {scan.id};
      }
    }
  }

  /** The scheduler computes exactly the reference pick; its walk ends because every
      turn of the loop visits one more position. */
  method Select(prepared: seq<Waiting>, cursor: nat) returns (candidates: seq<Waiting>, cursor': nat)
    requires prepared != [] && AllNamed(prepared)
    ensures candidates == Picks(prepared, cursor % |prepared|)
    ensures cursor' == NextCursor(|prepared|, cursor)
  {
    var n := |prepared|;
    var windowSize := Window(n);
    var selected;
    candidates, selected := TakeRecent(prepared);
    var start := cursor % n;
    cursor' := (start + windowSize) % n;
    var idx := start;
    var visited := 0;
    assert Walked(prepared, start, 0) == prepared[..Recent(n)];
    IdsSize(prepared[..Recent(n)]);
    while |candidates| < windowSize && visited < n
      invariant visited <= n && idx == WalkIndex(n, start, visited)
      invariant selected == Ids(Walked(prepared, start, visited))
      invariant candidates == FirstOfEach(Walked(prepared, start, visited), {})
      invariant |candidates| <= windowSize
      decreases n - visited
    {
      var scan := prepared[idx];
      WalkOne(prepared, start, visited);
      MeetOne(Walked(prepared, start, visited), scan);
      if scan.id != "" && scan.id !in selected {
        candidates := candidates + [scan];
        selected := selected + {scan.id};
      }
      idx := (idx + 1) % n;
      visited := visited + 1;
    }
    WalkStops(prepared, start, visited);
  }

  lemma TurnIds(prepared: seq<Waiting>, start: nat, k: nat)
    requires start < |prepared| && k <= |prepared|
    ensures Ids(prepared[..k] + Rotate(prepared, start)) == Ids(prepared)
  {
    assert prepared == prepared[..start] + prepared[start..];
    IdsOfConcat(prepared[..start], prepared[start..]);
    IdsOfConcat(prepared[start..], prepared[..start]);
    IdsOfConcat(prepared[..k], Rotate(prepared, start));
    assert prepared == prepared[..k] + prepared[k..];
    IdsOfConcat(prepared[..k], prepared[k..]);
  }

  lemma PrefixPicked(prepared: seq<Waiting>, start: nat)
    requires start < |prepared|
    ensures Ids(prepared[..Recent(|prepared|)]) <= Ids(Picks(prepared, start))
  {
    var head, turn := prepared[..Recent(|prepared|)], Rotate(prepared, start);
    var first := FirstOfEach(head, {});
    FirstOfEachConcat(head, turn, {});
    FirstOfEachFacts(head, {});
    var picks := Picks(prepared, start);
    assert picks == first + picks[|first|..];
    IdsOfConcat(first, picks[|first|..]);
  }

  /** The pick is exact: distinct ids, all of them waiting, as many as the window and
      the number of distinct waiting ids allow, the most recent positions always in. */
  lemma SelectionExact(prepared: seq<Waiting>, start: nat)
    requires start < |prepared|
    ensures DistinctIds(Picks(prepared, start))
    ensures |Picks(prepared, start)| == Min(500, |Ids(prepared)|)
    ensures forall w :: w in Picks(prepared, start) ==> w in prepared
    ensures forall i :: 0 <= i < |prepared| && i < 20 ==> prepared[i].id in Ids(Picks(prepared, start))
  {
    var n := |prepared|;
    var all := prepared[..Recent(n)] + Rotate(prepared, start);
    FirstOfEachFacts(all, {});
    TurnIds(prepared, start, Recent(n));
    DistinctCardinality(FirstOfEach(all, {}));
    IdsSize(prepared);
    PrefixPicked(prepared, start);
    forall w | w in Picks(prepared, start) ensures w in prepared {
      assert w in all;
    }
    forall i | 0 <= i < n && i < RECENT_PRIORITY ensures prepared[i].id in Ids(Picks(prepared, start)) {
      assert prepared[i] in prepared[..Recent(n)];
    }
  }
}
