/** Reported page coverage over sequences of hydrate calls. */
module CoverageRuns {
  import opened Sorting
  import opened Domain
  import opened RefreshQueue
  import opened Coverage
  import opened CoverageService
  import opened Text
  import opened Wrappers

  predicate Names(scan: Scan, id: string)
  {
    Tracked(scan) && ScanId(scan) == id
  }

  predicate Unlisted(scans: seq<Scan>, id: string)
  {
    forall y :: y in scans ==> !Names(y, id)
  }

  /** Every tracked scan named `id` in the list is this one. */
  predicate OnlyScan(scans: seq<Scan>, id: string, x: Scan)
  {
    x in scans && Names(x, id) && forall y :: y in scans && Names(y, id) ==> y == x
  }

  predicate DistinctScans(scans: seq<Scan>)
  {
    forall i, j :: 0 <= i < j < |scans| && Tracked(scans[i]) && Tracked(scans[j]) ==>
        ScanId(scans[i]) != ScanId(scans[j])
  }

  predicate SameEntry(a: Cache, b: Cache, id: string)
  {
    (id in a <==> id in b) && (id in a ==> a[id] == b[id])
  }

  // ---------------------------------------------------------------- one call

  lemma {:induction false} SiftLeavesOthers(cache: Cache, scans: seq<Scan>, now: int, lease: int, id: string)
    requires forall y :: y in scans && Names(y, id) ==> y.pages <= 0
    ensures SameEntry(cache, Sift(cache, scans, now, lease).cache, id)
    ensures Unlisted(scans, id) ==> id !in Ids(Sift(cache, scans, now, lease).waiting)
    decreases |scans|
  {
    if scans != [] {
      SiftLeavesOthers(cache, scans[..|scans| - 1], now, lease, id);
    }
  }

  lemma {:induction false} SiftRenews(cache: Cache, scans: seq<Scan>, now: int, lease: int, id: string, x: Scan)
    requires x.pages > 0 && forall y :: y in scans && Names(y, id) ==> y == x
    ensures id !in Ids(Sift(cache, scans, now, lease).waiting)
    ensures !Unlisted(scans, id) ==>
              var c := Sift(cache, scans, now, lease).cache;
              id in c && c[id] == Entry(x.pages, now, now + lease, "scan_list")
    decreases |scans|
  {
    if scans != [] {
      var init, last := scans[..|scans| - 1], scans[|scans| - 1];
      SiftRenews(cache, init, now, lease, id, x);
      assert scans == init + [last];
      assert last in scans && forall y :: y in init ==> y in scans;
      if Names(last, id) {
        assert last == x;
      }
    }
  }

  lemma {:induction false} WrittenEntry(cache: Cache, candidates: seq<Waiting>, answers: map<string, Answer>, now: int,
                                        lease: int, id: string)
    ensures var c := Written(cache, candidates, answers, now, lease);
            || SameEntry(cache, c, id)
            || (id in Ids(candidates) && id in answers && id in c
                && c[id] == Collected(answers[id].pages, answers[id].source, now, lease))
    decreases |candidates|
  {
    if candidates != [] {
      var init, last := candidates[..|candidates| - 1], candidates[|candidates| - 1];
      WrittenEntry(cache, init, answers, now, lease, id);
      assert candidates == init + [last];
      IdsOfConcat(init, [last]);
      assert last.id in Ids([last]);
    }
  }

  /** The cache after scheduling, and who may be asked about. */
  lemma ScheduledFacts(s: State, scans: seq<Scan>, now: int, lease: int)
    requires s.running == map[]
    ensures var s', sifted := Scheduled(s, scans, now, lease), Sift(s.cache, Sort(scans, NewerFirst), now, lease);
            && s'.cache == sifted.cache
            && (s'.Busy() ==>
                Ids(s'.running[s'.slot.value]) <= Ids(sifted.waiting) && s'.running.Keys == {s'.slot.value})
            && (!s'.Busy() ==> s'.running == map[])
  {
    var waiting := Sift(s.cache, Sort(scans, NewerFirst), now, lease).waiting;
    if waiting != [] {
      SelectionExact(waiting, s.cursor % |waiting|);
    }
  }

  /** What the rest of a call can do to one entry: nothing, or a refresh collected it. */
  lemma CallEntry(s: State, turn: Turn, lease: int, id: string)
    requires s.running == map[]
    ensures HydratedState(s, turn, lease).running == map[]
    ensures var sifted := Sift(s.cache, Sort(OverlayAll(s.cache, turn.scans, turn.applyAt), NewerFirst),
                               turn.scheduleAt, lease);
            var c := HydratedState(s, turn, lease).cache;
            || SameEntry(sifted.cache, c, id)
            || (id in Ids(sifted.waiting) && id in c && turn.answers.Some? && id in turn.answers.value
                && c[id].pages == turn.answers.value[id].pages
                && c[id] == Collected(c[id].pages, c[id].source, turn.collectAt, lease))
  {
    var shown := OverlayAll(s.cache, turn.scans, turn.applyAt);
    ScheduledFacts(s, shown, turn.scheduleAt, lease);
    var s' := Scheduled(s, shown, turn.scheduleAt, lease);
    if s'.Busy() && turn.answers.Some? {
      WrittenEntry(s'.cache, s'.running[s'.slot.value], turn.answers.value, turn.collectAt, lease, id);
    }
  }

  lemma ShownFrom(s: State, turn: Turn, id: string, y: Scan) returns (x: Scan)
    requires y in Sort(OverlayAll(s.cache, turn.scans, turn.applyAt), NewerFirst) && Names(y, id)
    ensures x in turn.scans && Names(x, id) && y == Overlay(s.cache, x, turn.applyAt)
  {
    var shown := OverlayAll(s.cache, turn.scans, turn.applyAt);
    SortElements(shown, NewerFirst);
    var i :| 0 <= i < |shown| && shown[i] == y;
    x := turn.scans[i];
  }

  lemma ShownOnly(s: State, turn: Turn, id: string, x: Scan)
    requires OnlyScan(turn.scans, id, x)
    ensures OnlyScan(Sort(OverlayAll(s.cache, turn.scans, turn.applyAt), NewerFirst), id,
                     Overlay(s.cache, x, turn.applyAt))
  {
    var shown := OverlayAll(s.cache, turn.scans, turn.applyAt);
    SortElements(shown, NewerFirst);
    var i :| 0 <= i < |turn.scans| && turn.scans[i] == x;
    assert shown[i] in shown;
    forall y | y in Sort(shown, NewerFirst) && Names(y, id) ensures y == Overlay(s.cache, x, turn.applyAt) {
      var z := ShownFrom(s, turn, id, y);
    }
  }

  lemma ShownScans(s: State, turn: Turn, id: string)
    ensures Unlisted(turn.scans, id) ==> Unlisted(Sort(OverlayAll(s.cache, turn.scans, turn.applyAt), NewerFirst), id)
    ensures forall x :: OnlyScan(turn.scans, id, x) ==>
              OnlyScan(Sort(OverlayAll(s.cache, turn.scans, turn.applyAt), NewerFirst), id,
                       Overlay(s.cache, x, turn.applyAt))
  {
    forall y | y in Sort(OverlayAll(s.cache, turn.scans, turn.applyAt), NewerFirst) && Names(y, id)
      ensures !Unlisted(turn.scans, id)
    {
      var x := ShownFrom(s, turn, id, y);
    }
    forall x | OnlyScan(turn.scans, id, x) {
      ShownOnly(s, turn, id, x);
    }
  }

  predicate Ordered(turn: Turn)
  {
    turn.applyAt <= turn.scheduleAt <= turn.collectAt <= turn.reapplyAt
  }

  /** The page count a call reports for a scan. */
  function PagesReported(s: State, turn: Turn, x: Scan, lease: int): int
  {
    Overlay(HydratedState(s, turn, lease).cache, Overlay(s.cache, x, turn.applyAt), turn.reapplyAt).pages
  }

  /** A call that does not list the scan leaves its entry alone. */
  lemma Untouched(s: State, turn: Turn, lease: int, id: string)
    requires s.running == map[] && Unlisted(turn.scans, id)
    ensures HydratedState(s, turn, lease).running == map[]
    ensures SameEntry(s.cache, HydratedState(s, turn, lease).cache, id)
  {
    ShownScans(s, turn, id);
    SiftLeavesOthers(s.cache, Sort(OverlayAll(s.cache, turn.scans, turn.applyAt), NewerFirst), turn.scheduleAt, lease,
                     id);
    CallEntry(s, turn, lease, id);
  }

  /** A call that lists the scan reports at least what the list and a live entry say, and
      leaves exactly what it reported in the cache, under a lease from this call on. */
  lemma Settles(s: State, turn: Turn, lease: int, id: string, x: Scan)
    requires s.running == map[] && Ordered(turn) && lease > 0 && OnlyScan(turn.scans, id, x)
    ensures var r, c := PagesReported(s, turn, x, lease), HydratedState(s, turn, lease).cache;
            && r >= x.pages
            && (id in s.cache && turn.applyAt < s.cache[id].expiresAt && s.cache[id].pages > 0 ==>
                r >= s.cache[id].pages)
            && (r > 0 ==> id in c && c[id].pages == r && c[id].expiresAt >= turn.scheduleAt + lease)
    ensures HydratedState(s, turn, lease).running == map[]
  {
    var shown := Overlay(s.cache, x, turn.applyAt);
    var sorted := Sort(OverlayAll(s.cache, turn.scans, turn.applyAt), NewerFirst);
    ShownScans(s, turn, id);
    CallEntry(s, turn, lease, id);
    if shown.pages > 0 {
      SiftRenews(s.cache, sorted, turn.scheduleAt, lease, id, shown);
    } else {
      SiftLeavesOthers(s.cache, sorted, turn.scheduleAt, lease, id);
    }
  }

  // ---------------------------------------------------------------- where a report comes from

  /** What a call shows of a scan, told by the expiry of the entries alone: nothing changes for a
      scan that is not dynamic or has no id; for the others the report is at least the listed
      count and every positive count still alive at one of the two overlays, and is one of them. */
  lemma ReportIsMaximum(s: State, turn: Turn, lease: int, p: nat)
    requires p < |turn.scans|
    ensures var x, r := turn.scans[p], Reported(s, turn, lease)[p];
            var id, before, after := Trim(x.id), s.cache, HydratedState(s, turn, lease).cache;
            && r == x.(pages := r.pages)
            && (x.scanType != DastScan || id == "" ==> r == x)
            && (x.scanType == DastScan && id != "" ==>
                && r.pages >= x.pages
                && (id in before && turn.applyAt < before[id].expiresAt && before[id].pages > 0 ==>
                    r.pages >= before[id].pages)
                && (id in after && turn.reapplyAt < after[id].expiresAt && after[id].pages > 0 ==>
                    r.pages >= after[id].pages)
                && (|| r.pages == x.pages
                    || (id in before && turn.applyAt < before[id].expiresAt && r.pages == before[id].pages)
                    || (id in after && turn.reapplyAt < after[id].expiresAt && r.pages == after[id].pages)))
  {
  }

  /** The scans a call finds in want of a page count. */
  function WaitingOf(s: State, turn: Turn, lease: int): seq<Waiting>
  {
    Sift(s.cache, Sort(OverlayAll(s.cache, turn.scans, turn.applyAt), NewerFirst), turn.scheduleAt, lease).waiting
  }

  lemma {:induction false} SiftQueues(cache: Cache, scans: seq<Scan>, now: int, lease: int, id: string, x: Scan)
    requires x.pages <= 0 && forall y :: y in scans && Names(y, id) ==> y == x
    ensures id in Ids(Sift(cache, scans, now, lease).waiting) <==>
              !Unlisted(scans, id) && !(id in cache && now < cache[id].expiresAt)
    decreases |scans|
  {
    if scans != [] {
      var init, last := scans[..|scans| - 1], scans[|scans| - 1];
      assert scans == init + [last] && last in scans && forall y :: y in init ==> y in scans;
      SiftQueues(cache, init, now, lease, id, x);
      SiftLeavesOthers(cache, init, now, lease, id);
      var before := Sift(cache, init, now, lease).waiting;
      IdsOfConcat(before, [Waiting(ScanId(last), CreatedKey(last), last.execId)]);
      assert Unlisted(scans, id) <==> Unlisted(init, id) && !Names(last, id);
    }
  }

  /** A listed scan is asked about exactly when it has no pages to show and no entry, of whatever
      count, that is still alive. */
  lemma WaitsExactly(s: State, turn: Turn, lease: int, id: string, x: Scan)
    requires OnlyScan(turn.scans, id, x)
    ensures id in Ids(WaitingOf(s, turn, lease)) <==>
              && x.pages <= 0
              && !(id in s.cache && turn.applyAt < s.cache[id].expiresAt && s.cache[id].pages > 0)
              && !(id in s.cache && turn.scheduleAt < s.cache[id].expiresAt)
  {
    var sorted := Sort(OverlayAll(s.cache, turn.scans, turn.applyAt), NewerFirst);
    var shown := Overlay(s.cache, x, turn.applyAt);
    ShownOnly(s, turn, id, x);
    if shown.pages > 0 {
      SiftRenews(s.cache, sorted, turn.scheduleAt, lease, id, shown);
    } else {
      SiftQueues(s.cache, sorted, turn.scheduleAt, lease, id, shown);
      assert !Unlisted(sorted, id);
    }
  }

  /** Who a call asks about: all scans in want of a count if they are at most 500; else those the
      cursor has come to. */
  function AskedBy(s: State, turn: Turn, lease: int): set<string>
  {
    var waiting := WaitingOf(s, turn, lease);
    if waiting == [] then {} else Ids(Picks(waiting, s.cursor % |waiting|))
  }

  lemma AllAreAsked(s: State, turn: Turn, lease: int)
    ensures AskedBy(s, turn, lease) <= Ids(WaitingOf(s, turn, lease))
    ensures |AskedBy(s, turn, lease)| == Min(500, |Ids(WaitingOf(s, turn, lease))|)
    ensures |Ids(WaitingOf(s, turn, lease))| <= 500 ==> AskedBy(s, turn, lease) == Ids(WaitingOf(s, turn, lease))
  {
    var waiting := WaitingOf(s, turn, lease);
    if waiting != [] {
      var picks := Picks(waiting, s.cursor % |waiting|);
      SelectionExact(waiting, s.cursor % |waiting|);
      DistinctCardinality(picks);
      assert Ids(picks) <= Ids(waiting);
      if |Ids(waiting)| <= 500 {
        SameSize(Ids(picks), Ids(waiting));
      }
    }
  }

  lemma SameSize(a: set<string>, b: set<string>)
    requires a <= b && |a| == |b|
    ensures a == b
  {
    assert |b - a| == |b| - |a|;
  }

  lemma {:induction false} AnswerIsWritten(cache: Cache, candidates: seq<Waiting>, answers: map<string, Answer>,
                                           now: int, lease: int, id: string)
    requires id in Ids(candidates) && id in answers
    ensures var c := Written(cache, candidates, answers, now, lease);
            var n := answers[id].pages;
            id in c && c[id] == Entry(n, now, now + (if n > 0 then lease else 120_000_000), answers[id].source)
    decreases |candidates|
  {
    var init, last := candidates[..|candidates| - 1], candidates[|candidates| - 1];
    assert candidates == init + [last];
    IdsOfConcat(init, [last]);
    if last.id != id {
      assert id !in Ids([last]);
      AnswerIsWritten(cache, init, answers, now, lease, id);
    }
  }

  /** A scan asked about whose answer comes in time is reported with it, and remembered for the long
      lease, or for two minutes if the answer was that it has no pages. */
  lemma AnswerIsShown(s: State, turn: Turn, lease: int, id: string, x: Scan)
    requires s.running == map[] && OnlyScan(turn.scans, id, x)
    requires id in AskedBy(s, turn, lease) && turn.answers.Some? && id in turn.answers.value
    ensures var n, c := turn.answers.value[id].pages, HydratedState(s, turn, lease).cache;
            && id in c && c[id].pages == n && c[id].collectedAt == turn.collectAt
            && c[id].expiresAt == turn.collectAt + (if n > 0 then lease else 120_000_000)
            && (n > 0 && turn.reapplyAt < turn.collectAt + lease ==> PagesReported(s, turn, x, lease) == n)
  {
    var shown := OverlayAll(s.cache, turn.scans, turn.applyAt);
    var waiting := WaitingOf(s, turn, lease);
    var s' := Scheduled(s, shown, turn.scheduleAt, lease);
    AllAreAsked(s, turn, lease);
    WaitsExactly(s, turn, lease, id, x);
    assert s'.Busy() && s'.running[s'.slot.value] == Picks(waiting, s.cursor % |waiting|);
    AnswerIsWritten(s'.cache, s'.running[s'.slot.value], turn.answers.value, turn.collectAt, lease, id);
  }

  /** Where a report above the listed count comes from: an entry that had not expired when the
      call began, or an answer this call waited for about a scan it found in want of one. */
  lemma ReportHasSource(s: State, turn: Turn, lease: int, id: string, x: Scan)
    requires s.running == map[] && Ordered(turn) && OnlyScan(turn.scans, id, x)
    ensures var r := PagesReported(s, turn, x, lease);
            || r == x.pages
            || (id in s.cache && turn.applyAt < s.cache[id].expiresAt && r == s.cache[id].pages)
            || (id in Ids(WaitingOf(s, turn, lease)) && turn.answers.Some? && id in turn.answers.value
                && r == turn.answers.value[id].pages)
  {
    var sorted := Sort(OverlayAll(s.cache, turn.scans, turn.applyAt), NewerFirst);
    var shown := Overlay(s.cache, x, turn.applyAt);
    ShownOnly(s, turn, id, x);
    CallEntry(s, turn, lease, id);
    if shown.pages > 0 {
      SiftRenews(s.cache, sorted, turn.scheduleAt, lease, id, shown);
    } else {
      SiftLeavesOthers(s.cache, sorted, turn.scheduleAt, lease, id);
    }
  }

  ghost predicate NewestFirst(waiting: seq<Waiting>)
  {
    forall i, j :: 0 <= i < j < |waiting| ==> waiting[i].created >= waiting[j].created
  }

  /** Each waiting scan carries the date of one that is listed, or 0. */
  ghost predicate DatedAs(waiting: seq<Waiting>, scans: seq<Scan>)
  {
    forall w :: w in waiting ==> exists y :: y in scans && CreatedKey(y) == w.created
  }

  lemma {:induction false} SiftedOrder(cache: Cache, scans: seq<Scan>, now: int, lease: int)
    requires SortedBy(scans, NewerFirst)
    ensures NewestFirst(Sift(cache, scans, now, lease).waiting)
    ensures DatedAs(Sift(cache, scans, now, lease).waiting, scans)
    decreases |scans|
  {
    if scans != [] {
      var init, last := scans[..|scans| - 1], scans[|scans| - 1];
      SiftedOrder(cache, init, now, lease);
      var before := Sift(cache, init, now, lease).waiting;
      assert last in scans;
      forall w | w in before
        ensures w.created >= CreatedKey(last) && exists y :: y in scans && CreatedKey(y) == w.created
      {
        var y :| y in init && CreatedKey(y) == w.created;
        var k :| 0 <= k < |init| && init[k] == y;
        assert NewerFirst(scans[k], last) && scans[k] in scans;
      }
    }
  }

  /** The scans in want of a count wait in the order of their dates, the newest first; those
      without a date come after all dated since the epoch. */
  lemma NewestWaitFirst(s: State, turn: Turn, lease: int)
    ensures NewestFirst(WaitingOf(s, turn, lease))
    ensures forall w :: w in WaitingOf(s, turn, lease) ==>
              exists x :: x in turn.scans && w.created == if x.createdAt.Some? then x.createdAt.value.micros else 0
  {
    var shown := OverlayAll(s.cache, turn.scans, turn.applyAt);
    var sorted := Sort(shown, NewerFirst);
    NewerFirstIsPreorder();
    SortSorts(shown, NewerFirst);
    SortElements(shown, NewerFirst);
    SiftedOrder(s.cache, sorted, turn.scheduleAt, lease);
    forall w | w in WaitingOf(s, turn, lease)
      ensures exists x :: x in turn.scans && w.created == if x.createdAt.Some? then x.createdAt.value.micros else 0
    {
      var y :| y in sorted && CreatedKey(y) == w.created;
      var k :| 0 <= k < |shown| && shown[k] == y;
      assert turn.scans[k] in turn.scans;
    }
  }

  lemma NewerFirstIsPreorder()
    ensures TotalPreorder(NewerFirst)
  {
  }

  // ---------------------------------------------------------------- runs

  /** The module state before call `k`. */
  function StateBefore(turns: seq<Turn>, k: nat, lease: int): State
    requires k <= |turns|
  {
    if k == 0 then START else HydratedState(StateBefore(turns, k - 1, lease), turns[k - 1], lease)
  }

  predicate Proper(turn: Turn)
  {
    Ordered(turn) && DistinctScans(turn.scans)
  }

  ghost predicate Sequential(turns: seq<Turn>)
  {
    forall k {:trigger Proper(turns[k])} :: 0 <= k < |turns| ==> Proper(turns[k])
  }

  predicate Lists(turn: Turn, id: string)
  {
    !Unlisted(turn.scans, id)
  }

  /** When the last call from `i` on and before `m` that listed the scan scheduled. */
  function LastScheduled(turns: seq<Turn>, i: nat, m: nat, id: string): int
    requires i < m <= |turns|
  {
    if m == i + 1 || Lists(turns[m - 1], id) then turns[m - 1].scheduleAt
    else LastScheduled(turns, i, m - 1, id)
  }

  /** Between one call listing the scan and the next, less than the lease goes by. */
  ghost predicate RenewedInTime(turns: seq<Turn>, i: nat, j: nat, id: string, lease: int)
    requires j < |turns|
  {
    forall m {:trigger LastScheduled(turns, i, m, id)} ::
      i < m <= j && Lists(turns[m], id) ==> turns[m].applyAt < LastScheduled(turns, i, m, id) + lease
  }

  lemma DistinctHasOnly(scans: seq<Scan>, p: nat, id: string)
    requires DistinctScans(scans) && p < |scans| && Names(scans[p], id)
    ensures OnlyScan(scans, id, scans[p])
  {
  }

  lemma {:induction false} NothingRunning(turns: seq<Turn>, k: nat, lease: int)
    requires k <= |turns|
    ensures StateBefore(turns, k, lease).running == map[]
  {
    if k > 0 {
      NothingRunning(turns, k - 1, lease);
      CallEntry(StateBefore(turns, k - 1, lease), turns[k - 1], lease, "");
    }
  }

  /** The cache holds at least `r` pages for the scan, until `deadline` or longer. */
  predicate Holds(cache: Cache, id: string, r: int, deadline: int)
  {
    id in cache && cache[id].expiresAt >= deadline && cache[id].pages >= r
  }

  /** What the cache holds before call `m`. */
  predicate HeldBefore(turns: seq<Turn>, m: nat, id: string, r: int, deadline: int, lease: int)
    requires m <= |turns|
  {
    Holds(StateBefore(turns, m, lease).cache, id, r, deadline)
  }

  lemma FirstHeld(turns: seq<Turn>, i: nat, p: nat, id: string, lease: int)
    requires i < |turns| && Sequential(turns) && lease > 0
    requires p < |turns[i].scans| && Names(turns[i].scans[p], id)
    ensures var r := PagesReported(StateBefore(turns, i, lease), turns[i], turns[i].scans[p], lease);
            r > 0 ==> HeldBefore(turns, i + 1, id, r, turns[i].scheduleAt + lease, lease)
  {
    NothingRunning(turns, i, lease);
    assert Proper(turns[i]);
    DistinctHasOnly(turns[i].scans, p, id);
    Settles(StateBefore(turns, i, lease), turns[i], lease, id, turns[i].scans[p]);
  }

  lemma StillHeld(s: State, turn: Turn, id: string, r: int, deadline: int, lease: int)
    requires s.running == map[] && Proper(turn) && lease > 0 && r > 0
    requires Holds(s.cache, id, r, deadline)
    requires Lists(turn, id) ==> turn.applyAt < deadline
    ensures Holds(HydratedState(s, turn, lease).cache, id, r, if Lists(turn, id) then turn.scheduleAt + lease
                  else deadline)
  {
    if Lists(turn, id) {
      var q :| 0 <= q < |turn.scans| && Names(turn.scans[q], id);
      DistinctHasOnly(turn.scans, q, id);
      Settles(s, turn, lease, id, turn.scans[q]);
    } else {
      Untouched(s, turn, lease, id);
    }
  }

  lemma HeldStep(turns: seq<Turn>, i: nat, m: nat, id: string, r: int, lease: int)
    requires i + 1 < m <= |turns| && Proper(turns[m - 1]) && lease > 0 && r > 0
    requires Lists(turns[m - 1], id) ==> turns[m - 1].applyAt < LastScheduled(turns, i, m - 1, id) + lease
    requires HeldBefore(turns, m - 1, id, r, LastScheduled(turns, i, m - 1, id) + lease, lease)
    ensures HeldBefore(turns, m, id, r, LastScheduled(turns, i, m, id) + lease, lease)
  {
    NothingRunning(turns, m - 1, lease);
    StillHeld(StateBefore(turns, m - 1, lease), turns[m - 1], id, r, LastScheduled(turns, i, m - 1, id) + lease, lease);
  }

  /** From call `i` to call `j` the cache holds at least what call `i` reported, under the
      lease of the last call that listed the scan. */
  lemma {:induction false} Held(turns: seq<Turn>, i: nat, m: nat, j: nat, id: string, r: int, lease: int)
    requires i < m <= j < |turns| && Sequential(turns) && lease > 0 && r > 0
    requires RenewedInTime(turns, i, j, id, lease)
    requires HeldBefore(turns, i + 1, id, r, turns[i].scheduleAt + lease, lease)
    ensures HeldBefore(turns, m, id, r, LastScheduled(turns, i, m, id) + lease, lease)
    decreases m
  {
    if m > i + 1 {
      Held(turns, i, m - 1, j, id, r, lease);
      assert Proper(turns[m - 1]);
      assert Lists(turns[m - 1], id) ==> turns[m - 1].applyAt < LastScheduled(turns, i, m - 1, id) + lease;
      HeldStep(turns, i, m, id, r, lease);
    }
  }

  /** Reported page coverage never goes backwards: over any sequence of calls, a later
      report of a scan is at least as high as an earlier one, as long as the calls that
      list it come before its lease runs out. */
  lemma NeverBackwards(turns: seq<Turn>, i: nat, p: nat, j: nat, q: nat, id: string, setting: int)
    requires i < j < |turns| && Sequential(turns)
    requires p < |turns[i].scans| && Names(turns[i].scans[p], id)
    requires q < |turns[j].scans| && Names(turns[j].scans[q], id)
    requires RenewedInTime(turns, i, j, id, LongLease(setting))
    ensures var lease := LongLease(setting);
            var earlier := Reported(StateBefore(turns, i, lease), turns[i], lease)[p].pages;
            var later := Reported(StateBefore(turns, j, lease), turns[j], lease)[q].pages;
            earlier > 0 ==> later >= earlier
  {
    var lease := LongLease(setting);
    var r := PagesReported(StateBefore(turns, i, lease), turns[i], turns[i].scans[p], lease);
    if r > 0 {
      FirstHeld(turns, i, p, id, lease);
      Held(turns, i, j, j, id, r, lease);
      NothingRunning(turns, j, lease);
      assert Proper(turns[j]);
      DistinctHasOnly(turns[j].scans, q, id);
      Settles(StateBefore(turns, j, lease), turns[j], lease, id, turns[j].scans[q]);
    }
  }

  /** Hydrating keeps every scan in place and changes nothing but a page count, upwards. */
  lemma OnlyPagesGrow(s: State, turn: Turn, lease: int, i: nat)
    requires i < |turn.scans|
    ensures var r := Reported(s, turn, lease)[i];
            r.pages >= turn.scans[i].pages && r == turn.scans[i].(pages := r.pages)
  {
  }
}
