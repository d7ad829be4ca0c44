/** The hydrate call itself, on mutable scan rows: copy, overlay the cache, schedule a
    refresh, wait for it, overlay again. */
module CoverageService {
  import opened Wrappers
  import opened Text
  import opened Sorting
  import opened Domain
  import opened RefreshQueue
  import opened Coverage

  /** One sequential hydrate call: when its phases run, and how the refresh it waits for
      ends; None stands for the refresh running out of time. */
  datatype Turn = Turn(scans: seq<Scan>, applyAt: int, scheduleAt: int, collectAt: int, reapplyAt: int,
                       answers: Option<map<string, Answer>>)

  function AfterWait(s: State, turn: Turn, lease: int): State
  {
    if !s.Busy() then s
    else if turn.answers.Some? then Finished(s, s.slot.value, turn.answers.value, turn.collectAt, lease)
    else Aborted(s, s.slot.value)
  }

  /** The module state a hydrate call leaves behind. */
  function HydratedState(s: State, turn: Turn, lease: int): State
  {
    AfterWait(Scheduled(s, OverlayAll(s.cache, turn.scans, turn.applyAt), turn.scheduleAt, lease), turn, lease)
  }

  /** The scans a hydrate call returns. */
  function Reported(s: State, turn: Turn, lease: int): (r: seq<Scan>)
    ensures |r| == |turn.scans|
  {
    OverlayAll(HydratedState(s, turn, lease).cache, OverlayAll(s.cache, turn.scans, turn.applyAt), turn.reapplyAt)
  }

  /** A scan dictionary: an object whose content is updated in place. */
  class ScanRow {
    var scan: Scan

    constructor (scan: Scan)
      ensures this.scan == scan
    {
      this.scan := scan;
    }
  }

  ghost predicate DistinctRows(rows: seq<ScanRow>)
  {
    forall i, j :: 0 <= i < j < |rows| ==> rows[i] != rows[j]
  }

  function Values(rows: seq<ScanRow>): (r: seq<Scan>)
    reads rows
    ensures |r| == |rows|
    ensures forall i :: 0 <= i < |rows| ==> r[i] == rows[i].scan
  {
    seq(|rows|, i requires 0 <= i < |rows| reads rows => rows[i].scan)
  }

  lemma {:induction false} SiftNamed(cache: Cache, scans: seq<Scan>, now: int, lease: int)
    ensures AllNamed(Sift(cache, scans, now, lease).waiting)
    decreases |scans|
  {
    if scans != [] {
      SiftNamed(cache, scans[..|scans| - 1], now, lease);
    }
  }

  /** The first endpoint that reports pages wins; otherwise the scan has none. */
  method FetchPages(endpoints: seq<Answer>) returns (answer: Answer)
    ensures (forall e :: e in endpoints ==> e.pages <= 0) ==> answer == Answer(0, "none")
    ensures forall k ::
              0 <= k < |endpoints| && endpoints[k].pages > 0 && (forall j :: 0 <= j < k ==> endpoints[j].pages <= 0) ==>
                answer == endpoints[k]
  {
    for i := 0 to |endpoints|
      invariant forall j :: 0 <= j < i ==> endpoints[j].pages <= 0
    {
      if endpoints[i].pages > 0 {
        return endpoints[i];
      }
    }
    answer := Answer(0, "none");
  }

  class Service {
    const lease: int
    var cache: Cache
    var cursor: nat
    var slot: Option<nat>
    var running: map<nat, seq<Waiting>>
    var nextTask: nat

    function View(): State
      reads this
    {
      State(cache, cursor, slot, running, nextTask)
    }

    constructor (setting: int)
      ensures View() == START && lease == LongLease(setting)
    {
      lease := LongLease(setting);
      cache, cursor, slot, running, nextTask := map[], 0, None, map[], 0;
    }

    method ApplyCached(rows: seq<ScanRow>, now: int)
      requires DistinctRows(rows)
      modifies rows
      ensures forall i :: 0 <= i < |rows| ==> rows[i].scan == Overlay(cache, old(rows[i].scan), now)
    {
      for i := 0 to |rows|
        invariant forall j :: 0 <= j < i ==> rows[j].scan == Overlay(cache, old(rows[j].scan), now)
        invariant forall j :: i <= j < |rows| ==> rows[j].scan == old(rows[j].scan)
      {
        var scan := rows[i].scan;
        var id := Trim(scan.id);
        if KindOf(scan) == DAST && id != "" && id in cache {
          var entry := cache[id];
          if entry.expiresAt > now && entry.pages > 0 {
            rows[i].scan := scan.(pages := Max(scan.pages, entry.pages));
          }
        }
      }
    }

    /** Positive counts renew their cache entry; scans without a live entry queue up. */
    method SiftScans(scans: seq<Scan>, now: int) returns (waiting: seq<Waiting>)
      modifies this`cache
      ensures Sifted(cache, waiting) == Sift(old(cache), scans, now, lease)
    {
      waiting := [];
      for i := 0 to |scans|
        invariant Sifted(cache, waiting) == Sift(old(cache), scans[..i], now, lease)
      {
        var scan := scans[i];
        assert scans[..i + 1][..i] == scans[..i];
        var id := Trim(scan.id);
        if KindOf(scan) == DAST && id != "" {
          if scan.pages > 0 {
            cache := cache[id := Entry(scan.pages, now, now + lease, "scan_list")];
          } else if !(id in cache && cache[id].expiresAt > now) {
            waiting := waiting + [Waiting(id, CreatedKey(scan), scan.execId)];
          }
        }
      }
      assert scans[..|scans|] == scans;
    }

    method Schedule(scans: seq<Scan>, now: int)
      modifies this
      ensures View() == Scheduled(old(View()), scans, now, lease)
    {
      var sorted := Sort(scans, NewerFirst);
      SiftNamed(cache, sorted, now, lease);
      var waiting := SiftScans(sorted, now);
      var candidates := [];
      if waiting != [] {
        candidates, cursor := Select(waiting, cursor);
      }
      if candidates == [] {
        return;
      }
      if slot.Some? && slot.value in running {
        return;
      }
      slot, running := Some(nextTask), running[nextTask := candidates];
      nextTask := nextTask + 1;
    }

    /** The tail of the refresh task: the results are written under the lock. */
    method Finish(task: nat, answers: map<string, Answer>, now: int)
      requires task in running
      modifies this
      ensures View() == Finished(old(View()), task, answers, now, lease)
    {
      var candidates := running[task];
      for i := 0 to |candidates|
        invariant cache == Written(old(cache), candidates[..i], answers, now, lease)
        invariant cursor == old(cursor) && slot == old(slot) && running == old(running) && nextTask == old(nextTask)
      {
        assert candidates[..i + 1][..i] == candidates[..i];
        var id := candidates[i].id;
        if id in answers {
          var ttl := if answers[id].pages > 0 then lease else ERROR_LEASE;
          cache := cache[id := Entry(answers[id].pages, now, now + ttl, answers[id].source)];
        }
      }
      assert candidates[..|candidates|] == candidates;
      slot, running := None, running - {task};
    }

    /** Schedule, then wait for whatever refresh occupies the slot. */
    method Refresh(scans: seq<Scan>, turn: Turn)
      modifies this
      ensures View() == AfterWait(Scheduled(old(View()), scans, turn.scheduleAt, lease), turn, lease)
    {
      Schedule(scans, turn.scheduleAt);
      if slot.Some? && slot.value in running {
        if turn.answers.Some? {
          Finish(slot.value, turn.answers.value, turn.collectAt);
        } else {
          running := running - {slot.value};
        }
      }
    }

    /** The whole call. Only the service changes: the caller's rows keep their content and
        the rows handed back are new objects. */
    method Hydrate(rows: seq<ScanRow>, turn: Turn) returns (hydrated: seq<ScanRow>)
      requires Values(rows) == turn.scans
      modifies this
      ensures |hydrated| == |rows| && forall i :: 0 <= i < |hydrated| ==> fresh(hydrated[i])
      ensures Values(hydrated) == Reported(old(View()), turn, lease)
      ensures View() == HydratedState(old(View()), turn, lease)
    {
      hydrated := CopyRows(rows);
      ghost var s := View();
      ApplyCached(hydrated, turn.applyAt);
      var shown := Values(hydrated);
      assert shown == OverlayAll(s.cache, turn.scans, turn.applyAt);
      Refresh(shown, turn);
      ApplyCached(hydrated, turn.reapplyAt);
      assert Values(hydrated) == OverlayAll(cache, shown, turn.reapplyAt);
    }
  }

  method CopyRows(rows: seq<ScanRow>) returns (copy: seq<ScanRow>)
    ensures |copy| == |rows| && DistinctRows(copy)
    ensures forall i :: 0 <= i < |copy| ==> fresh(copy[i]) && copy[i].scan == rows[i].scan
  {
    copy := [];
    for i := 0 to |rows|
      invariant |copy| == i && DistinctRows(copy)
      invariant forall j :: 0 <= j < i ==> fresh(copy[j]) && copy[j].scan == rows[j].scan
    {
      var row := new ScanRow(rows[i].scan);
      copy := copy + [row];
    }
  }
}
