/** The page-coverage cache of DAST scans: two leases, a refresh queue and at most one
    refresh task. Code between two suspension points is one atomic step. */
module Coverage {
  import opened Wrappers
  import opened Text
  import opened Sorting
  import opened Domain
  import opened RefreshQueue

  const SECOND := 1_000_000

  /** How long a scan without a page count is left alone before it is asked about again. */
  const ERROR_LEASE := 120 * SECOND

  /** The lease of a positive page count, from the configured analytics lifetime. */
  function LongLease(setting: int): (r: int)
    ensures setting <= 900 ==> r == 3_600_000_000
    ensures setting >= 900 ==> r == setting * 4_000_000
  {
    Max(3600, (if setting == 0 then 180 else setting) * 4) * SECOND
  }

  datatype Entry = Entry(pages: int, collectedAt: int, expiresAt: int, source: string)

  type Cache = map<string, Entry>

  /** What fetching one scan produced; a candidate without an answer raised an exception. */
  datatype Answer = Answer(pages: int, source: string)

  /** The module fields: cache, cursor and task slot, with the tasks still running. */
  datatype State = State(cache: Cache, cursor: nat, slot: Option<nat>, running: map<nat, seq<Waiting>>, nextTask: nat)
  {
    predicate Busy()
    {
      slot.Some? && slot.value in running
    }
  }

  function ScanId(scan: Scan): string
  {
    Trim(scan.id)
  }

  predicate Tracked(scan: Scan)
  {
    KindOf(scan) == DAST && ScanId(scan) != ""
  }

  // ---------------------------------------------------------------- specification

  /** A scan as it is shown: never fewer pages than a live cache entry holds. */
  function Overlay(cache: Cache, scan: Scan, now: int): Scan
  {
    if Tracked(scan) && ScanId(scan) in cache then
      var e := cache[ScanId(scan)];
      if now < e.expiresAt && e.pages > 0 then scan.(pages := Max(scan.pages, e.pages)) else scan
    else scan
  }

  function OverlayAll(cache: Cache, scans: seq<Scan>, now: int): (r: seq<Scan>)
    ensures |r| == |scans|
    ensures forall i :: 0 <= i < |r| ==> r[i] == Overlay(cache, scans[i], now)
  {
    seq(|scans|, i requires 0 <= i < |scans| => Overlay(cache, scans[i], now))
  }

  function CreatedKey(scan: Scan): int
  {
    if scan.createdAt.Some? then scan.createdAt.value.micros else 0
  }

  predicate NewerFirst(a: Scan, b: Scan)
  {
    CreatedKey(a) >= CreatedKey(b)
  }

  /** What the scheduler has built so far: cache and waiting list. */
  datatype Sifted = Sifted(cache: Cache, waiting: seq<Waiting>)

  function SiftOne(acc: Sifted, scan: Scan, now: int, lease: int): Sifted
  {
    var id := ScanId(scan);
    if !Tracked(scan) then acc
    else if scan.pages > 0 then
      acc.(cache := acc.cache[id := Entry(scan.pages, now, now + lease, "scan_list")])
    else if id in acc.cache && now < acc.cache[id].expiresAt then acc
    else acc.(waiting := acc.waiting + [Waiting(id, CreatedKey(scan), scan.execId)])
  }

  function Sift(cache: Cache, scans: seq<Scan>, now: int, lease: int): Sifted
    decreases |scans|
  {
    if scans == [] then Sifted(cache, [])
    else SiftOne(Sift(cache, scans[..|scans| - 1], now, lease), scans[|scans| - 1], now, lease)
  }

  function Launch(s: State, candidates: seq<Waiting>): State
  {
    if candidates == [] || s.Busy() then s
    else s.(slot := Some(s.nextTask), running := s.running[s.nextTask := candidates], nextTask := s.nextTask + 1)
  }

  function Scheduled(s: State, scans: seq<Scan>, now: int, lease: int): State
  {
    var sifted := Sift(s.cache, Sort(scans, NewerFirst), now, lease);
    var n := |sifted.waiting|;
    var s' := s.(cache := sifted.cache);
    if n == 0 then s'
    else Launch(s'.(cursor := NextCursor(n, s.cursor)), Picks(sifted.waiting, s.cursor % n))
  }

  function Collected(pages: int, source: string, now: int, lease: int): Entry
  {
    Entry(pages, now, now + (if pages > 0 then lease else ERROR_LEASE), source)
  }

  function Written(cache: Cache, candidates: seq<Waiting>, answers: map<string, Answer>, now: int, lease: int): Cache
    decreases |candidates|
  {
    if candidates == [] then cache
    else
      var done := Written(cache, candidates[..|candidates| - 1], answers, now, lease);
      var id := candidates[|candidates| - 1].id;
      if id in answers then done[id := Collected(answers[id].pages, answers[id].source, now, lease)] else done
  }

  /** A refresh that got its results: they are written, and the slot is emptied. */
  function Finished(s: State, task: nat, answers: map<string, Answer>, now: int, lease: int): State
    requires task in s.running
  {
    s.(cache := Written(s.cache, s.running[task], answers, now, lease), slot := None, running := s.running - {task})
  }

  /** A refresh that ran out of time: nothing is written, the slot keeps the dead task. */
  function Aborted(s: State, task: nat): State
  {
    s.(running := s.running - {task})
  }

  // ---------------------------------------------------------------- interleavings

  datatype Event =
    | Schedule(scans: seq<Scan>, at: int)
    | Finish(task: nat, answers: map<string, Answer>, at: int)
    | Abort(task: nat)

  /** One atomic step of any hydrate call or refresh task; a task that is not running
      has no step. */
  function Step(s: State, e: Event, lease: int): State
  {
    match e
    case Schedule(scans, now) => Scheduled(s, scans, now, lease)
    case Finish(task, answers, now) => if task in s.running then Finished(s, task, answers, now, lease) else s
    case Abort(task) => if task in s.running then Aborted(s, task) else s
  }

  function Run(s: State, events: seq<Event>, lease: int): State
    decreases |events|
  {
    if events == [] then s
    else Step(Run(s, events[..|events| - 1], lease), events[|events| - 1], lease)
  }

  const START := State(map[], 0, None, map[], 0)

  /** Any running refresh is the one in the slot. */
  predicate SingleFlight(s: State)
  {
    && (forall task :: task in s.running ==> s.slot == Some(task))
    && (forall task :: task in s.running ==> task < s.nextTask)
  }

  /** Every entry expires exactly its lease after it was collected. */
  predicate LeasesExact(cache: Cache, lease: int)
  {
    forall id :: id in cache ==>
      var e := cache[id];
      e.expiresAt == e.collectedAt + (if e.pages > 0 then lease else 120_000_000)
  }

  lemma {:induction false} SiftKeepsLeases(cache: Cache, scans: seq<Scan>, now: int, lease: int)
    requires LeasesExact(cache, lease)
    ensures LeasesExact(Sift(cache, scans, now, lease).cache, lease)
    decreases |scans|
  {
    if scans != [] {
      SiftKeepsLeases(cache, scans[..|scans| - 1], now, lease);
    }
  }

  lemma {:induction false} WrittenKeepsLeases(cache: Cache, candidates: seq<Waiting>, answers: map<string, Answer>,
                                              now: int, lease: int)
    requires LeasesExact(cache, lease)
    ensures LeasesExact(Written(cache, candidates, answers, now, lease), lease)
    decreases |candidates|
  {
    if candidates != [] {
      WrittenKeepsLeases(cache, candidates[..|candidates| - 1], answers, now, lease);
    }
  }

  lemma StepKeeps(s: State, e: Event, lease: int)
    requires SingleFlight(s) && LeasesExact(s.cache, lease)
    ensures SingleFlight(Step(s, e, lease)) && LeasesExact(Step(s, e, lease).cache, lease)
  {
    match e
    case Schedule(scans, now) =>
      SiftKeepsLeases(s.cache, Sort(scans, NewerFirst), now, lease);
    case Finish(task, answers, now) =>
      if task in s.running {
        WrittenKeepsLeases(s.cache, s.running[task], answers, now, lease);
      }
    case Abort(task) =>
  }

  /** In every interleaving at most one refresh is running, it is the one later callers
      wait for, and every cache entry expires exactly its own lease after collection. */
  lemma {:induction false} AnyInterleaving(events: seq<Event>, lease: int)
    ensures var s := Run(START, events, lease);
            && SingleFlight(s) && LeasesExact(s.cache, lease)
            && |s.running| <= 1
    decreases |events|
  {
    if events != [] {
      AnyInterleaving(events[..|events| - 1], lease);
      StepKeeps(Run(START, events[..|events| - 1], lease), events[|events| - 1], lease);
    }
    AtMostOne(Run(START, events, lease));
  }

  lemma AtMostOne(s: State)
    requires SingleFlight(s)
    ensures |s.running| <= 1
  {
    if s.running != map[] {
      var task :| task in s.running;
      assert s.running.Keys == {task};
      assert |s.running| == |s.running.Keys|;
    }
  }
}
