/** The base-data cache: double-checked locking, coalescing of forced refreshes, and any
    number of callers interleaved at their suspension points. */
module BaseData {
  import opened Wrappers

  const SECOND := 1_000_000
  const COALESCE := 20 * SECOND

  /** The lifetime of the base data, from the configured analytics lifetime: three times that,
      but a quarter of an hour at least. */
  function Lifetime(setting: int): (r: int)
    ensures setting <= 300 ==> r == 900_000_000
    ensures setting >= 300 ==> r == setting * 3_000_000
  {
    Max(900, setting * 3) * SECOND
  }

  datatype Cache<P> = Cache(payload: Option<P>, expiresAt: Option<int>, forcedAt: Option<int>)

  datatype Decision = Coalesce | Hit | Fetch

  predicate IsFresh<P>(c: Cache<P>, now: int)
  {
    c.expiresAt.Some? && c.expiresAt.value > now
  }

  /** The check before the lock. */
  predicate FastHit<P>(c: Cache<P>, refresh: bool, now: int)
  {
    !refresh && IsFresh(c, now) && c.payload.Some?
  }

  /** The checks under the lock. */
  function Decide<P>(c: Cache<P>, refresh: bool, now: int): Decision
  {
    if refresh && c.payload.Some? && c.forcedAt.Some? && now - c.forcedAt.value <= COALESCE then Coalesce
    else if FastHit(c, refresh, now) then Hit
    else Fetch
  }

  function Stored<P>(c: Cache<P>, payload: P, refresh: bool, now: int, ttl: int): Cache<P>
  {
    Cache(Some(payload), Some(now + ttl), if refresh then Some(now) else c.forcedAt)
  }

  /** The module variable itself, and the code between suspension points that touches it. */
  class Holder<P> {
    const ttl: int
    var payload: Option<P>
    var expiresAt: Option<int>
    var forcedAt: Option<int>

    function View(): Cache<P>
      reads this
    {
      Cache(payload, expiresAt, forcedAt)
    }

    constructor (setting: int)
      ensures View() == Cache(None, None, None) && ttl == Lifetime(setting)
    {
      ttl := Lifetime(setting);
      payload, expiresAt, forcedAt := None, None, None;
    }

    method Check(refresh: bool, now: int) returns (d: Decision)
      ensures d == Decide(View(), refresh, now)
    {
      if refresh && payload.Some? && forcedAt.Some? {
        var elapsed := now - forcedAt.value;
        if elapsed <= COALESCE {
          return Coalesce;
        }
      }
      if !refresh && expiresAt.Some? && expiresAt.value > now && payload.Some? {
        return Hit;
      }
      d := Fetch;
    }

    method Store(fetched: P, refresh: bool, now: int)
      modifies this
      ensures View() == Stored(old(View()), fetched, refresh, now, ttl)
    {
      payload := Some(fetched);
      expiresAt := Some(now + ttl);
      if refresh {
        forcedAt := Some(now);
      }
    }
  }

  // ---------------------------------------------------------------- interleaved callers

  /** Where a caller stands; serving is the coverage overlay of a copied payload. */
  datatype Stage<P> =
    | Waiting(refresh: bool)
    | Fetching(refresh: bool)
    | ServingLocked(payload: P)
    | Serving(payload: P)
    | Returned(payload: P)
    | Raised

  predicate InLock<P>(s: Stage<P>)
  {
    s.Fetching? || s.ServingLocked?
  }

  datatype Ending<P> = InFlight | Succeeded(payload: P, at: int) | Broken(at: int)

  /** One remote fetch: who started it, whether forced, when, and how it ended. */
  datatype FetchRecord<P> = FetchRecord(caller: nat, forced: bool, startedAt: int, ending: Ending<P>)

  datatype State<P> = State(cache: Cache<P>, lock: Option<nat>, callers: map<nat, Stage<P>>, clock: int,
                            log: seq<FetchRecord<P>>)

  datatype Event<P> =
    | Call(caller: nat, refresh: bool)
    | Acquire(caller: nat)
    | Complete(caller: nat, payload: P)
    | Break(caller: nat)
    | Finish(caller: nat)
    | Elapse(time: nat)

  function Start<P>(now: int): State<P>
  {
    State(Cache(None, None, None), None, map[], now, [])
  }

  function EndLast<P>(log: seq<FetchRecord<P>>, ending: Ending<P>): seq<FetchRecord<P>>
  {
    if log == [] then log else log[|log| - 1 := log[|log| - 1].(ending := ending)]
  }

  function Enter<P(==)>(s: State<P>, caller: nat, refresh: bool): State<P>
  {
    if FastHit(s.cache, refresh, s.clock) then s.(callers := s.callers[caller := Serving(s.cache.payload.value)])
    else s.(callers := s.callers[caller := Waiting(refresh)])
  }

  function Grab<P(==)>(s: State<P>, caller: nat, refresh: bool): State<P>
  {
    var locked := s.(lock := Some(caller));
    if Decide(s.cache, refresh, s.clock) == Fetch then
      locked.(callers := s.callers[caller := Fetching(refresh)],
              log := s.log + [FetchRecord(caller, refresh, s.clock, InFlight)])
    else
      locked.(callers := s.callers[caller := ServingLocked(s.cache.payload.value)])
  }

  function Land<P(==)>(s: State<P>, caller: nat, payload: P, ttl: int): State<P>
    requires caller in s.callers && s.callers[caller].Fetching?
  {
    s.(cache := Stored(s.cache, payload, s.callers[caller].refresh, s.clock, ttl), lock := None,
       callers := s.callers[caller := Returned(payload)], log := EndLast(s.log, Succeeded(payload, s.clock)))
  }

  /** A fetch or overlay that raises, or a caller cancelled while it waits. */
  function Abandon<P(==)>(s: State<P>, caller: nat): State<P>
    requires caller in s.callers
  {
    s.(lock := if InLock(s.callers[caller]) then None else s.lock,
       callers := s.callers[caller := Raised],
       log := if s.callers[caller].Fetching? then EndLast(s.log, Broken(s.clock)) else s.log)
  }

  /** One atomic step; an event that is not possible in a state changes nothing. */
  function Step<P(==)>(s: State<P>, e: Event<P>, ttl: int): State<P>
  {
    match e
    case Call(c, refresh) => if c in s.callers then s else Enter(s, c, refresh)
    case Acquire(c) =>
      if c in s.callers && s.callers[c].Waiting? && s.lock.None? then Grab(s, c, s.callers[c].refresh) else s
    case Complete(c, payload) => if c in s.callers && s.callers[c].Fetching? then Land(s, c, payload, ttl) else s
    case Break(c) => if c in s.callers && !s.callers[c].Returned? then Abandon(s, c) else s
    case Finish(c) =>
      if c in s.callers && s.callers[c].Serving? then s.(callers := s.callers[c := Returned(s.callers[c].payload)])
      else if c in s.callers && s.callers[c].ServingLocked? then
        s.(callers := s.callers[c := Returned(s.callers[c].payload)], lock := None)
      else s
    case Elapse(time) => s.(clock := s.clock + time)
  }

  function Run<P(==)>(s: State<P>, events: seq<Event<P>>, ttl: int): State<P>
    decreases |events|
  {
    if events == [] then s else Step(Run(s, events[..|events| - 1], ttl), events[|events| - 1], ttl)
  }

  // ---------------------------------------------------------------- invariants

  /** The lock is held by exactly the caller that is past it. */
  ghost predicate Exclusive<P>(s: State<P>)
  {
    && (forall c :: c in s.callers && InLock(s.callers[c]) ==> s.lock == Some(c))
    && (s.lock.Some? ==> s.lock.value in s.callers && InLock(s.callers[s.lock.value]))
  }

  /** Only the newest fetch can be in flight, and its caller is waiting for it. */
  ghost predicate OneInFlight<P>(s: State<P>)
  {
    && (forall i :: 0 <= i < |s.log| && s.log[i].ending.InFlight? ==>
          i == |s.log| - 1 && s.log[i].caller in s.callers && s.callers[s.log[i].caller].Fetching?)
    && (forall c :: c in s.callers && s.callers[c].Fetching? ==>
          && s.log != []
          && s.log[|s.log| - 1] == FetchRecord(c, s.callers[c].refresh, s.log[|s.log| - 1].startedAt, InFlight))
  }

  /** What the cache must hold, told by the history of fetches alone. */
  function Implied<P>(log: seq<FetchRecord<P>>, ttl: int): Cache<P>
  {
    if log == [] then Cache(None, None, None)
    else
      var before := Implied(log[..|log| - 1], ttl);
      var last := log[|log| - 1];
      if last.ending.Succeeded? then Stored(before, last.ending.payload, last.forced, last.ending.at, ttl) else before
  }

  function EndedAt<P>(f: FetchRecord<P>): int
  {
    if f.ending.Succeeded? || f.ending.Broken? then f.ending.at else f.startedAt
  }

  ghost predicate InOrder<P>(s: State<P>)
  {
    && (forall i :: 0 <= i < |s.log| ==> s.log[i].startedAt <= EndedAt(s.log[i]) <= s.clock)
    && (forall i, j :: 0 <= i < j < |s.log| ==> EndedAt(s.log[i]) <= s.log[j].startedAt)
  }

  /** More than 20 seconds lie between a forced fetch completing and the next one starting. */
  ghost predicate Spaced<P>(log: seq<FetchRecord<P>>)
  {
    forall i, j :: 0 <= i < j < |log| && log[i].forced && log[j].forced && log[i].ending.Succeeded?
                   ==> log[j].startedAt > log[i].ending.at + COALESCE
  }

  ghost predicate Fetched<P>(log: seq<FetchRecord<P>>, payload: P)
  {
    exists i :: 0 <= i < |log| && log[i].ending.Succeeded? && log[i].ending.payload == payload
  }

  /** Every payload served or returned was produced by some completed fetch. */
  ghost predicate Genuine<P>(s: State<P>)
  {
    forall c :: c in s.callers && (s.callers[c].Serving? || s.callers[c].ServingLocked? || s.callers[c].Returned?)
                ==> Fetched(s.log, s.callers[c].payload)
  }

  ghost predicate Inv<P>(s: State<P>, ttl: int)
  {
    Exclusive(s) && OneInFlight(s) && s.cache == Implied(s.log, ttl) && InOrder(s) && Spaced(s.log) && Genuine(s)
  }

  lemma {:induction false} ImpliedFacts<P>(log: seq<FetchRecord<P>>, ttl: int)
    ensures var c := Implied(log, ttl);
            && (c.payload.Some? <==> c.expiresAt.Some?)
            && (c.forcedAt.Some? ==> c.payload.Some?)
            && (c.payload.Some? ==> Fetched(log, c.payload.value))
  {
    if log != [] {
      var init := log[..|log| - 1];
      ImpliedFacts(init, ttl);
      var c := Implied(init, ttl);
      if c.payload.Some? {
        var i :| 0 <= i < |init| && init[i].ending.Succeeded? && init[i].ending.payload == c.payload.value;
        assert log[i] == init[i];
      }
    }
  }

  /** The forced time stamp is at least the end of every successful forced fetch. */
  lemma {:induction false} ForcedIsLatest<P>(s: State<P>, k: nat, ttl: int)
    requires k <= |s.log| && InOrder(s)
    ensures forall i :: 0 <= i < k && s.log[i].forced && s.log[i].ending.Succeeded? ==>
              var f := Implied(s.log[..k], ttl).forcedAt;
              f.Some? && s.log[i].ending.at <= f.value
  {
    if k > 0 {
      ForcedIsLatest(s, k - 1, ttl);
      assert s.log[..k][..k - 1] == s.log[..k - 1];
      assert forall i :: 0 <= i < k - 1 ==> EndedAt(s.log[i]) <= s.log[k - 1].startedAt;
    }
  }

  // ---------------------------------------------------------------- every step keeps them

  lemma ExtendImplied<P>(log: seq<FetchRecord<P>>, f: FetchRecord<P>, ttl: int)
    ensures Implied(log + [f], ttl) ==
            if f.ending.Succeeded? then Stored(Implied(log, ttl), f.ending.payload, f.forced, f.ending.at, ttl)
                else Implied(log, ttl)
  {
    assert (log + [f])[..|log + [f]| - 1] == log;
  }

  lemma EndImplied<P>(log: seq<FetchRecord<P>>, ending: Ending<P>, ttl: int)
    requires log != [] && log[|log| - 1].ending.InFlight?
    ensures Implied(EndLast(log, ending), ttl) ==
            if ending.Succeeded? then Stored(Implied(log, ttl), ending.payload, log[|log| - 1].forced, ending.at, ttl)
                else Implied(log, ttl)
  {
    var n := |log| - 1;
    assert EndLast(log, ending)[..n] == log[..n];
  }

  lemma FetchedStays<P>(log: seq<FetchRecord<P>>, log': seq<FetchRecord<P>>, payload: P)
    requires Fetched(log, payload) && |log| <= |log'|
    requires forall i :: 0 <= i < |log| && !log[i].ending.InFlight? ==> log'[i] == log[i]
    ensures Fetched(log', payload)
  {
    var i :| 0 <= i < |log| && log[i].ending.Succeeded? && log[i].ending.payload == payload;
    assert log'[i] == log[i];
  }

  lemma GenuineStays<P>(s: State<P>, s': State<P>)
    requires Genuine(s) && |s.log| <= |s'.log|
    requires forall i :: 0 <= i < |s.log| && !s.log[i].ending.InFlight? ==> s'.log[i] == s.log[i]
    ensures forall c ::
              c in s.callers && (s.callers[c].Serving? || s.callers[c].ServingLocked? || s.callers[c].Returned?) ==>
                Fetched(s'.log, s.callers[c].payload)
  {
    forall c | c in s.callers && (s.callers[c].Serving? || s.callers[c].ServingLocked? || s.callers[c].Returned?)
      ensures Fetched(s'.log, s.callers[c].payload)
    {
      FetchedStays(s.log, s'.log, s.callers[c].payload);
    }
  }

  lemma EnterKeeps<P>(s: State<P>, c: nat, refresh: bool, ttl: int)
    requires Inv(s, ttl) && c !in s.callers
    ensures Inv(Enter(s, c, refresh), ttl)
  {
    ImpliedFacts(s.log, ttl);
  }

  lemma GrabServes<P>(s: State<P>, c: nat, refresh: bool, ttl: int)
    requires Inv(s, ttl) && c in s.callers && s.callers[c] == Waiting(refresh) && s.lock.None?
    requires Decide(s.cache, refresh, s.clock) != Fetch
    ensures Inv(Grab(s, c, refresh), ttl)
  {
    ImpliedFacts(s.log, ttl);
  }

  lemma StartSpaced<P>(s: State<P>, f: FetchRecord<P>, ttl: int)
    requires Inv(s, ttl) && f.startedAt == s.clock && f.ending.InFlight?
    requires Decide(s.cache, f.forced, s.clock) == Fetch
    ensures Spaced(s.log + [f])
  {
    ImpliedFacts(s.log, ttl);
    ForcedIsLatest(s, |s.log|, ttl);
    assert s.log[..|s.log|] == s.log;
  }

  lemma GrabLocks<P>(s: State<P>, c: nat, refresh: bool)
    requires Exclusive(s) && OneInFlight(s) && InOrder(s)
    requires c in s.callers && s.callers[c] == Waiting(refresh) && s.lock.None?
    requires Decide(s.cache, refresh, s.clock) == Fetch
    ensures var s' := Grab(s, c, refresh); Exclusive(s') && OneInFlight(s') && InOrder(s')
  {
  }

  lemma GrabFetches<P>(s: State<P>, c: nat, refresh: bool, ttl: int)
    requires Inv(s, ttl) && c in s.callers && s.callers[c] == Waiting(refresh) && s.lock.None?
    requires Decide(s.cache, refresh, s.clock) == Fetch
    ensures Inv(Grab(s, c, refresh), ttl)
  {
    var f := FetchRecord(c, refresh, s.clock, InFlight);
    ExtendImplied(s.log, f, ttl);
    GrabLocks(s, c, refresh);
    StartSpaced(s, f, ttl);
    GenuineStays(s, Grab(s, c, refresh));
  }

  lemma LandKeeps<P>(s: State<P>, c: nat, payload: P, ttl: int)
    requires Inv(s, ttl) && c in s.callers && s.callers[c].Fetching?
    ensures Inv(Land(s, c, payload, ttl), ttl)
  {
    var s', n := Land(s, c, payload, ttl), |s.log| - 1;
    EndImplied(s.log, Succeeded(payload, s.clock), ttl);
    GenuineStays(s, s');
    assert s'.log[n].ending == Succeeded(payload, s.clock);
  }

  lemma AbandonKeeps<P>(s: State<P>, c: nat, ttl: int)
    requires Inv(s, ttl) && c in s.callers && !s.callers[c].Returned?
    ensures Inv(Abandon(s, c), ttl)
  {
    if s.callers[c].Fetching? {
      EndImplied(s.log, Broken(s.clock), ttl);
    }
    GenuineStays(s, Abandon(s, c));
  }

  lemma ServedKeeps<P>(s: State<P>, c: nat, ttl: int)
    requires Inv(s, ttl) && c in s.callers && s.callers[c].Serving?
    ensures Inv(Step(s, Finish(c), ttl), ttl)
  {
    GenuineStays(s, Step(s, Finish(c), ttl));
  }

  lemma ReleaseKeeps<P>(s: State<P>, c: nat, ttl: int)
    requires Inv(s, ttl) && c in s.callers && s.callers[c].ServingLocked?
    ensures Inv(Step(s, Finish(c), ttl), ttl)
  {
    GenuineStays(s, Step(s, Finish(c), ttl));
  }

  lemma FinishKeeps<P>(s: State<P>, c: nat, ttl: int)
    requires Inv(s, ttl)
    ensures Inv(Step(s, Finish(c), ttl), ttl)
  {
    if c in s.callers && s.callers[c].Serving? {
      ServedKeeps(s, c, ttl);
    } else if c in s.callers && s.callers[c].ServingLocked? {
      ReleaseKeeps(s, c, ttl);
    }
  }

  lemma AcquireKeeps<P>(s: State<P>, c: nat, ttl: int)
    requires Inv(s, ttl) && c in s.callers && s.callers[c].Waiting? && s.lock.None?
    ensures Inv(Grab(s, c, s.callers[c].refresh), ttl)
  {
    if Decide(s.cache, s.callers[c].refresh, s.clock) == Fetch {
      GrabFetches(s, c, s.callers[c].refresh, ttl);
    } else {
      GrabServes(s, c, s.callers[c].refresh, ttl);
    }
  }

  lemma StepKeeps<P>(s: State<P>, e: Event<P>, ttl: int)
    requires Inv(s, ttl)
    ensures Inv(Step(s, e, ttl), ttl)
  {
    match e
    case Call(c, refresh) => if c !in s.callers { EnterKeeps(s, c, refresh, ttl); }
    case Acquire(c) => if c in s.callers && s.callers[c].Waiting? && s.lock.None? { AcquireKeeps(s, c, ttl); }
    case Complete(c, payload) => if c in s.callers && s.callers[c].Fetching? { LandKeeps(s, c, payload, ttl); }
    case Break(c) => if c in s.callers && !s.callers[c].Returned? { AbandonKeeps(s, c, ttl); }
    case Finish(c) => FinishKeeps(s, c, ttl);
    case Elapse(time) =>
  }

  /** Every reachable state keeps all of it, whatever the callers do and when. */
  lemma {:induction false} AnyInterleaving<P>(now: int, events: seq<Event<P>>, ttl: int)
    ensures Inv(Run(Start(now), events, ttl), ttl)
    decreases |events|
  {
    if events != [] {
      AnyInterleaving(now, events[..|events| - 1], ttl);
      StepKeeps(Run(Start(now), events[..|events| - 1], ttl), events[|events| - 1], ttl);
    }
  }

  // ---------------------------------------------------------------- what it means for callers

  /** At most one base-data fetch is in flight, and of two forced fetches the second starts
      more than 20 seconds after the first has completed. */
  lemma FetchDiscipline<P>(now: int, events: seq<Event<P>>, ttl: int)
    ensures var s := Run(Start(now), events, ttl);
            && (forall c, d :: c in s.callers && d in s.callers && s.callers[c].Fetching? && s.callers[d].Fetching? ==>
                c == d)
            && (forall i, j :: 0 <= i < j < |s.log| && s.log[i].forced && s.log[j].forced && s.log[i].ending.Succeeded?
                  ==> s.log[j].startedAt > s.log[i].ending.at + COALESCE)
  {
    AnyInterleaving(now, events, ttl);
  }

  ghost predicate LastSuccess<P>(log: seq<FetchRecord<P>>, i: nat)
  {
    i < |log| && log[i].ending.Succeeded? && forall j :: i < j < |log| ==> !log[j].ending.Succeeded?
  }

  lemma {:induction false} ImpliedIsLastSuccess<P>(log: seq<FetchRecord<P>>, ttl: int)
    ensures var c := Implied(log, ttl);
            c.payload.Some? ==>
              exists i: nat ::
                  LastSuccess(log, i) && c.payload == Some(log[i].ending.payload)
                      && c.expiresAt == Some(log[i].ending.at + ttl)
  {
    if log != [] {
      var n := |log| - 1;
      ImpliedIsLastSuccess(log[..n], ttl);
      if log[n].ending.Succeeded? {
        assert LastSuccess(log, n);
      } else if Implied(log[..n], ttl).payload.Some? {
        var c := Implied(log[..n], ttl);
        var i: nat :| LastSuccess(log[..n], i) && c.payload == Some(log[..n][i].ending.payload)
            && c.expiresAt == Some(log[..n][i].ending.at + ttl);
        assert LastSuccess(log, i);
      }
    }
  }

  /** Payload and expiry always come from one fetch, the last that completed; a fetch that
      fails leaves the cache as it was. */
  lemma CacheIsOneFetch<P>(now: int, events: seq<Event<P>>, ttl: int)
    ensures var c, log := Run(Start(now), events, ttl).cache, Run(Start(now), events, ttl).log;
            && (c.payload.Some? <==> exists i: nat :: LastSuccess(log, i))
            && (forall i: nat :: LastSuccess(log, i) ==>
                  c.payload == Some(log[i].ending.payload) && c.expiresAt == Some(log[i].ending.at + ttl))
    ensures forall c: nat :: Run(Start(now), events + [Break(c)], ttl).cache == Run(Start(now), events, ttl).cache
  {
    AnyInterleaving(now, events, ttl);
    var log := Run(Start(now), events, ttl).log;
    ImpliedIsLastSuccess(log, ttl);
    SuccessImpliesCache(log, ttl);
    forall c: nat ensures Run(Start(now), events + [Break(c)], ttl).cache == Run(Start(now), events, ttl).cache {
      assert (events + [Break(c)])[..|events|] == events;
    }
  }

  lemma {:induction false} SuccessImpliesCache<P>(log: seq<FetchRecord<P>>, ttl: int)
    ensures (exists i :: 0 <= i < |log| && log[i].ending.Succeeded?) ==> Implied(log, ttl).payload.Some?
  {
    if log != [] {
      SuccessImpliesCache(log[..|log| - 1], ttl);
    }
  }

  /** How old an answer from the cache can be: a forced caller that is not fetched for gets
      data at most 20 seconds old, any other caller data younger than the lifetime. */
  lemma CachedAnswerAge<P>(now: int, events: seq<Event<P>>, caller: nat, refresh: bool, ttl: int)
    requires var s := Run(Start(now), events, ttl);
             caller in s.callers && s.callers[caller] == Waiting(refresh) && s.lock.None?
    ensures var s := Run(Start(now), events, ttl);
            var s' := Step(s, Acquire(caller), ttl);
            || s'.callers[caller] == Fetching(refresh)
            || exists i: nat :: LastSuccess(s.log, i) && s'.callers[caller] == ServingLocked(s.log[i].ending.payload)
                                && (if refresh then s.clock - s.log[i].ending.at <= COALESCE
                                    else s.clock - s.log[i].ending.at < ttl)
  {
    var s := Run(Start(now), events, ttl);
    AnyInterleaving(now, events, ttl);
    ImpliedIsLastSuccess(s.log, ttl);
    if Decide(s.cache, refresh, s.clock) != Fetch {
      var i: nat :| LastSuccess(s.log, i) && s.cache.payload == Some(s.log[i].ending.payload)
          && s.cache.expiresAt == Some(s.log[i].ending.at + ttl);
      if refresh {
        ForcedNotAfterLast(s, i, ttl);
      }
    }
  }

  /** No successful fetch is younger than the lifetime. */
  ghost predicate NothingYoung<P>(log: seq<FetchRecord<P>>, now: int, ttl: int)
  {
    forall i :: 0 <= i < |log| && log[i].ending.Succeeded? ==> now - log[i].ending.at >= ttl
  }

  /** No successful forced fetch ended within the last 20 seconds. */
  ghost predicate NoneForced<P>(log: seq<FetchRecord<P>>, now: int)
  {
    forall i :: 0 <= i < |log| && log[i].ending.Succeeded? && log[i].forced ==> now - log[i].ending.at > 20_000_000
  }

  /** The payload of the last successful fetch. */
  ghost predicate IsLatest<P>(log: seq<FetchRecord<P>>, payload: P)
  {
    exists i :: 0 <= i < |log| && log[i].ending.Succeeded? && log[i].ending.payload == payload
                && forall j :: i < j < |log| ==> !log[j].ending.Succeeded?
  }

  lemma LastIsYoungest<P>(s: State<P>, i: nat, j: nat)
    requires InOrder(s) && LastSuccess(s.log, i) && j < |s.log| && s.log[j].ending.Succeeded?
    ensures s.log[j].ending.at <= s.log[i].ending.at
  {
    if j < i {
      assert EndedAt(s.log[j]) <= s.log[i].startedAt;
    }
  }

  lemma FreshOrNot<P>(s: State<P>, ttl: int)
    requires Inv(s, ttl)
    ensures FastHit(s.cache, false, s.clock) <==> !NothingYoung(s.log, s.clock, ttl)
    ensures s.cache.payload.Some? ==> IsLatest(s.log, s.cache.payload.value)
  {
    ImpliedFacts(s.log, ttl);
    ImpliedIsLastSuccess(s.log, ttl);
    SuccessImpliesCache(s.log, ttl);
    if s.cache.payload.Some? {
      var i: nat :| LastSuccess(s.log, i) && s.cache.payload == Some(s.log[i].ending.payload)
          && s.cache.expiresAt == Some(s.log[i].ending.at + ttl);
      forall j | 0 <= j < |s.log| && s.log[j].ending.Succeeded? ensures s.log[j].ending.at <= s.log[i].ending.at {
        LastIsYoungest(s, i, j);
      }
    }
  }

  lemma ForcedOrNot<P>(s: State<P>, ttl: int)
    requires Inv(s, ttl)
    ensures s.cache.payload.Some? && s.cache.forcedAt.Some? && s.clock - s.cache.forcedAt.value <= COALESCE
            <==> !NoneForced(s.log, s.clock)
  {
    ImpliedFacts(s.log, ttl);
    ForcedIsLatest(s, |s.log|, ttl);
    assert s.log[..|s.log|] == s.log;
    if s.cache.forcedAt.Some? {
      var k := ForcedSource(s.log, ttl);
    }
  }

  /** Exactly when a caller fetches, told by the log of fetches and the clock alone. A caller who
      takes the free lock fetches if nothing is young enough for it: unforced, no successful fetch
      younger than the lifetime; forced, no successful forced fetch of the last 20 seconds.
      Otherwise it is served what the last successful fetch brought, and no fetch starts. While the
      lock is held it goes on waiting. */
  lemma FetchesExactly<P>(now: int, events: seq<Event<P>>, caller: nat, refresh: bool, ttl: int)
    requires var s := Run(Start(now), events, ttl); caller in s.callers && s.callers[caller] == Waiting(refresh)
    ensures var s := Run(Start(now), events, ttl);
            var s' := Step(s, Acquire(caller), ttl);
            var due := if refresh then NoneForced(s.log, s.clock) else NothingYoung(s.log, s.clock, ttl);
            && s'.cache == s.cache
            && (s.lock.Some? ==> s' == s)
            && (s.lock.None? && due ==>
                && s'.callers[caller] == Fetching(refresh)
                && s'.log == s.log + [FetchRecord(caller, refresh, s.clock, InFlight)])
            && (s.lock.None? && !due ==>
                && s'.callers[caller].ServingLocked? && IsLatest(s.log, s'.callers[caller].payload)
                && s'.log == s.log)
  {
    AnyInterleaving(now, events, ttl);
    FreshOrNot(Run(Start(now), events, ttl), ttl);
    ForcedOrNot(Run(Start(now), events, ttl), ttl);
  }

  /** The same of the check before the lock: a new caller is served at once if and only if it is
      unforced and a successful fetch is younger than the lifetime; else it waits for the lock. */
  lemma ServedAtOnceExactly<P>(now: int, events: seq<Event<P>>, caller: nat, refresh: bool, ttl: int)
    requires caller !in Run(Start(now), events, ttl).callers
    ensures var s := Run(Start(now), events, ttl);
            var s' := Step(s, Call(caller, refresh), ttl);
            && s'.log == s.log && s'.lock == s.lock && s'.cache == s.cache && caller in s'.callers
            && (!refresh && !NothingYoung(s.log, s.clock, ttl) ==>
                s'.callers[caller].Serving? && IsLatest(s.log, s'.callers[caller].payload))
            && (refresh || NothingYoung(s.log, s.clock, ttl) ==> s'.callers[caller] == Waiting(refresh))
  {
    AnyInterleaving(now, events, ttl);
    FreshOrNot(Run(Start(now), events, ttl), ttl);
  }

  lemma {:induction false} ForcedNotAfterLast<P>(s: State<P>, i: nat, ttl: int)
    requires Inv(s, ttl) && LastSuccess(s.log, i) && s.cache.forcedAt.Some?
    ensures s.cache.forcedAt.value <= s.log[i].ending.at
  {
    var k := ForcedSource(s.log, ttl);
    if k < i {
      assert EndedAt(s.log[k]) <= s.log[i].startedAt;
    }
  }

  lemma {:induction false} ForcedSource<P>(log: seq<FetchRecord<P>>, ttl: int) returns (k: nat)
    requires Implied(log, ttl).forcedAt.Some?
    ensures k < |log| && log[k].forced && log[k].ending.Succeeded?
              && Implied(log, ttl).forcedAt == Some(log[k].ending.at)
  {
    var n := |log| - 1;
    if log[n].forced && log[n].ending.Succeeded? {
      k := n;
    } else {
      k := ForcedSource(log[..n], ttl);
    }
  }
}
