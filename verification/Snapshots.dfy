/** The per-key snapshot cache: foreground and background builds under registry locks. */
module Snapshots {
  import opened Wrappers
  import opened LockRegistry

  const SECOND := 1_000_000

  /** A stored bundle; `issues` is the total its lifetime depends on. */
  datatype Snapshot<B> = Snapshot(bundle: B, issues: int, fetchedAt: int, expiresAt: int)

  /** Bundles without issues are kept 30 seconds, others for the configured time. */
  function Lifetime(issues: int, setting: int): (r: int)
    ensures issues == 0 ==> r == 30_000_000
    ensures issues != 0 && setting <= 15 ==> r == 15_000_000
    ensures issues != 0 && setting >= 15 ==> r == setting * 1_000_000
  {
    (if issues == 0 then 30 else Max(15, setting)) * SECOND
  }

  function Taken<B>(bundle: B, issues: int, now: int, setting: int): Snapshot<B>
  {
    Snapshot(bundle, issues, now, now + Lifetime(issues, setting))
  }

  datatype Stage =
    | Queued(key: string, lock: nat, refresh: bool)
    | Building(key: string, lock: nat)
    | Done

  datatype Build<B> = Build(key: string, bundle: B, issues: int, at: int)

  datatype State<B> = State(registry: Entries, next: nat, tasks: map<nat, Stage>,
                            table: map<string, Snapshot<B>>, clock: int, builds: seq<Build<B>>)

  datatype Event<B> =
    | Ask(task: nat, key: string, refresh: bool)
    | Peek(key: string)
    | Enter(task: nat)
    | Built(task: nat, bundle: B, issues: int)
    | BuildFails(task: nat)
    | Purge(cutoff: int)
    | Elapse(time: nat)

  function Start<B>(now: int): State<B>
  {
    State([], 0, map[], map[], now, [])
  }

  predicate IsFresh<B>(table: map<string, Snapshot<B>>, key: string, now: int)
  {
    key in table && table[key].expiresAt > now
  }

  predicate Held(tasks: map<nat, Stage>, lock: nat)
  {
    exists t :: t in tasks && tasks[t].Building? && tasks[t].lock == lock
  }

  /** The registry, once the lock of `key` has been asked for. */
  function WithLock<B>(s: State<B>, key: string): (r: State<B>)
    ensures r.tasks == s.tasks && r.table == s.table && r.clock == s.clock && r.builds == s.builds
  {
    s.(registry := Registered(s.registry, key, s.next),
       next := if Lookup(s.registry, key).Some? then s.next else s.next + 1)
  }

  function LockOf<B>(s: State<B>, key: string): nat
  {
    var known := Lookup(s.registry, key);
    if known.Some? then known.value else s.next
  }

  function Purged<B>(table: map<string, Snapshot<B>>, cutoff: int): map<string, Snapshot<B>>
  {
    map key | key in table && table[key].expiresAt > cutoff :: table[key]
  }

  /** One atomic step; an event that is not possible in a state changes nothing. */
  ghost function Step<B>(s: State<B>, e: Event<B>, setting: int): State<B>
  {
    match e
    case Ask(t, key, refresh) =>
      if t in s.tasks then s
      else WithLock(s, key).(tasks := s.tasks[t := Queued(key, LockOf(s, key), refresh)])
    case Peek(key) => WithLock(s, key)
    case Enter(t) =>
      if !(t in s.tasks && s.tasks[t].Queued?) || Held(s.tasks, s.tasks[t].lock) then s
      else if !s.tasks[t].refresh && IsFresh(s.table, s.tasks[t].key, s.clock) then s.(tasks := s.tasks[t := Done])
      else s.(tasks := s.tasks[t := Building(s.tasks[t].key, s.tasks[t].lock)])
    case Built(t, bundle, issues) =>
      if !(t in s.tasks && s.tasks[t].Building?) then s
      else s.(tasks := s.tasks[t := Done],
              table := s.table[s.tasks[t].key := Taken(bundle, issues, s.clock, setting)],
              builds := s.builds + [Build(s.tasks[t].key, bundle, issues, s.clock)])
    case BuildFails(t) =>
      if !(t in s.tasks && s.tasks[t].Building?) then s else s.(tasks := s.tasks[t := Done])
    case Purge(cutoff) => s.(table := Purged(s.table, cutoff))
    case Elapse(time) => s.(clock := s.clock + time)
  }

  ghost function Run<B>(s: State<B>, events: seq<Event<B>>, setting: int): State<B>
    decreases |events|
  {
    if events == [] then s else Step(Run(s, events[..|events| - 1], setting), events[|events| - 1], setting)
  }

  // ---------------------------------------------------------------- invariants

  predicate InUse(stage: Stage)
  {
    stage.Queued? || stage.Building?
  }

  predicate BuildingAt<B>(s: State<B>, t: nat)
  {
    t in s.tasks && s.tasks[t].Building?
  }

  /** What holds in every run, evictions or not: the registry is bounded, a lock is held
      once, and locks in use were made earlier. */
  ghost predicate Sound<B>(s: State<B>)
  {
    && WellFormed(s.registry, s.next)
    && (forall t :: t in s.tasks && InUse(s.tasks[t]) ==> s.tasks[t].lock < s.next)
    && (forall t, u :: BuildingAt(s, t) && BuildingAt(s, u) && s.tasks[t].lock == s.tasks[u].lock ==> t == u)
  }

  /** Every lock in use is still the registered one of its key. */
  ghost predicate Rooted<B>(s: State<B>)
  {
    forall t :: t in s.tasks && InUse(s.tasks[t]) ==> Lookup(s.registry, s.tasks[t].key) == Some(s.tasks[t].lock)
  }

  /** The lock of the task is in use, and the one registered for its key. */
  ghost predicate LockKnown<B>(s: State<B>, registry: Entries, t: nat)
  {
    t in s.tasks && InUse(s.tasks[t]) && Lookup(registry, s.tasks[t].key) == Some(s.tasks[t].lock)
  }

  /** The event evicts no lock in use. */
  ghost predicate KeepsLocks<B>(s: State<B>, e: Event<B>, setting: int)
  {
    forall t :: LockKnown(s, s.registry, t) ==> LockKnown(s, Step(s, e, setting).registry, t)
  }

  ghost predicate NoEvictionInUse<B>(s: State<B>, events: seq<Event<B>>, setting: int)
  {
    forall k :: 0 <= k < |events| ==> KeepsLocks(Run(s, events[..k], setting), events[k], setting)
  }

  ghost predicate ExclusiveBuilds<B>(s: State<B>)
  {
    forall t, u :: BuildingAt(s, t) && BuildingAt(s, u) && s.tasks[t].key == s.tasks[u].key ==> t == u
  }

  /** Every stored snapshot is the latest successful build of its key. */
  ghost predicate FromBuilds<B>(s: State<B>, setting: int)
  {
    forall key :: key in s.table ==>
      exists i {:trigger s.builds[i]} :: 0 <= i < |s.builds| && s.builds[i].key == key
        && s.table[key] == Taken(s.builds[i].bundle, s.builds[i].issues, s.builds[i].at, setting)
        && forall j :: i < j < |s.builds| ==> s.builds[j].key != key
  }

  lemma AskKeeps<B>(s: State<B>, key: string)
    requires Sound(s)
    ensures var s' := WithLock(s, key);
            Sound(s') && Lookup(s'.registry, key) == Some(LockOf(s, key)) && LockOf(s, key) < s'.next
  {
    RegisteredFacts(s.registry, key, s.next);
  }

  lemma EnterKeeps<B>(s: State<B>, t: nat, setting: int)
    requires Sound(s)
    ensures Sound(Step(s, Enter(t), setting))
  {
    if t in s.tasks && s.tasks[t].Queued? && !Held(s.tasks, s.tasks[t].lock) {
      assert forall u :: BuildingAt(s, u) ==> s.tasks[u].lock != s.tasks[t].lock;
    }
  }

  lemma StepSound<B>(s: State<B>, e: Event<B>, setting: int)
    requires Sound(s)
    ensures Sound(Step(s, e, setting))
  {
    match e
    case Ask(t, key, refresh) => AskKeeps(s, key);
    case Peek(key) => AskKeeps(s, key);
    case Enter(t) => EnterKeeps(s, t, setting);
    case Built(t, bundle, issues) =>
    case BuildFails(t) =>
    case Purge(cutoff) =>
    case Elapse(time) =>
  }

  lemma TaskRooted<B>(s: State<B>, e: Event<B>, setting: int, t: nat)
    requires Sound(s) && Rooted(s) && KeepsLocks(s, e, setting)
    ensures var s' := Step(s, e, setting);
            t in s'.tasks && InUse(s'.tasks[t]) ==> Lookup(s'.registry, s'.tasks[t].key) == Some(s'.tasks[t].lock)
  {
    if t in s.tasks && InUse(s.tasks[t]) {
      assert LockKnown(s, s.registry, t);
      assert LockKnown(s, Step(s, e, setting).registry, t);
    } else if e.Ask? {
      AskKeeps(s, e.key);
    }
  }

  lemma StepRooted<B>(s: State<B>, e: Event<B>, setting: int)
    requires Sound(s) && Rooted(s) && KeepsLocks(s, e, setting)
    ensures Rooted(Step(s, e, setting))
  {
    forall t | t in Step(s, e, setting).tasks && InUse(Step(s, e, setting).tasks[t])
      ensures var s' := Step(s, e, setting); Lookup(s'.registry, s'.tasks[t].key) == Some(s'.tasks[t].lock)
    {
      TaskRooted(s, e, setting, t);
    }
  }

  lemma {:induction false} RunSound<B>(now: int, events: seq<Event<B>>, setting: int)
    ensures Sound(Run(Start(now), events, setting))
    decreases |events|
  {
    if events != [] {
      RunSound(now, events[..|events| - 1], setting);
      StepSound(Run(Start(now), events[..|events| - 1], setting), events[|events| - 1], setting);
    }
  }

  lemma NoEvictionBefore<B>(s: State<B>, events: seq<Event<B>>, setting: int)
    requires events != [] && NoEvictionInUse(s, events, setting)
    ensures var n := |events| - 1;
            NoEvictionInUse(s, events[..n], setting) && KeepsLocks(Run(s, events[..n], setting), events[n], setting)
  {
    var init := events[..|events| - 1];
    forall k | 0 <= k < |init| ensures KeepsLocks(Run(s, init[..k], setting), init[k], setting) {
      assert init[..k] == events[..k];
    }
  }

  lemma RootedStep<B>(s: State<B>, e: Event<B>, s': State<B>, setting: int)
    requires Sound(s) && Rooted(s) && KeepsLocks(s, e, setting) && s' == Step(s, e, setting)
    ensures Sound(s') && Rooted(s')
  {
    StepSound(s, e, setting);
    StepRooted(s, e, setting);
  }

  lemma RunLast<B>(s: State<B>, events: seq<Event<B>>, setting: int)
    requires events != []
    ensures Run(s, events, setting) == Step(Run(s, events[..|events| - 1], setting), events[|events| - 1], setting)
  {
  }

  lemma {:induction false} RunRooted<B>(s: State<B>, events: seq<Event<B>>, setting: int)
    requires Sound(s) && Rooted(s) && NoEvictionInUse(s, events, setting)
    ensures Sound(Run(s, events, setting)) && Rooted(Run(s, events, setting))
    decreases |events|
  {
    if events != [] {
      var n := |events| - 1;
      NoEvictionBefore(s, events, setting);
      RunRooted(s, events[..n], setting);
      RunLast(s, events, setting);
      RootedStep(Run(s, events[..n], setting), events[n], Run(s, events, setting), setting);
    }
  }

  lemma RootedIsExclusive<B>(s: State<B>)
    requires Sound(s) && Rooted(s)
    ensures ExclusiveBuilds(s)
  {
  }

  /** As long as no lock in use is evicted, no two tasks build the same key at once; the
      registry never exceeds its bound. */
  lemma BuildsAreExclusive<B>(now: int, events: seq<Event<B>>, setting: int)
    ensures |Run(Start(now), events, setting).registry| <= 500
    ensures NoEvictionInUse(Start(now), events, setting) ==> ExclusiveBuilds(Run(Start(now), events, setting))
  {
    RunSound(now, events, setting);
    if NoEvictionInUse(Start(now), events, setting) {
      RunRooted(Start(now), events, setting);
      RootedIsExclusive(Run(Start(now), events, setting));
    }
  }

  lemma StepFromBuilds<B>(s: State<B>, e: Event<B>, setting: int)
    requires FromBuilds(s, setting)
    ensures FromBuilds(Step(s, e, setting), setting)
  {
    var s' := Step(s, e, setting);
    forall key | key in s'.table
      ensures exists i {:trigger s'.builds[i]} ::
                && 0 <= i < |s'.builds| && s'.builds[i].key == key
                && s'.table[key] == Taken(s'.builds[i].bundle, s'.builds[i].issues, s'.builds[i].at, setting)
                && forall j :: i < j < |s'.builds| ==> s'.builds[j].key != key
    {
      if e.Built? && e.task in s.tasks && s.tasks[e.task].Building? && s.tasks[e.task].key == key {
        assert s'.builds[|s.builds|].key == key;
      } else {
        var i :| 0 <= i < |s.builds| && s.builds[i].key == key
                 && s.table[key] == Taken(s.builds[i].bundle, s.builds[i].issues, s.builds[i].at, setting)
                 && forall j :: i < j < |s.builds| ==> s.builds[j].key != key;
        assert s'.builds[i] == s.builds[i];
      }
    }
  }

  /** A failed build never replaces a snapshot: in every run, whatever is stored for a key
      is its latest successful build, with exactly the lifetime its issue count gives. */
  lemma {:induction false} StoredAreBuilds<B>(now: int, events: seq<Event<B>>, setting: int)
    ensures FromBuilds(Run(Start(now), events, setting), setting)
    ensures forall t: nat ::
              Run(Start(now), events + [BuildFails(t)], setting).table == Run(Start(now), events, setting).table
    decreases |events|
  {
    if events != [] {
      StoredAreBuilds(now, events[..|events| - 1], setting);
      StepFromBuilds(Run(Start(now), events[..|events| - 1], setting), events[|events| - 1], setting);
    }
    forall t: nat ensures Run(Start(now), events + [BuildFails(t)], setting).table
        == Run(Start(now), events, setting).table {
      assert (events + [BuildFails(t)])[..|events|] == events;
    }
  }

  // ---------------------------------------------------------------- when a task builds

  /** Build `i` is the latest successful one of the key. */
  ghost predicate Latest<B>(builds: seq<Build<B>>, key: string, i: nat)
  {
    i < |builds| && builds[i].key == key && forall j :: i < j < |builds| ==> builds[j].key != key
  }

  /** The build has outlived its lifetime: 30 seconds without issues, else the configured time,
      but 15 seconds at least. */
  predicate Outlived<B>(b: Build<B>, now: int, setting: int)
  {
    now - b.at >= if b.issues == 0 then 30_000_000 else if setting < 15 then 15_000_000 else setting * 1_000_000
  }

  /** A latest build that has not outlived its lifetime is stored. */
  ghost predicate YoungIsStored<B>(s: State<B>, setting: int)
  {
    forall key, i: nat :: Latest(s.builds, key, i) && !Outlived(s.builds[i], s.clock, setting) ==>
      key in s.table && s.table[key] == Taken(s.builds[i].bundle, s.builds[i].issues, s.builds[i].at, setting)
  }

  /** Every clean-up removes expired snapshots only. */
  ghost predicate PurgesExpired<B>(s: State<B>, events: seq<Event<B>>, setting: int)
  {
    forall k :: 0 <= k < |events| && events[k].Purge? ==> events[k].cutoff <= Run(s, events[..k], setting).clock
  }

  lemma LatestBefore<B>(builds: seq<Build<B>>, b: Build<B>, key: string, i: nat)
    requires Latest(builds + [b], key, i)
    ensures if b.key == key then i == |builds| else Latest(builds, key, i) && (builds + [b])[i] == builds[i]
  {
    assert (builds + [b])[|builds|] == b;
    if b.key != key {
      assert i < |builds|;
      forall j | i < j < |builds| ensures builds[j].key != key {
        assert (builds + [b])[j] == builds[j];
      }
    }
  }

  lemma StepStoresYoung<B>(s: State<B>, e: Event<B>, setting: int)
    requires YoungIsStored(s, setting) && (e.Purge? ==> e.cutoff <= s.clock)
    ensures YoungIsStored(Step(s, e, setting), setting)
  {
    var s' := Step(s, e, setting);
    forall key, i: nat | Latest(s'.builds, key, i) && !Outlived(s'.builds[i], s'.clock, setting)
      ensures key in s'.table
      ensures s'.table[key] == Taken(s'.builds[i].bundle, s'.builds[i].issues, s'.builds[i].at, setting)
    {
      if e.Built? && e.task in s.tasks && s.tasks[e.task].Building? {
        LatestBefore(s.builds, Build(s.tasks[e.task].key, e.bundle, e.issues, s.clock), key, i);
      } else {
        assert Latest(s.builds, key, i);
      }
    }
  }

  lemma {:induction false} YoungStaysStored<B>(now: int, events: seq<Event<B>>, setting: int)
    requires PurgesExpired(Start(now), events, setting)
    ensures YoungIsStored(Run(Start(now), events, setting), setting)
    decreases |events|
  {
    if events != [] {
      var init := events[..|events| - 1];
      forall k | 0 <= k < |init| && init[k].Purge? ensures init[k].cutoff <= Run(Start(now), init[..k], setting).clock {
        assert init[..k] == events[..k];
      }
      YoungStaysStored(now, init, setting);
      StepStoresYoung(Run(Start(now), init, setting), events[|events| - 1], setting);
    }
  }

  /** Exactly when a task builds, told by the log of builds and the clock alone. With the lock of
      its key free, a queued task builds if it is to refresh, or if the latest successful build of
      the key, if any, has outlived its lifetime; otherwise it is done at once. While the lock is
      held it goes on waiting. */
  lemma BuildsExactly<B>(now: int, events: seq<Event<B>>, t: nat, key: string, lock: nat, refresh: bool, setting: int)
    requires PurgesExpired(Start(now), events, setting)
    requires var s := Run(Start(now), events, setting); t in s.tasks && s.tasks[t] == Queued(key, lock, refresh)
    ensures var s := Run(Start(now), events, setting);
            var s' := Step(s, Enter(t), setting);
            var free := forall u :: u in s.tasks && s.tasks[u].Building? ==> s.tasks[u].lock != lock;
            var due := refresh || forall i: nat :: Latest(s.builds, key, i) ==> Outlived(s.builds[i], s.clock, setting);
            && (!free ==> s' == s)
            && (free && due ==> s'.tasks[t] == Building(key, lock))
            && (free && !due ==> s'.tasks[t] == Done)
            && s'.table == s.table && s'.builds == s.builds
  {
    var s := Run(Start(now), events, setting);
    YoungStaysStored(now, events, setting);
    StoredAreBuilds(now, events, setting);
    if key in s.table && s.table[key].expiresAt > s.clock {
      var i :| 0 <= i < |s.builds| && s.builds[i].key == key
               && s.table[key] == Taken(s.builds[i].bundle, s.builds[i].issues, s.builds[i].at, setting)
               && forall j :: i < j < |s.builds| ==> s.builds[j].key != key;
      assert Latest(s.builds, key, i);
    }
  }

  // ---------------------------------------------------------------- what eviction does

  /** Asking for a lock that changes what is registered for another key has evicted it, and
      with it as many others as make room for more. */
  lemma AskingForgets<B>(s: State<B>, asked: string, key: string)
    requires Sound(s)
    requires Lookup(WithLock(s, asked).registry, key) != Lookup(s.registry, key) && Lookup(s.registry, key).Some?
    ensures Lookup(WithLock(s, asked).registry, key).None? && |WithLock(s, asked).registry| < MAX_LOCKS
  {
    RegisteredFacts(s.registry, asked, s.next);
    assert Lookup(s.registry, asked).None? && key != asked;
    ShiftedLookup(s.registry, if |s.registry| >= MAX_LOCKS then EVICTED else 0, asked, s.next, key);
    if |s.registry| < MAX_LOCKS {
      StillListed(s.registry, asked, s.next, key);
    }
  }

  lemma StillListed(r: Entries, asked: string, next: nat, key: string)
    requires WellFormed(r, next) && |r| < MAX_LOCKS && Lookup(r, asked).None? && Lookup(r, key).Some?
    ensures Lookup(Registered(r, asked, next), key) == Lookup(r, key)
  {
    var i :| 0 <= i < |r| && r[i] == (key, Lookup(r, key).value);
    RegisteredFacts(r, asked, next);
    assert Registered(r, asked, next)[i] == r[i];
    LookupIs(Registered(r, asked, next), i, next + 1);
  }

  /** After evicting a prefix a key is found with its own lock, or not at all. */
  lemma ShiftedLookup(r: Entries, k: nat, asked: string, next: nat, key: string)
    requires WellFormed(r, next) && k <= |r| && key != asked && Lookup(r, key).Some?
    ensures var now := Lookup(r[k..] + [(asked, next)], key);
            now.None? || now == Lookup(r, key)
  {
    var now := Lookup(r[k..] + [(asked, next)], key);
    if now.Some? {
      assert (key, now.value) in r[k..];
      var i :| 0 <= i < |r| && r[i] == (key, now.value);
      LookupIs(r, i, next);
    }
  }

  /** A newcomer that asks to refresh a key whose lock is not registered builds it at once. */
  lemma NewcomerBuilds<B>(s: State<B>, key: string, newcomer: nat, setting: int)
    requires Sound(s) && newcomer !in s.tasks && Lookup(s.registry, key).None?
    ensures var s' := Step(Step(s, Ask(newcomer, key, true), setting), Enter(newcomer), setting);
            s'.tasks == s.tasks[newcomer := Building(key, s.next)]
  {
    var s1 := Step(s, Ask(newcomer, key, true), setting);
    assert s1.tasks[newcomer] == Queued(key, s.next, true);
    assert !Held(s1.tasks, s.next);
  }

  lemma RunOne<B>(s: State<B>, events: seq<Event<B>>, e: Event<B>, setting: int)
    ensures Run(s, events + [e], setting) == Step(Run(s, events, setting), e, setting)
  {
    assert (events + [e])[..|events + [e]| - 1] == events;
  }

  lemma {:induction false} RunMore<B>(s: State<B>, a: seq<Event<B>>, b: seq<Event<B>>, setting: int)
    ensures Run(s, a + b, setting) == Run(Run(s, a, setting), b, setting)
    decreases |b|
  {
    if b == [] {
      assert a + b == a;
    } else {
      assert (a + b)[..|a + b| - 1] == a + b[..|b| - 1];
      RunMore(s, a, b[..|b| - 1], setting);
    }
  }

  /** Events that leave the registry alone evict nothing. */
  predicate Harmless<B>(e: Event<B>)
  {
    !e.Ask? && !e.Peek?
  }

  /** A newcomer asks to refresh a key whose lock is not registered, with room for another:
      nothing in use is evicted, and the key is built. */
  lemma NewcomerEvictsNothing<B>(s: State<B>, key: string, newcomer: nat, setting: int)
    requires Sound(s) && newcomer !in s.tasks && Lookup(s.registry, key).None? && |s.registry| < MAX_LOCKS
    ensures KeepsLocks(s, Ask(newcomer, key, true), setting)
  {
    forall t | LockKnown(s, s.registry, t)
      ensures LockKnown(s, Step(s, Ask(newcomer, key, true), setting).registry, t)
    {
      StillListed(s.registry, key, s.next, s.tasks[t].key);
    }
  }

  /** The continuation that ends in two builds: the lock is freed if another task holds it,
      the snapshot grows stale, the task enters, and a newcomer asks and enters. */
  function Breaking<B>(holder: nat, wait: nat, t: nat, newcomer: nat, key: string): seq<Event<B>>
  {
    [BuildFails(holder), Elapse(wait), Enter(t), Ask(newcomer, key, true), Enter(newcomer)]
  }

  lemma RunFive<B>(s: State<B>, a: Event<B>, b: Event<B>, c: Event<B>, d: Event<B>, e: Event<B>, setting: int)
    ensures var s1 := Step(s, a, setting);
            var s2 := Step(s1, b, setting);
            var s3 := Step(s2, c, setting);
            var s4 := Step(s3, d, setting);
            var es := [a, b, c, d, e];
            && Run(s, es[..0], setting) == s && Run(s, es[..1], setting) == s1 && Run(s, es[..2], setting) == s2
            && Run(s, es[..3], setting) == s3 && Run(s, es[..4], setting) == s4
            && Run(s, es, setting) == Step(s4, e, setting)
  {
    var es := [a, b, c, d, e];
    assert es[..4][..3] == es[..3] && es[..3][..2] == es[..2] && es[..2][..1] == es[..1] && es[..1][..0] == es[..0];
    assert es[..0] == [];
  }

  /** Who holds a lock; anybody if it is free. */
  lemma HolderOf<B>(s: State<B>, t: nat) returns (holder: nat)
    requires Sound(s) && t in s.tasks && s.tasks[t].Queued?
    ensures holder != t || !BuildingAt(s, holder)
    ensures var s1 := Step(s, BuildFails(holder), 0);
            !Held(s1.tasks, s.tasks[t].lock) && t in s1.tasks && s1.tasks[t] == s.tasks[t]
  {
    if Held(s.tasks, s.tasks[t].lock) {
      holder :| BuildingAt(s, holder) && s.tasks[holder].lock == s.tasks[t].lock;
    } else {
      holder := t;
    }
  }

  /** Long enough for the snapshot of a key to be stale. */
  function WaitFor<B>(s: State<B>, key: string): nat
  {
    if key in s.table && s.table[key].expiresAt > s.clock then s.table[key].expiresAt - s.clock else 0
  }

  /** A task in use comes to build, without touching the registry. */
  lemma TaskBuilds<B>(s: State<B>, t: nat, setting: int) returns (holder: nat, wait: nat)
    requires Sound(s) && t in s.tasks && InUse(s.tasks[t])
    ensures var s3 := Step(Step(Step(s, BuildFails(holder), setting), Elapse(wait), setting), Enter(t), setting);
            && BuildingAt(s3, t) && s3.tasks[t].key == s.tasks[t].key
            && s3.registry == s.registry && s3.next == s.next && s3.tasks.Keys == s.tasks.Keys
  {
    wait := WaitFor(s, s.tasks[t].key);
    if s.tasks[t].Queued? {
      holder := HolderOf(s, t);
    } else {
      holder := Fresh(s.tasks);
    }
  }

  lemma {:induction false} Above(ids: set<nat>) returns (bound: nat)
    ensures forall t :: t in ids ==> t < bound
    decreases |ids|
  {
    if ids == {} {
      bound := 0;
    } else {
      var t :| t in ids;
      var rest := Above(ids - {t});
      bound := if rest <= t then t + 1 else rest;
      assert forall u :: u in ids ==> u == t || u in ids - {t};
    }
  }

  /** There is always a newcomer. */
  lemma Fresh(tasks: map<nat, Stage>) returns (t: nat)
    ensures t !in tasks
  {
    t := Above(tasks.Keys);
  }

  lemma BreakingIsHarmless<B>(s: State<B>, holder: nat, wait: nat, t: nat, newcomer: nat, key: string, setting: int)
    requires var s3 := Step(Step(Step(s, BuildFails(holder), setting), Elapse(wait), setting), Enter(t), setting);
             KeepsLocks(s3, Ask(newcomer, key, true), setting)
    ensures NoEvictionInUse(s, Breaking(holder, wait, t, newcomer, key), setting)
  {
    var es := Breaking<B>(holder, wait, t, newcomer, key);
    RunFive(s, es[0], es[1], es[2], es[3], es[4], setting);
    forall k | 0 <= k < 5 ensures KeepsLocks(Run(s, es[..k], setting), es[k], setting) {
      if k != 3 {
        assert Harmless(es[k]);
        HarmlessKeeps(Run(s, es[..k], setting), es[k], setting);
      }
    }
  }

  lemma HarmlessKeeps<B>(s: State<B>, e: Event<B>, setting: int)
    requires Harmless(e)
    ensures KeepsLocks(s, e, setting) && Step(s, e, setting).registry == s.registry
  {
  }

  /** The condition is needed: once the lock of a task in use, queued or building, is no longer
      registered, a continuation that itself evicts nothing ends in two builds of its key. */
  lemma LostLockBreaks<B>(s: State<B>, t: nat, setting: int) returns (es: seq<Event<B>>)
    requires Sound(s) && t in s.tasks && InUse(s.tasks[t])
    requires Lookup(s.registry, s.tasks[t].key).None? && |s.registry| < MAX_LOCKS
    ensures NoEvictionInUse(s, es, setting) && !ExclusiveBuilds(Run(s, es, setting))
  {
    var key := s.tasks[t].key;
    var holder, wait := TaskBuilds(s, t, setting);
    var newcomer := Fresh(s.tasks);
    var s1 := Step(s, BuildFails(holder), setting);
    var s2 := Step(s1, Elapse(wait), setting);
    var s3 := Step(s2, Enter(t), setting);
    StepSound(s, BuildFails(holder), setting);
    StepSound(s1, Elapse(wait), setting);
    StepSound(s2, Enter(t), setting);
    NewcomerEvictsNothing(s3, key, newcomer, setting);
    BreakingIsHarmless(s, holder, wait, t, newcomer, key, setting);
    NewcomerBuilds(s3, key, newcomer, setting);
    es := Breaking(holder, wait, t, newcomer, key);
    RunFive(s, es[0], es[1], es[2], es[3], es[4], setting);
    BothBuild(Run(s, es, setting), t, newcomer);
  }

  /** An event that evicts a lock in use leaves its task without a registered lock. */
  lemma EvictionLosesLock<B>(s: State<B>, e: Event<B>, setting: int) returns (t: nat)
    requires Sound(s) && !KeepsLocks(s, e, setting)
    ensures var s' := Step(s, e, setting);
            && t in s'.tasks && InUse(s'.tasks[t])
            && Lookup(s'.registry, s'.tasks[t].key).None? && |s'.registry| < MAX_LOCKS
  {
    t :| LockKnown(s, s.registry, t) && !LockKnown(s, Step(s, e, setting).registry, t);
    AskingForgets(s, e.key, s.tasks[t].key);
  }

  ghost predicate StaysExclusive<B(!new)>(s: State<B>, setting: int)
  {
    forall es: seq<Event<B>> :: NoEvictionInUse(s, es, setting) ==> ExclusiveBuilds(Run(s, es, setting))
  }

  /** Exactly which events break exclusion. After any run that has evicted no lock in use, an
      event evicts none either if and only if builds stay exclusive in every continuation
      that evicts none. */
  lemma EvictionBreaksExclusion<B(!new)>(now: int, events: seq<Event<B>>, e: Event<B>, setting: int)
    requires NoEvictionInUse(Start(now), events, setting)
    ensures var s := Run(Start(now), events, setting);
            KeepsLocks(s, e, setting) <==> StaysExclusive(Step(s, e, setting), setting)
  {
    var s := Run(Start(now), events, setting);
    var s' := Step(s, e, setting);
    RunRooted(Start(now), events, setting);
    StepSound(s, e, setting);
    if KeepsLocks(s, e, setting) {
      StepRooted(s, e, setting);
      forall es: seq<Event<B>> | NoEvictionInUse(s', es, setting) ensures ExclusiveBuilds(Run(s', es, setting)) {
        RunRooted(s', es, setting);
        RootedIsExclusive(Run(s', es, setting));
      }
    } else {
      var t := EvictionLosesLock(s, e, setting);
      var es := LostLockBreaks(s', t, setting);
    }
  }

  lemma BothBuild<B>(s: State<B>, t: nat, u: nat)
    requires t != u && BuildingAt(s, t) && BuildingAt(s, u) && s.tasks[t].key == s.tasks[u].key
    ensures !ExclusiveBuilds(s)
  {
  }

  /** Distinct keys for as many requests as needed. */
  function KeyOf(i: nat): (r: string)
    ensures |r| == i
  {
    seq(i, _ => 'k')
  }

  /** Task 0 builds key 0; then the locks of keys 1 to n - 1 are asked for. */
  function Crowd<B>(n: nat): seq<Event<B>>
    requires n >= 1
  {
    if n == 1 then [Ask(0, KeyOf(0), true)] + [Enter(0)] else Crowd(n - 1) + [Peek(KeyOf(n - 1))]
  }

  /** Only task 0 is at work, and the first `n` keys have their locks. */
  ghost predicate Crowded<B>(s: State<B>, n: nat)
  {
    && |s.registry| == n == s.next && (forall i :: 0 <= i < n ==> s.registry[i] == (KeyOf(i), i))
    && s.tasks == map[0 := Building(KeyOf(0), 0)]
  }

  lemma {:induction false} NotRegistered(r: Entries, key: string)
    requires forall i :: 0 <= i < |r| ==> |r[i].0| != |key|
    ensures Lookup(r, key).None?
  {
    if r != [] {
      assert r[0].0 != key;
      NotRegistered(r[1..], key);
    }
  }

  lemma FirstInCrowd<B>(s: State<B>, setting: int)
    requires s.registry == [] && s.next == 0 && s.tasks == map[]
    ensures Crowded(Step(Step(s, Ask(0, KeyOf(0), true), setting), Enter(0), setting), 1)
  {
    NewcomerBuilds(s, KeyOf(0), 0, setting);
  }

  lemma NextInCrowd<B>(s: State<B>, n: nat, setting: int)
    requires Crowded(s, n) && n < MAX_LOCKS
    ensures Crowded(Step(s, Peek(KeyOf(n)), setting), n + 1)
  {
    NotRegistered(s.registry, KeyOf(n));
  }

  lemma {:induction false} CrowdState<B>(now: int, n: nat, setting: int)
    requires 1 <= n <= MAX_LOCKS
    ensures Crowded(Run<B>(Start(now), Crowd(n), setting), n)
  {
    if n == 1 {
      var first: seq<Event<B>> := [Ask(0, KeyOf(0), true)];
      RunOne(Start<B>(now), [], Ask(0, KeyOf(0), true), setting);
      assert [] + first == first;
      RunOne(Start<B>(now), first, Enter(0), setting);
      FirstInCrowd(Start<B>(now), setting);
    } else {
      CrowdState<B>(now, n - 1, setting);
      RunOne(Start<B>(now), Crowd(n - 1), Peek(KeyOf(n - 1)), setting);
      NextInCrowd(Run<B>(Start(now), Crowd(n - 1), setting), n - 1, setting);
    }
  }

  /** The 501st key evicts the lock of key 0. */
  lemma CrowdEvicts<B>(s: State<B>)
    requires Crowded(s, MAX_LOCKS) && Sound(s)
    ensures Lookup(s.registry, KeyOf(0)).Some?
    ensures Lookup(WithLock(s, KeyOf(MAX_LOCKS)).registry, KeyOf(0)).None?
  {
    assert s.registry[0] == (KeyOf(0), 0);
    LookupIs(s.registry, 0, s.next);
    NotRegistered(s.registry, KeyOf(MAX_LOCKS));
    NotRegistered(WithLock(s, KeyOf(MAX_LOCKS)).registry, KeyOf(0));
  }

  /** And it can happen: with 501 keys about, two tasks end up building the same one. */
  lemma DoubleBuildIsReachable<B>(now: int, setting: int) returns (events: seq<Event<B>>)
    ensures !ExclusiveBuilds(Run(Start(now), events, setting))
  {
    var crowd, asked := Crowd<B>(MAX_LOCKS), KeyOf(MAX_LOCKS);
    var s := Run<B>(Start(now), crowd, setting);
    CrowdState<B>(now, MAX_LOCKS, setting);
    RunSound<B>(now, crowd, setting);
    CrowdEvicts(s);
    StepSound(s, Peek(asked), setting);
    AskingForgets(s, asked, KeyOf(0));
    var es := LostLockBreaks(Step(s, Peek(asked), setting), 0, setting);
    var peek: seq<Event<B>> := [Peek(asked)];
    events := crowd + (peek + es);
    RunMore(Start<B>(now), crowd, peek + es, setting);
    RunMore(s, peek, es, setting);
    RunOne(s, [], Peek(asked), setting);
    assert [] + peek == peek;
  }
}
