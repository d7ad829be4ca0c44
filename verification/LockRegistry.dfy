/** The registry of per-key locks: insertion ordered, bounded, evicting the oldest. */
module LockRegistry {
  import opened Wrappers

  const MAX_LOCKS := 500
  const EVICTED := 100

  /** Keys with their locks, oldest first; a lock is known by the number it was made with. */
  type Entries = seq<(string, nat)>

  function Lookup(entries: Entries, key: string): (r: Option<nat>)
    ensures r.Some? ==> (key, r.value) in entries
    ensures r.None? ==> forall e :: e in entries ==> e.0 != key
  {
    if entries == [] then None
    else if entries[0].0 == key then Some(entries[0].1)
    else Lookup(entries[1..], key)
  }

  ghost predicate WellFormed(entries: Entries, next: nat)
  {
    && |entries| <= MAX_LOCKS
    && (forall i, j :: 0 <= i < j < |entries| ==> entries[i].0 != entries[j].0)
    && (forall e :: e in entries ==> e.1 < next)
  }

  /** The registry after `_get_lock(key)`, a new lock getting the number `next`. */
  function Registered(entries: Entries, key: string, next: nat): Entries
  {
    if Lookup(entries, key).Some? then entries
    else (if |entries| >= MAX_LOCKS then entries[EVICTED..] else entries) + [(key, next)]
  }

  lemma {:induction false} LookupIs(entries: Entries, i: nat, next: nat)
    requires WellFormed(entries, next) && i < |entries|
    ensures Lookup(entries, entries[i].0) == Some(entries[i].1)
    decreases |entries|
  {
    if i > 0 {
      var rest := entries[1..];
      assert rest[i - 1] == entries[i];
      LookupIs(rest, i - 1, next);
    }
  }

  /** The registry stays bounded and free of duplicates, and answers the key it was asked. */
  lemma RegisteredFacts(entries: Entries, key: string, next: nat)
    requires WellFormed(entries, next)
    ensures WellFormed(Registered(entries, key, next), next + 1)
    ensures Lookup(entries, key).Some? ==> Registered(entries, key, next) == entries
    ensures Lookup(entries, key).None? ==> Lookup(Registered(entries, key, next), key) == Some(next)
  {
    var r := Registered(entries, key, next);
    if Lookup(entries, key).None? {
      LookupIs(r, |r| - 1, next + 1);
    }
  }

  lemma {:induction false} NotFound(entries: Entries, key: string)
    requires forall j :: 0 <= j < |entries| ==> entries[j].0 != key
    ensures Lookup(entries, key) == None
    decreases |entries|
  {
    if entries != [] {
      NotFound(entries[1..], key);
    }
  }

  /** What happens to another key: a known key changes nothing; a new one leaves the others their
      locks, unless there are 500, of which it drives out the 100 oldest. */
  lemma OldestMakeRoom(entries: Entries, key: string, next: nat, i: nat)
    requires WellFormed(entries, next) && i < |entries|
    ensures var r := Registered(entries, key, next);
            && |r| <= 500
            && Lookup(r, entries[i].0)
                 == if Lookup(entries, key).None? && |entries| == 500 && i < 100 then None else Some(entries[i].1)
  {
    var r, name := Registered(entries, key, next), entries[i].0;
    RegisteredFacts(entries, key, next);
    if Lookup(entries, key).Some? {
      LookupIs(entries, i, next);
    } else {
      var gone := if |entries| >= MAX_LOCKS then EVICTED else 0;
      assert r == entries[gone..] + [(key, next)];
      if i >= gone {
        LookupIs(r, i - gone, next + 1);
      } else {
        assert entries[i] in entries;
        NotFound(r, name);
      }
    }
  }

  class Registry {
    var entries: Entries
    var next: nat

    ghost predicate Valid()
      reads this
    {
      WellFormed(entries, next)
    }

    constructor ()
      ensures Valid() && entries == [] && next == 0
    {
      entries, next := [], 0;
    }

    method GetLock(key: string) returns (lock: nat)
      requires Valid()
      modifies this
      ensures Valid()
      ensures entries == Registered(old(entries), key, old(next))
      ensures Lookup(entries, key) == Some(lock)
      ensures next == if Lookup(old(entries), key).Some? then old(next) else old(next) + 1
    {
      RegisteredFacts(entries, key, next);
      var known := Lookup(entries, key);
      if known.Some? {
        return known.value;
      }
      if |entries| >= MAX_LOCKS {
        entries := entries[EVICTED..];
      }
      lock := next;
      entries := entries + [(key, lock)];
      next := next + 1;
    }
  }
}
