/** Requests and the key their bundles are stored under. */
module CacheKey {
  import opened Wrappers
  import opened Text
  import opened Sorting

  /** A request for the analytics bundle, with the role and asset groups of its user. */
  datatype Request = Request(
    role: string, assetGroups: seq<string>,
    groupIds: seq<string>, appIds: seq<string>, technologies: seq<string>, vulnerabilities: seq<string>,
    scanTypes: seq<string>, scanStatuses: seq<string>,
    name: Option<string>, fromDate: Option<string>, toDate: Option<string>,
    rule: string, threshold: string, sources: Option<seq<string>>)

  /** What is hashed into the key. */
  datatype Payload = Payload(
    role: string, assetGroups: seq<string>,
    groupIds: seq<string>, appIds: seq<string>, technologies: seq<string>, vulnerabilities: seq<string>,
    scanTypes: seq<string>, scanStatuses: seq<string>,
    name: string, fromDate: Option<string>, toDate: Option<string>,
    rule: string, threshold: string, sources: seq<string>)

  function NameText(r: Request): string
  {
    if r.name.Some? then r.name.value else ""
  }

  function SourceIds(r: Request): seq<string>
  {
    if r.sources.Some? then r.sources.value else []
  }

  function Sorted(s: seq<string>): seq<string>
  {
    Sort(s, StrLe)
  }

  function KeyOf(r: Request): Payload
  {
    Payload(r.role, Sorted(r.assetGroups), Sorted(r.groupIds), Sorted(r.appIds), Sorted(r.technologies),
            Sorted(r.vulnerabilities), Sorted(r.scanTypes), Sorted(r.scanStatuses), Fold(NameText(r)),
            r.fromDate, r.toDate, r.rule, r.threshold, Sorted(SourceIds(r)))
  }

  predicate Rearranged(a: seq<string>, b: seq<string>)
  {
    multiset(a) == multiset(b)
  }

  lemma SortedExactly(a: seq<string>, b: seq<string>)
    ensures Sorted(a) == Sorted(b) <==> Rearranged(a, b)
    ensures Rearranged(a, b) ==> (forall x :: x in a <==> x in b) && (a == [] <==> b == [])
  {
    SortElements(a, StrLe);
    SortElements(b, StrLe);
    if Rearranged(a, b) {
      forall x, y ensures StrLe(x, y) || StrLe(y, x)
        ensures StrLe(x, y) && StrLe(y, x) ==> x == y
      {
        StrLeTotal(x, y);
      }
      forall x, y, z | StrLe(x, y) && StrLe(y, z) ensures StrLe(x, z) {
        StrLeTransitive(x, y, z);
      }
      SortSorts(a, StrLe);
      SortSorts(b, StrLe);
      SortedUnique(Sorted(a), Sorted(b), StrLe);
      SameElements(a, b);
    }
  }

  lemma SameElements(a: seq<string>, b: seq<string>)
    requires Rearranged(a, b)
    ensures (forall x :: x in a <==> x in b) && (a == [] <==> b == [])
  {
    forall x ensures x in a <==> x in b {
      assert x in a <==> x in multiset(a);
      assert x in b <==> x in multiset(b);
    }
    assert |a| == |multiset(a)| && |b| == |multiset(b)|;
  }

  /** Two requests share a key exactly when their lists are rearrangements of each other,
      their names differ at most in case and outer white space, and the rest is equal. */
  lemma KeysEqualExactly(a: Request, b: Request)
    ensures KeyOf(a) == KeyOf(b) <==>
            && a.role == b.role && Rearranged(a.assetGroups, b.assetGroups)
            && Rearranged(a.groupIds, b.groupIds) && Rearranged(a.appIds, b.appIds)
            && Rearranged(a.technologies, b.technologies) && Rearranged(a.vulnerabilities, b.vulnerabilities)
            && Rearranged(a.scanTypes, b.scanTypes) && Rearranged(a.scanStatuses, b.scanStatuses)
            && Fold(NameText(a)) == Fold(NameText(b))
            && a.fromDate == b.fromDate && a.toDate == b.toDate && a.rule == b.rule && a.threshold == b.threshold
            && Rearranged(SourceIds(a), SourceIds(b))
  {
    SortedExactly(a.assetGroups, b.assetGroups);
    SortedExactly(a.groupIds, b.groupIds);
    SortedExactly(a.appIds, b.appIds);
    SortedExactly(a.technologies, b.technologies);
    SortedExactly(a.vulnerabilities, b.vulnerabilities);
    SortedExactly(a.scanTypes, b.scanTypes);
    SortedExactly(a.scanStatuses, b.scanStatuses);
    SortedExactly(SourceIds(a), SourceIds(b));
  }

  /** The same members, and both or neither empty. */
  ghost predicate Alike(a: seq<string>, b: seq<string>)
  {
    (forall x :: x in a <==> x in b) && (a == [] <==> b == [])
  }

  /** Requests whose lists have the same members, whatever their names. */
  ghost predicate AlikeButName(a: Request, b: Request)
  {
    && a.role == b.role && Alike(a.assetGroups, b.assetGroups)
    && Alike(a.groupIds, b.groupIds) && Alike(a.appIds, b.appIds)
    && Alike(a.technologies, b.technologies) && Alike(a.vulnerabilities, b.vulnerabilities)
    && Alike(a.scanTypes, b.scanTypes) && Alike(a.scanStatuses, b.scanStatuses)
    && a.fromDate == b.fromDate && a.toDate == b.toDate && Alike(SourceIds(a), SourceIds(b))
    && (Trim(NameText(a)) == "" <==> Trim(NameText(b)) == "")
  }

  lemma EqualKeysAreAlike(a: Request, b: Request)
    requires KeyOf(a) == KeyOf(b)
    ensures AlikeButName(a, b) && Fold(NameText(a)) == Fold(NameText(b)) && a.rule == b.rule
              && a.threshold == b.threshold
  {
    KeysEqualExactly(a, b);
    SameElements(a.assetGroups, b.assetGroups);
    SameElements(a.groupIds, b.groupIds);
    SameElements(a.appIds, b.appIds);
    SameElements(a.technologies, b.technologies);
    SameElements(a.vulnerabilities, b.vulnerabilities);
    SameElements(a.scanTypes, b.scanTypes);
    SameElements(a.scanStatuses, b.scanStatuses);
    SameElements(SourceIds(a), SourceIds(b));
  }

  lemma TrimmedNamesFold(a: Request)
    requires Trimmed(NameText(a))
    ensures Fold(NameText(a)) == Lower(NameText(a))
  {
    TrimIsTrimmed(NameText(a));
  }
}
