/** Merging the answers of several data sources, and filtering the merged lists by source. */
module Sources {
  import opened Filtering
  import opened Wrappers

  const MAX_DATA_SOURCE_IDS := 20

  datatype Source = Source(id: string, labelText: string)

  /** A fetched record; the tag says which source it came from. */
  datatype Item<X> = Item(content: X, sourceId: Option<string>, sourceLabel: Option<string>)

  datatype Kind = Scans | Issues | Applications | AssetGroups

  /** What one source answers: the four lists, tenant information, numeric statistics. */
  datatype Answer<X> = Answer(lists: Kind -> seq<Item<X>>, tenant: map<string, string>, stats: map<string, int>)

  datatype Merged<X> = Merged(lists: map<Kind, seq<Item<X>>>, tenant: map<string, string>, stats: map<string, int>)

  // ---------------------------------------------------------------- which sources are asked

  function SourcesIn(sources: seq<Source>, allowed: set<string>): seq<Source>
    decreases |sources|
  {
    if sources == [] then []
    else
      var last := sources[|sources| - 1];
      SourcesIn(sources[..|sources| - 1], allowed) + (if last.id in allowed then [last] else [])
  }

  lemma {:induction false} SourcesInExact(sources: seq<Source>, allowed: set<string>)
    ensures forall s :: s in SourcesIn(sources, allowed) <==> s in sources && s.id in allowed
    decreases |sources|
  {
    if sources != [] {
      SourcesInExact(sources[..|sources| - 1], allowed);
      assert sources == sources[..|sources| - 1] + [sources[|sources| - 1]];
    }
  }

  function IdSet(ids: seq<string>): set<string>
  {
    set id | id in ids
  }

  /** The sources a request names: only its first twenty ids are looked at. */
  function LoadSources(sources: seq<Source>, requested: seq<string>): seq<Source>
  {
    if requested == [] then sources
    else
      var valid := set s | s in sources :: s.id;
      SourcesIn(sources, IdSet(requested[..Min(MAX_DATA_SOURCE_IDS, |requested|)]) * valid)
  }

  // ---------------------------------------------------------------- merging

  function Tag<X>(items: seq<Item<X>>, source: Source): (r: seq<Item<X>>)
    ensures |r| == |items|
    ensures forall i :: 0 <= i < |r| ==>
              r[i] == items[i].(sourceId := Some(source.id), sourceLabel := Some(source.labelText))
  {
    seq(|items|, i requires 0 <= i < |items| =>
        items[i].(sourceId := Some(source.id), sourceLabel := Some(source.labelText)))
  }

  /** What one source adds to the merged list of one kind. */
  function Part<X>(source: Source, fetch: Source -> Option<Answer<X>>, kind: Kind): seq<Item<X>>
  {
    match fetch(source)
    case None => []
    case Some(a) => Tag(a.lists(kind), source)
  }

  /** The merged list of one kind; a source whose fetch fails contributes nothing. */
  function MergedList<X>(sources: seq<Source>, fetch: Source -> Option<Answer<X>>, kind: Kind): seq<Item<X>>
    decreases |sources|
  {
    if sources == [] then []
    else
      MergedList(sources[..|sources| - 1], fetch, kind) + Part(sources[|sources| - 1], fetch, kind)
  }

  function Stat<X>(a: Option<Answer<X>>, key: string): int
  {
    if a.Some? && key in a.value.stats then a.value.stats[key] else 0
  }

  /** The sum of one statistic over the sources that answered. */
  function StatSum<X>(sources: seq<Source>, fetch: Source -> Option<Answer<X>>, key: string): int
  {
    if sources == [] then 0
    else StatSum(sources[..|sources| - 1], fetch, key) + Stat(fetch(sources[|sources| - 1]), key)
  }

  function FirstTenant<X>(sources: seq<Source>, fetch: Source -> Option<Answer<X>>): map<string, string>
  {
    if sources == [] then map[]
    else
      var before := FirstTenant(sources[..|sources| - 1], fetch);
      var last := fetch(sources[|sources| - 1]);
      if before == map[] && last.Some? then last.value.tenant else before
  }

  /** The tenant record is that of the first source that answered with one. */
  lemma {:induction false} TenantIsFirst<X>(sources: seq<Source>, fetch: Source -> Option<Answer<X>>)
    ensures FirstTenant(sources, fetch) == map[] <==>
              forall s :: s in sources && fetch(s).Some? ==> fetch(s).value.tenant == map[]
    ensures FirstTenant(sources, fetch) != map[] ==>
              exists i :: 0 <= i < |sources| && fetch(sources[i]).Some?
                && fetch(sources[i]).value.tenant == FirstTenant(sources, fetch)
                && forall j :: 0 <= j < i && fetch(sources[j]).Some? ==> fetch(sources[j]).value.tenant == map[]
    decreases |sources|
  {
    if sources != [] {
      var n := |sources| - 1;
      var init := sources[..n];
      TenantIsFirst(init, fetch);
      assert sources == init + [sources[n]];
      if FirstTenant(init, fetch) != map[] {
        var i :| 0 <= i < n && fetch(init[i]).Some? && fetch(init[i]).value.tenant == FirstTenant(init, fetch)
          && forall j :: 0 <= j < i && fetch(init[j]).Some? ==> fetch(init[j]).value.tenant == map[];
        assert sources[i] == init[i];
      } else if FirstTenant(sources, fetch) != map[] {
        assert fetch(sources[n]).Some? && fetch(sources[n]).value.tenant == FirstTenant(sources, fetch);
        forall j | 0 <= j < n && fetch(sources[j]).Some? ensures fetch(sources[j]).value.tenant == map[] {
          assert init[j] in init;
        }
      }
    }
  }

  function AddStats(total: map<string, int>, stats: map<string, int>): map<string, int>
  {
    map key | key in total.Keys + stats.Keys ::
      (if key in total then total[key] else 0) + (if key in stats then stats[key] else 0)
  }

  method AggregateBaseData<X>(sources: seq<Source>, fetch: Source -> Option<Answer<X>>) returns (merged: Merged<X>)
    ensures forall kind :: kind in merged.lists && merged.lists[kind] == MergedList(sources, fetch, kind)
    ensures merged.tenant == FirstTenant(sources, fetch)
    ensures forall key :: (if key in merged.stats then merged.stats[key] else 0) == StatSum(sources, fetch, key)
  {
    var lists: map<Kind, seq<Item<X>>> := map[Scans := [], Issues := [], Applications := [], AssetGroups := []];
    forall kind: Kind ensures kind in lists && lists[kind] == [] {
      match kind { case Scans => case Issues => case Applications => case AssetGroups => }
    }
    var tenant: map<string, string> := map[];
    var stats: map<string, int> := map[];
    for idx := 0 to |sources|
      invariant forall kind :: kind in lists && lists[kind] == MergedList(sources[..idx], fetch, kind)
      invariant tenant == FirstTenant(sources[..idx], fetch)
      invariant forall key :: (if key in stats then stats[key] else 0) == StatSum(sources[..idx], fetch, key)
    {
      var ds := sources[idx];
      assert sources[..idx + 1][..idx] == sources[..idx];
      match fetch(ds) {
        case None =>
        case Some(result) =>
          lists := map kind | kind in lists :: lists[kind] + Tag(result.lists(kind), ds);
          if tenant == map[] {
            tenant := result.tenant;
          }
          stats := AddStats(stats, result.stats);
      }
    }
    assert sources[..|sources|] == sources;
    merged := Merged(lists, tenant, stats);
  }

  // ---------------------------------------------------------------- filtering afterwards

  function TaggedIn<X>(allowed: set<string>): Item<X> -> bool
  {
    (i: Item<X>) => i.sourceId.Some? && i.sourceId.value in allowed
  }

  /** The warm-cache filter: every item unless ids are requested, else those tagged with one. */
  function Keep<X>(items: seq<Item<X>>, allowed: set<string>): seq<Item<X>>
  {
    Filter(items, TaggedIn(allowed))
  }

  function KeepRequested<X>(items: seq<Item<X>>, requested: seq<string>): seq<Item<X>>
  {
    if requested == [] then items else Keep(items, IdSet(requested))
  }

  lemma KeepUniform<X>(items: seq<Item<X>>, id: string, allowed: set<string>)
    requires forall i :: 0 <= i < |items| ==> items[i].sourceId == Some(id)
    ensures Keep(items, allowed) == if id in allowed then items else []
  {
    if id in allowed {
      FilterAll(items, TaggedIn<X>(allowed));
    } else {
      FilterNone(items, TaggedIn<X>(allowed));
    }
  }

  lemma MergedConcatOne<X>(sources: seq<Source>, last: Source, fetch: Source -> Option<Answer<X>>, kind: Kind)
    ensures MergedList(sources + [last], fetch, kind) ==
            MergedList(sources, fetch, kind) + Part(last, fetch, kind)
  {
    assert (sources + [last])[..|sources|] == sources;
  }

  lemma SelectedMerge<X>(sources: seq<Source>, fetch: Source -> Option<Answer<X>>, kind: Kind, allowed: set<string>)
    requires sources != []
    ensures var init, last := sources[..|sources| - 1], sources[|sources| - 1];
            MergedList(SourcesIn(sources, allowed), fetch, kind) ==
            MergedList(SourcesIn(init, allowed), fetch, kind)
                + (if last.id in allowed then Part(last, fetch, kind) else [])
  {
    var chosen, last := SourcesIn(sources[..|sources| - 1], allowed), sources[|sources| - 1];
    MergedConcatOne(chosen, last, fetch, kind);
    assert chosen + [] == chosen;
    assert MergedList(chosen, fetch, kind) + [] == MergedList(chosen, fetch, kind);
  }

  /** Keeping the items of some sources is merging those sources only. */
  lemma {:induction false} KeepIsMerge<X>(sources: seq<Source>, fetch: Source -> Option<Answer<X>>, kind: Kind,
                                          allowed: set<string>)
    ensures Keep(MergedList(sources, fetch, kind), allowed) == MergedList(SourcesIn(sources, allowed), fetch, kind)
    decreases |sources|
  {
    if sources != [] {
      var init, last := sources[..|sources| - 1], sources[|sources| - 1];
      KeepIsMerge(init, fetch, kind, allowed);
      SelectedMerge(sources, fetch, kind, allowed);
      FilterConcat(MergedList(init, fetch, kind), Part(last, fetch, kind), TaggedIn(allowed));
      KeepUniform(Part(last, fetch, kind), last.id, allowed);
    }
  }

  lemma {:induction false} SameSelection(sources: seq<Source>, a: set<string>, b: set<string>)
    requires forall s :: s in sources ==> (s.id in a <==> s.id in b)
    ensures SourcesIn(sources, a) == SourcesIn(sources, b)
    decreases |sources|
  {
    if sources != [] {
      assert sources[|sources| - 1] in sources;
      SameSelection(sources[..|sources| - 1], a, b);
    }
  }

  /** No enabled source is requested only beyond the twentieth id. */
  predicate Honoured(sources: seq<Source>, requested: seq<string>)
  {
    forall s :: s in sources && s.id in requested ==> s.id in requested[..Min(20, |requested|)]
  }

  lemma FilterAfterMergeHolds<X>(sources: seq<Source>, fetch: Source -> Option<Answer<X>>, kind: Kind,
                                 requested: seq<string>)
    requires Honoured(sources, requested)
    ensures KeepRequested(MergedList(sources, fetch, kind), requested)
              == MergedList(LoadSources(sources, requested), fetch, kind)
  {
    if requested != [] {
      var first := requested[..Min(MAX_DATA_SOURCE_IDS, |requested|)];
      var valid := set s | s in sources :: s.id;
      KeepIsMerge(sources, fetch, kind, IdSet(requested));
      forall s | s in sources ensures s.id in IdSet(requested) <==> s.id in IdSet(first) * valid {
        assert s.id in valid;
        if s.id in first { assert s.id in requested; }
      }
      SameSelection(sources, IdSet(requested), IdSet(first) * valid);
    }
  }

  /** A fetch in which only one source has anything: one scan. */
  function OnlyFrom<X>(lucky: Source, x: X): Source -> Option<Answer<X>>
  {
    s => if s == lucky then Some(Answer(kind => if kind == Scans then [Item(x, None, None)] else [], map[], map[]))
        else None
  }

  lemma {:induction false} LuckyIsMerged<X>(sources: seq<Source>, lucky: Source, x: X)
    ensures MergedList(sources, OnlyFrom(lucky, x), Scans) != [] <==> lucky in sources
    decreases |sources|
  {
    if sources != [] {
      var init, last := sources[..|sources| - 1], sources[|sources| - 1];
      assert sources == init + [last];
      LuckyIsMerged(init, lucky, x);
    }
  }

  lemma DroppedSourceShows<X>(sources: seq<Source>, requested: seq<string>, lucky: Source, x: X)
    requires lucky in sources && lucky.id in requested
    requires lucky.id !in requested[..Min(MAX_DATA_SOURCE_IDS, |requested|)]
    ensures KeepRequested(MergedList(sources, OnlyFrom(lucky, x), Scans), requested)
            != MergedList(LoadSources(sources, requested), OnlyFrom(lucky, x), Scans)
  {
    KeepIsMerge(sources, OnlyFrom(lucky, x), Scans, IdSet(requested));
    SourcesInExact(sources, IdSet(requested));
    var valid := set s | s in sources :: s.id;
    SourcesInExact(sources, IdSet(requested[..Min(MAX_DATA_SOURCE_IDS, |requested|)]) * valid);
    LuckyIsMerged(SourcesIn(sources, IdSet(requested)), lucky, x);
    LuckyIsMerged(LoadSources(sources, requested), lucky, x);
  }

  ghost predicate FilterCommutes<X(!new)>(sources: seq<Source>, requested: seq<string>)
  {
    forall fetch: Source -> Option<Answer<X>>, kind: Kind {:trigger MergedList(sources, fetch, kind)} ::
      KeepRequested(MergedList(sources, fetch, kind), requested)
          == MergedList(LoadSources(sources, requested), fetch, kind)
  }

  /** Filtering the merged lists by source gives the lists, in order, that fetching only the
      requested sources gives, for every outcome of the fetches, if and only if no enabled
      source is requested beyond the twentieth id alone. */
  lemma FilterAfterMerge<X(!new)>(sources: seq<Source>, requested: seq<string>, x: X)
    ensures FilterCommutes<X>(sources, requested) <==> Honoured(sources, requested)
  {
    if Honoured(sources, requested) {
      forall fetch: Source -> Option<Answer<X>>, kind: Kind
        ensures KeepRequested(MergedList(sources, fetch, kind), requested)
                  == MergedList(LoadSources(sources, requested), fetch, kind)
      {
        FilterAfterMergeHolds(sources, fetch, kind, requested);
      }
    } else {
      var lucky :| lucky in sources && lucky.id in requested
          && lucky.id !in requested[..Min(MAX_DATA_SOURCE_IDS, |requested|)];
      DroppedSourceShows(sources, requested, lucky, x);
      assert MergedList(sources, OnlyFrom(lucky, x), Scans) == MergedList(sources, OnlyFrom(lucky, x), Scans);
    }
  }

  /** Up to twenty requested ids are always honoured. */
  lemma TwentyAreHonoured(sources: seq<Source>, requested: seq<string>)
    requires |requested| <= 20
    ensures Honoured(sources, requested)
  {
    assert requested[..|requested|] == requested;
  }

  lemma StatSumOne<X>(sources: seq<Source>, last: Source, fetch: Source -> Option<Answer<X>>, key: string)
    ensures StatSum(sources + [last], fetch, key) == StatSum(sources, fetch, key) + Stat(fetch(last), key)
  {
    assert (sources + [last])[..|sources|] == sources;
  }

  /** The merged statistics are conserved: those of the named sources and those of the
      others add up to those of all. */
  lemma {:induction false} StatsSplit<X>(sources: seq<Source>, fetch: Source -> Option<Answer<X>>, key: string,
                                         a: set<string>, b: set<string>)
    requires forall s :: s in sources ==> (s.id in a <==> s.id !in b)
    ensures StatSum(sources, fetch, key)
              == StatSum(SourcesIn(sources, a), fetch, key) + StatSum(SourcesIn(sources, b), fetch, key)
    decreases |sources|
  {
    if sources != [] {
      var init, last := sources[..|sources| - 1], sources[|sources| - 1];
      StatsSplit(init, fetch, key, a, b);
      StatSumOne(SourcesIn(init, a), last, fetch, key);
      StatSumOne(SourcesIn(init, b), last, fetch, key);
      assert SourcesIn(init, a) + [] == SourcesIn(init, a) && SourcesIn(init, b) + [] == SourcesIn(init, b);
      assert last in sources;
    }
  }
}
