/** The technologies of each application, its primary one, and the technology an issue counts
    for. */
module Technology {
  import opened Sorting
  import opened Counting
  import opened Domain
  import opened Filtering

  function Priority(t: Domain.Technology): nat
  {
    match t
    case DAST => 4
    case SAST => 3
    case SCA => 2
    case IAST => 1
    case UNKNOWN => 0
  }

  // ---------------------------------------------------------------- technology of an application

  function TechHit(app: string, t: Domain.Technology): Scan -> int
  {
    (scan: Scan) => if scan.applicationId == app && KindOf(scan) == t then 1 else 0
  }

  /** How many scans of the application are of one technology. */
  function TechCount(scans: seq<Scan>, app: string, t: Domain.Technology): int
  {
    Sum(scans, TechHit(app, t))
  }

  function OfType(app: string, t: ScanType): Scan -> bool
  {
    (scan: Scan) => scan.applicationId == app && scan.scanType == t
  }

  /** The four counts, by the type field of the scans. */
  lemma TypesCounted(scans: seq<Scan>, app: string)
    ensures TechCount(scans, app, DAST) == |Filter(scans, OfType(app, DastScan))|
    ensures TechCount(scans, app, SAST) == |Filter(scans, OfType(app, SastScan))|
    ensures TechCount(scans, app, SCA) == |Filter(scans, OfType(app, ScaScan))|
    ensures TechCount(scans, app, IAST) == |Filter(scans, OfType(app, IastScan))|
  {
    SumIsCount(scans, TechHit(app, DAST), OfType(app, DastScan));
    SumIsCount(scans, TechHit(app, SAST), OfType(app, SastScan));
    SumIsCount(scans, TechHit(app, SCA), OfType(app, ScaScan));
    SumIsCount(scans, TechHit(app, IAST), OfType(app, IastScan));
  }

  predicate HasTech(scans: seq<Scan>, app: string)
  {
    app != "" && exists s :: s in scans && s.applicationId == app && KindOf(s) != UNKNOWN
  }

  /** The most frequent technology; ties go to the higher priority. */
  ghost predicate IsPrimary(scans: seq<Scan>, app: string, t: Domain.Technology)
  {
    && t != UNKNOWN
    && TechCount(scans, app, t) > 0
    && forall u :: u != UNKNOWN ==>
         TechCount(scans, app, u) < TechCount(scans, app, t)
         || (TechCount(scans, app, u) == TechCount(scans, app, t) && Priority(u) <= Priority(t))
  }

  datatype Maps = Maps(techs: map<string, set<Domain.Technology>>, primary: map<string, Domain.Technology>)

  /** The maps are right about one application. */
  ghost predicate ExactAt(maps: Maps, scans: seq<Scan>, app: string)
  {
    && (app in maps.techs <==> HasTech(scans, app))
    && (app in maps.primary <==> HasTech(scans, app))
    && (app in maps.techs ==> forall t :: t in maps.techs[app] <==> t != UNKNOWN && TechCount(scans, app, t) > 0)
    && (app in maps.primary ==> IsPrimary(scans, app, maps.primary[app]))
  }

  ghost predicate Exact(maps: Maps, scans: seq<Scan>)
  {
    forall app {:trigger ExactAt(maps, scans, app)} :: ExactAt(maps, scans, app)
  }

  lemma {:induction false} HitsAreCounted(scans: seq<Scan>, app: string, t: Domain.Technology)
    ensures TechCount(scans, app, t) >= 0
    ensures TechCount(scans, app, t) > 0 <==> exists s :: s in scans && s.applicationId == app && KindOf(s) == t
    decreases |scans|
  {
    if scans != [] {
      var n := |scans| - 1;
      HitsAreCounted(scans[..n], app, t);
      assert scans == scans[..n] + [scans[n]];
    }
  }

  /** The counts of one application, as the dictionary built from its scans. */
  type TechTable = map<string, map<Domain.Technology, nat>>

  function At(table: TechTable, app: string, t: Domain.Technology): nat
  {
    if app in table && t in table[app] then table[app][t] else 0
  }

  ghost predicate TalliedAt(table: TechTable, scans: seq<Scan>, app: string)
  {
    && (app in table <==> HasTech(scans, app))
    && (app in table ==> forall t :: t in table[app] ==> t != UNKNOWN && table[app][t] > 0)
    && (app != "" ==> forall t :: t != UNKNOWN ==> At(table, app, t) == TechCount(scans, app, t))
  }

  ghost predicate Tallied(table: TechTable, scans: seq<Scan>)
  {
    forall app {:trigger TalliedAt(table, scans, app)} :: TalliedAt(table, scans, app)
  }

  function Tally(table: TechTable, app: string, t: Domain.Technology): TechTable
  {
    var bucket := if app in table then table[app] else map[];
    table[app := bucket[t := At(table, app, t) + 1]]
  }

  function TallyScan(table: TechTable, scan: Scan): TechTable
  {
    if scan.applicationId != "" && KindOf(scan) != UNKNOWN then Tally(table, scan.applicationId, KindOf(scan))
        else table
  }

  lemma HasTechOne(scans: seq<Scan>, scan: Scan, app: string)
    ensures HasTech(scans + [scan], app) <==>
            HasTech(scans, app) || (app != "" && scan.applicationId == app && KindOf(scan) != UNKNOWN)
  {
    assert forall s :: s in scans + [scan] <==> s in scans || s == scan;
  }

  lemma TallyAt(table: TechTable, scans: seq<Scan>, scan: Scan, app: string)
    requires TalliedAt(table, scans, app)
    ensures TalliedAt(TallyScan(table, scan), scans + [scan], app)
  {
    HasTechOne(scans, scan, app);
    forall t: Domain.Technology
      ensures TechCount(scans + [scan], app, t) == TechCount(scans, app, t) + TechHit(app, t)(scan)
    {
      SumOne(scans, scan, TechHit(app, t));
    }
  }

  lemma TallyOne(table: TechTable, scans: seq<Scan>, scan: Scan)
    requires Tallied(table, scans)
    ensures Tallied(TallyScan(table, scan), scans + [scan])
  {
    forall app ensures TalliedAt(TallyScan(table, scan), scans + [scan], app) {
      assert TalliedAt(table, scans, app);
      TallyAt(table, scans, scan, app);
    }
  }

  predicate WinnerFirst(a: (Domain.Technology, nat), b: (Domain.Technology, nat))
  {
    a.1 > b.1 || (a.1 == b.1 && Priority(a.0) >= Priority(b.0))
  }

  function Pairs(bucket: map<Domain.Technology, nat>): seq<(Domain.Technology, nat)>
  {
    (if DAST in bucket then [(DAST, bucket[DAST])] else []) + (if SAST in bucket then [(SAST, bucket[SAST])] else []) +
    (if SCA in bucket then [(SCA, bucket[SCA])] else []) + (if IAST in bucket then [(IAST, bucket[IAST])] else [])
  }

  lemma PairsExact(bucket: map<Domain.Technology, nat>, t: Domain.Technology)
    requires t != UNKNOWN
    ensures t in bucket ==> (t, bucket[t]) in Pairs(bucket)
    ensures forall p :: p in Pairs(bucket) ==> p.0 != UNKNOWN && p.0 in bucket && p.1 == bucket[p.0]
  {
  }

  /** The first of the sorted counts. */
  function Winner(bucket: map<Domain.Technology, nat>): Domain.Technology
  {
    var sorted := Sort(Pairs(bucket), WinnerFirst);
    if sorted == [] then UNKNOWN else sorted[0].0
  }

  lemma FirstWins(pairs: seq<(Domain.Technology, nat)>, p: (Domain.Technology, nat))
    requires p in pairs
    ensures var sorted := Sort(pairs, WinnerFirst);
            sorted != [] && sorted[0] in pairs && WinnerFirst(sorted[0], p)
  {
    var sorted := Sort(pairs, WinnerFirst);
    SortElements(pairs, WinnerFirst);
    assert TotalPreorder(WinnerFirst);
    SortSorts(pairs, WinnerFirst);
    assert p in sorted;
    var i :| 0 <= i < |sorted| && sorted[i] == p;
    assert sorted[0] in sorted;
  }

  lemma WinnerWins(bucket: map<Domain.Technology, nat>, t: Domain.Technology)
    requires t != UNKNOWN && t in bucket
    ensures Winner(bucket) != UNKNOWN && Winner(bucket) in bucket
    ensures bucket[t] < bucket[Winner(bucket)]
              || (bucket[t] == bucket[Winner(bucket)] && Priority(t) <= Priority(Winner(bucket)))
  {
    PairsExact(bucket, t);
    FirstWins(Pairs(bucket), (t, bucket[t]));
  }

  lemma PrimaryOf(table: TechTable, scans: seq<Scan>, app: string)
    requires TalliedAt(table, scans, app) && app in table
    ensures IsPrimary(scans, app, Winner(table[app]))
  {
    var s :| s in scans && s.applicationId == app && KindOf(s) != UNKNOWN;
    HitsAreCounted(scans, app, KindOf(s));
    assert At(table, app, KindOf(s)) > 0;
    WinnerWins(table[app], KindOf(s));
    forall u | u != UNKNOWN
      ensures TechCount(scans, app, u) < TechCount(scans, app, Winner(table[app]))
              || (TechCount(scans, app, u) == TechCount(scans, app, Winner(table[app]))
                  && Priority(u) <= Priority(Winner(table[app])))
    {
      assert At(table, app, u) == TechCount(scans, app, u);
      if u in table[app] {
        WinnerWins(table[app], u);
      }
    }
  }

  method BuildMaps(scans: seq<Scan>) returns (maps: Maps)
    ensures Exact(maps, scans)
  {
    var table: TechTable := map[];
    for i := 0 to |scans|
      invariant Tallied(table, scans[..i])
    {
      var scan := scans[i];
      TallyOne(table, scans[..i], scan);
      assert scans[..i + 1] == scans[..i] + [scan];
      if scan.applicationId != "" && KindOf(scan) != UNKNOWN {
        table := Tally(table, scan.applicationId, KindOf(scan));
      }
    }
    assert scans[..|scans|] == scans;
    maps := MapsOf(table);
    forall app ensures ExactAt(maps, scans, app) {
      assert TalliedAt(table, scans, app);
      TableIsExact(table, scans, app);
    }
  }

  function MapsOf(table: TechTable): Maps
  {
    Maps(map app | app in table :: table[app].Keys, map app | app in table :: Winner(table[app]))
  }

  lemma TableIsExact(table: TechTable, scans: seq<Scan>, app: string)
    requires TalliedAt(table, scans, app)
    ensures ExactAt(MapsOf(table), scans, app)
  {
    if app in table {
      PrimaryOf(table, scans, app);
      forall t: Domain.Technology ensures t in table[app].Keys <==> t != UNKNOWN && TechCount(scans, app, t) > 0 {
        if t != UNKNOWN { assert At(table, app, t) == TechCount(scans, app, t); }
      }
    }
  }

  /** Two primary technologies of the same scans are the same. */
  lemma PrimaryUnique(scans: seq<Scan>, app: string, t: Domain.Technology, u: Domain.Technology)
    requires IsPrimary(scans, app, t) && IsPrimary(scans, app, u)
    ensures t == u
  {
  }

  /** Which technology that is: ties go to DAST before SAST before SCA before IAST. */
  lemma TiesGoByOrder(scans: seq<Scan>, app: string, t: Domain.Technology)
    ensures var dast, sast := TechCount(scans, app, DAST), TechCount(scans, app, SAST);
            var sca, iast := TechCount(scans, app, SCA), TechCount(scans, app, IAST);
            && (IsPrimary(scans, app, DAST) <==> dast > 0 && dast >= sast && dast >= sca && dast >= iast)
            && (IsPrimary(scans, app, SAST) <==> sast > dast >= 0 && sast >= sca && sast >= iast)
            && (IsPrimary(scans, app, SCA) <==> sca > dast >= 0 && sca > sast && sca >= iast)
            && (IsPrimary(scans, app, IAST) <==> iast > dast >= 0 && iast > sast && iast > sca)
            && !IsPrimary(scans, app, UNKNOWN)
  {
    HitsAreCounted(scans, app, DAST);
    HitsAreCounted(scans, app, SAST);
    HitsAreCounted(scans, app, SCA);
    HitsAreCounted(scans, app, IAST);
  }

  /** The order in which scans are listed does not matter, neither for the technologies of an
      application nor for its primary one. */
  lemma ScanOrderIsIrrelevant(a: seq<Scan>, b: seq<Scan>, mapsA: Maps, mapsB: Maps)
    requires multiset(a) == multiset(b) && Exact(mapsA, a) && Exact(mapsB, b)
    ensures mapsA == mapsB
  {
    forall app
      ensures (app in mapsA.techs <==> app in mapsB.techs)
                && (app in mapsA.techs ==> mapsA.techs[app] == mapsB.techs[app])
      ensures (app in mapsA.primary <==> app in mapsB.primary)
                && (app in mapsA.primary ==> mapsA.primary[app] == mapsB.primary[app])
    {
      assert ExactAt(mapsA, a, app) && ExactAt(mapsB, b, app);
      SameMapsAt(a, b, mapsA, mapsB, app);
    }
    assert mapsA.primary == mapsB.primary;
    assert mapsA.techs == mapsB.techs;
  }

  predicate SameAt(a: Maps, b: Maps, app: string)
  {
    && (app in a.techs <==> app in b.techs) && (app in a.techs ==> a.techs[app] == b.techs[app])
    && (app in a.primary <==> app in b.primary) && (app in a.primary ==> a.primary[app] == b.primary[app])
  }

  lemma SameMapsAt(a: seq<Scan>, b: seq<Scan>, mapsA: Maps, mapsB: Maps, app: string)
    requires multiset(a) == multiset(b) && ExactAt(mapsA, a, app) && ExactAt(mapsB, b, app)
    ensures SameAt(mapsA, mapsB, app)
  {
    forall t: Domain.Technology ensures TechCount(a, app, t) == TechCount(b, app, t) {
      SumRearranged(a, b, TechHit(app, t));
    }
    assert forall s :: s in a <==> s in multiset(a);
    assert forall s :: s in b <==> s in multiset(b);
    assert HasTech(a, app) <==> HasTech(b, app);
    if app in mapsA.primary {
      assert IsPrimary(a, app, mapsB.primary[app]);
      PrimaryUnique(a, app, mapsA.primary[app], mapsB.primary[app]);
    }
  }

  // ---------------------------------------------------------------- technology of an issue

  function Resolve(issue: Issue, maps: Maps): Domain.Technology
  {
    if issue.technology != UNKNOWN then issue.technology
    else
      var techs := if issue.applicationId in maps.techs then maps.techs[issue.applicationId] else {};
      if |techs| == 1 then (if DAST in techs then DAST else if SAST in techs then SAST else if SCA in techs then SCA
                            else IAST)
      else if issue.applicationId in maps.primary then maps.primary[issue.applicationId]
      else UNKNOWN
  }

  /** The special case of a single technology adds nothing: an issue without a technology of
      its own takes the primary one of its application, if there is one. */
  lemma ResolveIsPrimary(issue: Issue, maps: Maps, scans: seq<Scan>)
    requires ExactAt(maps, scans, issue.applicationId)
    ensures issue.technology != UNKNOWN ==> Resolve(issue, maps) == issue.technology
    ensures issue.technology == UNKNOWN && HasTech(scans, issue.applicationId) ==>
              IsPrimary(scans, issue.applicationId, Resolve(issue, maps))
    ensures Resolve(issue, maps) == UNKNOWN <==> issue.technology == UNKNOWN && !HasTech(scans, issue.applicationId)
  {
    var app := issue.applicationId;
    if issue.technology == UNKNOWN && app in maps.techs {
      var techs := maps.techs[app];
      var p := maps.primary[app];
      assert p in techs;
      if |techs| == 1 {
        Singleton(techs, p);
        assert UNKNOWN !in techs;
      }
    }
  }

  lemma Singleton<T>(s: set<T>, x: T)
    requires |s| == 1 && x in s
    ensures s == {x}
  {
    assert |s - {x}| == 0;
  }
}
