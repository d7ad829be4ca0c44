/** What the filters of a request select, told field by field: of the scans, issues, applications
    and asset groups in the base data. */
module SelectionLaws {
  import opened BundleInputs
  import opened CacheKey
  import opened Domain
  import opened FilterOptions
  import opened Filtering
  import opened Technology
  import opened Text
  import opened Wrappers

  import Sources

  // ---------------------------------------------------------------- the conditions, field by field

  /** Tagged with a requested source, if any are requested. */
  predicate FromRequested(r: Request, source: Option<string>)
  {
    r.sources.Some? && r.sources.value != [] ==> source.Some? && source.value in r.sources.value
  }

  predicate Visible(r: Request, group: string)
  {
    r.role == "PlatformAdmin" || r.role == "SecurityManager" || group in r.assetGroups
  }

  predicate NameHolds(r: Request, text: string)
  {
    r.name.Some? && r.name.value != "" ==> Contains(Lower(text), Lower(r.name.value))
  }

  /** Groups, applications or a name are asked for. */
  predicate Scoping(r: Request)
  {
    r.groupIds != [] || r.appIds != [] || (r.name.Some? && Trim(r.name.value) != "")
  }

  predicate AppChosen(r: Request, it: Sources.Item<App>)
  {
    && FromRequested(r, it.sourceId) && Visible(r, it.content.group)
    && (r.groupIds != [] ==> it.content.group in r.groupIds)
    && (r.appIds != [] ==> it.content.id in r.appIds)
    && NameHolds(r, it.content.name)
  }

  predicate GroupChosen(r: Request, it: Sources.Item<AssetGroup>)
  {
    && FromRequested(r, it.sourceId) && Visible(r, it.content.id)
    && (r.groupIds != [] ==> it.content.id in r.groupIds)
  }

  /** The application is asked for by its id, or is one of those a scope leaves. */
  predicate AppInScope(base: Base, r: Request, id: string)
  {
    || id in r.appIds
    || (Scoping(r) && id != "" && exists it :: it in base.apps && AppChosen(r, it) && it.content.id == id)
  }

  /** Some application is in scope. */
  ghost predicate Limited(base: Base, r: Request)
  {
    exists id :: AppInScope(base, r, id)
  }

  /** Its group is asked for, or it has none and applications are in scope; its application is in
      scope if any is; its application's name fits. */
  ghost predicate PlaceChosen(base: Base, r: Request, group: string, app: string, name: string)
  {
    && (r.groupIds != [] ==> if group != "" then group in r.groupIds else Limited(base, r))
    && (Limited(base, r) ==> AppInScope(base, r, app))
    && NameHolds(r, name)
  }

  predicate NamesType(text: string, t: ScanType)
  {
    || (text == "DAST" && t == DastScan)
    || (text == "SAST" && t == SastScan)
    || (text == "SCA" && t == ScaScan)
    || (text == "IAST" && t == IastScan)
    || (text == "OTHER" && t == OtherScan)
  }

  /** Some requested value names a scan type. */
  ghost predicate TypesAsked(r: Request)
  {
    exists v, t :: v in r.scanTypes && NamesType(Upper(Trim(v)), t)
  }

  predicate TypeNamed(r: Request, t: ScanType)
  {
    exists v :: v in r.scanTypes && NamesType(Upper(Trim(v)), t)
  }

  predicate StatusesAsked(r: Request)
  {
    exists v :: v in r.scanStatuses && Fold(v) != ""
  }

  predicate StatusNamed(r: Request, status: string)
  {
    exists v :: v in r.scanStatuses && Fold(v) != "" && Fold(v) == Lower(status)
  }

  function Bound(date: Option<string>, how: Reading): Option<int>
  {
    if date.Some? && date.value != "" then how.date(date.value) else None
  }

  /** In the range of dates; an item without a date is in none that has a bound. */
  predicate DateChosen(r: Request, how: Reading, when: Option<Stamp>)
  {
    && (Bound(r.fromDate, how).Some? ==> when.Some? && Bound(r.fromDate, how).value <= when.value.micros)
    && (Bound(r.toDate, how).Some? ==> when.Some? && when.value.micros <= Bound(r.toDate, how).value)
  }

  /** A scan by everything but its date. */
  ghost predicate ScanFits(base: Base, r: Request, it: Sources.Item<Scan>)
  {
    var s := it.content;
    && FromRequested(r, it.sourceId) && Visible(r, s.assetGroupId)
    && PlaceChosen(base, r, s.assetGroupId, s.applicationId, s.applicationName)
    && (TypesAsked(r) ==> TypeNamed(r, s.scanType))
    && (StatusesAsked(r) ==> StatusNamed(r, s.status))
  }

  /** The selected scans. */
  ghost predicate ScanChosen(base: Base, r: Request, how: Reading, it: Sources.Item<Scan>)
  {
    ScanFits(base, r, it) && DateChosen(r, how, it.content.createdAt)
  }

  /** The issues before technologies and vulnerabilities are looked at: with scan types or statuses
      asked for, only those of an application with such a scan, of whatever date. */
  ghost predicate IssueFits(base: Base, r: Request, how: Reading, it: Sources.Item<Issue>)
  {
    var i := it.content;
    && FromRequested(r, it.sourceId) && Visible(r, i.assetGroupId)
    && (Scoping(r) ==> AppInScope(base, r, i.applicationId))
    && PlaceChosen(base, r, i.assetGroupId, i.applicationId, i.applicationName)
    && (TypesAsked(r) || StatusesAsked(r) ==>
        i.applicationId != ""
        && exists s :: s in base.scans && ScanFits(base, r, s) && s.content.applicationId == i.applicationId)
    && DateChosen(r, how, i.openedAt)
  }

  /** The technology and the vulnerability of an issue are asked for. */
  predicate DimensionsChosen(r: Request, how: Reading, maps: Maps, i: Issue)
  {
    && ((exists v :: v in r.technologies && how.technology(v) != UNKNOWN) ==>
        Resolve(i, maps) != UNKNOWN && exists v :: v in r.technologies && how.technology(v) == Resolve(i, maps))
    && ((exists v :: v in r.vulnerabilities && Trim(v) != "") ==>
        exists v :: v in r.vulnerabilities && Trim(v) != ""
                    && Lower(Trim(v))
                         == Lower(Trim(if i.vulnerability != "" then i.vulnerability else i.correlationKey)))
  }

  ghost predicate IssueChosen(base: Base, r: Request, how: Reading, maps: Maps, it: Sources.Item<Issue>)
  {
    IssueFits(base, r, how, it) && DimensionsChosen(r, how, maps, it.content)
  }

  // ---------------------------------------------------------------- the filters meet them

  lemma {:induction false} FilterContents<T>(s: seq<Sources.Item<T>>, p: T -> bool, q: Sources.Item<T> -> bool)
    requires forall it :: it in s ==> q(it) == p(it.content)
    ensures Filter(Contents(s), p) == Contents(Filter(s, q))
    decreases |s|
  {
    if s != [] {
      var init, last := s[..|s| - 1], s[|s| - 1];
      assert last in s;
      assert Contents(s)[..|s| - 1] == Contents(init);
      FilterContents(init, p, q);
    }
  }

  function Tagged<T>(r: Request): Sources.Item<T> -> bool
  {
    (it: Sources.Item<T>) => FromRequested(r, it.sourceId)
  }

  lemma RequestedAre<T>(s: seq<Sources.Item<T>>, r: Request)
    ensures Requested(s, r) == Contents(Filter(s, Tagged(r)))
  {
    if SourceIds(r) == [] {
      FilterAll(s, Tagged(r));
    } else {
      FilterSame(s, Sources.TaggedIn(Sources.IdSet(SourceIds(r))), Tagged(r));
    }
  }

  function AppTest(r: Request): Sources.Item<App> -> bool
  {
    (it: Sources.Item<App>) => AppChosen(r, it)
  }

  function GroupTest(r: Request): Sources.Item<AssetGroup> -> bool
  {
    (it: Sources.Item<AssetGroup>) => GroupChosen(r, it)
  }

  ghost function ScanFit(base: Base, r: Request): Sources.Item<Scan> -> bool
  {
    (it: Sources.Item<Scan>) => ScanFits(base, r, it)
  }

  ghost function ScanTest(base: Base, r: Request, how: Reading): Sources.Item<Scan> -> bool
  {
    (it: Sources.Item<Scan>) => ScanChosen(base, r, how, it)
  }

  ghost function IssueFit(base: Base, r: Request, how: Reading): Sources.Item<Issue> -> bool
  {
    (it: Sources.Item<Issue>) => IssueFits(base, r, how, it)
  }

  ghost function IssueTest(base: Base, r: Request, how: Reading, maps: Maps): Sources.Item<Issue> -> bool
  {
    (it: Sources.Item<Issue>) => IssueChosen(base, r, how, maps, it)
  }

  /** Two conditions on the contents of the requested items, one after the other. */
  lemma TwoConditions<T>(s: seq<Sources.Item<T>>, r: Request, p: T -> bool, q: T -> bool, all: Sources.Item<T> -> bool)
    requires forall it :: it in s ==> (all(it) <==> FromRequested(r, it.sourceId) && p(it.content) && q(it.content))
    ensures Filter(Filter(Requested(s, r), p), q) == Contents(Filter(s, all))
  {
    var both := (x: T) => p(x) && q(x);
    var there := (it: Sources.Item<T>) => both(it.content);
    RequestedAre(s, r);
    FilterTwice(Requested(s, r), p, q, both);
    FilterContents(Filter(s, Tagged(r)), both, there);
    FilterTwice(s, Tagged(r), there, all);
  }

  /** The applications of the selection: of the requested sources, visible, and of the groups, ids
      and name asked for, in their order. */
  lemma AppsSelected(base: Base, r: Request, how: Reading)
    ensures SelectionOf(base, r, how).apps == Contents(Filter(base.apps, AppTest(r)))
  {
    forall it | it in base.apps
      ensures AppTest(r)(it) <==> FromRequested(r, it.sourceId) && SeenApp(r)(it.content) && AppPasses(r)(it.content)
    {
    }
    TwoConditions(base.apps, r, SeenApp(r), AppPasses(r), AppTest(r));
  }

  lemma GroupsSelected(base: Base, r: Request, how: Reading)
    ensures SelectionOf(base, r, how).groups == Contents(Filter(base.groups, GroupTest(r)))
  {
    TwoConditions(base.groups, r, SeenGroup(r), GroupPasses(r), GroupTest(r));
  }

  lemma ContentIn<T>(s: seq<Sources.Item<T>>, p: Sources.Item<T> -> bool, x: T)
    ensures x in Contents(Filter(s, p)) <==> exists it :: it in s && p(it) && it.content == x
  {
    FilterExact(s, p);
    var kept := Filter(s, p);
    if x in Contents(kept) {
      var i :| 0 <= i < |kept| && Contents(kept)[i] == x;
      assert kept[i] in kept;
    }
    if it :| it in s && p(it) && it.content == x {
      assert it in kept;
      var i :| 0 <= i < |kept| && kept[i] == it;
      assert Contents(kept)[i] == x;
    }
  }

  /** The applications in scope are those `AppInScope` describes. */
  lemma ScopeIs(base: Base, r: Request, id: string)
    ensures id in Scoped(r, CatalogOf(base, r).apps) <==> AppInScope(base, r, id)
  {
    var apps, how := CatalogOf(base, r).apps, Reading(_ => None, _ => UNKNOWN, _ => Maps(map[], map[]), false);
    AppsSelected(base, r, how);
    if a :| a in apps && a.id == id {
      ContentIn(base.apps, AppTest(r), a);
    }
    if it :| it in base.apps && AppChosen(r, it) && it.content.id == id {
      ContentIn(base.apps, AppTest(r), it.content);
    }
  }

  lemma PlaceIs(base: Base, r: Request, group: string, app: string, name: string)
    ensures PlaceFits(r, Scoped(r, CatalogOf(base, r).apps), group, app, name) <==>
              PlaceChosen(base, r, group, app, name)
  {
    var scoped := Scoped(r, CatalogOf(base, r).apps);
    ScopeIs(base, r, app);
    if id :| id in scoped {
      ScopeIs(base, r, id);
    }
    if id :| AppInScope(base, r, id) {
      ScopeIs(base, r, id);
    }
  }

  lemma TypesAre(r: Request, t: ScanType)
    ensures TypesAsked(r) <==> TypeSet(r) != {}
    ensures TypeText(t) in TypeSet(r) <==> TypeNamed(r, t)
  {
    forall text ensures text in TYPES <==> exists u :: NamesType(text, u) {
      assert NamesType("DAST", DastScan) && NamesType("SAST", SastScan) && NamesType("SCA", ScaScan);
      assert NamesType("IAST", IastScan) && NamesType("OTHER", OtherScan);
    }
    forall text ensures NamesType(text, t) <==> text in TYPES && text == TypeText(t) {
    }
    if text :| text in TypeSet(r) {
      var v :| v in r.scanTypes && Upper(Trim(v)) in TYPES && Upper(Trim(v)) == text;
    }
    if v, u :| v in r.scanTypes && NamesType(Upper(Trim(v)), u) {
      assert Upper(Trim(v)) in TypeSet(r);
    }
  }

  lemma StatusesAre(r: Request, status: string)
    ensures StatusesAsked(r) <==> StatusSet(r) != {}
    ensures Lower(status) in StatusSet(r) <==> StatusNamed(r, status)
  {
    if text :| text in StatusSet(r) {
      var v :| v in r.scanStatuses && Fold(v) != "" && Fold(v) == text;
    }
    if v :| v in r.scanStatuses && Fold(v) != "" {
      assert Fold(v) in StatusSet(r);
    }
  }

  lemma ScanFitIs(base: Base, r: Request, it: Sources.Item<Scan>)
    ensures var s := it.content;
            ScanFits(base, r, it) <==>
              && FromRequested(r, it.sourceId) && SeenScan(r)(s)
              && ScanMatches(r, Scoped(r, CatalogOf(base, r).apps))(s)
  {
    var s := it.content;
    PlaceIs(base, r, s.assetGroupId, s.applicationId, s.applicationName);
    TypesAre(r, s.scanType);
    StatusesAre(r, s.status);
  }

  lemma FittingScans(base: Base, r: Request)
    ensures MatchedScans(CatalogOf(base, r), r) == Contents(Filter(base.scans, ScanFit(base, r)))
  {
    var matches := ScanMatches(r, Scoped(r, CatalogOf(base, r).apps));
    forall it | it in base.scans
      ensures ScanFit(base, r)(it) <==> FromRequested(r, it.sourceId) && SeenScan(r)(it.content) && matches(it.content)
    {
      ScanFitIs(base, r, it);
    }
    TwoConditions(base.scans, r, SeenScan(r), matches, ScanFit(base, r));
  }

  lemma DatesAre(r: Request, how: Reading, when: Option<Stamp>)
    ensures Within(when, DateOf(r.fromDate, how), DateOf(r.toDate, how)) <==> DateChosen(r, how, when)
  {
  }

  /** The scans a request selects are those of the base data that meet every condition, in their
      order there. */
  lemma ScansSelected(base: Base, r: Request, how: Reading)
    ensures SelectionOf(base, r, how).scans == Contents(Filter(base.scans, ScanTest(base, r, how)))
  {
    var within := ScanWithin(DateOf(r.fromDate, how), DateOf(r.toDate, how));
    var dated := (it: Sources.Item<Scan>) => within(it.content);
    FittingScans(base, r);
    FilterContents(Filter(base.scans, ScanFit(base, r)), within, dated);
    forall it | it in base.scans
      ensures ScanTest(base, r, how)(it) <==> ScanFit(base, r)(it) && dated(it)
    {
      DatesAre(r, how, it.content.createdAt);
    }
    FilterTwice(base.scans, ScanFit(base, r), dated, ScanTest(base, r, how));
  }

  /** The applications with a scan of the types and statuses asked for. */
  lemma ScannedAre(base: Base, r: Request, app: string)
    ensures app in AppIds(MatchedScans(CatalogOf(base, r), r)) <==>
              app != "" && exists s :: s in base.scans && ScanFits(base, r, s) && s.content.applicationId == app
  {
    var scans := MatchedScans(CatalogOf(base, r), r);
    FittingScans(base, r);
    if x :| x in scans && x.applicationId == app {
      ContentIn(base.scans, ScanFit(base, r), x);
    }
    if it :| it in base.scans && ScanFits(base, r, it) && it.content.applicationId == app {
      ContentIn(base.scans, ScanFit(base, r), it.content);
    }
  }

  /** The conditions on an issue that the build applies, one after the other. */
  function IssueMatch(r: Request, scoped: set<string>, scanned: set<string>): Issue -> bool
  {
    (i: Issue) => (HasScope(r) ==> InScope(scoped)(i)) && IssueMatches(r, scoped, scanned)(i)
  }

  lemma ScopedIssues(r: Request, scoped: set<string>, scanned: set<string>, issues: seq<Issue>)
    ensures Filter(IssueSource(r, scoped, issues), IssueMatches(r, scoped, scanned))
              == Filter(issues, IssueMatch(r, scoped, scanned))
  {
    if HasScope(r) {
      FilterTwice(issues, InScope(scoped), IssueMatches(r, scoped, scanned), IssueMatch(r, scoped, scanned));
    } else {
      FilterSame(issues, IssueMatches(r, scoped, scanned), IssueMatch(r, scoped, scanned));
    }
  }

  lemma IssueFitIs(base: Base, r: Request, how: Reading, it: Sources.Item<Issue>)
    ensures var c := CatalogOf(base, r);
            var match' := IssueMatch(r, Scoped(r, c.apps), AppIds(MatchedScans(c, r)));
            IssueFits(base, r, how, it) <==>
              && FromRequested(r, it.sourceId) && SeenIssue(r)(it.content) && match'(it.content)
              && IssueWithin(DateOf(r.fromDate, how), DateOf(r.toDate, how))(it.content)
  {
    var i := it.content;
    PlaceIs(base, r, i.assetGroupId, i.applicationId, i.applicationName);
    ScopeIs(base, r, i.applicationId);
    ScannedAre(base, r, i.applicationId);
    TypesAre(r, DastScan);
    StatusesAre(r, "");
    DatesAre(r, how, i.openedAt);
    ScopingIs(r);
    var c := CatalogOf(base, r);
    var scoped, scanned := Scoped(r, c.apps), AppIds(MatchedScans(c, r));
    assert SeenIssue(r)(i) <==> Visible(r, i.assetGroupId);
    assert InScope(scoped)(i) <==> AppInScope(base, r, i.applicationId);
    assert IssueMatches(r, scoped, scanned)(i) <==>
             && PlaceFits(r, scoped, i.assetGroupId, i.applicationId, i.applicationName)
             && (TypesAsked(r) || StatusesAsked(r) ==> i.applicationId in scanned);
  }

  lemma ScopingIs(r: Request)
    ensures HasScope(r) <==> Scoping(r)
  {
  }

  /** The issues offered as filter options, in their order. */
  lemma OptionsSelected(base: Base, r: Request, how: Reading)
    ensures SelectionOf(base, r, how).optionIssues == Contents(Filter(base.issues, IssueFit(base, r, how)))
  {
    var c := CatalogOf(base, r);
    var scoped, scanned := Scoped(r, c.apps), AppIds(MatchedScans(c, r));
    var match', within := IssueMatch(r, scoped, scanned), IssueWithin(DateOf(r.fromDate, how), DateOf(r.toDate, how));
    var both := (i: Issue) => match'(i) && within(i);
    ScopedIssues(r, scoped, scanned, c.issues);
    FilterTwice(c.issues, match', within, both);
    forall it | it in base.issues
      ensures IssueFit(base, r, how)(it) <==>
                FromRequested(r, it.sourceId) && SeenIssue(r)(it.content) && both(it.content)
    {
      IssueFitIs(base, r, how, it);
    }
    TwoConditions(base.issues, r, SeenIssue(r), both, IssueFit(base, r, how));
  }

  lemma DimensionsAre(r: Request, how: Reading, maps: Maps, i: Issue)
    ensures Keeps(i, maps, Techs(r, how), VulnSet(r.vulnerabilities)) <==> DimensionsChosen(r, how, maps, i)
  {
    if t :| t in Techs(r, how) {
      var v :| v in r.technologies && how.technology(v) != UNKNOWN && how.technology(v) == t;
    }
    if v :| v in r.technologies && how.technology(v) != UNKNOWN {
      assert how.technology(v) in Techs(r, how);
    }
    if t :| t in VulnSet(r.vulnerabilities) {
      var v :| v in r.vulnerabilities && Trim(v) != "" && Fold(v) == t;
    }
    if v :| v in r.vulnerabilities && Trim(v) != "" {
      assert Fold(v) in VulnSet(r.vulnerabilities);
    }
  }

  function Dimensions(r: Request, how: Reading, maps: Maps): Issue -> bool
  {
    (i: Issue) => DimensionsChosen(r, how, maps, i)
  }

  lemma {:induction false} KeptAre(issues: seq<Issue>, r: Request, how: Reading, maps: Maps)
    ensures Kept(issues, maps, Techs(r, how), VulnSet(r.vulnerabilities)) == Filter(issues, Dimensions(r, how, maps))
    decreases |issues|
  {
    if issues != [] {
      KeptAre(issues[..|issues| - 1], r, how, maps);
      DimensionsAre(r, how, maps, issues[|issues| - 1]);
    }
  }

  /** The issues a request selects are those of the base data that meet every condition, in their
      order there; the technology maps are those of the selected scans. */
  lemma IssuesSelected(base: Base, r: Request, how: Reading)
    ensures var selection := SelectionOf(base, r, how);
            selection.issues == Contents(Filter(base.issues, IssueTest(base, r, how, how.maps(selection.scans))))
  {
    var selection := SelectionOf(base, r, how);
    var maps := how.maps(selection.scans);
    var dims := (it: Sources.Item<Issue>) => Dimensions(r, how, maps)(it.content);
    OptionsSelected(base, r, how);
    KeptAre(selection.optionIssues, r, how, maps);
    FilterContents(Filter(base.issues, IssueFit(base, r, how)), Dimensions(r, how, maps), dims);
    FilterTwice(base.issues, IssueFit(base, r, how), dims, IssueTest(base, r, how, maps));
  }

  /** Some dimension but the scope is filtered. */
  predicate Narrowed(r: Request)
  {
    || r.technologies != [] || r.vulnerabilities != [] || r.scanTypes != [] || r.scanStatuses != []
    || (r.fromDate.Some? && r.fromDate.value != "") || (r.toDate.Some? && r.toDate.value != "")
  }

  /** The applications the summary counts: all selected ones, or once anything but the scope is
      filtered those with a selected scan or issue, in their order. */
  lemma SummaryAppsSelected(base: Base, r: Request, how: Reading, a: App)
    ensures var sel := SelectionOf(base, r, how);
            a in sel.summaryApps <==>
              && a in sel.apps
              && (Narrowed(r) ==>
                  a.id != "" && ((exists s :: s in sel.scans && s.applicationId == a.id)
                                 || exists i :: i in sel.issues && i.applicationId == a.id))
    ensures !Narrowed(r) ==> SelectionOf(base, r, how).summaryApps == SelectionOf(base, r, how).apps
  {
    var sel := SelectionOf(base, r, how);
    FilterExact(sel.apps, AppIn(EffectiveApps(sel.scans, sel.issues)));
  }

  lemma GroupsCounted(apps: seq<App>, scans: seq<Scan>, issues: seq<Issue>, id: string)
    ensures id in EffectiveGroups(apps, scans, issues) <==>
              id != "" && ((exists a :: a in apps && a.group == id)
                           || (exists s :: s in scans && s.assetGroupId == id)
                           || exists i :: i in issues && i.assetGroupId == id)
  {
  }

  lemma SummaryGroupsAre(base: Base, r: Request, how: Reading)
    ensures var sel := SelectionOf(base, r, how);
            sel.summaryGroups == if Narrowed(r)
              then Filter(sel.groups, GroupIn(EffectiveGroups(sel.summaryApps, sel.scans, sel.issues)))
              else sel.groups
  {
  }

  /** Likewise the groups: those of these applications, and of the selected scans and issues. */
  lemma SummaryGroupsSelected(base: Base, r: Request, how: Reading, g: AssetGroup)
    ensures var sel := SelectionOf(base, r, how);
            g in sel.summaryGroups <==>
              && g in sel.groups
              && (Narrowed(r) ==>
                  g.id != "" && ((exists a :: a in sel.summaryApps && a.group == g.id)
                                 || (exists s :: s in sel.scans && s.assetGroupId == g.id)
                                 || exists i :: i in sel.issues && i.assetGroupId == g.id))
  {
    var sel := SelectionOf(base, r, how);
    FilterExact(sel.groups, GroupIn(EffectiveGroups(sel.summaryApps, sel.scans, sel.issues)));
    GroupsCounted(sel.summaryApps, sel.scans, sel.issues, g.id);
    SummaryGroupsAre(base, r, how);
  }

  /** The flags of a selection, and when counts are asked of the sources. */
  lemma FlagsAre(base: Base, r: Request, how: Reading)
    ensures var sel := SelectionOf(base, r, how);
            && (sel.scope <==> Scoping(r)) && (sel.dataset <==> Narrowed(r))
            && (sel.allSources <==> r.sources.None? || r.sources.value == [])
    ensures InputsOf(base, r, how).counted.Some? <==> how.useCounts && !Scoping(r) && !Narrowed(r)
  {
  }
}
