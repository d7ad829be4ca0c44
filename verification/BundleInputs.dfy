/** The filtering half of the bundle build on the warm path: which scans, issues,
    applications and asset groups a request is answered from, given the cached base data. */
module BundleInputs {
  import opened CacheKey
  import opened Domain
  import opened FilterOptions
  import opened Filtering
  import opened Technology
  import opened Text
  import opened Wrappers

  import Sources

  datatype App = App(id: string, name: string, group: string)
  datatype AssetGroup = AssetGroup(id: string)

  /** The cached base data, its items tagged with their sources, and the enabled sources. */
  datatype Base = Base(
    scans: seq<Sources.Item<Scan>>, issues: seq<Sources.Item<Issue>>, apps: seq<Sources.Item<App>>,
    groups: seq<Sources.Item<AssetGroup>>, enabled: seq<Sources.Source>)

  /** How texts are read (dates, technologies, the technology maps of a list of scans), and
      whether counts are asked of the sources at all. */
  datatype Reading = Reading(
    date: string -> Option<int>, technology: string -> Domain.Technology, maps: seq<Scan> -> Maps, useCounts: bool)

  function Contents<T>(s: seq<Sources.Item<T>>): seq<T>
  {
    seq(|s|, i requires 0 <= i < |s| => s[i].content)
  }

  /** The items of the requested sources. */
  function Requested<T>(s: seq<Sources.Item<T>>, r: Request): seq<T>
  {
    Contents(Sources.KeepRequested(s, SourceIds(r)))
  }

  // ---------------------------------------------------------------- what the user may see

  predicate Admin(role: string)
  {
    role == "PlatformAdmin" || role == "SecurityManager"
  }

  predicate MaySee(r: Request, group: string)
  {
    Admin(r.role) || group in r.assetGroups
  }

  function SeenScan(r: Request): Scan -> bool
  {
    (s: Scan) => MaySee(r, s.assetGroupId)
  }

  function SeenIssue(r: Request): Issue -> bool
  {
    (i: Issue) => MaySee(r, i.assetGroupId)
  }

  function SeenApp(r: Request): App -> bool
  {
    (a: App) => MaySee(r, a.group)
  }

  function SeenGroup(r: Request): AssetGroup -> bool
  {
    (g: AssetGroup) => MaySee(r, g.id)
  }

  // ---------------------------------------------------------------- scope

  predicate HasScope(r: Request)
  {
    r.groupIds != [] || r.appIds != [] || Trim(NameText(r)) != ""
  }

  predicate NameFits(r: Request, text: string)
  {
    NameText(r) != "" ==> Contains(Lower(text), Lower(NameText(r)))
  }

  function AppPasses(r: Request): App -> bool
  {
    (a: App) => (r.groupIds != [] ==> a.group in r.groupIds) && (r.appIds != [] ==> a.id in r.appIds)
        && NameFits(r, a.name)
  }

  function GroupPasses(r: Request): AssetGroup -> bool
  {
    (g: AssetGroup) => r.groupIds != [] ==> g.id in r.groupIds
  }

  /** The application ids in scope: those requested and those of the applications left. */
  function Scoped(r: Request, apps: seq<App>): set<string>
  {
    if HasScope(r) then (set id | id in r.appIds) + (set a | a in apps && a.id != "" :: a.id)
        else set id | id in r.appIds
  }

  function InScope(scoped: set<string>): Issue -> bool
  {
    (i: Issue) => i.applicationId in scoped
  }

  function IssueSource(r: Request, scoped: set<string>, issues: seq<Issue>): seq<Issue>
  {
    if HasScope(r) then Filter(issues, InScope(scoped)) else issues
  }

  // ---------------------------------------------------------------- filters on scans and issues

  const TYPES := {"DAST", "SAST", "SCA", "IAST", "OTHER"}

  function TypeText(t: ScanType): string
  {
    match t
    case DastScan => "DAST"
    case SastScan => "SAST"
    case ScaScan => "SCA"
    case IastScan => "IAST"
    case OtherScan => "OTHER"
    case Unrecognised => ""
  }

  function TypeSet(r: Request): set<string>
  {
    set t | t in r.scanTypes && Upper(Trim(t)) in TYPES :: Upper(Trim(t))
  }

  function StatusSet(r: Request): set<string>
  {
    set s | s in r.scanStatuses && Fold(s) != "" :: Fold(s)
  }

  /** Without a group an item is kept only by the applications in scope. */
  predicate PlaceFits(r: Request, scoped: set<string>, group: string, app: string, name: string)
  {
    && (r.groupIds != [] ==> if group != "" then group in r.groupIds else scoped != {})
    && (scoped != {} ==> app in scoped)
    && NameFits(r, name)
  }

  function ScanMatches(r: Request, scoped: set<string>): Scan -> bool
  {
    (s: Scan) =>
      && PlaceFits(r, scoped, s.assetGroupId, s.applicationId, s.applicationName)
      && (TypeSet(r) != {} ==> TypeText(s.scanType) in TypeSet(r))
      && (StatusSet(r) != {} ==> Lower(s.status) in StatusSet(r))
  }

  function AppIds(scans: seq<Scan>): set<string>
  {
    set s | s in scans && s.applicationId != "" :: s.applicationId
  }

  function IssueMatches(r: Request, scoped: set<string>, scanned: set<string>): Issue -> bool
  {
    (i: Issue) =>
      && PlaceFits(r, scoped, i.assetGroupId, i.applicationId, i.applicationName)
      && (TypeSet(r) != {} || StatusSet(r) != {} ==> i.applicationId in scanned)
  }

  function DateOf(date: Option<string>, how: Reading): Option<int>
  {
    if date.None? || date.value == "" then None else how.date(date.value)
  }

  predicate Within(when: Option<Stamp>, from: Option<int>, to: Option<int>)
  {
    (from.None? && to.None?)
    || (when.Some? && (from.Some? ==> from.value <= when.value.micros) && (to.Some? ==> when.value.micros <= to.value))
  }

  function ScanWithin(from: Option<int>, to: Option<int>): Scan -> bool
  {
    (s: Scan) => Within(s.createdAt, from, to)
  }

  function IssueWithin(from: Option<int>, to: Option<int>): Issue -> bool
  {
    (i: Issue) => Within(i.openedAt, from, to)
  }

  function Techs(r: Request, how: Reading): set<Domain.Technology>
  {
    set v | v in r.technologies && how.technology(v) != UNKNOWN :: how.technology(v)
  }

  // ---------------------------------------------------------------- the inputs of the calculations

  /** A date given as "" is no filter. */
  predicate Asked(date: Option<string>)
  {
    date.Some? && date.value != ""
  }

  predicate HasDatasetFilter(r: Request)
  {
    r.technologies != [] || r.vulnerabilities != [] || r.scanTypes != [] || r.scanStatuses != [] || Asked(r.fromDate)
        || Asked(r.toDate)
  }

  /** The applications and groups the summary counts. */
  function AppIn(ids: set<string>): App -> bool
  {
    (a: App) => a.id in ids
  }

  function GroupIn(ids: set<string>): AssetGroup -> bool
  {
    (g: AssetGroup) => g.id in ids
  }

  function EffectiveApps(scans: seq<Scan>, issues: seq<Issue>): set<string>
  {
    AppIds(scans) + set i | i in issues && i.applicationId != "" :: i.applicationId
  }

  function EffectiveGroups(apps: seq<App>, scans: seq<Scan>, issues: seq<Issue>): set<string>
  {
    (set a | a in apps && a.group != "" :: a.group)
    + (set s | s in scans && s.assetGroupId != "" :: s.assetGroupId)
    + (set i | i in issues && i.assetGroupId != "" :: i.assetGroupId)
  }

  /** What the filters select, and the flags. */
  datatype Selection = Selection(
    apps: seq<App>, groups: seq<AssetGroup>, scoped: set<string>, scans: seq<Scan>, optionIssues: seq<Issue>,
    issues: seq<Issue>, summaryApps: seq<App>, summaryGroups: seq<AssetGroup>, scope: bool, dataset: bool,
    allSources: bool)

  /** All that the calculations read of a request, besides the rule and its threshold: the
      selection, and the sources whose counts are asked for, in their order. */
  datatype Inputs = Inputs(selection: Selection, counted: Option<seq<Sources.Source>>)

  datatype Catalog = Catalog(apps: seq<App>, groups: seq<AssetGroup>, scans: seq<Scan>, issues: seq<Issue>)

  function CatalogOf(base: Base, r: Request): Catalog
  {
    Catalog(Filter(Filter(Requested(base.apps, r), SeenApp(r)), AppPasses(r)),
            Filter(Filter(Requested(base.groups, r), SeenGroup(r)), GroupPasses(r)),
            Filter(Requested(base.scans, r), SeenScan(r)),
            Filter(Requested(base.issues, r), SeenIssue(r)))
  }

  function MatchedScans(c: Catalog, r: Request): seq<Scan>
  {
    Filter(c.scans, ScanMatches(r, Scoped(r, c.apps)))
  }

  function OptionScans(c: Catalog, r: Request, how: Reading): seq<Scan>
  {
    Filter(MatchedScans(c, r), ScanWithin(DateOf(r.fromDate, how), DateOf(r.toDate, how)))
  }

  function OptionIssues(c: Catalog, r: Request, how: Reading): seq<Issue>
  {
    var scoped := Scoped(r, c.apps);
    Filter(Filter(IssueSource(r, scoped, c.issues), IssueMatches(r, scoped, AppIds(MatchedScans(c, r)))),
         IssueWithin(DateOf(r.fromDate, how), DateOf(r.toDate, how)))
  }

  function SelectionOf(base: Base, r: Request, how: Reading): Selection
  {
    var c := CatalogOf(base, r);
    var scans, options := OptionScans(c, r, how), OptionIssues(c, r, how);
    var issues := Kept(options, how.maps(scans), Techs(r, how), VulnSet(r.vulnerabilities));
    var filtered := HasDatasetFilter(r);
    var apps := if filtered then Filter(c.apps, AppIn(EffectiveApps(scans, issues))) else c.apps;
    var groups := if filtered then Filter(c.groups, GroupIn(EffectiveGroups(apps, scans, issues))) else c.groups;
    Selection(c.apps, c.groups, Scoped(r, c.apps), scans, options, issues, apps, groups, HasScope(r), filtered,
              SourceIds(r) == [])
  }

  /** Counts are asked for when no filter but the sources is set. */
  predicate CountsAsked(r: Request, how: Reading)
  {
    how.useCounts && !HasDatasetFilter(r) && !HasScope(r)
  }

  function InputsOf(base: Base, r: Request, how: Reading): Inputs
  {
    Inputs(SelectionOf(base, r, how),
           if CountsAsked(r, how) then Some(Sources.LoadSources(base.enabled, SourceIds(r))) else None)
  }

  // ---------------------------------------------------------------- the key decides the inputs

  /** Requests that differ at most in the order and repetition of their lists and in the case
      of the name. */
  ghost predicate SameFilters(a: Request, b: Request)
  {
    AlikeButName(a, b) && Lower(NameText(a)) == Lower(NameText(b))
  }

  lemma SameNeedle(a: Request, b: Request, text: string)
    requires SameFilters(a, b)
    ensures NameFits(a, text) == NameFits(b, text)
  {
    assert |Lower(NameText(a))| == |NameText(a)| && |Lower(NameText(b))| == |NameText(b)|;
  }

  lemma SameRequested<T>(s: seq<Sources.Item<T>>, a: Request, b: Request)
    requires AlikeButName(a, b)
    ensures Requested(s, a) == Requested(s, b)
  {
    assert Sources.IdSet(SourceIds(a)) == Sources.IdSet(SourceIds(b));
  }

  lemma SameGroups(base: Base, a: Request, b: Request)
    requires AlikeButName(a, b)
    ensures CatalogOf(base, a).groups == CatalogOf(base, b).groups
  {
    SameRequested(base.groups, a, b);
    FilterSame(Requested(base.groups, a), SeenGroup(a), SeenGroup(b));
    FilterSame(Filter(Requested(base.groups, a), SeenGroup(a)), GroupPasses(a), GroupPasses(b));
  }

  lemma SameApps(base: Base, a: Request, b: Request)
    requires SameFilters(a, b)
    ensures CatalogOf(base, a).apps == CatalogOf(base, b).apps
  {
    SameRequested(base.apps, a, b);
    FilterSame(Requested(base.apps, a), SeenApp(a), SeenApp(b));
    forall app ensures AppPasses(a)(app) == AppPasses(b)(app) {
      SameNeedle(a, b, app.name);
    }
    FilterSame(Filter(Requested(base.apps, a), SeenApp(a)), AppPasses(a), AppPasses(b));
  }

  lemma SameCatalog(base: Base, a: Request, b: Request)
    requires SameFilters(a, b)
    ensures CatalogOf(base, a) == CatalogOf(base, b)
  {
    SameApps(base, a, b);
    SameGroups(base, a, b);
    SameRequested(base.scans, a, b);
    SameRequested(base.issues, a, b);
    FilterSame(Requested(base.scans, a), SeenScan(a), SeenScan(b));
    FilterSame(Requested(base.issues, a), SeenIssue(a), SeenIssue(b));
  }

  lemma SameSets(a: Request, b: Request, how: Reading)
    requires SameFilters(a, b)
    ensures TypeSet(a) == TypeSet(b) && StatusSet(a) == StatusSet(b) && Techs(a, how) == Techs(b, how)
    ensures VulnSet(a.vulnerabilities) == VulnSet(b.vulnerabilities)
    ensures HasScope(a) == HasScope(b) && HasDatasetFilter(a) == HasDatasetFilter(b)
  {
  }

  lemma SameScoped(a: Request, b: Request, apps: seq<App>)
    requires SameFilters(a, b)
    ensures Scoped(a, apps) == Scoped(b, apps)
  {
    assert (set id | id in a.appIds) == set id | id in b.appIds;
  }

  lemma SamePlace(a: Request, b: Request, scoped: set<string>, group: string, app: string, name: string)
    requires SameFilters(a, b)
    ensures PlaceFits(a, scoped, group, app, name) == PlaceFits(b, scoped, group, app, name)
  {
    SameNeedle(a, b, name);
  }

  lemma SameScans(c: Catalog, a: Request, b: Request, how: Reading)
    requires SameFilters(a, b)
    ensures MatchedScans(c, a) == MatchedScans(c, b) && OptionScans(c, a, how) == OptionScans(c, b, how)
  {
    SameSets(a, b, how);
    SameScoped(a, b, c.apps);
    var scoped := Scoped(a, c.apps);
    forall s | s in c.scans ensures ScanMatches(a, scoped)(s) == ScanMatches(b, scoped)(s) {
      SamePlace(a, b, scoped, s.assetGroupId, s.applicationId, s.applicationName);
    }
    FilterSame(c.scans, ScanMatches(a, scoped), ScanMatches(b, scoped));
  }

  lemma SameIssues(c: Catalog, a: Request, b: Request, how: Reading)
    requires SameFilters(a, b)
    ensures OptionIssues(c, a, how) == OptionIssues(c, b, how)
  {
    SameSets(a, b, how);
    SameScoped(a, b, c.apps);
    SameScans(c, a, b, how);
    var scoped, scanned := Scoped(a, c.apps), AppIds(MatchedScans(c, a));
    var issues := IssueSource(a, scoped, c.issues);
    forall i | i in issues ensures IssueMatches(a, scoped, scanned)(i) == IssueMatches(b, scoped, scanned)(i) {
      SamePlace(a, b, scoped, i.assetGroupId, i.applicationId, i.applicationName);
    }
    FilterSame(issues, IssueMatches(a, scoped, scanned), IssueMatches(b, scoped, scanned));
  }

  lemma SameSelection(base: Base, a: Request, b: Request, how: Reading)
    requires SameFilters(a, b)
    ensures SelectionOf(base, a, how) == SelectionOf(base, b, how)
  {
    SameCatalog(base, a, b);
    var c := CatalogOf(base, a);
    SameSets(a, b, how);
    SameScoped(a, b, c.apps);
    SameScans(c, a, b, how);
    SameIssues(c, a, b, how);
  }

  // ---------------------------------------------------------------- the sources counted

  /** The ids that count when the counts are asked for: the first twenty as requested. */
  function FirstIds(r: Request): set<string>
  {
    Sources.IdSet(SourceIds(r)[..Min(20, |SourceIds(r)|)])
  }

  /** The same enabled sources are within the first twenty ids of both. */
  predicate SameCounted(enabled: seq<Sources.Source>, a: Request, b: Request)
  {
    forall s :: s in enabled ==> (s.id in FirstIds(a) <==> s.id in FirstIds(b))
  }

  lemma LoadedExact(enabled: seq<Sources.Source>, r: Request)
    requires SourceIds(r) != []
    ensures forall s :: s in Sources.LoadSources(enabled, SourceIds(r)) <==> s in enabled && s.id in FirstIds(r)
  {
    var valid := set s | s in enabled :: s.id;
    Sources.SourcesInExact(enabled, FirstIds(r) * valid);
  }

  /** The sources counted are the same exactly when the same enabled ones come first. */
  lemma LoadedExactly(enabled: seq<Sources.Source>, a: Request, b: Request)
    requires SourceIds(a) == [] <==> SourceIds(b) == []
    ensures Sources.LoadSources(enabled, SourceIds(a)) == Sources.LoadSources(enabled, SourceIds(b)) <==>
              SameCounted(enabled, a, b)
  {
    if SourceIds(a) != [] {
      LoadedExact(enabled, a);
      LoadedExact(enabled, b);
      if SameCounted(enabled, a, b) {
        var valid := set s | s in enabled :: s.id;
        Sources.SameSelection(enabled, FirstIds(a) * valid, FirstIds(b) * valid);
      } else {
        var s :| s in enabled && (s.id in FirstIds(a) <==> s.id !in FirstIds(b));
        assert s in Sources.LoadSources(enabled, SourceIds(a)) <==> s !in Sources.LoadSources(enabled, SourceIds(b));
      }
    }
  }

  lemma SameAsked(a: Request, b: Request, how: Reading)
    requires AlikeButName(a, b)
    ensures CountsAsked(a, how) == CountsAsked(b, how)
  {
  }

  /** Up to twenty ids the order of the request does not matter. */
  lemma TwentySourcesSuffice(enabled: seq<Sources.Source>, a: Request, b: Request)
    requires KeyOf(a) == KeyOf(b) && |SourceIds(a)| <= 20
    ensures SameCounted(enabled, a, b)
  {
    KeysEqualExactly(a, b);
    EqualKeysAreAlike(a, b);
    assert |SourceIds(a)| == |multiset(SourceIds(a))| == |multiset(SourceIds(b))| == |SourceIds(b)|;
    assert SourceIds(a)[..|SourceIds(a)|] == SourceIds(a) && SourceIds(b)[..|SourceIds(b)|] == SourceIds(b);
  }

  lemma SameInputsExactly(base: Base, a: Request, b: Request, how: Reading)
    requires AlikeButName(a, b) && SelectionOf(base, a, how) == SelectionOf(base, b, how)
    ensures InputsOf(base, a, how) == InputsOf(base, b, how) <==>
              (CountsAsked(a, how) ==> SameCounted(base.enabled, a, b))
  {
    SameAsked(a, b, how);
    LoadedExactly(base.enabled, a, b);
  }

  /** What a key decides: requests with the same key and stripped names are answered from the
      same selection under the same rule, whatever the base data; and from the same inputs
      altogether if and only if no counts are asked for or the same enabled sources are
      within the first twenty ids of both. */
  lemma KeyIsSound(base: Base, a: Request, b: Request, how: Reading)
    requires KeyOf(a) == KeyOf(b) && Trimmed(NameText(a)) && Trimmed(NameText(b))
    ensures SelectionOf(base, a, how) == SelectionOf(base, b, how)
    ensures InputsOf(base, a, how) == InputsOf(base, b, how) <==>
              (CountsAsked(a, how) ==> SameCounted(base.enabled, a, b))
    ensures a.rule == b.rule && a.threshold == b.threshold
  {
    EqualKeysAreAlike(a, b);
    TrimmedNamesFold(a);
    TrimmedNamesFold(b);
    SameSelection(base, a, b, how);
    SameInputsExactly(base, a, b, how);
  }

  // ---------------------------------------------------------------- exactly when it is sound

  /** An application could pass everything but the name. */
  predicate CanSeeApp(r: Request)
  {
    if r.groupIds == [] then Admin(r.role) || r.assetGroups != []
    else exists g :: g in r.groupIds && MaySee(r, g)
  }

  function OnlyApp(r: Request, name: string, group: string): Base
  {
    var id := if r.appIds == [] then "" else r.appIds[0];
    var source := if SourceIds(r) == [] then None else Some(SourceIds(r)[0]);
    Base([], [], [Sources.Item(App(id, name, group), source, None)], [], [])
  }

  lemma OnlyAppPasses(r: Request, s: Request, name: string, group: string)
    requires AlikeButName(r, s) && MaySee(r, group) && (r.groupIds != [] ==> group in r.groupIds)
    ensures |CatalogOf(OnlyApp(r, name, group), s).apps| == if NameFits(s, name) then 1 else 0
  {
    var base := OnlyApp(r, name, group);
    var t := base.apps[0];
    FilterOne(t, Sources.TaggedIn<App>(Sources.IdSet(SourceIds(s))));
    assert Requested(base.apps, s) == [t.content];
    FilterOne(t.content, SeenApp(s));
    FilterOne(t.content, AppPasses(s));
  }

  lemma ContainsItself(hay: string)
    ensures Contains(hay, hay)
  {
  }

  /** Different needles tell some application name apart. */
  lemma NameTellsApart(a: Request, b: Request) returns (name: string)
    requires Lower(NameText(a)) != Lower(NameText(b))
    ensures NameFits(a, name) != NameFits(b, name)
  {
    var x, y := Lower(NameText(a)), Lower(NameText(b));
    ContainsItself(x);
    ContainsItself(y);
    if Contains(x, y) {
      if Contains(y, x) {
        ContainsLength(x, y);
        ContainsLength(y, x);
      }
      name := NameText(b);
    } else {
      name := NameText(a);
    }
  }

  lemma AdminsSee(r: Request)
    requires !CanSeeApp(r)
    ensures !Admin(r.role)
  {
    if r.groupIds != [] {
      assert r.groupIds[0] in r.groupIds;
    }
  }

  /** A user with nothing to see in the groups asked for gets nothing, by any name. */
  lemma NoApps(base: Base, r: Request)
    requires !CanSeeApp(r)
    ensures CatalogOf(base, r).apps == []
  {
    var apps := Filter(Requested(base.apps, r), SeenApp(r));
    FilterPasses(Requested(base.apps, r), SeenApp(r));
    FilterNone(apps, AppPasses(r));
  }

  lemma NoScans(base: Base, r: Request)
    requires !CanSeeApp(r) && "" !in r.assetGroups
    ensures MatchedScans(CatalogOf(base, r), r) == []
  {
    var c := CatalogOf(base, r);
    var scoped := Scoped(r, c.apps);
    AdminsSee(r);
    FilterPasses(Requested(base.scans, r), SeenScan(r));
    FilterNone(c.scans, ScanMatches(r, scoped));
  }

  lemma NoIssues(base: Base, r: Request, how: Reading)
    requires !CanSeeApp(r) && "" !in r.assetGroups
    ensures OptionIssues(CatalogOf(base, r), r, how) == []
  {
    var c := CatalogOf(base, r);
    var scoped := Scoped(r, c.apps);
    var source, matches := IssueSource(r, scoped, c.issues), IssueMatches(r, scoped, AppIds(MatchedScans(c, r)));
    AdminsSee(r);
    FilterPasses(Requested(base.issues, r), SeenIssue(r));
    FilterPasses(c.issues, InScope(scoped));
    FilterNone(source, matches);
  }

  /** The selection when nothing is left to answer from. */
  function EmptySelection(r: Request, groups: seq<AssetGroup>): Selection
  {
    Selection([], groups, Scoped(r, []), [], [], [], [],
              if HasDatasetFilter(r) then Filter(groups, GroupIn({})) else groups,
              HasScope(r), HasDatasetFilter(r), SourceIds(r) == [])
  }

  lemma SelectionIsEmpty(base: Base, r: Request, how: Reading)
    requires !CanSeeApp(r) && "" !in r.assetGroups
    ensures SelectionOf(base, r, how) == EmptySelection(r, CatalogOf(base, r).groups)
  {
    NoApps(base, r);
    NoScans(base, r);
    NoIssues(base, r, how);
    assert EffectiveGroups([], [], []) == {};
  }

  lemma NothingIsAlike(base: Base, a: Request, b: Request, how: Reading)
    requires AlikeButName(a, b) && !CanSeeApp(a) && !CanSeeApp(b) && "" !in a.assetGroups
    ensures SelectionOf(base, a, how) == SelectionOf(base, b, how)
  {
    SelectionIsEmpty(base, a, how);
    SelectionIsEmpty(base, b, how);
    SameGroups(base, a, b);
    assert Scoped(a, []) == Scoped(b, []);
  }

  /** The names agree as they stand, but for case, or no name can make a difference. */
  predicate NamesHarmless(a: Request, b: Request)
  {
    Lower(NameText(a)) == Lower(NameText(b)) || !CanSeeApp(a)
  }

  lemma HarmlessNames(base: Base, a: Request, b: Request, how: Reading)
    requires AlikeButName(a, b) && NamesHarmless(a, b) && "" !in a.assetGroups
    ensures SelectionOf(base, a, how) == SelectionOf(base, b, how)
  {
    if Lower(NameText(a)) == Lower(NameText(b)) {
      SameSelection(base, a, b, how);
    } else {
      assert CanSeeApp(a) == CanSeeApp(b);
      NothingIsAlike(base, a, b, how);
    }
  }

  lemma NamesTold(a: Request, b: Request, how: Reading)
    requires AlikeButName(a, b) && !NamesHarmless(a, b)
    ensures exists base: Base :: InputsOf(base, a, how) != InputsOf(base, b, how)
  {
    var group :=
      if a.groupIds != [] then var g :| g in a.groupIds && MaySee(a, g); g
      else if a.assetGroups != [] then a.assetGroups[0]
      else "";
    var name := NameTellsApart(a, b);
    OnlyAppPasses(a, a, name, group);
    OnlyAppPasses(a, b, name, group);
    var base := OnlyApp(a, name, group);
    assert InputsOf(base, a, how).selection.apps != InputsOf(base, b, how).selection.apps;
  }

  lemma CountsTold(a: Request, b: Request, how: Reading)
    requires AlikeButName(a, b) && CountsAsked(a, how) && FirstIds(a) != FirstIds(b)
    ensures exists base: Base :: InputsOf(base, a, how) != InputsOf(base, b, how)
  {
    var id :| id in FirstIds(a) <==> id !in FirstIds(b);
    var source := Sources.Source(id, "");
    var base := Base([], [], [], [], [source]);
    assert source in base.enabled;
    SameAsked(a, b, how);
    LoadedExactly(base.enabled, a, b);
    assert InputsOf(base, a, how).counted != InputsOf(base, b, how).counted;
  }

  /** Exactly when requests with the same key are answered from the same inputs on all base
      data: the names agree up to case as they stand, not just stripped, or the user can see
      nothing in the groups asked for; and either no counts are asked for or the first
      twenty source ids are the same. */
  lemma KeyIsSoundExactly(a: Request, b: Request, how: Reading)
    requires KeyOf(a) == KeyOf(b) && "" !in a.assetGroups
    ensures (forall base: Base :: InputsOf(base, a, how) == InputsOf(base, b, how))
            <==> NamesHarmless(a, b) && (CountsAsked(a, how) ==> FirstIds(a) == FirstIds(b))
  {
    EqualKeysAreAlike(a, b);
    if !NamesHarmless(a, b) {
      NamesTold(a, b, how);
    } else if CountsAsked(a, how) && FirstIds(a) != FirstIds(b) {
      CountsTold(a, b, how);
    } else {
      forall base: Base ensures InputsOf(base, a, how) == InputsOf(base, b, how) {
        HarmlessNames(base, a, b, how);
        SameInputsExactly(base, a, b, how);
      }
    }
  }
}
