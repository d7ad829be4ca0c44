/** Filtering issues by technology and vulnerability, and the options offered for it with
    the count shown beside each. */
module FilterOptions {
  import opened Wrappers
  import opened Text
  import opened Sorting
  import opened Counting
  import opened Domain
  import opened Technology

  const VULNERABILITY_LIMIT := 2000

  function LabelOf(issue: Issue): string
  {
    Trim(if issue.vulnerability != "" then issue.vulnerability else issue.correlationKey)
  }

  function VulnKey(issue: Issue): string
  {
    Lower(LabelOf(issue))
  }

  predicate Keeps(issue: Issue, maps: Maps, techs: set<Domain.Technology>, vulns: set<string>)
  {
    && (techs != {} ==> Resolve(issue, maps) != UNKNOWN && Resolve(issue, maps) in techs)
    && (vulns != {} ==> VulnKey(issue) in vulns)
  }

  function Kept(issues: seq<Issue>, maps: Maps, techs: set<Domain.Technology>, vulns: set<string>): seq<Issue>
    decreases |issues|
  {
    if issues == [] then []
    else
      var last := issues[|issues| - 1];
      Kept(issues[..|issues| - 1], maps, techs, vulns) + (if Keeps(last, maps, techs, vulns) then [last] else [])
  }

  /** A requested value counts in its folded form; blank values are ignored. */
  function VulnSet(requested: seq<string>): set<string>
  {
    set v | v in requested && Trim(v) != "" :: Fold(v)
  }

  method FilterByDimensions(scans: seq<Scan>, issues: seq<Issue>, techs: set<Domain.Technology>,
                            vulnerabilities: seq<string>)
    returns (filtered: seq<Issue>)
    ensures exists maps :: Exact(maps, scans) && filtered == Kept(issues, maps, techs, VulnSet(vulnerabilities))
  {
    var vulns := VulnSet(vulnerabilities);
    var m := BuildMaps(scans);
    if techs == {} && vulns == {} {
      EmptyFilterKeepsAll(issues, m);
      return issues;
    }
    filtered := [];
    for i := 0 to |issues|
      invariant filtered == Kept(issues[..i], m, techs, vulns)
    {
      var item := issues[i];
      assert issues[..i + 1][..i] == issues[..i];
      var keep := true;
      if techs != {} {
        var technology := Resolve(item, m);
        keep := technology != UNKNOWN && technology in techs;
      }
      if keep && vulns != {} {
        keep := VulnKey(item) in vulns;
      }
      if keep {
        filtered := filtered + [item];
      }
    }
    assert issues[..|issues|] == issues;
  }

  lemma {:induction false} EmptyFilterKeepsAll(issues: seq<Issue>, maps: Maps)
    ensures Kept(issues, maps, {}, {}) == issues
    decreases |issues|
  {
    if issues != [] {
      EmptyFilterKeepsAll(issues[..|issues| - 1], maps);
    }
  }

  // ---------------------------------------------------------------- the options

  datatype TechCounts = TechCounts(dast: int, sast: int, sca: int, iast: int, unclassified: int)

  function CountFor(c: TechCounts, t: Domain.Technology): int
  {
    match t
    case DAST => c.dast
    case SAST => c.sast
    case SCA => c.sca
    case IAST => c.iast
    case UNKNOWN => c.unclassified
  }

  function AddTech(c: TechCounts, t: Domain.Technology): TechCounts
  {
    match t
    case DAST => c.(dast := c.dast + 1)
    case SAST => c.(sast := c.sast + 1)
    case SCA => c.(sca := c.sca + 1)
    case IAST => c.(iast := c.iast + 1)
    case UNKNOWN => c.(unclassified := c.unclassified + 1)
  }

  datatype VulnOption = VulnOption(value: string, title: string, count: int)

  function ResolvesTo(maps: Maps, t: Domain.Technology): Issue -> int
  {
    (issue: Issue) => if Resolve(issue, maps) == t then 1 else 0
  }

  function HasVuln(key: string): Issue -> int
  {
    (issue: Issue) => if VulnKey(issue) == key then 1 else 0
  }

  /** The options list every vulnerability once, with how often it occurs. */
  ghost predicate OptionsExact(options: seq<VulnOption>, issues: seq<Issue>)
  {
    && (forall i, j :: 0 <= i < j < |options| ==> options[i].value != options[j].value)
    && (forall issue :: issue in issues && LabelOf(issue) != "" ==>
        exists o :: o in options && o.value == VulnKey(issue))
    && (forall o :: o in options ==> OptionExact(o, issues))
  }

  ghost predicate OptionExact(o: VulnOption, issues: seq<Issue>)
  {
    && o.count == Sum(issues, HasVuln(o.value))
    && o.value != "" && Lower(o.title) == o.value && Trim(o.value) == o.value && Lower(o.value) == o.value
  }

  function OptionKey(): VulnOption -> string
  {
    (o: VulnOption) => o.value
  }

  /** The dictionary update for one issue. */
  function AddVuln(options: seq<VulnOption>, issue: Issue): seq<VulnOption>
  {
    var title, key := LabelOf(issue), VulnKey(issue);
    if title == "" then options
    else
      var i := IndexOf(options, OptionKey(), key);
      if i < |options| then options[i := options[i].(count := options[i].count + 1)]
      else options + [VulnOption(key, title, 1)]
  }

  lemma KeyFacts(issue: Issue)
    ensures LabelOf(issue) == "" <==> VulnKey(issue) == ""
    ensures Trim(VulnKey(issue)) == VulnKey(issue) && Lower(VulnKey(issue)) == VulnKey(issue)
  {
    var raw := if issue.vulnerability != "" then issue.vulnerability else issue.correlationKey;
    FoldIdempotent(raw);
    LowerIdempotent(Trim(raw));
  }

  lemma OldOption(o: VulnOption, issues: seq<Issue>, issue: Issue)
    requires OptionExact(o, issues)
    ensures OptionExact(if o.value == VulnKey(issue) then o.(count := o.count + 1) else o, issues + [issue])
  {
    SumOne(issues, issue, HasVuln(o.value));
  }

  lemma NewOption(issues: seq<Issue>, issue: Issue)
    requires LabelOf(issue) != "" && forall x :: x in issues ==> VulnKey(x) != VulnKey(issue)
    ensures OptionExact(VulnOption(VulnKey(issue), LabelOf(issue), 1), issues + [issue])
  {
    KeyFacts(issue);
    SumZero(issues, HasVuln(VulnKey(issue)));
    SumOne(issues, issue, HasVuln(VulnKey(issue)));
  }

  lemma AddVulnKeepsOptions(options: seq<VulnOption>, issues: seq<Issue>, issue: Issue)
    requires OptionsExact(options, issues)
    ensures forall o :: o in AddVuln(options, issue) ==> OptionExact(o, issues + [issue])
  {
    KeyFacts(issue);
    var key := VulnKey(issue);
    forall o | o in AddVuln(options, issue) ensures OptionExact(o, issues + [issue]) {
      var options' := AddVuln(options, issue);
      var k :| 0 <= k < |options'| && options'[k] == o;
      if k < |options| {
        assert options[k] in options;
        OldOption(options[k], issues, issue);
      } else {
        forall x | x in issues ensures VulnKey(x) != key {
          KeyFacts(x);
        }
        NewOption(issues, issue);
      }
    }
  }

  lemma AddVulnKeepsKeys(options: seq<VulnOption>, issues: seq<Issue>, issue: Issue)
    requires OptionsExact(options, issues)
    ensures OptionsExact(AddVuln(options, issue), issues + [issue])
  {
    AddVulnKeepsOptions(options, issues, issue);
    var options' := AddVuln(options, issue);
    forall x | x in issues + [issue] && LabelOf(x) != "" ensures exists o :: o in options' && o.value == VulnKey(x) {
      if x == issue {
        var i := IndexOf(options, OptionKey(), VulnKey(issue));
        assert options'[i] in options' && options'[i].value == VulnKey(issue);
      } else {
        var o :| o in options && o.value == VulnKey(x);
        var k :| 0 <= k < |options| && options[k] == o;
        assert options'[k] in options' && options'[k].value == o.value;
      }
    }
  }

  predicate OptionBefore(a: VulnOption, b: VulnOption)
  {
    a.count > b.count || (a.count == b.count && StrLe(Lower(a.title), Lower(b.title)))
  }

  /** The options count every issue: per technology, and per vulnerability key. */
  ghost predicate Offered(techs: TechCounts, vulnerabilities: seq<VulnOption>, scans: seq<Scan>, issues: seq<Issue>)
  {
    exists maps, all ::
      && Exact(maps, scans) && (forall t :: CountFor(techs, t) == Sum(issues, ResolvesTo(maps, t)))
      && OptionsExact(all, issues) && vulnerabilities == Sort(all, OptionBefore)[..Min(VULNERABILITY_LIMIT, |all|)]
  }

  method BuildOptions(scans: seq<Scan>, issues: seq<Issue>)
    returns (techs: TechCounts, vulnerabilities: seq<VulnOption>)
    ensures Offered(techs, vulnerabilities, scans, issues)
  {
    var m := BuildMaps(scans);
    techs := TechCounts(0, 0, 0, 0, 0);
    var options := [];
    for i := 0 to |issues|
      invariant forall t :: CountFor(techs, t) == Sum(issues[..i], ResolvesTo(m, t))
      invariant OptionsExact(options, issues[..i])
    {
      var issue := issues[i];
      assert issues[..i + 1][..i] == issues[..i];
      assert issues[..i + 1] == issues[..i] + [issue];
      techs := AddTech(techs, Resolve(issue, m));
      AddVulnKeepsKeys(options, issues[..i], issue);
      options := AddVuln(options, issue);
    }
    assert issues[..|issues|] == issues;
    vulnerabilities := Sort(options, OptionBefore)[..Min(VULNERABILITY_LIMIT, |options|)];
  }

  // ---------------------------------------------------------------- counts agree with filters

  lemma {:induction false} TechFilterSize(issues: seq<Issue>, maps: Maps, t: Domain.Technology)
    requires t != UNKNOWN
    ensures |Kept(issues, maps, {t}, {})| == Sum(issues, ResolvesTo(maps, t))
    decreases |issues|
  {
    if issues != [] {
      TechFilterSize(issues[..|issues| - 1], maps, t);
    }
  }

  lemma {:induction false} VulnFilterSize(issues: seq<Issue>, maps: Maps, key: string)
    ensures |Kept(issues, maps, {}, {key})| == Sum(issues, HasVuln(key))
    decreases |issues|
  {
    if issues != [] {
      VulnFilterSize(issues[..|issues| - 1], maps, key);
    }
  }

  /** The number beside each option is the number of issues choosing it returns. */
  lemma CountsAreFilters(scans: seq<Scan>, issues: seq<Issue>, maps: Maps, techs: TechCounts, all: seq<VulnOption>)
    requires Exact(maps, scans)
    requires forall t :: CountFor(techs, t) == Sum(issues, ResolvesTo(maps, t))
    requires OptionsExact(all, issues)
    ensures forall t :: t != UNKNOWN ==> CountFor(techs, t) == |Kept(issues, maps, {t}, {})|
    ensures forall o :: o in all ==> o.count == |Kept(issues, maps, {}, VulnSet([o.value]))|
    ensures techs.dast + techs.sast + techs.sca + techs.iast + techs.unclassified == |issues|
  {
    forall t: Domain.Technology | t != UNKNOWN ensures CountFor(techs, t) == |Kept(issues, maps, {t}, {})| {
      TechFilterSize(issues, maps, t);
    }
    forall o | o in all ensures o.count == |Kept(issues, maps, {}, VulnSet([o.value]))| {
      assert VulnSet([o.value]) == {o.value};
      VulnFilterSize(issues, maps, o.value);
    }
    ResolutionsAddUp(issues, maps);
    assert CountFor(techs, DAST) == techs.dast && CountFor(techs, SAST) == techs.sast
        && CountFor(techs, SCA) == techs.sca;
    assert CountFor(techs, IAST) == techs.iast && CountFor(techs, UNKNOWN) == techs.unclassified;
  }

  lemma {:induction false} ResolutionsAddUp(issues: seq<Issue>, maps: Maps)
    ensures |issues| == Sum(issues, ResolvesTo(maps, DAST)) + Sum(issues, ResolvesTo(maps, SAST))
                        + Sum(issues, ResolvesTo(maps, SCA)) + Sum(issues, ResolvesTo(maps, IAST))
                        + Sum(issues, ResolvesTo(maps, UNKNOWN))
    decreases |issues|
  {
    if issues != [] {
      ResolutionsAddUp(issues[..|issues| - 1], maps);
      match Resolve(issues[|issues| - 1], maps) { case DAST => case SAST => case SCA => case IAST => case UNKNOWN => }
    }
  }

  /** Choosing several technologies returns the sum of their counts. */
  lemma {:induction false} ChosenTechsAddUp(issues: seq<Issue>, maps: Maps, techs: set<Domain.Technology>)
    requires techs != {}
    ensures |Kept(issues, maps, techs, {})| ==
            (if DAST in techs then Sum(issues, ResolvesTo(maps, DAST)) else 0)
            + (if SAST in techs then Sum(issues, ResolvesTo(maps, SAST)) else 0)
            + (if SCA in techs then Sum(issues, ResolvesTo(maps, SCA)) else 0)
            + (if IAST in techs then Sum(issues, ResolvesTo(maps, IAST)) else 0)
    decreases |issues|
  {
    if issues != [] {
      ChosenTechsAddUp(issues[..|issues| - 1], maps, techs);
      match Resolve(issues[|issues| - 1], maps) { case DAST => case SAST => case SCA => case IAST => case UNKNOWN => }
    }
  }

  /** Up to 2000 vulnerabilities are listed, the most frequent first and those of one count by title;
      none left off the list occurs more often than a listed one. */
  lemma ListedOptionsAreTop(all: seq<VulnOption>)
    ensures var listed := Sort(all, OptionBefore)[..Min(VULNERABILITY_LIMIT, |all|)];
            && |listed| == Min(2000, |all|) && (forall o :: o in listed ==> o in all)
            && (forall i, j :: 0 <= i < j < |listed| ==>
                  listed[i].count > listed[j].count
                  || (listed[i].count == listed[j].count && StrLe(Lower(listed[i].title), Lower(listed[j].title))))
            && (forall a, b :: a in all && a !in listed && b in listed ==> a.count <= b.count)
  {
    var sorted, n := Sort(all, OptionBefore), Min(VULNERABILITY_LIMIT, |all|);
    SortElements(all, OptionBefore);
    OptionBeforeIsPreorder();
    SortSorts(all, OptionBefore);
    forall a, b | a in all && a !in sorted[..n] && b in sorted[..n] ensures a.count <= b.count {
      assert a in sorted;
      var i :| 0 <= i < |sorted| && sorted[i] == a;
      var j :| 0 <= j < n && sorted[j] == b;
      assert OptionBefore(sorted[j], sorted[i]);
    }
  }

  lemma OptionBeforeIsPreorder()
    ensures TotalPreorder(OptionBefore)
  {
    forall a, b ensures OptionBefore(a, b) || OptionBefore(b, a) {
      StrLeTotal(Lower(a.title), Lower(b.title));
    }
    forall a, b, c | OptionBefore(a, b) && OptionBefore(b, c) ensures OptionBefore(a, c) {
      if a.count == b.count == c.count {
        StrLeTransitive(Lower(a.title), Lower(b.title), Lower(c.title));
      }
    }
  }
}
