/** Three simultaneous groupings of the issues: by application, by fix group and by
    correlation key, each with counts per severity, and the top lists made from them. */
module Prioritization {
  import opened Wrappers
  import opened Domain
  import opened Sorting
  import opened Counting

  const TOP := 25

  datatype Grouping = ByApplication | ByFixGroup | ByCorrelation

  /** The counters of one group. */
  datatype Counts = Counts(critical: int, high: int, medium: int, low: int, unknown: int, total: int)

  const NOTHING := Counts(0, 0, 0, 0, 0, 0)

  datatype Column = Of(severity: Severity) | Total

  function Cell(c: Counts, column: Column): int
  {
    match column
    case Of(Critical) => c.critical
    case Of(High) => c.high
    case Of(Medium) => c.medium
    case Of(Low) => c.low
    case Of(Unknown) => c.unknown
    case Total => c.total
  }

  /** What one issue adds to a column. */
  function Weight(column: Column): Issue -> int
  {
    (issue: Issue) => if column == Total || column == Of(issue.severity) then 1 else 0
  }

  function OrElse(s: string, t: string): string
  {
    if s == "" then t else s
  }

  /** The group an issue belongs to. */
  function KeyOf(g: Grouping, issue: Issue): string
  {
    match g
    case ByApplication => OrElse(issue.applicationId, "unknown")
    case ByFixGroup => OrElse(issue.fixGroupId, "unassigned") + ":" + OrElse(issue.fixGroupName, "Unassigned")
    case ByCorrelation => OrElse(issue.correlationKey, OrElse(issue.fixGroupName, "Unassigned"))
  }

  function Keyed(g: Grouping): Issue -> Option<string>
  {
    (issue: Issue) => Some(KeyOf(g, issue))
  }

  function AppName(issue: Issue): string
  {
    OrElse(issue.applicationName, OrElse(issue.applicationId, "unknown"))
  }

  datatype Group = Group(key: string, counts: Counts, applications: set<string>)

  function GroupKey(): Group -> string
  {
    (g: Group) => g.key
  }

  function GroupCell(column: Column): Group -> int
  {
    (g: Group) => Cell(g.counts, column)
  }

  function Count(c: Counts, s: Severity): Counts
  {
    var c' := c.(total := c.total + 1);
    match s
    case Critical => c'.(critical := c.critical + 1)
    case High => c'.(high := c.high + 1)
    case Medium => c'.(medium := c.medium + 1)
    case Low => c'.(low := c.low + 1)
    case Unknown => c'.(unknown := c.unknown + 1)
  }

  lemma CountAdds(c: Counts, issue: Issue, column: Column)
    ensures Cell(Count(c, issue.severity), column) == Cell(c, column) + Weight(column)(issue)
  {
  }

  // ---------------------------------------------------------------- the grouping loop

  /** The rows group the issues: one row a key, in which every column counts its members. */
  ghost predicate GroupsAll(groups: seq<Group>, issues: seq<Issue>, g: Grouping)
  {
    && (forall i, j :: 0 <= i < j < |groups| ==> groups[i].key != groups[j].key)
    && (forall issue :: issue in issues ==> exists r :: r in groups && r.key == KeyOf(g, issue))
    && (forall r :: r in groups ==> RowExact(r, issues, g))
  }

  ghost predicate RowExact(r: Group, issues: seq<Issue>, g: Grouping)
  {
    && (forall column :: Cell(r.counts, column) == Sum(issues, Member(Keyed(g), Weight(column), r.key)))
    && r.applications == set issue | issue in issues && KeyOf(g, issue) == r.key :: AppName(issue)
  }

  function Grown(r: Group, issue: Issue): Group
  {
    r.(counts := Count(r.counts, issue.severity), applications := r.applications + {AppName(issue)})
  }

  /** `setdefault` and the increments of one issue. */
  method AddTo(groups: seq<Group>, issue: Issue, g: Grouping, ghost issues: seq<Issue>) returns (groups': seq<Group>)
    requires GroupsAll(groups, issues, g)
    ensures GroupsAll(groups', issues + [issue], g)
  {
    var key := KeyOf(g, issue);
    var i := IndexOf(groups, GroupKey(), key);
    groups' := groups;
    if i == |groups| {
      groups' := groups' + [Group(key, NOTHING, {})];
      NewRow(groups, groups', issues, g, key);
    }
    ghost var before := groups';
    groups' := groups'[i := Grown(groups'[i], issue)];
    BumpRow(before, issues, g, issue, i);
  }

  lemma NewRow(groups: seq<Group>, groups': seq<Group>, issues: seq<Issue>, g: Grouping, key: string)
    requires GroupsAll(groups, issues, g) && groups' == groups + [Group(key, NOTHING, {})]
    requires forall j :: 0 <= j < |groups| ==> groups[j].key != key
    ensures GroupsAll(groups', issues, g)
  {
    forall issue | issue in issues
      ensures KeyOf(g, issue) != key && exists r :: r in groups' && r.key == KeyOf(g, issue)
    {
      var r :| r in groups && r.key == KeyOf(g, issue);
      assert r in groups';
    }
    EmptyRow(issues, g, key);
  }

  lemma EmptyRow(issues: seq<Issue>, g: Grouping, key: string)
    requires forall issue :: issue in issues ==> KeyOf(g, issue) != key
    ensures RowExact(Group(key, NOTHING, {}), issues, g)
  {
    forall column ensures Cell(NOTHING, column) == Sum(issues, Member(Keyed(g), Weight(column), key)) {
      SumZero(issues, Member(Keyed(g), Weight(column), key));
    }
  }

  lemma RowStep(r: Group, issues: seq<Issue>, g: Grouping, issue: Issue)
    requires RowExact(r, issues, g)
    ensures RowExact(if r.key == KeyOf(g, issue) then Grown(r, issue) else r, issues + [issue], g)
  {
    var r' := if r.key == KeyOf(g, issue) then Grown(r, issue) else r;
    forall column ensures Cell(r'.counts, column) == Sum(issues + [issue], Member(Keyed(g), Weight(column), r.key)) {
      SumOne(issues, issue, Member(Keyed(g), Weight(column), r.key));
      CountAdds(r.counts, issue, column);
    }
    assert forall x :: x in issues + [issue] <==> x in issues || x == issue;
  }

  lemma BumpRow(groups: seq<Group>, issues: seq<Issue>, g: Grouping, issue: Issue, i: nat)
    requires GroupsAll(groups, issues, g) && i < |groups| && groups[i].key == KeyOf(g, issue)
    ensures GroupsAll(groups[i := Grown(groups[i], issue)], issues + [issue], g)
  {
    var groups' := groups[i := Grown(groups[i], issue)];
    forall r | r in groups' ensures RowExact(r, issues + [issue], g) {
      var k :| 0 <= k < |groups'| && groups'[k] == r;
      assert groups[k] in groups;
      RowStep(groups[k], issues, g, issue);
    }
    forall x | x in issues + [issue] ensures exists r :: r in groups' && r.key == KeyOf(g, x) {
      var k := KeyIndex(groups, issues, g, x, issue, i);
      assert groups'[k] in groups';
    }
  }

  lemma KeyIndex(groups: seq<Group>, issues: seq<Issue>, g: Grouping, x: Issue, issue: Issue, i: nat) returns (k: nat)
    requires GroupsAll(groups, issues, g) && i < |groups| && groups[i].key == KeyOf(g, issue)
    requires x in issues + [issue]
    ensures k < |groups| && groups[k].key == KeyOf(g, x)
  {
    if x == issue {
      k := i;
    } else {
      assert x in issues;
      var r :| r in groups && r.key == KeyOf(g, x);
      k :| 0 <= k < |groups| && groups[k] == r;
    }
  }

  // ---------------------------------------------------------------- conservation

  /** In each grouping the rows add up, column by column, to the issues themselves. */
  lemma GroupsConserve(groups: seq<Group>, issues: seq<Issue>, g: Grouping, column: Column)
    requires GroupsAll(groups, issues, g)
    ensures Sum(groups, GroupCell(column)) == Sum(issues, Weight(column))
  {
    assert Groups(groups, GroupKey(), GroupCell(column), issues, Keyed(g), Weight(column));
    PartitionLaw(groups, GroupKey(), GroupCell(column), issues, Keyed(g), Weight(column));
    SumSame(issues, Grouped(Keyed(g), Weight(column)), Weight(column));
  }

  lemma {:induction false} TotalIsLength(issues: seq<Issue>)
    ensures Sum(issues, Weight(Total)) == |issues|
    decreases |issues|
  {
    if issues != [] {
      TotalIsLength(issues[..|issues| - 1]);
    }
  }

  // ---------------------------------------------------------------- scores and top lists

  function Score(r: Group): int
  {
    r.counts.critical * 5 + r.counts.high * 3 + r.counts.medium * 2 + r.counts.low
  }

  predicate HigherScore(a: Group, b: Group)
  {
    Score(a) >= Score(b)
  }

  function TopOf(groups: seq<Group>): seq<Group>
  {
    var ranked := Sort(groups, HigherScore);
    ranked[..Min(TOP, |ranked|)]
  }

  function AtLeastTwo(groups: seq<Group>): seq<Group>
  {
    if groups == [] then []
    else (if groups[0].counts.total >= 2 then [groups[0]] else []) + AtLeastTwo(groups[1..])
  }

  function TopCorrelated(groups: seq<Group>): seq<Group>
  {
    var ranked := AtLeastTwo(Sort(groups, HigherScore));
    ranked[..Min(TOP, |ranked|)]
  }

  lemma {:induction false} AtLeastTwoFacts(groups: seq<Group>)
    ensures forall r :: r in AtLeastTwo(groups) <==> r in groups && r.counts.total >= 2
    ensures SortedBy(groups, HigherScore) ==> SortedBy(AtLeastTwo(groups), HigherScore)
  {
    if groups != [] {
      AtLeastTwoFacts(groups[1..]);
      assert groups == [groups[0]] + groups[1..];
      var rest := AtLeastTwo(groups[1..]);
      if SortedBy(groups, HigherScore) {
        forall j | 0 <= j < |rest| ensures HigherScore(groups[0], rest[j]) {
          assert rest[j] in groups[1..];
        }
      }
    }
  }

  lemma ScoreIsPreorder()
    ensures TotalPreorder(HigherScore)
  {
  }

  lemma CutAtTop(ranked: seq<Group>, n: nat)
    requires n <= |ranked| && SortedBy(ranked, HigherScore)
    ensures forall a, b :: a in ranked && a !in ranked[..n] && b in ranked[..n] ==> Score(a) <= Score(b)
  {
    forall a, b | a in ranked && a !in ranked[..n] && b in ranked[..n] ensures Score(a) <= Score(b) {
      var i :| 0 <= i < |ranked| && ranked[i] == a;
      var j :| 0 <= j < n && ranked[j] == b;
    }
  }

  /** No group left out of a top list outscores one that is listed, and a list is short only
      when every eligible group is on it. */
  lemma TopIsTop(groups: seq<Group>)
    ensures forall a, b :: a in groups && a !in TopOf(groups) && b in TopOf(groups) ==> Score(a) <= Score(b)
    ensures forall b :: b in TopOf(groups) ==> b in groups
    ensures |TopOf(groups)| == Min(25, |groups|)
    ensures forall a, b ::
              a in groups && a.counts.total >= 2 && a !in TopCorrelated(groups) && b in TopCorrelated(groups) ==>
                Score(a) <= Score(b)
    ensures forall b :: b in TopCorrelated(groups) ==> b in groups && b.counts.total >= 2
    ensures |TopCorrelated(groups)| <= 25
    ensures |TopCorrelated(groups)| < 25 ==>
              forall a :: a in groups && a.counts.total >= 2 ==> a in TopCorrelated(groups)
  {
    var ranked := Sort(groups, HigherScore);
    var eligible := AtLeastTwo(ranked);
    ScoreIsPreorder();
    SortSorts(groups, HigherScore);
    SortElements(groups, HigherScore);
    AtLeastTwoFacts(ranked);
    CutAtTop(ranked, Min(TOP, |ranked|));
    CutAtTop(eligible, Min(TOP, |eligible|));
  }

  /** The severity a group is counted under. */
  function Dominant(r: Group): Severity
  {
    if r.counts.critical > 0 then Critical
    else if r.counts.high > 0 then High
    else if r.counts.medium > 0 then Medium
    else if r.counts.low > 0 then Low
    else Unknown
  }

  function DominatedBy(column: Column): Group -> int
  {
    (r: Group) => if column == Total || column == Of(Dominant(r)) then 1 else 0
  }

  datatype Summary = Summary(raw: Counts, fixTotals: Counts, findingTotals: Counts,
                             fixGroups: seq<Group>, applications: seq<Group>, correlations: seq<Group>,
                             topFixGroups: seq<Group>, topApplications: seq<Group>, topCorrelated: seq<Group>)

  /** Adding up a column of all fix groups, as the source does at the end. */
  method AddUp(groups: seq<Group>) returns (totals: Counts)
    ensures forall column :: Cell(totals, column) == Sum(groups, GroupCell(column))
  {
    totals := NOTHING;
    for i := 0 to |groups|
      invariant forall column :: Cell(totals, column) == Sum(groups[..i], GroupCell(column))
    {
      var c := groups[i].counts;
      assert groups[..i + 1][..i] == groups[..i];
      totals := Counts(totals.critical + c.critical, totals.high + c.high, totals.medium + c.medium,
                       totals.low + c.low, totals.unknown + c.unknown, totals.total + c.total);
    }
    assert groups[..|groups|] == groups;
  }

  method CountDominant(groups: seq<Group>) returns (totals: Counts)
    ensures forall column :: Cell(totals, column) == Sum(groups, DominatedBy(column))
  {
    totals := NOTHING;
    for i := 0 to |groups|
      invariant forall column :: Cell(totals, column) == Sum(groups[..i], DominatedBy(column))
    {
      assert groups[..i + 1][..i] == groups[..i];
      totals := Count(totals, Dominant(groups[i]));
    }
    assert groups[..|groups|] == groups;
  }

  method Prioritize(issues: seq<Issue>) returns (s: Summary)
    ensures forall column :: Cell(s.raw, column) == Sum(issues, Weight(column))
    ensures GroupsAll(s.fixGroups, issues, ByFixGroup)
    ensures GroupsAll(s.applications, issues, ByApplication)
    ensures GroupsAll(s.correlations, issues, ByCorrelation)
    ensures s.findingTotals == s.raw
    ensures forall column :: Cell(s.fixTotals, column) == Sum(s.fixGroups, DominatedBy(column))
    ensures s.topFixGroups == TopOf(s.fixGroups) && s.topApplications == TopOf(s.applications)
    ensures s.topCorrelated == TopCorrelated(s.correlations)
  {
    var raw := NOTHING;
    var fixGroups: seq<Group> := [];
    var applications: seq<Group> := [];
    var correlations: seq<Group> := [];
    for i := 0 to |issues|
      invariant forall column :: Cell(raw, column) == Sum(issues[..i], Weight(column))
      invariant GroupsAll(fixGroups, issues[..i], ByFixGroup)
      invariant GroupsAll(applications, issues[..i], ByApplication)
      invariant GroupsAll(correlations, issues[..i], ByCorrelation)
    {
      var issue := issues[i];
      assert issues[..i + 1] == issues[..i] + [issue];
      RawStep(raw, issues[..i], issue);
      raw := Count(raw, issue.severity);
      applications := AddTo(applications, issue, ByApplication, issues[..i]);
      fixGroups := AddTo(fixGroups, issue, ByFixGroup, issues[..i]);
      correlations := AddTo(correlations, issue, ByCorrelation, issues[..i]);
    }
    assert issues[..|issues|] == issues;
    var fixTotals := CountDominant(fixGroups);
    var findingTotals := AddUp(fixGroups);
    SameTotals(raw, findingTotals, fixGroups, issues);
    s := Summary(raw, fixTotals, findingTotals, fixGroups, applications, correlations,
                 TopOf(fixGroups), TopOf(applications), TopCorrelated(correlations));
  }

  lemma RawStep(raw: Counts, issues: seq<Issue>, issue: Issue)
    requires forall column :: Cell(raw, column) == Sum(issues, Weight(column))
    ensures forall column :: Cell(Count(raw, issue.severity), column) == Sum(issues + [issue], Weight(column))
  {
    forall column ensures Cell(Count(raw, issue.severity), column) == Sum(issues + [issue], Weight(column)) {
      SumOne(issues, issue, Weight(column));
      CountAdds(raw, issue, column);
    }
  }

  lemma SameTotals(raw: Counts, totals: Counts, groups: seq<Group>, issues: seq<Issue>)
    requires GroupsAll(groups, issues, ByFixGroup)
    requires forall column :: Cell(raw, column) == Sum(issues, Weight(column))
    requires forall column :: Cell(totals, column) == Sum(groups, GroupCell(column))
    ensures raw == totals
  {
    forall column ensures Cell(raw, column) == Cell(totals, column) {
      GroupsConserve(groups, issues, ByFixGroup, column);
    }
    assert Cell(raw, Of(Critical)) == Cell(totals, Of(Critical)) && Cell(raw, Of(High)) == Cell(totals, Of(High));
    assert Cell(raw, Of(Medium)) == Cell(totals, Of(Medium)) && Cell(raw, Of(Low)) == Cell(totals, Of(Low));
    assert Cell(raw, Of(Unknown)) == Cell(totals, Of(Unknown)) && Cell(raw, Total) == Cell(totals, Total);
  }

  // ---------------------------------------------------------------- the whole run

  /** Per severity and in total, the three groupings all add up to the raw counts; and each
      fix group is counted once, under its dominant severity. */
  lemma RunConserves(issues: seq<Issue>, s: Summary)
    requires forall column :: Cell(s.raw, column) == Sum(issues, Weight(column))
    requires GroupsAll(s.fixGroups, issues, ByFixGroup) && GroupsAll(s.applications, issues, ByApplication)
    requires GroupsAll(s.correlations, issues, ByCorrelation)
    requires forall column :: Cell(s.fixTotals, column) == Sum(s.fixGroups, DominatedBy(column))
    ensures forall column ::
              Sum(s.applications, GroupCell(column)) == Sum(s.fixGroups, GroupCell(column))
              == Sum(s.correlations, GroupCell(column)) == Cell(s.raw, column)
    ensures s.raw.total == |issues| == s.raw.critical + s.raw.high + s.raw.medium + s.raw.low + s.raw.unknown
    ensures s.fixTotals.total == |s.fixGroups|
            == s.fixTotals.critical + s.fixTotals.high + s.fixTotals.medium + s.fixTotals.low + s.fixTotals.unknown
  {
    forall column
      ensures Sum(s.applications, GroupCell(column)) == Sum(s.fixGroups, GroupCell(column))
              == Sum(s.correlations, GroupCell(column)) == Cell(s.raw, column)
    {
      GroupsConserve(s.applications, issues, ByApplication, column);
      GroupsConserve(s.fixGroups, issues, ByFixGroup, column);
      GroupsConserve(s.correlations, issues, ByCorrelation, column);
    }
    TotalIsLength(issues);
    SeveritiesAddUp(issues);
    assert Cell(s.raw, Total) == s.raw.total;
    assert Cell(s.raw, Of(Critical)) == s.raw.critical && Cell(s.raw, Of(High)) == s.raw.high
        && Cell(s.raw, Of(Medium)) == s.raw.medium;
    assert Cell(s.raw, Of(Low)) == s.raw.low && Cell(s.raw, Of(Unknown)) == s.raw.unknown;
    DominantsAddUp(s.fixGroups);
    assert Cell(s.fixTotals, Total) == s.fixTotals.total;
    assert Cell(s.fixTotals, Of(Critical)) == s.fixTotals.critical && Cell(s.fixTotals, Of(High)) == s.fixTotals.high;
    assert Cell(s.fixTotals, Of(Medium)) == s.fixTotals.medium && Cell(s.fixTotals, Of(Low)) == s.fixTotals.low;
    assert Cell(s.fixTotals, Of(Unknown)) == s.fixTotals.unknown;
  }

  lemma {:induction false} SeveritiesAddUp(issues: seq<Issue>)
    ensures |issues| == Sum(issues, Weight(Of(Critical))) + Sum(issues, Weight(Of(High)))
                        + Sum(issues, Weight(Of(Medium))) + Sum(issues, Weight(Of(Low)))
                        + Sum(issues, Weight(Of(Unknown)))
    decreases |issues|
  {
    if issues != [] {
      var last := issues[|issues| - 1];
      SeveritiesAddUp(issues[..|issues| - 1]);
      match last.severity { case Critical => case High => case Medium => case Low => case Unknown => }
    }
  }

  lemma {:induction false} DominantsAddUp(groups: seq<Group>)
    ensures |groups| == Sum(groups, DominatedBy(Total))
    ensures |groups| == Sum(groups, DominatedBy(Of(Critical))) + Sum(groups, DominatedBy(Of(High)))
                        + Sum(groups, DominatedBy(Of(Medium))) + Sum(groups, DominatedBy(Of(Low)))
                        + Sum(groups, DominatedBy(Of(Unknown)))
    decreases |groups|
  {
    if groups != [] {
      DominantsAddUp(groups[..|groups| - 1]);
    }
  }

  // ---------------------------------------------------------------- scores, severities and keys

  /** What one issue adds to the score of its group. */
  function Risk(): Issue -> int
  {
    (i: Issue) =>
      match i.severity
      case Critical => 5
      case High => 3
      case Medium => 2
      case Low => 1
      case Unknown => 0
  }

  lemma {:induction false} RiskAddsUp(issues: seq<Issue>, g: Grouping, key: string)
    ensures Sum(issues, Member(Keyed(g), Risk(), key))
              == 5 * Sum(issues, Member(Keyed(g), Weight(Of(Critical)), key))
                 + 3 * Sum(issues, Member(Keyed(g), Weight(Of(High)), key))
                 + 2 * Sum(issues, Member(Keyed(g), Weight(Of(Medium)), key))
                 + Sum(issues, Member(Keyed(g), Weight(Of(Low)), key))
    decreases |issues|
  {
    if issues != [] {
      RiskAddsUp(issues[..|issues| - 1], g, key);
      match issues[|issues| - 1].severity { case Critical => case High => case Medium => case Low => case Unknown => }
    }
  }

  /** The score of a group is the risk of its issues: five for a critical one, three for a high,
      two for a medium, one for a low. */
  lemma ScoreIsRisk(r: Group, issues: seq<Issue>, g: Grouping)
    requires RowExact(r, issues, g)
    ensures Score(r) == Sum(issues, Member(Keyed(g), Risk(), r.key))
  {
    RiskAddsUp(issues, g, r.key);
    assert Cell(r.counts, Of(Critical)) == r.counts.critical && Cell(r.counts, Of(High)) == r.counts.high;
    assert Cell(r.counts, Of(Medium)) == r.counts.medium && Cell(r.counts, Of(Low)) == r.counts.low;
  }

  lemma {:induction false} SomeOfSeverity(issues: seq<Issue>, g: Grouping, key: string, s: Severity)
    ensures Sum(issues, Member(Keyed(g), Weight(Of(s)), key)) >= 0
    ensures Sum(issues, Member(Keyed(g), Weight(Of(s)), key)) > 0 <==>
              exists i :: i in issues && KeyOf(g, i) == key && i.severity == s
    decreases |issues|
  {
    if issues != [] {
      var n := |issues| - 1;
      SomeOfSeverity(issues[..n], g, key, s);
      assert issues == issues[..n] + [issues[n]];
    }
  }

  function Rank(s: Severity): nat
  {
    match s
    case Critical => 4
    case High => 3
    case Medium => 2
    case Low => 1
    case Unknown => 0
  }

  /** A fix group counts once, under the worst severity among its issues. */
  lemma DominantIsWorst(r: Group, issues: seq<Issue>, g: Grouping, i: Issue)
    requires RowExact(r, issues, g) && i in issues && KeyOf(g, i) == r.key
    ensures Rank(i.severity) <= Rank(Dominant(r))
    ensures exists j :: j in issues && KeyOf(g, j) == r.key && j.severity == Dominant(r)
  {
    SomeOfSeverity(issues, g, r.key, Critical);
    SomeOfSeverity(issues, g, r.key, High);
    SomeOfSeverity(issues, g, r.key, Medium);
    SomeOfSeverity(issues, g, r.key, Low);
    assert Cell(r.counts, Of(Critical)) == r.counts.critical && Cell(r.counts, Of(High)) == r.counts.high;
    assert Cell(r.counts, Of(Medium)) == r.counts.medium && Cell(r.counts, Of(Low)) == r.counts.low;
    if Dominant(r) == Unknown {
      assert i.severity == Unknown;
    }
  }

  /** The name of an issue's fix group. */
  function FixName(i: Issue): string
  {
    if i.fixGroupName != "" then i.fixGroupName else "Unassigned"
  }

  /** Which issues share a row: by application, those of one id or of none; by correlation, those
      of one correlation key, the fix group's name standing in for a missing one. */
  lemma SharedRows(i: Issue, j: Issue)
    ensures i.applicationId != "" && j.applicationId != "" ==>
              (KeyOf(ByApplication, i) == KeyOf(ByApplication, j) <==> i.applicationId == j.applicationId)
    ensures i.applicationId == "" ==>
              (KeyOf(ByApplication, i) == KeyOf(ByApplication, j) <==> j.applicationId in {"", "unknown"})
    ensures i.correlationKey != "" && j.correlationKey != "" ==>
              (KeyOf(ByCorrelation, i) == KeyOf(ByCorrelation, j) <==> i.correlationKey == j.correlationKey)
    ensures i.correlationKey == "" && j.correlationKey == "" ==>
              (KeyOf(ByCorrelation, i) == KeyOf(ByCorrelation, j) <==> FixName(i) == FixName(j))
    ensures i.correlationKey != "" && j.correlationKey == "" ==>
              (KeyOf(ByCorrelation, i) == KeyOf(ByCorrelation, j) <==> i.correlationKey == FixName(j))
  {
  }

  function FixId(i: Issue): string
  {
    if i.fixGroupId != "" then i.fixGroupId else "unassigned"
  }

  /** A row names the applications of its issues: by name, or else by id, or else as unknown. */
  lemma ApplicationsNamed(r: Group, issues: seq<Issue>, g: Grouping, name: string)
    requires RowExact(r, issues, g)
    ensures name in r.applications <==>
              exists i :: i in issues && KeyOf(g, i) == r.key
                && name == if i.applicationName != "" then i.applicationName
                           else if i.applicationId != "" then i.applicationId else "unknown"
  {
  }

  /** A row by fix group is found by id and name with a colon between them, so an issue shares its
      row with its own fix group alone, whatever the other issues are, if and only if that text has
      no other colon with something before and after it. */
  lemma FixGroupApartExactly(i: Issue)
    ensures (forall j :: KeyOf(ByFixGroup, j) == KeyOf(ByFixGroup, i) ==>
                           FixId(j) == FixId(i) && FixName(j) == FixName(i))
              <==> forall k :: 0 < k < |KeyOf(ByFixGroup, i)| - 1 && KeyOf(ByFixGroup, i)[k] == ':' ==> k == |FixId(i)|
  {
    var key := KeyOf(ByFixGroup, i);
    assert key == FixId(i) + ":" + FixName(i);
    forall k | 0 < k < |key| - 1 && key[k] == ':'
      ensures var j := i.(fixGroupId := key[..k], fixGroupName := key[k + 1..]);
              KeyOf(ByFixGroup, j) == key && FixId(j) == key[..k]
    {
      assert key == key[..k] + ":" + key[k + 1..];
    }
    forall j | KeyOf(ByFixGroup, j) == key
      ensures 0 < |FixId(j)| < |key| - 1 && key[|FixId(j)|] == ':'
      ensures |FixId(j)| == |FixId(i)| ==> FixId(j) == FixId(i) && FixName(j) == FixName(i)
    {
      assert key == FixId(j) + ":" + FixName(j);
      assert FixId(j) == key[..|FixId(j)|] && FixName(j) == key[|FixId(j)| + 1..];
    }
  }
}
