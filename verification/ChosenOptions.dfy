/** How the routes read the filter values a user has chosen, and what choosing an offered
    vulnerability returns in the end. */
module ChosenOptions {
  import opened Counting
  import opened Domain
  import opened FilterOptions
  import opened Sorting
  import opened Technology
  import opened Text
  import opened Wrappers

  /** `value.split(",")`. */
  function Split(s: string): (r: seq<string>)
    ensures r != []
  {
    if s == "" then [""]
    else
      var rest := Split(s[1..]);
      if s[0] == ',' then [""] + rest else [[s[0]] + rest[0]] + rest[1..]
  }

  /** The stripped, non-empty pieces of the values. */
  function Pieces(values: seq<string>): set<string>
  {
    set v, t | v in values && t in Split(v) && Trim(t) != "" :: Trim(t)
  }

  /** The pieces in lower case: what the vulnerability filter is given. */
  function Chosen(values: seq<string>): set<string>
  {
    set v, t | v in values && t in Split(v) && Trim(t) != "" :: Fold(t)
  }

  // ---------------------------------------------------------------- the loops

  function Elements(s: seq<string>): set<string>
  {
    set x | x in s
  }

  /** The stripped, non-empty tokens. */
  function Stripped(tokens: seq<string>): set<string>
  {
    set t | t in tokens && Trim(t) != "" :: Trim(t)
  }

  function FoldedOf(tokens: seq<string>): set<string>
  {
    set t | t in tokens && Fold(t) != "" :: Fold(t)
  }

  lemma OneMore(s: seq<string>, x: string)
    ensures Elements(s + [x]) == Elements(s) + {x}
    ensures Stripped(s + [x]) == Stripped(s) + if Trim(x) != "" then {Trim(x)} else {}
    ensures FoldedOf(s + [x]) == FoldedOf(s) + if Fold(x) != "" then {Fold(x)} else {}
  {
    assert forall y :: y in s + [x] <==> y in s || y == x;
  }

  /** One pass of a loop: the item joins the list if it is not blank and not there yet. */
  function Joined(list: seq<string>, item: string): seq<string>
  {
    if item != "" && item !in list then list + [item] else list
  }

  lemma JoinedElements(list: seq<string>, item: string)
    requires NoDuplicates(list)
    ensures NoDuplicates(Joined(list, item))
    ensures Elements(Joined(list, item)) == Elements(list) + if item != "" then {item} else {}
  {
    OneMore(list, item);
  }

  /** `_normalize_id_list`: each piece once, where it first occurs. */
  method NormalizeIds(values: seq<string>) returns (ids: seq<string>)
    ensures NoDuplicates(ids) && Elements(ids) == Pieces(values)
  {
    ids := [];
    for i := 0 to |values|
      invariant NoDuplicates(ids) && Elements(ids) == Pieces(values[..i])
    {
      var tokens := Split(values[i]);
      for j := 0 to |tokens|
        invariant NoDuplicates(ids) && Elements(ids) == Pieces(values[..i]) + Stripped(tokens[..j])
      {
        assert tokens[..j + 1] == tokens[..j] + [tokens[j]];
        OneMore(tokens[..j], tokens[j]);
        JoinedElements(ids, Trim(tokens[j]));
        ids := Joined(ids, Trim(tokens[j]));
      }
      assert tokens[..|tokens|] == tokens;
      PiecesGrow(values, i);
    }
    assert values[..|values|] == values;
  }

  lemma PiecesGrow(values: seq<string>, i: nat)
    requires i < |values|
    ensures Pieces(values[..i + 1]) == Pieces(values[..i]) + Stripped(Split(values[i]))
  {
    assert values[..i + 1] == values[..i] + [values[i]];
  }

  /** `_normalize_vulnerability_list`: the same in lower case. */
  method NormalizeVulnerabilities(values: seq<string>) returns (keys: seq<string>)
    ensures NoDuplicates(keys) && Elements(keys) == Chosen(values)
    ensures VulnSet(keys) == Chosen(values)
  {
    var raw := NormalizeIds(values);
    keys := [];
    for i := 0 to |raw|
      invariant NoDuplicates(keys) && Elements(keys) == FoldedOf(raw[..i])
    {
      assert raw[..i + 1] == raw[..i] + [raw[i]];
      OneMore(raw[..i], raw[i]);
      JoinedElements(keys, Fold(raw[i]));
      keys := Joined(keys, Fold(raw[i]));
    }
    assert raw[..|raw|] == raw;
    FoldedPieces(values, raw);
    FoldedOnce(values, keys);
  }

  lemma FoldedPieces(values: seq<string>, raw: seq<string>)
    requires Elements(raw) == Pieces(values)
    ensures FoldedOf(raw) == Chosen(values)
  {
    forall t: string ensures Fold(Trim(t)) == Fold(t) {
      TrimIsTrimmed(t);
      TrimIsTrimmed(Trim(t));
    }
    assert forall x :: x in raw <==> x in Elements(raw);
    forall v, t | v in values && t in Split(v) && Trim(t) != "" ensures Trim(t) in raw {
      assert Trim(t) in Pieces(values);
    }
  }

  lemma FoldedOnce(values: seq<string>, keys: seq<string>)
    requires Elements(keys) == Chosen(values)
    ensures VulnSet(keys) == Chosen(values)
  {
    assert forall x :: x in keys <==> x in Elements(keys);
    forall x | x in Chosen(values) ensures Fold(x) == x && Trim(x) == x && x != "" {
      var v, t :| v in values && t in Split(v) && Trim(t) != "" && x == Fold(t);
      FoldIdempotent(t);
    }
  }

  // ---------------------------------------------------------------- commas

  function WithCommas(pieces: seq<string>): string
    requires pieces != []
  {
    pieces[0] + if |pieces| == 1 then "" else [','] + WithCommas(pieces[1..])
  }

  lemma {:induction false} PiecesHaveNoComma(s: string)
    ensures forall t :: t in Split(s) ==> ',' !in t
    ensures ',' !in s ==> Split(s) == [s]
    decreases |s|
  {
    if s != "" {
      PiecesHaveNoComma(s[1..]);
      var rest := Split(s[1..]);
      assert rest[0] in rest;
      if ',' !in s {
        assert ',' !in s[1..];
        assert [s[0]] + s[1..] == s;
      }
    }
  }

  lemma FirstAndMore(first: string, more: seq<string>)
    ensures WithCommas([first] + more) == first + if more == [] then "" else [','] + WithCommas(more)
  {
    assert ([first] + more)[1..] == more;
  }

  lemma FirstGrows(c: char, first: string, more: seq<string>)
    ensures WithCommas([[c] + first] + more) == [c] + WithCommas([first] + more)
  {
    FirstAndMore(first, more);
    FirstAndMore([c] + first, more);
    var tail := if more == [] then "" else [','] + WithCommas(more);
    assert ([c] + first) + tail == [c] + (first + tail);
  }

  /** Splitting takes the text apart at every comma and loses nothing of it: no piece has a comma,
      and joined by commas the pieces are the text again. */
  lemma {:induction false} SplitsAtCommas(s: string)
    ensures forall t :: t in Split(s) ==> ',' !in t
    ensures WithCommas(Split(s)) == s
    decreases |s|
  {
    PiecesHaveNoComma(s);
    if s != "" {
      SplitsAtCommas(s[1..]);
      var rest := Split(s[1..]);
      FirstAndMore("", rest);
      FirstGrows(s[0], rest[0], rest[1..]);
      assert rest == [rest[0]] + rest[1..] && s == [s[0]] + s[1..];
    }
  }

  lemma {:induction false} TrimLeftKeeps(s: string)
    ensures forall c :: c in TrimLeft(s) ==> c in s
    decreases |s|
  {
    if s != "" && IsSpace(s[0]) {
      TrimLeftKeeps(s[1..]);
    }
  }

  lemma {:induction false} TrimRightKeeps(s: string)
    ensures forall c :: c in TrimRight(s) ==> c in s
    decreases |s|
  {
    if s != "" && IsSpace(s[|s| - 1]) {
      TrimRightKeeps(s[..|s| - 1]);
    }
  }

  lemma FoldMakesNoComma(s: string)
    requires ',' !in s
    ensures ',' !in Fold(s)
  {
    TrimLeftKeeps(s);
    TrimRightKeeps(TrimLeft(s));
  }

  lemma CommaIsLost(key: string)
    requires ',' in key
    ensures key !in Chosen([key])
  {
    PiecesHaveNoComma(key);
    forall t | t in Split(key) ensures Fold(t) != key {
      FoldMakesNoComma(t);
    }
  }

  /** The issues returned when the option with this key is chosen. */
  function Returned(issues: seq<Issue>, maps: Maps, key: string): seq<Issue>
  {
    Kept(issues, maps, {}, Chosen([key]))
  }

  function Sample(vulnerability: string): Issue
  {
    Issue("", Critical, UNKNOWN, "", "", "", "", vulnerability, "", "", "", None)
  }

  lemma KeptSample(issue: Issue, maps: Maps, vulns: set<string>)
    ensures Kept([issue], maps, {}, vulns) == if vulns != {} ==> VulnKey(issue) in vulns then [issue] else []
    ensures forall key :: Sum([issue], HasVuln(key)) == HasVuln(key)(issue)
  {
    assert [issue][..0] == [];
    assert Kept([], maps, {}, vulns) == [];
    forall key ensures Sum([issue], HasVuln(key)) == HasVuln(key)(issue) {
      SumOne([], issue, HasVuln(key));
      assert [] + [issue] == [issue];
    }
  }

  /** A list for which an option whose key holds a comma returns something else. */
  function Counterexample(key: string): seq<Issue>
  {
    if Chosen([key]) == {} then [Sample("")] else [Sample(key)]
  }

  lemma CommaMiscounts(key: string, maps: Maps)
    requires key != "" && Fold(key) == key && ',' in key
    ensures |Returned(Counterexample(key), maps, key)| != Sum(Counterexample(key), HasVuln(key))
  {
    CommaIsLost(key);
    KeptSample(Sample(""), maps, Chosen([key]));
    KeptSample(Sample(key), maps, Chosen([key]));
    TrimIsTrimmed("");
  }

  /** Choosing an offered vulnerability returns as many issues as the number beside it, for
      every list of issues, if and only if its key has no comma: the routes split the value
      there, and filter by the pieces, or not at all if there are none. */
  lemma ChosenReturnsItsCount(key: string, maps: Maps)
    requires key != "" && Fold(key) == key
    ensures (forall issues :: |Returned(issues, maps, key)| == Sum(issues, HasVuln(key))) <==> ',' !in key
  {
    if ',' in key {
      CommaMiscounts(key, maps);
    } else {
      PiecesHaveNoComma(key);
      assert Split(key)[0] == key;
      assert Chosen([key]) == {key};
      forall issues ensures |Returned(issues, maps, key)| == Sum(issues, HasVuln(key)) {
        VulnFilterSize(issues, maps, key);
      }
    }
  }
}
