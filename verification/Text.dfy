/** Strings as the backend handles them: bytewise order, ASCII lower-casing,
    stripping of white space and substring tests. */
module Text {

  /** Bytewise (lexicographic) comparison, as Python compares strings and PostgreSQL does under
      the C collation. */
  predicate StrLe(a: string, b: string)
  {
    a == "" ||
    (b != "" && (a[0] < b[0] || (a[0] == b[0] && StrLe(a[1..], b[1..]))))
  }

  lemma {:induction false} StrLeTotal(a: string, b: string)
    ensures StrLe(a, b) || StrLe(b, a)
    ensures StrLe(a, b) && StrLe(b, a) ==> a == b
    decreases |a|
  {
    if a != "" && b != "" && a[0] == b[0] {
      StrLeTotal(a[1..], b[1..]);
      assert a == [a[0]] + a[1..] && b == [b[0]] + b[1..];
    }
  }

  lemma {:induction false} StrLeTransitive(a: string, b: string, c: string)
    requires StrLe(a, b) && StrLe(b, c)
    ensures StrLe(a, c)
    decreases |a|
  {
    if a != "" && a[0] == b[0] && b[0] == c[0] {
      StrLeTransitive(a[1..], b[1..], c[1..]);
    }
  }

  /** Equal-length heads decide; equal heads leave the decision to the tails. */
  lemma {:induction false} StrLeHead(p: string, q: string, s: string, t: string)
    requires |p| == |q|
    ensures p == q ==> (StrLe(p + s, q + t) <==> StrLe(s, t))
    ensures p != q ==> (StrLe(p + s, q + t) <==> StrLe(p, q))
    decreases |p|
  {
    if p == "" {
      assert p + s == s && q + t == t;
    } else {
      assert (p + s)[1..] == p[1..] + s && (q + t)[1..] == q[1..] + t;
      assert p == [p[0]] + p[1..] && q == [q[0]] + q[1..];
      StrLeHead(p[1..], q[1..], s, t);
    }
  }

  function LowerChar(c: char): (r: char)
    ensures 'A' <= c <= 'Z' <==> r != c
    ensures !('A' <= r <= 'Z')
  {
    if 'A' <= c <= 'Z' then (c as int + 32) as char else c
  }

  function Lower(s: string): (r: string)
    ensures |r| == |s|
    ensures forall i :: 0 <= i < |s| ==> r[i] == LowerChar(s[i])
  {
    seq(|s|, i requires 0 <= i < |s| => LowerChar(s[i]))
  }

  function UpperChar(c: char): char
  {
    if 'a' <= c <= 'z' then (c as int - 32) as char else c
  }

  function Upper(s: string): (r: string)
    ensures |r| == |s|
  {
    seq(|s|, i requires 0 <= i < |s| => UpperChar(s[i]))
  }

  predicate IsSpace(c: char)
  {
    c == ' ' || c == '\t' || c == '\n' || c == '\r'
  }

  function TrimLeft(s: string): string
  {
    if s != "" && IsSpace(s[0]) then TrimLeft(s[1..]) else s
  }

  function TrimRight(s: string): string
  {
    if s != "" && IsSpace(s[|s| - 1]) then TrimRight(s[..|s| - 1]) else s
  }

  function Trim(s: string): string
  {
    TrimRight(TrimLeft(s))
  }

  predicate Trimmed(s: string)
  {
    s != "" ==> !IsSpace(s[0]) && !IsSpace(s[|s| - 1])
  }

  lemma {:induction false} TrimLeftStart(s: string)
    ensures TrimLeft(s) != "" ==> !IsSpace(TrimLeft(s)[0])
    decreases |s|
  {
    if s != "" && IsSpace(s[0]) {
      TrimLeftStart(s[1..]);
    }
  }

  lemma {:induction false} TrimRightEnds(s: string)
    requires s != "" ==> !IsSpace(s[0])
    ensures Trimmed(TrimRight(s))
    decreases |s|
  {
    if s != "" && IsSpace(s[|s| - 1]) {
      TrimRightEnds(s[..|s| - 1]);
    }
  }

  /** Stripping yields stripped text and leaves stripped text alone. */
  lemma TrimIsTrimmed(s: string)
    ensures Trimmed(Trim(s))
    ensures Trimmed(s) ==> Trim(s) == s
  {
    TrimLeftStart(s);
    TrimRightEnds(TrimLeft(s));
  }

  lemma LowerIdempotent(s: string)
    ensures Lower(Lower(s)) == Lower(s)
    ensures Trimmed(s) ==> Trimmed(Lower(s))
  {
  }

  /** The comparison key of a free-text filter value: stripped and lower-cased. */
  function Fold(s: string): string
  {
    Lower(Trim(s))
  }

  /** A key sent back as a filter value is its own key. */
  lemma FoldIdempotent(s: string)
    ensures Fold(Fold(s)) == Fold(s)
    ensures Trim(Fold(s)) == Fold(s)
  {
    TrimIsTrimmed(s);
    LowerIdempotent(Trim(s));
    TrimIsTrimmed(Fold(s));
  }

  /** Python's `needle in hay`. */
  predicate Contains(hay: string, needle: string)
  {
    needle <= hay || (hay != "" && Contains(hay[1..], needle))
  }

  lemma {:induction false} ContainsLength(hay: string, needle: string)
    requires Contains(hay, needle)
    ensures |needle| <= |hay|
    ensures |needle| == |hay| ==> needle == hay
    decreases |hay|
  {
    if !(needle <= hay) {
      ContainsLength(hay[1..], needle);
    }
  }

  /** The letters of the alphabet in either case, and the other case of each. */
  lemma Letters()
    ensures Lower("ABCDEFGHIJKLMNOPQRSTUVWXYZ") == "abcdefghijklmnopqrstuvwxyz"
    ensures Upper("abcdefghijklmnopqrstuvwxyz") == "ABCDEFGHIJKLMNOPQRSTUVWXYZ"
  {
    assert forall i {:trigger "abcdefghijklmnopqrstuvwxyz"[i]} :: 0 <= i < 26 ==>
             LowerChar("ABCDEFGHIJKLMNOPQRSTUVWXYZ"[i]) == "abcdefghijklmnopqrstuvwxyz"[i]
             && UpperChar("abcdefghijklmnopqrstuvwxyz"[i]) == "ABCDEFGHIJKLMNOPQRSTUVWXYZ"[i];
  }

  predicate Blank(s: string)
  {
    forall c :: c in s ==> IsSpace(c)
  }

  lemma {:induction false} TrimLeftExact(s: string) returns (head: string)
    ensures Blank(head) && s == head + TrimLeft(s)
    decreases |s|
  {
    head := "";
    if s != "" && IsSpace(s[0]) {
      var rest := TrimLeftExact(s[1..]);
      head := [s[0]] + rest;
      assert s == [s[0]] + s[1..];
    }
  }

  lemma {:induction false} TrimRightExact(s: string) returns (tail: string)
    ensures Blank(tail) && s == TrimRight(s) + tail
    decreases |s|
  {
    tail := "";
    if s != "" && IsSpace(s[|s| - 1]) {
      var rest := TrimRightExact(s[..|s| - 1]);
      tail := rest + [s[|s| - 1]];
      assert s == s[..|s| - 1] + [s[|s| - 1]];
    }
  }

  /** Stripping takes white space off both ends and nothing else. */
  lemma TrimTakesSpace(s: string)
    ensures exists head, tail :: Blank(head) && Blank(tail) && s == head + Trim(s) + tail
    ensures Trimmed(Trim(s))
  {
    var head := TrimLeftExact(s);
    var tail := TrimRightExact(TrimLeft(s));
    assert s == head + Trim(s) + tail;
    TrimIsTrimmed(s);
  }

  predicate StandsAt(hay: string, needle: string, i: nat)
  {
    i + |needle| <= |hay| && hay[i..i + |needle|] == needle
  }

  lemma StandsLater(hay: string, needle: string, i: nat)
    requires hay != ""
    ensures StandsAt(hay[1..], needle, i) <==> StandsAt(hay, needle, i + 1)
  {
    if i + 1 + |needle| <= |hay| {
      assert hay[1..][i..i + |needle|] == hay[i + 1..i + 1 + |needle|];
    }
  }

  /** The needle is somewhere in the text. */
  lemma {:induction false} ContainsExactly(hay: string, needle: string)
    ensures Contains(hay, needle) <==> exists i :: StandsAt(hay, needle, i)
    decreases |hay|
  {
    assert needle <= hay <==> StandsAt(hay, needle, 0);
    if hay != "" {
      ContainsExactly(hay[1..], needle);
      forall i: nat ensures StandsAt(hay[1..], needle, i) <==> StandsAt(hay, needle, i + 1) {
        StandsLater(hay, needle, i);
      }
      if i: nat :| i > 0 && StandsAt(hay, needle, i) {
        assert StandsAt(hay[1..], needle, i - 1);
      }
    }
  }
}
