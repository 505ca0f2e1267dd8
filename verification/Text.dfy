/** Searching, splitting and joining strings at one character. */
module Text {
  import opened Common

  /** Position of the first c, or the length. */
  function IndexOfChar(s: string, c: char): (k: nat)
    ensures k <= |s| && c !in s[..k] && (k < |s| ==> s[k] == c)
  {
    if s == "" || s[0] == c then 0
    else
      var k := IndexOfChar(s[1..], c);
      assert s[..k + 1] == [s[0]] + s[1..][..k];
      k + 1
  }

  lemma {:induction false} IndexOfCharIs(s: string, c: char, k: nat)
    requires k <= |s| && c !in s[..k] && (k < |s| ==> s[k] == c)
    ensures IndexOfChar(s, c) == k
  {
    if k > 0 {
      assert s[..k][0] == s[0] && s[..k][1..] == s[1..][..k - 1];
      IndexOfCharIs(s[1..], c, k - 1);
    }
  }

  /** `s.split(c)`. */
  function Split(s: string, c: char): (parts: seq<string>)
    ensures |parts| > 0
    decreases |s|
  {
    var k := IndexOfChar(s, c);
    if k == |s| then [s] else [s[..k]] + Split(s[k + 1..], c)
  }

  /** `c.join(parts)`. */
  function Join(parts: seq<string>, c: char): string {
    if parts == [] then ""
    else if |parts| == 1 then parts[0]
    else parts[0] + ([c] + Join(parts[1..], c))
  }

  lemma SplitStep(s: string, c: char) returns (a: string, rest: string)
    requires c in s
    ensures s == a + ([c] + rest) && c !in a && Split(s, c) == [a] + Split(rest, c)
  {
    var k := IndexOfChar(s, c);
    assert s[..|s|] == s;
    a, rest := s[..k], s[k + 1..];
  }

  lemma SplitNone(s: string, c: char)
    requires c !in s
    ensures Split(s, c) == [s]
  {
    assert s[..|s|] == s;
    IndexOfCharIs(s, c, |s|);
  }

  lemma SplitFirst(a: string, rest: string, c: char)
    requires c !in a
    ensures Split(a + ([c] + rest), c) == [a] + Split(rest, c)
  {
    var s := a + ([c] + rest);
    assert s[..|a|] == a && s[|a| + 1..] == rest;
    IndexOfCharIs(s, c, |a|);
  }

  lemma HasSeparator(s: string, c: char)
    requires |Split(s, c)| > 1
    ensures c in s
  {
    assert s[IndexOfChar(s, c)] in s;
  }

  lemma JoinOne(a: string, c: char)
    ensures Join([a], c) == a
  {}

  lemma JoinStep(a: string, parts: seq<string>, c: char)
    requires parts != []
    ensures Join([a] + parts, c) == a + ([c] + Join(parts, c))
  {
    assert ([a] + parts)[1..] == parts;
  }

  /** Joining parts without the separator and splitting gives the parts back. */
  lemma {:induction false} SplitJoin(parts: seq<string>, c: char)
    requires parts != [] && forall i :: 0 <= i < |parts| ==> c !in parts[i]
    ensures Split(Join(parts, c), c) == parts
    decreases |parts|
  {
    hide Split, Join;
    if |parts| == 1 {
      assert parts == [parts[0]];
      JoinOne(parts[0], c);
      SplitNone(parts[0], c);
    } else {
      SplitJoin(parts[1..], c);
      assert parts == [parts[0]] + parts[1..];
      JoinStep(parts[0], parts[1..], c);
      SplitFirst(parts[0], Join(parts[1..], c), c);
    }
  }

  /** Splitting and joining gives the string back. */
  lemma {:induction false} JoinSplit(s: string, c: char)
    ensures Join(Split(s, c), c) == s
    decreases |s|
  {
    hide Split, Join;
    if c in s {
      var a, rest := SplitStep(s, c);
      JoinSplit(rest, c);
      JoinStep(a, Split(rest, c), c);
    } else {
      SplitNone(s, c);
      JoinOne(s, c);
    }
  }

  lemma {:induction false} SplitHasNoSeparator(s: string, c: char, i: nat)
    requires i < |Split(s, c)|
    ensures c !in Split(s, c)[i]
    decreases |s|
  {
    if c in s {
      var a, rest := SplitStep(s, c);
      if i > 0 {
        SplitHasNoSeparator(rest, c, i - 1);
      }
    } else {
      SplitNone(s, c);
    }
  }
}
