/** Slash-separated relative paths and the ancestor directories of a path. */
module Paths {
  import opened Common
  import opened Text

  /** `_ancestor_prefixes`: the directories a path lies in, outermost first. */
  function AncestorPrefixes(path: string): (r: seq<string>)
    ensures |r| == |Split(path, '/')| - 1
  {
    var parts := Split(path, '/');
    seq(|parts| - 1, i requires 0 <= i < |parts| - 1 => Join(parts[..i + 1], '/'))
  }

  /** The same directories, said without splitting: what stands before a slash. */
  ghost predicate IsAncestorDir(dir: string, path: string) {
    |dir| < |path| && dir <= path && path[|dir|] == '/'
  }

  lemma AncestorStep(a: string, dir: string, rest: string)
    ensures IsAncestorDir(a + (['/'] + dir), a + (['/'] + rest)) <==> IsAncestorDir(dir, rest)
    ensures IsAncestorDir(a, a + (['/'] + rest))
  {
    var d, s := a + (['/'] + dir), a + (['/'] + rest);
    if IsAncestorDir(d, s) {
      assert dir == d[|a| + 1..] && rest == s[|a| + 1..];
    }
    if IsAncestorDir(dir, rest) {
      assert s[|d|] == rest[|dir|];
    }
  }

  lemma {:induction false} JoinedPrefixIsAncestor(s: string, k: nat)
    requires 0 < k < |Split(s, '/')|
    ensures IsAncestorDir(Join(Split(s, '/')[..k], '/'), s)
    decreases |s|
  {
    hide Split, IsAncestorDir, Join;
    HasSeparator(s, '/');
    var a, rest := SplitStep(s, '/');
    if k == 1 {
      assert ([a] + Split(rest, '/'))[..1] == [a];
      JoinOne(a, '/');
      AncestorStep(a, "", rest);
    } else {
      JoinedPrefixIsAncestor(rest, k - 1);
      AncestorStep(a, Join(Split(rest, '/')[..k - 1], '/'), rest);
      assert ([a] + Split(rest, '/'))[..k] == [a] + Split(rest, '/')[..k - 1];
      JoinStep(a, Split(rest, '/')[..k - 1], '/');
    }
  }

  lemma {:induction false} AncestorIsJoinedPrefix(dir: string, s: string) returns (k: nat)
    requires IsAncestorDir(dir, s)
    ensures 0 < k < |Split(s, '/')| && dir == Join(Split(s, '/')[..k], '/')
    decreases |s|
  {
    assert s[|dir|] in s;
    var a, rest := SplitStep(s, '/');
    hide Split;
    if |dir| <= |a| {
      k := 1;
      assert dir == a by { SameSlash(dir, a, rest); }
      assert ([a] + Split(rest, '/'))[..1] == [a];
    } else {
      var d := TailOf(dir, a, rest);
      AncestorStep(a, d, rest);
      hide IsAncestorDir;
      var j := AncestorIsJoinedPrefix(d, rest);
      k := j + 1;
      assert ([a] + Split(rest, '/'))[..k] == [a] + Split(rest, '/')[..j];
      JoinStep(a, Split(rest, '/')[..j], '/');
    }
  }

  lemma SameSlash(dir: string, a: string, rest: string)
    requires IsAncestorDir(dir, a + (['/'] + rest)) && |dir| <= |a| && '/' !in a
    ensures dir == a
  {
    var s := a + (['/'] + rest);
    assert forall i :: 0 <= i < |a| ==> s[i] == a[i];
    assert dir == s[..|dir|];
  }

  lemma TailOf(dir: string, a: string, rest: string) returns (d: string)
    requires IsAncestorDir(dir, a + (['/'] + rest)) && |dir| > |a|
    ensures dir == a + (['/'] + d)
  {
    d := dir[|a| + 1..];
    var s := a + (['/'] + rest);
    assert dir == s[..|dir|];
  }

  /** `_ancestor_prefixes` lists exactly the ancestor directories. */
  lemma AncestorPrefixesExact(path: string, dir: string)
    ensures dir in AncestorPrefixes(path) <==> IsAncestorDir(dir, path)
  {
    var parts := Split(path, '/');
    if dir in AncestorPrefixes(path) {
      var i :| 0 <= i < |parts| - 1 && AncestorPrefixes(path)[i] == dir;
      JoinedPrefixIsAncestor(path, i + 1);
    }
    if IsAncestorDir(dir, path) {
      var k := AncestorIsJoinedPrefix(dir, path);
      assert AncestorPrefixes(path)[k - 1] == dir;
    }
  }
}
