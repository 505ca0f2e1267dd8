/** One-pass validation of a merged file set: `_validate_final_set` of collab_runtime/candidates.py. */
module FinalSet {
  import opened Common
  import opened StringOrder
  import opened Paths

  datatype Mode = Regular | Executable  // 100644, 100755

  datatype OutputFile = OutputFile(path: string, content: Bytes, mode: Mode)

  const MAX_BASELINE_FILES: nat := 5000
  const MAX_BASELINE_FILE: nat := 8 * 1024 * 1024
  const MAX_BASELINE_TOTAL: nat := 64 * 1024 * 1024

  datatype Verdict = Accepted | TooManyFiles | TooManyBytes | PrefixConflict | CaseCollision

  function PathsOf(files: seq<OutputFile>): (r: seq<string>)
    ensures |r| == |files| && forall i :: 0 <= i < |r| ==> r[i] == files[i].path
  {
    seq(|files|, i requires 0 <= i < |files| => files[i].path)
  }

  function TotalBytes(files: seq<OutputFile>): nat {
    if files == [] then 0 else TotalBytes(files[..|files| - 1]) + |Last(files).content|
  }

  /** x is a file of the set or a directory that one of its files lies in. */
  ghost predicate NamedIn(paths: seq<string>, x: string) {
    exists i :: 0 <= i < |paths| && (x == paths[i] || IsAncestorDir(x, paths[i]))
  }

  /** No file is also a directory. */
  ghost predicate NoFileIsDirectory(paths: seq<string>) {
    forall i, j :: 0 <= i < |paths| && 0 <= j < |paths| ==> !IsAncestorDir(paths[i], paths[j])
  }

  /** A case-insensitive file system keeps all names apart. */
  ghost predicate CaseSafe(paths: seq<string>, fold: string -> string) {
    forall x, y :: NamedIn(paths, x) && NamedIn(paths, y) && fold(x) == fold(y) ==> x == y
  }

  // ---- the table of names ---------------------------------------------------------------------------------------

  /** The table holds exactly the names seen so far, each under its own folded key. */
  ghost predicate Table(keys: map<string, string>, seen: set<string>, fold: string -> string) {
    && (forall x :: x in seen ==> fold(x) in keys && keys[fold(x)] == x)
    && (forall k :: k in keys ==> keys[k] in seen && fold(keys[k]) == k)
  }

  method Register(keys: map<string, string>, x: string, fold: string -> string, ghost seen: set<string>)
    returns (ok: bool, next: map<string, string>, ghost y: string)
    requires Table(keys, seen, fold)
    ensures ok ==> Table(next, seen + {x}, fold)
    ensures !ok ==> y in seen && y != x && fold(y) == fold(x)
  {
    next := keys;
    var key := fold(x);
    y := if key in keys then keys[key] else x;
    ok := key !in keys || keys[key] == x;
    if ok {
      next := keys[key := x];
    }
  }

  ghost function Names(paths: seq<string>): set<string> {
    if paths == [] then {}
    else Names(paths[..|paths| - 1]) + {Last(paths)} + set x | x in AncestorPrefixes(Last(paths))
  }

  lemma {:induction false} NamesAreNamed(paths: seq<string>, x: string)
    ensures x in Names(paths) <==> NamedIn(paths, x)
  {
    if paths != [] {
      var front, p := paths[..|paths| - 1], Last(paths);
      NamesAreNamed(front, x);
      AncestorPrefixesExact(p, x);
      if NamedIn(front, x) {
        var i :| 0 <= i < |front| && (x == front[i] || IsAncestorDir(x, front[i]));
        assert paths[i] == front[i];
      }
      if NamedIn(paths, x) {
        var i :| 0 <= i < |paths| && (x == paths[i] || IsAncestorDir(x, paths[i]));
        assert i < |front| ==> front[i] == paths[i];
      }
      assert paths[|paths| - 1] == p;
    }
  }

  /** Two names of the set share a folded key. */
  ghost predicate Collides(paths: seq<string>, fold: string -> string, x: string, y: string) {
    NamedIn(paths, x) && NamedIn(paths, y) && x != y && fold(x) == fold(y)
  }

  lemma NamedInPrefix(paths: seq<string>, n: nat, x: string)
    requires n <= |paths| && NamedIn(paths[..n], x)
    ensures NamedIn(paths, x)
  {
    var i :| 0 <= i < n && (x == paths[..n][i] || IsAncestorDir(x, paths[..n][i]));
    assert paths[i] == paths[..n][i];
  }

  lemma TableIsCaseSafe(paths: seq<string>, keys: map<string, string>, fold: string -> string)
    requires Table(keys, Names(paths), fold)
    ensures CaseSafe(paths, fold)
  {
    forall x, y | NamedIn(paths, x) && NamedIn(paths, y) && fold(x) == fold(y) ensures x == y {
      NamesAreNamed(paths, x);
      NamesAreNamed(paths, y);
    }
  }

  // ---- one file -------------------------------------------------------------------------------------------------

  /** Registers the directories of one path; x and y witness a rejection. */
  method AddDirs(dirs: seq<string>, files: set<string>, keys: map<string, string>, fold: string -> string,
                 ghost seen: set<string>)
    returns (v: Verdict, next: map<string, string>, ghost x: string, ghost y: string)
    requires Table(keys, seen, fold)
    ensures v in {Accepted, PrefixConflict, CaseCollision}
    ensures v == Accepted ==> Table(next, seen + Elements(dirs), fold) && forall d :: d in dirs ==> d !in files
    ensures v == PrefixConflict ==> x in dirs && x in files
    ensures v == CaseCollision ==> x in dirs && y in seen + Elements(dirs) && x != y && fold(x) == fold(y)
  {
    hide Table;
    next, x, y := keys, "", "";
    ghost var now := seen;
    for i := 0 to |dirs|
      invariant now == seen + Elements(dirs[..i]) && Table(next, now, fold)
      invariant forall d :: d in dirs[..i] ==> d !in files
    {
      x := dirs[i];
      if dirs[i] in files {
        return PrefixConflict, next, x, y;
      }
      var ok;
      ok, next, y := Register(next, dirs[i], fold, now);
      if !ok {
        return CaseCollision, next, x, y;
      }
      now := now + {dirs[i]};
      assert dirs[..i + 1] == dirs[..i] + [dirs[i]];
    }
    assert dirs[..|dirs|] == dirs;
    v := Accepted;
  }

  /** The names of one more path; `before` are the paths already accepted. */
  method AddPath(ghost before: seq<string>, files: set<string>, path: string, keys: map<string, string>,
                 fold: string -> string)
    returns (v: Verdict, next: map<string, string>, ghost x: string, ghost y: string)
    requires Table(keys, Names(before), fold) && files == Elements(before + [path])
    ensures v in {Accepted, PrefixConflict, CaseCollision}
    ensures v == Accepted ==> Table(next, Names(before + [path]), fold)
    ensures v == Accepted ==> forall d :: IsAncestorDir(d, path) ==> d !in before + [path]
    ensures v == PrefixConflict ==> x in before + [path] && IsAncestorDir(x, path)
    ensures v == CaseCollision ==> Collides(before + [path], fold, x, y)
  {
    hide Table, NamedIn, IsAncestorDir;
    ghost var all := before + [path];
    assert all[..|all| - 1] == before && Last(all) == path;
    var dirs := AncestorPrefixes(path);
    assert Names(all) == Names(before) + {path} + Elements(dirs);
    forall z ensures z in Names(all) <==> NamedIn(all, z) { NamesAreNamed(all, z); }
    forall d ensures d in dirs <==> IsAncestorDir(d, path) { AncestorPrefixesExact(path, d); }
    var ok;
    x := path;
    ok, next, y := Register(keys, path, fold, Names(before));
    if !ok {
      assert y in Names(all) && path in Names(all);
      return CaseCollision, next, x, y;
    }
    v, next, x, y := AddDirs(dirs, files, next, fold, Names(before) + {path});
    assert v == CaseCollision ==> x in Names(all) && y in Names(all);
  }

  // ---- the whole set --------------------------------------------------------------------------------------------

  /** A directory that is also a file stands before the files in it. */
  lemma AncestorComesFirst(paths: seq<string>, i: nat, j: nat)
    requires StrictlySorted(paths) && i < |paths| && j < |paths| && IsAncestorDir(paths[i], paths[j])
    ensures i < j
  {
    PrefixSortsFirst(paths[i], paths[j]);
    LessAsymmetric(paths[i], paths[j]);
  }

  lemma {:induction false} TotalGrows(files: seq<OutputFile>, n: nat)
    requires n <= |files|
    ensures TotalBytes(files[..n]) <= TotalBytes(files)
  {
    if n == |files| {
      assert files[..n] == files;
    } else {
      TotalGrows(files[..|files| - 1], n);
      assert files[..|files| - 1][..n] == files[..n];
    }
  }

  ghost predicate Acceptable(files: seq<OutputFile>, fold: string -> string) {
    && |files| <= MAX_BASELINE_FILES && TotalBytes(files) <= MAX_BASELINE_TOTAL
    && NoFileIsDirectory(PathsOf(files)) && CaseSafe(PathsOf(files), fold)
  }

  /** One pass over the sorted set accepts exactly the acceptable sets, and names a true reason otherwise. */
  method ValidateFinalSet(files: seq<OutputFile>, fold: string -> string) returns (v: Verdict)
    requires StrictlySorted(PathsOf(files))
    ensures v == Accepted <==> Acceptable(files, fold)
    ensures v == TooManyFiles ==> |files| > MAX_BASELINE_FILES
    ensures v == TooManyBytes ==> TotalBytes(files) > MAX_BASELINE_TOTAL
    ensures v == PrefixConflict ==> !NoFileIsDirectory(PathsOf(files))
    ensures v == CaseCollision ==> !CaseSafe(PathsOf(files), fold)
  {
    hide Table, CaseSafe, NoFileIsDirectory, StrictlySorted, Names, IsAncestorDir, TotalBytes;
    if |files| > MAX_BASELINE_FILES {
      return TooManyFiles;
    }
    Empty(files, fold);
    ghost var paths := PathsOf(files);
    var total, names: set<string>, keys: map<string, string> := 0, {}, map[];
    for i := 0 to |files|
      invariant total == TotalBytes(files[..i]) <= MAX_BASELINE_TOTAL
      invariant names == Elements(paths[..i]) && Table(keys, Names(paths[..i]), fold)
      invariant NoFileIsDirectory(paths[..i])
    {
      var file := files[i];
      names := names + {file.path};
      total := total + |file.content|;
      TotalStep(files, i);
      if total > MAX_BASELINE_TOTAL {
        return TooManyBytes;
      }
      assert paths[..i + 1] == paths[..i] + [file.path];
      ghost var x, y;
      v, keys, x, y := AddPath(paths[..i], names, file.path, keys, fold);
      if v != Accepted {
        RejectionIsReal(paths, i, v, fold, x, y);
        return;
      }
      NoLaterAncestor(paths, i);
    }
    assert files[..|files|] == files && paths[..|files|] == paths;
    TableIsCaseSafe(paths, keys, fold);
    v := Accepted;
  }

  lemma Empty(files: seq<OutputFile>, fold: string -> string)
    ensures TotalBytes(files[..0]) == 0 && Table(map[], Names([]), fold) && NoFileIsDirectory([])
  {}

  lemma TotalStep(files: seq<OutputFile>, i: nat)
    requires i < |files|
    ensures TotalBytes(files[..i + 1]) == TotalBytes(files[..i]) + |files[i].content| <= TotalBytes(files)
  {
    assert files[..i + 1][..i] == files[..i];
    TotalGrows(files, i + 1);
  }

  lemma NoLaterAncestor(paths: seq<string>, i: nat)
    requires StrictlySorted(paths) && i < |paths| && NoFileIsDirectory(paths[..i])
    requires forall d :: IsAncestorDir(d, paths[i]) ==> d !in paths[..i] + [paths[i]]
    ensures NoFileIsDirectory(paths[..i + 1])
  {
    var p := paths[..i + 1];
    assert p == paths[..i] + [paths[i]];
    forall a, b | 0 <= a < |p| && 0 <= b < |p| ensures !IsAncestorDir(p[a], p[b]) {
      assert p[a] == paths[a] && p[b] == paths[b];
      if b == i {
        assert p[a] in p;
      } else if a < i {
        assert p[a] == paths[..i][a] && p[b] == paths[..i][b];
      } else if IsAncestorDir(paths[a], paths[b]) {
        AncestorComesFirst(paths, a, b);
      }
    }
  }

  lemma RejectionIsReal(paths: seq<string>, i: nat, v: Verdict, fold: string -> string, x: string, y: string)
    requires i < |paths|
    requires v == PrefixConflict ==> x in paths[..i] + [paths[i]] && IsAncestorDir(x, paths[i])
    requires v == CaseCollision ==> Collides(paths[..i] + [paths[i]], fold, x, y)
    ensures v == PrefixConflict ==> !NoFileIsDirectory(paths)
    ensures v == CaseCollision ==> !CaseSafe(paths, fold)
  {
    assert paths[..i] + [paths[i]] == paths[..i + 1];
    if v == PrefixConflict {
      var a :| 0 <= a < i + 1 && paths[..i + 1][a] == x;
      assert paths[a] == x;
    }
    if v == CaseCollision {
      NamedInPrefix(paths, i + 1, x);
      NamedInPrefix(paths, i + 1, y);
    }
  }
}
