/** Assembling a candidate from proposals: the merge half of collab_runtime/candidates.py. */
module CandidateMerge {
  import opened Common
  import opened StringOrder
  import opened FinalSet

  datatype FileState = FileState(mode: Mode, content: Bytes)

  datatype Identity = Identity(oid: string, mode: Mode)

  /** One file of a proposal; an absent `before` is an addition, an absent `after` a deletion. */
  datatype Entry = Entry(path: string, before: Option<Identity>, after: Option<FileState>)

  datatype FileProposal = FileProposal(id: string, files: seq<Entry>)

  /** What `git merge-file` may answer. */
  datatype Merged = Clean(content: Bytes) | Clash | Broken

  /** The merge program and the text test, both arbitrary. */
  datatype Tools = Tools(merge3: (Bytes, Bytes, Bytes) -> Merged, isText: Bytes -> bool)

  datatype PathOutcome = Becomes(file: FileState) | Vanishes | Conflict | Unsupported

  function Lookup<T>(m: map<string, T>, path: string): Option<T> {
    if path in m then Some(m[path]) else None
  }

  // ---- before identities ----------------------------------------------------------------------------------------

  function AllEntries(proposals: seq<FileProposal>): seq<Entry> {
    if proposals == [] then [] else AllEntries(proposals[..|proposals| - 1]) + Last(proposals).files
  }

  ghost predicate Verified(listing: map<string, Identity>, entries: seq<Entry>) {
    forall i :: 0 <= i < |entries| ==> entries[i].before == Lookup(listing, entries[i].path)
  }

  /** `_verify_before_identities`: accepted exactly when every entry was made against this baseline. */
  method VerifyBeforeIdentities(listing: map<string, Identity>, proposals: seq<FileProposal>) returns (ok: bool)
    ensures ok <==> Verified(listing, AllEntries(proposals))
  {
    ghost var all := AllEntries(proposals);
    ghost var done: seq<Entry> := [];
    for i := 0 to |proposals|
      invariant done == AllEntries(proposals[..i]) && Verified(listing, done)
    {
      var files := proposals[i].files;
      assert proposals[..i + 1][..i] == proposals[..i];
      for j := 0 to |files|
        invariant Verified(listing, files[..j])
      {
        var entry := files[j];
        var actual := Lookup(listing, entry.path);
        var matches := if entry.before.None? then actual.None?
                       else && actual.Some? && actual.value.oid == entry.before.value.oid
                            && actual.value.mode == entry.before.value.mode;
        if !matches {
          EntryOf(proposals, i, j);
          return false;
        }
      }
      assert files[..|files|] == files;
      done := done + files;
    }
    assert proposals[..|proposals|] == proposals;
    return true;
  }

  lemma {:induction false} EntryOf(proposals: seq<FileProposal>, i: nat, j: nat)
    requires i < |proposals| && j < |proposals[i].files|
    ensures proposals[i].files[j] in AllEntries(proposals)
  {
    var front := proposals[..|proposals| - 1];
    if i < |front| {
      EntryOf(front, i, j);
    }
  }

  // ---- one path -------------------------------------------------------------------------------------------------

  function Edits(changes: seq<Entry>): (r: seq<FileState>)
    ensures |r| <= |changes|
  {
    if changes == [] then []
    else Edits(changes[..|changes| - 1]) + (if Last(changes).after.Some? then [Last(changes).after.value] else [])
  }

  /** The distinct edits, in order of first occurrence. */
  function Unique(edits: seq<FileState>): (u: seq<FileState>)
    ensures forall x :: x in u <==> x in edits
    ensures edits != [] ==> u != [] && u[0] == edits[0]
  {
    if edits == [] then []
    else
      var u := Unique(edits[..|edits| - 1]);
      assert edits == edits[..|edits| - 1] + [Last(edits)];
      if Last(edits) in u then u else u + [Last(edits)]
  }

  /** `_resolve_modes`: the mode and whether it is a conflict. */
  function ResolveModes(baseline: Option<Mode>, first: Mode, next: Mode): (Mode, bool) {
    if next == first then (first, false)
    else if baseline == Some(next) then (first, false)
    else if baseline == Some(first) then (next, false)
    else (first, true)
  }

  function FoldEdits(t: Tools, base: FileState, ours: Bytes, mode: Mode, rest: seq<FileState>): PathOutcome
    decreases |rest|
  {
    if rest == [] then Becomes(FileState(mode, ours))
    else
      match t.merge3(base.content, ours, rest[0].content)
      case Clash => Conflict
      case Broken => Unsupported
      case Clean(merged) =>
        var m := ResolveModes(Some(base.mode), mode, rest[0].mode);
        if m.1 then Conflict else FoldEdits(t, base, merged, m.0, rest[1..])
  }

  function MergePath(t: Tools, baseline: Option<FileState>, changes: seq<Entry>): PathOutcome {
    var edits := Edits(changes);
    if |edits| < |changes| && edits != [] then Conflict
    else if edits == [] then Vanishes
    else
      var u := Unique(edits);
      if |u| == 1 then Becomes(u[0])
      else if baseline.None? then Conflict
      else if !t.isText(baseline.value.content) then Unsupported
      else FoldEdits(t, baseline.value, u[0].content, u[0].mode, u[1..])
  }

  /** `_merge_path_changes`, with its loops. */
  method MergePathChanges(t: Tools, baseline: Option<FileState>, changes: seq<Entry>) returns (r: PathOutcome)
    ensures r == MergePath(t, baseline, changes)
  {
    var afters: seq<FileState> := [];
    for i := 0 to |changes|
      invariant afters == Edits(changes[..i])
    {
      assert changes[..i + 1][..i] == changes[..i];
      if changes[i].after.Some? {
        afters := afters + [changes[i].after.value];
      }
    }
    assert changes[..|changes|] == changes;
    if |afters| < |changes| && afters != [] {
      return Conflict;
    }
    if afters == [] {
      return Vanishes;
    }
    var unique: seq<FileState> := [];
    for i := 0 to |afters|
      invariant unique == Unique(afters[..i])
    {
      assert afters[..i + 1][..i] == afters[..i];
      if afters[i] !in unique {
        unique := unique + [afters[i]];
      }
    }
    assert afters[..|afters|] == afters;
    if |unique| == 1 {
      return Becomes(unique[0]);
    }
    if baseline.None? {
      return Conflict;
    }
    if !t.isText(baseline.value.content) {
      return Unsupported;
    }
    r := FoldUnique(t, baseline.value, unique);
  }

  method FoldUnique(t: Tools, base: FileState, unique: seq<FileState>) returns (r: PathOutcome)
    requires unique != []
    ensures r == FoldEdits(t, base, unique[0].content, unique[0].mode, unique[1..])
  {
    var ours, mode := unique[0].content, unique[0].mode;
    for i := 1 to |unique|
      invariant FoldEdits(t, base, ours, mode, unique[i..])
                == FoldEdits(t, base, unique[0].content, unique[0].mode, unique[1..])
    {
      assert unique[i..][0] == unique[i] && unique[i..][1..] == unique[i + 1..];
      var merged := t.merge3(base.content, ours, unique[i].content);
      if !merged.Clean? {
        return if merged.Clash? then Conflict else Unsupported;
      }
      var m := ResolveModes(Some(base.mode), mode, unique[i].mode);
      if m.1 {
        return Conflict;
      }
      ours, mode := merged.content, m.0;
    }
    r := Becomes(FileState(mode, ours));
  }

  // ---- what merging one path means ------------------------------------------------------------------------------

  /** Some change makes this edit. */
  ghost predicate Makes(changes: seq<Entry>, f: FileState) {
    exists i :: 0 <= i < |changes| && changes[i].after == Some(f)
  }

  lemma MakesSplits(front: seq<Entry>, last: Entry, f: FileState)
    ensures Makes(front + [last], f) <==> Makes(front, f) || last.after == Some(f)
  {
    var all := front + [last];
    if Makes(front, f) {
      var i :| 0 <= i < |front| && front[i].after == Some(f);
      assert all[i].after == Some(f);
    }
    assert all[|front|] == last;
    if Makes(all, f) {
      var i :| 0 <= i < |all| && all[i].after == Some(f);
      assert i < |front| ==> front[i].after == Some(f);
    }
  }

  lemma {:induction false} EditsMake(changes: seq<Entry>, f: FileState)
    ensures f in Edits(changes) <==> Makes(changes, f)
  {
    if changes != [] {
      var front, last := changes[..|changes| - 1], Last(changes);
      EditsMake(front, f);
      hide Makes;
      MakesSplits(front, last, f);
      assert front + [last] == changes;
    }
  }

  ghost predicate AllEdit(changes: seq<Entry>) {
    forall i :: 0 <= i < |changes| ==> changes[i].after.Some?
  }

  ghost predicate AllDelete(changes: seq<Entry>) {
    forall i :: 0 <= i < |changes| ==> changes[i].after.None?
  }

  lemma AllSplits(front: seq<Entry>, last: Entry)
    ensures AllEdit(front + [last]) <==> AllEdit(front) && last.after.Some?
    ensures AllDelete(front + [last]) <==> AllDelete(front) && last.after.None?
  {
    var all := front + [last];
    assert all[|front|] == last && forall i :: 0 <= i < |front| ==> all[i] == front[i];
  }

  lemma {:induction false} EditsCount(changes: seq<Entry>)
    ensures |Edits(changes)| == |changes| <==> AllEdit(changes)
    ensures Edits(changes) == [] <==> AllDelete(changes)
  {
    if changes != [] {
      hide AllEdit, AllDelete;
      var front, last := changes[..|changes| - 1], Last(changes);
      EditsCount(front);
      AllSplits(front, last);
      assert front + [last] == changes;
    }
  }

  lemma EditsAre(changes: seq<Entry>)
    ensures forall f :: f in Edits(changes) <==> Makes(changes, f)
    ensures |Edits(changes)| == |changes| <==> AllEdit(changes)
    ensures Edits(changes) == [] <==> AllDelete(changes)
  {
    forall f ensures f in Edits(changes) <==> Makes(changes, f) { EditsMake(changes, f); }
    EditsCount(changes);
  }

  /** A path vanishes exactly when everybody who touched it deleted it. */
  lemma DeletedOnlyByAll(t: Tools, baseline: Option<FileState>, changes: seq<Entry>)
    requires changes != []
    ensures MergePath(t, baseline, changes) == Vanishes <==> AllDelete(changes)
    ensures !AllDelete(changes) && !AllEdit(changes) ==> MergePath(t, baseline, changes) == Conflict
  {
    EditsAre(changes);
    if Edits(changes) != [] && |Edits(changes)| == |changes| {
      var u := Unique(Edits(changes));
      if |u| > 1 && baseline.Some? {
        NeverVanishes(t, baseline.value, u[0].content, u[0].mode, u[1..]);
      }
    }
  }

  lemma {:induction false} NeverVanishes(t: Tools, base: FileState, ours: Bytes, mode: Mode, rest: seq<FileState>)
    ensures FoldEdits(t, base, ours, mode, rest) != Vanishes
    decreases |rest|
  {
    if rest != [] {
      var merged := t.merge3(base.content, ours, rest[0].content);
      if merged.Clean? {
        NeverVanishes(t, base, merged.content, ResolveModes(Some(base.mode), mode, rest[0].mode).0, rest[1..]);
      }
    }
  }

  /** One edit that everybody made, or that one proposal made alone, is taken verbatim whatever the baseline. */
  lemma SoleEditIsVerbatim(t: Tools, baseline: Option<FileState>, changes: seq<Entry>, f: FileState)
    requires changes != [] && forall i :: 0 <= i < |changes| ==> changes[i].after == Some(f)
    ensures MergePath(t, baseline, changes) == Becomes(f)
  {
    EditsAre(changes);
    var u := Unique(Edits(changes));
    assert changes[0].after == Some(f);
    SingleUnique(Edits(changes), f);
  }

  lemma {:induction false} SingleUnique(edits: seq<FileState>, f: FileState)
    requires edits != [] && forall x :: x in edits ==> x == f
    ensures Unique(edits) == [f]
  {
    var front := edits[..|edits| - 1];
    if front != [] {
      assert forall x :: x in front ==> x in edits;
      SingleUnique(front, f);
    } else {
      assert Unique(front) == [];
    }
    assert Last(edits) in edits;
  }

  /** Divergent additions have no merge base. */
  lemma DivergentAdditionsConflict(t: Tools, changes: seq<Entry>, i: nat, j: nat)
    requires i < |changes| && j < |changes| && changes[i].after.Some? && changes[j].after.Some?
    requires changes[i].after != changes[j].after
    ensures MergePath(t, None, changes) == Conflict
  {
    EditsAre(changes);
    var u := Unique(Edits(changes));
    assert changes[i].after.value in u && changes[j].after.value in u;
  }

  // ---- modes ----------------------------------------------------------------------------------------------------

  function OtherMode(m: Mode): Mode {
    if m == Regular then Executable else Regular
  }

  ghost predicate AllKeep(base: Mode, edits: seq<FileState>) {
    forall x :: x in edits ==> x.mode == base
  }

  /**
   The mode law: the baseline mode if and only if every edit keeps it; it does not depend on the order of the
   edits.
   */
  ghost function FoldedMode(base: Mode, edits: seq<FileState>): Mode {
    if AllKeep(base, edits) then base else OtherMode(base)
  }

  /** Folding contents alone. */
  function FoldContents(t: Tools, base: Bytes, ours: Bytes, rest: seq<FileState>): Merged
    decreases |rest|
  {
    if rest == [] then Clean(ours)
    else
      match t.merge3(base, ours, rest[0].content)
      case Clash => Clash
      case Broken => Broken
      case Clean(merged) => FoldContents(t, base, merged, rest[1..])
  }

  /** With a baseline no mode conflict is reachable: the fold conflicts exactly when the contents do. */
  lemma {:induction false} FoldSeparates(t: Tools, base: FileState, ours: Bytes, mode: Mode, rest: seq<FileState>)
    ensures FoldEdits(t, base, ours, mode, rest) ==
            match FoldContents(t, base.content, ours, rest)
            case Clash => Conflict
            case Broken => Unsupported
            case Clean(c) => Becomes(FileState(FoldedMode(base.mode, [FileState(mode, ours)] + rest), c))
    decreases |rest|
  {
    if rest != [] {
      var merged := t.merge3(base.content, ours, rest[0].content);
      if merged.Clean? {
        var m := ResolveModes(Some(base.mode), mode, rest[0].mode).0;
        FoldSeparates(t, base, merged.content, m, rest[1..]);
        ModeStep(base.mode, FileState(mode, ours), rest, FileState(m, merged.content));
      }
    } else {
      assert FileState(mode, ours) in [FileState(mode, ours)] + rest;
    }
  }

  lemma ModeStep(base: Mode, first: FileState, rest: seq<FileState>, next: FileState)
    requires rest != [] && next.mode == ResolveModes(Some(base), first.mode, rest[0].mode).0
    ensures FoldedMode(base, [next] + rest[1..]) == FoldedMode(base, [first] + rest)
  {
    var a, b := [next] + rest[1..], [first] + rest;
    assert rest == [rest[0]] + rest[1..];
    assert first in b && rest[0] in b && next in a;
    if AllKeep(base, b) {
      assert forall x :: x in rest[1..] ==> x in b;
      assert AllKeep(base, a);
    }
    if AllKeep(base, a) {
      assert forall x :: x in rest[1..] ==> x in a;
      assert AllKeep(base, b);
    }
  }

  // ---- several distinct edits -----------------------------------------------------------------------------------

  /** The position at which x first occurs. */
  ghost predicate FirstAt(edits: seq<FileState>, x: FileState, i: int) {
    0 <= i < |edits| && edits[i] == x && forall k :: 0 <= k < i ==> edits[k] != x
  }

  /** u lists every edit once, in the order in which they first occur. */
  ghost predicate FirstOccurrences(edits: seq<FileState>, u: seq<FileState>) {
    && (forall x :: x in u <==> x in edits) && Distinct(u)
    && forall i, j, a, b :: 0 <= i < j < |u| && FirstAt(edits, u[i], a) && FirstAt(edits, u[j], b) ==> a < b
  }

  lemma {:induction false} UniqueIsFirstOccurrences(edits: seq<FileState>)
    ensures FirstOccurrences(edits, Unique(edits))
  {
    if edits != [] {
      var front, u := edits[..|edits| - 1], Unique(edits);
      UniqueIsFirstOccurrences(front);
      forall i, j, a, b | 0 <= i < j < |u| && FirstAt(edits, u[i], a) && FirstAt(edits, u[j], b) ensures a < b {
        assert u[i] in front;
        assert a < |front| by {
          var k :| 0 <= k < |front| && front[k] == u[i];
          assert edits[k] == u[i];
        }
        if b < |front| {
          assert u[j] in front && j < |Unique(front)|;
          assert FirstAt(front, u[i], a) && FirstAt(front, u[j], b);
        }
      }
    }
  }

  /** Contents merged one after the other: the first edit, then every further one merged into the result so far. */
  ghost predicate MergedUpTo(t: Tools, base: Bytes, u: seq<FileState>, k: nat, contents: seq<Bytes>) {
    && |contents| == k + 1 <= |u| && contents[0] == u[0].content
    && forall i :: 0 <= i < k ==> t.merge3(base, contents[i], u[i + 1].content) == Clean(contents[i + 1])
  }

  /** How far the contents merge, and what stops them. */
  lemma {:induction false} FoldReaches(t: Tools, base: Bytes, u: seq<FileState>, k: nat, contents: seq<Bytes>)
    returns (n: nat, all: seq<Bytes>)
    requires u != [] && MergedUpTo(t, base, u, k, contents)
    ensures MergedUpTo(t, base, u, n, all)
    ensures if n == |u| - 1 then FoldContents(t, base, contents[k], u[k + 1..]) == Clean(all[n])
            else var stop := t.merge3(base, all[n], u[n + 1].content);
                 !stop.Clean? && FoldContents(t, base, contents[k], u[k + 1..]) == stop
    decreases |u| - k
  {
    n, all := k, contents;
    if k < |u| - 1 {
      var next := t.merge3(base, contents[k], u[k + 1].content);
      assert u[k + 1..][0] == u[k + 1] && u[k + 1..][1..] == u[k + 2..];
      if next.Clean? {
        n, all := FoldReaches(t, base, u, k + 1, contents + [next.content]);
      }
    }
  }

  lemma MergedStart(t: Tools, base: Bytes, u: seq<FileState>)
    requires u != []
    ensures MergedUpTo(t, base, u, 0, [u[0].content])
  {}

  /**
   Distinct edits of one path that has a baseline: a binary baseline is unsupported, and otherwise the edits are merged
   in the order in which they first occur, starting from the first one, until one clashes or the tool fails.
   */
  lemma DistinctEditsMerge(t: Tools, base: FileState, changes: seq<Entry>, u: seq<FileState>)
    returns (n: nat, contents: seq<Bytes>)
    requires AllEdit(changes) && u == Unique(Edits(changes)) && |u| > 1
    ensures !t.isText(base.content) ==> MergePath(t, Some(base), changes) == Unsupported
    ensures t.isText(base.content) ==> MergedUpTo(t, base.content, u, n, contents)
    ensures t.isText(base.content) && n == |u| - 1 ==>
              MergePath(t, Some(base), changes) == Becomes(FileState(FoldedMode(base.mode, u), contents[n]))
    ensures t.isText(base.content) && n < |u| - 1 ==>
              var stop := t.merge3(base.content, contents[n], u[n + 1].content);
              && !stop.Clean?
              && MergePath(t, Some(base), changes) == if stop.Clash? then Conflict else Unsupported
  {
    EditsCount(changes);
    hide AllEdit, Edits, FoldEdits, FoldContents, FoldedMode;
    assert u[0] in Edits(changes);
    n, contents := 0, [];
    if t.isText(base.content) {
      assert MergedUpTo(t, base.content, u, 0, [u[0].content]) by { MergedStart(t, base.content, u); }
      FoldSeparates(t, base, u[0].content, u[0].mode, u[1..]);
      assert [FileState(u[0].mode, u[0].content)] + u[1..] == u;
      n, contents := FoldReaches(t, base.content, u, 0, [u[0].content]);
    }
  }

  /** Two changes with different edits, on the two edits themselves. */
  lemma TwoEditsMerge(t: Tools, base: FileState, a: Entry, b: Entry)
    requires a.after.Some? && b.after.Some? && a.after != b.after
    ensures var merged := t.merge3(base.content, a.after.value.content, b.after.value.content);
            var r := MergePath(t, Some(base), [a, b]);
            if !t.isText(base.content) || merged.Broken? then r == Unsupported
            else if merged.Clash? then r == Conflict
            else r.Becomes? && r.file.content == merged.content
                 && (r.file.mode == base.mode <==> a.after.value.mode == base.mode == b.after.value.mode)
  {
    var changes, x, y := [a, b], a.after.value, b.after.value;
    assert changes[..1] == [a] && [a][..0] == [];
    assert Edits([a]) == [x] && Edits(changes) == [x, y];
    assert [x, y][..1] == [x] && [x][..0] == [];
    assert Unique([x]) == [x] && Unique([x, y]) == [x, y];
    var n, contents := DistinctEditsMerge(t, base, changes, [x, y]);
    assert x in [x, y] && y in [x, y];
  }

  /** The mode of a merged path with a baseline, for any merge tool and in any order of the proposals. */
  lemma MergedMode(t: Tools, base: FileState, changes: seq<Entry>, f: FileState)
    requires MergePath(t, Some(base), changes) == Becomes(f)
    ensures f.mode == FoldedMode(base.mode, Edits(changes))
  {
    hide FoldEdits, FoldContents, Edits;
    var u := Unique(Edits(changes));
    if |u| == 1 {
      assert u[0] in Edits(changes) && forall x :: x in Edits(changes) ==> x in u;
    } else {
      FoldSeparates(t, base, u[0].content, u[0].mode, u[1..]);
      assert [FileState(u[0].mode, u[0].content)] + u[1..] == u;
    }
  }

  lemma ModeIgnoresOrder(t: Tools, base: FileState, a: seq<Entry>, b: seq<Entry>, f: FileState, g: FileState)
    requires multiset(a) == multiset(b)
    requires MergePath(t, Some(base), a) == Becomes(f) && MergePath(t, Some(base), b) == Becomes(g)
    ensures f.mode == g.mode
  {
    MergedMode(t, base, a, f);
    MergedMode(t, base, b, g);
    EditsAre(a);
    EditsAre(b);
    assert forall e :: e in a <==> e in multiset(a);
    assert forall e :: e in b <==> e in multiset(b);
    forall x ensures x in Edits(a) <==> x in Edits(b) {
      if x in Edits(a) {
        var i :| 0 <= i < |a| && a[i].after == Some(x);
        assert a[i] in b;
      }
      if x in Edits(b) {
        var i :| 0 <= i < |b| && b[i].after == Some(x);
        assert b[i] in a;
      }
    }
  }

  // ---- all paths ------------------------------------------------------------------------------------------------

  /** The entries that touch a path, in proposal order. */
  function Touching(entries: seq<Entry>, path: string): seq<Entry> {
    if entries == [] then []
    else Touching(entries[..|entries| - 1], path) + (if Last(entries).path == path then [Last(entries)] else [])
  }

  lemma TouchingStep(entries: seq<Entry>, path: string)
    requires entries != []
    ensures var front := entries[..|entries| - 1];
            Touching(entries, path)
            == if Last(entries).path == path then Touching(front, path) + [Last(entries)] else Touching(front, path)
  {}

  ghost predicate Touches(entries: seq<Entry>, i: int, path: string) {
    0 <= i < |entries| && entries[i].path == path
  }

  /** All entries that touch a path, in order, and their positions. */
  ghost predicate Picks(entries: seq<Entry>, path: string, at: seq<nat>, picked: seq<Entry>) {
    && |at| == |picked|
    && (forall k :: 0 <= k < |at| ==> at[k] < |entries| && entries[at[k]] == picked[k] && picked[k].path == path)
    && (forall j, k :: 0 <= j < k < |at| ==> at[j] < at[k])
    && (forall i :: Touches(entries, i, path) ==> i in at)
  }

  lemma PicksSkip(front: seq<Entry>, last: Entry, path: string, at: seq<nat>, picked: seq<Entry>)
    requires Picks(front, path, at, picked) && last.path != path
    ensures Picks(front + [last], path, at, picked)
  {
    var all := front + [last];
    forall k | 0 <= k < |at| ensures at[k] < |all| && all[at[k]] == picked[k] && picked[k].path == path {
      assert all[at[k]] == front[at[k]];
    }
    forall i | Touches(all, i, path) ensures i in at {
      assert Touches(front, i, path);
    }
  }

  lemma PicksAdd(front: seq<Entry>, last: Entry, path: string, before: seq<nat>, picked: seq<Entry>)
    requires Picks(front, path, before, picked) && last.path == path
    ensures Picks(front + [last], path, before + [|front|], picked + [last])
  {
    var all, at := front + [last], before + [|front|];
    forall k | 0 <= k < |at|
      ensures at[k] < |all| && all[at[k]] == (picked + [last])[k] && (picked + [last])[k].path == path
    {
      if k < |before| {
        assert all[before[k]] == front[before[k]];
      }
    }
    forall j, k | 0 <= j < k < |at| ensures at[j] < at[k] {
      assert at[j] == before[j];
    }
    forall i | Touches(all, i, path) ensures i in at {
      if i < |front| {
        assert Touches(front, i, path);
        assert i in before;
      }
    }
  }

  /** The entries that touch a path are all of them, and they stay in order. */
  lemma {:induction false} TouchingIs(entries: seq<Entry>, path: string) returns (at: seq<nat>)
    ensures Picks(entries, path, at, Touching(entries, path))
  {
    at := [];
    if entries != [] {
      var front := entries[..|entries| - 1];
      var before := TouchingIs(front, path);
      TouchingStep(entries, path);
      hide Touching, Picks;
      assert entries == front + [Last(entries)];
      if Last(entries).path == path {
        PicksAdd(front, Last(entries), path, before, Touching(front, path));
        at := before + [|front|];
      } else {
        PicksSkip(front, Last(entries), path, before, Touching(front, path));
        at := before;
      }
    }
  }

  /** All entries of all proposals, proposal by proposal. */
  lemma {:induction false} AllEntriesAre(proposals: seq<FileProposal>, i: nat)
    requires i < |proposals|
    ensures var before, files := AllEntries(proposals[..i]), proposals[i].files;
            before + files <= AllEntries(proposals) && |AllEntries(proposals[..i + 1])| == |before| + |files|
    decreases |proposals|
  {
    var front := proposals[..|proposals| - 1];
    assert proposals[..i + 1][..i] == proposals[..i];
    if i < |front| {
      AllEntriesAre(front, i);
      assert front[..i] == proposals[..i];
    } else {
      assert front == proposals[..i] && proposals[..i + 1] == proposals;
    }
  }

  ghost predicate Grouped(changes: map<string, seq<Entry>>, entries: seq<Entry>) {
    && (forall p :: p in changes ==> changes[p] == Touching(entries, p) && changes[p] != [])
    && (forall p :: p !in changes ==> Touching(entries, p) == [])
  }

  lemma GroupStep(changes: map<string, seq<Entry>>, entries: seq<Entry>, e: Entry)
    requires Grouped(changes, entries)
    ensures Grouped(changes[e.path := (if e.path in changes then changes[e.path] else []) + [e]], entries + [e])
  {
    var all := entries + [e];
    assert all[..|all| - 1] == entries && Last(all) == e;
  }

  method GroupFiles(before: map<string, seq<Entry>>, files: seq<Entry>, ghost done: seq<Entry>)
    returns (changes: map<string, seq<Entry>>)
    requires Grouped(before, done)
    ensures Grouped(changes, done + files)
  {
    hide Grouped;
    changes := before;
    assert done + files[..0] == done;
    for j := 0 to |files|
      invariant Grouped(changes, done + files[..j])
    {
      GroupStep(changes, done + files[..j], files[j]);
      assert done + files[..j] + [files[j]] == done + files[..j + 1];
      changes := changes[files[j].path := (if files[j].path in changes then changes[files[j].path] else [])
          + [files[j]]];
    }
    assert files[..|files|] == files;
  }

  method GroupChanges(proposals: seq<FileProposal>) returns (changes: map<string, seq<Entry>>)
    ensures Grouped(changes, AllEntries(proposals))
  {
    changes := map[];
    for i := 0 to |proposals|
      invariant Grouped(changes, AllEntries(proposals[..i]))
    {
      hide Grouped;
      assert proposals[..i + 1][..i] == proposals[..i];
      changes := GroupFiles(changes, proposals[i].files, AllEntries(proposals[..i]));
    }
    assert proposals[..|proposals|] == proposals;
  }

  /** What the merge makes of a path; untouched paths keep the baseline. */
  ghost function PathResult(t: Tools, baseline: map<string, FileState>, entries: seq<Entry>,
                            path: string): PathOutcome {
    if Touching(entries, path) == [] then (if path in baseline then Becomes(baseline[path]) else Vanishes)
    else
      var r := MergePath(t, Lookup(baseline, path), Touching(entries, path));
      if r.Becomes? && |r.file.content| > MAX_BASELINE_FILE then Unsupported else r
  }

  /** The result of a path, on the entries themselves. */
  lemma PathResultSays(t: Tools, baseline: map<string, FileState>, entries: seq<Entry>, path: string)
    ensures (forall i :: 0 <= i < |entries| ==> entries[i].path != path) ==>
              PathResult(t, baseline, entries, path)
              == if path in baseline then Becomes(baseline[path]) else Vanishes
    ensures (exists i :: 0 <= i < |entries| && entries[i].path == path) ==>
              var base := if path in baseline then Some(baseline[path]) else None;
              var r := MergePath(t, base, Touching(entries, path));
              PathResult(t, baseline, entries, path)
              == if r.Becomes? && |r.file.content| > 8 * 1024 * 1024 then Unsupported else r
  {
    var at := TouchingIs(entries, path);
    hide MergePath, Touching;
    if i :| 0 <= i < |entries| && entries[i].path == path {
      assert Touches(entries, i, path);
      assert i in at;
    }
    assert at != [] ==> entries[at[0]].path == path;
  }

  ghost predicate Touched(entries: seq<Entry>, path: string) {
    Touching(entries, path) != []
  }

  datatype MergeResult = MergedSet(files: seq<OutputFile>) | Conflicts(paths: seq<string>) | Invalid

  /** The path outcomes seen so far are in the working set; conflicting and later paths still hold the baseline. */
  ghost predicate Worked(t: Tools, baseline: map<string, FileState>, entries: seq<Entry>, done: seq<string>,
                         final: map<string, FileState>) {
    forall p ::
      Lookup(final, p) == (if p in done then
                             (match PathResult(t, baseline, entries, p)
                              case Becomes(f) => Some(f)
                              case Vanishes => None
                              case _ => Lookup(baseline, p))
                           else Lookup(baseline, p))
  }

  ghost predicate ConflictList(t: Tools, baseline: map<string, FileState>, entries: seq<Entry>, done: seq<string>,
                               conflicts: seq<string>) {
    StrictlySorted(conflicts) && forall p :: p in conflicts <==>
        p in done && PathResult(t, baseline, entries, p) == Conflict
  }

  lemma WorkedStep(t: Tools, baseline: map<string, FileState>, entries: seq<Entry>, done: seq<string>,
                   final: map<string, FileState>, path: string, final': map<string, FileState>)
    requires Worked(t, baseline, entries, done, final) && path !in done
    requires match PathResult(t, baseline, entries, path)
             case Becomes(f) => final' == final[path := f]
             case Vanishes => final' == final - {path}
             case _ => final' == final
    ensures Worked(t, baseline, entries, done + [path], final')
  {
    hide PathResult;
  }

  lemma ConflictStep(t: Tools, baseline: map<string, FileState>, entries: seq<Entry>, done: seq<string>, path: string,
                     conflicts: seq<string>)
    requires ConflictList(t, baseline, entries, done, conflicts) && StrictlySorted(done + [path])
    ensures ConflictList(t, baseline, entries, done + [path],
                         if PathResult(t, baseline, entries, path) == Conflict then conflicts + [path] else conflicts)
  {
    hide PathResult;
    var all := done + [path];
    forall i | 0 <= i < |conflicts| ensures Less(conflicts[i], path) {
      assert conflicts[i] in conflicts;
      var k :| 0 <= k < |done| && done[k] == conflicts[i];
      assert all[k] == done[k] && all[|done|] == path;
    }
  }

  /** One path of the loop. */
  method WorkPath(t: Tools, baseline: map<string, FileState>, final: map<string, FileState>, path: string,
                  changes: seq<Entry>, ghost entries: seq<Entry>)
    returns (r: PathOutcome)
    requires changes == Touching(entries, path) != [] && Lookup(final, path) == Lookup(baseline, path)
    ensures r == PathResult(t, baseline, entries, path)
  {
    hide MergePath;
    r := MergePathChanges(t, Lookup(final, path), changes);
    if r.Becomes? && |r.file.content| > MAX_BASELINE_FILE {
      r := Unsupported;
    }
  }

  method MergeAll(t: Tools, baseline: map<string, FileState>, changes: map<string, seq<Entry>>,
                  ghost entries: seq<Entry>)
    returns (ok: bool, final: map<string, FileState>, conflicts: seq<string>, ghost bad: string)
    requires Grouped(changes, entries)
    ensures !ok ==> Touched(entries, bad) && PathResult(t, baseline, entries, bad) == Unsupported
    ensures ok ==> ConflictList(t, baseline, entries, Sorted(changes.Keys), conflicts)
    ensures ok ==> Worked(t, baseline, entries, Sorted(changes.Keys), final)
    ensures ok ==> forall p :: p in changes ==> PathResult(t, baseline, entries, p) != Unsupported
  {
    hide PathResult, Touching, Worked, ConflictList, Grouped, StrictlySorted;
    var paths := SortSet(changes.Keys);
    final, conflicts, bad := baseline, [], "";
    NothingWorked(t, baseline, entries);
    for i := 0 to |paths|
      invariant Worked(t, baseline, entries, paths[..i], final)
               && ConflictList(t, baseline, entries, paths[..i], conflicts)
      invariant forall p :: p in paths[..i] ==> PathResult(t, baseline, entries, p) != Unsupported
    {
      var path := paths[i];
      assert path in paths;
      AtPath(t, baseline, entries, changes, paths, i, final);
      var r := WorkPath(t, baseline, final, path, changes[path], entries);
      if r.Unsupported? {
        return false, final, conflicts, path;
      }
      assert paths[..i] + [path] == paths[..i + 1];
      ghost var before := final;
      ConflictStep(t, baseline, entries, paths[..i], path, conflicts);
      match r {
        case Becomes(f) => final := final[path := f];
        case Vanishes => final := final - {path};
        case _ => conflicts := conflicts + [path];
      }
      WorkedStep(t, baseline, entries, paths[..i], before, path, final);
    }
    assert paths[..|paths|] == paths;
    ok := true;
  }

  lemma NothingWorked(t: Tools, baseline: map<string, FileState>, entries: seq<Entry>)
    ensures Worked(t, baseline, entries, [], baseline) && ConflictList(t, baseline, entries, [], [])
  {
    hide PathResult;
  }

  lemma AtPath(t: Tools, baseline: map<string, FileState>, entries: seq<Entry>, changes: map<string, seq<Entry>>,
               paths: seq<string>, i: nat, final: map<string, FileState>)
    requires Grouped(changes, entries) && StrictlySorted(paths) && i < |paths| && paths[i] in changes
    requires Worked(t, baseline, entries, paths[..i], final)
    ensures changes[paths[i]] == Touching(entries, paths[i]) != [] && paths[i] !in paths[..i]
    ensures Lookup(final, paths[i]) == Lookup(baseline, paths[i]) && StrictlySorted(paths[..i] + [paths[i]])
  {
    hide PathResult, Touching;
    SortedDistinct(paths, i);
    assert paths[..i] + [paths[i]] == paths[..i + 1];
  }

  lemma SortedDistinct(paths: seq<string>, i: nat)
    requires StrictlySorted(paths) && i < |paths|
    ensures paths[i] !in paths[..i]
  {
    forall k | 0 <= k < i ensures paths[k] != paths[i] {
      LessAsymmetric(paths[k], paths[i]);
    }
  }

  /** The files of a set, sorted by path. */
  ghost predicate Lists(files: seq<OutputFile>, final: map<string, FileState>) {
    && PathsOf(files) == Sorted(final.Keys)
    && (forall i :: 0 <= i < |files| ==>
          files[i].path in final && final[files[i].path] == FileState(files[i].mode, files[i].content))
  }

  method ListFiles(final: map<string, FileState>) returns (files: seq<OutputFile>)
    ensures Lists(files, final)
  {
    var paths := SortSet(final.Keys);
    files := [];
    for i := 0 to |paths|
      invariant |files| == i
      invariant forall k :: 0 <= k < i ==>
                  && files[k].path == paths[k] && paths[k] in final
                  && final[paths[k]] == FileState(files[k].mode, files[k].content)
    {
      assert paths[i] in paths;
      files := files + [OutputFile(paths[i], final[paths[i]].content, final[paths[i]].mode)];
    }
    assert PathsOf(files) == paths;
  }

  /** The merged set: every path holds its outcome, and nothing else is there. */
  ghost predicate IsMerge(t: Tools, baseline: map<string, FileState>, entries: seq<Entry>,
                          final: map<string, FileState>) {
    forall p :: if p in final then PathResult(t, baseline, entries, p) == Becomes(final[p])
                else PathResult(t, baseline, entries, p) == Vanishes
  }

  /** The conflict list: exactly the paths in conflict, sorted. */
  ghost predicate IsConflictList(t: Tools, baseline: map<string, FileState>, entries: seq<Entry>, paths: seq<string>) {
    StrictlySorted(paths) && forall p :: p in paths <==> PathResult(t, baseline, entries, p) == Conflict
  }

  ghost predicate SomeUnsupported(t: Tools, baseline: map<string, FileState>, entries: seq<Entry>) {
    exists p :: PathResult(t, baseline, entries, p) == Unsupported
  }

  lemma UntouchedKeeps(t: Tools, baseline: map<string, FileState>, entries: seq<Entry>,
                       changes: map<string, seq<Entry>>, p: string)
    requires Grouped(changes, entries) && p !in changes
    ensures PathResult(t, baseline, entries, p) == if p in baseline then Becomes(baseline[p]) else Vanishes
  {}

  lemma OutcomeAt(t: Tools, baseline: map<string, FileState>, entries: seq<Entry>, changes: map<string, seq<Entry>>,
                  done: seq<string>, final: map<string, FileState>, p: string)
    requires Grouped(changes, entries) && Worked(t, baseline, entries, done, final) && (p in done <==> p in changes)
    requires var r := PathResult(t, baseline, entries, p); r != Conflict && r != Unsupported
    ensures if p in final then PathResult(t, baseline, entries, p) == Becomes(final[p])
            else PathResult(t, baseline, entries, p) == Vanishes
  {
    if p !in changes {
      UntouchedKeeps(t, baseline, entries, changes, p);
    }
    hide PathResult, Grouped;
    assert p in final <==> Lookup(final, p).Some?;
  }

  lemma Outcomes(t: Tools, baseline: map<string, FileState>, entries: seq<Entry>, changes: map<string, seq<Entry>>,
                 final: map<string, FileState>, conflicts: seq<string>)
    requires Grouped(changes, entries) && Worked(t, baseline, entries, Sorted(changes.Keys), final)
    requires ConflictList(t, baseline, entries, Sorted(changes.Keys), conflicts)
    requires forall p :: p in changes ==> PathResult(t, baseline, entries, p) != Unsupported
    ensures !SomeUnsupported(t, baseline, entries) && IsConflictList(t, baseline, entries, conflicts)
    ensures conflicts == [] ==> IsMerge(t, baseline, entries, final)
  {
    hide PathResult, Touching, Grouped, StrictlySorted, Worked, Sorted;
    var done := Sorted(changes.Keys);
    forall p
      ensures PathResult(t, baseline, entries, p) != Unsupported
      ensures p in conflicts <==> PathResult(t, baseline, entries, p) == Conflict
    {
      assert p in done <==> p in changes;
      if p !in changes {
        UntouchedKeeps(t, baseline, entries, changes, p);
      }
    }
    if conflicts == [] {
      forall p ensures if p in final then PathResult(t, baseline, entries, p) == Becomes(final[p])
                       else PathResult(t, baseline, entries, p) == Vanishes {
        OutcomeAt(t, baseline, entries, changes, done, final, p);
      }
    }
  }

  /** `_merge_changes`: all outcomes, or all conflicts, or an unsupported input. */
  method MergeChanges(t: Tools, baseline: map<string, FileState>, proposals: seq<FileProposal>)
    returns (r: MergeResult, ghost final: map<string, FileState>)
    ensures r.Invalid? <==> SomeUnsupported(t, baseline, AllEntries(proposals))
    ensures r.Conflicts? ==> r.paths != [] && IsConflictList(t, baseline, AllEntries(proposals), r.paths)
    ensures r.MergedSet? ==> IsMerge(t, baseline, AllEntries(proposals), final) && Lists(r.files, final)
    ensures r.MergedSet? ==> StrictlySorted(PathsOf(r.files))
  {
    hide Worked, ConflictList, Grouped, IsMerge, IsConflictList, PathResult, StrictlySorted;
    ghost var entries := AllEntries(proposals);
    var changes := GroupChanges(proposals);
    ghost var bad;
    var ok, merged, conflicts;
    ok, merged, conflicts, bad := MergeAll(t, baseline, changes, entries);
    final := merged;
    if !ok {
      return Invalid, final;
    }
    Outcomes(t, baseline, entries, changes, merged, conflicts);
    if conflicts != [] {
      return Conflicts(conflicts), final;
    }
    var files := ListFiles(merged);
    r := MergedSet(files);
  }
}
