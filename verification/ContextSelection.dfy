/** Choosing line windows for a context pack: context_runtime/engine.py. */
module ContextSelection {
  import opened Common

  datatype Window = Window(start: int, end: int)

  const RADIUS: nat := 3
  const MAX_WINDOWS_PER_FILE: nat := 16
  const MAX_MATCH_LINES_PER_FILE: nat := 64

  // ---- windows --------------------------------------------------------------------------------------------------

  function WindowOf(lines: nat, m: int): Window {
    Window(Max(1, m - RADIUS), Min(lines, m + RADIUS))
  }

  ghost predicate Contains(w: Window, x: int) {
    w.start <= x <= w.end
  }

  ghost predicate Covered(ws: seq<Window>, x: int) {
    exists i :: 0 <= i < |ws| && Contains(ws[i], x)
  }

  /** Ranges in order, with a gap of at least one line between any two. */
  ghost predicate Gapped(ws: seq<Window>) {
    && (forall i, j :: 0 <= i < j < |ws| ==> ws[i].start <= ws[j].start)
    && (forall i, j :: 0 <= i < j < |ws| ==> ws[i].end + 1 < ws[j].start)
  }

  ghost predicate NonEmptyRanges(ws: seq<Window>) {
    forall i :: 0 <= i < |ws| ==> ws[i].start <= ws[i].end
  }

  ghost predicate Canonical(ws: seq<Window>) {
    NonEmptyRanges(ws) && Gapped(ws)
  }

  /** Every match has an existing line within the radius. */
  ghost predicate InRange(lines: nat, matches: seq<int>) {
    forall i :: 0 <= i < |matches| ==> WindowOf(lines, matches[i]).start <= WindowOf(lines, matches[i]).end
  }

  predicate Before(a: Window, b: Window) {
    a.start < b.start || (a.start == b.start && a.end <= b.end)
  }

  ghost predicate Ordered(ws: seq<Window>) {
    forall i, j :: 0 <= i < j < |ws| ==> Before(ws[i], ws[j])
  }

  function InsertWindow(w: Window, ws: seq<Window>): (r: seq<Window>)
    requires Ordered(ws)
    ensures Ordered(r) && |r| == |ws| + 1 && forall x :: x in r <==> x == w || x in ws
  {
    if ws == [] || Before(w, ws[0]) then [w] + ws
    else
      var rest := InsertWindow(w, ws[1..]);
      assert forall i :: 0 <= i < |rest| ==> rest[i] in rest;
      assert ws == [ws[0]] + ws[1..];
      [ws[0]] + rest
  }

  /** `sorted(windows)`. */
  method SortWindows(ws: seq<Window>) returns (r: seq<Window>)
    ensures Ordered(r) && |r| == |ws| && forall x :: x in r <==> x in ws
  {
    r := [];
    for i := 0 to |ws|
      invariant Ordered(r) && |r| == i && forall x :: x in r <==> x in ws[..i]
    {
      r := InsertWindow(ws[i], r);
    }
  }

  /**
   `_line_window`: ranges in order with gaps that cover exactly the lines within the radius of a match, for any matches;
   if every match has an existing line within the radius, no range is empty.
   */
  method LineWindow(lines: nat, matches: seq<int>) returns (merged: seq<Window>)
    ensures Gapped(merged) && (InRange(lines, matches) ==> Canonical(merged))
    ensures forall x :: Covered(merged, x) <==> Near(lines, matches, x)
  {
    var windows := seq(|matches|, i requires 0 <= i < |matches| => WindowOf(lines, matches[i]));
    var sorted := SortWindows(windows);
    forall x ensures Covered(sorted, x) <==> Near(lines, matches, x) {
      SortedCovers(windows, sorted, x);
      WindowsCover(lines, matches, windows, x);
    }
    assert forall i :: 0 <= i < |sorted| ==> sorted[i] in windows;
    merged := MergeWindows(sorted);
  }

  /** Line x exists and lies within the radius of some match. */
  ghost predicate Near(lines: nat, matches: seq<int>, x: int) {
    1 <= x <= lines && exists i :: 0 <= i < |matches| && matches[i] - RADIUS <= x <= matches[i] + RADIUS
  }

  /** Cover and nearness on the windows and matches themselves. */
  lemma CoverSays(lines: nat, matches: seq<int>, ws: seq<Window>)
    ensures forall x :: Covered(ws, x) <==> exists w :: w in ws && w.start <= x <= w.end
    ensures forall x :: Near(lines, matches, x) <==>
                          1 <= x <= lines && exists m :: m in matches && m - 3 <= x <= m + 3
  {
    forall x ensures Covered(ws, x) <==> exists w :: w in ws && w.start <= x <= w.end {
      if Covered(ws, x) {
        var i :| 0 <= i < |ws| && Contains(ws[i], x);
        assert ws[i] in ws;
      }
      if w :| w in ws && w.start <= x <= w.end {
        var i :| 0 <= i < |ws| && ws[i] == w;
        assert Contains(ws[i], x);
      }
    }
    forall x
      ensures Near(lines, matches, x) <==> 1 <= x <= lines && exists m :: m in matches && m - 3 <= x <= m + 3
    {
      if Near(lines, matches, x) {
        var i :| 0 <= i < |matches| && matches[i] - RADIUS <= x <= matches[i] + RADIUS;
        assert matches[i] in matches;
      }
    }
  }

  lemma SortedCovers(a: seq<Window>, b: seq<Window>, x: int)
    requires forall w :: w in a <==> w in b
    ensures Covered(a, x) <==> Covered(b, x)
  {
    if Covered(a, x) {
      var i :| 0 <= i < |a| && Contains(a[i], x);
      assert a[i] in b;
    }
    if Covered(b, x) {
      var i :| 0 <= i < |b| && Contains(b[i], x);
      assert b[i] in a;
    }
  }

  lemma WindowsCover(lines: nat, matches: seq<int>, windows: seq<Window>, x: int)
    requires |windows| == |matches| && forall i :: 0 <= i < |matches| ==> windows[i] == WindowOf(lines, matches[i])
    ensures Covered(windows, x) <==> Near(lines, matches, x)
  {
    if Covered(windows, x) {
      var i :| 0 <= i < |windows| && Contains(windows[i], x);
      assert matches[i] - RADIUS <= x <= matches[i] + RADIUS;
    }
    if Near(lines, matches, x) {
      var i :| 0 <= i < |matches| && matches[i] - RADIUS <= x <= matches[i] + RADIUS;
      assert Contains(windows[i], x);
    }
  }

  /** One round of the merging loop. */
  method MergeOne(merged: seq<Window>, w: Window) returns (next: seq<Window>)
    requires Gapped(merged) && (merged != [] ==> Last(merged).start <= w.start)
    ensures Gapped(next) && next != [] && Last(next).start <= w.start
    ensures NonEmptyRanges(merged) && w.start <= w.end ==> NonEmptyRanges(next)
    ensures forall x :: Covered(next, x) <==> Covered(merged, x) || Contains(w, x)
  {
    hide Covered, Contains;
    if merged != [] && w.start <= Last(merged).end + 1 {
      var last := Last(merged);
      next := merged[..|merged| - 1] + [Window(last.start, Max(last.end, w.end))];
    } else {
      next := merged + [w];
    }
    forall x ensures Covered(next, x) <==> Covered(merged, x) || Contains(w, x) {
      MergeStep(merged, w, next, x);
    }
  }

  /** The merging loop. */
  method MergeWindows(sorted: seq<Window>) returns (merged: seq<Window>)
    requires Ordered(sorted)
    ensures Gapped(merged) && (NonEmptyRanges(sorted) ==> NonEmptyRanges(merged))
    ensures forall x :: Covered(merged, x) <==> Covered(sorted, x)
  {
    hide Covered, Gapped;
    merged := [];
    NothingMerged();
    for i := 0 to |sorted|
      invariant Gapped(merged) && (NonEmptyRanges(sorted) ==> NonEmptyRanges(merged))
      invariant merged != [] ==> i > 0 && Last(merged).start <= sorted[i - 1].start
      invariant forall x :: Covered(merged, x) <==> Covered(sorted[..i], x)
    {
      var w := sorted[i];
      assert i > 0 ==> Before(sorted[i - 1], w);
      merged := MergeOne(merged, w);
      forall x ensures Covered(merged, x) <==> Covered(sorted[..i + 1], x) {
        AppendCovers(sorted[..i], w, x);
        assert sorted[..i] + [w] == sorted[..i + 1];
      }
    }
    assert sorted[..|sorted|] == sorted;
  }

  lemma NothingMerged()
    ensures Gapped([]) && forall x :: !Covered([], x)
  {}

  lemma AppendCovers(ws: seq<Window>, w: Window, x: int)
    ensures Covered(ws + [w], x) <==> Covered(ws, x) || Contains(w, x)
  {
    var all := ws + [w];
    if Covered(ws, x) {
      var i :| 0 <= i < |ws| && Contains(ws[i], x);
      assert Contains(all[i], x);
    }
    if Contains(w, x) {
      assert Contains(all[|ws|], x);
    }
    if Covered(all, x) {
      var i :| 0 <= i < |all| && Contains(all[i], x);
      assert i < |ws| ==> Contains(ws[i], x);
    }
  }

  lemma MergeStep(before: seq<Window>, w: Window, after: seq<Window>, x: int)
    requires if before != [] && w.start <= Last(before).end + 1 then
               && Last(before).start <= w.start
               && after == before[..|before| - 1] + [Window(Last(before).start, Max(Last(before).end, w.end))]
             else after == before + [w]
    ensures Covered(after, x) <==> Covered(before, x) || Contains(w, x)
  {
    if before != [] && w.start <= Last(before).end + 1 {
      var front, last := before[..|before| - 1], Last(before);
      assert before == front + [last];
      AppendCovers(front, last, x);
      AppendCovers(front, Window(last.start, Max(last.end, w.end)), x);
    } else {
      AppendCovers(before, w, x);
    }
  }

  /** The ranges depend only on what they cover: order and repetition of the matches do not matter. */
  lemma {:induction false} CanonicalIsUnique(a: seq<Window>, b: seq<Window>)
    requires Canonical(a) && Canonical(b) && forall x :: Covered(a, x) <==> Covered(b, x)
    ensures a == b
    decreases |a|
  {
    if a != [] { CoversFirst(a); }
    if b != [] { CoversFirst(b); }
    if a != [] && b != [] {
      FirstAgrees(a, b);
      FirstAgrees(b, a);
      forall x ensures Covered(a[1..], x) <==> Covered(b[1..], x) {
        TailCovers(a, x);
        TailCovers(b, x);
      }
      CanonicalIsUnique(a[1..], b[1..]);
      assert a == [a[0]] + a[1..] && b == [b[0]] + b[1..];
    }
  }

  lemma CoversFirst(a: seq<Window>)
    requires Canonical(a) && a != []
    ensures Covered(a, a[0].start)
  {
    assert Contains(a[0], a[0].start);
  }

  lemma CoversFirstRange(a: seq<Window>, x: int)
    requires a != []
    ensures Contains(a[0], x) ==> Covered(a, x)
  {}

  /** The line after the first range is not covered. */
  lemma GapAfterFirst(a: seq<Window>)
    requires Canonical(a) && a != []
    ensures !Covered(a, a[0].end + 1)
  {}

  lemma TailCovers(a: seq<Window>, x: int)
    requires Canonical(a) && a != []
    ensures Covered(a[1..], x) <==> Covered(a, x) && x > a[0].end
  {
    if Covered(a[1..], x) {
      var i :| 0 <= i < |a[1..]| && Contains(a[1..][i], x);
      assert Contains(a[i + 1], x);
    }
    if Covered(a, x) && x > a[0].end {
      var i :| 0 <= i < |a| && Contains(a[i], x);
      assert Contains(a[1..][i - 1], x);
    }
  }

  lemma FirstAgrees(a: seq<Window>, b: seq<Window>)
    requires Canonical(a) && Canonical(b) && a != [] && b != []
    requires forall x :: Covered(a, x) <==> Covered(b, x)
    ensures b[0].start <= a[0].start && (a[0].start == b[0].start ==> a[0].end <= b[0].end)
  {
    CoversFirst(a);
    var i :| 0 <= i < |b| && Contains(b[i], a[0].start);
    assert b[0].start <= b[i].start;
    GapAfterFirst(b);
    CoversFirstRange(a, b[0].end + 1);
  }

  // ---- the best matching lines ----------------------------------------------------------------------------------

  /** Line a is preferred to line b: a higher score, then the earlier line. */
  predicate Better(scores: seq<nat>, a: int, b: int)
    requires 1 <= a <= |scores| && 1 <= b <= |scores|
  {
    scores[a - 1] > scores[b - 1] || (scores[a - 1] == scores[b - 1] && a < b)
  }

  /** The matching lines among the first n. */
  ghost function Matching(scores: seq<nat>, n: nat): (r: set<int>)
    requires n <= |scores|
    ensures forall x :: x in r <==> 1 <= x <= n && scores[x - 1] > 0
  {
    set x: int | 1 <= x <= n && IsMatch(scores, x)
  }

  predicate IsMatch(scores: seq<nat>, x: int) {
    1 <= x <= |scores| && scores[x - 1] > 0
  }

  /** The selected lines are the k best of the matching ones, or all of them if there are fewer. */
  ghost predicate IsBest(scores: seq<nat>, n: nat, k: nat, best: set<int>)
    requires n <= |scores|
  {
    && best <= Matching(scores, n) && |best| == Min(k, |Matching(scores, n)|)
    && (forall a, b :: a in best && b in Matching(scores, n) - best ==> Better(scores, a, b))
  }

  /** There is only one such selection. */
  lemma BestIsUnique(scores: seq<nat>, n: nat, k: nat, a: set<int>, b: set<int>)
    requires n <= |scores| && IsBest(scores, n, k, a) && IsBest(scores, n, k, b)
    ensures a == b
  {
    if a != b {
      assert |a| == |b|;
      if a <= b {
        SameSize(a, b);
      } else if b <= a {
        SameSize(b, a);
      } else {
        var x :| x in a && x !in b;
        var y :| y in b && y !in a;
        NotBothBetter(scores, x, y);
      }
    }
  }

  lemma NotBothBetter(scores: seq<nat>, a: int, b: int)
    requires 1 <= a <= |scores| && 1 <= b <= |scores|
    ensures !(Better(scores, a, b) && Better(scores, b, a))
  {}

  lemma Member<T>(s: set<T>) returns (x: T)
    requires s != {}
    ensures x in s
  {
    x :| x in s;
  }

  lemma NonEmpty(s: set<int>)
    requires s != {}
    ensures exists x :: x in s
  {
    var x := Member(s);
  }

  lemma SameSize(a: set<int>, b: set<int>)
    requires a <= b && |a| == |b|
    ensures a == b
  {
    assert |b - a| == 0;
    assert b == a + (b - a);
  }

  /** The root of the bounded heap: its least preferred line. */
  method Worst(scores: seq<nat>, heap: set<int>) returns (w: int)
    requires heap != {} && forall x :: x in heap ==> 1 <= x <= |scores|
    ensures w in heap && forall x :: x in heap && x != w ==> Better(scores, x, w)
  {
    var rest := heap;
    NonEmpty(heap);
    w :| w in heap;
    rest := rest - {w};
    while rest != {}
      invariant rest <= heap && w in heap && w !in rest
      invariant forall x :: x in heap && x !in rest && x != w ==> Better(scores, x, w)
      decreases rest
    {
      NonEmpty(rest);
      var x :| x in rest;
      rest := rest - {x};
      if Better(scores, w, x) {
        w := x;
      }
    }
  }

  lemma MatchingStep(scores: seq<nat>, n: nat)
    requires n < |scores|
    ensures Matching(scores, n + 1) == Matching(scores, n) + (if scores[n] > 0 then {n + 1} else {})
    ensures |Matching(scores, n + 1)| == |Matching(scores, n)| + (if scores[n] > 0 then 1 else 0)
  {
    assert n + 1 !in Matching(scores, n);
    assert Matching(scores, n + 1) == Matching(scores, n) + (if scores[n] > 0 then {n + 1} else {});
  }

  /** Offering one more line to a full heap. */
  method Offer(scores: seq<nat>, n: nat, heap: set<int>) returns (next: set<int>)
    requires n < |scores| && scores[n] > 0 && IsBest(scores, n, MAX_MATCH_LINES_PER_FILE, heap)
    ensures IsBest(scores, n + 1, MAX_MATCH_LINES_PER_FILE, next)
  {
    MatchingStep(scores, n);
    var line := n + 1;
    ghost var seen, all := Matching(scores, n), Matching(scores, n + 1);
    if |heap| < MAX_MATCH_LINES_PER_FILE {
      SameSize(heap, seen);
      next := heap + {line};
      return;
    }
    var w := Worst(scores, heap);
    next := heap;
    if Better(scores, line, w) {
      next := heap - {w} + {line};
    }
    assert |next| == |heap|;
    forall a, b | a in next && b in all - next ensures Better(scores, a, b) {
      assert b == w || b == line || b in seen - heap;
      assert a == line || a in heap;
    }
  }

  // ---- scores ---------------------------------------------------------------------------------------------------

  const LOW_SIGNAL_TERMS: set<string> := {
    "a", "an", "and", "are", "as", "at", "be", "by", "for", "from", "in", "is", "it", "of", "on", "or", "please",
    "review", "the", "this", "to", "with"}

  function HighSignal(terms: seq<string>): seq<string> {
    if terms == [] then []
    else (if terms[0] !in LOW_SIGNAL_TERMS && |terms[0]| >= 2 then [terms[0]] else []) + HighSignal(terms[1..])
  }

  /** The telling terms if there are any, else all of them. */
  function SelectedTerms(terms: seq<string>): seq<string> {
    if HighSignal(terms) != [] then HighSignal(terms) else terms
  }

  /** `line.count(term)`: occurrences that do not overlap. */
  function Count(line: string, term: string): nat
    decreases |line|
  {
    if term == "" then |line| + 1
    else if |line| < |term| then 0
    else if term <= line then 1 + Count(line[|term|..], term)
    else Count(line[1..], term)
  }

  function Score(line: string, terms: seq<string>): nat {
    if terms == [] then 0 else Count(line, terms[0]) + Score(line, terms[1..])
  }

  function Scores(lines: seq<string>, terms: seq<string>, fold: string -> string): (r: seq<nat>)
    ensures |r| == |lines|
  {
    seq(|lines|, i requires 0 <= i < |lines| => Score(fold(lines[i]), SelectedTerms(terms)))
  }

  /** `_best_lexical_lines`: exactly the 64 best matching lines, in line order, with an exact omission flag. */
  method BestLexicalLines(lines: seq<string>, terms: seq<string>, fold: string -> string)
    returns (best: seq<int>, omitted: bool)
    ensures IsBest(Scores(lines, terms, fold), |lines|, MAX_MATCH_LINES_PER_FILE, Elements(best))
    ensures forall i, j :: 0 <= i < j < |best| ==> best[i] < best[j]
    ensures omitted <==> Elements(best) != Matching(Scores(lines, terms, fold), |lines|)
  {
    var scores := Scores(lines, terms, fold);
    hide Scores;
    var heap: set<int>, count := {}, 0;
    for n := 0 to |scores|
      invariant count == |Matching(scores, n)| && IsBest(scores, n, MAX_MATCH_LINES_PER_FILE, heap)
    {
      MatchingStep(scores, n);
      if scores[n] > 0 {
        count := count + 1;
        heap := Offer(scores, n, heap);
      }
    }
    best := SortInts(heap);
    assert Elements(best) == heap;
    omitted := count > MAX_MATCH_LINES_PER_FILE;
    if !omitted {
      SameSize(heap, Matching(scores, |scores|));
    }
  }

  /** The selection on the lines themselves: more occurrences first, then the earlier line; at most 64 of them. */
  lemma BestSays(lines: seq<string>, terms: seq<string>, fold: string -> string, best: set<int>)
    requires IsBest(Scores(lines, terms, fold), |lines|, MAX_MATCH_LINES_PER_FILE, best)
    ensures |best| <= 64
    ensures forall a :: a in best ==> 1 <= a <= |lines| && Score(fold(lines[a - 1]), SelectedTerms(terms)) > 0
    ensures forall a, b :: a in best && b !in best && 1 <= b <= |lines| ==>
              var x := Score(fold(lines[a - 1]), SelectedTerms(terms));
              var y := Score(fold(lines[b - 1]), SelectedTerms(terms));
              y == 0 || (|best| == 64 && (x > y || (x == y && a < b)))
  {
    var scores := Scores(lines, terms, fold);
    var all := Matching(scores, |lines|);
    hide Score, SelectedTerms;
    assert forall i :: 0 <= i < |lines| ==> scores[i] == Score(fold(lines[i]), SelectedTerms(terms));
    forall a, b | a in best && b !in best && 1 <= b <= |lines| && scores[b - 1] > 0
      ensures |best| == 64 && (scores[a - 1] > scores[b - 1] || (scores[a - 1] == scores[b - 1] && a < b))
    {
      assert b in all && Better(scores, a, b);
      if |best| == |all| {
        SameSize(best, all);
      }
    }
  }

  // ---- what is counted ------------------------------------------------------------------------------------------

  /** Occurrences of a term from left to right, none overlapping the next one. */
  ghost predicate Apart(line: string, term: string, ps: seq<nat>) {
    && (forall i :: 0 <= i < |ps| ==> ps[i] + |term| <= |line| && line[ps[i]..ps[i] + |term|] == term)
    && forall i, j :: 0 <= i < j < |ps| ==> ps[i] + |term| <= ps[j]
  }

  function Shifted(ps: seq<nat>, n: nat): (r: seq<nat>)
    ensures |r| == |ps| && forall i :: 0 <= i < |r| ==> r[i] == ps[i] + n
  {
    seq(|ps|, i requires 0 <= i < |ps| => ps[i] + n)
  }

  lemma {:induction false} CountIsReached(line: string, term: string) returns (ps: seq<nat>)
    requires term != ""
    ensures |ps| == Count(line, term) && Apart(line, term, ps)
    decreases |line|
  {
    ps := [];
    if |term| <= |line| {
      var skip := if term <= line then |term| else 1;
      var rest := CountIsReached(line[skip..], term);
      ps := Shifted(rest, skip);
      assert Apart(line, term, ps) by { ApartShifted(line, term, rest, skip); }
      if term <= line {
        ps := [0] + ps;
      }
    }
  }

  lemma ApartShifted(line: string, term: string, ps: seq<nat>, n: nat)
    requires n <= |line| && Apart(line[n..], term, ps)
    ensures Apart(line, term, Shifted(ps, n))
  {
    forall i | 0 <= i < |ps|
      ensures ps[i] + n + |term| <= |line| && line[ps[i] + n..ps[i] + n + |term|] == term
    {
      assert line[n..][ps[i]..ps[i] + |term|] == line[ps[i] + n..ps[i] + n + |term|];
    }
  }

  /** No larger number of occurrences can be told apart. */
  lemma {:induction false} CountIsMost(line: string, term: string, ps: seq<nat>)
    requires term != "" && Apart(line, term, ps)
    ensures |ps| <= Count(line, term)
    decreases |line|
  {
    if ps != [] {
      if term <= line {
        forall i | 0 <= i < |ps[1..]| ensures ps[1..][i] >= |term| {
          assert ps[0] + |term| <= ps[i + 1];
        }
        CountIsMost(line[|term|..], term, Unshifted(line, term, ps[1..], |term|));
      } else {
        assert line[ps[0]..ps[0] + |term|] == term;
        CountIsMost(line[1..], term, Unshifted(line, term, ps, 1));
      }
    }
  }

  function Unshifted(line: string, term: string, ps: seq<nat>, n: nat): (r: seq<nat>)
    requires n <= |line| && Apart(line, term, ps) && forall i :: 0 <= i < |ps| ==> ps[i] >= n
    ensures |r| == |ps| && Apart(line[n..], term, r)
  {
    var r := seq(|ps|, i requires 0 <= i < |ps| => (ps[i] - n) as nat);
    assert forall i :: 0 <= i < |ps| ==> line[n..][r[i]..r[i] + |term|] == line[ps[i]..ps[i] + |term|];
    r
  }

  lemma CountOfNothing(line: string)
    ensures Count(line, "") == |line| + 1
  {}

  /** The score of a line adds up over the terms, however they are listed. */
  lemma {:induction false} ScoreAdds(line: string, a: seq<string>, b: seq<string>)
    ensures Score(line, a + b) == Score(line, a) + Score(line, b)
    ensures forall t :: Score(line, [t]) == Count(line, t)
  {
    if a == [] {
      assert a + b == b;
    } else {
      assert (a + b)[0] == a[0] && (a + b)[1..] == a[1..] + b;
      ScoreAdds(line, a[1..], b);
    }
    forall t ensures Score(line, [t]) == Count(line, t) {
      assert [t][1..] == [];
    }
  }

  /** The telling terms, each as often as it was given. */
  lemma {:induction false} HighSignalKeeps(terms: seq<string>, t: string)
    ensures multiset(HighSignal(terms))[t]
            == if t !in LOW_SIGNAL_TERMS && |t| >= 2 then multiset(terms)[t] else 0
  {
    if terms != [] {
      HighSignalKeeps(terms[1..], t);
      assert terms == [terms[0]] + terms[1..];
    }
  }

  /** What is counted: the telling terms, or all of them if none is telling. */
  lemma SelectedTermsAre(terms: seq<string>)
    ensures forall t :: t in SelectedTerms(terms) <==>
              t in terms && (Telling(t) || forall x :: x in terms ==> !Telling(x))
  {
    forall t ensures t in HighSignal(terms) <==> t in terms && Telling(t) {
      HighSignalKeeps(terms, t);
      hide HighSignal;
      assert t in HighSignal(terms) <==> multiset(HighSignal(terms))[t] > 0;
      assert t in terms <==> multiset(terms)[t] > 0;
    }
    if HighSignal(terms) != [] {
      assert HighSignal(terms)[0] in HighSignal(terms);
    }
  }

  ghost predicate Telling(t: string) {
    |t| >= 2 && t !in LOW_SIGNAL_TERMS
  }

  method SortInts(s: set<int>) returns (r: seq<int>)
    ensures (forall i, j :: 0 <= i < j < |r| ==> r[i] < r[j]) && forall x :: x in r <==> x in s
  {
    r := [];
    var rest := s;
    while rest != {}
      invariant rest <= s && (forall x :: x in r <==> x in s - rest)
      invariant forall i, j :: 0 <= i < j < |r| ==> r[i] < r[j]
      invariant forall i, x :: 0 <= i < |r| && x in rest ==> r[i] < x
      decreases rest
    {
      var least := LeastOf(rest);
      r := r + [least];
      rest := rest - {least};
    }
  }

  method LeastOf(s: set<int>) returns (m: int)
    requires s != {}
    ensures m in s && forall x :: x in s ==> m <= x
  {
    NonEmpty(s);
    m :| m in s;
    var rest := s - {m};
    while rest != {}
      invariant rest <= s && m in s && forall x :: x in s && x !in rest ==> m <= x
      decreases rest
    {
      NonEmpty(rest);
      var x :| x in rest;
      rest := rest - {x};
      if x < m {
        m := x;
      }
    }
  }

  // ---- the preferred windows ------------------------------------------------------------------------------------

  predicate Anchored(anchors: seq<int>, w: Window) {
    exists i :: 0 <= i < |anchors| && w.start <= anchors[i] <= w.end
  }

  /** The sort key: windows around an anchor first, then earlier windows. */
  predicate Preferred(anchors: seq<int>, a: Window, b: Window) {
    if Anchored(anchors, a) == Anchored(anchors, b) then a.start < b.start else Anchored(anchors, a)
  }

  ghost predicate Increasing(ws: seq<Window>) {
    forall i, j :: 0 <= i < j < |ws| ==> ws[i].start < ws[j].start
  }

  /** `sorted(merged, key=...)`: the anchored windows in order, then the others in order. */
  method SortByPreference(anchors: seq<int>, ws: seq<Window>) returns (r: seq<Window>)
    ensures |r| == |ws| && forall w :: w in r <==> w in ws
    ensures Increasing(ws) ==> forall i, j :: 0 <= i < j < |r| ==> Preferred(anchors, r[i], r[j])
  {
    hide Anchored;
    var first: seq<Window>, second: seq<Window> := [], [];
    for i := 0 to |ws|
      invariant (Increasing(ws) ==> Increasing(first) && Increasing(second)) && |first| + |second| == i
      invariant forall w :: w in first <==> w in ws[..i] && Anchored(anchors, w)
      invariant forall w :: w in second <==> w in ws[..i] && !Anchored(anchors, w)
    {
      if Increasing(ws) {
        PrefixIncreasing(ws, i, first);
        PrefixIncreasing(ws, i, second);
      }
      if Anchored(anchors, ws[i]) {
        first := first + [ws[i]];
      } else {
        second := second + [ws[i]];
      }
    }
    r := first + second;
    assert ws[..|ws|] == ws;
    if Increasing(ws) {
      PreferenceOrder(anchors, first, second);
    }
  }

  lemma PreferenceOrder(anchors: seq<int>, first: seq<Window>, second: seq<Window>)
    requires Increasing(first) && Increasing(second)
    requires (forall w :: w in first ==> Anchored(anchors, w)) && (forall w :: w in second ==> !Anchored(anchors, w))
    ensures var r := first + second; forall i, j :: 0 <= i < j < |r| ==> Preferred(anchors, r[i], r[j])
  {
    hide Anchored;
    var r := first + second;
    forall i, j | 0 <= i < j < |r| ensures Preferred(anchors, r[i], r[j]) {
      assert i < |first| ==> r[i] in first;
      assert i >= |first| ==> r[i] in second;
      assert j < |first| ==> r[j] in first;
      assert j >= |first| ==> r[j] in second;
    }
  }

  lemma PrefixIncreasing(ws: seq<Window>, i: nat, some: seq<Window>)
    requires Increasing(ws) && i < |ws| && Increasing(some) && forall w :: w in some ==> w in ws[..i]
    ensures Increasing(some + [ws[i]])
  {
    forall k | 0 <= k < |some| ensures some[k].start < ws[i].start {
      assert some[k] in ws[..i];
    }
  }

  /** The windows of all matches. */
  ghost predicate IsMerged(lines: nat, matches: seq<int>, merged: seq<Window>) {
    && Gapped(merged) && (InRange(lines, matches) ==> Canonical(merged))
    && forall x :: Covered(merged, x) <==> Near(lines, matches, x)
  }

  /** As many windows as may be kept. */
  ghost predicate Selects(merged: seq<Window>, r: seq<Window>) {
    |r| == Min(|merged|, MAX_WINDOWS_PER_FILE) && forall w :: w in r ==> w in merged
  }

  /** They are the preferred ones. */
  ghost predicate SelectsPreferred(anchors: seq<int>, merged: seq<Window>, r: seq<Window>) {
    Canonical(r) && forall a, b :: a in r && b in merged && b !in r ==> Preferred(anchors, a, b)
  }

  /** Preference on the windows and anchors themselves: a window with an anchor first, then the earlier one. */
  lemma PreferenceSays(anchors: seq<int>, merged: seq<Window>, r: seq<Window>)
    requires Selects(merged, r) && SelectsPreferred(anchors, merged, r)
    ensures |r| == |merged| || |r| == 16
    ensures forall a, b :: a in r && b in merged && b !in r ==>
              var x := exists m :: m in anchors && a.start <= m <= a.end;
              var y := exists m :: m in anchors && b.start <= m <= b.end;
              (x && !y) || (x == y && a.start < b.start)
  {
    forall w ensures Anchored(anchors, w) <==> exists m :: m in anchors && w.start <= m <= w.end {
      if Anchored(anchors, w) {
        var i :| 0 <= i < |anchors| && w.start <= anchors[i] <= w.end;
        assert anchors[i] in anchors;
      }
    }
  }

  /** `_prioritized_windows`: all windows if they are few, else the sixteen preferred ones, in line order. */
  method PrioritizedWindows(lines: nat, anchors: seq<int>, lexical: seq<int>) returns (r: seq<Window>, omitted: bool)
    ensures exists merged ::
              && IsMerged(lines, anchors + lexical, merged) && Selects(merged, r)
              && (omitted <==> |merged| > MAX_WINDOWS_PER_FILE)
              && (InRange(lines, anchors + lexical) ==> SelectsPreferred(anchors, merged, r))
  {
    hide Preferred, Near, InRange;
    var merged := LineWindow(lines, anchors + lexical);
    assert IsMerged(lines, anchors + lexical, merged);
    if |merged| <= MAX_WINDOWS_PER_FILE {
      assert Selects(merged, merged) && (Canonical(merged) ==> SelectsPreferred(anchors, merged, merged));
      return merged, false;
    }
    var keyed := SortByPreference(anchors, merged);
    var chosen := keyed[..MAX_WINDOWS_PER_FILE];
    r := SortWindows(chosen);
    omitted := true;
    assert Selects(merged, r);
    if Canonical(merged) {
      assert Increasing(merged);
      PreferredFirst(anchors, keyed, MAX_WINDOWS_PER_FILE);
      SortedIsCanonical(merged, chosen, r);
      assert SelectsPreferred(anchors, merged, r);
    }
  }

  lemma {:induction false} SizeDistinct<T>(s: seq<T>)
    requires |Elements(s)| == |s|
    ensures Distinct(s)
  {
    if s != [] {
      var front := s[..|s| - 1];
      assert Elements(s) == Elements(front) + {Last(s)};
      ElementsSize(front);
      SizeDistinct(front);
      assert Last(s) !in front;
    }
  }

  lemma {:induction false} ElementsSize<T>(s: seq<T>)
    ensures |Elements(s)| <= |s|
  {
    if s != [] {
      ElementsSize(s[..|s| - 1]);
      assert Elements(s) == Elements(s[..|s| - 1]) + {Last(s)};
    } else {
      assert Elements(s) == {};
    }
  }

  /** Sorting some windows of a canonical sequence puts them back into its order. */
  lemma SortedIsCanonical(merged: seq<Window>, chosen: seq<Window>, r: seq<Window>)
    requires Canonical(merged) && Distinct(chosen) && Ordered(r) && |r| == |chosen|
    requires (forall w :: w in chosen ==> w in merged) && forall w :: w in r <==> w in chosen
    ensures Canonical(r)
  {
    assert Elements(r) == Elements(chosen);
    DistinctSize(chosen);
    SizeDistinct(r);
    forall i | 0 <= i < |r| ensures r[i] in merged {
      assert r[i] in r;
    }
    forall i, j | 0 <= i < j < |r| ensures r[i].end + 1 < r[j].start {
      var p :| 0 <= p < |merged| && merged[p] == r[i];
      var q :| 0 <= q < |merged| && merged[q] == r[j];
      assert Before(r[i], r[j]) && p != q;
    }
  }

  lemma PreferredFirst(anchors: seq<int>, keyed: seq<Window>, n: nat)
    requires forall i, j :: 0 <= i < j < |keyed| ==> Preferred(anchors, keyed[i], keyed[j])
    requires n <= |keyed|
    ensures forall a, b :: a in keyed[..n] && b in keyed && b !in keyed[..n] ==> Preferred(anchors, a, b)
    ensures Distinct(keyed[..n])
  {
    assert forall m :: 0 <= m < n ==> keyed[m] in keyed[..n];
    forall a, b | a in keyed[..n] && b in keyed && b !in keyed[..n] ensures Preferred(anchors, a, b) {
      var i :| 0 <= i < n && keyed[..n][i] == a;
      var j :| 0 <= j < |keyed| && keyed[j] == b;
    }
  }
}
