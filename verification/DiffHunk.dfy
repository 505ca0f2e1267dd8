/** Text hunks: `_rendered_lines` and `_diff_hunk` of change_runtime/git.py lose nothing. */
module DiffHunk {
  import opened Common
  import opened Text

  const MARK := "\\ No newline at end of file"

  /** `_rendered_lines`: the lines, and whether the text ends with a newline. */
  datatype Rendered = Rendered(lines: seq<string>, trailing: bool)

  function RenderedLines(content: string): Rendered {
    var lines := Split(content, '\n');
    if content != "" && Last(content) == '\n' then Rendered(lines[..|lines| - 1], true) else Rendered(lines, false)
  }

  function Content(r: Rendered): string {
    Join(r.lines, '\n') + if r.trailing then "\n" else ""
  }

  lemma {:induction false} TrailingSplits(s: string, c: char)
    requires s != "" && Last(s) == c
    ensures |Split(s, c)| > 1 && Last(Split(s, c)) == ""
    decreases |s|
  {
    hide Split;
    var a, rest := SplitStep(s, c);
    if rest == "" {
      SplitNone(rest, c);
    } else {
      assert Last(rest) == Last(s);
      TrailingSplits(rest, c);
      assert Last([a] + Split(rest, c)) == Last(Split(rest, c));
    }
  }

  lemma {:induction false} JoinEndsEmpty(parts: seq<string>, c: char)
    requires parts != []
    ensures Join(parts + [""], c) == Join(parts, c) + [c]
    decreases |parts|
  {
    if |parts| == 1 {
      assert parts + [""] == [parts[0]] + [""];
      JoinStep(parts[0], [""], c);
      JoinOne("", c);
    } else {
      JoinEndsEmpty(parts[1..], c);
      assert parts + [""] == [parts[0]] + (parts[1..] + [""]);
      JoinStep(parts[0], parts[1..] + [""], c);
    }
  }

  /** The rendered lines and the final-newline flag determine the content. */
  lemma RenderedRecovers(content: string)
    ensures RenderedLines(content).lines != [] && Content(RenderedLines(content)) == content
  {
    hide Split, Join;
    var lines := Split(content, '\n');
    JoinSplit(content, '\n');
    if content != "" && Last(content) == '\n' {
      TrailingSplits(content, '\n');
      var front := lines[..|lines| - 1];
      assert lines == front + [""];
      JoinEndsEmpty(front, '\n');
    }
  }

  // ---- the hunk -------------------------------------------------------------------------------------------------

  function Prefixed(c: char, lines: seq<string>): (r: seq<string>)
    ensures |r| == |lines| && forall i :: 0 <= i < |r| ==> r[i] == [c] + lines[i]
  {
    seq(|lines|, i requires 0 <= i < |lines| => [c] + lines[i])
  }

  function MarkOf(r: Rendered): seq<string> {
    if r.lines != [] && !r.trailing then [MARK] else []
  }

  function SideLines(c: char, r: Rendered): seq<string> {
    Prefixed(c, r.lines) + MarkOf(r)
  }

  function Decimal(n: nat): string {
    (if n < 10 then "" else Decimal(n / 10)) + ["0123456789"[n % 10]]
  }

  function Header(a: Rendered, b: Rendered): string {
    "@@ -" + (if a.lines == [] then "0" else "1") + "," + Decimal(|a.lines|)
    + " +" + (if b.lines == [] then "0" else "1") + "," + Decimal(|b.lines|) + " @@"
  }

  /** What a string of decimal digits stands for. */
  function Number(digits: string): Option<nat> {
    if digits == "" then Some(0)
    else
      match Number(digits[..|digits| - 1])
      case None => None
      case Some(n) => if '0' <= Last(digits) <= '9' then Some(10 * n + (Last(digits) as int - '0' as int)) else None
  }

  lemma DigitReads(d: nat)
    requires d < 10
    ensures var c := "0123456789"[d]; '0' <= c <= '9' && c as int - '0' as int == d
  {}

  lemma NumberAppends(front: string, c: char)
    requires Number(front).Some? && '0' <= c <= '9'
    ensures Number(front + [c]) == Some(10 * Number(front).value + (c as int - '0' as int))
  {
    var all := front + [c];
    assert all[..|all| - 1] == front && Last(all) == c;
  }

  lemma {:induction false} DecimalReads(n: nat)
    ensures Decimal(n) != "" && Number(Decimal(n)) == Some(n)
  {
    var front := if n < 10 then "" else Decimal(n / 10);
    if n >= 10 {
      DecimalReads(n / 10);
    }
    DigitReads(n % 10);
    var c := "0123456789"[n % 10];
    assert Decimal(n) == front + [c];
    assert Number(front) == Some(n / 10);
    hide Number, Decimal;
    NumberAppends(front, c);
  }

  /** An absent side has no lines. */
  function SideOf(content: Option<string>): Rendered {
    if content.None? then Rendered([], true) else RenderedLines(content.value)
  }

  function Hunk(a: Rendered, b: Rendered): seq<string> {
    [Header(a, b)] + (SideLines('-', a) + SideLines('+', b))
  }

  /** The header names the number of lines of both sides; then come the old lines and the new ones with their signs. */
  lemma HunkSays(a: Rendered, b: Rendered)
    ensures var h, n, m := Hunk(a, b), |a.lines|, |b.lines|;
            var k := if n > 0 && !a.trailing then n + 1 else n;
            var l := if m > 0 && !b.trailing then m + 1 else m;
            && |h| == 1 + k + l
            && h[0] == "@@ -" + (if n == 0 then "0" else "1") + "," + Decimal(n)
                       + " +" + (if m == 0 then "0" else "1") + "," + Decimal(m) + " @@"
            && (forall i :: 0 <= i < n ==> h[1 + i] == "-" + a.lines[i])
            && (forall i :: 0 <= i < m ==> h[1 + k + i] == "+" + b.lines[i])
            && (k > n ==> h[k] == "\\ No newline at end of file")
            && (l > m ==> h[k + l] == "\\ No newline at end of file")
  {
    hide Decimal, Header;
    assert Header(a, b) == "@@ -" + (if a.lines == [] then "0" else "1") + "," + Decimal(|a.lines|)
                           + " +" + (if b.lines == [] then "0" else "1") + "," + Decimal(|b.lines|) + " @@" by {
      HeaderIs(a, b);
    }
  }

  lemma HeaderIs(a: Rendered, b: Rendered)
    ensures Header(a, b) == "@@ -" + (if a.lines == [] then "0" else "1") + "," + Decimal(|a.lines|)
                            + " +" + (if b.lines == [] then "0" else "1") + "," + Decimal(|b.lines|) + " @@"
  {}

  /** `_diff_hunk`, line by line. */
  method DiffHunkLines(a: Rendered, b: Rendered) returns (hunk: seq<string>)
    ensures hunk == Hunk(a, b)
  {
    hide Header, SideLines;
    var header := [Header(a, b)];
    hunk := AppendSide(header, '-', a);
    hunk := AppendSide(hunk, '+', b);
  }

  method AppendSide(before: seq<string>, c: char, r: Rendered) returns (hunk: seq<string>)
    ensures hunk == before + SideLines(c, r)
  {
    hunk := before;
    for i := 0 to |r.lines|
      invariant hunk == before + Prefixed(c, r.lines)[..i]
    {
      hunk := hunk + [[c] + r.lines[i]];
    }
    if r.lines != [] && !r.trailing {
      hunk := hunk + [MARK];
    }
  }

  // ---- reading it back ------------------------------------------------------------------------------------------

  predicate StartsWith(line: string, c: char) {
    line != "" && line[0] == c
  }

  function Leading(lines: seq<string>, c: char): (k: nat)
    ensures k <= |lines| && forall i :: 0 <= i < k ==> StartsWith(lines[i], c)
  {
    if lines == [] || !StartsWith(lines[0], c) then 0 else 1 + Leading(lines[1..], c)
  }

  /** The leading lines of one sign without it, the newline flag, and what follows. */
  function ReadSide(lines: seq<string>, c: char): (Rendered, seq<string>) {
    var k := Leading(lines, c);
    var side := seq(k, i requires 0 <= i < k => lines[i][1..]);
    var rest := lines[k..];
    if k > 0 && rest != [] && rest[0] == MARK then (Rendered(side, false), rest[1..]) else (Rendered(side, true), rest)
  }

  function ReadContent(r: Rendered): Option<string> {
    if r.lines == [] then None else Some(Content(r))
  }

  function ReadHunk(hunk: seq<string>): (Option<string>, Option<string>)
    requires hunk != []
  {
    var a := ReadSide(hunk[1..], '-');
    var b := ReadSide(a.1, '+');
    (ReadContent(a.0), ReadContent(b.0))
  }

  lemma {:induction false} LeadingIs(lines: seq<string>, c: char, k: nat)
    requires k <= |lines| && forall i :: 0 <= i < k ==> StartsWith(lines[i], c)
    requires k < |lines| ==> !StartsWith(lines[k], c)
    ensures Leading(lines, c) == k
    decreases k
  {
    if k > 0 {
      assert StartsWith(lines[0], c);
      LeadingIs(lines[1..], c, k - 1);
    }
  }

  /** The signed lines are counted exactly: nothing that follows them starts with the sign. */
  lemma LeadingLines(lines: seq<string>, c: char, rest: seq<string>)
    requires rest != [] ==> !StartsWith(rest[0], c)
    ensures Leading(Prefixed(c, lines) + rest, c) == |lines|
  {
    var all := Prefixed(c, lines) + rest;
    assert forall i :: 0 <= i < |lines| ==> all[i] == [c] + lines[i];
    LeadingIs(all, c, |lines|);
  }

  lemma StripSign(lines: seq<string>, c: char, rest: seq<string>)
    ensures var all := Prefixed(c, lines) + rest;
            && all[|lines|..] == rest
            && seq(|lines|, i requires 0 <= i < |lines| => all[i][1..]) == lines
  {
    var all := Prefixed(c, lines) + rest;
    forall i | 0 <= i < |lines| ensures all[i][1..] == lines[i] {
      assert all[i] == [c] + lines[i];
    }
  }

  lemma SideReads(r: Rendered, c: char, rest: seq<string>)
    requires c in {'-', '+'} && (r.lines == [] ==> r.trailing)
    requires rest != [] ==> !StartsWith(rest[0], c) && rest[0] != MARK
    ensures ReadSide(SideLines(c, r) + rest, c) == (r, rest)
  {
    MarkStarts();
    hide MARK;
    var tail := MarkOf(r) + rest;
    assert SideLines(c, r) + rest == Prefixed(c, r.lines) + tail;
    hide SideLines, Leading, Prefixed, StartsWith;
    LeadingLines(r.lines, c, tail);
    StripSign(r.lines, c, tail);
    assert MarkOf(r) == [MARK] ==> tail[1..] == rest;
  }

  lemma MarkStarts()
    ensures StartsWith(MARK, '\\') && !StartsWith(MARK, '-') && !StartsWith(MARK, '+')
  {}

  /** Round trip: both contents, including absence and the final newline, can be read back from the hunk. */
  lemma HunkRoundTrip(a: Option<string>, b: Option<string>)
    ensures ReadHunk(Hunk(SideOf(a), SideOf(b))) == (a, b)
  {
    if a.Some? { RenderedRecovers(a.value); }
    if b.Some? { RenderedRecovers(b.value); }
    var ra, rb := SideOf(a), SideOf(b);
    hide RenderedLines, Content, ReadSide;
    var plus := SideLines('+', rb);
    assert plus != [] ==> StartsWith(plus[0], '+');
    SideReads(ra, '-', plus);
    SideReads(rb, '+', []);
    assert plus + [] == plus;
    assert Hunk(ra, rb)[1..] == SideLines('-', ra) + plus;
  }
}
