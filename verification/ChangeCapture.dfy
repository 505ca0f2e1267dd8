/** Capturing a workspace's changes: change_runtime/git.py. */
module ChangeCapture {
  import opened Common
  import opened StringOrder
  import opened Text
  import opened DiffHunk

  datatype EntryMode = Regular | Executable | Symlink  // 100644, 100755, 120000

  datatype Blob = Blob(mode: EntryMode, oid: string)

  /** One side of a path, as far as comparison goes. */
  datatype Side = Absent | FileSide(mode: EntryMode, data: Bytes) | LinkSide(target: string)

  /** What reading the working tree may yield; a link is never followed. */
  datatype Reading = Missing | AFile(executable: bool, data: Bytes) | ALink(target: string) | Refused

  /** Git's object store, the working tree and the text codec. */
  datatype World = World(tracked: map<string, Blob>, untracked: set<string>, read: string -> Reading,
                         blob: string -> Bytes, oid: Bytes -> string,
                         decode: Bytes -> string, encode: string -> Option<Bytes>,
                         text: Bytes -> Option<string>, sha: Bytes -> string)

  /** Objects are named by their content without collision, and what can be encoded decodes to itself. */
  ghost predicate Addressed(w: World) {
    && (forall p :: p in w.tracked ==> w.oid(w.blob(w.tracked[p].oid)) == w.tracked[p].oid)
    && (forall a, b :: w.oid(a) == w.oid(b) ==> a == b)
    && (forall s :: w.encode(s).Some? ==> w.decode(w.encode(s).value) == s)
  }

  /** Reading this path raises: a linked ancestor, or a link target that is not valid text. */
  predicate Raises(w: World, path: string) {
    var reading := w.read(path);
    reading.Refused? || (reading.ALink? && w.encode(reading.target).None?)
  }

  function CurrentSide(w: World, path: string): Side {
    match w.read(path)
    case AFile(executable, data) => FileSide(if executable then Executable else Regular, data)
    case ALink(target) => LinkSide(target)
    case _ => Absent
  }

  /** The bytes whose blob id is compared. */
  function CurrentBytes(w: World, s: Side): Bytes {
    match s
    case FileSide(_, data) => data
    case LinkSide(target) => if w.encode(target).Some? then w.encode(target).value else []
    case Absent => []
  }

  function ModeOf(s: Side): EntryMode {
    match s
    case FileSide(mode, _) => mode
    case _ => Symlink
  }

  function BaselineSide(w: World, path: string): Side {
    if path !in w.tracked then Absent
    else
      var data := w.blob(w.tracked[path].oid);
      if w.tracked[path].mode == Symlink then LinkSide(w.decode(data)) else FileSide(w.tracked[path].mode, data)
  }

  /** The simple form: compare both sides in full. */
  ghost predicate Changed(w: World, path: string) {
    BaselineSide(w, path) != CurrentSide(w, path)
  }

  /** When a path counts as changed, on what is tracked and what is read. */
  lemma ChangedSays(w: World, path: string)
    ensures path !in w.tracked ==> (Changed(w, path) <==> w.read(path).AFile? || w.read(path).ALink?)
    ensures path in w.tracked && !w.read(path).AFile? && !w.read(path).ALink? ==> Changed(w, path)
    ensures path in w.tracked && w.read(path).AFile? ==>
              var mode := if w.read(path).executable then Executable else Regular;
              (Changed(w, path) <==> w.tracked[path].mode != mode || w.blob(w.tracked[path].oid) != w.read(path).data)
    ensures path in w.tracked && w.read(path).ALink? ==>
              (Changed(w, path) <==> w.tracked[path].mode != Symlink
                                     || w.decode(w.blob(w.tracked[path].oid)) != w.read(path).target)
  {}

  ghost function AllPaths(w: World): set<string> {
    w.tracked.Keys + w.untracked
  }

  ghost function ChangedPaths(w: World): set<string> {
    set p | p in AllPaths(w) && Changed(w, p)
  }

  /** Same mode and same blob id mean the same side, so the fast path never hides a change. */
  lemma FastPathIsSound(w: World, path: string)
    requires Addressed(w) && path in w.tracked && !Raises(w, path)
    requires var s := CurrentSide(w, path);
             s != Absent && w.tracked[path].mode == ModeOf(s) && w.oid(CurrentBytes(w, s)) == w.tracked[path].oid
    ensures !Changed(w, path)
  {
    var s := CurrentSide(w, path);
    assert CurrentBytes(w, s) == w.blob(w.tracked[path].oid);
  }

  /** One path of `capture`: the blob id first, the contents only if it differs. */
  method Compare(w: World, path: string) returns (changed: bool)
    requires Addressed(w) && !Raises(w, path)
    ensures changed <==> Changed(w, path)
  {
    var current := CurrentSide(w, path);
    if path in w.tracked && current != Absent {
      if w.tracked[path].mode == ModeOf(current) && w.oid(CurrentBytes(w, current)) == w.tracked[path].oid {
        FastPathIsSound(w, path);
        return false;
      }
    }
    return BaselineSide(w, path) != current;
  }

  /** `capture`: exactly the tracked or untracked paths whose two sides differ, sorted; each with one block. */
  method Capture(w: World) returns (r: Option<(seq<string>, seq<string>)>)
    requires Addressed(w)
    ensures r.None? <==> exists p :: p in AllPaths(w) && Raises(w, p)
    ensures r.Some? ==> r.value.0 == Sorted(ChangedPaths(w)) && BlocksFor(w, r.value.0, r.value.1)
  {
    hide StrictlySorted, Addressed, BaselineSide, CurrentSide, RenderPair, Raises;
    var paths := SortSet(w.tracked.Keys + w.untracked);
    var blocks: seq<string>, changed: seq<string> := [], [];
    EmptySorted();
    for i := 0 to |paths|
      invariant forall p :: p in changed <==> p in paths[..i] && Changed(w, p)
      invariant StrictlySorted(changed) && BlocksFor(w, changed, blocks)
      invariant forall p :: p in paths[..i] ==> !Raises(w, p)
    {
      var path := paths[i];
      assert path in paths && paths[..i + 1] == paths[..i] + [path];
      if Raises(w, path) {
        return None;
      }
      var differs := Compare(w, path);
      if differs {
        SortedAppend(paths, i, changed);
        PairIsRendered(w, path, BaselineSide(w, path), CurrentSide(w, path));
        var block := RenderPair(w, path, BaselineSide(w, path), CurrentSide(w, path));
        if block != "" {
          blocks, changed := blocks + [block], changed + [path];
        }
      }
    }
    assert paths[..|paths|] == paths;
    SortedUnique(changed, Sorted(ChangedPaths(w)));
    r := Some((changed, blocks));
  }

  /** One block for each changed path, in the same order. */
  ghost predicate BlocksFor(w: World, changed: seq<string>, blocks: seq<string>) {
    && |blocks| == |changed|
    && forall k :: 0 <= k < |changed| ==>
         blocks[k] == RenderPair(w, changed[k], BaselineSide(w, changed[k]), CurrentSide(w, changed[k]))
  }

  lemma EmptySorted()
    ensures StrictlySorted([])
  {}

  lemma SortedAppend(paths: seq<string>, i: nat, some: seq<string>)
    requires StrictlySorted(paths) && i < |paths| && StrictlySorted(some) && forall p :: p in some ==> p in paths[..i]
    ensures StrictlySorted(some + [paths[i]])
  {
    forall k | 0 <= k < |some| ensures Less(some[k], paths[i]) {
      assert some[k] in paths[..i];
    }
  }

  // ---- rendering ------------------------------------------------------------------------------------------------

  function ModeText(m: EntryMode): string {
    match m
    case Regular => "100644"
    case Executable => "100755"
    case Symlink => "120000"
  }

  function Title(path: string): string {
    "diff --git a/" + path + " b/" + path
  }

  function TextHeader(path: string, a: EntryMode, b: EntryMode, before: Option<string>,
                      after: Option<string>): seq<string> {
    [Title(path)]
    + (if before.None? then ["new file mode " + ModeText(b), "--- /dev/null", "+++ b/" + path]
       else if after.None? then ["deleted file mode " + ModeText(a), "--- a/" + path, "+++ /dev/null"]
       else (if a != b then ["old mode " + ModeText(a), "new mode " + ModeText(b)] else [])
            + ["--- a/" + path, "+++ b/" + path])
  }

  /** `_render_text_change`. */
  function TextLines(path: string, a: EntryMode, b: EntryMode, before: Option<string>,
                     after: Option<string>): seq<string> {
    TextHeader(path, a, b, before, after) + Hunk(SideOf(before), SideOf(after))
  }

  function Digest(w: World, data: Bytes): string {
    "sha256=" + w.sha(data)
  }

  /** `_render_binary_change`. */
  function BinaryLines(w: World, path: string, a: EntryMode, b: EntryMode, before: Option<Bytes>,
                       after: Option<Bytes>): seq<string> {
    [Title(path)]
    + (if before.None? && after.Some? then
         ["new file mode " + ModeText(b),
          "Binary file added: " + Digest(w, after.value) + " bytes=" + Decimal(|after.value|)]
       else if before.Some? && after.None? then
         ["deleted file mode " + ModeText(a),
          "Binary file removed: " + Digest(w, before.value) + " bytes=" + Decimal(|before.value|)]
       else if before.Some? && after.Some? then
         (if a != b then ["old mode " + ModeText(a), "new mode " + ModeText(b)] else [])
         + ["Binary file changed: " + Digest(w, before.value) + "->" + w.sha(after.value)
            + " bytes=" + Decimal(|before.value|) + "->" + Decimal(|after.value|)]
       else [])
  }

  /** `_render_symlink_change`. */
  function LinkLines(path: string, before: Option<string>, after: Option<string>): seq<string> {
    [Title(path)]
    + (if before.None? && after.Some? then ["new file mode 120000", "symlink target: " + after.value]
       else if before.Some? && after.None? then ["deleted file mode 120000", "symlink target removed: " + before.value]
       else if before.Some? && after.Some? then
         ["symlink target changed", "old target: " + before.value, "new target: " + after.value]
       else [])
  }

  function Present<T>(x: T, present: bool): Option<T> {
    if present then Some(x) else None
  }

  /** `_render_one_sided`. */
  function OneSidedLines(w: World, path: string, s: Side, present: bool): seq<string> {
    match s
    case Absent => []
    case LinkSide(target) => LinkLines(path, Present(target, !present), Present(target, present))
    case FileSide(mode, data) =>
      if w.text(data).None? then BinaryLines(w, path, mode, mode, Present(data, !present), Present(data, present))
      else TextLines(path, mode, mode, Present(w.text(data).value, !present), Present(w.text(data).value, present))
  }

  function TextOfSide(w: World, s: Side): Option<string> {
    if s.FileSide? then w.text(s.data) else None
  }

  function DataOf(s: Side): Option<Bytes> {
    if s.FileSide? then Some(s.data) else None
  }

  function TargetOf(s: Side): Option<string> {
    if s.LinkSide? then Some(s.target) else None
  }

  /** `_render_pair`. */
  function RenderPair(w: World, path: string, a: Side, b: Side): string {
    if a.Absent? && b.Absent? then ""
    else if a.LinkSide? || b.LinkSide? then
      if a.FileSide? || b.FileSide? then
        Join([Join(OneSidedLines(w, path, a, false), '\n'), Join(OneSidedLines(w, path, b, true), '\n')], '\n')
      else Join(LinkLines(path, TargetOf(a), TargetOf(b)), '\n')
    else if (a.FileSide? && TextOfSide(w, a).None?) || (b.FileSide? && TextOfSide(w, b).None?) then
      Join(BinaryLines(w, path, ModeOf(a), ModeOf(b), DataOf(a), DataOf(b)), '\n')
    else Join(TextLines(path, ModeOf(a), ModeOf(b), TextOfSide(w, a), TextOfSide(w, b)), '\n')
  }

  lemma JoinNonEmpty(parts: seq<string>, c: char)
    requires parts != [] && parts[0] != ""
    ensures Join(parts, c) != ""
  {}

  /** A path with something on either side is never rendered as nothing, so no change is dropped. */
  lemma PairIsRendered(w: World, path: string, a: Side, b: Side)
    ensures RenderPair(w, path, a, b) == "" <==> a.Absent? && b.Absent?
  {
    hide Join, Hunk, Decimal;
    forall lines: seq<string> | lines != [] && lines[0] == Title(path) ensures Join(lines, '\n') != "" {
      JoinNonEmpty(lines, '\n');
    }
    forall x: string, y: string | x != "" ensures Join([x, y], '\n') != "" {
      JoinNonEmpty([x, y], '\n');
    }
  }

  // ---- reading a text block back --------------------------------------------------------------------------------

  /** How many lines precede the hunk. */
  function HunkAt(lines: seq<string>): (k: nat)
    ensures k <= |lines|
  {
    if lines == [] || StartsWith(lines[0], '@') then 0 else 1 + HunkAt(lines[1..])
  }

  function ReadBlock(block: string): Option<(Option<string>, Option<string>)> {
    var lines := Split(block, '\n');
    var k := HunkAt(lines);
    if k < |lines| then Some(ReadHunk(lines[k..])) else None
  }

  lemma {:induction false} HunkAfter(header: seq<string>, hunk: seq<string>)
    requires (forall i :: 0 <= i < |header| ==> !StartsWith(header[i], '@')) && hunk != [] && StartsWith(hunk[0], '@')
    ensures HunkAt(header + hunk) == |header|
  {
    if header == [] {
      assert header + hunk == hunk;
    } else {
      assert (header + hunk)[0] == header[0] && (header + hunk)[1..] == header[1..] + hunk;
      HunkAfter(header[1..], hunk);
    }
  }

  ghost predicate Clean(lines: seq<string>) {
    forall i :: 0 <= i < |lines| ==> '\n' !in lines[i]
  }

  lemma HeaderIsClean(path: string, a: EntryMode, b: EntryMode, before: Option<string>, after: Option<string>)
    requires '\n' !in path
    ensures var h := TextHeader(path, a, b, before, after);
            Clean(h) && forall i :: 0 <= i < |h| ==> !StartsWith(h[i], '@')
  {
    hide Title, ModeText;
    TitleIsClean(path);
    ModeIsClean(a);
    ModeIsClean(b);
  }

  lemma TitleIsClean(path: string)
    requires '\n' !in path
    ensures '\n' !in Title(path) && Title(path) != "" && Title(path)[0] == 'd'
  {}

  lemma ModeIsClean(m: EntryMode)
    ensures '\n' !in ModeText(m)
  {}

  lemma {:induction false} DecimalIsClean(n: nat)
    ensures '\n' !in Decimal(n)
  {
    if n >= 10 {
      DecimalIsClean(n / 10);
    }
  }

  lemma SideIsClean(content: Option<string>, c: char)
    requires c != '\n'
    ensures Clean(SideLines(c, SideOf(content)))
  {
    assert '\n' !in MARK;
    if content.Some? {
      var lines := Split(content.value, '\n');
      forall i | 0 <= i < |lines| ensures '\n' !in lines[i] {
        SplitHasNoSeparator(content.value, '\n', i);
      }
    }
  }

  lemma HunkIsClean(before: Option<string>, after: Option<string>)
    ensures var h := Hunk(SideOf(before), SideOf(after)); Clean(h) && StartsWith(h[0], '@')
  {
    SideIsClean(before, '-');
    SideIsClean(after, '+');
    var a, b := SideOf(before), SideOf(after);
    hide SideOf, SideLines;
    DecimalIsClean(|a.lines|);
    DecimalIsClean(|b.lines|);
    hide Decimal;
    assert '\n' !in Header(a, b) && Header(a, b)[0] == '@';
  }

  /** A text block determines both contents: nothing but the path's own newline could blur it. */
  lemma TextBlockRoundTrip(path: string, a: EntryMode, b: EntryMode, before: Option<string>, after: Option<string>)
    requires '\n' !in path
    ensures ReadBlock(Join(TextLines(path, a, b, before, after), '\n')) == Some((before, after))
  {
    hide TextHeader, Hunk, SideOf, Join, Split, ReadHunk;
    var header, hunk := TextHeader(path, a, b, before, after), Hunk(SideOf(before), SideOf(after));
    HeaderIsClean(path, a, b, before, after);
    HunkIsClean(before, after);
    assert hunk != [] by { HunkIsNonEmpty(SideOf(before), SideOf(after)); }
    SplitJoin(header + hunk, '\n');
    HunkAfter(header, hunk);
    assert (header + hunk)[|header|..] == hunk;
    HunkRoundTrip(before, after);
  }

  // ---- the sides of a rendered pair -----------------------------------------------------------------------------

  /** Two text sides, one of them possibly absent: what is read back is the old content first, then the new one. */
  lemma PairOfTexts(w: World, path: string, a: Side, b: Side)
    requires '\n' !in path && !a.LinkSide? && !b.LinkSide? && !(a.Absent? && b.Absent?)
    requires (a.FileSide? ==> w.text(a.data).Some?) && (b.FileSide? ==> w.text(b.data).Some?)
    ensures ReadBlock(RenderPair(w, path, a, b))
            == Some((if a.FileSide? then w.text(a.data) else None, if b.FileSide? then w.text(b.data) else None))
  {
    hide TextLines, Join, ReadBlock;
    TextBlockRoundTrip(path, ModeOf(a), ModeOf(b), TextOfSide(w, a), TextOfSide(w, b));
  }

  /** The mode lines of a text block: both modes only where they differ, the one mode where a side is absent. */
  lemma ModesSay(path: string, a: EntryMode, b: EntryMode, before: Option<string>, after: Option<string>)
    requires before.Some? || after.Some?
    ensures var h := TextHeader(path, a, b, before, after);
            && h[0] == "diff --git a/" + path + " b/" + path
            && (before.Some? && after.Some? && a == b ==> h[1..] == ["--- a/" + path, "+++ b/" + path])
            && (before.Some? && after.Some? && a != b ==>
                  h[1..] == ["old mode " + ModeText(a), "new mode " + ModeText(b), "--- a/" + path, "+++ b/" + path])
            && (before.None? ==> h[1..] == ["new file mode " + ModeText(b), "--- /dev/null", "+++ b/" + path])
            && (after.None? ==> h[1..] == ["deleted file mode " + ModeText(a), "--- a/" + path, "+++ /dev/null"])
    ensures ModeText(Regular) == "100644" && ModeText(Executable) == "100755" && ModeText(Symlink) == "120000"
  {
    hide ModeText;
    assert ModeText(Regular) == "100644" && ModeText(Executable) == "100755" && ModeText(Symlink) == "120000" by {
      ModeTexts();
    }
  }

  lemma ModeTexts()
    ensures ModeText(Regular) == "100644" && ModeText(Executable) == "100755" && ModeText(Symlink) == "120000"
  {}

  /** Two links: the old target is named before the new one. */
  lemma PairOfLinks(w: World, path: string, a: string, b: string)
    requires '\n' !in path + a + b
    ensures Split(RenderPair(w, path, LinkSide(a), LinkSide(b)), '\n')
            == ["diff --git a/" + path + " b/" + path, "symlink target changed", "old target: " + a,
                "new target: " + b]
  {
    var lines := LinkLines(path, Some(a), Some(b));
    assert Clean(lines) by { LinkIsClean(path, a, b); }
    hide Split, Join, LinkLines;
    SplitJoin(lines, '\n');
  }

  lemma LinkIsClean(path: string, a: string, b: string)
    requires '\n' !in path + a + b
    ensures Clean(LinkLines(path, Some(a), Some(b)))
    ensures LinkLines(path, Some(a), Some(b))
            == ["diff --git a/" + path + " b/" + path, "symlink target changed", "old target: " + a,
                "new target: " + b]
  {
    assert forall c :: c in path || c in a || c in b ==> c in path + a + b;
    TitleIsClean(path);
  }

  /** Two files of which one is binary: after the header the old digest and size stand before the new ones. */
  lemma PairOfBinaries(w: World, path: string, a: Side, b: Side) returns (header: seq<string>)
    requires a.FileSide? && b.FileSide? && (w.text(a.data).None? || w.text(b.data).None?)
    ensures header == ["diff --git a/" + path + " b/" + path]
                      + if a.mode == b.mode then []
                        else ["old mode " + ModeText(a.mode), "new mode " + ModeText(b.mode)]
    ensures RenderPair(w, path, a, b)
            == Join(header + ["Binary file changed: " + ("sha256=" + w.sha(a.data)) + "->" + w.sha(b.data)
                              + " bytes=" + Decimal(|a.data|) + "->" + Decimal(|b.data|)], '\n')
  {
    header := [Title(path)]
              + if a.mode == b.mode then [] else ["old mode " + ModeText(a.mode), "new mode " + ModeText(b.mode)];
    hide Join, Decimal, ModeText;
    assert BinaryLines(w, path, a.mode, b.mode, Some(a.data), Some(b.data))
           == header + ["Binary file changed: " + ("sha256=" + w.sha(a.data)) + "->" + w.sha(b.data)
                        + " bytes=" + Decimal(|a.data|) + "->" + Decimal(|b.data|)];
  }

  /** Where a link takes the place of a file or the reverse, first the old side is removed, then the new one added. */
  lemma PairOfKinds(w: World, path: string, a: Side, b: Side)
    requires (a.LinkSide? && b.FileSide?) || (a.FileSide? && b.LinkSide?)
    ensures RenderPair(w, path, a, b)
            == RenderPair(w, path, a, Absent) + "\n" + RenderPair(w, path, Absent, b)
  {
    OneSidedIsPair(w, path, a);
    OneSidedIsPair(w, path, b);
    hide OneSidedLines, LinkLines, BinaryLines, TextLines, Join;
    var x, y := Join(OneSidedLines(w, path, a, false), '\n'), Join(OneSidedLines(w, path, b, true), '\n');
    assert RenderPair(w, path, a, b) == Join([x, y], '\n');
    hide RenderPair;
    JoinPair(x, y);
  }

  lemma JoinPair(x: string, y: string)
    ensures Join([x, y], '\n') == x + "\n" + y
  {
    assert [x, y][1..] == [y];
    assert Join([x, y], '\n') == x + (['\n'] + y);
  }

  lemma OneSidedIsPair(w: World, path: string, s: Side)
    requires !s.Absent?
    ensures Join(OneSidedLines(w, path, s, false), '\n') == RenderPair(w, path, s, Absent)
    ensures Join(OneSidedLines(w, path, s, true), '\n') == RenderPair(w, path, Absent, s)
  {
    hide Join, Hunk, Decimal;
  }

  lemma HunkIsNonEmpty(a: Rendered, b: Rendered)
    ensures Hunk(a, b) != []
  {}

  // ---- what comparison of decoded link targets misses -----------------------------------------------------------

  /** What is really stored on each side: link targets as bytes. */
  datatype Stored = Gone | Stored(mode: EntryMode, data: Bytes)

  function StoredBaseline(w: World, path: string): Stored {
    if path in w.tracked then Stored(w.tracked[path].mode, w.blob(w.tracked[path].oid)) else Gone
  }

  function StoredCurrent(w: World, path: string): Stored {
    var s := CurrentSide(w, path);
    if s == Absent then Gone else Stored(ModeOf(s), CurrentBytes(w, s))
  }

  /** The baseline is a link whose target is not valid text, and the current link is what lossy decoding made of it. */
  predicate LossyLink(w: World, path: string) {
    && path in w.tracked && w.tracked[path].mode == Symlink
    && var data := w.blob(w.tracked[path].oid);
       w.encode(w.decode(data)) != Some(data) && CurrentSide(w, path) == LinkSide(w.decode(data))
  }

  /** A change of the stored bytes is reported if and only if the path is not such a link. */
  lemma ReportedUnlessLossy(w: World, path: string)
    requires Addressed(w) && !Raises(w, path) && StoredBaseline(w, path) != StoredCurrent(w, path)
    ensures Changed(w, path) <==> !LossyLink(w, path)
  {
  }

  /** And nothing is reported where the stored bytes agree. */
  lemma UnchangedIsNotReported(w: World, path: string)
    requires Addressed(w) && !Raises(w, path) && StoredBaseline(w, path) == StoredCurrent(w, path)
    ensures !Changed(w, path)
  {
    var s := CurrentSide(w, path);
    assert s.LinkSide? ==> w.decode(w.encode(s.target).value) == s.target;
  }

  /** The concrete case: byte FF as baseline target, U+FFFD as the current one, under UTF-8 with replacement. */
  lemma ReplacedLinkIsMissed(w: World, path: string)
    requires path in w.tracked && w.tracked[path].mode == Symlink && w.blob(w.tracked[path].oid) == [0xFF]
    requires w.read(path) == ALink("\U{FFFD}")
    requires w.decode([0xFF]) == "\U{FFFD}" && w.encode("\U{FFFD}") == Some([0xEF, 0xBF, 0xBD])
    ensures StoredBaseline(w, path) != StoredCurrent(w, path) && !Changed(w, path)
  {
    var a: Bytes, b: Bytes := [0xFF], [0xEF, 0xBF, 0xBD];
    assert |a| != |b|;
  }
}
