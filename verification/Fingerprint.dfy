/** The bounded content fingerprint of a candidate directory: `_fingerprint_records` of collab_runtime/candidates.py. */
module Fingerprint {
  import opened Common
  import opened StringOrder
  import opened Text
  import opened Paths
  import opened FinalSet

  datatype Anomaly = Unreadable | SymbolicLink | NotRegular | Replaced

  /** What a walk can meet; links, devices, unreadable or replaced entries are `Strange`. */
  datatype Node = FileNode(mode: nat, content: Bytes) | DirNode(listing: Listing) | Strange(anomaly: Anomaly)

  /** Why the evidence is incomplete. */
  datatype Reason = Strangeness(anomaly: Anomaly) | Oversize | TooDeep | BytesOverrun | EntriesOverrun | NoDirectory

  /** A directory in the order in which the system lists it. */
  datatype Listing = Nothing | More(name: string, node: Node, rest: Listing)

  datatype Record = FileRecord(path: string, mode: nat, hash: string) | Marker(path: string, reason: Reason)

  /** The originally materialized paths, case folding and the content hash. */
  datatype Config = Config(originals: set<string>, fold: string -> string, sha: Bytes -> string)

  predicate Overrun(r: Record) {
    r.Marker? && r.reason in {BytesOverrun, EntriesOverrun}
  }

  const ENTRY_BUDGET: nat := 2 * MAX_BASELINE_FILES
  const MAX_DEPTH: nat := 64
  const CACHE_NAMES: set<string> := {
    "__pycache__", ".pytest_cache", ".mypy_cache", ".ruff_cache", ".hypothesis", ".eggs"}

  function Place(prefix: string): string {
    if prefix == "" then "." else prefix
  }

  predicate IsBytecode(name: string) {
    |name| >= 4 && name[|name| - 4..] == ".pyc"
  }

  function OriginalDirs(c: Config): set<string> {
    set p, d | p in c.originals && d in AncestorPrefixes(p) :: d
  }

  predicate SkipsDir(c: Config, name: string, rel: string) {
    c.fold(name) in CACHE_NAMES && rel !in OriginalDirs(c)
  }

  predicate SkipsFile(c: Config, name: string, rel: string) {
    rel !in c.originals && IsBytecode(name)
  }

  // ---- what a walk is meant to see ------------------------------------------------------------------------------

  ghost function Files(c: Config, l: Listing, prefix: string): set<Record>
    decreases l
  {
    match l
    case Nothing => {}
    case More(name, node, rest) => FilesAt(c, name, node, prefix) + Files(c, rest, prefix)
  }

  ghost function FilesAt(c: Config, name: string, node: Node, prefix: string): set<Record>
    decreases node
  {
    if name == ".git" then {}
    else
      match node
      case FileNode(mode, content) =>
        if SkipsFile(c, name, prefix + name) then {} else {FileRecord(prefix + name, mode, c.sha(content))}
      case DirNode(l) => if SkipsDir(c, name, prefix + name) then {} else Files(c, l, prefix + name + "/")
      case Strange(_) => {}
  }

  // ---- when a walk can be honest --------------------------------------------------------------------------------

  /** What examining a stretch of directory takes: no anomaly, so many entries, so many bytes. */
  datatype Cost = Cost(clean: bool, entries: nat, bytes: nat)

  function Plus(a: Cost, b: Cost): Cost {
    Cost(a.clean && b.clean, a.entries + b.entries, a.bytes + b.bytes)
  }

  function CostOf(c: Config, l: Listing, prefix: string, depth: nat): Cost
    decreases l
  {
    match l
    case Nothing => Cost(true, 0, 0)
    case More(name, node, rest) => Plus(CostAt(c, name, node, prefix, depth), CostOf(c, rest, prefix, depth))
  }

  function CostAt(c: Config, name: string, node: Node, prefix: string, depth: nat): Cost
    decreases node
  {
    if name == ".git" then Cost(true, 0, 0)
    else
      match node
      case Strange(_) => Cost(false, 1, 0)
      case FileNode(_, content) =>
        if SkipsFile(c, name, prefix + name) then Cost(true, 1, 0)
        else Cost(|content| <= MAX_BASELINE_FILE, 1, |content|)
      case DirNode(l) =>
        if SkipsDir(c, name, prefix + name) then Cost(true, 1, 0)
        else Plus(Cost(depth + 1 <= MAX_DEPTH, 1, 0), CostOf(c, l, prefix + name + "/", depth + 1))
  }

  predicate Within(cost: Cost, entries: nat, bytes: nat) {
    cost.clean && entries + cost.entries <= ENTRY_BUDGET && bytes + cost.bytes <= MAX_BASELINE_TOTAL
  }

  lemma GitIsFree(c: Config, node: Node, prefix: string, depth: nat)
    ensures CostAt(c, ".git", node, prefix, depth) == Cost(true, 0, 0) && FilesAt(c, ".git", node, prefix) == {}
  {}

  lemma EntryCosts(c: Config, name: string, node: Node, prefix: string, depth: nat)
    requires name != ".git"
    ensures CostAt(c, name, node, prefix, depth).entries >= 1
  {}

  lemma {:induction false} LengthIsCost(c: Config, l: Listing, prefix: string, depth: nat)
    requires WellNamed(l)
    ensures Length(l) <= CostOf(c, l, prefix, depth).entries + (if Find(l, ".git").Some? then 1 else 0)
    decreases l
  {
    hide CostAt;
    if l.More? {
      if l.name != ".git" {
        EntryCosts(c, l.name, l.node, prefix, depth);
      }
      LengthIsCost(c, l.rest, prefix, depth);
    }
  }

  function Size(l: Listing): nat {
    match l
    case Nothing => 0
    case More(_, node, rest) => 1 + (if node.DirNode? then Size(node.listing) else 0) + Size(rest)
  }

  function Length(l: Listing): nat {
    match l
    case Nothing => 0
    case More(_, _, rest) => 1 + Length(rest)
  }

  // ---- sorting by name ------------------------------------------------------------------------------------------

  function InsertEntry(name: string, node: Node, l: Listing): Listing {
    match l
    case Nothing => More(name, node, Nothing)
    case More(n, d, rest) =>
      if Less(n, name) then More(n, d, InsertEntry(name, node, rest)) else More(name, node, l)
  }

  function SortListing(l: Listing): Listing {
    match l
    case Nothing => Nothing
    case More(n, d, rest) => InsertEntry(n, d, SortListing(rest))
  }

  lemma {:induction false} InsertKeeps(c: Config, name: string, node: Node, l: Listing, prefix: string, depth: nat)
    ensures Size(InsertEntry(name, node, l)) == Size(More(name, node, l))
    ensures Files(c, InsertEntry(name, node, l), prefix) == Files(c, More(name, node, l), prefix)
    ensures CostOf(c, InsertEntry(name, node, l), prefix, depth) == CostOf(c, More(name, node, l), prefix, depth)
    decreases l
  {
    hide FilesAt, CostAt, Less;
    if l.More? {
      InsertKeeps(c, name, node, l.rest, prefix, depth);
    }
  }

  /** Sorting a directory changes neither what it holds nor its size. */
  lemma {:induction false} SortKeeps(c: Config, l: Listing, prefix: string, depth: nat)
    ensures Size(SortListing(l)) == Size(l) && Files(c, SortListing(l), prefix) == Files(c, l, prefix)
    ensures CostOf(c, SortListing(l), prefix, depth) == CostOf(c, l, prefix, depth)
    decreases l
  {
    if l.More? {
      hide FilesAt, CostAt;
      SortKeeps(c, l.rest, prefix, depth);
      InsertKeeps(c, l.name, l.node, SortListing(l.rest), prefix, depth);
    }
  }

  lemma {:induction false} InsertWellNamed(name: string, node: Node, l: Listing, x: string)
    requires WellNamed(More(name, node, l))
    ensures WellNamed(InsertEntry(name, node, l))
    ensures Find(InsertEntry(name, node, l), x) == Find(More(name, node, l), x)
    decreases l
  {
    if l.More? && Less(l.name, name) {
      InsertWellNamed(name, node, l.rest, x);
      InsertWellNamed(name, node, l.rest, l.name);
    }
  }

  lemma {:induction false} SortedFind(l: Listing, x: string)
    requires WellNamed(l)
    ensures WellNamed(SortListing(l)) && Find(SortListing(l), x) == Find(l, x)
    decreases l
  {
    if l.More? {
      SortedFind(l.rest, x);
      SortedFind(l.rest, l.name);
      InsertWellNamed(l.name, l.node, SortListing(l.rest), x);
    }
  }

  lemma SortedWellNamed(l: Listing)
    requires WellNamed(l)
    ensures WellNamed(SortListing(l))
  {
    SortedFind(l, "");
  }

  // ---- the walk -------------------------------------------------------------------------------------------------

  class Walk {
    const config: Config
    var records: seq<Record>
    var complete: bool
    var entries: nat
    var bytes: nat
    var exhausted: bool

    ghost predicate Valid()
      reads this
    {
      && entries <= ENTRY_BUDGET && (exhausted ==> !complete) && (complete ==> bytes <= MAX_BASELINE_TOTAL)
      && (bytes <= MAX_BASELINE_TOTAL || (exhausted && bytes <= MAX_BASELINE_TOTAL + MAX_BASELINE_FILE))
      && (complete <==> forall r :: r in records ==> r.FileRecord?)
      && StopsAtOverrun()
    }

    /** The walk stops exactly at the overrun of a budget, which is then the last thing recorded. */
    ghost predicate StopsAtOverrun()
      reads this
    {
      && (exhausted ==> records != [] && Overrun(Last(records)))
      && (forall k :: 0 <= k < |records| && Overrun(records[k]) ==> exhausted && k == |records| - 1)
    }

    /** As `Valid`, between setting the stop flag and recording why. */
    ghost predicate Consistent()
      reads this
    {
      && entries <= ENTRY_BUDGET && bytes <= MAX_BASELINE_TOTAL + MAX_BASELINE_FILE
      && (complete ==> forall r :: r in records ==> r.FileRecord?)
      && (!complete ==> exists r :: r in records && r.Marker?)
      && (forall r :: r in records ==> !Overrun(r))
    }

    constructor (config: Config)
      ensures Valid() && this.config == config && records == [] && complete && entries == 0 && bytes == 0 && !exhausted
    {
      this.config := config;
      records, complete, entries, bytes, exhausted := [], true, 0, 0, false;
    }

    /** Every anomaly makes the evidence incomplete. */
    method Mark(path: string, reason: Reason)
      requires Consistent() && (bytes <= MAX_BASELINE_TOTAL || exhausted)
      requires exhausted <==> Overrun(Marker(path, reason))
      modifies this`records, this`complete
      ensures Valid() && !complete && records == old(records) + [Marker(path, reason)]
    {
      records := records + [Marker(path, reason)];
      complete := false;
      assert Marker(path, reason) in records;
    }

    method ReadRegular(rel: string, mode: nat, content: Bytes)
      requires Valid() && !exhausted
      modifies this`records, this`complete, this`bytes, this`exhausted
      ensures Valid() && (complete ==> old(complete))
      ensures complete ==> Elements(records) == old(Elements(records)) + {FileRecord(rel, mode, config.sha(content))}
      ensures complete <==>
                old(complete) && Within(Cost(|content| <= MAX_BASELINE_FILE, 0, |content|), entries, old(bytes))
      ensures complete ==> bytes == old(bytes) + |content|
    {
      if |content| > MAX_BASELINE_FILE {
        Mark(rel, Oversize);
        return;
      }
      bytes := bytes + |content|;
      if bytes > MAX_BASELINE_TOTAL {
        exhausted := true;
        Mark(rel, BytesOverrun);
        return;
      }
      records := records + [FileRecord(rel, mode, config.sha(content))];
    }

    /** One entry, within the entry budget. */
    method VisitEntry(name: string, node: Node, prefix: string, depth: nat)
      requires Valid() && !exhausted && entries < ENTRY_BUDGET && name != ".git"
      requires node.DirNode? ==> WellNamed(node.listing)
      modifies this
      ensures Valid()
      ensures var cost := CostAt(config, name, node, prefix, depth);
              && (complete <==> old(complete) && Within(cost, old(entries), old(bytes)))
              && (complete ==> entries == old(entries) + cost.entries && bytes == old(bytes) + cost.bytes)
      ensures complete ==> Elements(records) == old(Elements(records)) + FilesAt(config, name, node, prefix)
      decreases if node.DirNode? then Size(node.listing) else 0, 2
    {
      hide SkipsFile, SkipsDir, Files, CostOf, WellNamed;
      var rel := prefix + name;
      entries := entries + 1;
      match node
      case Strange(anomaly) => Mark(rel, Strangeness(anomaly));
      case FileNode(mode, content) =>
        if !SkipsFile(config, name, rel) {
          ReadRegular(rel, mode, content);
        }
      case DirNode(l) =>
        if !SkipsDir(config, name, rel) {
          Visit(l, rel + "/", depth + 1);
        }
    }

    /** `visit`: enumeration is bounded by the remaining budget before sorting; exhaustion stops the whole walk. */
    method Visit(l: Listing, prefix: string, depth: nat)
      requires Valid() && WellNamed(l)
      modifies this
      ensures Valid()
      ensures var cost := CostOf(config, l, prefix, depth);
              && (complete <==> old(complete) && depth <= MAX_DEPTH && Within(cost, old(entries), old(bytes)))
              && (complete ==> entries == old(entries) + cost.entries && bytes == old(bytes) + cost.bytes)
      ensures complete ==> Elements(records) == old(Elements(records)) + Files(config, l, prefix)
      decreases Size(l), 1
    {
      hide FilesAt, CostAt, SortListing, Less;
      if exhausted {
        return;
      }
      if depth > MAX_DEPTH {
        Mark(Place(prefix), TooDeep);
        return;
      }
      LengthIsCost(config, l, prefix, depth);
      if Length(l) > ENTRY_BUDGET - entries + 1 {
        exhausted := true;
        Mark(Place(prefix), EntriesOverrun);
        return;
      }
      SortKeeps(config, l, prefix, depth);
      SortedWellNamed(l);
      ghost var total := CostOf(config, l, prefix, depth);
      var rest := SortListing(l);
      while rest.More? && !exhausted
        invariant Valid() && Size(rest) <= Size(l) && WellNamed(rest)
        invariant var left := CostOf(config, rest, prefix, depth);
                  if complete then
                    && old(complete) && entries + left.entries == old(entries) + total.entries
                    && bytes + left.bytes == old(bytes) + total.bytes && left.clean == total.clean
                  else !(old(complete) && Within(total, old(entries), old(bytes)))
        invariant complete ==>
                    Elements(records) + Files(config, rest, prefix) == old(Elements(records)) + Files(config, l, prefix)
        decreases Size(rest)
      {
        GitIsFree(config, rest.node, prefix, depth);
        if rest.name != ".git" {
          EntryCosts(config, rest.name, rest.node, prefix, depth);
          if entries == ENTRY_BUDGET {
            exhausted := true;
            Mark(Place(prefix), EntriesOverrun);
            return;
          }
          VisitEntry(rest.name, rest.node, prefix, depth);
        }
        rest := rest.rest;
      }
    }
  }

  /** `_fingerprint_records`: a complete walk has recorded exactly the files it is meant to see. */
  method FingerprintRecords(config: Config, root: Node) returns (records: seq<Record>, complete: bool, examined: nat)
    requires root.DirNode? ==> WellNamed(root.listing)
    ensures complete <==> root.DirNode? && Within(CostOf(config, root.listing, "", 1), 0, 0)
    ensures complete ==> Elements(records) == Files(config, root.listing, "")
    ensures complete <==> forall r :: r in records ==> r.FileRecord?
    ensures forall k :: 0 <= k < |records| && Overrun(records[k]) ==> k == |records| - 1
    ensures examined <= ENTRY_BUDGET
  {
    hide Files, CostOf, WellNamed, Within;
    var walk := new Walk(config);
    if root.DirNode? {
      walk.Visit(root.listing, "", 1);
    } else {
      walk.Mark(".", NoDirectory);
    }
    records, complete, examined := walk.records, walk.complete, walk.entries;
  }

  // ---- paths of the tree ----------------------------------------------------------------------------------------

  /** The first entry of that name. */
  function Find(l: Listing, name: string): Option<Node> {
    match l
    case Nothing => None
    case More(n, node, rest) => if n == name then Some(node) else Find(rest, name)
  }

  function NodeAt(l: Listing, parts: seq<string>): Option<Node>
    requires parts != []
    decreases |parts|
  {
    var node := Find(l, parts[0]);
    if |parts| == 1 || node.None? then node
    else if node.value.DirNode? then NodeAt(node.value.listing, parts[1..])
    else None
  }

  predicate IsName(s: string) {
    s != "" && '/' !in s
  }

  /** File systems name the entries of a directory apart. */
  ghost predicate WellNamed(l: Listing) {
    match l
    case Nothing => true
    case More(name, node, rest) =>
      IsName(name) && Find(rest, name).None? && (node.DirNode? ==> WellNamed(node.listing)) && WellNamed(rest)
  }

  /** Not an administrative entry, not in a generated cache directory, not generated bytecode. */
  predicate Kept(c: Config, prefix: string, parts: seq<string>)
    requires parts != []
    decreases |parts|
  {
    && parts[0] != ".git"
    && (if |parts| == 1 then !SkipsFile(c, parts[0], prefix + parts[0])
        else !SkipsDir(c, parts[0], prefix + parts[0]) && Kept(c, prefix + parts[0] + "/", parts[1..]))
  }

  /** Every original without an administrative component is kept, whatever its directories and name look like. */
  lemma {:induction false} OriginalsAreKept(c: Config, prefix: string, parts: seq<string>)
    requires parts != [] && prefix + Join(parts, '/') in c.originals
    requires forall i :: 0 <= i < |parts| ==> parts[i] != ".git"
    ensures Kept(c, prefix, parts)
    decreases |parts|
  {
    if |parts| > 1 {
      var path := prefix + Join(parts, '/');
      var dir := prefix + parts[0];
      assert path == dir + "/" + Join(parts[1..], '/');
      assert IsAncestorDir(dir, path);
      AncestorPrefixesExact(path, dir);
      assert path == (prefix + parts[0] + "/") + Join(parts[1..], '/');
      OriginalsAreKept(c, prefix + parts[0] + "/", parts[1..]);
    }
  }

  /** The path of the first k parts. */
  function PathOf(prefix: string, parts: seq<string>, k: nat): string
    requires 0 < k <= |parts|
  {
    prefix + Join(parts[..k], '/')
  }

  /** Some original file lies in this directory. */
  ghost predicate HoldsOriginal(c: Config, dir: string) {
    exists p :: p in c.originals && IsAncestorDir(dir, p)
  }

  /**
   What is kept, on the names alone: no part is administrative, no directory has the name of a generated cache unless
   an original lies in it, and the file is not bytecode unless it is an original.
   */
  ghost predicate KeptByName(c: Config, prefix: string, parts: seq<string>)
    requires parts != []
  {
    && (forall i :: 0 <= i < |parts| ==> parts[i] != ".git")
    && (forall i :: 0 <= i < |parts| - 1 ==>
          c.fold(parts[i]) in {"__pycache__", ".pytest_cache", ".mypy_cache", ".ruff_cache", ".hypothesis", ".eggs"} ==>
            HoldsOriginal(c, PathOf(prefix, parts, i + 1)))
    && (EndsWith(Last(parts), ".pyc") ==> PathOf(prefix, parts, |parts|) in c.originals)
  }

  ghost predicate EndsWith(s: string, suffix: string) {
    exists stem :: s == stem + suffix
  }

  lemma BytecodeEnds(name: string)
    ensures IsBytecode(name) <==> EndsWith(name, ".pyc")
  {
    if IsBytecode(name) {
      assert name == name[..|name| - 4] + ".pyc";
    }
  }

  lemma OriginalDirsAre(c: Config, dir: string)
    ensures dir in OriginalDirs(c) <==> HoldsOriginal(c, dir)
  {
    forall p | p in c.originals ensures dir in AncestorPrefixes(p) <==> IsAncestorDir(dir, p) {
      AncestorPrefixesExact(p, dir);
    }
  }

  lemma {:induction false} KeptIsByName(c: Config, prefix: string, parts: seq<string>)
    requires parts != []
    ensures Kept(c, prefix, parts) <==> KeptByName(c, prefix, parts)
    decreases |parts|
  {
    var rel := prefix + parts[0];
    assert PathOf(prefix, parts, 1) == rel;
    if |parts| == 1 {
      BytecodeEnds(parts[0]);
    } else {
      var below, inner := rel + "/", parts[1..];
      OriginalDirsAre(c, rel);
      hide HoldsOriginal, OriginalDirs, EndsWith;
      KeptIsByName(c, below, inner);
      forall k | 0 < k <= |inner| ensures PathOf(below, inner, k) == PathOf(prefix, parts, k + 1) {
        assert parts[..k + 1] == [parts[0]] + inner[..k];
      }
      assert Last(inner) == Last(parts);
      KeptSplits(c, prefix, parts);
    }
  }

  lemma KeptSplits(c: Config, prefix: string, parts: seq<string>)
    requires |parts| > 1
    requires forall k :: 0 < k < |parts| ==>
               PathOf(prefix + parts[0] + "/", parts[1..], k) == PathOf(prefix, parts, k + 1)
    ensures KeptByName(c, prefix, parts) <==>
              && parts[0] != ".git" && KeptByName(c, prefix + parts[0] + "/", parts[1..])
              && (c.fold(parts[0]) in CACHE_NAMES ==> HoldsOriginal(c, PathOf(prefix, parts, 1)))
  {
    hide HoldsOriginal, PathOf, EndsWith;
    var below, inner := prefix + parts[0] + "/", parts[1..];
    assert Last(inner) == Last(parts);
    assert forall i :: 0 <= i < |inner| ==> inner[i] == parts[i + 1];
    if KeptByName(c, below, inner) {
      forall i | 0 <= i < |parts| ensures parts[i] == parts[0] || parts[i] == inner[i - 1] {}
    }
  }

  lemma {:induction false} FoundIsIncluded(c: Config, l: Listing, name: string, prefix: string)
    requires Find(l, name).Some?
    ensures FilesAt(c, name, Find(l, name).value, prefix) <= Files(c, l, prefix)
    decreases l
  {
    if l.name != name {
      FoundIsIncluded(c, l.rest, name, prefix);
    }
  }

  /** Every kept file of the tree is in the specification of the walk. */
  lemma {:induction false} KeptIsIncluded(c: Config, l: Listing, prefix: string, parts: seq<string>, mode: nat,
                                          content: Bytes)
    requires parts != [] && NodeAt(l, parts) == Some(FileNode(mode, content)) && Kept(c, prefix, parts)
    ensures FileRecord(prefix + Join(parts, '/'), mode, c.sha(content)) in Files(c, l, prefix)
    decreases |parts|
  {
    FoundIsIncluded(c, l, parts[0], prefix);
    if |parts| > 1 {
      var inner := Find(l, parts[0]).value.listing;
      KeptIsIncluded(c, inner, prefix + parts[0] + "/", parts[1..], mode, content);
      assert prefix + Join(parts, '/') == (prefix + parts[0] + "/") + Join(parts[1..], '/');
    }
  }

  /** Every record of the specification is a kept file of the tree. */
  lemma {:induction false} IncludedIsKept(c: Config, l: Listing, prefix: string, r: Record)
    returns (parts: seq<string>, content: Bytes)
    requires WellNamed(l) && r in Files(c, l, prefix)
    ensures r.FileRecord? && parts != [] && (forall i :: 0 <= i < |parts| ==> IsName(parts[i]))
             && Kept(c, prefix, parts)
    ensures NodeAt(l, parts) == Some(FileNode(r.mode, content))
    ensures r.path == prefix + Join(parts, '/') && r.hash == c.sha(content)
    decreases l
  {
    if r in FilesAt(c, l.name, l.node, prefix) {
      parts := [l.name];
      if l.node.FileNode? {
        content := l.node.content;
      } else {
        var below;
        below, content := IncludedIsKept(c, l.node.listing, prefix + l.name + "/", r);
        parts := [l.name] + below;
        assert parts[1..] == below;
        assert prefix + Join(parts, '/') == (prefix + l.name + "/") + Join(below, '/');
      }
    } else {
      parts, content := IncludedIsKept(c, l.rest, prefix, r);
      assert Find(l.rest, parts[0]).Some?;
    }
  }

  /** A file of the tree is recorded exactly if its names keep it. */
  lemma RecordedIffKeptByName(c: Config, l: Listing, parts: seq<string>, mode: nat, content: Bytes)
    requires WellNamed(l) && parts != [] && forall i :: 0 <= i < |parts| ==> IsName(parts[i])
    requires NodeAt(l, parts) == Some(FileNode(mode, content))
    ensures FileRecord(Join(parts, '/'), mode, c.sha(content)) in Files(c, l, "") <==> KeptByName(c, "", parts)
  {
    var r := FileRecord(Join(parts, '/'), mode, c.sha(content));
    assert "" + Join(parts, '/') == Join(parts, '/');
    KeptIsByName(c, "", parts);
    hide KeptByName, Files, WellNamed, NodeAt;
    if Kept(c, "", parts) {
      KeptIsIncluded(c, l, "", parts, mode, content);
    }
    if r in Files(c, l, "") {
      var parts', other := IncludedIsKept(c, l, "", r);
      SplitJoin(parts, '/');
      SplitJoin(parts', '/');
      assert "" + Join(parts', '/') == Join(parts', '/');
    }
  }

  // ---- anomalies of the tree ------------------------------------------------------------------------------------

  /** The walk examines this entry: it is not below an administrative or a skipped directory. */
  ghost predicate Reached(c: Config, prefix: string, parts: seq<string>)
    requires parts != []
    decreases |parts|
  {
    && parts[0] != ".git"
    && (|parts| > 1 ==> !SkipsDir(c, parts[0], prefix + parts[0]) && Reached(c, prefix + parts[0] + "/", parts[1..]))
  }

  /** An entry that can be examined honestly: no anomaly, no oversized file to be recorded, no directory too deep. */
  ghost predicate Examinable(c: Config, prefix: string, parts: seq<string>, node: Node, depth: nat)
    requires parts != []
  {
    match node
    case Strange(_) => false
    case FileNode(_, content) => Kept(c, prefix, parts) ==> |content| <= MAX_BASELINE_FILE
    case DirNode(_) => Entered(c, prefix, parts) ==> depth + |parts| <= MAX_DEPTH
  }

  /** A directory whose entries are visited. */
  ghost predicate Entered(c: Config, prefix: string, parts: seq<string>)
    requires parts != []
    decreases |parts|
  {
    && parts[0] != ".git" && !SkipsDir(c, parts[0], prefix + parts[0])
    && (|parts| > 1 ==> Entered(c, prefix + parts[0] + "/", parts[1..]))
  }

  lemma {:induction false} CleanAt(c: Config, l: Listing, prefix: string, depth: nat, parts: seq<string>)
    requires CostOf(c, l, prefix, depth).clean && parts != [] && NodeAt(l, parts).Some? && Reached(c, prefix, parts)
    ensures Examinable(c, prefix, parts, NodeAt(l, parts).value, depth)
    decreases |parts|, l
  {
    hide SkipsDir, SkipsFile, CostAt, Kept, Entered, Examinable;
    if l.name != parts[0] {
      CleanAt(c, l.rest, prefix, depth, parts);
    } else if |parts| > 1 {
      CleanDir(c, prefix, parts[0], l.node, depth);
      CleanAt(c, l.node.listing, prefix + parts[0] + "/", depth + 1, parts[1..]);
      ExaminableBelow(c, prefix, parts, NodeAt(l, parts).value, depth);
    } else {
      CleanLeaf(c, prefix, parts, l.node, depth);
    }
  }

  lemma CleanDir(c: Config, prefix: string, name: string, node: Node, depth: nat)
    requires CostAt(c, name, node, prefix, depth).clean && node.DirNode? && name != ".git"
    requires !SkipsDir(c, name, prefix + name)
    ensures CostOf(c, node.listing, prefix + name + "/", depth + 1).clean
  {
    hide CostOf;
  }

  lemma CleanLeaf(c: Config, prefix: string, parts: seq<string>, node: Node, depth: nat)
    requires |parts| == 1 && CostAt(c, parts[0], node, prefix, depth).clean && parts[0] != ".git"
    ensures Examinable(c, prefix, parts, node, depth)
  {
    hide CostOf;
  }

  lemma ExaminableBelow(c: Config, prefix: string, parts: seq<string>, node: Node, depth: nat)
    requires |parts| > 1 && Examinable(c, prefix + parts[0] + "/", parts[1..], node, depth + 1)
    ensures Examinable(c, prefix, parts, node, depth)
  {
    hide SkipsDir, SkipsFile;
  }

  lemma {:induction false} UncleanEntry(c: Config, l: Listing, prefix: string, depth: nat) returns (parts: seq<string>)
    requires WellNamed(l) && !CostOf(c, l, prefix, depth).clean
    ensures parts != [] && NodeAt(l, parts).Some? && Reached(c, prefix, parts)
    ensures !Examinable(c, prefix, parts, NodeAt(l, parts).value, depth)
    decreases l
  {
    hide SkipsDir, SkipsFile, CostAt, Examinable;
    if CostAt(c, l.name, l.node, prefix, depth).clean {
      parts := UncleanEntry(c, l.rest, prefix, depth);
      assert Find(l.rest, parts[0]).Some?;
    } else {
      UncleanNode(c, l.name, l.node, prefix, depth);
      if Examinable(c, prefix, [l.name], l.node, depth) {
        var below := UncleanEntry(c, l.node.listing, prefix + l.name + "/", depth + 1);
        parts := [l.name] + below;
        assert parts[1..] == below;
        UnexaminableBelow(c, prefix, parts, NodeAt(l, parts).value, depth);
      } else {
        parts := [l.name];
      }
    }
  }

  /** An entry that spoils the walk is itself not examinable, or something below it spoils it. */
  lemma UncleanNode(c: Config, name: string, node: Node, prefix: string, depth: nat)
    requires !CostAt(c, name, node, prefix, depth).clean
    ensures name != ".git"
    ensures Examinable(c, prefix, [name], node, depth) ==>
              && node.DirNode? && !SkipsDir(c, name, prefix + name)
              && !CostOf(c, node.listing, prefix + name + "/", depth + 1).clean
  {
    hide CostOf;
  }

  lemma UnexaminableBelow(c: Config, prefix: string, parts: seq<string>, node: Node, depth: nat)
    requires |parts| > 1 && Reached(c, prefix, parts)
    requires !Examinable(c, prefix + parts[0] + "/", parts[1..], node, depth + 1)
    ensures !Examinable(c, prefix, parts, node, depth)
  {
    hide SkipsDir, SkipsFile;
  }

  /** A walk can be honest about a tree exactly if every entry it examines is examinable. */
  lemma CleanIffExaminable(c: Config, l: Listing)
    requires WellNamed(l)
    ensures CostOf(c, l, "", 1).clean <==>
              forall parts: seq<string> :: parts != [] && NodeAt(l, parts).Some? && Reached(c, "", parts) ==>
                Examinable(c, "", parts, NodeAt(l, parts).value, 1)
  {
    if CostOf(c, l, "", 1).clean {
      forall parts: seq<string> | parts != [] && NodeAt(l, parts).Some? && Reached(c, "", parts)
        ensures Examinable(c, "", parts, NodeAt(l, parts).value, 1)
      {
        CleanAt(c, l, "", 1, parts);
      }
    } else {
      var parts := UncleanEntry(c, l, "", 1);
    }
  }

  /**
   Soundness: two complete walks with the same digest saw trees that agree on every kept file, by path, mode and content
   hash.  The digest of the records must not collide.
   */
  lemma EqualDigestsAgree(c: Config, a: Listing, b: Listing, ra: seq<Record>, rb: seq<Record>,
                          digest: seq<Record> -> string, parts: seq<string>, mode: nat, content: Bytes)
    returns (other: Bytes)
    requires WellNamed(a) && WellNamed(b)
    requires Elements(ra) == Files(c, a, "") && Elements(rb) == Files(c, b, "")
    requires digest(ra) == digest(rb) && forall x, y :: digest(x) == digest(y) ==> x == y
    requires parts != [] && (forall i :: 0 <= i < |parts| ==> IsName(parts[i])) && Kept(c, "", parts)
    requires NodeAt(a, parts) == Some(FileNode(mode, content))
    ensures NodeAt(b, parts) == Some(FileNode(mode, other)) && c.sha(other) == c.sha(content)
  {
    KeptIsIncluded(c, a, "", parts, mode, content);
    var r := FileRecord("" + Join(parts, '/'), mode, c.sha(content));
    assert r in Elements(ra) && ra == rb;
    var parts';
    parts', other := IncludedIsKept(c, b, "", r);
    SplitJoin(parts, '/');
    SplitJoin(parts', '/');
    assert "" + Join(parts, '/') == Join(parts, '/') && "" + Join(parts', '/') == Join(parts', '/');
  }
}
