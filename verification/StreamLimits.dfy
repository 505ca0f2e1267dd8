/** The frame limit, the stop flag, and a reader that understands the canonical JSON of the stream. */
module StreamLimits {
  import opened Common
  import opened StringOrder
  import opened Text
  import opened SessionModel
  import opened Replay
  import opened Consumer
  import opened EventStream
  import opened StreamLines
  import opened StreamRoundTrip

  // ---- stopping is a cut ----------------------------------------------------------------------------------------

  lemma ReadLineOfPrefix(wire: string, n: nat)
    requires ReadLine(wire) != "" && Last(ReadLine(wire)) == '\n' && |ReadLine(wire)| <= n <= |wire|
    ensures ReadLine(wire[..n]) == ReadLine(wire)
  {
    var line := ReadLine(wire);
    var k := IndexOfChar(wire, '\n');
    assert wire[|line| - 1] == '\n';
    assert k == |line| - 1;
    assert wire[..n][..k] == wire[..k];
    IndexOfCharIs(wire[..n], '\n', k);
  }

  /** Seeing the stop flag after any number of rounds leaves the inbox as a cut at the end of some line would. */
  lemma {:induction false} StopIsACut(rd: Reader, wire: string, f: Frame, b: Inbox, ticks: nat, enough: nat)
    returns (n: nat)
    requires enough > |wire|
    ensures n <= |wire| && Feed(rd, wire, f, b, ticks).0 == Feed(rd, wire[..n], f, b, enough).0
    decreases ticks
  {
    hide TakeLine, ReadLine;
    var line := ReadLine(wire);
    n := |wire|;
    assert wire[..n] == wire;
    if ticks == 0 {
      n := 0;
      PartialEmpty(rd, f, b, enough);
    } else if |b.pending| != MAX_PENDING_EVENTS && |line| <= MAX_FRAME_BYTES && line != "" && Last(line) == '\n' {
      var e := TakeLine(rd, f, b, line);
      if e.Continue? {
        var k := StopIsACut(rd, wire[|line|..], e.frame, e.inbox, ticks - 1, enough - 1);
        n := |line| + k;
        ReadLineOfPrefix(wire, n);
        FeedUnfolds(rd, wire[..n], f, b, enough, line);
        assert wire[..n][|line|..] == wire[|line|..][..k];
      }
    }
  }

  lemma PartialEmpty(rd: Reader, f: Frame, b: Inbox, ticks: nat)
    ensures Feed(rd, "", f, b, ticks).0 == b
  {
    assert ReadLine("") == "";
  }

  lemma FeedUnfolds(rd: Reader, wire: string, f: Frame, b: Inbox, ticks: nat, line: string)
    requires ReadLine(wire) == line && line != "" && Last(line) == '\n' && |line| <= MAX_FRAME_BYTES
    requires |b.pending| != MAX_PENDING_EVENTS && ticks > 0 && TakeLine(rd, f, b, line).Continue?
    ensures var e := TakeLine(rd, f, b, line);
            Feed(rd, wire, f, b, ticks) == Feed(rd, wire[|line|..], e.frame, e.inbox, ticks - 1)
  {
    hide TakeLine, ReadLine;
  }

  // ---- the size limits ------------------------------------------------------------------------------------------

  /** How many bytes the JSON of a revision takes, and its frame; the JSON cap is the binding limit. */
  lemma EventSize(e: ReplayEvent)
    requires WellFormed(e)
    ensures |EventJson(e)| == 163 + (if e.contextChanged then 0 else 1) + |Quoted(e.changedTasks)|
    ensures |Render(Revision(e))| == |EventJson(e)| + 69
    ensures Carriable(e) <==> |EventJson(e)| <= MAX_JSON_BYTES
  {
    assert |e.revision| == 40;
    hide Quoted, WellFormed;
    assert |EventJson(e)| == 163 + (if e.contextChanged then 0 else 1) + |Quoted(e.changedTasks)|;
    hide EventJson, Render, Body;
    SplitBody(e, "");
  }

  lemma {:induction false} QuotedSize(ids: seq<string>)
    requires forall i :: 0 <= i < |ids| ==> |ids[i]| <= 128
    ensures |Quoted(ids)| <= 131 * |ids|
    ensures ids != [] && (forall i :: 0 <= i < |ids| ==> |ids[i]| == 128) ==> |Quoted(ids)| == 131 * |ids| - 1
  {
    if ids != [] {
      QuotedSize(ids[1..]);
    }
  }

  /** Any revision that changes at most 499 tasks fits, whatever their ids. */
  lemma FourHundredNinetyNineTasksFit(e: ReplayEvent)
    requires WellFormed(e) && |e.changedTasks| <= 499
    ensures Carriable(e)
  {
    EventSize(e);
    hide Render, Quoted, EventJson;
    QuotedSize(e.changedTasks);
  }

  /**
   The stream carries a revision, whole and with room in the inbox, if and only if its quoted task ids take at most
   65373 bytes (one less if the context did not change); otherwise the connection ends in a protocol error.
   */
  lemma CarriedIffFits(rd: Reader, e: ReplayEvent, b: Inbox)
    requires Reads(rd) && WellFormed(e) && Accept(b, e).Some? && |b.pending| < MAX_PENDING_EVENTS
    ensures var r := Feed(rd, Render(Revision(e)), NOTHING, b, |Render(Revision(e))| + 1);
            if |Quoted(e.changedTasks)| <= 65373 - (if e.contextChanged then 0 else 1)
            then r.0 == Accept(b, e).value && r.1 != ProtocolError
            else r == (b, ProtocolError)
  {
    var n := |Render(Revision(e))|;
    hide Accept, Render, Feed, WellFormed, Reads, EventJson, Quoted, Carriable;
    EventSize(e);
    assert Render(Revision(e)) + "" == Render(Revision(e)) && Render(Revision(e))[..n] == Render(Revision(e));
    RevisionArrives(rd, e, "", n, b, n + 1);
    DueBounds(b, Revision(e));
    if Carriable(e) {
      FeedNothing(rd, NOTHING, Accept(b, e).value, n - 3);
    }
  }

  lemma FeedNothing(rd: Reader, f: Frame, b: Inbox, ticks: nat)
    ensures Feed(rd, "", f, b, ticks).0 == b && Feed(rd, "", f, b, ticks).1 in {Retry, Full}
  {
    assert ReadLine("") == "";
  }

  lemma SingletonSorted(r: seq<string>, x: string)
    requires StrictlySorted(r) && forall y :: y in r ==> y == x
    ensures |r| <= 1
  {
    assert forall i :: 0 <= i < |r| ==> r[i] in r;
    if |r| > 1 {
      LessAsymmetric(r[0], r[1]);
    }
  }

  /** A revision made by one context or task edit is always carried. */
  lemma EditIsCarried(rd: Reader, from: (Sha, SessionState), to: (Sha, SessionState), e: Edit, b: Inbox)
    requires to.1 == Apply(e, from.1) && Reads(rd) && WellFormed(EventOf(from, to))
    requires Accept(b, EventOf(from, to)).Some? && |b.pending| < MAX_PENDING_EVENTS
    ensures var event := EventOf(from, to);
            Feed(rd, Render(Revision(event)), NOTHING, b, |Render(Revision(event))| + 1).0 == Accept(b, event).value
  {
    var event := EventOf(from, to);
    hide *;
    EditChangesOneTask(from, to, e);
    FourHundredNinetyNineTasksFit(event);
    CarriedIfCarriable(rd, event, b);
  }

  lemma EditChangesOneTask(from: (Sha, SessionState), to: (Sha, SessionState), e: Edit)
    requires to.1 == Apply(e, from.1)
    ensures |EventOf(from, to).changedTasks| <= 1
  {
    var event := EventOf(from, to);
    assert forall y :: y in event.changedTasks ==> y in ChangedTasks(from.1, to.1);
    SingletonSorted(event.changedTasks, if e.SetTask? then e.task.id else "");
  }

  lemma CarriedIfCarriable(rd: Reader, e: ReplayEvent, b: Inbox)
    requires Reads(rd) && WellFormed(e) && Carriable(e) && Accept(b, e).Some? && |b.pending| < MAX_PENDING_EVENTS
    ensures Feed(rd, Render(Revision(e)), NOTHING, b, |Render(Revision(e))| + 1).0 == Accept(b, e).value
  {
    hide Feed, Render, Accept, Reads, WellFormed, EventJson, Carriable, Quoted;
    EventSize(e);
    CarriedIffFits(rd, e, b);
  }

  // ---- an event the stream cannot carry -------------------------------------------------------------------------

  /** 512 task ids of 128 characters, in order: two letters count, the rest is padding. */
  function LongId(i: nat): string
    requires i < 512
  {
    [('a' as int + i / 24) as char, ('a' as int + i % 24) as char] + seq(126, _ => 'a')
  }

  lemma LongIdsSorted(i: nat, j: nat)
    requires i < j < 512
    ensures Less(LongId(i), LongId(j))
  {
    var a, b := LongId(i), LongId(j);
    assert a[1..][0] == a[1] && b[1..][0] == b[1];
    if i / 24 == j / 24 {
      assert i % 24 < j % 24;
      assert a[1] < b[1];
      assert Less(a[1..], b[1..]);
    }
  }

  function LongIds(n: nat): seq<string>
    requires n <= 512
  {
    seq(n, i requires 0 <= i < n => LongId(i))
  }

  /** From 500 tasks with the longest ids on, a well-formed revision is refused by the stream, every time it is sent. */
  lemma FiveHundredLongIdsAreNotCarried(rd: Reader, e: ReplayEvent, n: nat, b: Inbox)
    requires 500 <= n <= 512 && e.changedTasks == LongIds(n)
    requires Reads(rd) && IsSha(e.previous) && IsSha(e.revision) && e.previous != e.revision
    requires |b.pending| < MAX_PENDING_EVENTS
    ensures WellFormed(e) && !Carriable(e)
    ensures Feed(rd, Render(Revision(e)), NOTHING, b, |Render(Revision(e))| + 1) == (b, ProtocolError)
  {
    hide Render, Feed, EventJson, Reads, Accept, Carriable;
    FiveHundredLongIdsAreTooLarge(e, n);
    hide WellFormed, LongIds;
    TooLargeIsRefused(rd, e, b);
  }

  lemma FiveHundredLongIdsAreTooLarge(e: ReplayEvent, n: nat)
    requires 500 <= n <= 512 && e.changedTasks == LongIds(n)
    requires IsSha(e.previous) && IsSha(e.revision) && e.previous != e.revision
    ensures WellFormed(e) && !Carriable(e)
  {
    LongIdsWellFormed(e, n);
    hide LongIds, WellFormed, Quoted, Render, EventJson, Carriable;
    EventSize(e);
    QuotedSize(e.changedTasks);
  }

  lemma TooLargeIsRefused(rd: Reader, e: ReplayEvent, b: Inbox)
    requires Reads(rd) && WellFormed(e) && !Carriable(e) && |b.pending| < MAX_PENDING_EVENTS
    ensures Feed(rd, Render(Revision(e)), NOTHING, b, |Render(Revision(e))| + 1) == (b, ProtocolError)
  {
    hide Accept, Render, Feed, WellFormed, Reads, EventJson, Carriable;
    var k := |Render(Revision(e))|;
    assert Render(Revision(e)) + "" == Render(Revision(e)) && Render(Revision(e))[..k] == Render(Revision(e));
    RevisionArrives(rd, e, "", k, b, k + 1);
    DueBounds(b, Revision(e));
  }

  lemma LongIdsWellFormed(e: ReplayEvent, n: nat)
    requires n <= 512 && e.changedTasks == LongIds(n)
    requires IsSha(e.previous) && IsSha(e.revision) && e.previous != e.revision
    ensures WellFormed(e) && |e.changedTasks| == n && forall i :: 0 <= i < n ==> |e.changedTasks[i]| == 128
  {
    var ids := LongIds(n);
    forall i, j | 0 <= i < j < |ids| ensures Less(ids[i], ids[j]) {
      LongIdsSorted(i, j);
    }
    forall i | 0 <= i < |ids| ensures IsSafeId(ids[i]) {
      LongIdIsSafe(i);
    }
  }

  lemma LongIdIsSafe(i: nat)
    requires i < 512
    ensures IsSafeId(LongId(i))
  {
    assert 'a' as int + i / 24 <= 'z' as int && 'a' as int + i % 24 <= 'z' as int;
  }

  // ---- a reader that understands the stream ---------------------------------------------------------------------

  function Strip(prefix: string, s: string): Option<string> {
    if prefix <= s then Some(s[|prefix|..]) else None
  }

  /** The characters before the next quote, and what follows it. */
  function UntilQuote(s: string): Option<(string, string)> {
    var k := IndexOfChar(s, '"');
    if k < |s| then Some((s[..k], s[k + 1..])) else None
  }

  /** Task ids up to the closing bracket. */
  function ReadIds(s: string): Option<(seq<string>, string)>
    decreases |s|
  {
    if s == "" || s[0] != '"' then Some(([], s))
    else
      match UntilQuote(s[1..])
      case None => None
      case Some(one) =>
        if one.1 != "" && one.1[0] == ',' then
          match ReadIds(one.1[1..])
          case None => None
          case Some(more) => Some(([one.0] + more.0, more.1))
        else Some(([one.0], one.1))
  }

  lemma UntilQuoteReads(text: string, tail: string)
    requires '"' !in text
    ensures UntilQuote(text + ("\"" + tail)) == Some((text, tail))
  {
    var s := text + ("\"" + tail);
    assert s[..|text|] == text;
    IndexOfCharIs(s, '"', |text|);
    assert s[|text| + 1..] == tail;
  }

  /** What follows the first id. */
  function AfterFirst(ids: seq<string>): string
    requires ids != []
  {
    if |ids| == 1 then "" else "," + Quoted(ids[1..])
  }

  lemma QuotedSplits(ids: seq<string>, tail: string)
    requires ids != []
    ensures Quoted(ids) + tail == "\"" + (ids[0] + ("\"" + (AfterFirst(ids) + tail)))
  {
    assert Quoted(ids) == "\"" + (ids[0] + ("\"" + AfterFirst(ids)));
    hide *;
    AppendAfterQuote(ids[0], AfterFirst(ids), tail);
  }

  lemma AppendAfterQuote(id: string, rest: string, tail: string)
    ensures ("\"" + (id + ("\"" + rest))) + tail == "\"" + (id + ("\"" + (rest + tail)))
  {}

  lemma AfterFirstReads(ids: seq<string>, tail: string)
    requires |ids| > 1
    ensures AfterFirst(ids) + tail != "" && (AfterFirst(ids) + tail)[0] == ','
    ensures (AfterFirst(ids) + tail)[1..] == Quoted(ids[1..]) + tail
  {
    hide Quoted;
  }

  lemma ReadIdsStep(id: string, rest: string)
    requires '"' !in id && rest != ""
    ensures var s := "\"" + (id + ("\"" + rest));
            && (rest[0] != ',' ==> ReadIds(s) == Some(([id], rest)))
            && (rest[0] == ',' && ReadIds(rest[1..]).Some? ==>
                  ReadIds(s) == Some(([id] + ReadIds(rest[1..]).value.0, ReadIds(rest[1..]).value.1)))
  {
    var t := id + ("\"" + rest);
    UntilQuoteReads(id, rest);
    assert ("\"" + t)[1..] == t;
    hide UntilQuote;
  }

  lemma ReadNoIds(tail: string)
    requires tail != "" && tail[0] == ']'
    ensures ReadIds(Quoted([]) + tail) == Some(([], tail))
  {
    assert Quoted([]) + tail == tail;
  }

  lemma ReadOneId(id: string, tail: string)
    requires '"' !in id && tail != "" && tail[0] == ']'
    ensures ReadIds(Quoted([id]) + tail) == Some(([id], tail))
  {
    hide ReadIds, Quoted;
    QuotedSplits([id], tail);
    assert AfterFirst([id]) + tail == tail;
    ReadIdsStep(id, tail);
  }

  lemma ReadMoreIds(ids: seq<string>, tail: string)
    requires |ids| > 1 && '"' !in ids[0]
    requires ReadIds(Quoted(ids[1..]) + tail) == Some((ids[1..], tail))
    ensures ReadIds(Quoted(ids) + tail) == Some((ids, tail))
  {
    hide ReadIds, Quoted, AfterFirst;
    QuotedSplits(ids, tail);
    AfterFirstReads(ids, tail);
    ReadIdsStep(ids[0], AfterFirst(ids) + tail);
    assert [ids[0]] + ids[1..] == ids;
  }

  lemma {:induction false} ReadIdsReads(ids: seq<string>, tail: string)
    requires forall i :: 0 <= i < |ids| ==> '"' !in ids[i]
    requires tail != "" && tail[0] == ']'
    ensures ReadIds(Quoted(ids) + tail) == Some((ids, tail))
    decreases |ids|
  {
    hide *;
    if ids == [] {
      ReadNoIds(tail);
    } else if |ids| == 1 {
      assert ids == [ids[0]];
      ReadOneId(ids[0], tail);
    } else {
      ReadIdsReads(ids[1..], tail);
      ReadMoreIds(ids, tail);
    }
  }

  function ReadFlag(s: string): Option<(bool, string)> {
    if "true" <= s then Some((true, s[4..]))
    else if "false" <= s then Some((false, s[5..]))
    else None
  }

  /** A quoted value after a fixed prefix that ends with the opening quote. */
  function ReadValue(prefix: string, s: string): Option<(string, string)> {
    match Strip(prefix, s)
    case None => None
    case Some(t) => UntilQuote(t)
  }

  lemma ReadValueReads(prefix: string, value: string, tail: string)
    requires '"' !in value
    ensures ReadValue(prefix, prefix + (value + ("\"" + tail))) == Some((value, tail))
  {
    var t := value + ("\"" + tail);
    assert (prefix + t)[|prefix|..] == t;
    UntilQuoteReads(value, tail);
  }

  function ReadRevisions(s: string): Option<(string, string)> {
    match ReadValue(",\"previous_revision\":\"", s)
    case None => None
    case Some(p) =>
      match ReadValue(",\"revision\":\"", p.1)
      case None => None
      case Some(r) => if r.1 == "}" then Some((p.0, r.0)) else None
  }

  lemma ReadRevisionsReads(p: string, r: string)
    requires '"' !in p && '"' !in r
    ensures ReadRevisions(",\"previous_revision\":\"" + (p + ("\",\"revision\":\"" + (r + "\"}")))) == Some((p, r))
  {
    hide ReadValue;
    var tail := ",\"revision\":\"" + (r + ("\"" + "}"));
    assert "\"" + "}" == "\"}" && "\"" + tail == "\",\"revision\":\"" + (r + "\"}") by {
      assert "\",\"revision\":\"" == "\"" + ",\"revision\":\"";
    }
    ReadValueReads(",\"previous_revision\":\"", p, tail);
    ReadValueReads(",\"revision\":\"", r, "}");
  }

  function ReadEvent(s: string): Option<ReplayEvent> {
    match Strip("{\"changed_task_ids\":[", s)
    case None => None
    case Some(a) =>
      match ReadIds(a)
      case None => None
      case Some(ids) => ReadRest(ids.0, ids.1)
  }

  function ReadRest(ids: seq<string>, s: string): Option<ReplayEvent> {
    match Strip("],\"context_changed\":", s)
    case None => None
    case Some(t) =>
      match ReadFlag(t)
      case None => None
      case Some(flag) =>
        match ReadRevisions(flag.1)
        case None => None
        case Some(r) => Some(ReplayEvent(r.0, r.1, flag.0, ids))
  }

  lemma StripReads(prefix: string, rest: string)
    ensures Strip(prefix, prefix + rest) == Some(rest)
  {
    assert (prefix + rest)[|prefix|..] == rest;
  }

  lemma ReadFlagReads(flag: bool, rest: string)
    ensures ReadFlag((if flag then "true" else "false") + rest) == Some((flag, rest))
  {
    var text := if flag then "true" else "false";
    assert (text + rest)[|text|..] == rest;
    assert !flag ==> (text + rest)[0] == 'f';
  }

  lemma NoQuotes(e: ReplayEvent)
    requires WellFormed(e)
    ensures '"' !in e.previous && '"' !in e.revision
    ensures forall i :: 0 <= i < |e.changedTasks| ==> '"' !in e.changedTasks[i]
  {
    forall i | 0 <= i < |e.changedTasks| ensures '"' !in e.changedTasks[i] {
      assert IsSafeId(e.changedTasks[i]);
    }
  }

  /** Reading back the canonical event; in particular the encoding loses nothing. */
  lemma ReadEventReads(e: ReplayEvent)
    requires WellFormed(e)
    ensures ReadEvent(EventJson(e)) == Some(e)
  {
    NoQuotes(e);
    EventJsonParts(e);
    hide *;
    StripReads("{\"changed_task_ids\":[", Quoted(e.changedTasks) + Ending(e));
    ReadIdsReads(e.changedTasks, Ending(e));
    ReadRestReads(e);
    ReadEventUnfolds(EventJson(e), Quoted(e.changedTasks) + Ending(e), e.changedTasks, Ending(e));
  }

  lemma ReadEventUnfolds(s: string, a: string, ids: seq<string>, b: string)
    requires Strip("{\"changed_task_ids\":[", s) == Some(a) && ReadIds(a) == Some((ids, b))
    ensures ReadEvent(s) == ReadRest(ids, b)
  {
    hide Strip, ReadIds, ReadRest;
  }

  function RevisionMembers(e: ReplayEvent): string {
    ",\"previous_revision\":\"" + (e.previous + ("\",\"revision\":\"" + (e.revision + "\"}")))
  }

  function Ending(e: ReplayEvent): string {
    "],\"context_changed\":" + ((if e.contextChanged then "true" else "false") + RevisionMembers(e))
  }

  lemma EventJsonParts(e: ReplayEvent)
    ensures EventJson(e) == "{\"changed_task_ids\":[" + (Quoted(e.changedTasks) + Ending(e))
    ensures Ending(e) != "" && Ending(e)[0] == ']'
  {
    hide Quoted;
  }

  lemma ReadRestReads(e: ReplayEvent)
    requires '"' !in e.previous && '"' !in e.revision
    ensures ReadRest(e.changedTasks, Ending(e)) == Some(e)
  {
    hide Strip, ReadFlag, ReadRevisions;
    ReadRevisionsReads(e.previous, e.revision);
    hide RevisionMembers;
    StripReads("],\"context_changed\":", (if e.contextChanged then "true" else "false") + RevisionMembers(e));
    ReadFlagReads(e.contextChanged, RevisionMembers(e));
  }

  function ReadCode(s: string): Option<string> {
    match ReadValue("{\"error\":{\"code\":\"", s)
    case None => None
    case Some(c) => Some(c.0)
  }

  lemma ReadCodeReads(c: string, m: string)
    requires Plain(c)
    ensures ReadCode(ErrorJson(c, m)) == Some(c)
  {
    var tail := ",\"message\":\"" + (m + "\"}}");
    assert "\"" + tail == "\",\"message\":\"" + (m + "\"}}") by {
      assert "\",\"message\":\"" == "\"" + ",\"message\":\"";
    }
    assert '"' !in c;
    hide ReadValue;
    ReadValueReads("{\"error\":{\"code\":\"", c, tail);
  }

  /** The canonical parser with the size cap of the source. */
  function CappedEvent(s: string): Option<ReplayEvent> {
    if |s| > MAX_JSON_BYTES then None
    else
      match ReadEvent(s)
      case None => None
      case Some(e) => if WellFormed(e) then Some(e) else None
  }

  /** The canonical parser of error objects with the cap and the list of codes of the source. */
  function CappedCode(s: string): Option<string> {
    if |s| > MAX_JSON_BYTES then None
    else
      match ReadCode(s)
      case None => None
      case Some(c) => if c in ERROR_CODES then Some(c) else None
  }

  const CANONICAL := Reader(CappedEvent, CappedCode)

  /** The hypothesis of the round trip is met by a parser that refuses all that the source refuses. */
  lemma AReaderExists()
    ensures Reads(CANONICAL)
    ensures forall s :: |s| > MAX_JSON_BYTES ==> CANONICAL.event(s) == None && CANONICAL.code(s) == None
    ensures forall s :: CANONICAL.event(s).Some? ==> WellFormed(CANONICAL.event(s).value)
    ensures forall s :: CANONICAL.code(s).Some? ==> CANONICAL.code(s).value in ERROR_CODES
  {
    hide ReadEvent, ReadCode, EventJson, ErrorJson, ERROR_CODES, WellFormed, Plain;
    forall e | WellFormed(e) && |EventJson(e)| <= MAX_JSON_BYTES ensures CANONICAL.event(EventJson(e)) == Some(e) {
      ReadEventReads(e);
    }
    forall c, m | c in ERROR_CODES && Plain(m) && |ErrorJson(c, m)| <= MAX_JSON_BYTES
      ensures CANONICAL.code(ErrorJson(c, m)) == Some(c)
    {
      CodesArePlain(c);
      ReadCodeReads(c, m);
    }
  }
}
