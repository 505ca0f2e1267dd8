/** Round trip of the revision stream for every sequence of frames and every cut point. */
module StreamRoundTrip {
  import opened Common
  import opened StringOrder
  import opened Text
  import opened SessionModel
  import opened Replay
  import opened Consumer
  import opened EventStream
  import opened StreamLines

  /** Printable ASCII that canonical JSON writes without an escape. */
  predicate PlainChar(c: char) {
    ' ' <= c <= '~' && c != '"' && c != '\\'
  }

  predicate Plain(s: string) {
    forall i :: 0 <= i < |s| ==> PlainChar(s[i])
  }

  /** A frame that the server may write: any well-formed revision, however large, and the known failures. */
  ghost predicate Sendable(i: Item) {
    match i
    case Ready => true
    case Heartbeat => true
    case Revision(e) => WellFormed(e)
    case Failure(c, m) => c in ERROR_CODES && Plain(m) && |ErrorJson(c, m)| <= MAX_JSON_BYTES
  }

  /** The parser understands what the server prints, within its size cap and for the codes it knows. */
  ghost predicate Reads(rd: Reader) {
    && (forall e :: WellFormed(e) && |EventJson(e)| <= MAX_JSON_BYTES ==> rd.event(EventJson(e)) == Some(e))
    && (forall c, m :: c in ERROR_CODES && Plain(m) && |ErrorJson(c, m)| <= MAX_JSON_BYTES ==>
          rd.code(ErrorJson(c, m)) == Some(c))
  }

  /** What one whole frame does to the inbox. */
  function EffectOf(b: Inbox, i: Item): Effect {
    match i
    case Ready => Continue(NOTHING, b)
    case Heartbeat => Continue(NOTHING, b)
    case Failure(c, _) => Return(if c == UNAVAILABLE then ResnapshotRequired else ServerError, b)
    case Revision(e) =>
      if !Carriable(e) then Return(ProtocolError, b)
      else
        match Accept(b, e)
        case None => Return(ProtocolError, b)
        case Some(c) => Continue(NOTHING, c)
  }

  /** How many bytes of a frame arrive before the consumer acts on it. */
  function Due(i: Item): nat {
    if i.Revision? && |Render(i)| > MAX_FRAME_BYTES then 61 + DueData(61, |EventJson(i.event)|) else |Render(i)|
  }

  /** What a run of whole frames does to the inbox. */
  function Deliver(b: Inbox, items: seq<Item>): (Inbox, Outcome)
    decreases |items|
  {
    if |b.pending| == MAX_PENDING_EVENTS then (b, Full)
    else if items == [] then (b, Retry)
    else
      match EffectOf(b, items[0])
      case Return(o, c) => (c, o)
      case Continue(_, c) => Deliver(c, items[1..])
  }

  /** How many frames were due when the first n bytes arrived. */
  function Whole(items: seq<Item>, n: nat): (k: nat)
    ensures k <= |items|
  {
    if items == [] || n < Due(items[0]) then 0
    else if n < |Render(items[0])| then 1
    else 1 + Whole(items[1..], n - |Render(items[0])|)
  }

  lemma RevisionFields(e: ReplayEvent)
    requires WellFormed(e)
    ensures Addable(map[], FieldsOf(Revision(e)))
    ensures AddAll(map[], FieldsOf(Revision(e)))
            == map["event" := "revision", "id" := e.revision, "data" := EventJson(e)]
  {
    EventJsonVisible(e);
    hide EventJson, WellFormed;
    assert "event" != "id" && "event" != "data" && "id" != "data";
    var fields := FieldsOf(Revision(e));
    var f1, f2, f3 := fields[1..], fields[2..], fields[3..];
    var m1 := map["event" := "revision"];
    var m2 := m1["id" := e.revision];
    assert f1 == [("id", e.revision), ("data", EventJson(e))] && f1[1..] == f2 && f2[1..] == f3 == [];
    assert Addable(m2["data" := EventJson(e)], f3);
    assert AddAll(m2["data" := EventJson(e)], f3) == m2["data" := EventJson(e)];
    assert Addable(m2, f2) && AddAll(m2, f2) == m2["data" := EventJson(e)];
    assert Addable(m1, f1) && AddAll(m1, f1) == m2["data" := EventJson(e)];
  }

  lemma DispatchRevision(rd: Reader, b: Inbox, e: ReplayEvent)
    requires Reads(rd) && WellFormed(e) && |Render(Revision(e))| <= MAX_FRAME_BYTES
    ensures Dispatch(rd, b, map["event" := "revision", "id" := e.revision, "data" := EventJson(e)])
            == EffectOf(b, Revision(e))
  {
    hide EventJson, Accept, WellFormed, Render, ERROR_CODES;
    var fields := map["event" := "revision", "id" := e.revision, "data" := EventJson(e)];
    assert "event" != "id" && "event" != "data" && "id" != "data";
    assert fields.Keys == {"event", "id", "data"};
    assert RevisionEvent(rd, fields["data"], fields["id"]) == if |EventJson(e)| <= MAX_JSON_BYTES then Some(e)
        else None;
  }

  lemma CodesArePlain(c: string)
    requires c in ERROR_CODES
    ensures Plain(c) && |c| <= 19
  {}

  lemma FailureFields(c: string, m: string)
    requires Plain(c) && Plain(m)
    ensures Addable(map[], FieldsOf(Failure(c, m)))
    ensures AddAll(map[], FieldsOf(Failure(c, m))) == map["event" := FailureName(c), "data" := ErrorJson(c, m)]
  {
    var a := m + "\"}}";
    var b := c + ("\",\"message\":\"" + a);
    VisibleAppend(m, "\"}}");
    VisibleAppend("\",\"message\":\"", a);
    VisibleAppend(c, "\",\"message\":\"" + a);
    VisibleAppend("{\"error\":{\"code\":\"", b);
    assert Visible(FailureName(c));
    hide ErrorJson, FailureName, Plain;
    assert "event" != "data";
    var fields := FieldsOf(Failure(c, m));
    var f1, f2 := fields[1..], fields[2..];
    var m1 := map["event" := FailureName(c)];
    assert f1 == [("data", ErrorJson(c, m))] && f1[1..] == f2 == [];
    assert Addable(m1["data" := ErrorJson(c, m)], f2);
    assert Addable(m1, f1) && AddAll(m1, f1) == m1["data" := ErrorJson(c, m)];
  }

  lemma DispatchFailure(rd: Reader, b: Inbox, c: string, m: string)
    requires Reads(rd) && Sendable(Failure(c, m))
    ensures Dispatch(rd, b, map["event" := FailureName(c), "data" := ErrorJson(c, m)])
            == Return(if c == UNAVAILABLE then ResnapshotRequired else ServerError, b)
  {
    hide ErrorJson, ERROR_CODES;
    var fields := map["event" := FailureName(c), "data" := ErrorJson(c, m)];
    assert "event" != "data" && "event" in fields && "id" !in fields;
    assert fields.Keys == {"event", "data"};
    assert "error" != "revision" && "resnapshot_required" != "revision" && "error" != "resnapshot_required";
  }

  /** A failure frame always fits. */
  lemma FailureSize(c: string, m: string)
    ensures |Render(Failure(c, m))| == |FailureName(c)| + |ErrorJson(c, m)| + 16 && |FailureName(c)| <= 19
  {
    hide ErrorJson;
    var fields := FieldsOf(Failure(c, m));
    assert fields[1..] == [("data", ErrorJson(c, m))] && fields[1..][1..] == [];
    assert Body(fields[1..]) == Field("data", ErrorJson(c, m)) + Body([]);
    assert Body(fields) == Field("event", FailureName(c)) + Body(fields[1..]);
  }

  lemma CommentArrives(rd: Reader, text: string, line: string, tail: string, n: nat, b: Inbox, ticks: nat)
    requires |text| < 100 && text != "" && text[0] == ':' && Visible(text) && line == text + "\n"
    requires n <= |line| + 1 + |tail| && |b.pending| < MAX_PENDING_EVENTS && ticks > n
    ensures Feed(rd, (line + ("\n" + tail))[..n], NOTHING, b, ticks)
            == if n < |line| then (b, Retry)
               else Feed(rd, ("\n" + tail)[..n - |line|], Frame(map[], true, |line|), b, ticks - 1)
  {
    VisibleLine(text);
    CutLine(line, "\n" + tail, n);
    hide *;
    if n < |line| {
      PartialLine(rd, (line + ("\n" + tail))[..n], NOTHING, b, ticks);
    } else {
      FeedsComment(rd, text, ("\n" + tail)[..n - |line|], b, ticks);
    }
  }

  lemma CommentFrameArrives(rd: Reader, text: string, line: string, tail: string, n: nat, b: Inbox, ticks: nat)
    requires |text| < 100 && text != "" && text[0] == ':' && Visible(text) && line == text + "\n"
    requires n <= |line| + 1 + |tail| && |b.pending| < MAX_PENDING_EVENTS && ticks > n
    ensures Feed(rd, (line + "\n" + tail)[..n], NOTHING, b, ticks)
            == if n < |line| + 1 then (b, Retry) else Feed(rd, tail[..n - |line| - 1], NOTHING, b, ticks - 2)
  {
    hide Feed, Visible;
    CommentArrives(rd, text, line, tail, n, b, ticks);
    assert line + "\n" + tail == line + ("\n" + tail);
    if n >= |line| {
      CutsBlank(rd, tail, n - |line|, Frame(map[], true, |line|), b, ticks - 1);
    }
  }

  /** The lines of a frame. */
  function Ticks(i: Item): nat {
    match i
    case Revision(_) => 4
    case Failure(_, _) => 3
    case _ => 2
  }

  lemma RenderAllSplits(items: seq<Item>)
    requires items != []
    ensures RenderAll(items) == Render(items[0]) + RenderAll(items[1..])
  {}

  /** A frame followed by anything, cut anywhere: applied whole after `Ticks` rounds, or dropped. */
  ghost predicate Arrives(rd: Reader, i: Item, tail: string, n: nat, b: Inbox, ticks: nat) {
    && n <= |Render(i)| + |tail|
    && Feed(rd, (Render(i) + tail)[..n], NOTHING, b, ticks)
       == if n < Due(i) then (b, Retry)
          else match EffectOf(b, i)
               case Return(o, c) => (c, o)
               case Continue(_, c) =>
                 if n < |Render(i)| then (b, Retry)
                 else Feed(rd, tail[..n - |Render(i)|], NOTHING, c, if ticks > Ticks(i) then ticks - Ticks(i) else 0)
  }

  lemma DueBounds(b: Inbox, i: Item)
    requires Sendable(i)
    ensures 0 < Due(i) <= |Render(i)| && (EffectOf(b, i).Continue? ==> Due(i) == |Render(i)|)
  {
    RenderTakesTicks(i);
    if i.Revision? {
      assert |i.event.revision| == 40;
      hide EventJson, Accept, Render, WellFormed;
      SplitBody(i.event, "");
    }
  }

  lemma ArrivesMeans(rd: Reader, i: Item, tail: string, n: nat, b: Inbox, ticks: nat)
    requires Arrives(rd, i, tail, n, b, ticks) && ticks > n && Sendable(i)
    ensures n < Due(i) ==> Feed(rd, (Render(i) + tail)[..n], NOTHING, b, ticks) == (b, Retry)
    ensures n >= Due(i) && EffectOf(b, i).Return? ==>
              Feed(rd, (Render(i) + tail)[..n], NOTHING, b, ticks) == (EffectOf(b, i).inbox, EffectOf(b, i).outcome)
    ensures n >= Due(i) && EffectOf(b, i).Continue? ==>
              && n >= |Render(i)| && ticks - Ticks(i) > n - |Render(i)|
              && Feed(rd, (Render(i) + tail)[..n], NOTHING, b, ticks)
                 == Feed(rd, tail[..n - |Render(i)|], NOTHING, EffectOf(b, i).inbox, ticks - Ticks(i))
  {
    RenderTakesTicks(i);
    DueBounds(b, i);
    hide Feed, Render, EffectOf, Ticks, Due;
  }

  lemma ReadyArrives(rd: Reader, tail: string, n: nat, b: Inbox, ticks: nat)
    requires n <= |Render(Ready)| + |tail| && |b.pending| < MAX_PENDING_EVENTS && ticks > n
    ensures Arrives(rd, Ready, tail, n, b, ticks)
  {
    hide Feed;
    assert ": ready\n" == ": ready" + "\n";
    CommentFrameArrives(rd, ": ready", ": ready\n", tail, n, b, ticks);
  }

  lemma HeartbeatArrives(rd: Reader, tail: string, n: nat, b: Inbox, ticks: nat)
    requires n <= |Render(Heartbeat)| + |tail| && |b.pending| < MAX_PENDING_EVENTS && ticks > n
    ensures Arrives(rd, Heartbeat, tail, n, b, ticks)
  {
    hide Feed;
    assert ": heartbeat\n" == ": heartbeat" + "\n";
    CommentFrameArrives(rd, ": heartbeat", ": heartbeat\n", tail, n, b, ticks);
  }

  lemma RevisionArrives(rd: Reader, e: ReplayEvent, tail: string, n: nat, b: Inbox, ticks: nat)
    requires Reads(rd) && WellFormed(e)
    requires n <= |Render(Revision(e))| + |tail| && |b.pending| < MAX_PENDING_EVENTS && ticks > n
    ensures Arrives(rd, Revision(e), tail, n, b, ticks)
  {
    hide Feed, Dispatch, Accept, Body, Reads, WellFormed, AddAll, Addable, EventJson, FieldsOf, Render, DueData;
    if |Render(Revision(e))| > MAX_FRAME_BYTES {
      OversizeArrives(rd, e, tail, n, b, ticks);
    } else {
      RevisionFields(e);
      RevisionEffect(rd, e, b);
      hide EffectOf;
      FrameArrives(rd, FieldsOf(Revision(e)), tail, n, b, ticks);
    }
  }

  lemma RevisionEffect(rd: Reader, e: ReplayEvent, b: Inbox)
    requires Reads(rd) && WellFormed(e) && |Render(Revision(e))| <= MAX_FRAME_BYTES
    ensures var fields, i := FieldsOf(Revision(e)), Revision(e);
            && Render(i) == Body(fields) + "\n" && |fields| == 3
            && Dispatch(rd, b, AddAll(map[], fields)) == EffectOf(b, i)
            && (EffectOf(b, i).Continue? ==> EffectOf(b, i).frame == NOTHING)
  {
    hide WellFormed, Body, AddAll, Dispatch, Accept, EventJson, Reads;
    RevisionFields(e);
    DispatchRevision(rd, b, e);
  }

  lemma FailureArrives(rd: Reader, c: string, m: string, tail: string, n: nat, b: Inbox, ticks: nat)
    requires Reads(rd) && Sendable(Failure(c, m))
    requires n <= |Render(Failure(c, m))| + |tail| && |b.pending| < MAX_PENDING_EVENTS && ticks > n
    ensures Arrives(rd, Failure(c, m), tail, n, b, ticks)
  {
    assert c in ERROR_CODES && Plain(m) && |ErrorJson(c, m)| <= MAX_JSON_BYTES;
    hide Feed, Dispatch, Body, Reads, Sendable, AddAll, Addable, ErrorJson, FailureName, Plain, ERROR_CODES;
    CodesArePlain(c);
    FailureFields(c, m);
    DispatchFailure(rd, b, c, m);
    FailureSize(c, m);
    FrameArrives(rd, FieldsOf(Failure(c, m)), tail, n, b, ticks);
  }

  lemma ItemArrives(rd: Reader, i: Item, tail: string, n: nat, b: Inbox, ticks: nat)
    requires Reads(rd) && Sendable(i)
    requires n <= |Render(i)| + |tail| && |b.pending| < MAX_PENDING_EVENTS && ticks > n
    ensures Arrives(rd, i, tail, n, b, ticks)
  {
    hide Arrives, Render, Reads;
    match i
    case Ready => ReadyArrives(rd, tail, n, b, ticks);
    case Heartbeat => HeartbeatArrives(rd, tail, n, b, ticks);
    case Revision(e) => RevisionArrives(rd, e, tail, n, b, ticks);
    case Failure(c, m) => FailureArrives(rd, c, m, tail, n, b, ticks);
  }

  lemma RenderTakesTicks(i: Item)
    ensures |Render(i)| >= Ticks(i)
  {
    BodySize(FieldsOf(i));
  }

  /**
   Round trip: for any frames and any cut point, the consumer acts on exactly the frames that were due, in order, until
   the inbox is full or a revision is beyond its limits; the rest of the wire leaves no trace.
   */
  lemma {:induction false} StreamIsExact(rd: Reader, items: seq<Item>, n: nat, b: Inbox, ticks: nat)
    requires Reads(rd) && n <= |RenderAll(items)| && ticks > n && |b.pending| <= MAX_PENDING_EVENTS
    requires forall i :: 0 <= i < |items| ==> Sendable(items[i])
    ensures Feed(rd, RenderAll(items)[..n], NOTHING, b, ticks) == Deliver(b, items[..Whole(items, n)])
    decreases |items|
  {
    hide *;
    if |b.pending| == MAX_PENDING_EVENTS || items == [] {
      StreamEnds(rd, items, n, b, ticks);
    } else {
      RenderAllSplits(items);
      var i, tail := items[0], RenderAll(items[1..]);
      ItemArrives(rd, i, tail, n, b, ticks);
      ArrivesMeans(rd, i, tail, n, b, ticks);
      DeliverWhole(items, n, b);
      if n >= Due(i) {
        EffectBounded(b, i);
        var e := EffectOf(b, i);
        if e.Continue? {
          StreamIsExact(rd, items[1..], n - |Render(i)|, e.inbox, ticks - Ticks(i));
        }
      }
    }
  }

  lemma EffectBounded(b: Inbox, i: Item)
    requires |b.pending| < MAX_PENDING_EVENTS
    ensures |EffectOf(b, i).inbox.pending| <= MAX_PENDING_EVENTS
  {
    hide Carriable;
  }

  lemma StreamEnds(rd: Reader, items: seq<Item>, n: nat, b: Inbox, ticks: nat)
    requires (|b.pending| == MAX_PENDING_EVENTS || items == []) && n <= |RenderAll(items)| && ticks > n
    ensures Feed(rd, RenderAll(items)[..n], NOTHING, b, ticks) == Deliver(b, items[..Whole(items, n)])
  {
    if |b.pending| != MAX_PENDING_EVENTS {
      assert RenderAll(items)[..n] == "";
      assert ReadLine("") == "";
    }
  }

  lemma DeliverWhole(items: seq<Item>, n: nat, b: Inbox)
    requires items != [] && |b.pending| != MAX_PENDING_EVENTS && Sendable(items[0])
    ensures n < Due(items[0]) ==> Deliver(b, items[..Whole(items, n)]) == (b, Retry)
    ensures n >= Due(items[0]) && EffectOf(b, items[0]).Return? ==>
              Deliver(b, items[..Whole(items, n)]) == (EffectOf(b, items[0]).inbox, EffectOf(b, items[0]).outcome)
    ensures n >= Due(items[0]) && EffectOf(b, items[0]).Continue? ==>
              && n >= |Render(items[0])|
              && Deliver(b, items[..Whole(items, n)])
                 == Deliver(EffectOf(b, items[0]).inbox, items[1..][..Whole(items[1..], n - |Render(items[0])|)])
  {
    DueBounds(b, items[0]);
    hide EffectOf, Render, Due, Sendable;
    var k := Whole(items, n);
    if n >= Due(items[0]) {
      assert items[..k][0] == items[0] && items[..k][1..] == items[1..][..k - 1];
    }
  }
}
