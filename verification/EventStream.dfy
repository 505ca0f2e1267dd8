/**
 The revision stream on the wire: frames as collab_runtime/transport.py writes them and as the line loop of
 collab_runtime/consumer.py reads them.  Every byte sent is ASCII, so the wire is a string.
 */
module EventStream {
  import opened Common
  import opened StringOrder
  import opened Text
  import opened SessionModel
  import opened Replay
  import opened Consumer

  const MAX_FRAME_BYTES: nat := 64 * 1024 + 256
  const MAX_JSON_BYTES: nat := 64 * 1024
  const MAX_CHANGED_TASK_IDS: nat := 512

  const ERROR_CODES: set<string> := {
    "access_denied", "stale_revision", "replay_unavailable", "invalid_request", "session_unavailable", "internal_error",
    "subscriber_limit"}

  // ---- events ------------------------------------------------------------------------------------------------------

  /** What `_revision_event` demands of the parsed event. */
  predicate WellFormed(e: ReplayEvent) {
    && IsSha(e.previous) && IsSha(e.revision) && e.previous != e.revision
    && |e.changedTasks| <= MAX_CHANGED_TASK_IDS && StrictlySorted(e.changedTasks)
    && forall i :: 0 <= i < |e.changedTasks| ==> IsSafeId(e.changedTasks[i])
  }

  // ---- what the server writes -----------------------------------------------------------------------------------

  datatype Item = Ready | Heartbeat | Revision(event: ReplayEvent) | Failure(code: string, message: string)

  function Quoted(ids: seq<string>): string {
    if ids == [] then ""
    else "\"" + (ids[0] + ("\"" + (if |ids| == 1 then "" else "," + Quoted(ids[1..]))))
  }

  /** The canonical JSON of `ReplayEvent.to_dict`: keys sorted, no spaces; ids and revisions need no escapes. */
  function EventJson(e: ReplayEvent): string {
    "{\"changed_task_ids\":[" + (Quoted(e.changedTasks) + ("],\"context_changed\":"
    + ((if e.contextChanged then "true" else "false")
    + (",\"previous_revision\":\"" + (e.previous + ("\",\"revision\":\"" + (e.revision + "\"}")))))))
  }

  function ErrorJson(code: string, message: string): string {
    "{\"error\":{\"code\":\"" + (code + ("\",\"message\":\"" + (message + "\"}}")))
  }

  const UNAVAILABLE := "replay_unavailable"
  const FAILURE_NAMES: set<string> := {"error", "resnapshot_required"}

  function FailureName(code: string): string {
    if code == UNAVAILABLE then "resnapshot_required" else "error"
  }

  function Field(name: string, value: string): string {
    name + ": " + value + "\n"
  }

  function Body(fields: seq<(string, string)>): string {
    if fields == [] then "" else Field(fields[0].0, fields[0].1) + Body(fields[1..])
  }

  function FieldsOf(i: Item): seq<(string, string)> {
    match i
    case Ready => []
    case Heartbeat => []
    case Revision(e) => [("event", "revision"), ("id", e.revision), ("data", EventJson(e))]
    case Failure(c, m) => [("event", FailureName(c)), ("data", ErrorJson(c, m))]
  }

  /** One frame, as `_write_event` and the two fixed comments put it on the wire. */
  function Render(i: Item): string {
    match i
    case Ready => ": ready\n" + "\n"
    case Heartbeat => ": heartbeat\n" + "\n"
    case _ => Body(FieldsOf(i)) + "\n"
  }

  function RenderAll(items: seq<Item>): string {
    if items == [] then "" else Render(items[0]) + RenderAll(items[1..])
  }

  // ---- what the consumer reads ----------------------------------------------------------------------------------

  /** The JSON parser: the members of an event object, and the code of an error object. */
  datatype Reader = Reader(event: string -> Option<ReplayEvent>, code: string -> Option<string>)

  /** `_revision_event`: the size cap of the parser, and the checks that follow parsing. */
  function RevisionEvent(rd: Reader, data: string, id: string): (r: Option<ReplayEvent>)
    ensures r.Some? ==> WellFormed(r.value) && r.value.revision == id && |data| <= MAX_JSON_BYTES
  {
    if |data| > MAX_JSON_BYTES then None
    else
      match rd.event(data)
      case None => None
      case Some(e) => if e.revision == id && WellFormed(e) then Some(e) else None
  }

  /** `_error_object`: the same size cap, and only the seven known codes. */
  function ErrorCode(rd: Reader, data: string): (r: Option<string>)
    ensures r.Some? ==> r.value in ERROR_CODES && |data| <= MAX_JSON_BYTES
  {
    if |data| > MAX_JSON_BYTES then None
    else
      match rd.code(data)
      case None => None
      case Some(c) => if c in ERROR_CODES then Some(c) else None
  }

  /** An event that the consumer can take off the wire: well formed, within the parser's cap and the frame limit. */
  predicate Carriable(e: ReplayEvent) {
    WellFormed(e) && |EventJson(e)| <= MAX_JSON_BYTES && |Render(Revision(e))| <= MAX_FRAME_BYTES
  }

  datatype Frame = Frame(fields: map<string, string>, comment: bool, bytes: nat)

  const NOTHING := Frame(map[], false, 0)

  datatype Outcome = Retry | Full | ProtocolError | ResnapshotRequired | ServerError

  datatype Effect = Continue(frame: Frame, inbox: Inbox) | Return(outcome: Outcome, inbox: Inbox)

  /** `readline(MAX_FRAME_BYTES + 1)`. */
  function ReadLine(wire: string): (line: string)
    ensures line <= wire
  {
    var k := IndexOfChar(wire, '\n');
    wire[..Min(if k < |wire| then k + 1 else k, MAX_FRAME_BYTES + 1)]
  }

  function TextOf(line: string): string
    requires line != ""
  {
    var t := line[..|line| - 1];
    if t != "" && Last(t) == '\r' then t[..|t| - 1] else t
  }

  function WithoutSpace(s: string): string {
    if s != "" && s[0] == ' ' then s[1..] else s
  }

  /** A non-empty line: a comment, or one field not seen before in this frame. */
  function TakeText(f: Frame, text: string): Option<Frame>
    requires text != ""
  {
    if text[0] == ':' then (if f.fields != map[] then None else Some(f.(comment := true)))
    else
      var k := IndexOfChar(text, ':');
      var name := text[..k];
      if f.comment || k == |text| || name !in {"event", "id", "data"} || name in f.fields then None
      else Some(f.(fields := f.fields[name := WithoutSpace(text[k + 1..])]))
  }

  /** An empty line ends the frame. */
  function Dispatch(rd: Reader, b: Inbox, fields: map<string, string>): Effect {
    if "event" in fields && fields["event"] == "revision" && fields.Keys == {"event", "id", "data"} then
      (match RevisionEvent(rd, fields["data"], fields["id"])
       case None => Return(ProtocolError, b)
       case Some(e) =>
         match Accept(b, e)
         case None => Return(ProtocolError, b)
         case Some(c) => Continue(NOTHING, c))
    else if "event" in fields && fields["event"] in FAILURE_NAMES && fields.Keys == {"event", "data"} then
      (match ErrorCode(rd, fields["data"])
       case None => Return(ProtocolError, b)
       case Some(c) =>
         if (fields["event"] == "resnapshot_required") != (c == UNAVAILABLE) then Return(ProtocolError, b)
         else Return(if c == UNAVAILABLE then ResnapshotRequired else ServerError, b))
    else Return(ProtocolError, b)
  }

  /** Which events are taken from a revision frame. */
  lemma RevisionEventSays(rd: Reader, data: string, id: string, e: ReplayEvent)
    ensures RevisionEvent(rd, data, id) == Some(e) <==>
              && |data| <= 65536 && rd.event(data) == Some(e) && e.revision == id
              && IsSha(e.previous) && IsSha(e.revision) && e.previous != e.revision
              && |e.changedTasks| <= 512 && StrictlySorted(e.changedTasks)
              && forall x :: x in e.changedTasks ==> IsSafeId(x)
  {
    hide IsSha, IsSafeId, StrictlySorted;
    assert forall i :: 0 <= i < |e.changedTasks| ==> e.changedTasks[i] in e.changedTasks;
  }

  /** What a complete frame does, by its fields: nothing but these three kinds is understood. */
  lemma DispatchSays(rd: Reader, b: Inbox, fields: map<string, string>)
    ensures var d := Dispatch(rd, b, fields);
            var revision := fields.Keys == {"event", "id", "data"} && fields["event"] == "revision";
            var failure := fields.Keys == {"event", "data"} && fields["event"] in {"error", "resnapshot_required"};
            var e := if revision then RevisionEvent(rd, fields["data"], fields["id"]) else None;
            var code := if failure then ErrorCode(rd, fields["data"]) else None;
            && (d.Continue? <==> e.Some? && Accept(b, e.value).Some?)
            && (d.Continue? ==> d.inbox == Accept(b, e.value).value && d.frame == Frame(map[], false, 0))
            && (d.Return? ==> d.inbox == b && d.outcome in {ProtocolError, ResnapshotRequired, ServerError})
            && (d == Return(ResnapshotRequired, b)
                <==> code == Some("replay_unavailable") && fields["event"] == "resnapshot_required")
            && (d == Return(ServerError, b)
                <==> code.Some? && code.value != "replay_unavailable" && fields["event"] == "error")
  {
    hide RevisionEvent, ErrorCode, Accept, ERROR_CODES;
    assert "event" in fields.Keys <==> "event" in fields;
  }

  /** A field of a frame: its name must be known and new, and one space after the colon is dropped. */
  lemma FieldSays(f: Frame, name: string, value: string)
    requires name != "" && ':' !in name
    ensures TakeText(f, name + ":" + value)
            == if f.comment || name !in {"event", "id", "data"} || name in f.fields then None
               else Some(f.(fields := f.fields[name := if " " <= value then value[1..] else value]))
  {
    var text := name + ":" + value;
    assert text[..|name|] == name && text[|name| + 1..] == value;
    IndexOfCharIs(text, ':', |name|);
  }

  /** A comment must not follow a field, and a line that is neither is refused. */
  lemma OtherTextSays(f: Frame, text: string)
    requires text != ""
    ensures text[0] == ':' ==> TakeText(f, text) == if f.fields == map[] then Some(f.(comment := true)) else None
    ensures ':' !in text ==> TakeText(f, text) == None
  {}

  function TakeLine(rd: Reader, f: Frame, b: Inbox, line: string): Effect
    requires line != ""
  {
    var bytes, text := f.bytes + |line|, TextOf(line);
    if bytes > MAX_FRAME_BYTES || '\r' in text || '\0' in text then Return(ProtocolError, b)
    else if text != "" then
      (match TakeText(f, text)
       case None => Return(ProtocolError, b)
       case Some(g) => Continue(g.(bytes := bytes), b))
    else if f.fields == map[] then Continue(NOTHING, b)
    else Dispatch(rd, b, f.fields)
  }

  /**
   The line loop of `_stream` on what arrives before the connection ends; `ticks` rounds pass before `_stop` is
   seen.
   */
  function Feed(rd: Reader, wire: string, f: Frame, b: Inbox, ticks: nat): (Inbox, Outcome) {
    if ticks == 0 then (b, Retry)
    else if |b.pending| == MAX_PENDING_EVENTS then (b, Full)
    else
      var line := ReadLine(wire);
      if |line| > MAX_FRAME_BYTES then (b, ProtocolError)
      else if line == "" || Last(line) != '\n' then (b, Retry)
      else
        match TakeLine(rd, f, b, line)
        case Return(o, c) => (c, o)
        case Continue(g, c) => Feed(rd, wire[|line|..], g, c, ticks - 1)
  }

  /** The loop itself, on the consumer's own fields. */
  method Stream(consumer: RevisionConsumer, rd: Reader, wire: string, ticks: nat) returns (outcome: Outcome)
    requires consumer.Valid()
    modifies consumer`received, consumer`pending, consumer`lastEvent
    ensures consumer.Valid()
    ensures (consumer.View(), outcome) == Feed(rd, wire, NOTHING, old(consumer.View()), ticks)
  {
    hide TakeLine, Linked, IndexOfChar;
    ghost var result := Feed(rd, wire, NOTHING, consumer.View(), ticks);
    var frame, rest, left := NOTHING, wire, ticks;
    while left > 0
      invariant consumer.Valid()
      invariant Feed(rd, rest, frame, consumer.View(), left) == result
    {
      if |consumer.pending| == MAX_PENDING_EVENTS {
        return Full;
      }
      var line := ReadLine(rest);
      if |line| > MAX_FRAME_BYTES {
        return ProtocolError;
      }
      if line == "" || Last(line) != '\n' {
        return Retry;
      }
      var stop, o, next := HandleLine(consumer, rd, frame, line);
      if stop {
        return o;
      }
      rest, frame, left := rest[|line|..], next, left - 1;
    }
    return Retry;
  }

  method HandleLine(consumer: RevisionConsumer, rd: Reader, frame: Frame, line: string)
    returns (stop: bool, outcome: Outcome, next: Frame)
    requires consumer.Valid() && line != ""
    modifies consumer`received, consumer`pending, consumer`lastEvent
    ensures consumer.Valid()
    ensures TakeLine(rd, frame, old(consumer.View()), line)
            == if stop then Return(outcome, consumer.View()) else Continue(next, consumer.View())
  {
    stop, outcome, next := true, ProtocolError, NOTHING;
    var text := TextOf(line);
    var bytes := frame.bytes + |line|;
    if bytes > MAX_FRAME_BYTES || '\r' in text || '\0' in text {
      return;
    }
    if text != "" {
      var taken := TakeText(frame, text);
      if taken.Some? {
        stop, next := false, taken.value.(bytes := bytes);
      }
    } else if frame.fields != map[] {
      stop, outcome := EndFrame(consumer, rd, frame.fields);
    } else {
      stop := false;
    }
  }

  method EndFrame(consumer: RevisionConsumer, rd: Reader, fields: map<string, string>)
    returns (stop: bool, outcome: Outcome)
    requires consumer.Valid()
    modifies consumer`received, consumer`pending, consumer`lastEvent
    ensures consumer.Valid()
    ensures Dispatch(rd, old(consumer.View()), fields)
            == if stop then Return(outcome, consumer.View()) else Continue(NOTHING, consumer.View())
  {
    hide WellFormed, ERROR_CODES;
    stop, outcome := true, ProtocolError;
    if "event" in fields && fields["event"] == "revision" && fields.Keys == {"event", "id", "data"} {
      var event := RevisionEvent(rd, fields["data"], fields["id"]);
      if event.Some? {
        var ok := consumer.TakeEvent(event.value);
        stop := !ok;
      }
    } else if "event" in fields && fields["event"] in FAILURE_NAMES && fields.Keys == {"event", "data"} {
      var code := ErrorCode(rd, fields["data"]);
      if code.Some? && (fields["event"] == "resnapshot_required") == (code.value == UNAVAILABLE) {
        outcome := if fields["event"] == "resnapshot_required" then ResnapshotRequired else ServerError;
      }
    }
  }
}
