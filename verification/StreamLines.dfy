/** How the line loop of the consumer treats the lines and fields of one frame, whole or cut. */
module StreamLines {
  import opened Common
  import opened StringOrder
  import opened Text
  import opened SessionModel
  import opened Replay
  import opened Consumer
  import opened EventStream

  // ---- lines ----------------------------------------------------------------------------------------------------

  ghost predicate IsLine(line: string) {
    line != "" && Last(line) == '\n' && '\n' !in line[..|line| - 1]
  }

  lemma ReadsLine(line: string, rest: string)
    requires IsLine(line) && |line| <= MAX_FRAME_BYTES
    ensures ReadLine(line + rest) == line && (line + rest)[|line|..] == rest
  {
    assert (line + rest)[..|line| - 1] == line[..|line| - 1];
    IndexOfCharIs(line + rest, '\n', |line| - 1);
  }

  /** A line that never ends leaves the inbox alone. */
  lemma PartialLine(rd: Reader, wire: string, f: Frame, b: Inbox, ticks: nat)
    requires '\n' !in wire && |wire| <= MAX_FRAME_BYTES && |b.pending| < MAX_PENDING_EVENTS
    ensures Feed(rd, wire, f, b, ticks) == (b, Retry)
  {
    assert wire[..|wire|] == wire;
    IndexOfCharIs(wire, '\n', |wire|);
  }

  lemma FeedsLine(rd: Reader, line: string, rest: string, f: Frame, b: Inbox, ticks: nat, effect: Effect)
    requires IsLine(line) && f.bytes + |line| <= MAX_FRAME_BYTES && |b.pending| < MAX_PENDING_EVENTS && ticks > 0
    requires TakeLine(rd, f, b, line) == effect
    ensures Feed(rd, line + rest, f, b, ticks) ==
            match effect case Return(o, c) => (c, o) case Continue(g, c) => Feed(rd, rest, g, c, ticks - 1)
  {
    ReadsLine(line, rest);
  }

  ghost predicate Visible(s: string) {
    forall i :: 0 <= i < |s| ==> s[i] >= ' '
  }

  /** A visible line passes the character checks unchanged. */
  lemma VisibleLine(text: string)
    requires Visible(text)
    ensures IsLine(text + "\n") && TextOf(text + "\n") == text && '\r' !in text && '\0' !in text
  {
    var line := text + "\n";
    assert line[..|line| - 1] == text;
  }

  lemma SplitsField(name: string, value: string)
    requires ':' !in name && Visible(name) && Visible(value)
    ensures var text := name + ": " + value;
            && IndexOfChar(text, ':') == |name| < |text| && text[..|name|] == name
            && WithoutSpace(text[|name| + 1..]) == value && Visible(text)
            && (name != "" ==> text[0] != ':')
  {
    var text := name + ": " + value;
    assert text[..|name|] == name;
    IndexOfCharIs(text, ':', |name|);
    assert text[|name| + 1..] == " " + value;
  }

  lemma TakesField(f: Frame, name: string, value: string)
    requires name in {"event", "id", "data"} && name !in f.fields && !f.comment
    requires Visible(value)
    ensures Visible(name + ": " + value)
    ensures TakeText(f, name + ": " + value) == Some(f.(fields := f.fields[name := value]))
  {
    assert ':' !in name && Visible(name) && name != "" by {
      assert name == "event" || name == "id" || name == "data";
    }
    SplitsField(name, value);
  }

  /** A field line adds its field to the frame. */
  lemma FeedsField(rd: Reader, name: string, value: string, rest: string, f: Frame, b: Inbox, ticks: nat)
    requires name in {"event", "id", "data"} && name !in f.fields && !f.comment && Visible(value)
    requires f.bytes + |name| + |value| + 3 <= MAX_FRAME_BYTES && |b.pending| < MAX_PENDING_EVENTS && ticks > 0
    ensures Feed(rd, name + ": " + value + "\n" + rest, f, b, ticks)
            == Feed(rd, rest, Frame(f.fields[name := value], false, f.bytes + |name| + |value| + 3), b, ticks - 1)
  {
    hide TakeText, TextOf, Feed, Visible, IsLine;
    var text := name + ": " + value;
    TakesField(f, name, value);
    VisibleLine(text);
    TakesFieldLine(rd, f, b, text, f.fields[name := value]);
    FeedsLine(rd, text + "\n", rest, f, b, ticks,
              Continue(Frame(f.fields[name := value], false, f.bytes + |name| + |value| + 3), b));
  }

  lemma TakesFieldLine(rd: Reader, f: Frame, b: Inbox, text: string, fields: map<string, string>)
    requires text != "" && TextOf(text + "\n") == text && '\r' !in text && '\0' !in text
    requires f.bytes + |text| + 1 <= MAX_FRAME_BYTES && TakeText(f, text) == Some(f.(fields := fields)) && !f.comment
    ensures TakeLine(rd, f, b, text + "\n") == Continue(Frame(fields, false, f.bytes + |text| + 1), b)
  {
    hide TakeText, TextOf;
  }

  lemma FeedsComment(rd: Reader, text: string, rest: string, b: Inbox, ticks: nat)
    requires text != "" && text[0] == ':' && Visible(text) && |text| < MAX_FRAME_BYTES
    requires |b.pending| < MAX_PENDING_EVENTS && ticks > 0
    ensures Feed(rd, text + "\n" + rest, NOTHING, b, ticks)
            == Feed(rd, rest, Frame(map[], true, |text| + 1), b, ticks - 1)
  {
    VisibleLine(text);
    FeedsLine(rd, text + "\n", rest, NOTHING, b, ticks, Continue(Frame(map[], true, |text| + 1), b));
  }

  lemma FeedsBlank(rd: Reader, rest: string, f: Frame, b: Inbox, ticks: nat)
    requires f.bytes < MAX_FRAME_BYTES && |b.pending| < MAX_PENDING_EVENTS && ticks > 0
    ensures Feed(rd, "\n" + rest, f, b, ticks) ==
            if f.fields == map[] then Feed(rd, rest, NOTHING, b, ticks - 1)
            else match Dispatch(rd, b, f.fields)
                 case Return(o, c) => (c, o)
                 case Continue(g, c) => Feed(rd, rest, g, c, ticks - 1)
  {
    var line := "\n";
    assert line[..0] == "" && TextOf(line) == "";
    FeedsLine(rd, line, rest, f, b, ticks, TakeLine(rd, f, b, line));
  }

  // ---- frames ---------------------------------------------------------------------------------------------------

  /** A line of the wire, cut somewhere: either it never ends, or it arrives whole. */
  lemma CutLine(line: string, tail: string, n: nat)
    requires IsLine(line) && n <= |line| + |tail|
    ensures n < |line| ==> '\n' !in (line + tail)[..n]
    ensures n >= |line| ==> (line + tail)[..n] == line + tail[..n - |line|]
  {
    if n < |line| {
      assert (line + tail)[..n] == line[..|line| - 1][..n];
    }
  }

  lemma CutsField(rd: Reader, name: string, value: string, tail: string, n: nat, f: Frame, b: Inbox, ticks: nat)
    requires name in {"event", "id", "data"} && name !in f.fields && !f.comment && Visible(value)
    requires f.bytes + |name| + |value| + 3 <= MAX_FRAME_BYTES && |b.pending| < MAX_PENDING_EVENTS && ticks > 0
    requires n <= |Field(name, value)| + |tail|
    ensures Feed(rd, (Field(name, value) + tail)[..n], f, b, ticks)
            == if n < |Field(name, value)| then (b, Retry)
               else Feed(rd, tail[..n - |Field(name, value)|],
                         Frame(f.fields[name := value], false, f.bytes + |Field(name, value)|), b, ticks - 1)
  {
    hide TakeText, Feed;
    TakesField(f, name, value);
    VisibleLine(name + ": " + value);
    CutLine(Field(name, value), tail, n);
    if n < |Field(name, value)| {
      PartialLine(rd, (Field(name, value) + tail)[..n], f, b, ticks);
    } else {
      FeedsField(rd, name, value, tail[..n - |Field(name, value)|], f, b, ticks);
    }
  }

  lemma CutsBlank(rd: Reader, tail: string, n: nat, f: Frame, b: Inbox, ticks: nat)
    requires f.bytes < MAX_FRAME_BYTES && |b.pending| < MAX_PENDING_EVENTS && ticks > 0 && n <= 1 + |tail|
    ensures Feed(rd, ("\n" + tail)[..n], f, b, ticks) ==
            if n == 0 then (b, Retry)
            else if f.fields == map[] then Feed(rd, tail[..n - 1], NOTHING, b, ticks - 1)
            else match Dispatch(rd, b, f.fields)
                 case Return(o, c) => (c, o)
                 case Continue(g, c) => Feed(rd, tail[..n - 1], g, c, ticks - 1)
  {
    hide Feed;
    if n == 0 {
      PartialLine(rd, "", f, b, ticks);
    } else {
      assert ("\n" + tail)[..n] == "\n" + tail[..n - 1];
      FeedsBlank(rd, tail[..n - 1], f, b, ticks);
    }
  }

  lemma {:induction false} QuotedVisible(ids: seq<string>)
    requires forall i :: 0 <= i < |ids| ==> IsSafeId(ids[i])
    ensures Visible(Quoted(ids))
  {
    if ids != [] {
      assert IsSafeId(ids[0]);
      QuotedVisible(ids[1..]);
    }
  }

  lemma VisibleAppend(a: string, b: string)
    requires Visible(a) && Visible(b)
    ensures Visible(a + b)
  {
  }

  lemma EventJsonVisible(e: ReplayEvent)
    requires WellFormed(e)
    ensures Visible(EventJson(e)) && Visible(e.revision)
  {
    QuotedVisible(e.changedTasks);
    assert Visible(e.previous) && Visible(e.revision);
    var flag := if e.contextChanged then "true" else "false";
    var a := e.revision + "\"}";
    var b := e.previous + ("\",\"revision\":\"" + a);
    var c := flag + (",\"previous_revision\":\"" + b);
    var d := Quoted(e.changedTasks) + ("],\"context_changed\":" + c);
    hide WellFormed, Quoted;
    VisibleAppend(e.revision, "\"}");
    VisibleAppend("\",\"revision\":\"", a);
    VisibleAppend(e.previous, "\",\"revision\":\"" + a);
    VisibleAppend(",\"previous_revision\":\"", b);
    VisibleAppend(flag, ",\"previous_revision\":\"" + b);
    VisibleAppend("],\"context_changed\":", c);
    VisibleAppend(Quoted(e.changedTasks), "],\"context_changed\":" + c);
    VisibleAppend("{\"changed_task_ids\":[", d);
  }

  function AddAll(m: map<string, string>, fields: seq<(string, string)>): map<string, string>
    decreases |fields|
  {
    if fields == [] then m else AddAll(m[fields[0].0 := fields[0].1], fields[1..])
  }

  /** Field lines that may follow the fields already read. */
  ghost predicate Addable(m: map<string, string>, fields: seq<(string, string)>)
    decreases |fields|
  {
    fields != [] ==>
      && fields[0].0 in {"event", "id", "data"} && fields[0].0 !in m && Visible(fields[0].1)
      && Addable(m[fields[0].0 := fields[0].1], fields[1..])
  }

  /** Any number of field lines, cut anywhere: read in full, or dropped without trace. */
  lemma {:induction false} FieldsArrive(rd: Reader, fields: seq<(string, string)>, tail: string, n: nat, f: Frame,
                                        b: Inbox, ticks: nat)
    requires Addable(f.fields, fields) && !f.comment && f.bytes + |Body(fields)| <= MAX_FRAME_BYTES
    requires n <= |Body(fields)| + |tail| && |b.pending| < MAX_PENDING_EVENTS && ticks > n
    ensures n >= |Body(fields)| ==> n - |Body(fields)| < ticks - |fields|
    ensures Feed(rd, (Body(fields) + tail)[..n], f, b, ticks)
            == if n < |Body(fields)| then (b, Retry)
               else Feed(rd, tail[..n - |Body(fields)|],
                         Frame(AddAll(f.fields, fields), false, f.bytes + |Body(fields)|), b, ticks - |fields|)
    decreases |fields|
  {
    hide Feed, Visible;
    if fields == [] {
      assert "" + tail == tail;
      assert f == Frame(f.fields, false, f.bytes);
    } else {
      var (name, value) := fields[0];
      var rest := Body(fields[1..]) + tail;
      assert Body(fields) + tail == Field(name, value) + rest;
      CutsField(rd, name, value, rest, n, f, b, ticks);
      if n >= |Field(name, value)| {
        FieldsArrive(rd, fields[1..], tail, n - |Field(name, value)|,
                     Frame(f.fields[name := value], false, f.bytes + |Field(name, value)|), b, ticks - 1);
      }
    }
  }

  lemma {:induction false} AddAllNonEmpty(m: map<string, string>, fields: seq<(string, string)>)
    ensures m != map[] || fields != [] ==> AddAll(m, fields) != map[]
    decreases |fields|
  {
    if fields != [] {
      var m' := m[fields[0].0 := fields[0].1];
      assert fields[0].0 in m';
      AddAllNonEmpty(m', fields[1..]);
    }
  }

  /** A whole frame is dispatched on exactly its fields; a cut one is dropped. */
  lemma FrameArrives(rd: Reader, fields: seq<(string, string)>, tail: string, n: nat, b: Inbox, ticks: nat)
    requires fields != [] && Addable(map[], fields) && |Body(fields)| < MAX_FRAME_BYTES
    requires n <= |Body(fields)| + 1 + |tail| && |b.pending| < MAX_PENDING_EVENTS && ticks > n
    ensures n > |Body(fields)| ==> n - |Body(fields)| < ticks - |fields|
    ensures Feed(rd, (Body(fields) + "\n" + tail)[..n], NOTHING, b, ticks)
            == if n <= |Body(fields)| then (b, Retry)
               else match Dispatch(rd, b, AddAll(map[], fields))
                    case Return(o, c) => (c, o)
                    case Continue(g, c) => Feed(rd, tail[..n - |Body(fields)| - 1], g, c, ticks - |fields| - 1)
  {
    hide Feed, Addable, Dispatch, Body;
    assert Body(fields) + "\n" + tail == Body(fields) + ("\n" + tail);
    FieldsArrive(rd, fields, "\n" + tail, n, NOTHING, b, ticks);
    if n >= |Body(fields)| {
      AddAllNonEmpty(map[], fields);
      CutsBlank(rd, tail, n - |Body(fields)|, Frame(AddAll(map[], fields), false, |Body(fields)|), b, ticks - |fields|);
    }
  }

  // ---- beyond the frame limit -----------------------------------------------------------------------------------

  lemma OversizeLine(rd: Reader, line: string, rest: string, f: Frame, b: Inbox, ticks: nat)
    requires IsLine(line) && f.bytes + |line| > MAX_FRAME_BYTES && |b.pending| < MAX_PENDING_EVENTS && ticks > 0
    ensures Feed(rd, line + rest, f, b, ticks) == (b, ProtocolError)
  {
    assert (line + rest)[..|line| - 1] == line[..|line| - 1];
    IndexOfCharIs(line + rest, '\n', |line| - 1);
    if |line| <= MAX_FRAME_BYTES {
      assert ReadLine(line + rest) == line;
    }
  }

  /**
   How many bytes of an oversize frame arrive before the consumer refuses it; `before` bytes precede the data
   line.
   */
  function DueData(before: nat, json: nat): nat {
    if json + 7 > MAX_FRAME_BYTES then MAX_FRAME_BYTES + 1 else if before + json + 7 > MAX_FRAME_BYTES then json + 7
        else json + 8
  }

  /** A data line that no read can return whole. */
  lemma LongLine(rd: Reader, line: string, tail: string, n: nat, f: Frame, b: Inbox, ticks: nat)
    requires IsLine(line) && |line| > MAX_FRAME_BYTES && n <= |line| + |tail|
    requires |b.pending| < MAX_PENDING_EVENTS && ticks > 0
    ensures Feed(rd, (line + tail)[..n], f, b, ticks)
            == if n <= MAX_FRAME_BYTES then (b, Retry) else (b, ProtocolError)
  {
    CutLine(line, tail, n);
    if n <= MAX_FRAME_BYTES {
      PartialLine(rd, (line + tail)[..n], f, b, ticks);
    } else if n >= |line| {
      OversizeLine(rd, line, tail[..n - |line|], f, b, ticks);
    } else {
      var wire := (line + tail)[..n];
      assert wire[..|wire|] == wire;
      IndexOfCharIs(wire, '\n', |wire|);
    }
  }

  lemma OversizeData(rd: Reader, json: string, tail: string, n: nat, f: Frame, b: Inbox, ticks: nat)
    requires Visible(json) && "data" !in f.fields && !f.comment && f.fields != map[]
    requires f.bytes <= MAX_FRAME_BYTES < f.bytes + |json| + 8 && |b.pending| < MAX_PENDING_EVENTS && ticks > 1
    requires n <= |json| + 8 + |tail|
    ensures Feed(rd, (Field("data", json) + ("\n" + tail))[..n], f, b, ticks)
            == if n < DueData(f.bytes, |json|) then (b, Retry) else (b, ProtocolError)
  {
    DataLine(json);
    var line := Field("data", json);
    hide Feed, TakeText, Visible, Field, IsLine;
    if |line| > MAX_FRAME_BYTES {
      LongLine(rd, line, "\n" + tail, n, f, b, ticks);
    } else if f.bytes + |line| > MAX_FRAME_BYTES {
      CutLine(line, "\n" + tail, n);
      if n < |line| {
        PartialLine(rd, (line + ("\n" + tail))[..n], f, b, ticks);
      } else {
        OversizeLine(rd, line, ("\n" + tail)[..n - |line|], f, b, ticks);
      }
    } else {
      CutsField(rd, "data", json, "\n" + tail, n, f, b, ticks);
      if n >= |line| {
        OversizeBlank(rd, tail, n - |line|, Frame(f.fields["data" := json], false, f.bytes + |line|), b, ticks - 1);
      }
    }
  }

  lemma DataLine(json: string)
    requires Visible(json)
    ensures IsLine(Field("data", json)) && |Field("data", json)| == |json| + 7
  {
    VisibleLine("data: " + json);
    assert Field("data", json) == "data: " + json + "\n";
  }

  /** The blank line that would end a frame which already fills the limit. */
  lemma OversizeBlank(rd: Reader, tail: string, n: nat, f: Frame, b: Inbox, ticks: nat)
    requires f.bytes == MAX_FRAME_BYTES && |b.pending| < MAX_PENDING_EVENTS && ticks > 0 && n <= 1 + |tail|
    ensures Feed(rd, ("\n" + tail)[..n], f, b, ticks) == if n == 0 then (b, Retry) else (b, ProtocolError)
  {
    hide Feed;
    if n == 0 {
      PartialLine(rd, "", f, b, ticks);
    } else {
      assert ("\n" + tail)[..n] == "\n" + tail[..n - 1];
      OversizeLine(rd, "\n", tail[..n - 1], f, b, ticks);
    }
  }

  lemma {:induction false} BodyConcat(a: seq<(string, string)>, b: seq<(string, string)>)
    ensures Body(a + b) == Body(a) + Body(b)
  {
    hide Field;
    if a == [] {
      assert a + b == b;
    } else {
      BodyConcat(a[1..], b);
      assert (a + b)[1..] == a[1..] + b && (a + b)[0] == a[0];
      BodyUnfolds(a);
      BodyUnfolds(a + b);
      hide Body;
    }
  }

  lemma BodyUnfolds(a: seq<(string, string)>)
    requires a != []
    ensures Body(a) == Field(a[0].0, a[0].1) + Body(a[1..])
  {}

  function Opening(e: ReplayEvent): seq<(string, string)> {
    [("event", "revision"), ("id", e.revision)]
  }

  lemma SplitBody(e: ReplayEvent, tail: string)
    ensures Render(Revision(e)) + tail == Body(Opening(e)) + (Field("data", EventJson(e)) + ("\n" + tail))
    ensures |Render(Revision(e))| == |Body(Opening(e))| + |EventJson(e)| + 8
    ensures |Body(Opening(e))| == 21 + |e.revision| && |Opening(e)| == 2
  {
    hide EventJson;
    var last := [("data", EventJson(e))];
    assert FieldsOf(Revision(e)) == Opening(e) + last;
    BodyConcat(Opening(e), last);
    assert last[1..] == [] && Body(last) == Field("data", EventJson(e));
    assert Opening(e)[1..] == [("id", e.revision)] && Opening(e)[1..][1..] == [];
  }

  lemma OpeningFields(e: ReplayEvent)
    requires WellFormed(e)
    ensures Addable(map[], Opening(e)) && AddAll(map[], Opening(e)) == map["event" := "revision", "id" := e.revision]
    ensures "data" !in AddAll(map[], Opening(e)) && AddAll(map[], Opening(e)) != map[]
  {
    EventJsonVisible(e);
    hide WellFormed;
    assert "event" != "id" && "event" != "data" && "id" != "data";
    var f1, m1 := Opening(e)[1..], map["event" := "revision"];
    assert f1 == [("id", e.revision)] && f1[1..] == [];
    assert Addable(m1["id" := e.revision], f1[1..]);
    assert Addable(m1, f1) && AddAll(m1, f1) == m1["id" := e.revision];
    assert "event" in m1["id" := e.revision];
  }

  lemma OversizeFields(rd: Reader, fields: seq<(string, string)>, json: string, tail: string, n: nat, b: Inbox,
                       ticks: nat)
    requires Addable(map[], fields) && |Body(fields)| <= MAX_FRAME_BYTES && Visible(json) && |fields| == 2
    requires AddAll(map[], fields) != map[] && "data" !in AddAll(map[], fields)
    requires |Body(fields)| + |json| + 8 > MAX_FRAME_BYTES && |b.pending| < MAX_PENDING_EVENTS && ticks > n
    requires n <= |Body(fields)| + |json| + 8 + |tail| && |Body(fields)| >= 2
    ensures Feed(rd, (Body(fields) + (Field("data", json) + ("\n" + tail)))[..n], NOTHING, b, ticks)
            == if n < |Body(fields)| + DueData(|Body(fields)|, |json|) then (b, Retry) else (b, ProtocolError)
  {
    hide *;
    DataLine(json);
    BodySize(fields);
    DueIsLater(|Body(fields)|, |json|);
    var k, rest := |Body(fields)|, Field("data", json) + ("\n" + tail);
    assert |rest| == |json| + 8 + |tail|;
    FieldsFirst(rd, fields, rest, n, b, ticks);
    if n >= k {
      OversizeData(rd, json, tail, n - k, Frame(AddAll(map[], fields), false, k), b, ticks - 2);
    }
  }

  lemma DueIsLater(before: nat, json: nat)
    ensures DueData(before, json) > 0
  {}

  lemma {:induction false} BodySize(fields: seq<(string, string)>)
    ensures |Body(fields)| >= 3 * |fields|
  {
    if fields != [] {
      BodySize(fields[1..]);
    }
  }

  lemma FieldsFirst(rd: Reader, fields: seq<(string, string)>, rest: string, n: nat, b: Inbox, ticks: nat)
    requires Addable(map[], fields) && |Body(fields)| <= MAX_FRAME_BYTES && |fields| == 2 && |Body(fields)| >= 2
    requires n <= |Body(fields)| + |rest| && |b.pending| < MAX_PENDING_EVENTS && ticks > n
    ensures n < |Body(fields)| ==> Feed(rd, (Body(fields) + rest)[..n], NOTHING, b, ticks) == (b, Retry)
    ensures n >= |Body(fields)| ==>
              Feed(rd, (Body(fields) + rest)[..n], NOTHING, b, ticks)
              == Feed(rd, rest[..n - |Body(fields)|], Frame(AddAll(map[], fields), false, |Body(fields)|), b, ticks - 2)
  {
    hide Feed, Body, Addable, AddAll;
    FieldsArrive(rd, fields, rest, n, NOTHING, b, ticks);
  }

  /** A revision frame beyond the frame limit, cut anywhere: nothing happens until it is due, then it is refused. */
  lemma OversizeArrives(rd: Reader, e: ReplayEvent, tail: string, n: nat, b: Inbox, ticks: nat)
    requires WellFormed(e) && |Render(Revision(e))| > MAX_FRAME_BYTES && |b.pending| < MAX_PENDING_EVENTS && ticks > n
    requires n <= |Render(Revision(e))| + |tail|
    ensures Feed(rd, (Render(Revision(e)) + tail)[..n], NOTHING, b, ticks)
            == if n < 61 + DueData(61, |EventJson(e)|) then (b, Retry) else (b, ProtocolError)
  {
    assert |e.revision| == 40;
    hide Feed, Render, Body, Addable, AddAll, EventJson, Field, DueData, WellFormed, Visible, Opening;
    SplitBody(e, tail);
    OpeningFields(e);
    EventJsonVisible(e);
    OversizeFields(rd, Opening(e), EventJson(e), tail, n, b, ticks);
  }
}
