/** What the server writes into a subscription: `_stream` of collab_runtime/transport.py. */
module StreamServer {
  import opened Common
  import opened StringOrder
  import opened SessionModel
  import opened GitObjects
  import opened HubModel
  import opened HubRuns
  import opened GitStoreModel
  import opened Replay
  import opened Consumer
  import opened EventStream
  import opened StreamRoundTrip

  function Revisions(items: seq<Item>): seq<ReplayEvent> {
    if items == [] then []
    else (if items[0].Revision? then [items[0].event] else []) + Revisions(items[1..])
  }

  lemma RevisionsUnfold(items: seq<Item>) returns (first: seq<ReplayEvent>)
    requires items != []
    ensures Revisions(items) == first + Revisions(items[1..])
    ensures first == if items[0].Revision? then [items[0].event] else []
  {
    first := if items[0].Revision? then [items[0].event] else [];
  }

  lemma NoRevisions()
    ensures Revisions([]) == []
  {}

  lemma {:induction false} RevisionsConcat(a: seq<Item>, b: seq<Item>)
    ensures Revisions(a + b) == Revisions(a) + Revisions(b)
  {
    hide Revisions;
    if a == [] {
      NoRevisions();
      assert a + b == b;
    } else {
      RevisionsConcat(a[1..], b);
      assert (a + b)[1..] == a[1..] + b && (a + b)[0] == a[0];
      var first := RevisionsUnfold(a);
      var same := RevisionsUnfold(a + b);
      assert first + (Revisions(a[1..]) + Revisions(b)) == (first + Revisions(a[1..])) + Revisions(b);
    }
  }

  lemma {:induction false} RenderAllConcat(a: seq<Item>, b: seq<Item>)
    ensures RenderAll(a + b) == RenderAll(a) + RenderAll(b)
  {
    hide Render;
    if a == [] {
      assert a + b == b;
    } else {
      RenderAllConcat(a[1..], b);
      assert (a + b)[1..] == a[1..] + b && (a + b)[0] == a[0];
    }
  }

  lemma RenderAppend(items: seq<Item>, i: Item)
    ensures RenderAll(items + [i]) == RenderAll(items) + Render(i)
    ensures Revisions(items + [i]) == Revisions(items) + if i.Revision? then [i.event] else []
  {
    hide Render;
    RevisionsConcat(items, [i]);
    RenderAllConcat(items, [i]);
    assert RenderAll([i][1..]) == "" && Revisions([i][1..]) == [];
    assert RenderAll([i]) == Render(i) + "";
  }

  // ---- the server -----------------------------------------------------------------------------------------------

  /** The fixed wire code of a core error; its fixed message text is a parameter of the server. */
  function FailureCode(e: Error): string {
    match e
    case AccessDeniedError => "access_denied"
    case StaleRevisionError => "stale_revision"
    case ReplayUnavailableError => UNAVAILABLE
    case ValidationError => "invalid_request"
    case SessionNotFoundError => "session_unavailable"
    case GitOperationError => "session_unavailable"
    case _ => "internal_error"
  }

  lemma CodeIsKnown(e: Error)
    ensures FailureCode(e) in ERROR_CODES
  {}

  /** The events of one page, unless the server is stopped first, which it sees once `ticks` checks have passed. */
  method WritePage(wire0: string, ghost items0: seq<Item>, page: ReplayPage, ticks: nat)
    returns (wire: string, ghost items: seq<Item>, left: nat, stopped: bool)
    requires wire0 == RenderAll(items0)
    ensures wire == RenderAll(items) && items0 <= items
    ensures Revisions(items) == Revisions(items0) + page.events[..Min(ticks, |page.events|)]
    ensures (stopped <==> ticks < |page.events|) && left == Max(ticks - |page.events|, 0)
    ensures forall k :: |items0| <= k < |items| ==> items[k].Revision?
  {
    hide Render;
    wire, items, left, stopped := wire0, items0, ticks, false;
    for k := 0 to |page.events|
      invariant k <= ticks && left == ticks - k
      invariant forall k :: |items0| <= k < |items| ==> items[k].Revision?
      invariant wire == RenderAll(items) && items0 <= items && Revisions(items) == Revisions(items0) + page.events[..k]
    {
      if left == 0 {
        stopped := true;
        return;
      }
      left := left - 1;
      RenderAppend(items, Revision(page.events[k]));
      wire := wire + Render(Revision(page.events[k]));
      items := items + [Revision(page.events[k])];
    }
    assert page.events[..|page.events|] == page.events;
  }

  /** What has been written so far: frames whose revisions run from `cursor` to `next` in the history at `at`. */
  ghost predicate Written(wire: string, items: seq<Item>, cursor: Sha, next: Sha, at: Hub, i: nat, j: nat) {
    && wire == RenderAll(items) && Covers(at, i, j, Revisions(items))
    && History(at)[i] == cursor && History(at)[j] == next
  }

  ghost predicate PageAt(h: Hub, p: nat, q: nat, cursor: Sha, page: ReplayPage) {
    Covers(h, p, q, page.events) && History(h)[p] == cursor && History(h)[q] == page.next
  }

  lemma TakeCover(h: Hub, c: int, r: int, events: seq<ReplayEvent>, n: nat)
    requires Covers(h, c, r, events) && n <= |events|
    ensures c + n <= r && Covers(h, c, c + n, events[..n])
  {
    var t := History(h)[c..r + 1];
    EventsSplit(h.objects, t, n);
    assert t[..n + 1] == History(h)[c..c + n + 1];
  }

  lemma CoverLength(h: Hub, c: int, r: int, events: seq<ReplayEvent>)
    requires Covers(h, c, r, events)
    ensures |events| == r - c
  {}

  /** Writing part of a page that starts where the last one ended. */
  lemma WriteRange(h0: Hub, h: Hub, cursor: Sha, next: Sha, i: nat, j: nat, p: nat, q: nat, wire0: string,
                   items0: seq<Item>, wire: string, items: seq<Item>, page: ReplayPage) returns (j': nat, next': Sha)
    requires Written(wire0, items0, cursor, next, h0, i, j) && Extends(h0, h) && PageAt(h, p, q, next, page)
    requires wire == RenderAll(items) && Revisions(items0) <= Revisions(items) <= Revisions(items0) + page.events
    ensures Written(wire, items, cursor, next', h, i, j')
    ensures Revisions(items) == Revisions(items0) + page.events ==> next' == page.next && j' == q
  {
    hide Extends, Covers, Revisions, RenderAll;
    var n := |Revisions(items)| - |Revisions(items0)|;
    assert Revisions(items) == Revisions(items0) + page.events[..n];
    j' := p + n;
    next' := JoinRange(h0, h, i, j, p, q, n, Revisions(items0), page.events);
  }

  lemma JoinRange(h0: Hub, h: Hub, i: nat, j: nat, p: nat, q: nat, n: nat, a: seq<ReplayEvent>, b: seq<ReplayEvent>)
    returns (next: Sha)
    requires Extends(h0, h) && Covers(h0, i, j, a) && Covers(h, p, q, b) && n <= |b| && History(h)[p] == History(h0)[j]
    ensures Covers(h, i, p + n, a + b[..n]) && History(h)[i] == History(h0)[i] && History(h)[p + n] == next
    ensures n == |b| ==> p + n == q
  {
    TakeCover(h, p, q, b, n);
    CoverLength(h, p, q, b);
    hide Extends;
    CoversJoin(h0, h, i, j, p, p + n, a, b[..n]);
    next := History(h)[p + n];
  }

  /** One replay call: where the page lies in the history of the hub it was served from. */
  method FetchPage(store: GitStore, cursor: Sha) returns (page: Result<ReplayPage>, ghost at: Hub, ghost p: nat,
                   ghost q: nat)
    requires store.hub.Valid()
    modifies store, store.hub
    ensures store.hub.Valid() && Extends(old(store.hub.View()), at) && Extends(at, store.hub.View())
    ensures Moved(store.hub.hash, old(store.hub.View()), store.hub.View())
    ensures page.Ok? ==> PageAt(at, p, q, cursor, page.value)
    ensures Wf(at)
    ensures page.Ok? ==> q == |History(at)| - 1 || q == p + 32
    ensures page == Err(ReplayUnavailableError) ==>
              forall k :: 0 <= k < |History(at)| && History(at)[k] == cursor ==> |History(at)| - k > 65
  {
    p, q := 0, 0;
    var fetches: bool := *;
    page, at := ReplayEvents(store, cursor, MAX_REPLAY_PAGE, fetches);
    MovedThen(store.hub.hash, old(store.hub.View()), at, store.hub.View());
    if page.Ok? {
      p, q := PageRange(at, cursor, MAX_REPLAY_PAGE, page.value);
    }
  }

  lemma ReadyWritten(cursor: Sha, at: Hub, p: nat, q: nat, page: ReplayPage)
    requires PageAt(at, p, q, cursor, page)
    ensures Written(Render(Ready), [Ready], cursor, cursor, at, p, p) && Extends(at, at)
  {
    hide Render;
    RenderAppend([], Ready);
    assert [] + [Ready] == [Ready];
    TakeCover(at, p, q, page.events, 0);
  }

  /** Comments and the terminal failure add no revision. */
  lemma QuietWritten(wire: string, items: seq<Item>, cursor: Sha, next: Sha, at: Hub, i: nat, j: nat, item: Item)
    requires Written(wire, items, cursor, next, at, i, j) && !item.Revision?
    ensures Written(wire + Render(item), items + [item], cursor, next, at, i, j)
  {
    RenderAppend(items, item);
  }

  ghost predicate NoFailure(items: seq<Item>) {
    forall k :: 0 <= k < |items| ==> !items[k].Failure?
  }

  ghost predicate OnlyLastFails(items: seq<Item>) {
    items != [] ==> NoFailure(items[..|items| - 1])
  }

  /** Failures carry one of the known codes and the server's message. */
  ghost predicate KnownFailures(items: seq<Item>, message: string) {
    forall k :: 0 <= k < |items| && items[k].Failure? ==> items[k].code in ERROR_CODES && items[k].message == message
  }

  /** One round: write the page, then a heartbeat if it was the last one. */
  method ServeRound(wire0: string, ghost items0: seq<Item>, page: ReplayPage, ghost cursor: Sha, ghost next0: Sha,
                    ghost h0: Hub, ghost h: Hub, ghost i: nat, ghost j0: nat, ghost p: nat, ghost q: nat, ticks: nat)
    returns (wire: string, ghost items: seq<Item>, ghost next: Sha, ghost j: nat, left: nat, stopped: bool)
    requires Written(wire0, items0, cursor, next0, h0, i, j0) && Extends(h0, h) && NoFailure(items0)
    requires PageAt(h, p, q, next0, page)
    ensures Written(wire, items, cursor, next, h, i, j) && NoFailure(items) && |items0| <= |items|
    ensures !stopped ==> next == page.next && j == q && (!page.hasMore ==> items != [] && Last(items) == Heartbeat)
    ensures stopped ==> left == 0
  {
    hide Render, Written, PageAt, Extends;
    assert wire0 == RenderAll(items0) by { WrittenWire(wire0, items0, cursor, next0, h0, i, j0); }
    wire, items, left, stopped := WritePage(wire0, items0, page, ticks);
    j, next := WriteRange(h0, h, cursor, next0, i, j0, p, q, wire0, items0, wire, items, page);
    if !stopped && !page.hasMore {
      if left == 0 {
        stopped := true;
      } else {
        left := left - 1;
        QuietWritten(wire, items, cursor, next, h, i, j, Heartbeat);
        wire, items := wire + Render(Heartbeat), items + [Heartbeat];
      }
    }
  }

  lemma WrittenWire(wire: string, items: seq<Item>, cursor: Sha, next: Sha, at: Hub, i: nat, j: nat)
    requires Written(wire, items, cursor, next, at, i, j)
    ensures wire == RenderAll(items)
  {}

  /** A page starts where the last one ended. */
  lemma Reached(cursor: Sha, next: Sha, at: Hub, h: Hub, i: nat, j: nat, p: nat, q: nat, wire: string,
                items: seq<Item>, page: ReplayPage)
    requires Written(wire, items, cursor, next, at, i, j) && Extends(at, h) && PageAt(h, p, q, next, page)
    ensures p == j && i <= j
  {
    ChainDistinct(h.objects, History(h));
    assert History(h)[j] == next && History(h)[p] == next;
  }

  lemma OutOfWindow(wire: string, items: seq<Item>, cursor: Sha, next: Sha, at: Hub, h: Hub, now: Hub, i: nat, j: nat,
                    e: Error)
    requires Written(wire, items, cursor, next, at, i, j) && Extends(at, h) && Extends(h, now)
    requires e == ReplayUnavailableError ==>
               forall k :: 0 <= k < |History(h)| && History(h)[k] == next ==> |History(h)| - k > 65
    ensures FailureCode(e) == "replay_unavailable" ==> |History(now)| - j > 65
  {
    assert History(h)[j] == next && |History(now)| >= |History(h)|;
  }

  /**
   The subscription loop: pages are fetched while the hub moves, for `rounds` rounds, until the server sees after
   `ticks` checks that it is stopped.  Whatever is written is the hub history after the cursor, in order, and only the
   last frame can be a failure.  Unless it was stopped or failed, it has reached the head it fetched last or written a
   full page; it asks for a new snapshot only where the window has moved past what it wrote.
   */
  method ServeStream(store: GitStore, cursor: Sha, rounds: nat, ticks: nat, message: string)
    returns (r: Result<string>, left: nat, ghost items: seq<Item>, ghost next: Sha, ghost at: Hub, ghost i: nat,
             ghost j: nat)
    requires store.hub.Valid()
    modifies store, store.hub
    ensures store.hub.Valid() && Moved(store.hub.hash, old(store.hub.View()), store.hub.View())
    ensures r.Ok? ==> Written(r.value, items, cursor, next, at, i, j) && Extends(at, store.hub.View())
    ensures r.Ok? ==> OnlyLastFails(items) && KnownFailures(items, message)
    ensures r.Ok? && rounds > 0 && left > 0 && NoFailure(items) ==> j == |History(at)| - 1 || j - i >= 32
    ensures r.Ok? && items != [] && Last(items).Failure? && Last(items).code == "replay_unavailable" ==>
              |History(store.hub.View())| - j > 65
  {
    hide ERROR_CODES, Covers, Moved, Extends, Inv, Wf, Render, Written, PageAt, FailureCode;
    items, left := [Ready], ticks;
    var page;
    ghost var p, q, h;
    page, h, p, q := FetchPage(store, cursor);
    at, i, j, next := h, p, p, cursor;
    if page.Err? {
      return Err(page.error), left, items, next, at, i, j;
    }
    ReadyWritten(cursor, h, p, q, page.value);
    var wire, n, current := Render(Ready), 0, page.value;
    while n < rounds
      invariant store.hub.Valid() && Moved(store.hub.hash, old(store.hub.View()), store.hub.View())
      invariant Written(wire, items, cursor, next, at, i, j) && Extends(at, h) && Extends(h, store.hub.View())
      invariant items != [] && NoFailure(items)
      invariant Wf(h) && Wf(at)
      invariant PageAt(h, p, q, next, current) && (q == |History(h)| - 1 || q == p + 32)
      invariant n > 0 ==> j == |History(at)| - 1 || j - i >= 32
    {
      Reached(cursor, next, at, h, i, j, p, q, wire, items, current);
      var stopped;
      wire, items, next, j, left, stopped := ServeRound(wire, items, current, cursor, next, at, h, i, j, p, q, left);
      at, n := h, n + 1;
      if stopped {
        return Ok(wire), left, items, next, at, i, j;
      }
      ghost var before := store.hub.View();
      page, h, p, q := FetchPage(store, current.next);
      MovedThen(store.hub.hash, old(store.hub.View()), before, store.hub.View());
      ExtendsTransitive(at, before, h);
      if page.Err? {
        var failure := Failure(FailureCode(page.error), message);
        OutOfWindow(wire, items, cursor, next, at, h, store.hub.View(), i, j, page.error);
        CodeIsKnown(page.error);
        ExtendsTransitive(at, h, store.hub.View());
        QuietWritten(wire, items, cursor, next, at, i, j, failure);
        wire, items := wire + Render(failure), items + [failure];
        return Ok(wire), left, items, next, at, i, j;
      }
      current := page.value;
    }
    ExtendsTransitive(at, h, store.hub.View());
    r := Ok(wire);
  }

  // ---- the frames are sendable ----------------------------------------------------------------------------------

  /** Published states obey the limits of the state parser, and commit ids are ids. */
  ghost predicate WellStated(h: Hub) {
    && Wf(h) && AllStates(h.objects, History(h))
    && (forall i :: 0 <= i < |History(h)| ==> IsSha(History(h)[i]) && WellTasked(StateAt(h.objects, History(h)[i])))
  }

  /** So it is in every reachable hub. */
  lemma PublishedIsWellStated(hash: ContextHash, h: Hub)
    requires Inv(hash, h)
    ensures WellStated(h)
  {
    hide IsSha, WellTasked;
    forall i | 0 <= i < |History(h)|
      ensures IsSha(History(h)[i]) && HoldsState(h.objects, History(h)[i])
      ensures WellTasked(StateAt(h.objects, History(h)[i]))
    {
      assert History(h)[i] in h.objects;
    }
  }

  lemma SortedIsDistinct(s: seq<string>)
    requires StrictlySorted(s)
    ensures Distinct(s)
  {
    forall i, j | 0 <= i < j < |s| ensures s[i] != s[j] {
      LessAsymmetric(s[i], s[j]);
    }
  }

  lemma ChangedTasksFit(a: SessionState, b: SessionState)
    requires WellTasked(a) && WellTasked(b)
    ensures |Sorted(ChangedTasks(a, b))| <= MAX_CHANGED_TASK_IDS
  {
    var r, ids := Sorted(ChangedTasks(a, b)), a.tasks.Keys + b.tasks.Keys;
    SortedIsDistinct(r);
    DistinctSize(r);
    assert Elements(r) <= ids;
    SubsetSize(Elements(r), ids);
    assert |ids| <= |a.tasks.Keys| + |b.tasks.Keys|;
  }

  lemma SubsetSize(a: set<string>, b: set<string>)
    requires a <= b
    ensures |a| <= |b|
  {
    assert b == a + (b - a);
  }

  /** Every transition of such a history is a well-formed event. */
  lemma TransitionIsWellFormed(h: Hub, i: nat)
    requires WellStated(h) && i + 1 < |History(h)|
    ensures WellFormed(Transition(h.objects, History(h)[i], History(h)[i + 1]))
  {
    var s := History(h);
    var a, b := StateAt(h.objects, s[i]), StateAt(h.objects, s[i + 1]);
    var e := Transition(h.objects, s[i], s[i + 1]);
    ChainDistinct(h.objects, s);
    assert WellTasked(a) && WellTasked(b) && s[i] != s[i + 1];
    hide IsSha, IsSafeId;
    ChangedTasksFit(a, b);
    forall k | 0 <= k < |e.changedTasks| ensures IsSafeId(e.changedTasks[k]) {
      assert e.changedTasks[k] in ChangedTasks(a, b);
    }
  }

  lemma {:induction false} RevisionListed(items: seq<Item>, k: nat)
    requires k < |items| && items[k].Revision?
    ensures items[k].event in Revisions(items)
  {
    if k > 0 {
      RevisionListed(items[1..], k - 1);
    }
  }

  /** What a server of well-stated revisions writes is sendable, frame by frame. */
  lemma WrittenIsSendable(wire: string, items: seq<Item>, cursor: Sha, next: Sha, at: Hub, i: nat, j: nat,
                          message: string)
    requires Written(wire, items, cursor, next, at, i, j) && WellStated(at) && KnownFailures(items, message)
    requires Plain(message) && |message| <= 1000
    ensures forall k :: 0 <= k < |items| ==> Sendable(items[k])
  {
    forall k | 0 <= k < |items| ensures Sendable(items[k]) {
      match items[k]
      case Revision(e) =>
        RevisionListed(items, k);
        EventIsWellFormed(at, i, j, Revisions(items), e);
      case Failure(c, m) => FailureIsSendable(c, m);
      case _ =>
    }
  }

  lemma EventIsWellFormed(at: Hub, i: nat, j: nat, events: seq<ReplayEvent>, e: ReplayEvent)
    requires Covers(at, i, j, events) && WellStated(at) && e in events
    ensures WellFormed(e)
  {
    hide WellFormed, Transition, Covers, WellStated, AllStates, Wf;
    var k :| 0 <= k < |events| && events[k] == e;
    CoverAt(at, i, j, events, k);
    TransitionIsWellFormed(at, i + k);
  }

  lemma CoverAt(at: Hub, i: nat, j: nat, events: seq<ReplayEvent>, k: nat)
    requires Covers(at, i, j, events) && k < |events|
    ensures i + k + 1 < |History(at)|
    ensures events[k] == Transition(at.objects, History(at)[i + k], History(at)[i + k + 1])
  {
    hide Transition;
  }

  lemma FailureIsSendable(c: string, m: string)
    requires c in ERROR_CODES && Plain(m) && |m| <= 1000
    ensures Sendable(Failure(c, m))
  {
    CodesArePlain(c);
    hide ERROR_CODES, Plain;
  }
}
