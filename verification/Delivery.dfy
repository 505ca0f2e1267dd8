/**
 End-to-end delivery.  One consumer follows one hub through the subscription stream; publishing, page serving,
 delivery, disconnection, acknowledgement, crash and reset interleave in any order.
 */
module Delivery {
  import opened Common
  import opened SessionModel
  import opened GitObjects
  import opened HubModel
  import opened HubRuns
  import opened Replay
  import opened Consumer
  import EventStream

  /** An open stream: the server's next cursor and the events written but not yet read by the consumer. */
  datatype Connection = Down | Up(cursor: Sha, wire: seq<ReplayEvent>)

  datatype Status = Following | ResnapshotRequired | ProtocolError

  datatype System = System(hub: Hub, inbox: Inbox, checkpoint: Sha, connection: Connection, status: Status)

  datatype Event =
    | HubMoves(hub: Hub)
    | Connects
    | Serves(page: Option<ReplayPage>)  // None: the cursor has left the replay window
    | Delivers
    | Disconnects
    | Acknowledged(revision: Sha)
    | CrashesWhileAcknowledging(revision: Sha)  // after the checkpoint was replaced, before memory was updated
    | Crashed
    | Reset(revision: Sha)
    | CrashesWhileResetting(revision: Sha)

  ghost predicate Possible(hash: ContextHash, d: System, e: Event)
    requires Wf(d.hub)
  {
    match e
    case HubMoves(h) => Step(hash, d.hub, h)
    case Connects => d.connection.Down? && d.status.Following? && |d.inbox.pending| < MAX_PENDING_EVENTS
    case Serves(page) =>
      && d.connection.Up?
      && var s := History(d.hub);
         if page.None? then d.connection.cursor !in s[WindowStart(|s|)..]
         else IsPage(d.hub.objects, s, d.connection.cursor, MAX_REPLAY_PAGE, page.value)
    case Delivers =>
      d.connection.Up? && d.connection.wire != [] && |d.inbox.pending| < MAX_PENDING_EVENTS && d.status.Following?
    case Disconnects => d.connection.Up?
    case Acknowledged(r) => Acknowledge(d.inbox, r).Some?
    case CrashesWhileAcknowledging(r) => Acknowledge(d.inbox, r).Some?
    case Crashed => true
    case Reset(r) => r in History(d.hub)
    case CrashesWhileResetting(r) => r in History(d.hub)
  }

  ghost function After(d: System, e: Event): System {
    match e
    case HubMoves(h) => d.(hub := h)
    case Connects => d.(connection := Up(d.inbox.received, []))
    case Serves(page) =>
      if d.connection.Down? then d
      else if page.None? then d.(connection := Down, status := ResnapshotRequired)
      else d.(connection := Up(page.value.next, d.connection.wire + page.value.events))
    case Delivers =>
      if d.connection.Down? || d.connection.wire == [] then d
      else if !EventStream.Carriable(d.connection.wire[0]) then d.(connection := Down, status := ProtocolError)
      else (match Accept(d.inbox, d.connection.wire[0])
            case Some(b) => d.(inbox := b, connection := Up(d.connection.cursor, d.connection.wire[1..]))
            case None => d.(connection := Down, status := ProtocolError))
    case Disconnects => d.(connection := Down)
    case Acknowledged(r) =>
      (match Acknowledge(d.inbox, r) case Some(b) => d.(inbox := b, checkpoint := r) case None => d)
    case CrashesWhileAcknowledging(r) => Restarted(d.(checkpoint := r))
    case Crashed => Restarted(d)
    case Reset(r) => d.(inbox := Fresh(r), checkpoint := r, connection := Down, status := Following)
    case CrashesWhileResetting(r) => Restarted(d.(checkpoint := r))
  }

  /** Memory and connection are gone; the checkpoint file is what remains. */
  function Restarted(d: System): System {
    d.(inbox := Fresh(d.checkpoint), connection := Down, status := Following)
  }

  // ---- the invariant --------------------------------------------------------------------------------------------

  /** The transition out of position r is beyond what the consumer can take off the wire. */
  ghost predicate TooLarge(h: Hub, r: int) {
    && Wf(h) && AllStates(h.objects, History(h)) && 0 <= r && r + 1 < |History(h)|
    && !EventStream.Carriable(Transition(h.objects, History(h)[r], History(h)[r + 1]))
  }

  /**
   The inbox is the history from position c to position r, and the wire continues it to position k.  A protocol error
   is only ever raised in front of a transition that is too large.
   */
  ghost predicate Positioned(d: System, c: int, r: int, k: int) {
    && Covers(d.hub, c, r, d.inbox.pending) && 0 <= k
    && History(d.hub)[c] == d.inbox.consumed && History(d.hub)[r] == d.inbox.received
    && (d.connection.Up? ==> Covers(d.hub, r, k, d.connection.wire) && History(d.hub)[k] == d.connection.cursor)
    && (d.status.ProtocolError? ==> TooLarge(d.hub, r))
  }

  /**
   The inbox is exactly the hub history strictly after `consumed` up to `received`: in order, without gap,
   duplicate or reordering, and never more than 32 events; the durable cursor is `consumed`.
   */
  ghost predicate Exact(hash: ContextHash, d: System) {
    Inv(hash, d.hub) && Bounded(d) && exists c, r, k :: Positioned(d, c, r, k)
  }

  ghost predicate Bounded(d: System) {
    && d.checkpoint == d.inbox.consumed
    && |d.inbox.pending| <= MAX_PENDING_EVENTS
    && (d.inbox.last.Some? ==> d.inbox.last.value.revision == d.inbox.received)
  }

  lemma FreshPositioned(d: System) returns (i: nat)
    requires Wf(d.hub) && AllStates(d.hub.objects, History(d.hub)) && d.connection.Down?
    requires d.inbox == Fresh(d.checkpoint) && d.checkpoint in History(d.hub) && d.status == Following
    ensures Positioned(d, i, i, i)
  {
    i :| 0 <= i < |History(d.hub)| && History(d.hub)[i] == d.checkpoint;
    assert Events(d.hub.objects, History(d.hub)[i..i + 1]) == [];
  }

  lemma InvStates(hash: ContextHash, h: Hub)
    requires Inv(hash, h)
    ensures AllStates(h.objects, History(h))
  {}

  lemma CoversExtends(h: Hub, h': Hub, i: int, j: int, events: seq<ReplayEvent>)
    requires Extends(h, h') && Covers(h, i, j, events) && AllStates(h'.objects, History(h'))
    ensures Covers(h', i, j, events) && History(h')[i] == History(h)[i] && History(h')[j] == History(h)[j]
  {
    var s, s' := History(h), History(h');
    assert s'[i..j + 1] == s[i..j + 1];
    EventsGrow(h.objects, h'.objects, s[i..j + 1]);
  }

  lemma TooLargeGrows(h: Hub, h': Hub, r: int)
    requires TooLarge(h, r) && Extends(h, h') && AllStates(h'.objects, History(h'))
    ensures TooLarge(h', r)
  {
    var s, s' := History(h), History(h');
    assert s'[r] == s[r] && s'[r + 1] == s[r + 1];
    assert HoldsState(h.objects, s[r]) && HoldsState(h.objects, s[r + 1]);
  }

  lemma HubMovesPositioned(d: System, h: Hub, c: int, r: int, k: int)
    requires Positioned(d, c, r, k) && Extends(d.hub, h) && AllStates(h.objects, History(h))
    ensures Positioned(d.(hub := h), c, r, k)
  {
    CoversExtends(d.hub, h, c, r, d.inbox.pending);
    if d.connection.Up? {
      CoversExtends(d.hub, h, r, k, d.connection.wire);
    }
    if d.status.ProtocolError? {
      TooLargeGrows(d.hub, h, r);
    }
  }

  lemma ConnectsPositioned(d: System, c: int, r: int, k: int)
    requires Positioned(d, c, r, k)
    ensures Positioned(After(d, Connects), c, r, r)
  {
    assert Events(d.hub.objects, History(d.hub)[r..r + 1]) == [];
  }

  lemma ServesPositioned(d: System, page: ReplayPage, c: int, r: int, k: int) returns (q: nat)
    requires Positioned(d, c, r, k) && d.connection.Up?
    requires IsPage(d.hub.objects, History(d.hub), d.connection.cursor, MAX_REPLAY_PAGE, page)
    ensures Positioned(After(d, Serves(Some(page))), c, r, q)
  {
    var p;
    p, q := PageRange(d.hub, d.connection.cursor, MAX_REPLAY_PAGE, page);
    SelfExtends(d.hub);
    CoversJoin(d.hub, d.hub, r, k, p, q, d.connection.wire, page.events);
  }

  /** The next event on the wire is the transition out of `received`, so the inbox always takes it. */
  lemma HeadAccepted(d: System, c: int, r: int, k: int)
    requires Positioned(d, c, r, k) && d.connection.Up? && d.connection.wire != []
    requires |d.inbox.pending| < MAX_PENDING_EVENTS
    ensures r < k
    ensures var e := d.connection.wire[0];
            e == Transition(d.hub.objects, History(d.hub)[r], History(d.hub)[r + 1])
            && Accept(d.inbox, e) == Some(Inbox(d.inbox.consumed, e.revision, d.inbox.pending + [e], Some(e)))
  {
    var s, e := History(d.hub), d.connection.wire[0];
    ChainDistinct(d.hub.objects, s);
    assert e.previous == s[r] && e.revision == s[r + 1];
    forall i | 0 <= i < |d.inbox.pending| ensures d.inbox.pending[i].revision != e.revision {
      assert d.inbox.pending[i].revision == s[c + i + 1];
    }
  }

  lemma ExtendCover(h: Hub, c: int, r: int, events: seq<ReplayEvent>)
    requires Covers(h, c, r, events) && r + 1 < |History(h)|
    ensures Covers(h, c, r + 1, events + [Transition(h.objects, History(h)[r], History(h)[r + 1])])
  {
    var t := History(h)[c..r + 2];
    EventsSplit(h.objects, t, r - c);
    assert t[..r - c + 1] == History(h)[c..r + 1] && t[r - c..] == History(h)[r..r + 2];
    assert Events(h.objects, t[r - c..]) == [Transition(h.objects, History(h)[r], History(h)[r + 1])];
  }

  lemma DropCover(h: Hub, c: int, r: int, events: seq<ReplayEvent>, n: nat)
    requires Covers(h, c, r, events) && n <= |events|
    ensures c + n <= r && Covers(h, c + n, r, events[n..])
  {
    var t := History(h)[c..r + 1];
    EventsSplit(h.objects, t, n);
    assert t[n..] == History(h)[c + n..r + 1];
  }

  lemma DeliversPositioned(d: System, c: int, r: int, k: int) returns (r': int)
    requires Positioned(d, c, r, k) && d.connection.Up? && d.connection.wire != [] && Bounded(d)
    requires |d.inbox.pending| < MAX_PENDING_EVENTS && d.status != ProtocolError
    ensures Positioned(After(d, Delivers), c, r', k) && Bounded(After(d, Delivers))
    ensures r' == if TooLarge(d.hub, r) then r else r + 1
    ensures TooLarge(d.hub, r) ==> After(d, Delivers).inbox == d.inbox && After(d, Delivers).status == ProtocolError
  {
    HeadAccepted(d, c, r, k);
    assert TooLarge(d.hub, r) <==> !EventStream.Carriable(d.connection.wire[0]);
    hide EventStream.Carriable, TooLarge, Accept;
    var e := d.connection.wire[0];
    r' := if TooLarge(d.hub, r) then r else r + 1;
    if r' == r + 1 {
      ExtendCover(d.hub, c, r, d.inbox.pending);
      DropCover(d.hub, r, k, d.connection.wire, 1);
      hide Covers, Transition, History;
      assert After(d, Delivers)
             == d.(inbox := Inbox(d.inbox.consumed, e.revision, d.inbox.pending + [e], Some(e)),
                   connection := Up(d.connection.cursor, d.connection.wire[1..]));
    } else {
      hide Covers, Transition, History;
      assert After(d, Delivers) == d.(connection := Down, status := ProtocolError);
    }
  }

  lemma ConsumedPositioned(d: System, c: int, r: int, k: int, i: nat)
    requires Positioned(d, c, r, k) && i < |d.inbox.pending|
    ensures var revision := d.inbox.pending[i].revision;
            Positioned(d.(inbox := d.inbox.(consumed := revision, pending := d.inbox.pending[i + 1..]),
                          checkpoint := revision), c + i + 1, r, k)
  {
    DropCover(d.hub, c, r, d.inbox.pending, i + 1);
    assert d.inbox.pending[i] == Transition(d.hub.objects, History(d.hub)[c + i], History(d.hub)[c + i + 1]);
  }

  lemma AcknowledgedBounded(d: System, revision: Sha)
    requires Acknowledge(d.inbox, revision).Some? && Bounded(d)
    ensures Bounded(After(d, Acknowledged(revision)))
  {
  }

  lemma AcknowledgedPositioned(d: System, revision: Sha, c: int, r: int, k: int) returns (c': int)
    requires Positioned(d, c, r, k) && Bounded(d) && Acknowledge(d.inbox, revision).Some?
    ensures Positioned(After(d, Acknowledged(revision)), c', r, k)
  {
    hide Positioned;
    if revision == d.inbox.consumed {
      c' := c;
      assert After(d, Acknowledged(revision)) == d;
    } else {
      var i := PendingIndex(d.inbox.pending, revision);
      c' := c + i + 1;
      ConsumedPositioned(d, c, r, k, i);
    }
  }

  lemma ConsumedInHistory(d: System, c: int, r: int, k: int)
    requires Positioned(d, c, r, k)
    ensures d.inbox.consumed in History(d.hub)
  {}

  // ---- every run ------------------------------------------------------------------------------------------------

  lemma RestartPositioned(d: System, d': System) returns (i: nat)
    requires Wf(d.hub) && AllStates(d.hub.objects, History(d.hub))
    requires d'.checkpoint in History(d.hub) && d'.hub == d.hub && d' == Restarted(d')
    ensures Positioned(d', i, i, i) && Bounded(d')
  {
    i := FreshPositioned(d');
  }

  lemma AcknowledgesPositioned(d: System, e: Event, c: int, r: int, k: int) returns (c': int, r': int, k': int)
    requires Wf(d.hub) && AllStates(d.hub.objects, History(d.hub)) && Bounded(d)
    requires Positioned(d, c, r, k) && (e.Acknowledged? || e.CrashesWhileAcknowledging?)
    requires Acknowledge(d.inbox, e.revision).Some?
    ensures Positioned(After(d, e), c', r', k') && Bounded(After(d, e))
  {
    hide Positioned, Wf, AllStates;
    c' := AcknowledgedPositioned(d, e.revision, c, r, k);
    r', k' := r, k;
    if e.Acknowledged? {
      AcknowledgedBounded(d, e.revision);
    } else {
      ConsumedInHistory(After(d, Acknowledged(e.revision)), c', r, k);
      c' := RestartPositioned(d, After(d, e));
      r', k' := c', c';
    }
  }

  lemma EventPositioned(hash: ContextHash, d: System, e: Event, c: int, r: int, k: int)
    returns (c': int, r': int, k': int)
    requires Wf(d.hub) && AllStates(d.hub.objects, History(d.hub)) && Bounded(d)
    requires Positioned(d, c, r, k) && Possible(hash, d, e) && !e.HubMoves?
    ensures Positioned(After(d, e), c', r', k') && Bounded(After(d, e))
  {
    hide Covers, Wf, AllStates, Acknowledge, IsPage, Accept;
    c', r', k' := c, r, k;
    match e
    case HubMoves(h) =>
    case Connects =>
      ConnectsPositioned(d, c, r, k);
      k' := r;
    case Serves(page) =>
      if page.Some? { k' := ServesPositioned(d, page.value, c, r, k); }
    case Delivers =>
      r' := DeliversPositioned(d, c, r, k);
    case Disconnects =>
    case Acknowledged(_) => c', r', k' := AcknowledgesPositioned(d, e, c, r, k);
    case CrashesWhileAcknowledging(_) => c', r', k' := AcknowledgesPositioned(d, e, c, r, k);
    case Crashed =>
      ConsumedInHistory(d, c, r, k);
      c' := RestartPositioned(d, After(d, e));
      r', k' := c', c';
    case Reset(revision) =>
      c' := RestartPositioned(d, After(d, e));
      r', k' := c', c';
    case CrashesWhileResetting(revision) =>
      c' := RestartPositioned(d, After(d, e));
      r', k' := c', c';
  }

  lemma EventExact(hash: ContextHash, d: System, e: Event)
    requires Exact(hash, d) && Possible(hash, d, e)
    ensures Exact(hash, After(d, e))
  {
    hide OneSession, ProposalsMatch, IsSha, WellTasked;
    var c, r, k :| Positioned(d, c, r, k);
    InvStates(hash, d.hub);
    if e.HubMoves? {
      StepKeeps(hash, d.hub, e.hub);
      InvStates(hash, e.hub);
      HubMovesPositioned(d, e.hub, c, r, k);
    } else {
      var c', r', k' := EventPositioned(hash, d, e, c, r, k);
      assert After(d, e).hub == d.hub;
    }
  }

  ghost predicate Happens(hash: ContextHash, d: System, e: Event, d': System) {
    Wf(d.hub) && Possible(hash, d, e) && d' == After(d, e)
  }

  ghost predicate IsExecution(hash: ContextHash, run: seq<System>, events: seq<Event>) {
    && |run| == |events| + 1
    && (forall i, j :: 0 <= i < |events| && j == i + 1 ==>
          Happens(hash, run[i], events[i], run[j]))
  }

  /**
   End-to-end delivery: in every state of every interleaving that starts with a fresh inbox on a published baseline,
   the inbox is exact, and a protocol error is raised only in front of a transition beyond the consumer's limits.
   */
  lemma DeliveryIsExact(hash: ContextHash, run: seq<System>, events: seq<Event>)
    requires IsExecution(hash, run, events)
    requires Inv(hash, run[0].hub) && run[0].checkpoint in History(run[0].hub)
    requires run[0] == Restarted(run[0])
    ensures forall i :: 0 <= i < |run| ==> Exact(hash, run[i])
  {
    StartExact(hash, run[0]);
    hide *;
    StaysExact(hash, run, events);
  }

  /** What is exact once stays exact. */
  lemma {:induction false} StaysExact(hash: ContextHash, run: seq<System>, events: seq<Event>)
    requires IsExecution(hash, run, events) && |run| > 0 && Exact(hash, run[0])
    ensures forall i :: 0 <= i < |run| ==> Exact(hash, run[i])
    decreases |events|
  {
    hide Exact, IsExecution, Happens, Possible, After;
    if events == [] {
      ExecutionSize(hash, run, events);
    } else {
      var n := |events|;
      ExecutionSplits(hash, run, events);
      HappensMeans(hash, run[n - 1], events[n - 1], run[n]);
      StaysExact(hash, run[..n], events[..n - 1]);
      assert run[..n][n - 1] == run[n - 1];
      EventExact(hash, run[n - 1], events[n - 1]);
      forall i | 0 <= i < |run| ensures Exact(hash, run[i]) {
        if i < n {
          assert run[..n][i] == run[i];
        }
      }
    }
  }

  lemma ExecutionSize(hash: ContextHash, run: seq<System>, events: seq<Event>)
    requires IsExecution(hash, run, events)
    ensures |run| == |events| + 1
  {
    hide Happens;
  }

  lemma ExecutionSplits(hash: ContextHash, run: seq<System>, events: seq<Event>)
    requires IsExecution(hash, run, events) && events != []
    ensures var n := |events|;
            && |run| == n + 1 && IsExecution(hash, run[..n], events[..n - 1])
            && Happens(hash, run[n - 1], events[n - 1], run[n])
  {
    hide Happens;
  }

  lemma HappensMeans(hash: ContextHash, d: System, e: Event, d': System)
    requires Happens(hash, d, e, d')
    ensures Wf(d.hub) && Possible(hash, d, e) && d' == After(d, e)
  {}

  lemma StartExact(hash: ContextHash, d: System)
    requires Inv(hash, d.hub) && d.checkpoint in History(d.hub) && d == Restarted(d)
    ensures Exact(hash, d)
  {
    InvStates(hash, d.hub);
    var i := FreshPositioned(d);
  }

  /** What a protocol error means: the revision after `received` can never be taken off the wire. */
  lemma ProtocolErrorMeansTooLarge(hash: ContextHash, d: System) returns (r: int)
    requires Exact(hash, d) && d.status == ProtocolError
    ensures TooLarge(d.hub, r) && History(d.hub)[r] == d.inbox.received
  {
    hide TooLarge;
    var c, r0, k :| Positioned(d, c, r0, k);
    r := r0;
  }

  /** And it never passes: every delivery from there ends in the same error with the inbox unchanged. */
  lemma TooLargeNeverPasses(hash: ContextHash, d: System, r: int)
    requires Exact(hash, d) && Possible(hash, d, Delivers)
    requires TooLarge(d.hub, r) && History(d.hub)[r] == d.inbox.received
    ensures After(d, Delivers).status == ProtocolError && After(d, Delivers).inbox == d.inbox
  {
    var c, r0, k :| Positioned(d, c, r0, k);
    ChainDistinct(d.hub.objects, History(d.hub));
    assert r0 == r;
    hide Exact, Inv, EventStream.Carriable;
    var r' := DeliversPositioned(d, c, r, k);
  }

  /** Nothing is lost: once the wire is drained after a page, what is pending reaches exactly that page's cursor. */
  lemma DrainedReachesCursor(hash: ContextHash, d: System)
    requires Exact(hash, d) && d.connection.Up? && d.connection.wire == []
    ensures d.inbox.received == d.connection.cursor
  {
    var c, r, k :| Positioned(d, c, r, k);
  }
}
