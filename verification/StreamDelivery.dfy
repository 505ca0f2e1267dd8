/** The stream end to end: what a cut connection leaves, and how a reconnection continues. */
module StreamDelivery {
  import opened Common
  import opened SessionModel
  import opened GitObjects
  import opened HubModel
  import opened HubRuns
  import opened GitStoreModel
  import opened Replay
  import opened Consumer
  import opened EventStream
  import opened StreamLines
  import opened StreamRoundTrip
  import opened StreamServer
  import opened StreamLimits
  import Delivery

  // ---- whole frames ---------------------------------------------------------------------------------------------

  /** The inbox is exactly the history from position c to position r. */
  ghost predicate InboxAt(h: Hub, b: Inbox, c: int, r: int) {
    && Covers(h, c, r, b.pending) && |b.pending| <= MAX_PENDING_EVENTS
    && History(h)[c] == b.consumed && History(h)[r] == b.received
  }

  lemma AcceptNext(h: Hub, b: Inbox, c: int, r: int, k: int, events: seq<ReplayEvent>)
    requires InboxAt(h, b, c, r) && Covers(h, r, k, events) && events != [] && |b.pending| < MAX_PENDING_EVENTS
    ensures Accept(b, events[0]).Some? && InboxAt(h, Accept(b, events[0]).value, c, r + 1)
    ensures |Accept(b, events[0]).value.pending| == |b.pending| + 1
    ensures Covers(h, r + 1, k, events[1..])
  {
    var d := Delivery.System(h, b, b.consumed, Delivery.Up(History(h)[k], events), Delivery.Following);
    Delivery.HeadAccepted(d, c, r, k);
    Delivery.ExtendCover(h, c, r, b.pending);
    Delivery.DropCover(h, r, k, events, 1);
  }

  /** How many events come before the first that cannot be carried. */
  function Carried(events: seq<ReplayEvent>): (k: nat)
    ensures k <= |events| && (forall i :: 0 <= i < k ==> Carriable(events[i]))
             && (k < |events| ==> !Carriable(events[k]))
  {
    if events == [] || !Carriable(events[0]) then 0
    else
      var k := Carried(events[1..]);
      assert forall i :: 0 < i < k + 1 ==> events[i] == events[1..][i - 1];
      k + 1
  }

  function Room(b: Inbox): nat {
    if |b.pending| <= MAX_PENDING_EVENTS then MAX_PENDING_EVENTS - |b.pending| else 0
  }

  function Taken(b: Inbox, events: seq<ReplayEvent>): (k: nat)
    ensures k <= |events|
  {
    if Carried(events) <= Room(b) then Carried(events) else Room(b)
  }

  /**
   Whole frames from an honest server: the inbox takes as many of their revisions as can be carried and as it has room
   for; it ends in a protocol error exactly if there is room left in front of a revision that cannot be carried.
   */
  lemma {:induction false} DeliverHonest(h: Hub, b: Inbox, items: seq<Item>, c: int, r: int, k: int)
    requires InboxAt(h, b, c, r) && Covers(h, r, k, Revisions(items)) && OnlyLastFails(items)
    ensures InboxAt(h, Deliver(b, items).0, c, r + Taken(b, Revisions(items)))
    ensures Deliver(b, items).1 == ProtocolError <==> Carried(Revisions(items)) < |Revisions(items)|
                                                      && Carried(Revisions(items)) < Room(b)
    decreases |items|
  {
    hide *;
    InboxFits(h, b, c, r);
    DeliverUnfolds(b, items);
    TakenUnfolds(b, items);
    if Room(b) > 0 && items != [] {
      OnlyLastFailsTail(items);
      if items[0].Revision? {
        if Carriable(items[0].event) {
          var events := Revisions(items);
          AcceptNext(h, b, c, r, k, events);
          DeliverHonest(h, Accept(b, events[0]).value, items[1..], c, r + 1, k);
        }
      } else if !items[0].Failure? {
        DeliverHonest(h, b, items[1..], c, r, k);
      }
    }
  }

  lemma DeliverUnfolds(b: Inbox, items: seq<Item>)
    requires |b.pending| <= MAX_PENDING_EVENTS
    ensures Room(b) == MAX_PENDING_EVENTS - |b.pending|
    ensures Room(b) == 0 || items == [] || items[0].Failure? ==>
              Deliver(b, items).0 == b && Deliver(b, items).1 != ProtocolError
    ensures Room(b) > 0 && items != [] && items[0].Revision? && !Carriable(items[0].event) ==>
              Deliver(b, items) == (b, ProtocolError)
    ensures Room(b) > 0 && items != [] && items[0].Revision? && Carriable(items[0].event)
            && Accept(b, items[0].event).Some? ==>
              Deliver(b, items) == Deliver(Accept(b, items[0].event).value, items[1..])
    ensures Room(b) > 0 && items != [] && !items[0].Revision? && !items[0].Failure? ==>
              Deliver(b, items) == Deliver(b, items[1..])
  {
    hide Accept, Carriable;
  }

  lemma TakenUnfolds(b: Inbox, items: seq<Item>)
    requires |b.pending| <= MAX_PENDING_EVENTS
    ensures var events := Revisions(items);
            && (items == [] || (items[0].Failure? && items[1..] == []) ==> events == [] && Taken(b, events) == 0)
            && (Room(b) == 0 ==> Taken(b, events) == 0)
            && (items != [] && !items[0].Revision? ==> events == Revisions(items[1..]))
            && (items != [] && items[0].Revision? ==> events == [items[0].event] + Revisions(items[1..]))
            && (items != [] && items[0].Revision? && !Carriable(items[0].event) ==>
                Carried(events) == Taken(b, events) == 0)
            && (items != [] && items[0].Revision? && Carriable(items[0].event) ==>
                  && Carried(events) == 1 + Carried(Revisions(items[1..]))
                  && forall b': Inbox :: Room(b) > 0 && |b'.pending| == |b.pending| + 1 ==>
                       Room(b') == Room(b) - 1 && Taken(b, events) == 1 + Taken(b', Revisions(items[1..])))
  {
    hide Carriable;
    if items != [] && items[0].Revision? {
      assert ([items[0].event] + Revisions(items[1..]))[1..] == Revisions(items[1..]);
    }
  }

  lemma InboxFits(h: Hub, b: Inbox, c: int, r: int)
    requires InboxAt(h, b, c, r)
    ensures |b.pending| <= MAX_PENDING_EVENTS
  {}

  lemma OnlyLastFailsTail(items: seq<Item>)
    requires items != [] && OnlyLastFails(items)
    ensures OnlyLastFails(items[1..]) && (items[0].Failure? ==> items[1..] == [])
  {
    if |items| > 1 {
      assert !items[..|items| - 1][0].Failure?;
      assert forall k :: 0 <= k < |items| - 2 ==> items[1..][k] == items[..|items| - 1][k + 1];
    }
  }

  /** Among the published revisions of a reachable hub only the size of the event can stop one. */
  lemma TooLargeIsTheJsonCap(hash: ContextHash, h: Hub, r: nat)
    requires Inv(hash, h) && r + 1 < |History(h)|
    ensures Delivery.TooLarge(h, r)
            <==> |EventJson(Transition(h.objects, History(h)[r], History(h)[r + 1]))| > MAX_JSON_BYTES
  {
    PublishedIsWellStated(hash, h);
    TransitionIsWellFormed(h, r);
    var e := Transition(h.objects, History(h)[r], History(h)[r + 1]);
    hide Carriable, WellFormed, EventJson, Transition;
    EventSize(e);
  }

  // ---- cut connections and reconnection -------------------------------------------------------------------------

  /** One connection: the frames the server wrote for it, and how many of their bytes arrived. */
  datatype Attempt = Attempt(items: seq<Item>, cut: nat)

  ghost predicate WellSent(a: Attempt) {
    && a.cut <= |RenderAll(a.items)| && OnlyLastFails(a.items)
    && (forall i :: 0 <= i < |a.items| ==> Sendable(a.items[i]))
  }

  /** The frames continue the history from what the consumer last received. */
  ghost predicate From(h: Hub, received: Sha, items: seq<Item>, r: int, k: int) {
    Covers(h, r, k, Revisions(items)) && History(h)[r] == received
  }

  function AfterAttempt(rd: Reader, b: Inbox, a: Attempt): Inbox {
    var wire := RenderAll(a.items)[..Min(a.cut, |RenderAll(a.items)|)];
    Feed(rd, wire, NOTHING, b, |wire| + 1).0
  }

  /** The revisions whose frames were due when the connection was cut. */
  function Arrived(a: Attempt): seq<ReplayEvent> {
    Revisions(a.items[..Whole(a.items, a.cut)])
  }

  lemma {:induction false} RevisionsPrefix(items: seq<Item>, n: nat)
    requires n <= |items|
    ensures Revisions(items[..n]) <= Revisions(items)
  {
    RevisionsConcat(items[..n], items[n..]);
    assert items[..n] + items[n..] == items;
  }

  /**
   A connection cut anywhere advances `received` by exactly the revisions that arrived, could be carried and found
   room.
   */
  lemma CutConnection(rd: Reader, h: Hub, b: Inbox, a: Attempt, c: int, r: int, k: int)
    requires Reads(rd) && InboxAt(h, b, c, r) && WellSent(a) && Covers(h, r, k, Revisions(a.items))
    ensures InboxAt(h, AfterAttempt(rd, b, a), c, r + Taken(b, Arrived(a)))
  {
    hide *;
    var w := Whole(a.items, a.cut);
    PrefixCovered(h, a.items, w, r, k);
    InboxFits(h, b, c, r);
    AttemptIs(rd, b, a);
    DeliverHonest(h, b, a.items[..w], c, r, r + |Revisions(a.items[..w])|);
    ArrivedIs(a);
  }

  lemma ArrivedIs(a: Attempt)
    ensures Arrived(a) == Revisions(a.items[..Whole(a.items, a.cut)])
  {}

  lemma AttemptIs(rd: Reader, b: Inbox, a: Attempt)
    requires Reads(rd) && WellSent(a) && |b.pending| <= MAX_PENDING_EVENTS
    ensures AfterAttempt(rd, b, a) == Deliver(b, a.items[..Whole(a.items, a.cut)]).0
    ensures OnlyLastFails(a.items[..Whole(a.items, a.cut)])
  {
    hide Feed, Deliver, Whole, RenderAll, Reads;
    StreamIsExact(rd, a.items, a.cut, b, a.cut + 1);
    OnlyLastFailsPrefix(a.items, Whole(a.items, a.cut));
  }

  lemma PrefixCovered(h: Hub, items: seq<Item>, n: nat, r: int, k: int)
    requires n <= |items| && Covers(h, r, k, Revisions(items))
    ensures Covers(h, r, r + |Revisions(items[..n])|, Revisions(items[..n]))
  {
    hide Covers, Revisions;
    RevisionsPrefix(items, n);
    TakeCover(h, r, k, Revisions(items), |Revisions(items[..n])|);
    assert Revisions(items)[..|Revisions(items[..n])|] == Revisions(items[..n]);
  }

  lemma OnlyLastFailsPrefix(items: seq<Item>, n: nat)
    requires OnlyLastFails(items) && n <= |items|
    ensures OnlyLastFails(items[..n])
  {
    if n > 0 {
      assert items[..n][..n - 1] == items[..|items| - 1][..n - 1];
    }
  }

  function AfterAttempts(rd: Reader, b: Inbox, attempts: seq<Attempt>): Inbox {
    if attempts == [] then b
    else AfterAttempt(rd, AfterAttempts(rd, b, attempts[..|attempts| - 1]), Last(attempts))
  }

  /** Every connection was opened at `received` and answered from the history. */
  ghost predicate Honest(rd: Reader, h: Hub, b: Inbox, attempts: seq<Attempt>) {
    attempts != [] ==>
      var before := AfterAttempts(rd, b, attempts[..|attempts| - 1]);
      && Honest(rd, h, b, attempts[..|attempts| - 1]) && WellSent(Last(attempts))
      && exists r, k :: From(h, before.received, Last(attempts).items, r, k)
  }

  /** However many connections were cut and wherever, reconnecting at `received` loses and repeats nothing. */
  lemma {:induction false} ReconnectingLosesNothing(rd: Reader, h: Hub, b: Inbox, attempts: seq<Attempt>, c: int,
                                                    r: int)
    returns (r': int)
    requires Reads(rd) && InboxAt(h, b, c, r) && Honest(rd, h, b, attempts)
    ensures r <= r' && InboxAt(h, AfterAttempts(rd, b, attempts), c, r')
    decreases |attempts|
  {
    r' := r;
    hide Covers, Feed, Reads, Revisions, AfterAttempt, InboxAt, From, WellSent, Taken, Arrived, Carried;
    if attempts != [] {
      var a, before := Last(attempts), AfterAttempts(rd, b, attempts[..|attempts| - 1]);
      var r0, k :| From(h, before.received, a.items, r0, k);
      var m := ReconnectingLosesNothing(rd, h, b, attempts[..|attempts| - 1], c, r);
      SamePosition(h, before, c, m, a.items, r0, k);
      CutConnection(rd, h, before, a, c, m, k);
      r' := m + Taken(before, Arrived(a));
    }
  }

  lemma SamePosition(h: Hub, b: Inbox, c: int, r: int, items: seq<Item>, r0: int, k: int)
    requires InboxAt(h, b, c, r) && From(h, b.received, items, r0, k)
    ensures r == r0 && Covers(h, r, k, Revisions(items))
  {
    ChainDistinct(h.objects, History(h));
  }

  // ---- from the serving loop to the inbox -----------------------------------------------------------------------

  lemma InboxExtends(h: Hub, h': Hub, b: Inbox, c: int, r: int)
    requires Extends(h, h') && InboxAt(h, b, c, r) && AllStates(h'.objects, History(h'))
    ensures InboxAt(h', b, c, r)
  {
    Delivery.CoversExtends(h, h', c, r, b.pending);
  }

  /** What the serving loop wrote while the hub moved is an honest attempt for the hub as it is later. */
  lemma ServedAttempt(at: Hub, h: Hub, wire: string, items: seq<Item>, cursor: Sha, next: Sha, i: nat, j: nat,
                      message: string, cut: nat)
    requires Written(wire, items, cursor, next, at, i, j) && Extends(at, h) && WellStated(h) && cut <= |wire|
    requires OnlyLastFails(items) && KnownFailures(items, message) && Plain(message) && |message| <= 1000
    ensures WellSent(Attempt(items, cut)) && From(h, cursor, items, i, j) && wire == RenderAll(items)
  {
    WrittenHere(at, h, wire, items, cursor, next, i, j);
    hide Covers, WellStated, Sendable, Extends, OnlyLastFails, Plain;
    WrittenIsSendable(wire, items, cursor, next, h, i, j, message);
  }

  lemma WrittenHere(at: Hub, h: Hub, wire: string, items: seq<Item>, cursor: Sha, next: Sha, i: nat, j: nat)
    requires Written(wire, items, cursor, next, at, i, j) && Extends(at, h) && WellStated(h)
    ensures Written(wire, items, cursor, next, h, i, j)
  {
    Delivery.CoversExtends(at, h, i, j, Revisions(items));
  }

  /** One served connection, cut anywhere: the inbox stays exact and advances by what arrived and could be taken. */
  lemma ServedToInbox(hash: ContextHash, rd: Reader, at: Hub, h: Hub, wire: string, items: seq<Item>, next: Sha, i: nat,
                      j: nat, message: string, cut: nat, b: Inbox, c: int, r: int)
    requires Reads(rd) && Written(wire, items, b.received, next, at, i, j) && Extends(at, h) && Inv(hash, h)
    requires OnlyLastFails(items) && KnownFailures(items, message) && Plain(message) && |message| <= 1000
    requires cut <= |wire| && InboxAt(h, b, c, r)
    ensures InboxAt(h, Feed(rd, wire[..cut], NOTHING, b, cut + 1).0, c, r + Taken(b, Arrived(Attempt(items, cut))))
  {
    hide *;
    PublishedIsWellStated(hash, h);
    ServedAttempt(at, h, wire, items, b.received, next, i, j, message, cut);
    var a := Attempt(items, cut);
    SamePosition(h, b, c, r, items, i, j);
    CutConnection(rd, h, b, a, c, r, j);
    AfterAttemptIs(rd, b, a);
  }

  lemma AfterAttemptIs(rd: Reader, b: Inbox, a: Attempt)
    requires a.cut <= |RenderAll(a.items)|
    ensures AfterAttempt(rd, b, a) == Feed(rd, RenderAll(a.items)[..a.cut], NOTHING, b, a.cut + 1).0
  {
    hide Feed, RenderAll;
  }

  lemma InboxLater(hash: ContextHash, h: Hub, h': Hub, b: Inbox, c: int, r: int)
    requires Moved(hash, h, h') && InboxAt(h, b, c, r)
    ensures Inv(hash, h') && InboxAt(h', b, c, r)
  {
    InboxExtends(h, h', b, c, r);
  }

  lemma WrittenIs(wire: string, items: seq<Item>, cursor: Sha, next: Sha, at: Hub, i: nat, j: nat)
    requires Written(wire, items, cursor, next, at, i, j)
    ensures wire == RenderAll(items)
  {}

  lemma NoAttempt(rd: Reader, b: Inbox)
    ensures AfterAttempt(rd, b, Attempt([], 0)) == b && Taken(b, Arrived(Attempt([], 0))) == 0
  {
    assert RenderAll([])[..0] == "" && ReadLine("") == "";
  }

  /** What one cut connection leaves behind. */
  lemma FollowServed(hash: ContextHash, rd: Reader, h0: Hub, at: Hub, h: Hub, wire: string, items: seq<Item>, next: Sha,
                     i: nat, j: nat, message: string, cut: nat, b: Inbox, c: int, r: int) returns (r': int)
    requires Reads(rd) && Inv(hash, h0) && Moved(hash, h0, h) && InboxAt(h0, b, c, r) && Extends(at, h)
    requires Written(wire, items, b.received, next, at, i, j) && cut <= |wire|
    requires OnlyLastFails(items) && KnownFailures(items, message) && Plain(message) && |message| <= 1000
    ensures InboxAt(h, Feed(rd, wire[..cut], NOTHING, b, cut + 1).0, c, r')
    ensures r' == r + Taken(b, Arrived(Attempt(items, cut))) && wire == RenderAll(items)
  {
    hide Moved, Inv, Extends, Written, Plain, KnownFailures, OnlyLastFails, InboxAt, Reads, Feed, Taken,
        Arrived;
    InboxLater(hash, h0, h, b, c, r);
    assert wire == RenderAll(items) by { WrittenIs(wire, items, b.received, next, at, i, j); }
    r' := r + Taken(b, Arrived(Attempt(items, cut)));
    ServedToInbox(hash, rd, at, h, wire, items, next, i, j, message, cut, b, c, r);
  }

  /** One connection: opened at `received`, served while the hub moves, cut anywhere. */
  method FollowOnce(store: GitStore, consumer: RevisionConsumer, rd: Reader, message: string, ghost c: int,
                    ghost r0: int)
    returns (ghost r: int, ghost a: Attempt)
    requires store.hub.Valid() && consumer.Valid() && Reads(rd) && Plain(message) && |message| <= 1000
    requires InboxAt(store.hub.View(), consumer.View(), c, r0)
    modifies store, store.hub, consumer`received, consumer`pending, consumer`lastEvent
    ensures store.hub.Valid() && consumer.Valid() && Moved(store.hub.hash, old(store.hub.View()), store.hub.View())
    ensures InboxAt(store.hub.View(), consumer.View(), c, r)
    ensures consumer.View() == AfterAttempt(rd, old(consumer.View()), a)
    ensures r == r0 + Taken(old(consumer.View()), Arrived(a))
  {
    hide Moved, Inv, Extends, Written, Plain, KnownFailures, OnlyLastFails, InboxAt, Reads, Feed, Linked, Taken,
        Arrived, AfterAttempt, RenderAll;
    r, a := r0, Attempt([], 0);
    NoAttempt(rd, consumer.View());
    ghost var h0, b := store.hub.View(), consumer.View();
    var rounds: int, ticks: int, cut: int := *, *, *;
    var served, left;
    ghost var items, next, at, i, j;
    rounds, ticks := Max(rounds, 0), Max(ticks, 0);
    served, left, items, next, at, i, j := ServeStream(store, consumer.received, rounds, ticks, message);
    if served.Err? {
      InboxLater(store.hub.hash, h0, store.hub.View(), b, c, r0);
      return;
    }
    var wire := served.value;
    cut := Max(0, Min(cut, |wire|));
    r := FollowServed(store.hub.hash, rd, h0, at, store.hub.View(), wire, items, next, i, j, message, cut, b, c, r0);
    a := Attempt(items, cut);
    AfterAttemptIs(rd, b, a);
    var outcome := Stream(consumer, rd, wire[..cut], cut + 1);
  }

  /**
   Server and consumer together, over any number of connections: each is served while other clients move the hub, is cut
   anywhere, and is followed by a reconnection at `received`.  The inbox is exact all the time, and it has taken what
   arrived over each of them.
   */
  method FollowHub(store: GitStore, consumer: RevisionConsumer, rd: Reader, connections: nat, message: string,
                   ghost c: int, ghost r0: int)
    returns (ghost r: int, ghost attempts: seq<Attempt>)
    requires store.hub.Valid() && consumer.Valid() && Reads(rd) && Plain(message) && |message| <= 1000
    requires InboxAt(store.hub.View(), consumer.View(), c, r0)
    modifies store, store.hub, consumer`received, consumer`pending, consumer`lastEvent
    ensures store.hub.Valid() && consumer.Valid() && Moved(store.hub.hash, old(store.hub.View()), store.hub.View())
    ensures r0 <= r && InboxAt(store.hub.View(), consumer.View(), c, r)
    ensures |attempts| == connections && consumer.View() == AfterAttempts(rd, old(consumer.View()), attempts)
  {
    hide Moved, Inv, Plain, InboxAt, Reads, Linked, AfterAttempt, Taken, Arrived;
    r, attempts := r0, [];
    var hub := store.hub;
    MovedSelf(hub.hash, hub.View());
    for k := 0 to connections
      invariant store.hub == hub && hub.Valid() && consumer.Valid()
      invariant Moved(hub.hash, old(store.hub.View()), hub.View())
      invariant r0 <= r && InboxAt(hub.View(), consumer.View(), c, r)
      invariant |attempts| == k && consumer.View() == AfterAttempts(rd, old(consumer.View()), attempts)
    {
      ghost var before := hub.View();
      ghost var a;
      r, a := FollowOnce(store, consumer, rd, message, c, r);
      assert (attempts + [a])[..k] == attempts;
      attempts := attempts + [a];
      MovedThen(hub.hash, old(store.hub.View()), before, hub.View());
    }
  }
}
