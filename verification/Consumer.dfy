/** The bounded inbox with a durable cursor: collab_runtime/consumer.py. */
module Consumer {
  import opened Common
  import opened Replay

  const MAX_PENDING_EVENTS: nat := 32

  /** What the consumer holds in memory; only `consumed` is durable. */
  datatype Inbox = Inbox(consumed: Sha, received: Sha, pending: seq<ReplayEvent>, last: Option<ReplayEvent>)

  function Fresh(revision: Sha): Inbox {
    Inbox(revision, revision, [], None)
  }

  predicate Holds(pending: seq<ReplayEvent>, revision: Sha) {
    exists i :: 0 <= i < |pending| && pending[i].revision == revision
  }

  /** `_accept`: None is a protocol error; a repeat of the newest event is ignored. */
  function Accept(b: Inbox, e: ReplayEvent): Option<Inbox> {
    if e.revision == b.received then (if Some(e) == b.last then Some(b) else None)
    else if e.previous != b.received || e.revision == b.consumed then None
    else if Holds(b.pending, e.revision) then None
    else if |b.pending| >= MAX_PENDING_EVENTS then None
    else Some(Inbox(b.consumed, e.revision, b.pending + [e], Some(e)))
  }

  /** Position of the first pending event with this revision, or -1. */
  function PendingIndex(pending: seq<ReplayEvent>, revision: Sha): (i: int)
    ensures -1 <= i < |pending|
    ensures i >= 0 ==> pending[i].revision == revision
    ensures i == -1 <==> !Holds(pending, revision)
  {
    if pending == [] then -1
    else if pending[0].revision == revision then 0
    else
      var k := PendingIndex(pending[1..], revision);
      assert !Holds(pending[1..], revision) ==> !Holds(pending, revision) by {
        if Holds(pending, revision) {
          var i :| 0 <= i < |pending| && pending[i].revision == revision;
          assert pending[1..][i - 1].revision == revision;
        }
      }
      if k < 0 then -1 else k + 1
  }

  /** `acknowledge_at_safe_point`: None rejects a revision that is neither consumed nor pending. */
  function Acknowledge(b: Inbox, revision: Sha): Option<Inbox> {
    if revision == b.consumed then Some(b)
    else
      var i := PendingIndex(b.pending, revision);
      if i < 0 then None else Some(b.(consumed := revision, pending := b.pending[i + 1..]))
  }

  /** When an event is taken and what it adds: a repeat of the newest one, or a new successor of `received`. */
  lemma AcceptSays(b: Inbox, e: ReplayEvent)
    ensures var again := e.revision == b.received && b.last == Some(e);
            var next := && e.revision != b.received && e.previous == b.received && e.revision != b.consumed
                        && (forall held :: held in b.pending ==> held.revision != e.revision) && |b.pending| < 32;
            && (Accept(b, e).Some? <==> again || next) && (again ==> Accept(b, e) == Some(b))
            && (next ==> Accept(b, e).value.consumed == b.consumed && Accept(b, e).value.received == e.revision
                         && Accept(b, e).value.pending == b.pending + [e] && Accept(b, e).value.last == Some(e))
  {
    forall held | held in b.pending && held.revision == e.revision ensures Holds(b.pending, e.revision) {
      var i :| 0 <= i < |b.pending| && b.pending[i] == held;
    }
  }

  /** What acknowledging drops: everything up to the first pending event with the revision. */
  lemma AcknowledgeSays(b: Inbox, revision: Sha)
    ensures Acknowledge(b, revision).None?
            <==> revision != b.consumed && forall e :: e in b.pending ==> e.revision != revision
    ensures revision == b.consumed ==> Acknowledge(b, revision) == Some(b)
    ensures Acknowledge(b, revision).Some? ==>
              var c := Acknowledge(b, revision).value;
              c.consumed == revision && c.received == b.received && c.last == b.last
    ensures Acknowledge(b, revision).Some? && revision != b.consumed ==>
              exists i :: 0 <= i < |b.pending| && b.pending[i].revision == revision
                          && (forall k :: 0 <= k < i ==> b.pending[k].revision != revision)
                          && Acknowledge(b, revision).value.pending == b.pending[i + 1..]
  {
    forall e | e in b.pending && e.revision == revision ensures Holds(b.pending, revision) {
      var i :| 0 <= i < |b.pending| && b.pending[i] == e;
    }
    FirstIndex(b.pending, revision);
    hide PendingIndex;
    var i := PendingIndex(b.pending, revision);
    if i >= 0 {
      assert b.pending[i] in b.pending;
    }
  }

  lemma {:induction false} FirstIndex(pending: seq<ReplayEvent>, revision: Sha)
    ensures var i := PendingIndex(pending, revision);
            forall k :: 0 <= k < |pending| && pending[k].revision == revision ==> 0 <= i <= k
  {
    if pending != [] && pending[0].revision != revision {
      FirstIndex(pending[1..], revision);
      forall k | 0 <= k < |pending| && pending[k].revision == revision
        ensures 0 <= PendingIndex(pending, revision) <= k
      {
        assert pending[1..][k - 1].revision == revision;
      }
    }
  }

  /** A linked chain of at most 32 distinct revisions from `consumed` to `received`. */
  ghost predicate Linked(b: Inbox) {
    && |b.pending| <= MAX_PENDING_EVENTS
    && (if b.pending == [] then b.received == b.consumed
        else b.pending[0].previous == b.consumed && Last(b.pending).revision == b.received)
    && (forall i, j :: 0 <= i < j < |b.pending| && j == i + 1 ==> b.pending[j].previous == b.pending[i].revision)
    && (forall i, j :: 0 <= i < j < |b.pending| ==> b.pending[i].revision != b.pending[j].revision)
    && (forall i :: 0 <= i < |b.pending| ==> b.pending[i].revision != b.consumed)
    && (b.last.Some? ==> b.last.value.revision == b.received)
  }

  lemma AcceptKeepsLinked(b: Inbox, e: ReplayEvent)
    requires Linked(b) && Accept(b, e).Some?
    ensures Linked(Accept(b, e).value)
  {
    if e.revision != b.received {
      var p := b.pending + [e];
      forall i | 0 <= i < |b.pending| ensures b.pending[i].revision != e.revision {
        if b.pending[i].revision == e.revision { assert Holds(b.pending, e.revision); }
      }
      forall i, j | 0 <= i < j < |p| && j == i + 1 ensures p[j].previous == p[i].revision {
        if j == |b.pending| { assert p[i] == Last(b.pending); }
      }
    }
  }

  /** Acknowledging keeps the chain, and what it removes is exactly the prefix up to the revision. */
  lemma AcknowledgeKeepsLinked(b: Inbox, revision: Sha)
    requires Linked(b) && Acknowledge(b, revision).Some?
    ensures var c := Acknowledge(b, revision).value;
            Linked(c) && c.consumed == revision && c.received == b.received
            && |c.pending| <= |b.pending| && c.pending == b.pending[|b.pending| - |c.pending|..]
            && (|c.pending| < |b.pending| ==> b.pending[|b.pending| - |c.pending| - 1].revision == revision)
  {
    if revision != b.consumed {
      var i := PendingIndex(b.pending, revision);
      var c := Acknowledge(b, revision).value;
      assert i >= 0 && c.pending == b.pending[i + 1..];
      LinkedSuffix(b, i, c);
    }
  }

  lemma LinkedSuffix(b: Inbox, i: nat, c: Inbox)
    requires Linked(b) && i < |b.pending|
    requires c == b.(consumed := b.pending[i].revision, pending := b.pending[i + 1..])
    ensures Linked(c)
  {
    assert forall k :: 0 <= k < |c.pending| ==> c.pending[k] == b.pending[i + 1 + k];
    if c.pending != [] {
      assert b.pending[i + 1].previous == b.pending[i].revision;
      assert Last(c.pending) == Last(b.pending);
    } else {
      assert b.pending[i] == Last(b.pending);
    }
  }

  // ---- every behaviour of every server --------------------------------------------------------------------------

  datatype InboxStep = Arrives(event: ReplayEvent) | Acknowledges(revision: Sha) | Crashes | Resets(revision: Sha)

  /** A rejected event or acknowledgement leaves the inbox as it was; a crash reloads the durable cursor. */
  function TakeStep(b: Inbox, s: InboxStep): Inbox {
    match s
    case Arrives(e) => (match Accept(b, e) case Some(c) => c case None => b)
    case Acknowledges(r) => (match Acknowledge(b, r) case Some(c) => c case None => b)
    case Crashes => Fresh(b.consumed)
    case Resets(r) => Fresh(r)
  }

  function TakeSteps(b: Inbox, steps: seq<InboxStep>): Inbox {
    if steps == [] then b else TakeStep(TakeSteps(b, steps[..|steps| - 1]), steps[|steps| - 1])
  }

  /** Whatever a server sends and whatever the host does, the inbox stays one linked chain. */
  lemma {:induction false} InboxAlwaysLinked(baseline: Sha, steps: seq<InboxStep>)
    ensures Linked(TakeSteps(Fresh(baseline), steps))
  {
    if steps != [] {
      InboxAlwaysLinked(baseline, steps[..|steps| - 1]);
      var b, s := TakeSteps(Fresh(baseline), steps[..|steps| - 1]), steps[|steps| - 1];
      if s.Arrives? && Accept(b, s.event).Some? {
        AcceptKeepsLinked(b, s.event);
      } else if s.Acknowledges? && Acknowledge(b, s.revision).Some? {
        AcknowledgeKeepsLinked(b, s.revision);
      }
    }
  }

  // ---- the object -----------------------------------------------------------------------------------------------

  datatype ConsumerState = Stopped | Connecting | Streaming | Retrying | InboxFull | Terminal | Closed

  predicate Runnable(s: ConsumerState) {
    s.Connecting? || s.Streaming? || s.Retrying? || s.InboxFull?
  }

  class RevisionConsumer {
    var consumed: Sha
    var received: Sha
    var pending: seq<ReplayEvent>
    var lastEvent: Option<ReplayEvent>
    var state: ConsumerState
    var checkpoint: Option<Sha>  // the durable file

    ghost function View(): Inbox
      reads this
    {
      Inbox(consumed, received, pending, lastEvent)
    }

    ghost predicate Valid()
      reads this
    {
      Linked(View()) && checkpoint == Some(consumed)
    }

    /** Loads a saved checkpoint, or persists the approved baseline if there is none. */
    constructor (baseline: Sha, saved: Option<Sha>)
      ensures Valid() && state == Stopped
      ensures View() == Fresh(if saved.Some? then saved.value else baseline)
    {
      consumed := if saved.Some? then saved.value else baseline;
      received := if saved.Some? then saved.value else baseline;
      pending, lastEvent, state := [], None, Stopped;
      checkpoint := Some(if saved.Some? then saved.value else baseline);
    }

    /** Atomic replacement of the checkpoint file; where it does not work it changes nothing. */
    method Persist(revision: Sha, works: bool) returns (ok: bool)
      modifies this`checkpoint
      ensures ok == works && checkpoint == if ok then Some(revision) else old(checkpoint)
    {
      ok := works;
      if ok {
        checkpoint := Some(revision);
      }
    }

    method TakeEvent(event: ReplayEvent) returns (ok: bool)
      requires Valid()
      modifies this`received, this`pending, this`lastEvent
      ensures Valid()
      ensures ok <==> Accept(old(View()), event).Some?
      ensures View() == if ok then Accept(old(View()), event).value else old(View())
    {
      ghost var b := View();
      if event.revision == received {
        return lastEvent == Some(event);
      }
      if event.previous != received || event.revision == consumed {
        return false;
      }
      if PendingIndex(pending, event.revision) >= 0 || |pending| >= MAX_PENDING_EVENTS {
        return false;
      }
      AcceptKeepsLinked(b, event);
      pending := pending + [event];
      received := event.revision;
      lastEvent := Some(event);
      return true;
    }

    /** Makes a pending revision durable, then drops it and everything before it. */
    method Consume(index: nat, persists: bool) returns (ok: bool)
      requires Valid() && index < |pending|
      modifies this`consumed, this`pending, this`checkpoint
      ensures Valid()
      ensures ok == persists
      ensures View()
              == if ok then old(View()).(consumed := old(pending)[index].revision, pending := old(pending)[index + 1..])
                        else old(View())
    {
      ghost var b := View();
      var revision := pending[index].revision;
      ok := Persist(revision, persists);
      if ok {
        consumed := revision;
        pending := pending[index + 1..];
        LinkedSuffix(b, index, View());
      }
    }

    method AcknowledgeAtSafePoint(revision: Sha, persists: bool) returns (ok: bool)
      requires Valid()
      modifies this`consumed, this`pending, this`checkpoint
      ensures Valid()
      ensures ok <==> && !state.Closed? && Acknowledge(old(View()), revision).Some?
                      && (persists || revision == old(consumed))
      ensures ok ==> Acknowledge(old(View()), revision) == Some(View())
      ensures !ok ==> View() == old(View())
    {
      ok := !state.Closed?;
      if ok && revision != consumed {
        var index := PendingIndex(pending, revision);
        ok := index >= 0;
        if ok {
          ok := Consume(index, persists);
        }
      }
    }

    /** Stops the worker, then replaces the cursor by a host-approved snapshot revision of the same session. */
    method ResetAtSafePoint(revision: Sha, sameIdentity: bool, persists: bool) returns (ok: bool)
      requires Valid()
      modifies this
      ensures Valid()
      ensures ok <==> sameIdentity && !old(state).Closed? && persists
      ensures ok ==> View() == Fresh(revision) && state == Stopped
      ensures !ok ==>
                && View() == old(View())
                && state == if old(state).Closed? || old(state).Terminal? then old(state) else Stopped
    {
      if state.Closed? {
        return false;
      }
      if !state.Terminal? {
        state := Stopped;
      }
      if !sameIdentity {
        return false;
      }
      ok := Persist(revision, persists);
      if ok {
        consumed, received, pending, lastEvent, state := revision, revision, [], None, Stopped;
      }
    }

    method Start() returns (ok: bool)
      requires Valid()
      modifies this`state
      ensures Valid() && View() == old(View())
      ensures ok <==> !(old(state).Closed? || old(state).Terminal?)
      ensures ok ==> Runnable(state)
      ensures !ok ==> state == old(state)
    {
      if state.Closed? || state.Terminal? {
        return false;
      }
      if state.Stopped? {
        state := Connecting;
      }
      return true;
    }

    method Close()
      requires Valid()
      modifies this`state
      ensures Valid() && View() == old(View()) && state == Closed
    {
      state := Closed;
    }

    /** The worker thread: any server, any number of accepted events, any change of connection state. */
    method Worker()
      requires Valid()
      modifies this`received, this`pending, this`lastEvent, this`state
      ensures Valid() && consumed == old(consumed) && old(pending) <= pending
      ensures !Runnable(old(state)) ==> View() == old(View()) && state == old(state)
      ensures Runnable(old(state)) ==> !state.Closed?
    {
      while *
        invariant Valid() && consumed == old(consumed) && old(pending) <= pending
        invariant !Runnable(old(state)) ==> View() == old(View()) && state == old(state)
        invariant Runnable(old(state)) ==> !state.Closed?
        decreases MAX_PENDING_EVENTS - |pending|
      {
        if !Runnable(state) || |pending| >= MAX_PENDING_EVENTS {
          break;
        }
        var event: ReplayEvent := *;
        var before := |pending|;
        var ok := TakeEvent(event);
        if !ok {
          state := Terminal;
          break;
        }
        if |pending| == before {
          break;
        }
        state := if |pending| == MAX_PENDING_EVENTS then InboxFull else Streaming;
      }
    }
  }
}
