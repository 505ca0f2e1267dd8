/** Binding a captured inbox prefix to one worker attempt: collab_runtime/safe_point.py. */
module SafePointModel {
  import opened Common
  import opened SessionModel
  import opened Replay
  import opened Consumer

  datatype Snapshot = Snapshot(revision: Sha, state: SessionState)

  /**
   A prepared worker input: the cursor it captured, the revision it will acknowledge and the snapshot it was bound
   to.
   */
  datatype Prepared = Prepared(captured: Sha, ack: Option<Sha>, binding: Snapshot)

  /** Acknowledging means moving to, or staying at, exactly the bound revision. */
  predicate BindsExactly(p: Prepared) {
    p.binding.revision == if p.ack.Some? then p.ack.value else p.captured
  }

  /** Who else uses the consumer during a call. */
  datatype Company = Alone | WorkerOnly | Anyone

  predicate IsActiveStatus(status: string) {
    status in {"queued", "running", "waiting"}
  }

  function RevisionsOf(events: seq<ReplayEvent>): (r: seq<Sha>)
    ensures |r| == |events| && forall i :: 0 <= i < |r| ==> r[i] == events[i].revision
  {
    seq(|events|, i requires 0 <= i < |events| => events[i].revision)
  }

  class NativeWorkerSafePoint {
    const consumer: RevisionConsumer
    const identity: (string, Sha, string)
    const memberId: string
    const approved: Task
    const waits: bool  // a replay wait timeout above zero

    constructor (consumer: RevisionConsumer, identity: (string, Sha, string), memberId: string, approved: Task,
                 waits: bool)
      ensures this.consumer == consumer && this.identity == identity && this.memberId == memberId
      ensures this.approved == approved && this.waits == waits
    {
      this.consumer, this.identity, this.memberId, this.approved, this.waits := consumer, identity, memberId,
          approved, waits;
    }

    /** `_validated`: same session identity, and the approved task still active, owned and unchanged. */
    predicate Validated(s: Snapshot)
    {
      && s.state.Identity() == identity && approved.id in s.state.tasks
      && var t := s.state.tasks[approved.id];
         && t.id == approved.id && t.owner == memberId == approved.owner && IsActiveStatus(t.status)
         && t.goal == approved.goal && t.scopes == approved.scopes
    }

    /** What passes validation, on the fields themselves. */
    lemma ValidatedSays(s: Snapshot)
      ensures Validated(s) <==>
                && (s.state.sessionId, s.state.baseCommit, s.state.targetVersion) == identity
                && approved.id in s.state.tasks
                && var t := s.state.tasks[approved.id];
                   && t.id == approved.id && t.owner == memberId && approved.owner == memberId
                   && t.goal == approved.goal && t.scopes == approved.scopes
                   && (t.status == "queued" || t.status == "running" || t.status == "waiting")
    {}

    /**
     Everything other threads may do between two steps.  With a single cursor writer only the stream worker runs;
     otherwise the consumer may also be acknowledged, reset, started or closed by anyone.
     */
    method Others(who: Company)
      requires consumer.Valid()
      modifies consumer
      ensures consumer.Valid()
      ensures !who.Anyone? ==> consumer.consumed == old(consumer.consumed) && old(consumer.pending) <= consumer.pending
      ensures who.Alone? ==> consumer.View() == old(consumer.View()) && consumer.state == old(consumer.state)
      ensures who.WorkerOnly? ==> (consumer.state.Closed? <==> old(consumer.state).Closed?)
    {
      if who.Alone? {
        return;
      }
      if who.WorkerOnly? {
        consumer.Worker();
      } else {
        var n: int := *;
        for i := 0 to Max(n, 0)
          invariant consumer.Valid()
        {
          var revision: Sha, works: bool := *, *;
          var ok;
          if
          case true => consumer.Worker();
          case true => ok := consumer.AcknowledgeAtSafePoint(revision, works);
          case true => ok := consumer.ResetAtSafePoint(revision, true, works);
          case true => ok := consumer.Start();
          case true => consumer.Close();
        }
      }
    }

    /** `_check_consumer_status`. */
    method Check(consumed: Sha, who: Company) returns (ok: bool)
      requires consumer.Valid()
      modifies consumer
      ensures consumer.Valid()
      ensures !who.Anyone? ==> consumer.consumed == old(consumer.consumed) && old(consumer.pending) <= consumer.pending
      ensures who.Alone? ==> consumer.View() == old(consumer.View()) && consumer.state == old(consumer.state)
      ensures ok <==> Runnable(consumer.state) && consumer.consumed == consumed
    {
      Others(who);
      ok := Runnable(consumer.state) && consumer.consumed == consumed;
    }

    /** The authoritative snapshot provider may fail or return anything; only a validated snapshot passes. */
    method Fetch(head: Sha, provided: Option<Snapshot>, who: Company) returns (r: Option<Snapshot>)
      requires consumer.Valid()
      modifies consumer
      ensures consumer.Valid()
      ensures !who.Anyone? ==> consumer.consumed == old(consumer.consumed) && old(consumer.pending) <= consumer.pending
      ensures who.Alone? ==> consumer.View() == old(consumer.View()) && consumer.state == old(consumer.state)
      ensures r.Some? <==> provided.Some? && Validated(provided.value) && provided.value.state.baseCommit == head
      ensures r.Some? ==> r == provided
    {
      Others(who);
      r := if provided.Some? && Validated(provided.value) && provided.value.state.baseCommit == head then provided
           else None;
    }

    /** The captured prefix and how much of it the bound snapshot covers. */
    static ghost predicate CoveredBy(consumed: Sha, captured: seq<ReplayEvent>, covered: nat, revision: Sha) {
      covered <= |captured| && revision == if covered > 0 then captured[covered - 1].revision else consumed
    }

    /** Which prefix of the captured inbox a snapshot covers, by the inbox's own order; None if it is not there yet. */
    static method Cover(consumed: Sha, start: seq<ReplayEvent>, captured: seq<ReplayEvent>, revision: Sha)
      returns (covered: Option<nat>)
      requires RevisionsOf(start) <= RevisionsOf(captured)
      ensures covered.Some? ==> CoveredBy(consumed, captured, covered.value, revision)
      ensures covered.None? ==> revision != consumed && !Holds(captured, revision)
    {
      if revision == if start != [] then Last(start).revision else consumed {
        assert start != [] ==> RevisionsOf(captured)[|start| - 1] == RevisionsOf(start)[|start| - 1];
        return Some(|start|);
      }
      if revision == consumed {
        return Some(0);
      }
      var index := PendingIndex(captured, revision);
      return if index >= 0 then Some(index + 1) else None;
    }

    /** Only observed append-only progress of the captured chain is accepted. */
    method Grow(captured: seq<ReplayEvent>, who: Company) returns (r: Option<seq<ReplayEvent>>)
      requires consumer.Valid()
      requires !who.Anyone? ==> captured <= consumer.pending
      modifies consumer
      ensures consumer.Valid()
      ensures !who.Anyone? ==> consumer.consumed == old(consumer.consumed)
      ensures r.Some? ==> RevisionsOf(captured) <= RevisionsOf(r.value) && r.value == consumer.pending
      ensures who.Alone? ==> consumer.View() == old(consumer.View()) && consumer.state == old(consumer.state)
      ensures who.Alone? && captured == consumer.pending ==> r.Some?
    {
      hide Linked;
      Others(who);
      var live := consumer.pending;
      if |live| < |captured| || RevisionsOf(live[..|captured|]) != RevisionsOf(captured) {
        return None;
      }
      assert RevisionsOf(live)[..|captured|] == RevisionsOf(live[..|captured|]);
      return Some(live);
    }

    /**
     The waiting loop of `prepare`; `polls` rounds pass before the deadline, and cancellation may come at any
     check.
     */
    method WaitForCover(consumed: Sha, start: seq<ReplayEvent>, first: Snapshot, head: Sha, polls: nat, who: Company)
      returns (r: Option<(seq<ReplayEvent>, nat, Snapshot)>)
      requires consumer.Valid() && Validated(first) && first.state.baseCommit == head
      requires !who.Anyone? ==> consumer.consumed == consumed && start <= consumer.pending
      modifies consumer
      ensures consumer.Valid()
      ensures !who.Anyone? ==> consumer.consumed == consumed
      ensures r.Some? ==> Validated(r.value.2) && r.value.2.state.baseCommit == head
      ensures r.Some? ==> CoveredBy(consumed, r.value.0, r.value.1, r.value.2.revision)
      ensures r.Some? && !who.Anyone? ==> r.value.0 <= consumer.pending
      ensures who.Alone? ==> consumer.View() == old(consumer.View()) && consumer.state == old(consumer.state)
      ensures who.Alone? && start == consumer.pending ==>
                && (r.Some? <==> Runnable(consumer.state)
                                 && (first.revision == consumed || Holds(start, first.revision)))
                && (r.Some? ==> r.value.2 == first && r.value.0 == start)
    {
      hide Linked, RevisionsOf, IsActiveStatus;
      r := None;
      var captured, snapshot, waitTarget: Option<Sha> := start, first, None;
      var left := polls + 1;  // the first look is never timed out
      while left > 0
        invariant consumer.Valid() && Validated(snapshot) && snapshot.state.baseCommit == head
        invariant !who.Anyone? ==> consumer.consumed == consumed && captured <= consumer.pending
        invariant RevisionsOf(start) <= RevisionsOf(captured)
        invariant who.Alone? ==> consumer.View() == old(consumer.View()) && consumer.state == old(consumer.state)
        invariant who.Alone? && start == consumer.pending ==>
                    && captured == start && snapshot == first && waitTarget in {None, Some(first.revision)}
                    && (left == polls + 1 || !(first.revision == consumed || Holds(start, first.revision)))
      {
        left := left - 1;
        var ok := Check(consumed, who);
        if !ok {
          return;
        }
        var covered := Cover(consumed, start, captured, snapshot.revision);
        if covered.Some? {
          return Some((captured, covered.value, snapshot));
        }
        if waitTarget.None? {
          waitTarget := Some(snapshot.revision);
        }
        var live := Grow(captured, who);
        if live.None? {
          return;
        }
        captured := live.value;
        var arrived := PendingIndex(captured, waitTarget.value) >= 0;
        if |captured| >= MAX_PENDING_EVENTS && !arrived {
          return;
        }
        if arrived {
          var provided: Option<Snapshot> := *;
          var next := Fetch(head, provided, who);
          if next.None? {
            return;
          }
          snapshot, waitTarget := next.value, None;
        }
      }
    }

    /** Without a wait timeout the snapshot must be at the end of the captured inbox; otherwise it is waited for. */
    method FindCover(consumed: Sha, start: seq<ReplayEvent>, first: Snapshot, head: Sha, polls: nat, who: Company)
      returns (r: Option<(seq<ReplayEvent>, nat, Snapshot)>)
      requires consumer.Valid() && Validated(first) && first.state.baseCommit == head
      requires !who.Anyone? ==> consumer.consumed == consumed && start <= consumer.pending
      modifies consumer
      ensures consumer.Valid()
      ensures !who.Anyone? ==> consumer.consumed == consumed
      ensures r.Some? ==> Validated(r.value.2) && r.value.2.state.baseCommit == head
      ensures r.Some? ==> CoveredBy(consumed, r.value.0, r.value.1, r.value.2.revision)
      ensures r.Some? && !who.Anyone? ==> r.value.0 <= consumer.pending
      ensures who.Alone? ==> consumer.View() == old(consumer.View()) && consumer.state == old(consumer.state)
      ensures who.Alone? && start == consumer.pending && consumer.consumed == consumed && Runnable(consumer.state) ==>
                && (r.Some? <==> if waits then first.revision == consumed || Holds(start, first.revision)
                                 else first.revision == consumer.received)
                && (r.Some? ==> r.value.2 == first && r.value.0 == start)
    {
      hide Linked, RevisionsOf, IsActiveStatus, Holds;
      if waits {
        r := WaitForCover(consumed, start, first, head, polls, who);
      } else {
        ReceivedIs(consumer.View());
        var target := if start != [] then Last(start).revision else consumed;
        r := if first.revision == target then Some((start, |start|, first)) else None;
      }
    }

    /** What a call needs that nobody disturbs: a runnable consumer and a snapshot that the inbox covers. */
    ghost predicate Bindable(s: Option<Snapshot>, head: Sha, binds: bool, state: ConsumerState, b: Inbox) {
      && binds && Runnable(state) && s.Some? && Validated(s.value) && s.value.state.baseCommit == head
      && if waits then s.value.revision == b.consumed || exists e :: e in b.pending && e.revision == s.value.revision
         else s.value.revision == b.received
    }

    lemma HoldsIs(pending: seq<ReplayEvent>, revision: Sha)
      ensures Holds(pending, revision) <==> exists e :: e in pending && e.revision == revision
    {
      if Holds(pending, revision) {
        var i :| 0 <= i < |pending| && pending[i].revision == revision;
        assert pending[i] in pending;
      }
    }

    lemma ReceivedIs(b: Inbox)
      requires Linked(b)
      ensures b.received == if b.pending != [] then Last(b.pending).revision else b.consumed
    {}

    /**
     `prepare`: capture, validate, wait for the inbox to cover the snapshot, bind. None is a failed or cancelled
     attempt; `provided` is what the snapshot provider answers first, `binds` whether the binder and its checks work.
     */
    method Prepare(head: Sha, polls: nat, provided: Option<Snapshot>, binds: bool, who: Company)
      returns (r: Option<Prepared>)
      requires consumer.Valid()
      modifies consumer
      ensures consumer.Valid()
      ensures !who.Anyone? ==> consumer.consumed == old(consumer.consumed)
      ensures r.Some? ==>
                BindsExactly(r.value) && Validated(r.value.binding) && r.value.binding.state.baseCommit == head
      ensures r.Some? && !who.Anyone? ==>
                && r.value.captured == consumer.consumed
                && Acknowledge(consumer.View(), r.value.binding.revision).Some?
      ensures who.Alone? ==> consumer.View() == old(consumer.View()) && consumer.state == old(consumer.state)
      ensures who.Alone? ==>
                && (r.Some? <==> Bindable(provided, head, binds, consumer.state, consumer.View()))
                && (r.Some? ==> r.value.binding == provided.value && r.value.captured == consumer.consumed)
    {
      hide Linked, IsActiveStatus;
      r := None;
      Others(who);
      if !Runnable(consumer.state) {
        return;
      }
      var consumed := consumer.consumed;
      Others(who);
      var captured := consumer.pending;
      var first := Fetch(head, provided, who);
      if first.None? {
        return;
      }
      var snapshot := first.value;
      HoldsIs(captured, snapshot.revision);
      var ok := Check(consumed, who);
      if !ok {
        return;
      }
      var found := FindCover(consumed, captured, snapshot, head, polls, who);
      if found.None? {
        return;
      }
      var covered;
      captured, covered, snapshot := found.value.0, found.value.1, found.value.2;
      ok := Check(consumed, who);
      if ok && binds {
        r := Some(Prepared(consumed, if covered > 0 then Some(captured[covered - 1].revision) else None, snapshot));
        assert !who.Anyone? && covered > 0 ==> Holds(consumer.pending, snapshot.revision) by {
          if !who.Anyone? && covered > 0 {
            assert consumer.pending[covered - 1] == captured[covered - 1];
          }
        }
      }
    }

    /** `PreparedWorkerInput.acknowledge`. */
    method AcknowledgePrepared(p: Prepared, cancelled: bool, persists: bool, who: Company) returns (ok: bool)
      requires consumer.Valid() && BindsExactly(p)
      modifies consumer
      ensures consumer.Valid()
      ensures ok && (!who.Anyone? || p.ack.Some?) ==> consumer.consumed == p.binding.revision
      ensures !ok && !who.Anyone? ==> consumer.consumed == old(consumer.consumed)
      ensures ok && !who.Anyone? ==> old(consumer.consumed) == p.captured
      ensures ok ==> !cancelled
      ensures who.Alone? ==>
                (ok <==> && !cancelled && Runnable(old(consumer.state)) && old(consumer.consumed) == p.captured
                         && (p.ack.Some? ==> Acknowledge(old(consumer.View()), p.ack.value).Some?
                                             && (persists || p.ack.value == p.captured)))
    {
      ok := Check(p.captured, who);
      ok := ok && !cancelled;
      if ok && p.ack.Some? {
        Others(who);
        ok := consumer.AcknowledgeAtSafePoint(p.ack.value, persists);
      }
    }

    /** `accept_reset`: validation and binding first, the cursor last. */
    method AcceptReset(s: Snapshot, head: Sha, binds: bool, persists: bool) returns (ok: bool)
      requires consumer.Valid()
      modifies consumer
      ensures consumer.Valid()
      ensures ok <==> Validated(s) && s.state.baseCommit == head && binds && persists && !old(consumer.state).Closed?
      ensures ok ==>
                Validated(s) && s.state.baseCommit == head && consumer.View() == Fresh(s.revision)
                && consumer.state == Stopped
      ensures !ok ==> consumer.consumed == old(consumer.consumed) && old(consumer.pending) <= consumer.pending
    {
      Others(WorkerOnly);
      if !Validated(s) || s.state.baseCommit != head || !binds {
        return false;
      }
      Others(WorkerOnly);
      ok := consumer.ResetAtSafePoint(s.revision, true, persists);
    }
  }
}
