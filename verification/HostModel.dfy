/** The host's run session around a safe point: collab_runtime/host.py. */
module HostModel {
  import opened Common
  import opened SessionModel
  import opened Consumer
  import opened SafePointModel

  /** An approval record; `handle` is its identity, `reset` the consent to reset the cursor that it carries. */
  datatype Approval = Approval(handle: nat, snapshot: Snapshot, memberId: string, task: Task, reset: bool)

  /** A prepared input together with what the host held when it was prepared. */
  datatype HostInput = HostInput(prepared: Prepared, helper: NativeWorkerSafePoint, handle: nat, generation: nat)

  /**
   How far an activation gets: checks, the checkpoint lease and consumer, starting it; and whether cleaning up
   works.
   */
  datatype Activation = Activation(checksPass: bool, saved: Option<Sha>, starts: bool, cleanedUp: bool)

  /**
   How far preparing an input gets: what the snapshot provider answers, whether the approval is still fresh, and
   whether binding and persisting work.
   */
  datatype Attempt = Attempt(provided: Option<Snapshot>, current: bool, binds: bool, persists: bool)

  class NativeRunCollaboration {
    var active: bool
    var closed: bool
    var generation: nat
    var consumer: RevisionConsumer?
    var helper: NativeWorkerSafePoint?
    var approval: Approval  // its `reset` flag is consumed in place
    var accepted: Option<Snapshot>

    ghost predicate Valid()
      reads this, if consumer != null then {consumer} else {}
    {
      && (consumer != null ==> active && consumer.Valid())
      && (helper != null ==> active && consumer == helper.consumer)
    }

    /** Prepared by this run; while its generation runs, nothing it was bound to changes and no reset is pending. */
    ghost predicate Issued(input: HostInput)
      reads this
    {
      && BindsExactly(input.prepared) && input.generation <= generation
      && (input.generation == generation ==>
            active && helper == input.helper && approval.handle == input.handle && !approval.reset)
      && (input.generation < generation ==> consumer != input.helper.consumer)
    }

    constructor (approval: Approval)
      ensures Valid() && !active && generation == 0 && accepted == None && this.approval == approval
    {
      active, closed, generation, consumer, helper, accepted := false, false, 0, null, null, None;
      this.approval := approval;
    }

    /**
     `activate`: a fresh consumer and helper, started at once unless a reset was approved.  A start that fails is
     cleaned up; if that fails too, the run stays active without a helper so that the cleaning up can be repeated.
     */
    method Activate(a: Activation) returns (ok: bool)
      requires Valid()
      modifies this`active, this`consumer, this`helper
      ensures Valid() && (ok <==> !old(closed) && !old(active) && a.checksPass && (a.starts || approval.reset))
      ensures ok ==> active && fresh(consumer) && fresh(helper) && (!approval.reset ==> Runnable(consumer.state))
      ensures ok ==>
                && helper.consumer == consumer && helper.waits && helper.memberId == approval.memberId
                && helper.identity == approval.snapshot.state.Identity() && helper.approved == approval.task
      ensures ok ==> consumer.consumed == if a.saved.Some? then a.saved.value else approval.snapshot.revision
      ensures !ok && !old(active) ==> helper == null && (consumer == null || fresh(consumer))
      ensures !ok && !old(active) && active ==> a.checksPass && !a.starts && !a.cleanedUp && consumer != null
      ensures !ok && old(active) ==> active && consumer == old(consumer) && helper == old(helper)
      ensures forall input :: old(allocated(input)) && old(Issued(input)) ==> Issued(input)
    {
      if closed || active || !a.checksPass {
        return false;
      }
      var newConsumer := new RevisionConsumer(approval.snapshot.revision, a.saved);
      var safePoint := new NativeWorkerSafePoint(newConsumer, approval.snapshot.state.Identity(), approval.memberId,
                                                 approval.task, true);
      ok := approval.reset || a.starts;
      if ok {
        if !approval.reset {
          var started := newConsumer.Start();
        }
        consumer, helper, active := newConsumer, safePoint, true;
      } else if !a.cleanedUp {
        consumer, helper, active := newConsumer, null, true;
      }
    }

    /** `prepare`: an approved reset is consumed exactly once, after it persisted and before anything else can fail. */
    method Prepare(head: Sha, polls: nat, a: Attempt, who: Company) returns (r: Option<HostInput>)
      requires Valid()
      modifies this`approval, if consumer != null then {consumer} else {}
      ensures Valid()
      ensures approval == old(approval) || (old(approval.reset) && approval == old(approval).(reset := false))
      ensures r.Some? ==> Issued(r.value) && r.value.generation == generation && helper != null
      ensures r.Some? ==> r.value.helper.Validated(r.value.prepared.binding)
      ensures r.Some? && !who.Anyone? ==> r.value.prepared.captured == consumer.consumed
      ensures r.Some? && old(approval.reset) && !who.Anyone? ==> r.value.prepared.captured == approval.snapshot.revision
      ensures !who.Anyone? && !old(approval.reset) && consumer != null ==> consumer.consumed == old(consumer.consumed)
      ensures approval.reset && consumer != null ==> consumer.consumed == old(consumer.consumed)
      ensures who.Alone? && helper != null && !old(approval.reset) ==>
                (r.Some? <==> helper.Bindable(a.provided, head, a.binds, old(consumer.state), old(consumer.View())))
      ensures who.Alone? && helper != null && old(approval.reset) ==>
                var s := approval.snapshot;
                (r.Some? <==> && a.current && helper.Validated(s) && s.state.baseCommit == head && a.binds && a.persists
                              && !old(consumer.state).Closed?
                              && helper.Bindable(a.provided, head, true, Connecting, Fresh(s.revision)))
      ensures forall input :: old(allocated(input)) && old(Issued(input)) ==> Issued(input)
    {
      r := None;
      if helper == null {
        return;
      }
      if approval.reset {
        if !a.current {
          return;
        }
        var ok := helper.AcceptReset(approval.snapshot, head, a.binds, a.persists);
        if !ok {
          return;
        }
        approval := approval.(reset := false);
        var started := helper.consumer.Start();
        if !started {
          return;
        }
      }
      var p := helper.Prepare(head, polls, a.provided, a.binds, who);
      if p.Some? {
        r := Some(HostInput(p.value, helper, approval.handle, generation));
      }
    }

    /** `deactivate`: closing the consumer ends the generation; every input prepared in it becomes stale. */
    method Deactivate(ok: bool)
      requires Valid()
      modifies this`active, this`consumer, this`helper, this`generation, if consumer != null then {consumer} else {}
      ensures Valid()
      ensures old(active) && ok ==> !active && generation == old(generation) + 1
      ensures !(old(active) && ok) ==>
                && active == old(active) && generation == old(generation)
                && helper == old(helper) && consumer == old(consumer)
      ensures old(consumer) != null ==> old(consumer).consumed == old(consumer.consumed) && old(consumer).Valid()
      ensures forall input :: old(allocated(input)) && old(Issued(input)) ==> Issued(input)
    {
      if active {
        if consumer != null {
          consumer.Close();
        }
        if ok {
          consumer, helper, active, generation := null, null, false, generation + 1;
        }
      }
    }

    /**
     `reapprove`: only while idle, for the same identity, member and task; the candidate brings its own reset
     consent.
     */
    method Reapprove(candidate: Approval, checksPass: bool) returns (ok: bool)
      requires Valid()
      modifies this`approval
      ensures Valid()
      ensures var was, now := old(approval), candidate;
              var a, b := was.snapshot.state, now.snapshot.state;
              (ok <==> && !closed && !active && checksPass
                       && a.sessionId == b.sessionId && a.baseCommit == b.baseCommit
                       && a.targetVersion == b.targetVersion
                       && was.memberId == now.memberId && was.task.id == now.task.id && was.task.owner == now.task.owner
                       && was.task.goal == now.task.goal && was.task.scopes == now.task.scopes)
      ensures ok ==> approval == candidate
      ensures !ok ==> approval == old(approval)
      ensures forall input :: old(allocated(input)) && old(Issued(input)) ==> Issued(input)
    {
      ok := && !closed && !active && checksPass
            && candidate.snapshot.state.Identity() == approval.snapshot.state.Identity()
            && candidate.memberId == approval.memberId && candidate.task.id == approval.task.id
            && candidate.task.owner == approval.task.owner && candidate.task.goal == approval.task.goal
            && candidate.task.scopes == approval.task.scopes;
      if ok {
        approval := candidate;
      }
    }

    /** `_record_accepted_binding`: only the generation, helper and approval the input was prepared with may record. */
    method RecordAcceptedBinding(input: HostInput, consumed: Sha)
      modifies this`accepted
      ensures accepted == if && active && generation == input.generation && helper == input.helper
                             && approval.handle == input.handle && consumed == input.prepared.binding.revision
                          then Some(input.prepared.binding) else old(accepted)
    {
      if && active && generation == input.generation && helper == input.helper && approval.handle == input.handle
         && consumed == input.prepared.binding.revision {
        accepted := Some(input.prepared.binding);
      }
    }

    /**
     What other threads may do to the run between two steps: any of its operations, any number of times, in any
     order.
     */
    method Others(input: HostInput, who: Company)
      requires Valid() && Issued(input) && input.helper.consumer.Valid()
      modifies this`active, this`consumer, this`helper, this`generation, this`approval, input.helper.consumer,
               if consumer != null then {consumer} else {}
      ensures Valid() && Issued(input) && input.helper.consumer.Valid() && generation >= old(generation)
      ensures !who.Anyone? ==> input.helper.consumer.consumed == old(input.helper.consumer.consumed)
      ensures who.Alone? ==> generation == old(generation) && accepted == old(accepted)
    {
      if who.Alone? {
        return;
      }
      var n: int := *;
      for i := 0 to Max(n, 0)
        invariant Valid() && Issued(input) && input.helper.consumer.Valid() && generation >= old(generation)
        invariant consumer == null || consumer == old(consumer) || consumer == input.helper.consumer || fresh(consumer)
        invariant !who.Anyone? ==> input.helper.consumer.consumed == old(input.helper.consumer.consumed)
      {
        Other(input, who);
      }
    }

    /** One operation of another thread. */
    method Other(input: HostInput, who: Company)
      requires Valid() && Issued(input) && input.helper.consumer.Valid()
      modifies this`active, this`consumer, this`helper, this`generation, this`approval, input.helper.consumer,
               if consumer != null then {consumer} else {}
      ensures Valid() && Issued(input) && input.helper.consumer.Valid() && generation >= old(generation)
      ensures consumer == null || consumer == old(consumer) || fresh(consumer)
      ensures !who.Anyone? ==> input.helper.consumer.consumed == old(input.helper.consumer.consumed)
    {
      var activation: Activation, candidate: Approval, head: Sha, polls: int, works: bool := *, *, *, *, *;
      var attempt: Attempt := *;
      var ok;
      if
      case true => ok := Activate(activation);
      case true => ok := Reapprove(candidate, works);
      case true => Deactivate(works);
      case true => var prepared := Prepare(head, Max(polls, 0), attempt, who);
      case true => input.helper.Others(who);
    }

    /**
     `_PreparedHostInput.acknowledge`.  Between the safe-point acknowledgement and the recording anything may happen
     to the run.  The guard for recording holds exactly while the generation lasts.
     */
    method AcknowledgeInput(input: HostInput, cancelled: bool, persists: bool, who: Company) returns (ok: bool)
      requires Valid() && Issued(input) && input.helper.consumer.Valid()
      modifies this, input.helper.consumer, if consumer != null then {consumer} else {}
      ensures Valid() && input.helper.consumer.Valid() && Issued(input)
      ensures ok && !who.Anyone? ==> input.helper.consumer.consumed == input.prepared.binding.revision
      ensures ok && generation == input.generation ==>
                accepted == if input.helper.consumer.consumed == input.prepared.binding.revision
                            then Some(input.prepared.binding) else old(accepted)
      ensures ok && !who.Anyone? && generation == input.generation ==> accepted == Some(input.prepared.binding)
      ensures input.generation < old(generation) ==> accepted == old(accepted)
      ensures accepted != old(accepted) ==>
                ok && generation == input.generation && accepted == Some(input.prepared.binding)
      ensures who.Alone? ==>
                var c, p := input.helper.consumer, input.prepared;
                && (ok <==> && !cancelled && Runnable(old(c.state)) && old(c.consumed) == p.captured
                            && (p.ack.Some? ==> Acknowledge(old(c.View()), p.ack.value).Some?
                                                && (persists || p.ack.value == p.captured)))
                && (ok && input.generation == old(generation) ==> accepted == Some(p.binding))
    {
      ok := input.helper.AcknowledgePrepared(input.prepared, cancelled, persists, who);
      if ok {
        Others(input, who);
        RecordAcceptedBinding(input, input.helper.consumer.consumed);
      }
    }
  }
}
