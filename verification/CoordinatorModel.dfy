/** The serialized owner-side operations of collab_runtime/coordinator.py. */
module CoordinatorModel {
  import opened Common
  import opened SessionModel
  import opened GitObjects
  import opened HubModel
  import opened HubRuns
  import opened Discipline
  import opened Publication
  import opened GitStoreModel

  const ALL_STATUSES: set<string> := {"queued", "running", "waiting", "done"}

  /**
   The caller is already authenticated: `principal` is the member whose credential matched.  Each write first
   requires the fetched head to be `expected`, so no other revision can supply the state it edits.
   */
  class Coordinator {
    const store: GitStore
    const ownerId: string
    const members: set<string>
    const fits: SessionState -> bool  // the canonical JSON stays within the byte limit
    const valid: (string, seq<string>) -> bool  // goal and scopes pass the checks of a new task

    constructor (store: GitStore, ownerId: string, members: set<string>, fits: SessionState -> bool,
                 valid: (string, seq<string>) -> bool)
      requires ownerId in members
      ensures this.store == store && this.ownerId == ownerId && this.members == members
      ensures this.fits == fits && this.valid == valid
    {
      this.store, this.ownerId, this.members, this.fits, this.valid := store, ownerId, members, fits, valid;
    }

    method UpdateContext(principal: string, context: SharedContext, expected: Sha, time: nat, fetches: bool,
                         git: LocalGit, net: Network)
      returns (r: Result<Sha>, ghost m: Course)
      requires store.hub.Valid()
      modifies store, store.hub
      ensures store.hub.Valid() && Moved(store.hub.hash, old(store.hub.View()), m.before) && Orderly(m)
      ensures r.Ok? ==> principal == ownerId && Rewrote(store.hub.View(), r.value, expected, SetContext(context))
      ensures store.hub.View() != m.before ==>
                principal == ownerId && Landed(store.hub.View(), expected, SetContext(context))
      ensures r == Err(AccessDeniedError) <==> principal != ownerId
      ensures m.seen.Some? <==> principal == ownerId && IsSha(expected) && fetches && m.read.session == Some(expected)
      ensures m.seen.None? && principal == ownerId ==>
                r == Err(if !IsSha(expected) then ValidationError
                         else if !fetches then GitOperationError
                         else if m.read.session.None? then SessionNotFoundError else StaleRevisionError)
      ensures m.seen.Some? ==>
                Tried(m, r, store.Verdict(m.at, m.before, m.seen.value.(context := context), expected, time, git))
      ensures r.Err? && store.hub.View() != m.before ==>
                r.error == GitOperationError && LostAnswer(m.before, expected, net)
      ensures store.hub.View() != m.before ==> DisciplinedStep(store.hub.hash, m.before, store.hub.View())
    {
      hide Moved, Inv, DisciplinedStep, Rewrote, RewroteIffAgree, Refusal, Nameable, IsSha, IsSafeId;
      m := Course(store.hub.View(), None, store.hub.View(), store.hub.View(), None);
      HeadHolds(store.hub.hash, m.read);
      MovedSelf(store.hub.hash, m.read);
      if principal != ownerId {
        return Err(AccessDeniedError), m;
      }
      if !IsSha(expected) {
        return Err(ValidationError), m;
      }
      ghost var h0 := store.hub.View();
      var f;
      ghost var read;
      f, read := store.FetchState(fetches);
      HeadHolds(store.hub.hash, read);
      m := Course(read, None, read, store.hub.View(), None);
      MovedThen(store.hub.hash, h0, read, m.before);
      if f.Err? {
        return Err(f.error), m;
      }
      if f.value.0 != expected {
        return Err(StaleRevisionError), m;
      }
      r, m := store.PublishEdit(f.value.0, f.value.1, SetContext(context), expected, time, git, net, h0, read);
    }

    method UpdateTaskStatus(principal: string, taskId: string, status: string, expected: Sha, time: nat, fetches: bool,
                            git: LocalGit, net: Network)
      returns (r: Result<Sha>, ghost m: Course)
      requires store.hub.Valid()
      modifies store, store.hub
      ensures store.hub.Valid() && Moved(store.hub.hash, old(store.hub.View()), m.before) && Orderly(m)
      ensures r.Ok? ==> StatusChanged(store.hub.View(), r.value, expected, taskId, status, principal, ownerId)
      ensures store.hub.View() != m.before ==>
                var hub := store.hub;
                && hub.session.Some?
                && StatusChanged(hub.View(), hub.session.value, expected, taskId, status, principal, ownerId)
      ensures var asked := IsSafeId(taskId) && status in {"queued", "running", "waiting", "done"} && IsSha(expected);
              var head := if asked && fetches then m.read.session else None;
              var task := if head.None? then None else FindTask(StateAt(m.read.objects, head.value).tasks, taskId);
              var may := task.Some? && (principal == ownerId || principal == task.value.owner);
              && (r == Err(AccessDeniedError) <==> task.Some? && !may)
              && (m.seen.Some? <==> may && head == Some(expected)
                                    && IsAncestor(m.read.objects, task.value.contextRevision, expected))
              && (m.seen.None? && (task.None? || may) ==>
                    r == Err(if !asked then ValidationError
                             else if !fetches then GitOperationError
                             else if head.None? then SessionNotFoundError
                             else if task.None? || head == Some(expected) then ValidationError else StaleRevisionError))
              && (m.seen.Some? ==>
                    var next := Apply(SetTask(WithStatus(task.value, status)), m.seen.value);
                    Tried(m, r, store.Verdict(m.at, m.before, next, expected, time, git)))
      ensures r.Err? && store.hub.View() != m.before ==>
                r.error == GitOperationError && LostAnswer(m.before, expected, net)
      ensures store.hub.View() != m.before ==> DisciplinedStep(store.hub.hash, m.before, store.hub.View())
    {
      hide Moved, Inv, DisciplinedStep, Rewrote, RewroteIffAgree, Refusal, Nameable, IsSha, IsSafeId;
      m := Course(store.hub.View(), None, store.hub.View(), store.hub.View(), None);
      HeadHolds(store.hub.hash, m.read);
      MovedSelf(store.hub.hash, m.read);
      if !IsSafeId(taskId) || status !in ALL_STATUSES || !IsSha(expected) {
        return Err(ValidationError), m;
      }
      ghost var h0 := store.hub.View();
      var f;
      ghost var read;
      f, read := ReadTask(principal, taskId, expected, fetches);
      m := Course(read, None, read, store.hub.View(), None);
      MovedThen(store.hub.hash, h0, read, m.before);
      if f.Err? {
        return Err(f.error), m;
      }
      var (current, task) := f.value;
      var updated := WithStatus(task, status);
      r, m := store.PublishEdit(expected, current, SetTask(updated), expected, time, git, net, h0, read);
    }

    /** The task as the expected head has it, for a principal that may change it. */
    method ReadTask(principal: string, taskId: string, expected: Sha, fetches: bool)
      returns (r: Result<(SessionState, Task)>, ghost read: Hub)
      requires store.hub.Valid()
      modifies store, store.hub
      ensures store.hub.Valid() && Moved(store.hub.hash, old(store.hub.View()), read)
      ensures Moved(store.hub.hash, read, store.hub.View())
      ensures read.session.Some? ==> HoldsState(read.objects, read.session.value)
      ensures var head := if fetches then read.session else None;
              var task := if head.None? then None else FindTask(StateAt(read.objects, head.value).tasks, taskId);
              var may := task.Some? && (principal == ownerId || principal == task.value.owner);
              && (r.Ok? <==> may && head == Some(expected)
                             && IsAncestor(read.objects, task.value.contextRevision, expected))
              && (r.Ok? ==> r.value == (StateAt(read.objects, expected), task.value))
              && (r.Ok? ==> FetchedAt(read, expected, r.value.0))
              && (r.Err? ==> r.error == if !fetches then GitOperationError
                                        else if head.None? then SessionNotFoundError
                                        else if task.None? then ValidationError
                                        else if !may then AccessDeniedError
                                        else if head == Some(expected) then ValidationError else StaleRevisionError)
    {
      hide Moved, Inv;
      var f;
      f, read := store.FetchState(fetches);
      HeadHolds(store.hub.hash, read);
      if f.Err? {
        return Err(f.error), read;
      }
      var head, current := f.value.0, f.value.1;
      if taskId !in current.tasks {
        return Err(ValidationError), read;
      }
      var task := current.tasks[taskId];
      if principal != ownerId && principal != task.owner {
        return Err(AccessDeniedError), read;
      }
      if head != expected {
        return Err(StaleRevisionError), read;
      }
      AncestorLater(store.hub.hash, read, store.hub.View(), task.contextRevision, head);
      var known := FindAncestor(store.hub.objects, task.contextRevision, head);
      r := if known then Ok((current, task)) else Err(ValidationError);
    }

    method CreateTask(principal: string, taskId: string, owner: string, goal: string, scopes: seq<string>,
                      expected: Sha, time: nat, fetches: bool, git: LocalGit, net: Network)
      returns (r: Result<Sha>, ghost m: Course)
      requires store.hub.Valid()
      modifies store, store.hub
      ensures store.hub.Valid() && Moved(store.hub.hash, old(store.hub.View()), m.before) && Orderly(m)
      ensures r.Ok? ==> principal == ownerId && owner in members
                        && TaskCreated(store.hub.View(), r.value, expected, taskId,
                                       Task(taskId, owner, goal, scopes, "queued", expected))
      ensures store.hub.View() != m.before ==>
                && principal == ownerId && owner in members && store.hub.session.Some?
                && TaskCreated(store.hub.View(), store.hub.session.value, expected, taskId,
                               Task(taskId, owner, goal, scopes, "queued", expected))
      ensures r == Err(AccessDeniedError) <==> principal != ownerId
      ensures var asked := && principal == ownerId && IsSafeId(taskId) && owner in members && valid(goal, scopes)
                           && IsSha(expected);
              var head := if asked && fetches then m.read.session else None;
              var now := if head == Some(expected) then Some(StateAt(m.read.objects, expected)) else None;
              var task := Task(taskId, owner, goal, scopes, "queued", expected);
              var next := if now.None? then None else Some(Apply(SetTask(task), now.value));
              && (r == Err(TaskExistsError) <==> now.Some? && taskId in now.value.tasks)
              && (r == Err(TaskCapacityError)
                  <==> now.Some? && taskId !in now.value.tasks && (|now.value.tasks| >= 256 || !fits(next.value)))
              && (m.seen.Some?
                  <==> now.Some? && taskId !in now.value.tasks && |now.value.tasks| < 256 && fits(next.value))
              && (m.seen.None? && now.None? && principal == ownerId ==>
                    r == Err(if !asked then ValidationError
                             else if !fetches then GitOperationError
                             else if head.None? then SessionNotFoundError else StaleRevisionError))
              && (m.seen.Some? ==>
                    Tried(m, r, store.Verdict(m.at, m.before, next.value, expected, time, git)))
      ensures r.Err? && store.hub.View() != m.before ==>
                r.error == GitOperationError && LostAnswer(m.before, expected, net)
      ensures store.hub.View() != m.before ==> DisciplinedStep(store.hub.hash, m.before, store.hub.View())
    {
      hide Moved, Inv, DisciplinedStep, Rewrote, RewroteIffAgree, Refusal, Nameable, IsSha, IsSafeId;
      m := Course(store.hub.View(), None, store.hub.View(), store.hub.View(), None);
      HeadHolds(store.hub.hash, m.read);
      MovedSelf(store.hub.hash, m.read);
      if principal != ownerId {
        return Err(AccessDeniedError), m;
      }
      if !IsSafeId(taskId) || owner !in members || !valid(goal, scopes) || !IsSha(expected) {
        return Err(ValidationError), m;
      }
      var task := Task(taskId, owner, goal, scopes, "queued", expected);
      ghost var h0 := store.hub.View();
      var f;
      ghost var read;
      f, read := store.FetchState(fetches);
      HeadHolds(store.hub.hash, read);
      m := Course(read, None, read, store.hub.View(), None);
      MovedThen(store.hub.hash, h0, read, m.before);
      if f.Err? {
        return Err(f.error), m;
      }
      var head, current := f.value.0, f.value.1;
      if head != expected {
        return Err(StaleRevisionError), m;
      }
      if taskId in current.tasks {
        return Err(TaskExistsError), m;
      }
      if |current.tasks| >= MAX_TASKS || !fits(current.WithTask(task)) {
        return Err(TaskCapacityError), m;
      }
      HeadIsAncestor(store.hub.hash, read, head);
      r, m := store.PublishEdit(head, current, SetTask(task), expected, time, git, net, h0, read);
    }
  }

  function FindTask(tasks: map<string, Task>, id: string): Option<Task> {
    if id in tasks then Some(tasks[id]) else None
  }

  function WithStatus(t: Task, status: string): Task {
    Task(t.id, t.owner, t.goal, t.scopes, status, t.contextRevision)
  }

  /** Exactly one existing task changed, only in its status, by its owner or the session owner. */
  ghost predicate StatusChanged(h: Hub, c: Sha, expected: Sha, id: string, status: string, principal: string,
                                ownerId: string) {
    && HoldsState(h.objects, expected) && id in StateAt(h.objects, expected).tasks
    && var task := StateAt(h.objects, expected).tasks[id];
       && Rewrote(h, c, expected, SetTask(task.(status := status)))
       && (principal == ownerId || principal == task.owner)
  }

  /** A task id that did not exist now does, and nothing else changed. */
  ghost predicate TaskCreated(h: Hub, c: Sha, expected: Sha, id: string, task: Task) {
    && HoldsState(h.objects, expected) && id !in StateAt(h.objects, expected).tasks
    && |StateAt(h.objects, expected).tasks| < MAX_TASKS
    && Rewrote(h, c, expected, SetTask(task))
  }
}
