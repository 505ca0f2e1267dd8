/** Schema-1 session state: collab_runtime/models.py. */
module SessionModel {
  import opened Common

  predicate Hex(c: char) {
    '0' <= c <= '9' || 'a' <= c <= 'f'
  }

  predicate LetterOrDigit(c: char) {
    '0' <= c <= '9' || 'a' <= c <= 'z' || 'A' <= c <= 'Z'
  }

  predicate IdChar(c: char) {
    LetterOrDigit(c) || c == '.' || c == '_' || c == '-'
  }

  predicate IsSha(s: string) {
    |s| == 40 && forall i :: 0 <= i < |s| ==> Hex(s[i])
  }

  /** `safe_id`: the first character is a letter or a digit. */
  predicate IsSafeId(s: string) {
    1 <= |s| <= 128 && LetterOrDigit(s[0]) && forall i :: 0 <= i < |s| ==> IdChar(s[i])
  }

  datatype SharedContext = SharedContext(goal: string, decisions: seq<string>, interfaces: map<string, string>)

  datatype Task = Task(id: string, owner: string, goal: string, scopes: seq<string>, status: string,
                       contextRevision: Sha)

  datatype SessionState = SessionState(sessionId: string, targetVersion: string, baseCommit: Sha,
                                       context: SharedContext, tasks: map<string, Task>)
  {
    function WithContext(c: SharedContext): SessionState {
      this.(context := c)
    }

    function WithTask(t: Task): SessionState {
      this.(tasks := tasks[t.id := t])
    }

    /** The triple that in-place publication may never change. */
    function Identity(): (string, Sha, string) {
      (sessionId, baseCommit, targetVersion)
    }
  }

  const MAX_TASKS: nat := 256

  /** The limits that the state parser sets to the tasks. */
  predicate WellTasked(s: SessionState) {
    |s.tasks| <= MAX_TASKS && forall id :: id in s.tasks ==> IsSafeId(id)
  }

  /** One captured proposal, reduced to what publication checks. */
  datatype Proposal = Proposal(id: string, taskId: string, owner: string, sessionId: string, baseCommit: Sha,
                               contextRevision: Sha, contextHash: string, files: string)

  /** The metadata edits that the store and the coordinator build from a fetched state. */
  datatype Edit = SetContext(context: SharedContext) | SetTask(task: Task)

  function Apply(e: Edit, s: SessionState): (r: SessionState)
    ensures r.Identity() == s.Identity()
    ensures e.SetTask? ==> r.context == s.context
    ensures e.SetContext? ==> r.tasks == s.tasks && r.context == e.context
    ensures e.SetTask? ==> e.task.id in r.tasks && r.tasks[e.task.id] == e.task
    ensures forall id :: id in r.tasks && !(e.SetTask? && id == e.task.id) ==>
              id in s.tasks && r.tasks[id] == s.tasks[id]
    ensures forall id :: id in s.tasks && !(e.SetTask? && id == e.task.id) ==> id in r.tasks
  {
    match e
    case SetContext(c) => s.WithContext(c)
    case SetTask(t) => s.WithTask(t)
  }
}
