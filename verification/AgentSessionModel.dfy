/**
 The worker loop: agent_runtime/session.py, with the model, the tools, the sink and cancellation as arbitrary
 oracles.
 */
module AgentSessionModel {
  import opened Common
  import opened AgentTrace

  datatype StopReason = Completed | ToolUse | Length | Refusal | Other

  datatype Usage = Usage(input: nat, output: nat, cost: Option<real>)

  datatype ModelTurn = ModelTurn(text: string, calls: seq<Call>, stop: StopReason, usage: Usage)

  datatype ModelInput = UserInput(task: string) | ToolResults(results: seq<ToolResult>)

  /** What `respond` of a model session may do. */
  datatype Reply = Turn(turn: ModelTurn) | NotATurn | Broken

  datatype AgentLimits = AgentLimits(maxModelTurns: nat, maxToolCalls: nat, maxConsecutiveErrors: nat)

  datatype LoopState = Ready | Running | WaitingApproval | Done | Failed

  datatype PreparedCall = PreparedCall(callId: string, effect: Permission, fingerprint: string)

  /** The dispatcher's record of a prepared call. */
  datatype PreparedRecord = PreparedRecord(prepared: PreparedCall, consumed: bool)

  datatype Pending = Pending(prepared: PreparedCall, calls: seq<Call>, next: nat, results: seq<ToolResult>)

  datatype Decision = Decision(callId: string, fingerprint: string, sessionId: nat, approved: bool)

  datatype ErrorKind = Lifecycle | Input | Approval | Recording | Runtime(failure: Failure)

  datatype SessionOutcome = Finished(summary: Summary) | Paused(prepared: PreparedCall) | Raised(error: ErrorKind)

  datatype Preparation = Prepares(prepared: PreparedCall) | CannotPrepare(stage: Stage, message: string) | PrepareBroken

  datatype Answer = Replied(turn: ModelTurn) | NoReply(error: ErrorKind)

  datatype Execution = Observed(content: string) | NeedsApproval | Recoverable(stage: Stage, message: string) | Internal

  /** What became of one call of a batch. */
  datatype CallOutcome = Settled(result: ToolResult) | Stopped(prepared: PreparedCall) | Threw(error: ErrorKind)

  /** The results answer the calls: one each, in order, with the same ids. */
  ghost predicate Answers(results: seq<ToolResult>, calls: seq<Call>) {
    |results| == |calls| && forall i :: 0 <= i < |calls| ==> results[i].callId == calls[i].id
  }

  /** Every follow-up input answers exactly the calls of the turn before it. */
  ghost predicate Aligned(asked: seq<ModelInput>, turns: seq<ModelTurn>) {
    && |turns| <= |asked| <= |turns| + 1
    && (forall i :: 0 <= i < |asked| ==> (asked[i].UserInput? <==> i == 0))
    && (forall i, j :: 0 <= i < j < |asked| && j == i + 1 ==> Answers(asked[j].results, turns[i].calls))
  }

  function InputTokens(turns: seq<ModelTurn>): nat {
    if turns == [] then 0 else InputTokens(turns[..|turns| - 1]) + Last(turns).usage.input
  }

  function OutputTokens(turns: seq<ModelTurn>): nat {
    if turns == [] then 0 else OutputTokens(turns[..|turns| - 1]) + Last(turns).usage.output
  }

  function TotalCost(turns: seq<ModelTurn>): real {
    if turns == [] then 0.0
    else TotalCost(turns[..|turns| - 1]) + (if Last(turns).usage.cost.Some? then Last(turns).usage.cost.value else 0.0)
  }

  predicate AllPriced(turns: seq<ModelTurn>) {
    forall i :: 0 <= i < |turns| ==> turns[i].usage.cost.Some?
  }

  /** The cost of a run: defined exactly when every turn reported one, and then their sum. */
  function RunCost(turns: seq<ModelTurn>): Option<real> {
    if turns != [] && AllPriced(turns) then Some(TotalCost(turns)) else None
  }

  lemma UsageAppend(turns: seq<ModelTurn>, t: ModelTurn)
    ensures InputTokens(turns + [t]) == InputTokens(turns) + t.usage.input
    ensures OutputTokens(turns + [t]) == OutputTokens(turns) + t.usage.output
    ensures AllPriced(turns + [t]) <==> AllPriced(turns) && t.usage.cost.Some?
    ensures t.usage.cost.Some? ==> TotalCost(turns + [t]) == TotalCost(turns) + t.usage.cost.value
  {
    var u := turns + [t];
    assert u[..|u| - 1] == turns && Last(u) == t;
    assert AllPriced(u) ==> AllPriced(turns) && t.usage.cost.Some? by {
      if AllPriced(u) {
        assert u[|turns|].usage.cost.Some?;
        assert forall i :: 0 <= i < |turns| ==> turns[i] == u[i];
      }
    }
  }

  /** Model calls are counted and answered in order; usage is the sum over the turns. */
  ghost predicate Logged(asked: seq<ModelInput>, turns: seq<ModelTurn>, modelTurns: nat, inputTokens: nat,
                         outputTokens: nat, cost: Option<real>, costComplete: bool)
  {
    && |asked| <= modelTurns && Aligned(asked, turns)
    && inputTokens == InputTokens(turns) && outputTokens == OutputTokens(turns)
    && costComplete == AllPriced(turns) && cost == RunCost(turns)
  }

  /** The pairs of call id and fingerprint that the user approved. */
  type Approvals = set<(string, string)>

  /** A tool ran at most once per call id, never against policy, and only with a recorded approval where policy asks. */
  ghost predicate Authorised(executed: seq<string>, records: map<string, PreparedRecord>, approved: Approvals) {
    && Distinct(executed)
    && (forall id :: id in records ==> records[id].prepared.callId == id)
    && (forall id :: id in executed ==>
          id in records && records[id].consumed && Permitted(records[id].prepared, approved))
  }

  predicate Permitted(p: PreparedCall, approved: Approvals) {
    p.effect == Allow || (p.effect == Ask && (p.callId, p.fingerprint) in approved)
  }

  lemma AuthorisedGrows(executed: seq<string>, records: map<string, PreparedRecord>, a: Approvals, b: Approvals)
    requires Authorised(executed, records, a) && a <= b
    ensures Authorised(executed, records, b)
  {}

  lemma ApprovedGrows(l: Ledger, e: AgentEvent)
    ensures l.approved <= Entered(l, e).approved
    ensures e.ApprovalResolved? && e.approved ==> (e.call.id, e.fingerprint) in Entered(l, e).approved
    ensures Entered(l, e).requested == if e.ToolRequested? then l.requested + [(e.turn, e.call)] else l.requested
    ensures Entered(l, e).completed == if e.ToolCompleted? then l.completed + [e.call.id] else l.completed
  {}

  /** A call id completes at most once, and only after its tool ran. */
  ghost predicate CompletedOnce(executed: seq<string>, completed: seq<string>) {
    Distinct(completed) && forall id :: id in completed ==> id in executed
  }

  lemma CompletedAppend(executed: seq<string>, completed: seq<string>, id: string)
    requires CompletedOnce(executed, completed) && id in executed && id !in completed
    ensures CompletedOnce(executed, completed + [id])
  {}

  lemma ExecutedAppend(executed: seq<string>, completed: seq<string>, id: string)
    requires CompletedOnce(executed, completed) && id !in executed
    ensures CompletedOnce(executed + [id], completed) && id !in completed
  {}

  /** All results given to the model, in order. */
  ghost function Given(asked: seq<ModelInput>): seq<ToolResult> {
    if asked == [] then []
    else Given(asked[..|asked| - 1]) + ResultsIn(Last(asked))
  }

  function ResultsIn(input: ModelInput): seq<ToolResult> {
    if input.ToolResults? then input.results else []
  }

  lemma GivenAppend(asked: seq<ModelInput>, input: ModelInput)
    ensures Given(asked + [input]) == Given(asked) + ResultsIn(input)
  {
    assert (asked + [input])[..|asked + [input]| - 1] == asked;
  }

  /** What the model knows is what the trace reports, and that is what happened. */
  ghost predicate Truthful(asked: seq<ModelInput>, trace: seq<AgentEvent>, happened: seq<ToolResult>) {
    Given(asked) <= Results(trace) <= happened
  }

  lemma TruthfulEvent(asked: seq<ModelInput>, trace: seq<AgentEvent>, happened: seq<ToolResult>, e: AgentEvent)
    requires Truthful(asked, trace, happened)
    requires ResultOf(e).Some? ==> Results(trace) + [ResultOf(e).value] <= happened
    ensures Truthful(asked, trace + [e], happened)
  {
    ResultsAppend(trace, e);
    hide Results, Given;
    assert Results(trace) + [] == Results(trace);
  }

  lemma ReportedEvent(trace: seq<AgentEvent>, e: AgentEvent)
    ensures ResultOf(e).Some? ==> Results(trace + [e]) == Results(trace) + [ResultOf(e).value]
    ensures ResultOf(e).None? ==> Results(trace + [e]) == Results(trace)
  {
    ResultsAppend(trace, e);
    hide Results;
    assert Results(trace) + [] == Results(trace);
  }

  lemma NothingKnown()
    ensures Given([]) == [] && Results([]) == []
  {}

  lemma TruthfulGiven(asked: seq<ModelInput>, trace: seq<AgentEvent>, happened: seq<ToolResult>)
    requires Given(asked) == Results(trace) == happened
    ensures Truthful(asked, trace, happened)
  {}

  lemma TruthfulMore(asked: seq<ModelInput>, trace: seq<AgentEvent>, happened: seq<ToolResult>, more: seq<ToolResult>)
    requires Truthful(asked, trace, happened)
    ensures Truthful(asked, trace, happened + more)
  {
    hide Results, Given;
  }

  /** What became of a call that was run. */
  function Happening(id: string, e: Execution): seq<ToolResult> {
    match e
    case Observed(content) => [ToolResult(id, content, false)]
    case Recoverable(stage, message) => [ErrorResult(id, stage, message)]
    case _ => []
  }

  lemma LoggedLater(asked: seq<ModelInput>, turns: seq<ModelTurn>, n: nat, m: nat, i: nat, o: nat, c: Option<real>,
                    all: bool)
    requires Logged(asked, turns, n, i, o, c, all) && n <= m
    ensures Logged(asked, turns, m, i, o, c, all)
  {}

  /**
   The failure that a turn itself decides: calls without the tool-use stop reason or the reverse, a blank answer, an
   answer that was cut off, a refusal.
   */
  function FailureOf(turn: ModelTurn): Option<Failure> {
    match turn.stop
    case ToolUse => if turn.calls == [] then Some(ProtocolFailure) else None
    case Completed => if turn.calls != [] || Blank(turn.text) then Some(ProtocolFailure) else None
    case Length => Some(if turn.calls == [] then IncompleteFailure else ProtocolFailure)
    case Refusal => Some(if turn.calls == [] then RefusalFailure else ProtocolFailure)
    case Other => Some(ProtocolFailure)
  }

  /** A turn that decides a failure ends the session with that failure, unless the sink fails. */
  ghost predicate Judged(turns: seq<ModelTurn>, e: ErrorKind) {
    turns != [] && FailureOf(Last(turns)).Some? ==> e in {Recording, Runtime(FailureOf(Last(turns)).value)}
  }

  /** Why a run may fail: a limit only if it is reached, and what blames the model only for what the model did. */
  ghost predicate Explains(f: Failure, asked: seq<ModelInput>, turns: seq<ModelTurn>, spent: bool,
                           occurred: set<Failure>)
  {
    match f
    case LimitFailure => spent
    case BackendFailure => asked == [] || |turns| < |asked|
    case ProtocolFailure => |turns| < |asked| || (turns != [] && FailureOf(Last(turns)) == Some(f))
    case IncompleteFailure => turns != [] && FailureOf(Last(turns)) == Some(f)
    case RefusalFailure => turns != [] && FailureOf(Last(turns)) == Some(f)
    case CancelledFailure => f in occurred
    case ToolRuntimeFailure => f in occurred
  }

  lemma ExplainsWhy(asked: seq<ModelInput>, turns: seq<ModelTurn>, spent: bool, occurred: set<Failure>)
    ensures CancelledFailure in occurred ==> Explains(CancelledFailure, asked, turns, spent, occurred)
    ensures ToolRuntimeFailure in occurred ==> Explains(ToolRuntimeFailure, asked, turns, spent, occurred)
    ensures spent ==> Explains(LimitFailure, asked, turns, spent, occurred)
    ensures asked == [] || |turns| < |asked| ==> Explains(BackendFailure, asked, turns, spent, occurred)
    ensures |turns| < |asked| ==> Explains(ProtocolFailure, asked, turns, spent, occurred)
    ensures turns != [] && FailureOf(Last(turns)).Some? ==>
              Explains(FailureOf(Last(turns)).value, asked, turns, spent, occurred)
  {}

  /** An accepted answer: a completed turn without calls and with this text. */
  ghost predicate Answered(turns: seq<ModelTurn>, text: string) {
    turns != [] && Last(turns).stop == Completed && Last(turns).calls == [] && Last(turns).text == text && !Blank(text)
  }

  /** The last turn asked for exactly these calls, properly. */
  ghost predicate AskedFor(turns: seq<ModelTurn>, calls: seq<Call>) {
    turns != [] && Last(turns).stop == ToolUse && Last(turns).calls == calls && calls != []
  }

  lemma AskedForJudges(turns: seq<ModelTurn>, calls: seq<Call>)
    requires AskedFor(turns, calls)
    ensures forall e :: Judged(turns, e)
  {}

  lemma RecordingJudges(turns: seq<ModelTurn>)
    ensures Judged(turns, Recording)
  {}

  /** What the trace, the tools and the dispatcher know at one moment. */
  datatype Moment = Moment(trace: seq<AgentEvent>, executed: seq<string>, known: set<string>)

  /**
   From one moment to a later one without an answer of the user in between: nothing is forgotten, no call is
   approved, and of the calls the dispatcher knew at first only `id` may run.
   */
  ghost predicate OnwardBut(a: Moment, b: Moment, id: string) {
    && a.trace <= b.trace && a.executed <= b.executed && a.known <= b.known
    && Ledgered(b.trace).approved == Ledgered(a.trace).approved
    && forall x :: x in a.known && x in b.executed ==> x in a.executed || x == id
  }

  /** The same, and no call the dispatcher knew at first runs. */
  ghost predicate Onward(a: Moment, b: Moment) {
    && a.trace <= b.trace && a.executed <= b.executed && a.known <= b.known
    && Ledgered(b.trace).approved == Ledgered(a.trace).approved
    && forall x :: x in a.known && x in b.executed ==> x in a.executed
  }

  lemma OnwardCloses()
    ensures forall a :: Onward(a, a)
    ensures forall a, b, c :: Onward(a, b) && Onward(b, c) ==> Onward(a, c)
  {
    hide Ledgered;
  }

  lemma OnwardButCloses(id: string)
    ensures forall a, b, c :: OnwardBut(a, b, id) && Onward(b, c) ==> OnwardBut(a, c, id)
    ensures forall a, b, c :: Onward(a, b) && OnwardBut(b, c, id) ==> OnwardBut(a, c, id)
    ensures forall a, b, c :: Onward(a, b) && OnwardBut(b, c, id) && id !in a.known ==> Onward(a, c)
  {
    hide Ledgered;
  }

  lemma OnwardThrough(a: Moment, b: Moment, c: Moment)
    requires Onward(a, b) && Onward(b, c)
    ensures Onward(a, c)
  {
    OnwardCloses();
  }

  lemma OnwardPrepared(a: Moment, b: Moment, c: Moment, id: string)
    requires Onward(a, b) && OnwardBut(b, c, id) && id !in a.known
    ensures Onward(a, c)
  {
    OnwardButCloses(id);
  }

  lemma OnwardEvent(a: Moment, e: AgentEvent)
    requires !e.ApprovalResolved?
    ensures Onward(a, a.(trace := a.trace + [e]))
  {
    LedgerAppend(a.trace, e);
    hide Ledgered;
  }

  lemma OnwardRuns(a: Moment, id: string)
    ensures OnwardBut(a, a, id) && OnwardBut(a, a.(executed := a.executed + [id]), id)
  {}

  lemma OnwardKnows(a: Moment, id: string)
    ensures Onward(a, a.(known := a.known + {id}))
  {
    hide Ledgered;
  }

  /** What a recorded answer of the user must be followed by: the tool starts, or its call fails. */
  function AnswerEvents(n: nat, call: Call, fingerprint: string, approved: bool): seq<AgentEvent> {
    [ApprovalResolved(n, call, fingerprint, approved),
     if approved then ToolStarted(n, call, Ask, fingerprint) else ToolFailed(n, call, Approving, true, DENIED)]
  }

  /** The moment at which the user's answer has been recorded, and nothing else has changed. */
  function AnsweredAt(m: Moment, n: nat, call: Call, fingerprint: string, approved: bool): Moment {
    m.(trace := m.trace + [ApprovalResolved(n, call, fingerprint, approved)])
  }

  /** What may follow the answer: after a refusal no call known by then runs, after an approval only this one may. */
  ghost predicate Obeys(m: Moment, later: Moment, id: string, approved: bool) {
    if approved then OnwardBut(m, later, id) else Onward(m, later)
  }

  lemma AnswerSplits(before: seq<AgentEvent>, now: seq<AgentEvent>, n: nat, call: Call, fp: string, approved: bool)
    ensures var one, both := [ApprovalResolved(n, call, fp, approved)], AnswerEvents(n, call, fp, approved);
            && |both| == 2 && before <= before + both && before + one <= before + both
            && (before + one + both[1..] <= now ==> before + both <= now)
  {
    var one, both := [ApprovalResolved(n, call, fp, approved)], AnswerEvents(n, call, fp, approved);
    assert before + both == before + one + both[1..];
  }

  lemma ObeysIs(m: Moment, later: Moment, id: string, approved: bool)
    ensures Obeys(m, later, id, approved) <==> if approved then OnwardBut(m, later, id) else Onward(m, later)
  {}

  lemma OnwardExtends(a: Moment, b: Moment)
    requires Onward(a, b)
    ensures a.trace <= b.trace
  {}

  lemma ObeysOnward(m: Moment, now: Moment, later: Moment, id: string, approved: bool)
    requires Obeys(m, now, id, approved) && Onward(now, later)
    ensures Obeys(m, later, id, approved)
  {
    OnwardCloses();
    OnwardButCloses(id);
    hide Onward, OnwardBut;
  }

  /**
   Of the calls known at first only `p` may have run since, and only after a yes; without it `p` has not run and no
   approval was added, with it none but its own.
   */
  ghost predicate Respected(m: Moment, later: Moment, p: PreparedCall, yes: bool) {
    && m.trace <= later.trace && m.executed <= later.executed
    && Ledgered(later.trace).approved <= Ledgered(m.trace).approved + (if yes then {(p.callId, p.fingerprint)} else {})
    && (forall id :: id in m.known && id in later.executed ==> id in m.executed || (yes && id == p.callId))
    && (!yes ==> p.callId !in later.executed)
  }

  lemma OnwardRespects(m: Moment, later: Moment, p: PreparedCall)
    requires Onward(m, later) && p.callId in m.known && p.callId !in m.executed
    ensures forall yes :: Respected(m, later, p, yes)
  {
    hide Ledgered;
  }

  lemma StillRespects(m: Moment, later: Moment, p: PreparedCall, yes: bool)
    requires m.trace == later.trace && m.executed == later.executed && p.callId !in m.executed
    ensures Respected(m, later, p, yes)
  {
    hide Ledgered;
  }

  lemma ObeysRespects(m: Moment, later: Moment, n: nat, call: Call, p: PreparedCall, approved: bool)
    requires p.callId == call.id && p.callId in m.known && p.callId !in m.executed
    requires Obeys(AnsweredAt(m, n, call, p.fingerprint, approved), later, p.callId, approved)
    ensures Respected(m, later, p, approved)
  {
    LedgerAppend(m.trace, ApprovalResolved(n, call, p.fingerprint, approved));
    hide Ledgered;
  }

  lemma NotRunYet(executed: seq<string>, records: map<string, PreparedRecord>, approved: Approvals, p: PreparedCall)
    requires Authorised(executed, records, approved) && p.callId in records
    requires records[p.callId] == PreparedRecord(p, false)
    ensures p.callId !in executed
  {}

  /** The input of the next model call: the task first, afterwards the answers to the last turn's calls. */
  ghost predicate Follows(input: ModelInput, turns: seq<ModelTurn>) {
    if turns == [] then input.UserInput?
    else input.ToolResults? && Answers(input.results, Last(turns).calls) && FailureOf(Last(turns)).None?
  }

  lemma FollowsJudges(input: ModelInput, turns: seq<ModelTurn>)
    requires Follows(input, turns)
    ensures forall e :: Judged(turns, e)
  {}

  /** The next input, if the model is called again, brings it at least these results. */
  ghost predicate Told(before: seq<ModelInput>, after: seq<ModelInput>, results: seq<ToolResult>) {
    before <= after && (|before| < |after| ==> after[|before|].ToolResults? && results <= after[|before|].results)
  }

  lemma ToldLater(before: seq<ModelInput>, after: seq<ModelInput>, answered: seq<ToolResult>, results: seq<ToolResult>)
    requires answered <= results && before <= after
    requires |before| < |after| ==> after[|before|] == ToolResults(results)
    ensures Told(before, after, answered)
  {}

  lemma LoggedAsk(asked: seq<ModelInput>, turns: seq<ModelTurn>, n: nat, i: nat, o: nat, c: Option<real>, all: bool,
                  input: ModelInput)
    requires Logged(asked, turns, n, i, o, c, all) && |asked| == |turns| < n && Follows(input, turns)
    ensures Logged(asked + [input], turns, n, i, o, c, all)
  {
    var a := asked + [input];
    forall i, j | 0 <= i < j < |a| && j == i + 1 ensures a[j].ToolResults? && Answers(a[j].results, turns[i].calls) {
      if j == |asked| {
        assert turns[i] == Last(turns);
      }
    }
  }

  /** `_account_usage`. */
  function CostAfter(cost: Option<real>, complete: bool, reported: Option<real>): (Option<real>, bool) {
    if reported.None? then (None, false)
    else if complete then (Some((if cost.Some? then cost.value else 0.0) + reported.value), true)
    else (cost, complete)
  }

  lemma LoggedReply(asked: seq<ModelInput>, turns: seq<ModelTurn>, n: nat, i: nat, o: nat, c: Option<real>, all: bool,
                    t: ModelTurn)
    requires Logged(asked, turns, n, i, o, c, all) && |asked| == |turns| + 1
    ensures var (c', all') := CostAfter(c, all, t.usage.cost);
            Logged(asked, turns + [t], n, i + t.usage.input, o + t.usage.output, c', all')
  {
    UsageAppend(turns, t);
    var u := turns + [t];
    assert forall k :: 0 <= k < |turns| ==> u[k] == turns[k];
  }

  const DENIED := "Tool execution was denied by the user."

  class AgentSession {
    const limits: AgentLimits
    const sessionId: nat
    var state: LoopState
    var pending: Option<Pending>
    var modelTurns: nat
    var toolCalls: nat
    var toolErrors: nat
    var consecutiveErrors: nat
    var inputTokens: nat
    var outputTokens: nat
    var cost: Option<real>
    var costComplete: bool
    var failureRecorded: bool
    var records: map<string, PreparedRecord>  // the dispatcher's table

    ghost var trace: seq<AgentEvent>  // what the sink recorded
    ghost var phase: Phase
    ghost var sinkFailed: bool
    ghost var asked: seq<ModelInput>  // what the model was given
    ghost var turns: seq<ModelTurn>  // what it returned
    ghost var executed: seq<string>  // call ids whose tool ran, in order
    ghost var occurred: set<Failure>  // cancellation seen, faults of the dispatcher
    ghost var happened: seq<ToolResult>  // what really became of the calls, in order
    ghost var prepared: seq<(nat, Call)>  // calls given to the dispatcher's `prepare`, with their turn

    // ---- invariants ---------------------------------------------------------------------------------------------

    ghost predicate Counted()
      reads this
    {
      modelTurns <= limits.maxModelTurns && toolCalls <= limits.maxToolCalls
    }

    /** Holds between any two steps. */
    ghost predicate Core()
      reads this
    {
      && Run(trace) == Some(phase) && Counted() && (sinkFailed ==> phase != Ended)
      && toolCalls == |prepared| && prepared <= Ledgered(trace).requested
      && CompletedOnce(executed, Ledgered(trace).completed)
      && Logged(asked, turns, modelTurns, inputTokens, outputTokens, cost, costComplete)
      && Authorised(executed, records, Ledgered(trace).approved)
      && Truthful(asked, trace, happened)
    }

    /** The trace has reported everything that happened. */
    ghost predicate Reported()
      reads this
    {
      happened == Results(trace)
    }

    /** Not failed, and nothing terminal recorded yet. */
    ghost predicate Live()
      reads this
    {
      && Core() && consecutiveErrors <= limits.maxConsecutiveErrors && !sinkFailed && !failureRecorded
      && prepared == Ledgered(trace).requested && Tallied()
    }

    /** The counters are those of the trace. */
    ghost predicate Tallied()
      reads this
    {
      CountsIn(trace) == Counts(modelTurns, toolErrors, consecutiveErrors)
    }

    /** One of the limits is reached. */
    ghost predicate Spent()
      reads this
    {
      modelTurns == limits.maxModelTurns || toolCalls == limits.maxToolCalls
      || consecutiveErrors > limits.maxConsecutiveErrors
    }

    /** The failure is one that this session has a reason for. */
    ghost predicate Caused(f: Failure)
      reads this
    {
      Explains(f, asked, turns, Spent(), occurred)
    }

    /** Failed for good: the failure is the last event, unless the sink itself failed. */
    ghost predicate Dead(e: ErrorKind)
      reads this
    {
      && Core() && state == Failed && (e == Recording <==> sinkFailed)
      && (!sinkFailed ==> e.Runtime? && phase == Ended && failureRecorded && Caused(e.failure))
    }

    /** The present moment. */
    ghost function Now(): Moment
      reads this`trace, this`executed, this`records
    {
      Moment(trace, executed, records.Keys)
    }

    // ---- events -------------------------------------------------------------------------------------------------

    /** The sink may fail at any event; then nothing more is recorded and the session has failed. */
    method Emit(e: AgentEvent) returns (ok: bool)
      requires Core() && !sinkFailed && Next(phase, e).Some?
      requires e.ToolCompleted? ==> e.call.id in executed && e.call.id !in Ledgered(trace).completed
      requires ResultOf(e).Some? ==> Results(trace) + [ResultOf(e).value] <= happened
      modifies this`trace, this`phase, this`sinkFailed, this`state
      ensures Core()
      ensures ok ==>
                trace == old(trace) + [e] && Some(phase) == Next(old(phase), e) && state == old(state) && !sinkFailed
      ensures !ok ==> trace == old(trace) && phase == old(phase) && state == Failed && sinkFailed
      ensures Ledgered(old(trace)).approved <= Ledgered(trace).approved
      ensures Ledgered(trace).requested
              == if ok && e.ToolRequested? then Ledgered(old(trace)).requested + [(e.turn, e.call)]
                 else Ledgered(old(trace)).requested
      ensures ok && e.ApprovalResolved? && e.approved ==> (e.call.id, e.fingerprint) in Ledgered(trace).approved
      ensures !e.ApprovalResolved? ==> Onward(old(Now()), Now())
      ensures ok ==> CountsIn(trace) == CountsAfter(CountsIn(old(trace)), e)
      ensures ok && ResultOf(e).Some? ==> Results(trace) == Results(old(trace)) + [ResultOf(e).value]
      ensures !ok || ResultOf(e).None? ==> Results(trace) == Results(old(trace))
    {
      hide Truthful, Results, Given, CountsIn, Onward, OnwardBut, Explains;
      hide Logged, Authorised, Next, Run, Ledgered, Entered, CompletedOnce;
      OnwardCloses();
      ok := *;
      if ok {
        if !e.ApprovalResolved? {
          OnwardEvent(Now(), e);
        }
        ApprovedGrows(Ledgered(trace), e);
        if e.ToolCompleted? {
          CompletedAppend(executed, Ledgered(trace).completed, e.call.id);
        }
        AuthorisedGrows(executed, records, Ledgered(trace).approved, Entered(Ledgered(trace), e).approved);
        RunAppend(trace, e);
        LedgerAppend(trace, e);
        CountsAppend(trace, e);
        ReportedEvent(trace, e);
        TruthfulEvent(asked, trace, happened, e);
        trace, phase := trace + [e], Next(phase, e).value;
      } else {
        NothingAfterTheEnd(e);
        state, sinkFailed := Failed, true;
      }
    }

    /** `_fail_limit`, `_fail_protocol`, `_fail_internal_tool`, cancellation: fail and record it once. */
    method Fail(failure: Failure) returns (error: ErrorKind)
      requires Core() && !sinkFailed && (if failureRecorded then phase == Ended else MayFail(phase))
      requires Caused(failure)
      modifies this`trace, this`phase, this`sinkFailed, this`state, this`failureRecorded
      ensures Dead(error) && (!sinkFailed ==> error == Runtime(failure))
      ensures trace == if sinkFailed || old(failureRecorded) then old(trace)
                       else old(trace) + [ExecutionFailed(failure)]
      ensures Results(trace) == Results(old(trace))
      ensures Onward(old(Now()), Now())
    {
      OnwardCloses();
      hide Truthful, Results, Given, CountsIn, Onward, OnwardBut, Explains;
      hide Logged, Authorised, CompletedOnce, Run, Ledgered, Next;
      state := Failed;
      error := Runtime(failure);
      if !failureRecorded {
        failureRecorded := true;
        NextFailed(phase, failure);
        var ok := Emit(ExecutionFailed(failure));
        if !ok {
          error := Recording;
        }
      }
    }

    method CheckCancel() returns (raised: Option<ErrorKind>)
      requires Live() && MayFail(phase)
      modifies this`trace, this`phase, this`sinkFailed, this`state, this`failureRecorded, this`occurred
      ensures raised.None? ==> Live() && phase == old(phase) && trace == old(trace) && state == old(state)
      ensures old(occurred) <= occurred
      ensures raised.Some? ==> Dead(raised.value) && raised.value in {Recording, Runtime(CancelledFailure)}
      ensures raised.Some? ==>
                trace == old(trace) + if raised == Some(Recording) then [] else [ExecutionFailed(CancelledFailure)]
      ensures Results(trace) == Results(old(trace))
      ensures Onward(old(Now()), Now())
    {
      OnwardCloses();
      hide Truthful, Results, Given, CountsIn, Onward, OnwardBut, Explains;
      hide Logged, Authorised, CompletedOnce, Run, Ledgered, Next;
      var cancelled: bool := *;
      raised := None;
      if cancelled {
        occurred := occurred + {CancelledFailure};
        ExplainsWhy(asked, turns, Spent(), occurred);
        var error := Fail(CancelledFailure);
        raised := Some(error);
      }
    }

    // ---- tools --------------------------------------------------------------------------------------------------

    /** Prepared by this dispatcher and not consumed. */
    ghost predicate Holds(p: PreparedCall)
      reads this`records
    {
      p.callId in records && records[p.callId] == PreparedRecord(p, false)
    }

    /**
     `Dispatcher.prepare`: unknown tools, bad arguments and policy errors are recoverable; a reused call id is
     not.
     */
    method PrepareTool(call: Call) returns (r: Preparation)
      requires Core()
      modifies this`records, this`happened, this`occurred
      ensures Core()
      ensures r.Prepares? ==> r.prepared.callId == call.id && Holds(r.prepared) && call.id !in old(records)
      ensures r.PrepareBroken? ==> call.id in old(records) && ToolRuntimeFailure in occurred
      ensures !r.PrepareBroken? ==> occurred == old(occurred)
      ensures forall id :: id in old(records) ==> id in records && records[id] == old(records)[id]
      ensures happened == old(happened) + if r.CannotPrepare? then [ErrorResult(call.id, r.stage, r.message)] else []
      ensures Onward(old(Now()), Now())
    {
      OnwardCloses();
      OnwardKnows(Now(), call.id);
      hide Truthful, Results, Given, CountsIn, Onward, OnwardBut, Explains;
      hide Logged, Run, Ledgered, CompletedOnce;
      var message: string, effect: Permission, fingerprint: string, byPolicy: bool := *, *, *, *;
      if * {
        r := CannotPrepare(if byPolicy then Policy else Preparing, message);
        TruthfulMore(asked, trace, happened, [ErrorResult(call.id, r.stage, message)]);
        happened := happened + [ErrorResult(call.id, r.stage, message)];
      } else if call.id in records {
        r := PrepareBroken;
        occurred := occurred + {ToolRuntimeFailure};
      } else {
        var p := PreparedCall(call.id, effect, fingerprint);
        AuthorisedRecord(executed, records, Ledgered(trace).approved, call.id, p);
        records := records[call.id := PreparedRecord(p, false)];
        assert records.Keys == old(records.Keys) + {call.id};
        r := Prepares(p);
      }
    }

    /** `Dispatcher.execute`: consumed before the tool runs, so a failing tool is never run again. */
    method ExecuteTool(p: PreparedCall, grant: bool) returns (r: Execution)
      requires Core() && Holds(p)
      requires grant ==> Permitted(p, Ledgered(trace).approved)
      modifies this`records, this`executed, this`happened, this`occurred
      ensures Core()
      ensures r.NeedsApproval? ==> p.effect == Ask && !grant && Holds(p)
      ensures if r.Internal? then ToolRuntimeFailure in occurred else occurred == old(occurred)
      ensures r.Observed? ==> p.effect == Allow || grant
      ensures r.Observed? ==> p.callId in executed && p.callId !in Ledgered(trace).completed
      ensures happened == old(happened) + Happening(p.callId, r)
      ensures OnwardBut(old(Now()), Now(), p.callId)
    {
      OnwardRuns(Now(), p.callId);
      hide Truthful, Results, Given, CountsIn, Onward, OnwardBut, Explains;
      hide Logged, Run, Ledgered, Authorised, CompletedOnce;
      var message: string, content: string, broken: bool, unavailable: bool, failed: bool := *, *, *, *, *;
      if broken {
        r := Internal;
        occurred := occurred + {ToolRuntimeFailure};
      } else if p.effect == Deny {
        r := Recoverable(Policy, message);
      } else if p.effect == Ask && !grant {
        r := NeedsApproval;
      } else if unavailable {
        r := Recoverable(Executing, message);
      } else {
        AuthorisedExecution(executed, records, Ledgered(trace).approved, p);
        ExecutedAppend(executed, Ledgered(trace).completed, p.callId);
        records := records[p.callId := PreparedRecord(p, true)];
        assert records.Keys == old(records.Keys);
        executed := executed + [p.callId];
        r := if failed then Recoverable(Executing, message) else Observed(content);
      }
      TruthfulMore(asked, trace, happened, Happening(p.callId, r));
      happened := happened + Happening(p.callId, r);
    }

    /** `_execute_prepared`: a start is announced only for an allowed or an approved call. */
    method ExecutePrepared(calls: seq<Call>, k: nat, p: PreparedCall, grant: bool) returns (r: Execution, raised: bool)
      requires Live() && Reported() && Holds(p) && k < |calls| && p.callId == calls[k].id
      requires phase == if grant then Approved(modelTurns, calls, k, p.fingerprint) else Requested(modelTurns, calls, k)
      requires grant ==> p.effect == Ask && (p.callId, p.fingerprint) in Ledgered(trace).approved
      modifies this`trace, this`phase, this`sinkFailed, this`state, this`records, this`executed, this`happened,
               this`occurred, this`consecutiveErrors
      ensures raised ==> Dead(Recording)
      ensures !raised ==> Live() && state == old(state)
      ensures !raised && r.Observed? ==> phase == Batch(modelTurns, calls, k + 1)
      ensures !raised && r.NeedsApproval? ==>
                phase == Requested(modelTurns, calls, k) && Holds(p) && p.effect == Ask && !grant
      ensures !raised && (r.Recoverable? || r.Internal?) ==>
                phase == Started(modelTurns, calls, k) || (phase == Requested(modelTurns, calls, k) && !grant)
      ensures !raised ==> happened == old(happened) + Happening(p.callId, r)
      ensures !raised && r.Internal? ==> ToolRuntimeFailure in occurred
      ensures !raised ==> Results(trace) == if r.Observed? then happened else old(happened)
      ensures OnwardBut(old(Now()), Now(), p.callId)
      ensures grant ==>
                if raised && trace == old(trace) then executed == old(executed)
                else old(trace) + [ToolStarted(modelTurns, calls[k], Ask, p.fingerprint)] <= trace
    {
      OnwardCloses();
      OnwardButCloses(p.callId);
      OnwardRuns(Now(), p.callId);
      hide Truthful, Results, Given, CountsIn, Onward, OnwardBut, Explains;
      hide Logged, Authorised, CompletedOnce, Run, Ledgered, Next;
      r, raised := Internal, false;
      if grant || p.effect == Allow {
        var ok := AnnounceStart(calls, k, p, grant);
        if !ok {
          return Internal, true;
        }
      }
      r := ExecuteTool(p, grant);
      if r.Observed? {
        var ok := AnnounceCompletion(calls, k, r.content);
        raised := !ok;
      }
    }

    method AnnounceCompletion(calls: seq<Call>, k: nat, content: string) returns (ok: bool)
      requires Live() && k < |calls| && phase == Started(modelTurns, calls, k)
      requires calls[k].id in executed && calls[k].id !in Ledgered(trace).completed
      requires happened == Results(trace) + [ToolResult(calls[k].id, content, false)]
      modifies this`trace, this`phase, this`sinkFailed, this`state, this`consecutiveErrors
      ensures !ok ==> Dead(Recording)
      ensures ok ==> Reported()
      ensures ok ==> Live() && state == old(state) && phase == Batch(modelTurns, calls, k + 1)
      ensures old(trace) <= trace && Onward(old(Now()), Now())
    {
      hide Truthful, Results, Given, CountsIn, Onward, OnwardBut, Explains;
      hide Logged, Authorised, CompletedOnce, Run, Ledgered, Next;
      NextCompleted(modelTurns, calls, k, content);
      ok := Emit(ToolCompleted(modelTurns, calls[k], content));
      if ok {
        consecutiveErrors := 0;
      }
    }

    method AnnounceStart(calls: seq<Call>, k: nat, p: PreparedCall, grant: bool) returns (ok: bool)
      requires Live() && k < |calls| && p.effect == if grant then Ask else Allow
      requires phase == if grant then Approved(modelTurns, calls, k, p.fingerprint) else Requested(modelTurns, calls, k)
      modifies this`trace, this`phase, this`sinkFailed, this`state
      ensures !ok ==> Dead(Recording)
      ensures ok ==> Live() && state == old(state) && phase == Started(modelTurns, calls, k)
      ensures Ledgered(old(trace)).approved <= Ledgered(trace).approved && Onward(old(Now()), Now())
      ensures Results(trace) == Results(old(trace))
      ensures trace == old(trace) + if ok then [ToolStarted(modelTurns, calls[k], p.effect, p.fingerprint)] else []
    {
      hide Truthful, Results, Given, CountsIn, Onward, OnwardBut, Explains;
      hide Logged, Authorised, CompletedOnce, Run, Ledgered, Next;
      NextStarted(modelTurns, calls, k, p.fingerprint);
      ok := Emit(ToolStarted(modelTurns, calls[k], p.effect, p.fingerprint));
    }

    /** `_recoverable_result` and a refused approval: the model is told, and too many in a row end the run. */
    method Recover(calls: seq<Call>, k: nat, stage: Stage, message: string) returns (r: CallOutcome)
      requires Live() && k < |calls|
      requires phase == Requested(modelTurns, calls, k) || phase == Started(modelTurns, calls, k)
               || phase == Refused(modelTurns, calls, k)
      requires happened == Results(trace) + [ErrorResult(calls[k].id, stage, message)]
      modifies this`trace, this`phase, this`sinkFailed, this`state, this`failureRecorded, this`toolErrors,
               this`consecutiveErrors
      ensures r.Settled? ==> Live() && state == old(state) && phase == Batch(modelTurns, calls, k + 1)
      ensures r.Settled? ==> Reported() && r.result == ErrorResult(calls[k].id, stage, message)
      ensures r.Threw? ==> Dead(r.error)
      ensures !r.Stopped?
      ensures Onward(old(Now()), Now())
      ensures (r == Threw(Recording) && trace == old(trace))
              || old(trace) + [ToolFailed(modelTurns, calls[k], stage, true, message)] <= trace
    {
      OnwardCloses();
      hide Truthful, Results, Given, CountsIn, Onward, OnwardBut, Explains;
      hide Logged, Authorised, CompletedOnce, Run, Ledgered, Next;
      NextToolFailed(phase, modelTurns, calls, k, stage, true, message);
      var ok := Emit(ToolFailed(modelTurns, calls[k], stage, true, message));
      if !ok {
        return Threw(Recording);
      }
      var raised := RecordToolError();
      r := if raised.Some? then Threw(raised.value) else Settled(ErrorResult(calls[k].id, stage, message));
    }

    /** `_record_tool_error`: the error is counted, and too many in a row end the run. */
    method RecordToolError() returns (raised: Option<ErrorKind>)
      requires Core() && Reported() && phase.Batch? && !sinkFailed && !failureRecorded
      requires prepared == Ledgered(trace).requested
      requires CountsIn(trace) == Counts(modelTurns, toolErrors + 1, consecutiveErrors + 1)
      modifies this`trace, this`phase, this`sinkFailed, this`state, this`failureRecorded, this`toolErrors,
               this`consecutiveErrors
      ensures raised.None? ==> Live() && Reported() && state == old(state) && phase == old(phase) && trace == old(trace)
      ensures raised.Some? ==> Dead(raised.value)
      ensures old(trace) <= trace && Onward(old(Now()), Now())
    {
      OnwardCloses();
      hide Truthful, Results, Given, CountsIn, Onward, OnwardBut, Explains;
      hide Logged, Authorised, CompletedOnce, Run, Ledgered, Next;
      toolErrors, consecutiveErrors := toolErrors + 1, consecutiveErrors + 1;
      raised := None;
      if consecutiveErrors > limits.maxConsecutiveErrors {
        ExplainsWhy(asked, turns, Spent(), occurred);
        var error := Fail(LimitFailure);
        raised := Some(error);
      }
    }

    /** `_emit_nonrecoverable_tool_failure` then `_fail_internal_tool`. */
    method Abort(calls: seq<Call>, k: nat) returns (error: ErrorKind)
      requires Live() && k < |calls|
      requires phase == Requested(modelTurns, calls, k) || phase == Started(modelTurns, calls, k)
      requires ToolRuntimeFailure in occurred
      modifies this`trace, this`phase, this`sinkFailed, this`state, this`failureRecorded
      ensures Dead(error)
      ensures old(trace) <= trace && Onward(old(Now()), Now())
    {
      OnwardCloses();
      hide Truthful, Results, Given, CountsIn, Onward, OnwardBut, Explains;
      hide Logged, Authorised, CompletedOnce, Run, Ledgered, Next;
      var stage: Stage, message: string := *, *;
      NextToolFailed(phase, modelTurns, calls, k, stage, false, message);
      var ok := Emit(ToolFailed(modelTurns, calls[k], stage, false, message));
      if !ok {
        return Recording;
      }
      ExplainsWhy(asked, turns, Spent(), occurred);
      error := Fail(ToolRuntimeFailure);
    }

    /** A prepared call without a grant: it settles, or it waits for approval, or the session fails. */
    method RunPrepared(calls: seq<Call>, k: nat, p: PreparedCall) returns (r: CallOutcome)
      requires Live() && Reported() && Holds(p) && k < |calls| && p.callId == calls[k].id
      requires phase == Requested(modelTurns, calls, k)
      modifies this`trace, this`phase, this`sinkFailed, this`state, this`failureRecorded, this`toolErrors,
               this`consecutiveErrors, this`records, this`executed, this`happened, this`occurred
      ensures r.Settled? ==> Live() && state == old(state) && phase == Batch(modelTurns, calls, k + 1)
      ensures r.Settled? ==> r.result.callId == calls[k].id && happened == old(happened) + [r.result]
      ensures r.Stopped? ==> happened == old(happened)
      ensures !r.Threw? ==> Reported()
      ensures r.Stopped? ==> Live() && state == old(state) && phase == Waiting(modelTurns, calls, k, p.fingerprint)
      ensures r.Stopped? ==> r.prepared == p && Holds(p) && p.effect == Ask
      ensures r.Threw? ==> Dead(r.error)
      ensures OnwardBut(old(Now()), Now(), p.callId)
    {
      OnwardCloses();
      OnwardButCloses(p.callId);
      hide Truthful, Results, Given, CountsIn, Onward, OnwardBut, Explains;
      hide Logged, Authorised, CompletedOnce, Run, Ledgered, Next;
      var e, raised := ExecutePrepared(calls, k, p, false);
      if raised {
        return Threw(Recording);
      }
      if e.NeedsApproval? {
        var ok := AskApproval(calls, k, p);
        r := if ok then Stopped(p) else Threw(Recording);
      } else {
        r := SettleExecution(calls, k, e);
      }
    }

    method AskApproval(calls: seq<Call>, k: nat, p: PreparedCall) returns (ok: bool)
      requires Live() && k < |calls| && phase == Requested(modelTurns, calls, k)
      modifies this`trace, this`phase, this`sinkFailed, this`state
      ensures Results(trace) == Results(old(trace)) && Onward(old(Now()), Now())
      ensures ok ==> Live() && state == old(state) && phase == Waiting(modelTurns, calls, k, p.fingerprint)
      ensures !ok ==> Dead(Recording)
    {
      hide Truthful, Results, Given, CountsIn, Onward, OnwardBut, Explains;
      hide Logged, Authorised, CompletedOnce, Run, Ledgered, Next;
      NextApproval(modelTurns, calls, k, p.fingerprint, true);
      ok := Emit(ApprovalRequested(modelTurns, calls[k], p.fingerprint));
    }

    /** A call that was run settles with what became of it, or a fault of the dispatcher ends the session. */
    method SettleExecution(calls: seq<Call>, k: nat, e: Execution) returns (r: CallOutcome)
      requires Live() && k < |calls| && !e.NeedsApproval?
      requires e.Observed? ==> Reported() && phase == Batch(modelTurns, calls, k + 1)
      requires !e.Observed? ==> phase == Requested(modelTurns, calls, k) || phase == Started(modelTurns, calls, k)
      requires e.Recoverable? ==> happened == Results(trace) + [ErrorResult(calls[k].id, e.stage, e.message)]
      requires e.Internal? ==> ToolRuntimeFailure in occurred
      modifies this`trace, this`phase, this`sinkFailed, this`state, this`failureRecorded, this`toolErrors,
               this`consecutiveErrors
      ensures r.Settled? ==> Live() && Reported() && state == old(state) && phase == Batch(modelTurns, calls, k + 1)
      ensures r.Settled? ==> Happening(calls[k].id, e) == [r.result]
      ensures r.Threw? ==> Dead(r.error)
      ensures !r.Stopped? && old(trace) <= trace && Onward(old(Now()), Now())
    {
      OnwardCloses();
      hide Truthful, Results, Given, CountsIn, Onward, OnwardBut, Explains;
      hide Logged, Authorised, CompletedOnce, Run, Ledgered, Next;
      match e
      case Observed(content) => r := Settled(ToolResult(calls[k].id, content, false));
      case Recoverable(stage, message) => r := Recover(calls, k, stage, message);
      case Internal =>
        var error := Abort(calls, k);
        r := Threw(error);
    }

    /** The call is announced and counted, unless the run was cancelled or the limit is reached. */
    method RequestCall(calls: seq<Call>, k: nat) returns (raised: Option<ErrorKind>)
      requires Live() && k < |calls| && phase == Batch(modelTurns, calls, k)
      modifies this`trace, this`phase, this`sinkFailed, this`state, this`failureRecorded, this`occurred,
               this`toolCalls, this`prepared
      ensures raised.None? ==> Live() && state == old(state) && phase == Requested(modelTurns, calls, k)
      ensures raised.Some? ==> Dead(raised.value)
      ensures Results(trace) == Results(old(trace))
      ensures Onward(old(Now()), Now())
    {
      OnwardCloses();
      hide Truthful, Results, Given, CountsIn, Onward, OnwardBut, Explains;
      hide Logged, Authorised, CompletedOnce, Run, Ledgered, Next;
      raised := CheckCancel();
      if raised.None? {
        raised := AnnounceCall(calls, k);
      }
    }

    method AnnounceCall(calls: seq<Call>, k: nat) returns (raised: Option<ErrorKind>)
      requires Live() && k < |calls| && phase == Batch(modelTurns, calls, k)
      modifies this`trace, this`phase, this`sinkFailed, this`state, this`failureRecorded, this`toolCalls, this`prepared
      ensures raised.None? ==> Live() && state == old(state) && phase == Requested(modelTurns, calls, k)
      ensures raised.Some? ==> Dead(raised.value)
      ensures Results(trace) == Results(old(trace))
      ensures Onward(old(Now()), Now())
    {
      OnwardCloses();
      hide Truthful, Results, Given, CountsIn, Onward, OnwardBut, Explains;
      hide Logged, Authorised, CompletedOnce, Run, Ledgered, Next;
      raised := None;
      NextRequested(modelTurns, calls, k);
      var ok := Emit(ToolRequested(modelTurns, calls[k]));
      if !ok {
        return Some(Recording);
      }
      if toolCalls >= limits.maxToolCalls {
        ExplainsWhy(asked, turns, Spent(), occurred);
        var error := Fail(LimitFailure);
        return Some(error);
      }
      toolCalls, prepared := toolCalls + 1, prepared + [(modelTurns, calls[k])];
    }

    /** One round of the batch loop.  An id the dispatcher already knows neither runs nor settles without an error. */
    method RunCall(calls: seq<Call>, k: nat) returns (r: CallOutcome)
      requires Live() && Reported() && k < |calls| && phase == Batch(modelTurns, calls, k)
      modifies this`trace, this`phase, this`sinkFailed, this`state, this`failureRecorded, this`toolCalls,
               this`toolErrors, this`consecutiveErrors, this`records, this`executed, this`happened, this`occurred,
               this`prepared
      ensures r.Settled? ==> Live() && state == old(state) && phase == Batch(modelTurns, calls, k + 1)
      ensures r.Settled? ==> r.result.callId == calls[k].id && happened == old(happened) + [r.result]
      ensures r.Stopped? ==> happened == old(happened)
      ensures !r.Threw? ==> Reported()
      ensures calls[k].id in old(records) ==>
                executed == old(executed) && !r.Stopped? && (r.Settled? ==> r.result.isError)
      ensures r.Stopped? ==>
                Live() && state == old(state) && phase == Waiting(modelTurns, calls, k, r.prepared.fingerprint)
      ensures r.Stopped? ==> r.prepared.callId == calls[k].id && Holds(r.prepared) && r.prepared.effect == Ask
      ensures r.Threw? ==> Dead(r.error)
      ensures Onward(old(Now()), Now())
    {
      OnwardCloses();
      hide Truthful, Results, Given, CountsIn, Onward, OnwardBut, Explains;
      hide Logged, Authorised, CompletedOnce, Run, Ledgered, Next;
      var raised := RequestCall(calls, k);
      if raised.Some? {
        r := Threw(raised.value);
      } else {
        r := DispatchCall(calls, k);
      }
    }

    /** Prepared and run, once it has been announced. */
    method DispatchCall(calls: seq<Call>, k: nat) returns (r: CallOutcome)
      requires Live() && Reported() && k < |calls| && phase == Requested(modelTurns, calls, k)
      modifies this`trace, this`phase, this`sinkFailed, this`state, this`failureRecorded, this`toolErrors,
               this`consecutiveErrors, this`records, this`executed, this`happened, this`occurred
      ensures r.Settled? ==> Live() && state == old(state) && phase == Batch(modelTurns, calls, k + 1)
      ensures r.Settled? ==> r.result.callId == calls[k].id && happened == old(happened) + [r.result]
      ensures r.Stopped? ==> happened == old(happened)
      ensures !r.Threw? ==> Reported()
      ensures calls[k].id in old(records) ==>
                executed == old(executed) && !r.Stopped? && (r.Settled? ==> r.result.isError)
      ensures r.Stopped? ==>
                Live() && state == old(state) && phase == Waiting(modelTurns, calls, k, r.prepared.fingerprint)
      ensures r.Stopped? ==> r.prepared.callId == calls[k].id && Holds(r.prepared) && r.prepared.effect == Ask
      ensures r.Threw? ==> Dead(r.error)
      ensures Onward(old(Now()), Now())
    {
      hide Truthful, Results, Given, CountsIn, Onward, OnwardBut, Explains;
      hide Logged, Authorised, CompletedOnce, Run, Ledgered, Next;
      var preparation := PrepareTool(calls[k]);
      ghost var prepared := Now();
      if preparation.Prepares? {
        r := RunPrepared(calls, k, preparation.prepared);
        OnwardPrepared(old(Now()), prepared, Now(), calls[k].id);
      } else {
        r := SettleUnprepared(calls, k, preparation);
        OnwardThrough(old(Now()), prepared, Now());
      }
    }

    /** A call that could not be prepared. */
    method SettleUnprepared(calls: seq<Call>, k: nat, preparation: Preparation) returns (r: CallOutcome)
      requires Live() && k < |calls| && phase == Requested(modelTurns, calls, k) && !preparation.Prepares?
      requires preparation.PrepareBroken? ==> Reported()
      requires preparation.CannotPrepare? ==>
                 happened == Results(trace) + [ErrorResult(calls[k].id, preparation.stage, preparation.message)]
      requires preparation.PrepareBroken? ==> ToolRuntimeFailure in occurred
      modifies this`trace, this`phase, this`sinkFailed, this`state, this`failureRecorded, this`toolErrors,
               this`consecutiveErrors
      ensures r.Settled? ==> Live() && Reported() && state == old(state) && phase == Batch(modelTurns, calls, k + 1)
      ensures r.Settled? ==>
                && preparation.CannotPrepare?
                && r.result == ErrorResult(calls[k].id, preparation.stage, preparation.message)
      ensures r.Threw? ==> Dead(r.error)
      ensures !r.Stopped? && Onward(old(Now()), Now())
    {
      hide Truthful, Results, Given, CountsIn, Onward, OnwardBut, Explains;
      hide Logged, Authorised, CompletedOnce, Run, Ledgered, Next;
      match preparation
      case CannotPrepare(stage, message) => r := Recover(calls, k, stage, message);
      case PrepareBroken =>
        var error := Abort(calls, k);
        r := Threw(error);
    }

    // ---- turns --------------------------------------------------------------------------------------------------

    /** Nothing happened that the model does not know once it has been given these results. */
    ghost predicate Knows(more: seq<ToolResult>)
      reads this
    {
      Reported() && happened == Given(asked) + more
    }

    /** As many model calls as turns, all of them answered. */
    ghost predicate AllAnswered()
      reads this
    {
      |asked| == |turns| == modelTurns
    }

    /** The opening of a turn: cancellation, the turn limit, the opening events. */
    method OpenTurn() returns (raised: Option<ErrorKind>)
      requires Live() && phase == Between(modelTurns)
      modifies this`trace, this`phase, this`sinkFailed, this`state, this`failureRecorded, this`occurred, this`modelTurns
      ensures Results(trace) == Results(old(trace))
      ensures raised.None? ==>
                Live() && state == old(state) && modelTurns == old(modelTurns) + 1 && phase == Asking(modelTurns)
      ensures raised.Some? ==> Dead(raised.value)
      ensures Onward(old(Now()), Now())
    {
      OnwardCloses();
      hide Truthful, Results, Given, CountsIn, Onward, OnwardBut, Explains;
      hide Logged, Authorised, CompletedOnce, Run, Ledgered, Next;
      raised := CheckCancel();
      if raised.Some? {
        return;
      }
      if modelTurns >= limits.maxModelTurns {
        ExplainsWhy(asked, turns, Spent(), occurred);
        var error := Fail(LimitFailure);
        return Some(error);
      }
      raised := AnnounceTurn();
    }

    method AnnounceTurn() returns (raised: Option<ErrorKind>)
      requires Live() && phase == Between(modelTurns) && modelTurns < limits.maxModelTurns
      modifies this`trace, this`phase, this`sinkFailed, this`state, this`modelTurns
      ensures Results(trace) == Results(old(trace))
      ensures raised.None? ==>
                Live() && state == old(state) && modelTurns == old(modelTurns) + 1 && phase == Asking(modelTurns)
      ensures raised.Some? ==> Dead(raised.value)
      ensures Onward(old(Now()), Now())
    {
      OnwardCloses();
      hide Truthful, Results, Given, CountsIn, Onward, OnwardBut, Explains;
      hide Logged, Authorised, CompletedOnce, Run, Ledgered, Next;
      NextTurn(modelTurns, []);
      NextTurn(modelTurns + 1, []);
      LoggedLater(asked, turns, modelTurns, modelTurns + 1, inputTokens, outputTokens, cost, costComplete);
      modelTurns := modelTurns + 1;
      var ok := Emit(TurnStarted(modelTurns));
      if ok {
        ok := AnnounceModel();
      }
      raised := if ok then None else Some(Recording);
    }

    method AnnounceModel() returns (ok: bool)
      requires Live() && phase == TurnOpen(modelTurns)
      modifies this`trace, this`phase, this`sinkFailed, this`state
      ensures Results(trace) == Results(old(trace)) && Onward(old(Now()), Now())
      ensures ok ==> Live() && state == old(state) && phase == Asking(modelTurns)
      ensures !ok ==> Dead(Recording)
    {
      hide Truthful, Results, Given, CountsIn, Onward, OnwardBut, Explains;
      hide Logged, Authorised, CompletedOnce, Run, Ledgered, Next;
      NextTurn(modelTurns, []);
      ok := Emit(ModelStarted(modelTurns));
    }

    /** The model session: any reply at all to the input it is given. */
    method ModelRespond(input: ModelInput) returns (reply: Reply)
      modifies this`asked
      ensures asked == old(asked) + [input]
    {
      asked := asked + [input];
      reply := *;
    }

    /** The model failed, or returned something that is not a turn. */
    method LoseReply(failure: Failure) returns (error: ErrorKind)
      requires Live() && phase == Asking(modelTurns) && Caused(failure)
      modifies this`trace, this`phase, this`sinkFailed, this`state, this`failureRecorded
      ensures Results(trace) == Results(old(trace))
      ensures Dead(error) && (error == Recording || error == Runtime(failure))
      ensures Onward(old(Now()), Now())
    {
      OnwardCloses();
      hide Truthful, Results, Given, CountsIn, Onward, OnwardBut, Explains;
      hide Logged, Authorised, CompletedOnce, Run, Ledgered, Next;
      NextTurn(modelTurns, []);
      var ok := Emit(ModelFailed(modelTurns));
      if !ok {
        return Recording;
      }
      error := Fail(failure);
    }

    /** Usage is accounted before the turn is acted on. */
    method Account(turn: ModelTurn)
      requires Core() && |asked| == |turns| + 1
      modifies this`turns, this`inputTokens, this`outputTokens, this`cost, this`costComplete
      ensures Core() && turns == old(turns) + [turn]
    {
      hide Truthful, Results, Given, CountsIn, Onward, OnwardBut, Explains;
      hide Logged, Authorised, CompletedOnce, Run, Ledgered, CostAfter;
      LoggedReply(asked, turns, modelTurns, inputTokens, outputTokens, cost, costComplete, turn);
      var next := CostAfter(cost, costComplete, turn.usage.cost);
      inputTokens, outputTokens := inputTokens + turn.usage.input, outputTokens + turn.usage.output;
      cost, costComplete := next.0, next.1;
      turns := turns + [turn];
    }

    /** The model answers with a turn, with something else, or not at all. */
    method AskModel(input: ModelInput) returns (r: Answer)
      requires Live() && phase == Asking(modelTurns) && |asked| == |turns| == modelTurns - 1 && Follows(input, turns)
      requires Knows(ResultsIn(input))
      modifies this`asked, this`trace, this`phase, this`sinkFailed, this`state, this`failureRecorded, this`turns,
               this`inputTokens, this`outputTokens, this`cost, this`costComplete
      ensures Results(trace) == Results(old(trace))
      ensures r.Replied? ==> Live() && state == old(state) && phase == Batch(modelTurns, r.turn.calls, 0)
      ensures r.Replied? ==> turns == old(turns) + [r.turn]
      ensures r.NoReply? ==> Dead(r.error) && (r.error == Recording || turns == old(turns))
      ensures asked == old(asked) + [input] && Onward(old(Now()), Now())
    {
      OnwardCloses();
      hide Truthful, Results, Given, CountsIn, Onward, OnwardBut, Explains;
      hide Logged, Authorised, CompletedOnce, Run, Ledgered, Next, Follows;
      LoggedAsk(asked, turns, modelTurns, inputTokens, outputTokens, cost, costComplete, input);
      GivenAppend(asked, input);
      TruthfulGiven(asked + [input], trace, happened);
      var reply := ModelRespond(input);
      match reply
      case Broken =>
        ExplainsWhy(asked, turns, Spent(), occurred);
        var error := LoseReply(BackendFailure);
        r := NoReply(error);
      case NotATurn =>
        ExplainsWhy(asked, turns, Spent(), occurred);
        var error := LoseReply(ProtocolFailure);
        r := NoReply(error);
      case Turn(turn) =>
        var ok := TakeReply(turn);
        r := if ok then Replied(turn) else NoReply(Recording);
    }

    method TakeReply(turn: ModelTurn) returns (ok: bool)
      requires Live() && phase == Asking(modelTurns) && |asked| == |turns| + 1
      modifies this`trace, this`phase, this`sinkFailed, this`state, this`turns, this`inputTokens, this`outputTokens,
               this`cost, this`costComplete
      ensures Results(trace) == Results(old(trace))
      ensures turns == old(turns) + [turn] && Onward(old(Now()), Now())
      ensures ok ==> Live() && state == old(state) && phase == Batch(modelTurns, turn.calls, 0)
      ensures !ok ==> Dead(Recording)
    {
      hide Truthful, Results, Given, CountsIn, Onward, OnwardBut, Explains;
      hide Logged, Authorised, CompletedOnce, Run, Ledgered, Next;
      NextTurn(modelTurns, turn.calls);
      Account(turn);
      ok := Emit(ModelCompleted(modelTurns, turn.calls));
    }

    ghost predicate Parked(q: Pending)
      reads this
    {
      && Live() && AllAnswered() && q.next < |q.calls| && Answers(q.results, q.calls[..q.next])
      && phase == Waiting(modelTurns, q.calls, q.next, q.prepared.fingerprint)
      && q.prepared.callId == q.calls[q.next].id && q.prepared.effect == Ask && Holds(q.prepared)
      && AskedFor(turns, q.calls) && Knows(q.results)
    }

    /** What a call of the session leaves behind. */
    ghost predicate Ends(r: SessionOutcome)
      reads this
    {
      match r
      case Finished(s) =>
        && Core() && consecutiveErrors <= limits.maxConsecutiveErrors && state == Done && AllAnswered()
        && !sinkFailed && phase == Ended && Tallied() && Knows([])
        && trace != [] && Last(trace) == ExecutionCompleted(s) && Answered(turns, s.text)
        && s == Summary(s.text, modelTurns, toolCalls, toolErrors, InputTokens(turns), OutputTokens(turns),
                        RunCost(turns))
      case Paused(p) =>
        state == WaitingApproval && pending.Some? && Parked(pending.value) && pending.value.prepared == p
      case Raised(e) => Dead(e) && Judged(turns, e)
    }

    /** `_complete`. */
    method Complete(text: string) returns (r: SessionOutcome)
      requires Live() && AllAnswered() && phase == Batch(modelTurns, [], 0) && Answered(turns, text) && Knows([])
      modifies this`trace, this`phase, this`sinkFailed, this`state
      ensures Ends(r)
      ensures r == Raised(Recording) || (r.Finished? && r.summary.text == text)
      ensures Onward(old(Now()), Now())
    {
      OnwardCloses();
      hide Truthful, Results, Given, CountsIn, Onward, OnwardBut, Explains;
      hide Logged, Authorised, CompletedOnce, Run, Ledgered, Next;
      NextTurn(modelTurns, []);
      var ok := Emit(TurnCompleted(modelTurns));
      if !ok {
        return Raised(Recording);
      }
      r := Finish(text);
    }

    /** The outcome, recorded as the last event. */
    method Finish(text: string) returns (r: SessionOutcome)
      requires Live() && AllAnswered() && phase == Finishing(modelTurns) && Answered(turns, text) && Knows([])
      modifies this`trace, this`phase, this`sinkFailed, this`state
      ensures Ends(r)
      ensures r == Raised(Recording) || (r.Finished? && r.summary.text == text)
      ensures Onward(old(Now()), Now())
    {
      hide Truthful, Results, Given, CountsIn, Onward, OnwardBut, Explains;
      hide Authorised, CompletedOnce, Run, Ledgered;
      hide Aligned, InputTokens, OutputTokens, RunCost, AllPriced, Next;
      var s := Summary(text, modelTurns, toolCalls, toolErrors, inputTokens, outputTokens, cost);
      NextFinished(modelTurns, s);
      var ok := Emit(ExecutionCompleted(s));
      if !ok {
        return Raised(Recording);
      }
      state := Done;
      r := Finished(s);
    }

    // ---- the mutual recursion -----------------------------------------------------------------------------------

    /** Failed without a record yet: `_respond` records what `_process_turn` raises. */
    ghost predicate Unrecorded(e: ErrorKind)
      reads this
    {
      && Core() && state == Failed && !sinkFailed && !failureRecorded && MayFail(phase)
      && e.Runtime? && Caused(e.failure)
    }

    method Respond(input: ModelInput) returns (r: SessionOutcome)
      requires Live() && state == Running && AllAnswered() && phase == Between(modelTurns) && Follows(input, turns)
      requires Knows(ResultsIn(input))
      modifies this
      ensures Ends(r)
      ensures Onward(old(Now()), Now())
      ensures old(asked) <= asked && (|old(asked)| < |asked| ==> asked[|old(asked)|] == input)
      decreases limits.maxModelTurns - modelTurns, 1, 0
    {
      OnwardCloses();
      hide Truthful, Results, Given, CountsIn, Onward, OnwardBut, Explains;
      hide Logged, Authorised, CompletedOnce, Run, Ledgered, Next;
      hide Follows, Answers, Judged, FailureOf;
      FollowsJudges(input, turns);
      var answer := TakeTurn(input);
      if answer.NoReply? {
        RecordingJudges(turns);
        return Raised(answer.error);
      }
      r := ProcessTurn(answer.turn);
      if r.Raised? && r.error != Recording {
        r := RecordFailure(r.error);
      }
    }

    /** The first half of `_respond`: one turn of the model. */
    method TakeTurn(input: ModelInput) returns (r: Answer)
      requires Live() && AllAnswered() && phase == Between(modelTurns) && Follows(input, turns)
      requires Knows(ResultsIn(input))
      modifies this`asked, this`trace, this`phase, this`sinkFailed, this`state, this`failureRecorded, this`occurred,
               this`turns, this`inputTokens, this`outputTokens, this`cost, this`costComplete, this`modelTurns
      ensures r.Replied? ==> Live() && state == old(state) && phase == Batch(modelTurns, r.turn.calls, 0)
      ensures r.Replied? ==> AllAnswered() && modelTurns == old(modelTurns) + 1 && turns == old(turns) + [r.turn]
      ensures r.Replied? ==> Knows([])
      ensures r.NoReply? ==> Dead(r.error) && (r.error == Recording || turns == old(turns))
      ensures asked == old(asked) + [input] || (asked == old(asked) && r.NoReply?)
      ensures Onward(old(Now()), Now())
    {
      OnwardCloses();
      hide Truthful, Results, Given, CountsIn, Onward, OnwardBut, Explains;
      hide Logged, Authorised, CompletedOnce, Run, Ledgered, Next, Follows;
      var raised := OpenTurn();
      if raised.Some? {
        return NoReply(raised.value);
      }
      GivenAppend(asked, input);
      r := AskModel(input);
    }

    /** What `_process_turn` raised is recorded, unless it was already. */
    method RecordFailure(e: ErrorKind) returns (r: SessionOutcome)
      requires e != Recording && (Unrecorded(e) || Dead(e)) && Judged(turns, e)
      modifies this`trace, this`phase, this`sinkFailed, this`state, this`failureRecorded
      ensures Ends(r) && (r == Raised(Recording) || r == Raised(e))
      ensures Onward(old(Now()), Now())
    {
      hide Truthful, Results, Given, CountsIn, Onward, OnwardBut, Explains;
      hide Logged, Authorised, CompletedOnce, Run, Ledgered, Next, Judged;
      RecordingJudges(turns);
      var error := Fail(e.failure);
      r := Raised(error);
    }

    method ProcessTurn(turn: ModelTurn) returns (r: SessionOutcome)
      requires Live() && state == Running && AllAnswered() && phase == Batch(modelTurns, turn.calls, 0)
      requires turns != [] && Last(turns) == turn && Knows([])
      modifies this
      ensures r.Raised? && r.error != Recording ==> Unrecorded(r.error) || Dead(r.error)
      ensures !(r.Raised? && r.error != Recording) ==> Ends(r)
      ensures r.Raised? ==> Judged(turns, r.error)
      ensures FailureOf(turn).Some? ==> r in {Raised(Recording), Raised(Runtime(FailureOf(turn).value))}
      ensures FailureOf(turn).None? && turn.calls == [] ==>
                r == Raised(Recording) || (r.Finished? && r.summary.text == turn.text)
      ensures Onward(old(Now()), Now()) && Told(old(asked), asked, [])
      decreases limits.maxModelTurns - modelTurns, 3, 0
    {
      OnwardCloses();
      ExplainsWhy(asked, turns, Spent(), occurred);
      hide Truthful, Results, Given, CountsIn, Onward, OnwardBut, Explains;
      hide Logged, Authorised, CompletedOnce, Run, Ledgered, Next;
      if turn.calls != [] {
        if turn.stop != ToolUse {
          var error := Fail(ProtocolFailure);
          return Raised(error);
        }
        assert Answers([], turn.calls[..0]);
        r := ContinueBatch(turn.calls, 0, []);
      } else if turn.stop == Completed {
        if Blank(turn.text) {
          var error := Fail(ProtocolFailure);
          return Raised(error);
        }
        r := Complete(turn.text);
      } else if turn.stop == Length || turn.stop == Refusal {
        state := Failed;
        r := Raised(Runtime(if turn.stop == Length then IncompleteFailure else RefusalFailure));
      } else {
        var error := Fail(ProtocolFailure);
        r := Raised(error);
      }
    }

    method Park(p: PreparedCall, calls: seq<Call>, next: nat, results: seq<ToolResult>)
      requires Live() && AllAnswered() && next < |calls| && Answers(results, calls[..next])
      requires phase == Waiting(modelTurns, calls, next, p.fingerprint)
      requires p.callId == calls[next].id && p.effect == Ask && Holds(p)
      requires AskedFor(turns, calls) && Knows(results)
      modifies this`pending, this`state
      ensures Ends(Paused(p))
    {
      hide Truthful, Results, Given, CountsIn, Onward, OnwardBut, Explains;
      hide Logged, Authorised, CompletedOnce, Run, Ledgered, Answers;
      pending := Some(Pending(p, calls, next, results));
      state := WaitingApproval;
    }

    /** The loop of `_continue_tool_batch`: settle the remaining calls in order. */
    method RunBatch(calls: seq<Call>, start: nat, answered: seq<ToolResult>)
      returns (results: seq<ToolResult>, r: Option<SessionOutcome>)
      requires Live() && state == Running && AllAnswered() && start <= |calls|
      requires phase == Batch(modelTurns, calls, start) && Answers(answered, calls[..start])
      requires AskedFor(turns, calls) && Knows(answered)
      modifies this`trace, this`phase, this`sinkFailed, this`state, this`failureRecorded, this`toolCalls,
               this`toolErrors, this`consecutiveErrors, this`records, this`executed, this`happened, this`occurred,
               this`prepared, this`pending
      ensures r.Some? ==> Ends(r.value) && !r.value.Finished?
      ensures r.None? ==>
                Live() && state == Running && phase == Batch(modelTurns, calls, |calls|)
                && Answers(results, calls) && answered <= results && Knows(results)
      ensures Onward(old(Now()), Now())
    {
      OnwardCloses();
      hide Truthful, Results, Given, CountsIn, Onward, OnwardBut, Explains;
      hide Logged, Authorised, CompletedOnce, Run, Ledgered, Next;
      hide Answers, Judged, AskedFor;
      AskedForJudges(turns, calls);
      var next := start;
      results, r := answered, None;
      while next < |calls|
        invariant Live() && state == Running && next <= |calls| && phase == Batch(modelTurns, calls, next)
        invariant Answers(results, calls[..next]) && answered <= results && Onward(old(Now()), Now())
        invariant Knows(results) && r == None
      {
        results, r := RunNext(calls, next, results);
        if r.Some? {
          return;
        }
        next := next + 1;
      }
      assert calls[..next] == calls;
    }

    /** One round of the loop: the call settles and its result is kept, or the batch stops here. */
    method RunNext(calls: seq<Call>, next: nat, before: seq<ToolResult>)
      returns (results: seq<ToolResult>, r: Option<SessionOutcome>)
      requires Live() && state == Running && AllAnswered() && next < |calls|
      requires phase == Batch(modelTurns, calls, next) && Answers(before, calls[..next])
      requires AskedFor(turns, calls) && Knows(before)
      modifies this`trace, this`phase, this`sinkFailed, this`state, this`failureRecorded, this`toolCalls,
               this`toolErrors, this`consecutiveErrors, this`records, this`executed, this`happened, this`occurred,
               this`prepared, this`pending
      ensures before <= results && Onward(old(Now()), Now())
      ensures r.Some? ==> Ends(r.value) && !r.value.Finished?
      ensures r.None? ==> Live() && state == Running && phase == Batch(modelTurns, calls, next + 1)
      ensures r.None? ==> Answers(results, calls[..next + 1]) && Knows(results)
    {
      hide Truthful, Results, Given, CountsIn, Onward, OnwardBut, Explains;
      hide Logged, Authorised, CompletedOnce, Run, Ledgered, Next;
      hide Answers, Judged, AskedFor;
      AskedForJudges(turns, calls);
      results, r := before, None;
      var call := RunCall(calls, next);
      match call
      case Threw(error) => r := Some(Raised(error));
      case Stopped(p) =>
        Park(p, calls, next, results);
        r := Some(Paused(p));
      case Settled(result) =>
        AnswersMore(results, calls, next, result);
        results := results + [result];
    }

    method AnnounceTurnEnd(calls: seq<Call>) returns (ok: bool)
      requires Live() && calls != [] && phase == Batch(modelTurns, calls, |calls|)
      modifies this`trace, this`phase, this`sinkFailed, this`state
      ensures Results(trace) == Results(old(trace)) && Onward(old(Now()), Now())
      ensures ok ==> Live() && state == old(state) && phase == Between(modelTurns)
      ensures !ok ==> Dead(Recording)
    {
      hide Truthful, Results, Given, CountsIn, Onward, OnwardBut, Explains;
      hide Logged, Authorised, CompletedOnce, Run, Ledgered, Next;
      NextTurn(modelTurns, calls);
      ok := Emit(TurnCompleted(modelTurns));
    }

    /** `_continue_tool_batch`: after the batch, the model is given all its results at once. */
    method ContinueBatch(calls: seq<Call>, start: nat, answered: seq<ToolResult>) returns (r: SessionOutcome)
      requires Live() && state == Running && AllAnswered() && start <= |calls|
      requires phase == Batch(modelTurns, calls, start) && Answers(answered, calls[..start])
      requires AskedFor(turns, calls) && Knows(answered)
      modifies this
      ensures Ends(r)
      ensures Onward(old(Now()), Now()) && Told(old(asked), asked, answered)
      decreases limits.maxModelTurns - modelTurns, 2, 0
    {
      OnwardCloses();
      hide Truthful, Results, Given, CountsIn, Onward, OnwardBut, Explains;
      hide Logged, Authorised, CompletedOnce, Run, Ledgered, Next, Answers;
      var results, stopped := RunBatch(calls, start, answered);
      if stopped.Some? {
        return stopped.value;
      }
      var ok := AnnounceTurnEnd(calls);
      if !ok {
        return Raised(Recording);
      }
      r := Respond(ToolResults(results));
      ToldLater(old(asked), asked, answered, results);
    }

    // ---- the caller's operations --------------------------------------------------------------------------------

    /** What holds between calls, in every reachable state. */
    ghost predicate Valid()
      reads this
    {
      match state
      case Ready => Live() && trace == [] && phase == Idle && asked == [] && turns == [] && modelTurns == 0
          && toolCalls == 0 && happened == []
      case Running => false
      case WaitingApproval => pending.Some? && Parked(pending.value)
      case Done => Core() && consecutiveErrors <= limits.maxConsecutiveErrors && !sinkFailed && phase == Ended
        && Tallied() && Knows([])
      case Failed => exists e :: Dead(e)
    }

    constructor (limits: AgentLimits, sessionId: nat)
      ensures Valid() && state == Ready && this.limits == limits && this.sessionId == sessionId
    {
      this.limits, this.sessionId := limits, sessionId;
      state, pending, failureRecorded, records := Ready, None, false, map[];
      modelTurns, toolCalls, toolErrors, consecutiveErrors := 0, 0, 0, 0;
      inputTokens, outputTokens, cost, costComplete := 0, 0, None, true;
      trace, phase, sinkFailed, asked, turns := [], Idle, false, [], [];
      executed, prepared, happened, occurred := [], [], [], {};
    }

    /** `start`: once, from the ready state only. */
    method Start(task: string, opens: bool) returns (r: SessionOutcome)
      requires Valid()
      modifies this
      ensures Valid()
      ensures old(state) != Ready ==> r == Raised(Lifecycle) && state == old(state) && trace == old(trace)
      ensures old(state) == Ready && Blank(task) ==> r == Raised(Input) && state == Ready
      ensures old(state) == Ready && !Blank(task) ==>
                && Ends(r) && (asked != [] ==> asked[0] == UserInput(task))
                && (trace != [] ==> trace[0] == ExecutionStarted(task))
    {
      hide Truthful, Results, Given, CountsIn, Onward, OnwardBut, Explains;
      hide Logged, Authorised, CompletedOnce, Run, Ledgered, Answers;
      if state != Ready {
        return Raised(Lifecycle);
      }
      if Blank(task) {
        return Raised(Input);
      }
      var raised := Open(task, opens);
      if raised.Some? {
        r := Raised(raised.value);
      } else {
        state := Running;
        ghost var now := Now();
        r := Respond(UserInput(task));
        OnwardExtends(now, Now());
      }
      EndsValid(r);
    }

    /** The first event, and the model session. */
    method Open(task: string, opens: bool) returns (raised: Option<ErrorKind>)
      requires state == Ready && Valid()
      modifies this`trace, this`phase, this`sinkFailed, this`state, this`failureRecorded
      ensures raised.Some? ==> Dead(raised.value)
      ensures raised.None? ==>
                && Live() && state == Ready && phase == Between(0) && Knows([]) && trace == [ExecutionStarted(task)]
      ensures trace != [] ==> trace[0] == ExecutionStarted(task)
    {
      hide Truthful, Results, Given, CountsIn, Onward, OnwardBut, Explains;
      hide Logged, Authorised, CompletedOnce, Run, Ledgered;
      NothingKnown();
      raised := None;
      var ok := Emit(ExecutionStarted(task));
      if !ok {
        return Some(Recording);
      }
      if !opens {
        ExplainsWhy(asked, turns, Spent(), occurred);
        var error := Fail(BackendFailure);
        raised := Some(error);
      }
    }

    lemma EndsValid(r: SessionOutcome)
      requires Ends(r)
      ensures Valid()
    {}

    /** The decision is recorded with the fingerprint that was asked for. */
    method ResolveApproval(calls: seq<Call>, k: nat, p: PreparedCall, approved: bool) returns (ok: bool)
      requires Live() && k < |calls| && p.callId == calls[k].id && phase == Waiting(modelTurns, calls, k, p.fingerprint)
      modifies this`trace, this`phase, this`sinkFailed, this`state
      ensures !ok ==> Dead(Recording)
      ensures Results(trace) == Results(old(trace))
      ensures ok ==> Live() && state == old(state)
      ensures ok && approved ==>
                && phase == Approved(modelTurns, calls, k, p.fingerprint)
                && (p.callId, p.fingerprint) in Ledgered(trace).approved
      ensures ok && !approved ==> phase == Refused(modelTurns, calls, k)
      ensures trace == old(trace) + if ok then [ApprovalResolved(modelTurns, calls[k], p.fingerprint, approved)] else []
    {
      hide Truthful, Results, Given, CountsIn, Onward, OnwardBut, Explains;
      hide Logged, Authorised, CompletedOnce, Run, Ledgered, Next;
      NextApproval(modelTurns, calls, k, p.fingerprint, approved);
      ok := Emit(ApprovalResolved(modelTurns, calls[k], p.fingerprint, approved));
    }

    /** The call that waited, after the user decided. */
    method SettleDecision(q: Pending, approved: bool) returns (r: CallOutcome)
      requires Live() && Reported() && Holds(q.prepared)
      requires q.next < |q.calls| && q.prepared.callId == q.calls[q.next].id
      requires q.prepared.effect == Ask && phase == Waiting(modelTurns, q.calls, q.next, q.prepared.fingerprint)
      modifies this`trace, this`phase, this`sinkFailed, this`state, this`failureRecorded, this`toolErrors,
               this`consecutiveErrors, this`records, this`executed, this`happened, this`occurred
      ensures r.Settled? ==> Live() && state == old(state) && phase == Batch(modelTurns, q.calls, q.next + 1)
      ensures r.Settled? ==> r.result.callId == q.calls[q.next].id
      ensures r.Settled? ==> Reported() && happened == old(happened) + [r.result]
      ensures r.Settled? && !approved ==> r.result == ToolResult(q.prepared.callId, DENIED, true)
      ensures r.Threw? ==> Dead(r.error)
      ensures !r.Stopped?
      ensures trace == old(trace) ==> r == Threw(Recording) && executed == old(executed)
      ensures trace != old(trace) ==>
                Obeys(AnsweredAt(old(Now()), modelTurns, q.calls[q.next], q.prepared.fingerprint, approved), Now(),
                      q.prepared.callId, approved)
      ensures var both := AnswerEvents(modelTurns, q.calls[q.next], q.prepared.fingerprint, approved);
              old(trace) + both <= trace
              || (r == Threw(Recording) && trace <= old(trace) + both && executed == old(executed))
    {
      hide Truthful, Results, Given, CountsIn, Onward, OnwardBut, Explains;
      hide Logged, Authorised, CompletedOnce, Run, Ledgered, Next, AnswerEvents, Obeys;
      var ok := ResolveApproval(q.calls, q.next, q.prepared, approved);
      AnswerSplits(old(trace), trace, modelTurns, q.calls[q.next], q.prepared.fingerprint, approved);
      if !ok {
        return Threw(Recording);
      }
      ghost var now := Now();
      r := FollowAnswer(q.calls, q.next, q.prepared, approved);
      ObeysIs(now, Now(), q.prepared.callId, approved);
      AnswerSplits(old(trace), trace, modelTurns, q.calls[q.next], q.prepared.fingerprint, approved);
    }

    /** What the user's answer means for the call. */
    method FollowAnswer(calls: seq<Call>, k: nat, p: PreparedCall, approved: bool) returns (r: CallOutcome)
      requires Live() && Reported() && Holds(p) && k < |calls| && p.callId == calls[k].id && p.effect == Ask
      requires approved ==>
                 phase == Approved(modelTurns, calls, k, p.fingerprint)
                 && (p.callId, p.fingerprint) in Ledgered(trace).approved
      requires !approved ==> phase == Refused(modelTurns, calls, k)
      modifies this`trace, this`phase, this`sinkFailed, this`state, this`failureRecorded, this`toolErrors,
               this`consecutiveErrors, this`records, this`executed, this`happened, this`occurred
      ensures r.Settled? ==> Live() && Reported() && state == old(state) && phase == Batch(modelTurns, calls, k + 1)
      ensures r.Settled? ==> r.result.callId == calls[k].id && happened == old(happened) + [r.result]
      ensures r.Settled? && !approved ==> r.result == ToolResult(p.callId, DENIED, true)
      ensures r.Threw? ==> Dead(r.error)
      ensures !r.Stopped?
      ensures if approved then OnwardBut(old(Now()), Now(), p.callId) else Onward(old(Now()), Now())
      ensures if trace == old(trace) then r == Threw(Recording) && executed == old(executed)
              else old(trace) + AnswerEvents(modelTurns, calls[k], p.fingerprint, approved)[1..] <= trace
    {
      hide Truthful, Results, Given, CountsIn, Onward, OnwardBut, Explains;
      hide Logged, Authorised, CompletedOnce, Run, Ledgered, Next;
      if approved {
        r := RunApproved(calls, k, p);
      } else {
        r := Refuse(calls, k);
      }
    }

    /** A call that the user refused fails, and the model is told so. */
    method Refuse(calls: seq<Call>, k: nat) returns (r: CallOutcome)
      requires Live() && Reported() && k < |calls| && phase == Refused(modelTurns, calls, k)
      modifies this`trace, this`phase, this`sinkFailed, this`state, this`failureRecorded, this`toolErrors,
               this`consecutiveErrors, this`happened
      ensures r.Settled? ==> Live() && Reported() && state == old(state) && phase == Batch(modelTurns, calls, k + 1)
      ensures r.Settled? ==> r.result == ToolResult(calls[k].id, DENIED, true)
      ensures r.Settled? ==> happened == old(happened) + [r.result]
      ensures r.Threw? ==> Dead(r.error)
      ensures !r.Stopped? && Onward(old(Now()), Now())
      ensures (r == Threw(Recording) && trace == old(trace))
              || old(trace) + [ToolFailed(modelTurns, calls[k], Approving, true, DENIED)] <= trace
    {
      hide Truthful, Results, Given, CountsIn, Onward, OnwardBut, Explains;
      hide Logged, Authorised, CompletedOnce, Run, Ledgered, Next;
      TruthfulMore(asked, trace, happened, [ErrorResult(calls[k].id, Approving, DENIED)]);
      happened := happened + [ErrorResult(calls[k].id, Approving, DENIED)];
      r := Recover(calls, k, Approving, DENIED);
    }

    /** A prepared call with a grant. */
    method RunApproved(calls: seq<Call>, k: nat, p: PreparedCall) returns (r: CallOutcome)
      requires Live() && Reported() && Holds(p) && k < |calls| && p.callId == calls[k].id && p.effect == Ask
      requires phase == Approved(modelTurns, calls, k, p.fingerprint)
               && (p.callId, p.fingerprint) in Ledgered(trace).approved
      modifies this`trace, this`phase, this`sinkFailed, this`state, this`failureRecorded, this`toolErrors,
               this`consecutiveErrors, this`records, this`executed, this`happened, this`occurred
      ensures r.Settled? ==> Live() && state == old(state) && phase == Batch(modelTurns, calls, k + 1)
      ensures r.Settled? ==> r.result.callId == calls[k].id
      ensures r.Settled? ==> Reported() && happened == old(happened) + [r.result]
      ensures r.Threw? ==> Dead(r.error)
      ensures !r.Stopped?
      ensures OnwardBut(old(Now()), Now(), p.callId)
      ensures if trace == old(trace) then r == Threw(Recording) && executed == old(executed)
              else old(trace) + [ToolStarted(modelTurns, calls[k], Ask, p.fingerprint)] <= trace
    {
      OnwardCloses();
      OnwardButCloses(p.callId);
      hide Truthful, Results, Given, CountsIn, Onward, OnwardBut, Explains;
      hide Logged, Authorised, CompletedOnce, Run, Ledgered, Next;
      var e, raised := ExecutePrepared(calls, k, p, true);
      if raised {
        return Threw(Recording);
      }
      r := SettleExecution(calls, k, e);
    }

    /** The decision names exactly the waiting call, its fingerprint and this session. */
    ghost predicate Matches(d: Decision)
      reads this
    {
      && pending.Some? && d.callId == pending.value.prepared.callId
      && d.fingerprint == pending.value.prepared.fingerprint && d.sessionId == sessionId
    }

    /**
     `resume`: only the decision for exactly the waiting call moves the session, and the answer recorded and followed
     is the user's: after an approval the tool starts, after a refusal its call fails and never runs.
     */
    method Resume(decision: Decision) returns (r: SessionOutcome)
      requires Valid()
      modifies this
      ensures Valid()
      ensures old(state) != WaitingApproval ==> r == Raised(Lifecycle) && state == old(state) && trace == old(trace)
      ensures r == Raised(Approval) ==> state == WaitingApproval && pending == old(pending) && trace == old(trace)
      ensures old(state) == WaitingApproval && r != Raised(Approval) ==> Ends(r)
      ensures old(state) == WaitingApproval && !old(Matches(decision)) ==>
                && executed == old(executed)
                && r in {Raised(Approval), Raised(Recording), Raised(Runtime(CancelledFailure))}
      ensures old(state) == WaitingApproval && old(Matches(decision)) ==>
                var q := old(pending.value);
                var both := AnswerEvents(old(modelTurns), q.calls[q.next], q.prepared.fingerprint, decision.approved);
                || old(trace) + both <= trace
                || (r == Raised(Recording) && trace <= old(trace) + both && executed == old(executed))
                || (r == Raised(Runtime(CancelledFailure)) && executed == old(executed)
                    && trace == old(trace) + [ExecutionFailed(CancelledFailure)])
      ensures old(state) == WaitingApproval ==>
                Respected(old(Now()), Now(), old(pending.value.prepared), old(Matches(decision)) && decision.approved)
      ensures old(state) == WaitingApproval && !decision.approved && |old(asked)| < |asked| ==>
                var q := old(pending.value);
                Told(old(asked), asked, q.results + [ToolResult(q.prepared.callId, DENIED, true)])
    {
      hide Truthful, Results, Given, CountsIn, Onward, OnwardBut, Explains;
      hide Logged, Authorised, CompletedOnce, Run, Ledgered, Next;
      hide Answers, Judged, AskedFor, Obeys, AnswerEvents, Told, Respected;
      if state != WaitingApproval {
        return Raised(Lifecycle);
      }
      var q := pending.value;
      NotRunYet(executed, records, Ledgered(trace).approved, q.prepared);
      AskedForJudges(turns, q.calls);
      var cancelled := CheckCancel();
      OnwardRespects(old(Now()), Now(), q.prepared);
      if cancelled.Some? {
        r := Raised(cancelled.value);
        EndsValid(r);
        return;
      }
      if !(decision.callId == q.prepared.callId && decision.fingerprint == q.prepared.fingerprint
           && decision.sessionId == sessionId) {
        return Raised(Approval);
      }
      r := Decide(q, decision.approved);
      EndsValid(r);
    }

    method Decide(q: Pending, approved: bool) returns (r: SessionOutcome)
      requires state == WaitingApproval && Parked(q)
      modifies this
      ensures Ends(r)
      ensures Respected(old(Now()), Now(), q.prepared, approved)
      ensures var both := AnswerEvents(old(modelTurns), q.calls[q.next], q.prepared.fingerprint, approved);
              old(trace) + both <= trace
              || (r == Raised(Recording) && trace <= old(trace) + both && executed == old(executed))
      ensures !approved && |old(asked)| < |asked| ==>
                Told(old(asked), asked, q.results + [ToolResult(q.prepared.callId, DENIED, true)])
    {
      hide Truthful, Results, Given, CountsIn, Onward, OnwardBut, Explains;
      hide Logged, Authorised, CompletedOnce, Run, Ledgered, Next;
      hide Answers, Judged, AskedFor, Obeys, Told, Respected;
      AskedForJudges(turns, q.calls);
      NotRunYet(executed, records, Ledgered(trace).approved, q.prepared);
      pending, state := None, Running;
      var settled := SettleDecision(q, approved);
      ghost var now := Now();
      if settled.Threw? {
        r := Raised(settled.error);
      } else {
        AnswersMore(q.results, q.calls, q.next, settled.result);
        r := ContinueBatch(q.calls, q.next + 1, q.results + [settled.result]);
        OnwardExtends(now, Now());
        ObeysOnward(AnsweredAt(old(Now()), old(modelTurns), q.calls[q.next], q.prepared.fingerprint, approved), now,
                    Now(), q.prepared.callId, approved);
      }
      if trace == old(trace) {
        StillRespects(old(Now()), Now(), q.prepared, approved);
      } else {
        ObeysRespects(old(Now()), Now(), old(modelTurns), q.calls[q.next], q.prepared, approved);
      }
    }
  }

  /** What holds in every state a session can be found in, whatever the model, the tools, the sink and the user did. */
  lemma EverySession(s: AgentSession)
    requires s.Valid()
    ensures |s.asked| <= s.limits.maxModelTurns && s.toolCalls <= s.limits.maxToolCalls
    ensures |s.prepared| == s.toolCalls && s.prepared <= Ledgered(s.trace).requested
    ensures Distinct(Ledgered(s.trace).completed)
    ensures s.state != Failed ==>
              CountsIn(s.trace) == Counts(s.modelTurns, s.toolErrors, s.consecutiveErrors)
              && s.consecutiveErrors <= s.limits.maxConsecutiveErrors
    ensures Given(s.asked) <= Results(s.trace) <= s.happened
    ensures s.state != Failed ==>
              var pending := if s.state == WaitingApproval then s.pending.value.results else [];
              s.happened == Results(s.trace) == Given(s.asked) + pending
    ensures !s.sinkFailed ==> Ledgered(s.trace).started == Ledgered(s.trace).resolved
    ensures Aligned(s.asked, s.turns) && s.cost == RunCost(s.turns)
    ensures RegularLedger(Ledgered(s.trace)) && Distinct(s.executed)
    ensures forall id :: id in s.executed ==>
              && id in s.records && s.records[id].consumed && s.records[id].prepared.callId == id
              && var p := s.records[id].prepared;
                 p.effect == Allow || (p.effect == Ask && (id, p.fingerprint) in Ledgered(s.trace).approved)
    ensures forall i :: 0 <= i < |s.trace| && Terminal(s.trace[i]) ==> i == |s.trace| - 1
    ensures s.state == Done || (s.state == Failed && !s.sinkFailed) <==> s.trace != [] && Terminal(Last(s.trace))
  {
    hide RegularLedger, Tally, Run, Ledgered, Next;
    assert s.Core();
    AcceptedIsRegular(s.trace);
    OpenedIsResolved(s.trace);
    forall i | 0 <= i < |s.trace| && Terminal(s.trace[i]) ensures i == |s.trace| - 1 && s.phase == Ended {
      TerminalIsLast(s.trace, i);
    }
    if s.phase == Ended {
      EndedHasTerminal(s.trace);
    }
  }

  lemma AnswersMore(results: seq<ToolResult>, calls: seq<Call>, n: nat, result: ToolResult)
    requires n < |calls| && Answers(results, calls[..n]) && result.callId == calls[n].id
    ensures Answers(results + [result], calls[..n + 1])
  {}

  predicate Blank(s: string) {
    forall i :: 0 <= i < |s| ==> s[i] in {' ', '\t', '\n', '\r'}
  }

  /** One other character anywhere is enough not to be blank. */
  lemma BlankSays(s: string)
    ensures Blank(s) <==> forall c :: c in s ==> c == ' ' || c == '\t' || c == '\n' || c == '\r'
  {
    assert forall i :: 0 <= i < |s| ==> s[i] in s;
  }

  lemma AuthorisedRecord(executed: seq<string>, records: map<string, PreparedRecord>, approved: Approvals, id: string,
                         p: PreparedCall)
    requires Authorised(executed, records, approved) && id !in records && p.callId == id
    ensures Authorised(executed, records[id := PreparedRecord(p, false)], approved)
  {}

  lemma AuthorisedExecution(executed: seq<string>, records: map<string, PreparedRecord>, approved: Approvals,
                            p: PreparedCall)
    requires Authorised(executed, records, approved)
    requires p.callId in records && records[p.callId] == PreparedRecord(p, false)
    requires Permitted(p, approved)
    ensures p.callId !in executed
    ensures Authorised(executed + [p.callId], records[p.callId := PreparedRecord(p, true)], approved)
  {
    assert p.callId !in executed;
  }
}
