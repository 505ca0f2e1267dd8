/** The event trace of one agent execution and the grammar that every session keeps. */
module AgentTrace {
  import opened Common

  datatype Call = Call(id: string, name: string, arguments: string)

  datatype Permission = Allow | Ask | Deny

  /** Where the tool runtime refused or failed a call. */
  datatype Stage = Preparing | Executing | Policy | Approving

  /** What the model is told about a call. */
  datatype ToolResult = ToolResult(callId: string, content: string, isError: bool)

  datatype Failure =
    | BackendFailure | ProtocolFailure | CancelledFailure | LimitFailure | IncompleteFailure | RefusalFailure
    | ToolRuntimeFailure

  datatype Summary = Summary(text: string, modelTurns: nat, toolCalls: nat, toolErrors: nat, inputTokens: nat,
                             outputTokens: nat, cost: Option<real>)

  /**
   The lifecycle events.  `ToolStarted` is annotated with the policy effect and the approval fingerprint that the
   dispatcher recorded for the call when it was prepared.
   */
  datatype AgentEvent =
    | ExecutionStarted(task: string)
    | TurnStarted(turn: nat)
    | ModelStarted(turn: nat)
    | ModelCompleted(turn: nat, calls: seq<Call>)
    | ModelFailed(turn: nat)
    | ToolRequested(turn: nat, call: Call)
    | ToolStarted(turn: nat, call: Call, effect: Permission, fingerprint: string)
    | ToolCompleted(turn: nat, call: Call, content: string)
    | ToolFailed(turn: nat, call: Call, stage: Stage, recoverable: bool, message: string)
    | ApprovalRequested(turn: nat, call: Call, fingerprint: string)
    | ApprovalResolved(turn: nat, call: Call, fingerprint: string, approved: bool)
    | TurnCompleted(turn: nat)
    | ExecutionCompleted(summary: Summary)
    | ExecutionFailed(failure: Failure)

  predicate Terminal(e: AgentEvent) {
    e.ExecutionCompleted? || e.ExecutionFailed?
  }

  // ---- the grammar ----------------------------------------------------------------------------------------------

  /** Where a trace stands; n is the turn, k the position in the turn's batch of calls. */
  datatype Phase =
    | Idle
    | Between(n: nat)
    | TurnOpen(n: nat)
    | Asking(n: nat)
    | Batch(n: nat, calls: seq<Call>, k: nat)
    | Requested(n: nat, calls: seq<Call>, k: nat)
    | Waiting(n: nat, calls: seq<Call>, k: nat, fingerprint: string)
    | Approved(n: nat, calls: seq<Call>, k: nat, fingerprint: string)
    | Refused(n: nat, calls: seq<Call>, k: nat)
    | Started(n: nat, calls: seq<Call>, k: nat)
    | Finishing(n: nat)
    | Doomed(n: nat)
    | Ended

  predicate InBatch(p: Phase) {
    p.Requested? || p.Waiting? || p.Approved? || p.Refused? || p.Started?
  }

  /** The call at hand. */
  predicate At(p: Phase, turn: nat, call: Call) {
    InBatch(p) && p.k < |p.calls| && turn == p.n && call == p.calls[p.k]
  }

  predicate MayFail(p: Phase) {
    p.Between? || p.Batch? || p.Requested? || p.Waiting? || p.Doomed?
  }

  function Next(p: Phase, e: AgentEvent): Option<Phase> {
    match e
    case ExecutionStarted(_) => if p.Idle? then Some(Between(0)) else None
    case TurnStarted(i) => if p.Between? && i == p.n + 1 then Some(TurnOpen(i)) else None
    case ModelStarted(i) => if p.TurnOpen? && i == p.n then Some(Asking(i)) else None
    case ModelCompleted(i, calls) => if p.Asking? && i == p.n then Some(Batch(i, calls, 0)) else None
    case ModelFailed(i) => if p.Asking? && i == p.n then Some(Doomed(i)) else None
    case ToolRequested(i, c) =>
      if p.Batch? && i == p.n && p.k < |p.calls| && c == p.calls[p.k] then Some(Requested(i, p.calls, p.k)) else None
    case ToolStarted(i, c, effect, fp) =>
      if !At(p, i, c) then None
      else if p.Requested? && effect == Allow then Some(Started(i, p.calls, p.k))
      else if p.Approved? && effect == Ask && fp == p.fingerprint then Some(Started(i, p.calls, p.k))
      else None
    case ToolCompleted(i, c, _) => if At(p, i, c) && p.Started? then Some(Batch(i, p.calls, p.k + 1)) else None
    case ToolFailed(i, c, _, recoverable, _) =>
      if !At(p, i, c) || p.Waiting? || p.Approved? then None
      else if recoverable then Some(Batch(i, p.calls, p.k + 1))
      else Some(Doomed(i))
    case ApprovalRequested(i, c, fp) => if At(p, i, c) && p.Requested? then Some(Waiting(i, p.calls, p.k, fp)) else None
    case ApprovalResolved(i, c, fp, yes) =>
      if !At(p, i, c) || !p.Waiting? || fp != p.fingerprint then None
      else if yes then Some(Approved(i, p.calls, p.k, fp)) else Some(Refused(i, p.calls, p.k))
    case TurnCompleted(i) =>
      if p.Batch? && i == p.n && p.k == |p.calls| then Some(if p.calls == [] then Finishing(i) else Between(i))
      else None
    case ExecutionCompleted(_) => if p.Finishing? then Some(Ended) else None
    case ExecutionFailed(_) => if MayFail(p) then Some(Ended) else None
  }

  lemma NothingAfterTheEnd(e: AgentEvent)
    ensures Next(Ended, e) == None
  {}

  // The transitions one by one.

  lemma NextFailed(p: Phase, f: Failure)
    requires MayFail(p)
    ensures Next(p, ExecutionFailed(f)) == Some(Ended)
  {}

  lemma NextRequested(n: nat, calls: seq<Call>, k: nat)
    requires k < |calls|
    ensures Next(Batch(n, calls, k), ToolRequested(n, calls[k])) == Some(Requested(n, calls, k))
  {}

  lemma NextStarted(n: nat, calls: seq<Call>, k: nat, fp: string)
    requires k < |calls|
    ensures Next(Requested(n, calls, k), ToolStarted(n, calls[k], Allow, fp)) == Some(Started(n, calls, k))
    ensures Next(Approved(n, calls, k, fp), ToolStarted(n, calls[k], Ask, fp)) == Some(Started(n, calls, k))
  {}

  lemma NextCompleted(n: nat, calls: seq<Call>, k: nat, content: string)
    requires k < |calls|
    ensures Next(Started(n, calls, k), ToolCompleted(n, calls[k], content)) == Some(Batch(n, calls, k + 1))
  {}

  lemma NextToolFailed(p: Phase, n: nat, calls: seq<Call>, k: nat, stage: Stage, recoverable: bool, message: string)
    requires k < |calls|
    requires p == Requested(n, calls, k) || p == Started(n, calls, k) || p == Refused(n, calls, k)
    ensures Next(p, ToolFailed(n, calls[k], stage, recoverable, message))
            == Some(if recoverable then Batch(n, calls, k + 1) else Doomed(n))
  {}

  lemma NextApproval(n: nat, calls: seq<Call>, k: nat, fp: string, yes: bool)
    requires k < |calls|
    ensures Next(Requested(n, calls, k), ApprovalRequested(n, calls[k], fp)) == Some(Waiting(n, calls, k, fp))
    ensures Next(Waiting(n, calls, k, fp), ApprovalResolved(n, calls[k], fp, yes))
            == Some(if yes then Approved(n, calls, k, fp) else Refused(n, calls, k))
  {}

  lemma NextTurn(n: nat, calls: seq<Call>)
    ensures Next(Between(n), TurnStarted(n + 1)) == Some(TurnOpen(n + 1))
    ensures Next(TurnOpen(n), ModelStarted(n)) == Some(Asking(n))
    ensures Next(Asking(n), ModelFailed(n)) == Some(Doomed(n))
    ensures Next(Asking(n), ModelCompleted(n, calls)) == Some(Batch(n, calls, 0))
    ensures Next(Batch(n, calls, |calls|), TurnCompleted(n)) == Some(if calls == [] then Finishing(n) else Between(n))
  {}

  lemma NextFinished(n: nat, s: Summary)
    ensures Next(Finishing(n), ExecutionCompleted(s)) == Some(Ended)
  {}

  function Run(t: seq<AgentEvent>): Option<Phase> {
    if t == [] then Some(Idle)
    else
      match Run(t[..|t| - 1])
      case None => None
      case Some(p) => Next(p, t[|t| - 1])
  }

  lemma RunAppend(t: seq<AgentEvent>, e: AgentEvent)
    ensures Run(t + [e]) == match Run(t) case None => None case Some(p) => Next(p, e)
  {
    assert (t + [e])[..|t + [e]| - 1] == t;
  }

  lemma {:induction false} RunPrefix(t: seq<AgentEvent>, i: nat)
    requires Run(t).Some? && i <= |t|
    ensures Run(t[..i]).Some?
  {
    if i < |t| {
      RunPrefix(t[..|t| - 1], i);
      assert t[..|t| - 1][..i] == t[..i];
    } else {
      assert t[..i] == t;
    }
  }

  /** Every accepted trace has accepted prefixes linked by the transition function. */
  lemma RunStep(t: seq<AgentEvent>, i: nat)
    requires Run(t).Some? && i < |t|
    ensures Run(t[..i]).Some? && Run(t[..i + 1]) == Next(Run(t[..i]).value, t[i]) && Run(t[..i + 1]).Some?
  {
    RunPrefix(t, i);
    RunPrefix(t, i + 1);
    assert t[..i + 1][..i] == t[..i];
  }

  // ---- what an accepted trace looks like ------------------------------------------------------------------------

  lemma TerminalEnds(p: Phase, e: AgentEvent)
    requires Next(p, e).Some?
    ensures Terminal(e) ==> Next(p, e) == Some(Ended)
    ensures p != Ended && Next(p, e) != Some(Idle)
    ensures e.ExecutionStarted? <==> p.Idle?
  {}

  lemma {:induction false} NeverIdleAgain(t: seq<AgentEvent>, i: nat)
    requires Run(t).Some? && 0 < i <= |t|
    ensures Run(t[..i]) != Some(Idle)
  {
    RunStep(t, i - 1);
    TerminalEnds(Run(t[..i - 1]).value, t[i - 1]);
  }

  /**
   A terminal event is the last one, and there is at most one; the start is the first one, and there is at most
   one.
   */
  lemma {:induction false} TerminalIsLast(t: seq<AgentEvent>, i: nat)
    requires Run(t).Some? && i < |t|
    ensures Terminal(t[i]) ==> i == |t| - 1 && Run(t) == Some(Ended)
    ensures t[i].ExecutionStarted? <==> i == 0
  {
    assert Run(t[..0]) == Some(Idle);
    hide Run, Next;
    RunStep(t, i);
    TerminalEnds(Run(t[..i]).value, t[i]);
    if i > 0 {
      NeverIdleAgain(t, i);
    }
    if i + 1 < |t| {
      RunStep(t, i + 1);
      TerminalEnds(Run(t[..i + 1]).value, t[i + 1]);
    } else {
      assert t[..i + 1] == t;
    }
  }

  /** An accepted trace that has ended carries exactly one terminal event, its last. */
  lemma {:induction false} EndedHasTerminal(t: seq<AgentEvent>)
    requires Run(t) == Some(Ended)
    ensures t != [] && Terminal(Last(t))
  {
    var n := |t|;
    if n > 0 {
      RunStep(t, n - 1);
      assert t[..n] == t;
    }
  }

  /** A call that policy wants approved starts only right after an approving resolution with its own fingerprint. */
  lemma {:induction false} AskStartsOnlyApproved(t: seq<AgentEvent>, i: nat)
    requires Run(t).Some? && i < |t| && t[i].ToolStarted? && t[i].effect != Allow
    ensures i > 0 && t[i - 1] == ApprovalResolved(t[i].turn, t[i].call, t[i].fingerprint, true)
  {
    NothingRuns();
    hide Run, Next, At;
    RunStep(t, i);
    assert t[..0] == [];
    var e := t[i];
    AskNeedsApproved(Run(t[..i]).value, e);
    assert i > 0;
    RunStep(t, i - 1);
    OnlyApprovalLeads(Run(t[..i - 1]).value, t[i - 1], e);
  }

  lemma NothingRuns()
    ensures Run([]) == Some(Idle)
  {}

  lemma AskNeedsApproved(p: Phase, e: AgentEvent)
    requires Next(p, e).Some? && e.ToolStarted? && e.effect != Allow
    ensures p.Approved?
  {}

  lemma OnlyApprovalLeads(p: Phase, first: AgentEvent, e: AgentEvent)
    requires Next(p, first).Some? && Next(p, first).value.Approved? && Next(Next(p, first).value, e).Some?
    requires e.ToolStarted? && e.effect != Allow
    ensures first == ApprovalResolved(e.turn, e.call, e.fingerprint, true)
  {}

  // ---- projections ----------------------------------------------------------------------------------------------

  /**
   The turns started, the model calls resolved, the calls the model asked for, those requested and those settled,
   the ids of the calls that completed without an error, and the approvals.
   */
  datatype Ledger = Ledger(started: seq<nat>, resolved: seq<nat>, asked: seq<(nat, Call)>, requested: seq<(nat, Call)>,
                           settled: seq<(nat, Call)>, completed: seq<string>, approved: set<(string, string)>)

  function Tagged(n: nat, calls: seq<Call>): (r: seq<(nat, Call)>)
    ensures |r| == |calls| && forall i :: 0 <= i < |r| ==> r[i] == (n, calls[i])
  {
    seq(|calls|, i requires 0 <= i < |calls| => (n, calls[i]))
  }

  function Entered(l: Ledger, e: AgentEvent): Ledger {
    match e
    case TurnStarted(i) => l.(started := l.started + [i])
    case ModelCompleted(i, calls) => l.(resolved := l.resolved + [i], asked := l.asked + Tagged(i, calls))
    case ModelFailed(i) => l.(resolved := l.resolved + [i])
    case ToolRequested(i, c) => l.(requested := l.requested + [(i, c)])
    case ToolCompleted(i, c, _) => l.(settled := l.settled + [(i, c)], completed := l.completed + [c.id])
    case ToolFailed(i, c, _, _, _) => l.(settled := l.settled + [(i, c)])
    case ApprovalResolved(_, c, fp, yes) => if yes then l.(approved := l.approved + {(c.id, fp)}) else l
    case _ => l
  }

  function Ledgered(t: seq<AgentEvent>): Ledger {
    if t == [] then Ledger([], [], [], [], [], [], {}) else Entered(Ledgered(t[..|t| - 1]), t[|t| - 1])
  }

  lemma LedgerAppend(t: seq<AgentEvent>, e: AgentEvent)
    ensures Ledgered(t + [e]) == Entered(Ledgered(t), e)
  {
    assert (t + [e])[..|t + [e]| - 1] == t;
  }

  /** The turns opened, the recoverable tool errors, and those since a call last completed. */
  datatype Counts = Counts(turns: nat, errors: nat, streak: nat)

  function CountsAfter(c: Counts, e: AgentEvent): Counts {
    match e
    case TurnStarted(_) => c.(turns := c.turns + 1)
    case ToolCompleted(_, _, _) => c.(streak := 0)
    case ToolFailed(_, _, _, recoverable, _) => if recoverable then Counts(c.turns, c.errors + 1, c.streak + 1) else c
    case _ => c
  }

  function CountsIn(t: seq<AgentEvent>): Counts {
    if t == [] then Counts(0, 0, 0) else CountsAfter(CountsIn(t[..|t| - 1]), t[|t| - 1])
  }

  lemma CountsAppend(t: seq<AgentEvent>, e: AgentEvent)
    ensures CountsIn(t + [e]) == CountsAfter(CountsIn(t), e)
  {
    assert (t + [e])[..|t + [e]| - 1] == t;
  }

  /** The error result for a refused or failed call; a denial is passed on as it is. */
  function ErrorResult(id: string, stage: Stage, message: string): ToolResult {
    ToolResult(id, if stage.Approving? then message else "Tool error: " + message, true)
  }

  /** What an event that settles a call means for the model. */
  function ResultOf(e: AgentEvent): Option<ToolResult> {
    match e
    case ToolCompleted(_, c, content) => Some(ToolResult(c.id, content, false))
    case ToolFailed(_, c, stage, recoverable, message) =>
      if recoverable then Some(ErrorResult(c.id, stage, message)) else None
    case _ => None
  }

  function ResultList(e: AgentEvent): seq<ToolResult> {
    if ResultOf(e).Some? then [ResultOf(e).value] else []
  }

  /** The results that a trace reports, in order. */
  function Results(t: seq<AgentEvent>): seq<ToolResult> {
    if t == [] then [] else Results(t[..|t| - 1]) + ResultList(t[|t| - 1])
  }

  lemma ResultsAppend(t: seq<AgentEvent>, e: AgentEvent)
    ensures Results(t + [e]) == Results(t) + ResultList(e)
  {
    assert (t + [e])[..|t + [e]| - 1] == t;
  }

  function UpTo(n: nat): (s: seq<nat>)
    ensures |s| == n
  {
    seq(n, i requires 0 <= i < n => i + 1)
  }

  /**
   Turn numbers are 1..n, each resolved at most once and all but the last one resolved; requests follow the model's
   calls; settlements follow requests.
   */
  ghost predicate RegularLedger(l: Ledger) {
    && l.started == UpTo(|l.started|) && l.resolved == UpTo(|l.resolved|)
    && |l.resolved| <= |l.started| <= |l.resolved| + 1
    && l.settled <= l.requested <= l.asked && |l.requested| <= |l.settled| + 1
  }

  /** The same, exactly, for each phase. */
  ghost predicate Tally(l: Ledger, p: Phase) {
    match p
    case Ended => |l.started| == |l.resolved|
    case Doomed(n) => |l.started| == |l.resolved| == n
    case Idle => l.started == l.resolved == [] && l.settled == l.requested == l.asked
    case Between(n) => |l.started| == |l.resolved| == n && l.settled == l.requested == l.asked
    case Finishing(n) => |l.started| == |l.resolved| == n && l.settled == l.requested == l.asked
    case TurnOpen(n) => |l.started| == n == |l.resolved| + 1 && l.settled == l.requested == l.asked
    case Asking(n) => |l.started| == n == |l.resolved| + 1 && l.settled == l.requested == l.asked
    case Batch(n, calls, k) =>
      && |l.started| == |l.resolved| == n && k <= |calls|
      && l.requested == l.settled && l.asked == l.settled + Tagged(n, calls)[k..]
    case _ =>
      && |l.started| == |l.resolved| == p.n && p.k < |p.calls|
      && l.requested == l.settled + [(p.n, p.calls[p.k])] && l.asked == l.settled + Tagged(p.n, p.calls)[p.k..]
  }

  lemma TallyTurn(l: Ledger, p: Phase, e: AgentEvent)
    requires RegularLedger(l) && Tally(l, p) && Next(p, e).Some?
    requires e.TurnStarted? || e.ModelStarted? || e.ModelFailed?
    ensures RegularLedger(Entered(l, e)) && Tally(Entered(l, e), Next(p, e).value)
  {}

  lemma TallyReply(l: Ledger, p: Phase, e: AgentEvent)
    requires RegularLedger(l) && Tally(l, p) && Next(p, e).Some? && e.ModelCompleted?
    ensures RegularLedger(Entered(l, e)) && Tally(Entered(l, e), Next(p, e).value)
  {}

  lemma TallyRequest(l: Ledger, p: Phase, e: AgentEvent)
    requires RegularLedger(l) && Tally(l, p) && Next(p, e).Some? && e.ToolRequested?
    ensures RegularLedger(Entered(l, e)) && Tally(Entered(l, e), Next(p, e).value)
  {}

  lemma TallyComplete(l: Ledger, p: Phase, e: AgentEvent)
    requires RegularLedger(l) && Tally(l, p) && Next(p, e).Some? && e.ToolCompleted?
    ensures RegularLedger(Entered(l, e)) && Tally(Entered(l, e), Next(p, e).value)
  {}

  lemma TallyFail(l: Ledger, p: Phase, e: AgentEvent)
    requires RegularLedger(l) && Tally(l, p) && Next(p, e).Some? && e.ToolFailed?
    ensures RegularLedger(Entered(l, e)) && Tally(Entered(l, e), Next(p, e).value)
  {}

  lemma TallyQuiet(l: Ledger, p: Phase, e: AgentEvent)
    requires RegularLedger(l) && Tally(l, p) && Next(p, e).Some?
    requires e.ToolStarted? || e.ApprovalRequested? || e.ApprovalResolved? || e.ExecutionStarted? || e.TurnCompleted?
             || Terminal(e)
    ensures RegularLedger(Entered(l, e)) && Tally(Entered(l, e), Next(p, e).value)
  {}

  lemma TallyStep(l: Ledger, p: Phase, e: AgentEvent)
    requires RegularLedger(l) && Tally(l, p) && Next(p, e).Some?
    ensures RegularLedger(Entered(l, e)) && Tally(Entered(l, e), Next(p, e).value)
  {
    hide RegularLedger, Tally, Next, Entered;
    if e.TurnStarted? || e.ModelStarted? || e.ModelFailed? {
      TallyTurn(l, p, e);
    } else if e.ModelCompleted? {
      TallyReply(l, p, e);
    } else if e.ToolRequested? {
      TallyRequest(l, p, e);
    } else if e.ToolCompleted? {
      TallyComplete(l, p, e);
    } else if e.ToolFailed? {
      TallyFail(l, p, e);
    } else {
      TallyQuiet(l, p, e);
    }
  }

  /** Every accepted trace is regular. */
  lemma {:induction false} AcceptedIsRegular(t: seq<AgentEvent>)
    requires Run(t).Some?
    ensures RegularLedger(Ledgered(t)) && Tally(Ledgered(t), Run(t).value)
  {
    if t != [] {
      var u := t[..|t| - 1];
      AcceptedIsRegular(u);
      hide RegularLedger, Tally, Next, Entered;
      TallyStep(Ledgered(u), Run(u).value, t[|t| - 1]);
    }
  }

  /** Unless a turn has just been opened, every opened turn is resolved. */
  lemma {:induction false} OpenedIsResolved(t: seq<AgentEvent>)
    requires Run(t).Some?
    ensures var p := Run(t).value;
            if p.TurnOpen? || p.Asking? then Ledgered(t).started == Ledgered(t).resolved + [p.n]
            else Ledgered(t).started == Ledgered(t).resolved
  {
    AcceptedIsRegular(t);
  }

  /** At this point the user says yes to this call with this fingerprint. */
  ghost predicate SaysYes(t: seq<AgentEvent>, i: int, id: string, fingerprint: string) {
    && 0 <= i < |t| && t[i].ApprovalResolved? && t[i].approved
    && t[i].call.id == id && t[i].fingerprint == fingerprint
  }

  /** The ledger's approvals are those that the user gave. */
  lemma {:induction false} ApprovedByUser(t: seq<AgentEvent>, id: string, fingerprint: string)
    ensures (id, fingerprint) in Ledgered(t).approved <==> exists i :: SaysYes(t, i, id, fingerprint)
  {
    if t != [] {
      var u, last := t[..|t| - 1], |t| - 1;
      ApprovedByUser(u, id, fingerprint);
      assert Ledgered(t) == Entered(Ledgered(u), t[last]);
      hide Ledgered;
      if i :| SaysYes(u, i, id, fingerprint) {
        assert SaysYes(t, i, id, fingerprint);
      }
      if i :| SaysYes(t, i, id, fingerprint) {
        assert i < last ==> SaysYes(u, i, id, fingerprint);
      }
      assert (id, fingerprint) in Entered(Ledgered(u), t[last]).approved
             <==> (id, fingerprint) in Ledgered(u).approved || SaysYes(t, last, id, fingerprint);
    }
  }

  // ---- call ids -------------------------------------------------------------------------------------------------

  ghost predicate DistinctIds(calls: seq<(nat, Call)>) {
    forall i, j :: 0 <= i < j < |calls| ==> calls[i].1.id != calls[j].1.id
  }

  /** The model chooses the ids: no id is requested twice exactly if the model asked for none twice so far. */
  lemma IdsRepeatIffAsked(t: seq<AgentEvent>)
    requires Run(t).Some?
    ensures var l := Ledgered(t);
            && |l.requested| <= |l.asked| && |l.settled| <= |l.asked|
            && (DistinctIds(l.requested) <==> DistinctIds(l.asked[..|l.requested|]))
            && (DistinctIds(l.settled) <==> DistinctIds(l.asked[..|l.settled|]))
  {
    AcceptedIsRegular(t);
    var l := Ledgered(t);
    assert l.requested == l.asked[..|l.requested|] && l.settled == l.asked[..|l.settled|];
  }

  const MISSING: Call := Call("id", "missing tool", "")
  const PRESENT: Call := Call("id", "tool", "")

  /** A turn that repeats an id: the first call fails before it is recorded, the second one runs. */
  const REPEATED: seq<AgentEvent> := [
    ExecutionStarted("task"), TurnStarted(1), ModelStarted(1), ModelCompleted(1, [MISSING, PRESENT]),
    ToolRequested(1, MISSING), ToolFailed(1, MISSING, Preparing, true, "unknown"),
    ToolRequested(1, PRESENT), ToolStarted(1, PRESENT, Allow, "fingerprint"), ToolCompleted(1, PRESENT, "done")]

  /** So one id may be requested and settled twice in one accepted trace. */
  lemma RepeatedIdIsAccepted()
    ensures Run(REPEATED) == Some(Batch(1, [MISSING, PRESENT], 2))
    ensures Ledgered(REPEATED).requested == Ledgered(REPEATED).settled == [(1, MISSING), (1, PRESENT)]
    ensures !DistinctIds(Ledgered(REPEATED).requested) && !DistinctIds(Ledgered(REPEATED).settled)
  {
    var calls := [MISSING, PRESENT];
    assert REPEATED[..0] == [] && REPEATED[..9] == REPEATED;
    RepeatedOpens();
    RepeatedSettles();
    var twice := [(1, MISSING), (1, PRESENT)];
    assert twice[0].1.id == twice[1].1.id;
  }

  lemma RepeatedOpens()
    ensures Run(REPEATED[..4]) == Some(Batch(1, [MISSING, PRESENT], 0))
    ensures Ledgered(REPEATED[..4]).requested == Ledgered(REPEATED[..4]).settled == []
  {
    var t := REPEATED;
    assert t[..0] == [];
    hide Ledgered;
    Advance(t, 0);
    Advance(t, 1);
    Advance(t, 2);
    Advance(t, 3);
    hide Run;
    assert Ledgered([]).requested == [] && Ledgered([]).settled == [] by { NothingLedgered(); }
  }

  lemma NothingLedgered()
    ensures Ledgered([]).requested == [] && Ledgered([]).settled == []
  {}

  lemma RepeatedSettles()
    requires Run(REPEATED[..4]) == Some(Batch(1, [MISSING, PRESENT], 0))
    requires Ledgered(REPEATED[..4]).requested == Ledgered(REPEATED[..4]).settled == []
    ensures Run(REPEATED[..9]) == Some(Batch(1, [MISSING, PRESENT], 2))
    ensures Ledgered(REPEATED[..9]).requested == Ledgered(REPEATED[..9]).settled == [(1, MISSING), (1, PRESENT)]
  {
    var t, calls := REPEATED, [MISSING, PRESENT];
    hide Run, Ledgered, Next;
    Advance(t, 4);
    NextRequested(1, calls, 0);
    Advance(t, 5);
    NextToolFailed(Requested(1, calls, 0), 1, calls, 0, Preparing, true, "unknown");
    Advance(t, 6);
    NextRequested(1, calls, 1);
    Advance(t, 7);
    NextStarted(1, calls, 1, "fingerprint");
    Advance(t, 8);
    NextCompleted(1, calls, 1, "done");
  }

  lemma Advance(t: seq<AgentEvent>, i: nat)
    requires i < |t|
    ensures Run(t[..i + 1]) == match Run(t[..i]) case None => None case Some(p) => Next(p, t[i])
    ensures Ledgered(t[..i + 1]) == Entered(Ledgered(t[..i]), t[i])
  {
    RunAppend(t[..i], t[i]);
    LedgerAppend(t[..i], t[i]);
    assert t[..i] + [t[i]] == t[..i + 1];
  }
}
