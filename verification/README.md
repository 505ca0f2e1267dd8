# imece collaboration and agent runtime: a verified model

This project models the parts of imece whose promises only follow from reasoning over whole runs, and proves those
promises with Dafny 4.11. `dafny verify dfyconfig.toml` checks everything.

| part of the system | files |
|---|---|
| Shared pieces: results, string order, splitting and joining, paths | `Common`, `StringOrder`, `Text`, `Paths` |
| Git objects, the hub as a state machine, every interleaving of clients | `GitObjects`, `HubModel`, `HubRuns`, `Discipline` |
| The client store, proposal publication, the coordinator | `Publication`, `GitStoreModel`, `ProposalPublication`, `CoordinatorModel`, `LostUpdate`, `SessionModel`, `Ids` |
| Replay pages, the inbox with its durable cursor, end-to-end delivery | `Replay`, `Consumer`, `Delivery` |
| The event stream on the wire | `EventStream`, `StreamLines`, `StreamRoundTrip`, `StreamLimits`, `StreamServer`, `StreamDelivery`, `StreamOverflow` |
| Safe points and the host's run session | `SafePointModel`, `HostModel` |
| The agent session loop and its event trace | `AgentTrace`, `AgentSessionModel` |
| Candidate assembly | `CandidateMerge`, `FinalSet`, `Fingerprint` |
| Change capture, context selection, the JSON depth guard | `ChangeCapture`, `DiffHunk`, `ContextSelection`, `JsonDepth` |

How the source is represented:

- **Concurrency.** The hub is a map of immutable commits plus refs. An operation of a store is a method whose single
  atomic effects are separated by `Interfere`, in which all other clients take any number of hub steps. Each method also
  proves that its own effects are hub steps, so the run theorems apply to every mixture of operations.
- **Commits.** An id that is not 40 hexadecimal digits, or that already names another commit, is a failed `git commit-tree`.
- **A push** is accepted if and only if the pushed commit is the current head or descends from it; an atomic push moves both
  refs or neither.
- **Oracles.** The model, the tools, the event sink, cancellation, the snapshot provider, clocks, retries and failing I/O
  are arbitrary choices; contracts hold for all of them. Where a result depends on the own Git working, on the network or on
  losing a race for the mirror, these are parameters, so that contracts say exactly when an operation succeeds. `merge3`,
  `casefold`, hashes, blob ids and the JSON reader are function parameters. Where a proof needs a hash without collisions, or
  a parser that understands the printer, that is a visible hypothesis; `StreamLimits.AReaderExists` shows that the latter is
  met by a parser with the size cap, the id rules and the list of codes of the source.
- **State that the source mutates** is a class with the same fields (`HubRepo`, `GitStore`, `RevisionConsumer`,
  `NativeWorkerSafePoint`, `NativeRunCollaboration`, `AgentSession`, `Walk`); loops stay loops, proved against functions or
  predicates about which the lemmas speak.

## What turned out not to hold

1. *A failed publication leaves the hub unchanged* is true unless the answer is lost: it fails if and only if the push
   reached the hub while the head was still the replaced one and the answer did not come back
   (`Publication.FailureChangesHubIff`, `ProposalPublication.FailedProposalChangesHubIff`).
   `LostUpdate.AnswerLostAfterAcceptedPush` is a concrete instance.
2. *`update_context` and `upsert_task` never lose an update* holds for every expected revision that is published when the call
   starts. For one that first appears between the two fetches, success is the expected state with one edit if and only if
   that state and the one read first agree in everything the edit does not set, however many revisions and proposals lie
   between (`LostUpdate.UnpublishedExpectedOverwrites`, and in the contracts of both operations).
   `LostUpdate.TaskLostWhenExpectedIsNew` and `LostUpdate.ContextLostWhenExpectedIsNew` are concrete runs of each.
3. *The stream carries every revision* holds if and only if the JSON of the event is within 65536 bytes, which is its quoted
   task ids taking at most 65373 bytes, one less if the context did not change (`StreamLimits.CarriedIffFits`). Any 499 tasks
   fit (`StreamLimits.FourHundredNinetyNineTasksFit`); 500 tasks with the longest ids do not
   (`StreamLimits.FiveHundredLongIdsAreNotCarried`). `StreamOverflow.PublishedButNotCarried` is a legal hub step between two
   states of 250 tasks each that makes such a revision. The connection then ends in a protocol error each time it reaches that
   revision (`Delivery.TooLargeNeverPasses`). Only a raw `publish` can make one: `StreamLimits.EditIsCarried` covers every edit
   of the coordinator and the store.
4. *Change capture reports every changed path* fails if and only if a committed symbolic link has a target that is not valid
   UTF-8 and the current link is what lossy decoding made of it (`ChangeCapture.ReportedUnlessLossy`);
   `ChangeCapture.ReplacedLinkIsMissed` is the concrete case.
5. *A tool call id is requested and settled at most once* holds if and only if the model repeats no id
   (`AgentTrace.IdsRepeatIffAsked`); `AgentTrace.RepeatedIdIsAccepted` shows that the grammar of the trace accepts one id
   requested and settled twice. It is a trace and not a run of `AgentSession`, whose dispatcher records a call only once it has
   prepared it, so that a first call that fails earlier leaves the id free. What always holds is that an id completes without
   an error at most once (`AgentSessionModel.EverySession`) and that an id the dispatcher knows never runs again
   (`AgentSessionModel.AgentSession.RunCall`).

## Model

| member | source | states |
|---|---|---|
| `Ids.IdsSay` | collab_runtime/models.py:78-90 | commit ids are 40 lower-case hexadecimal digits, other ids 1 to 128 of the listed characters |
| `GitObjects.ChainUnique` | collab_runtime/store.py:502-532 | a commit has exactly one first-parent chain to a root |
| `GitObjects.FindAncestor` | collab_runtime/store.py:431-435 | the parent walk answers exactly whether a revision is an ancestor |
| `HubModel.ChildPush` | collab_runtime/store.py:563-576 | a child of a published revision is accepted only while the head is its parent or itself |
| `HubModel.ActionKeeps` | collab_runtime/store.py:563-591 | every action keeps the hub invariant, only extends the history, and adds at most one revision |
| `HubRuns.RunKeeps` | collab_runtime/store.py:363-409 | the invariant holds in every state of every interleaving |
| `HubRuns.HistoryLinearizes` | collab_runtime/store.py:380-409 | in every run the history is one chain of distinct revisions with one identity, and a prefix of every later history |
| `HubRuns.ProposalsAreAtomic` | collab_runtime/proposals.py:766-805 | every proposal ref keeps one root for ever, has exactly one companion in the history, and no companion lacks its ref |
| `HubRuns.ProposalCreatedWithCompanion` | collab_runtime/store.py:578-591 | a ref appears in the very step that makes its companion, a child of the head with the head's state and context hash, the new head |
| `Discipline.Sandwich` | collab_runtime/proposals.py:766-805 | equal heads at two moments mean the same head and the same proposal refs in between |
| `Discipline.DoubleFetch` | collab_runtime/store.py:411-427 | a revision published before the call and seen by the second fetch was also the head at the first |
| `Discipline.TasksNameEarlierRevisions` | collab_runtime/coordinator.py:222-301 | in runs of task-free init, edits and proposals every task names a strictly earlier revision of its history |
| `GitStoreModel.HubRepo.PushSession` | collab_runtime/store.py:563-576 | the hub moves exactly if the push reaches it as a fast-forward; the client is told exactly if the answer comes back |
| `GitStoreModel.HubRepo.TakeAtomic` | collab_runtime/store.py:578-591 | both refs move or neither does |
| `GitStoreModel.GitStore.CasRef` | collab_runtime/store.py:679-681 | the mirror moves exactly if it held the expected value |
| `GitStoreModel.GitStore.FetchState` | collab_runtime/store.py:302-327 | succeeds exactly if the fetch works and there is a session; then returns the head and state of one moment during the call |
| `GitStoreModel.GitStore.Settle` | collab_runtime/store.py:398-409 | a failed push never leaves its own commit in the mirror |
| `GitStoreModel.GitStore.Publish` | collab_runtime/store.py:380-409 | a push is tried exactly if nothing refuses the publication, else the caller gets the reason; success is the head with parent `expected`, and result and hub are given exactly by the head met, whether the push arrived and whether the answer did |
| `Publication.RefusalReasons` | collab_runtime/store.py:387-404 | each reason for which a publication ends before its push, if and only if its condition holds: malformed revision, no session, other identity, stale head, state not acceptable, own Git failing, mirror lost |
| `Publication.FailureChangesHubIff` | collab_runtime/store.py:398-409 | a failed publication changes the hub if and only if an accepted push lost its answer |
| `GitStoreModel.GitStore.InitSession` | collab_runtime/store.py:363-378 | pushes a root exactly if the hub is empty, the state acceptable and the own Git works; success makes it the whole history; a failed push does not leave it in the mirror |
| `GitStoreModel.GitStore.UpdateContext` | collab_runtime/store.py:411-414 | for an expected revision published at call time the new state is the expected one with only the context replaced; for any other exactly if the tasks did not change since the first fetch; every refusal has its exact reason |
| `GitStoreModel.GitStore.UpsertTask` | collab_runtime/store.py:416-427 | the same with only that task replaced, else exactly if the context and the other tasks did not change; refused exactly if the task has no published revision or no room, or as a publication is |
| `Publication.SameEditIffAgree` | collab_runtime/store.py:411-427 | one edit of two states gives the same state exactly if they agree in everything the edit does not set |
| `LostUpdate.UnpublishedExpectedOverwrites` | collab_runtime/store.py:411-427 | with any number of revisions between the fetches, what they published survives if and only if they left everything outside the edit as it was |
| `LostUpdate.TaskLostWhenExpectedIsNew` | collab_runtime/store.py:411-414 | a concrete run of `update_context` in which a task disappears |
| `LostUpdate.ContextLostWhenExpectedIsNew` | collab_runtime/store.py:416-427 | a concrete run of `upsert_task` in which a published context is replaced by the older one |
| `LostUpdate.AnswerLostAfterAcceptedPush` | collab_runtime/store.py:563-576 | a concrete push that the hub takes and the client reports as failed |
| `ProposalPublication.CheckProposal` | collab_runtime/proposals.py:732-763 | accepts exactly if the head is expected and the recorded provenance reproduces the history; stale exactly if the head moved or the context or task was superseded |
| `ProposalPublication.PublishProposal` | collab_runtime/proposals.py:766-805 | a push is tried exactly if the check passes, the id is free and the own Git works, else the exact error; success publishes root and companion together on `expected`; result and hub are given exactly; a failed push does not leave its companion in the mirror |
| `ProposalPublication.FailedProposalChangesHubIff` | collab_runtime/proposals.py:797-804 | a failed proposal publication changes the hub if and only if an accepted push lost its answer |
| `CoordinatorModel.Coordinator.UpdateContext` | collab_runtime/coordinator.py:222-236 | only the owner ever changes the hub, answer or no answer: the head is then expected with only the context replaced; every refusal has its exact reason |
| `CoordinatorModel.Coordinator.UpdateTaskStatus` | collab_runtime/coordinator.py:238-273 | the hub changes, answer or no answer, only in the status of one existing task, by its owner or the session owner; denied and refused exactly for the stated reasons |
| `CoordinatorModel.Coordinator.CreateTask` | collab_runtime/coordinator.py:275-301 | only the owner ever changes the hub, answer or no answer: one new queued task that names `expected`; refused as existing or for capacity exactly if the id exists or there is no room |
| `Replay.FirstParentChain` | collab_runtime/store.py:502-532 | the newest 65 revisions of the chain, newest first |
| `Replay.BuildStates` | collab_runtime/store.py:460-500 | a cursor is served if and only if it is among the newest 65 revisions; page and `has_more` are exact |
| `Replay.ReplayEvents` | collab_runtime/coordinator.py:303-327 | served if and only if the cursor is among the newest 65 revisions of the fetched head; a page is exactly the transitions after the cursor in that history |
| `Replay.TransitionSays` | collab_runtime/coordinator.py:318-325 | an event names exactly the tasks that appear, vanish or differ between its two states, in order, and flags the context exactly if it differs |
| `Replay.PageSays` | collab_runtime/coordinator.py:303-327 | a page event by event: the pairs of revisions it joins, the tasks they change, where it ends and whether more follows |
| `Replay.PagesConcatenate` | collab_runtime/coordinator.py:303-327 | following `next` with any limits while the head moves yields exactly the history between the first cursor and the last |
| `Replay.UnnamedTaskUnchanged` | collab_runtime/coordinator.py:303-327 | a task named by no event of a range is identical at both ends |
| `Replay.UnflaggedContextUnchanged` | collab_runtime/coordinator.py:303-327 | the context is identical at both ends if no event flags it |
| `Consumer.AcceptKeepsLinked` | collab_runtime/consumer.py:539-554 | an accepted event extends the linked chain |
| `Consumer.AcceptSays` | collab_runtime/consumer.py:539-554 | taken is exactly a repeat of the newest event or a new successor of received, while there is room |
| `Consumer.AcknowledgeSays` | collab_runtime/consumer.py:338-354 | only consumed or pending revisions can be acknowledged; the first pending one and all before it are dropped |
| `Consumer.AcknowledgeKeepsLinked` | collab_runtime/consumer.py:338-354 | acknowledging removes exactly the prefix up to the revision and keeps the chain |
| `Consumer.InboxAlwaysLinked` | collab_runtime/consumer.py:338-391 | under any server and any host the inbox is a chain of at most 32 distinct revisions from consumed to received |
| `Consumer.RevisionConsumer.TakeEvent` | collab_runtime/consumer.py:539-554 | takes an event exactly as specified, or changes nothing |
| `Consumer.RevisionConsumer.AcknowledgeAtSafePoint` | collab_runtime/consumer.py:338-354 | succeeds exactly if open, the revision consumed or pending, and the checkpoint written; then the revision is durable and it and everything before it is dropped, else nothing changed |
| `Consumer.RevisionConsumer.ResetAtSafePoint` | collab_runtime/consumer.py:378-391 | succeeds exactly if open, of the same session and written; then an empty inbox at the approved revision, else the inbox as it was |
| `Delivery.EventExact` | collab_runtime/consumer.py:338-391 | each step of publish, serve, deliver, cut, acknowledge, crash and reset keeps the inbox exact, with a protocol error only in front of a revision beyond the limits |
| `Delivery.DeliveryIsExact` | collab_runtime/consumer.py:539-554 | in every interleaving the inbox is exactly the hub history after consumed up to received, and the durable cursor is consumed |
| `Delivery.ProtocolErrorMeansTooLarge` | collab_runtime/consumer.py:148-167 | a protocol error means that the revision after received is beyond the limits |
| `Delivery.TooLargeNeverPasses` | collab_runtime/consumer.py:148-167 | in front of such a revision every delivery ends in a protocol error with the inbox unchanged |
| `Delivery.DrainedReachesCursor` | collab_runtime/transport.py:640-696 | once the wire is empty, received is the server's cursor |
| `EventStream.Stream` | collab_runtime/consumer.py:556-604 | the line loop does to the consumer what the feed function says, stop flag included |
| `EventStream.EndFrame` | collab_runtime/consumer.py:586-599 | a complete frame is dispatched by its exact set of fields |
| `EventStream.DispatchSays` | collab_runtime/consumer.py:586-599 | exactly the revision, error and resnapshot frames with their exact fields are understood, anything else is a protocol error |
| `EventStream.RevisionEventSays` | collab_runtime/consumer.py:148-167 | exactly which events are taken from a revision frame: size, ids, their order and number |
| `EventStream.FieldSays` | collab_runtime/consumer.py:573-584 | a field is taken exactly if its name is known and new and no comment came before |
| `StreamLines.FieldsArrive` | collab_runtime/consumer.py:568-584 | field lines cut anywhere are read in full or leave no trace |
| `StreamLines.OversizeArrives` | collab_runtime/consumer.py:565-572 | a frame beyond the limit, cut anywhere, does nothing until it is due and is then refused |
| `StreamRoundTrip.StreamIsExact` | collab_runtime/consumer.py:556-604 | for any frames and any cut, exactly the frames that were due are acted on, in order, until the inbox is full or a revision is beyond the limits |
| `StreamLimits.StopIsACut` | collab_runtime/consumer.py:560-564 | seeing the stop flag leaves the inbox as some cut would |
| `StreamLimits.CarriedIffFits` | collab_runtime/models.py:174-187 | a revision is carried if and only if its quoted ids take at most 65373 bytes, one less without a context change; otherwise the connection ends in a protocol error |
| `StreamLimits.FourHundredNinetyNineTasksFit` | collab_runtime/transport.py:626-639 | any revision that changes at most 499 tasks fits both limits |
| `StreamLimits.EditIsCarried` | collab_runtime/store.py:411-427 | a revision made by one context or task edit is always carried |
| `StreamLimits.FiveHundredLongIdsAreNotCarried` | collab_runtime/consumer.py:148-167 | a valid event with 500 to 512 longest ids ends in a protocol error |
| `StreamOverflow.PublishedButNotCarried` | collab_runtime/store.py:380-409 | two states of 250 longest ids each, one hub step apart and within the limits of the state parser, whose event ends in a protocol error |
| `StreamLimits.ReadEventReads` | collab_runtime/coordinator.py:60-66 | the canonical event text can be read back exactly |
| `StreamLimits.AReaderExists` | collab_runtime/consumer.py:128-167 | a parser that refuses what the source refuses (size, ids, codes) meets the hypothesis of the round trip |
| `StreamServer.TransitionIsWellFormed` | collab_runtime/coordinator.py:303-327 | transitions of published states within the parser's limits pass the consumer's checks |
| `StreamServer.PublishedIsWellStated` | collab_runtime/models.py:346-362 | in every reachable hub the published states obey the parser's limits and the revisions are commit ids |
| `StreamServer.WrittenIsSendable` | collab_runtime/transport.py:626-696 | every frame the server writes about such states is one that the round trip covers |
| `StreamServer.ServeStream` | collab_runtime/transport.py:640-696 | whatever the server writes is the hub history after the cursor, in order, while the hub moves; unless stopped or failed it reaches the head it fetched or writes a full page; only the last frame can be a failure, and a new snapshot is asked for only behind the window |
| `StreamDelivery.DeliverHonest` | collab_runtime/consumer.py:539-554 | the inbox takes as many of an honest server's revisions as can be carried and as it has room for, with a protocol error exactly in front of one that cannot |
| `StreamDelivery.TooLargeIsTheJsonCap` | collab_runtime/models.py:174-187 | among the revisions of a reachable hub only the 65536-byte cap can stop one |
| `StreamDelivery.CutConnection` | collab_runtime/consumer.py:556-604 | a cut connection advances received by exactly the revisions that arrived, could be carried and found room |
| `StreamDelivery.ReconnectingLosesNothing` | collab_runtime/consumer.py:556-604 | after any number of cut connections reopened at received the inbox is still exact |
| `StreamDelivery.ServedToInbox` | collab_runtime/transport.py:640-696 | the wire of the serving loop, cut anywhere, advances the inbox by exactly what arrived and could be taken |
| `StreamDelivery.FollowHub` | collab_runtime/consumer.py:556-604 | server loop and consumer loop together over any number of connections keep the inbox exact while the hub moves, and it has taken what arrived over each of them; nothing is assumed about what was published |
| `SafePointModel.NativeWorkerSafePoint.Cover` | collab_runtime/safe_point.py:211-220 | the covered prefix ends at exactly the snapshot's revision |
| `SafePointModel.NativeWorkerSafePoint.WaitForCover` | collab_runtime/safe_point.py:203-254 | the same after any growth of the inbox while waiting |
| `SafePointModel.NativeWorkerSafePoint.ValidatedSays` | collab_runtime/safe_point.py:134-167 | which snapshots pass, on their fields |
| `SafePointModel.NativeWorkerSafePoint.Prepare` | collab_runtime/safe_point.py:175-268 | acknowledging what it returns means exactly the bound, validated snapshot, whoever else uses the consumer; undisturbed it succeeds exactly if the consumer runs, the snapshot passes and is covered by the inbox, and binding works |
| `SafePointModel.NativeWorkerSafePoint.AcknowledgePrepared` | collab_runtime/safe_point.py:48-63 | the cursor moves to exactly the bound revision or not at all; undisturbed it succeeds exactly if not cancelled, running, still at the captured cursor and written |
| `SafePointModel.NativeWorkerSafePoint.AcceptReset` | collab_runtime/safe_point.py:270-293 | validation first, cursor last: exactly a valid snapshot of this head that binds and persists gives a fresh inbox, else the cursor stays |
| `HostModel.NativeRunCollaboration.Activate` | collab_runtime/host.py:509-587 | exactly when it succeeds: a fresh consumer and safe point for the approved session and task, started unless a reset is approved, or a half-finished activation that stays active without a helper |
| `HostModel.NativeRunCollaboration.Prepare` | collab_runtime/host.py:589-619 | an approved reset is consumed once, from the approval record, and is gone as soon as the cursor has moved; the input carries the current generation; undisturbed it succeeds exactly under the stated conditions, with and without a reset |
| `HostModel.NativeRunCollaboration.Deactivate` | collab_runtime/host.py:630-657 | ends the generation, so inputs prepared in it become stale |
| `HostModel.NativeRunCollaboration.Reapprove` | collab_runtime/host.py:459-492 | replaces the approval exactly while idle and open, for the same session, member and assignment |
| `HostModel.NativeRunCollaboration.AcknowledgeInput` | collab_runtime/host.py:101-105 | after a successful acknowledge in a lasting generation the binding is recorded exactly if the cursor is still at its revision, which it is while no other input moves it; a stale input never records; undisturbed it succeeds exactly under the stated conditions |
| `HostModel.NativeRunCollaboration.RecordAcceptedBinding` | collab_runtime/host.py:423-436 | records exactly under the full guard |
| `AgentTrace.TerminalIsLast` | agent_runtime/session.py:211-221 | a terminal event is single and last; the start is single and first |
| `AgentTrace.AskStartsOnlyApproved` | agent_runtime/session.py:541-564 | a call that needs approval starts only right after an approving resolution with its fingerprint |
| `AgentTrace.ApprovedByUser` | agent_runtime/session.py:270-282 | an approval counts exactly if the user gave it for this id and fingerprint |
| `AgentTrace.IdsRepeatIffAsked` | agent_runtime/session.py:467-539 | ids are requested and settled without repetition if and only if the model repeats none |
| `AgentTrace.RepeatedIdIsAccepted` | agent_runtime/session.py:467-539 | a concrete accepted trace that requests and settles one id twice |
| `AgentTrace.AcceptedIsRegular` | agent_runtime/session.py:269-312 | turns are 1..n, resolved in order, each opened turn of an ended trace once; requests follow the model's calls in order and settle at most once each |
| `AgentTrace.OpenedIsResolved` | agent_runtime/session.py:329-399 | every opened turn is resolved exactly once, except the one whose model call is still running |
| `AgentSessionModel.AgentSession.Emit` | agent_runtime/session.py:201-209 | the trace grows by one event allowed by the grammar, or the session has failed |
| `AgentSessionModel.AgentSession.ExecuteTool` | tool_runtime/dispatcher.py:152-195 | a call runs at most once, only if allowed or approved; what became of it is logged |
| `AgentSessionModel.AgentSession.ExecutePrepared` | agent_runtime/session.py:541-579 | a start is announced only for an allowed or approved call, and the batch advances exactly on success |
| `AgentSessionModel.AgentSession.RunCall` | agent_runtime/session.py:468-534 | one call settles with the result that really became of it, or waits, or fails the session for good; an id the dispatcher knows neither runs nor settles without an error |
| `AgentSessionModel.AgentSession.Respond` | agent_runtime/session.py:329-399 | the mutual recursion terminates and ends in an outcome, a pause or a recorded failure; a limit, backend, protocol, length or refusal failure only for that reason |
| `AgentSessionModel.AgentSession.ProcessTurn` | agent_runtime/session.py:401-418 | a cut-off answer, a refusal and each protocol violation raise their own error, a completed answer finishes with its text, unless the sink fails; only a tool-use turn goes on |
| `AgentSessionModel.AgentSession.ContinueBatch` | agent_runtime/session.py:467-539 | the model is given one result per call of its turn, in order, those already settled included, and each is what the trace reports; no known call runs again |
| `AgentSessionModel.AgentSession.Complete` | agent_runtime/session.py:628-653 | the outcome carries the text of the last turn, the exact counters of the trace, token sums and cost |
| `AgentSessionModel.AgentSession.Start` | agent_runtime/session.py:223-247 | only from the ready state, with this task as the first event and the first input; whatever happens the session invariant holds |
| `AgentSessionModel.AgentSession.Resume` | agent_runtime/session.py:249-315 | a decision for another call, fingerprint or session runs nothing and is refused, unless the run is cancelled; otherwise the user's answer is recorded and followed: after a yes the tool starts, after a no its call fails, never runs, and the model is told so |
| `AgentSessionModel.LoggedReply` | agent_runtime/session.py:610-617 | accounting keeps cost defined exactly if every turn reported one, and equal to the sum |
| `AgentSessionModel.EverySession` | agent_runtime/session.py:604-608 | in every reachable state: limits, the prepared calls are a prefix of the requested ones, batch alignment, cost, the counters are those of the trace, what the model was told is what the trace reports and what happened, every opened turn is resolved once, at most one execution per id and none that was neither allowed nor approved with its fingerprint, terminal event exactly when finished |
| `Paths.AncestorPrefixesExact` | collab_runtime/candidates.py:596-598 | the joined prefixes are exactly what stands before a slash |
| `CandidateMerge.VerifyBeforeIdentities` | collab_runtime/candidates.py:361-382 | accepts exactly if every entry was made against this baseline |
| `CandidateMerge.MergePathChanges` | collab_runtime/candidates.py:431-475 | the loops compute the path outcome |
| `CandidateMerge.TwoEditsMerge` | collab_runtime/candidates.py:460-475 | two different edits of a text baseline become the three-way merge of exactly these contents, or conflict or are unsupported as the tool answers; a binary baseline is unsupported |
| `CandidateMerge.DistinctEditsMerge` | collab_runtime/candidates.py:465-475 | any number of distinct edits: merged one after the other, the first edit first, until one clashes or the tool fails |
| `CandidateMerge.UniqueIsFirstOccurrences` | collab_runtime/candidates.py:448-452 | equal edits count once, at their first occurrence |
| `CandidateMerge.SoleEditIsVerbatim` | collab_runtime/candidates.py:448-454 | one distinct edit is taken verbatim |
| `CandidateMerge.DeletedOnlyByAll` | collab_runtime/candidates.py:441-446 | a path vanishes exactly if every toucher deletes it; a mixture is a conflict |
| `CandidateMerge.DivergentAdditionsConflict` | collab_runtime/candidates.py:455-459 | different additions without a baseline conflict |
| `CandidateMerge.FoldSeparates` | collab_runtime/candidates.py:465-475 | with a baseline a fold conflicts exactly if the contents do; no mode conflict is reachable |
| `CandidateMerge.MergedMode` | collab_runtime/candidates.py:419-428 | the merged mode is the baseline's if and only if every edit keeps it |
| `CandidateMerge.ModeIgnoresOrder` | collab_runtime/candidates.py:419-428 | the merged mode does not depend on the order of the proposals |
| `CandidateMerge.TouchingIs` | collab_runtime/candidates.py:488-491 | the changes of a path are all entries that touch it, in order |
| `CandidateMerge.PathResultSays` | collab_runtime/candidates.py:493-509 | an untouched path keeps the baseline; a touched one gets its merge, unless that is over the size limit |
| `CandidateMerge.MergeChanges` | collab_runtime/candidates.py:478-515 | the result is every path's outcome with untouched paths kept, or exactly all conflicting paths, or an unsupported input |
| `FinalSet.ValidateFinalSet` | collab_runtime/candidates.py:518-551 | one pass accepts exactly the sets within limits in which no file is a directory and case folding keeps all names apart |
| `FinalSet.AncestorComesFirst` | collab_runtime/candidates.py:512-515 | a directory that is also a file sorts before the files in it |
| `Fingerprint.FingerprintRecords` | collab_runtime/candidates.py:601-776 | complete exactly if the tree has no anomaly and fits every budget, and exactly if no marker is recorded; then the records are exactly the kept files |
| `Fingerprint.Walk.Visit` | collab_runtime/candidates.py:701-763 | the same for one directory under any remaining budget; entries never exceed it and exhaustion means incomplete |
| `Fingerprint.OriginalsAreKept` | collab_runtime/candidates.py:629-632 | every original without a `.git` component is kept, even in cache-named directories |
| `Fingerprint.KeptIsByName` | collab_runtime/candidates.py:744-759 | what is kept, on the names alone: no administrative part, no generated cache directory without originals, no generated bytecode |
| `Fingerprint.RecordedIffKeptByName` | collab_runtime/candidates.py:701-763 | every file of the tree, original or added, is recorded exactly if its names keep it |
| `Fingerprint.CleanIffExaminable` | collab_runtime/candidates.py:701-763 | a walk has no anomaly exactly if no examined entry is strange, oversized or too deep |
| `Fingerprint.KeptIsIncluded` | collab_runtime/candidates.py:701-763 | every kept file has its record |
| `Fingerprint.IncludedIsKept` | collab_runtime/candidates.py:701-763 | every record is a kept file of the tree |
| `Fingerprint.EqualDigestsAgree` | collab_runtime/candidates.py:601-776 | equal digests of complete walks mean equal path, mode and content hash of every kept file |
| `ChangeCapture.FastPathIsSound` | change_runtime/git.py:437-444 | equal mode and blob id mean equal sides |
| `ChangeCapture.Capture` | change_runtime/git.py:416-460 | the changed paths are exactly the sorted tracked or untracked paths whose sides differ, one block each |
| `ChangeCapture.ChangedSays` | change_runtime/git.py:416-460 | when a path counts as changed, on the tracked blob and on what is read |
| `ChangeCapture.ReportedUnlessLossy` | change_runtime/git.py:345-351 | a stored difference is reported if and only if it is not hidden by lossy link decoding |
| `ChangeCapture.UnchangedIsNotReported` | change_runtime/git.py:354-369 | where the stored bytes agree nothing is reported |
| `ChangeCapture.ReplacedLinkIsMissed` | change_runtime/git.py:345-351 | a concrete link change that is not reported |
| `ChangeCapture.PairIsRendered` | change_runtime/git.py:372-404 | a pair with something on either side never renders as nothing, so no change is dropped |
| `ChangeCapture.PairOfTexts` | change_runtime/git.py:372-395 | the block of two text sides reads back as the old content first and the new one second |
| `ChangeCapture.ModesSay` | change_runtime/git.py:240-262 | both modes are named only where they differ, the one mode where a side is absent |
| `ChangeCapture.PairOfLinks` | change_runtime/git.py:384-388 | the old link target is named before the new one |
| `ChangeCapture.PairOfKinds` | change_runtime/git.py:376-383 | where a link replaces a file or the reverse, the old side is removed first, then the new one is added |
| `ChangeCapture.TextBlockRoundTrip` | change_runtime/git.py:240-265 | both contents can be read back from the whole text block of a path without a newline |
| `DiffHunk.RenderedRecovers` | change_runtime/git.py:217-222 | lines and newline flag determine the content |
| `DiffHunk.DiffHunkLines` | change_runtime/git.py:225-237 | the loops produce the hunk |
| `DiffHunk.HunkSays` | change_runtime/git.py:225-237 | the header counts both sides, then come the old lines and the new ones with their signs and newline marks |
| `DiffHunk.DecimalReads` | change_runtime/git.py:228 | the decimal numbers of the header stand for the counts |
| `DiffHunk.HunkRoundTrip` | change_runtime/git.py:225-237 | both contents, absence and final newline can be read back from the hunk |
| `ContextSelection.LineWindow` | context_runtime/engine.py:35-43 | sorted, disjoint, non-adjacent ranges that cover exactly the lines near a match, for any matches; none is empty if every match is near an existing line |
| `ContextSelection.CoverSays` | context_runtime/engine.py:35-43 | cover and nearness on the windows and matches themselves, three lines around each match |
| `ContextSelection.CanonicalIsUnique` | context_runtime/engine.py:35-43 | such ranges are determined by what they cover |
| `ContextSelection.BestLexicalLines` | context_runtime/engine.py:284-303 | exactly the 64 best lines by their count of the telling terms, in line order, with an exact omission flag |
| `ContextSelection.BestIsUnique` | context_runtime/engine.py:284-303 | only one selection is the best |
| `ContextSelection.BestSays` | context_runtime/engine.py:284-303 | a selected line has more occurrences than an omitted one, or as many and comes earlier; only 64 are selected |
| `ContextSelection.CountIsReached` | context_runtime/engine.py:293 | as many occurrences as counted lie apart in the line |
| `ContextSelection.CountIsMost` | context_runtime/engine.py:293 | and no larger number does |
| `ContextSelection.SelectedTermsAre` | context_runtime/engine.py:286-287 | counted are the telling terms, or all if none is telling |
| `ContextSelection.PrioritizedWindows` | context_runtime/engine.py:305-317 | all windows, or exactly the sixteen preferred ones |
| `ContextSelection.PreferenceSays` | context_runtime/engine.py:305-317 | windows with an anchor are preferred, then earlier ones; only sixteen are kept |
| `JsonDepth.ValidateJsonDepth` | collab_runtime/models.py:145-166 | the loop accepts exactly what the scanner function accepts |
| `JsonDepth.ScannerAgreesWithTree` | collab_runtime/models.py:137-166 | a canonically printed value is rejected if and only if it nests deeper than 64, whatever its strings hold |

## Left out

- Git subprocesses, file locks, permissions, no-follow opens, sockets and HTTP heads: only their abstract effects are modelled.
- Text validation of scopes, goals and credentials, and the normalisation when a state is parsed again before it is committed: `storable` and `fits` stand for it.
- Authentication: the coordinator receives the principal whose credential matched.
- Wall clocks: the safe-point deadline is a number of polls, back-off and observation intervals are not modelled.
- The exact texts of errors and their cut to 2000 characters, metadata of tool observations, tool arguments and permission requests.
- AgentSessionModel.AgentSession.Complete: costs are added as reals, so floating-point rounding is not modelled.
- AgentSessionModel.AgentSession.Start: a blank task or answer means ASCII white space only.
- StreamOverflow.PublishedButNotCarried: the byte limit of a state is not computed; `storable` and `fits` stand for it.
- EventStream.Stream: acknowledgements by other threads between two lines are not modelled there; `Delivery` interleaves them event by event. Bytes that are not UTF-8 are not modelled.
- StreamLimits.AReaderExists: its parser accepts only canonical text, the real one accepts more.
- SafePointModel.NativeWorkerSafePoint.Prepare: the binder and the check of its rendered text are an arbitrary success or failure.
- Fingerprint.FingerprintRecords: reading a file is one step; races inside one read appear as an anomalous entry.
- CandidateMerge.MergeChanges: size limits of the baseline listing and decoding of proposal files are not modelled.
- ChangeCapture.TextBlockRoundTrip: a path that itself contains a newline is not covered, and blocks of binary files only record digests.
- ContextSelection.BestLexicalLines: the heap is the set of its entries; its layout is not modelled.
- ContextSelection.LineWindow: which empty ranges survive for matches far outside the file is not characterised.
- The other runtimes (`acp_runtime`, `decision_runtime`, `run_runtime`, `workspace`, `fix_runtime`), owner and delivery commands, command-line interfaces, providers and user interface: configuration, thin wrappers or code over libraries that are not modelled.
