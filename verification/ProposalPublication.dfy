/** Proposal publication: collab_runtime/proposals.py, `publish_proposal`. */
module ProposalPublication {
  import opened Common
  import opened SessionModel
  import opened GitObjects
  import opened HubModel
  import opened HubRuns
  import opened Discipline
  import opened Publication
  import opened GitStoreModel

  /** The recorded revision is published, and its state has the recorded context and the recorded task, still there. */
  ghost predicate Recorded(hash: ContextHash, g: Objects, p: Proposal, head: Sha) {
    && HoldsState(g, head) && IsAncestor(g, p.contextRevision, head) && HoldsState(g, p.contextRevision)
    && var historic, live := StateAt(g, p.contextRevision), StateAt(g, head);
       && hash(historic.context) == p.contextHash
       && p.taskId in historic.tasks && p.taskId in live.tasks && historic.tasks[p.taskId].owner == p.owner
  }

  /** The recorded provenance reproduces the published history and the task was not superseded since. */
  ghost predicate ProvenanceHolds(hash: ContextHash, g: Objects, p: Proposal, head: Sha) {
    && Recorded(hash, g, p, head)
    && var historic, live := StateAt(g, p.contextRevision), StateAt(g, head);
       && hash(live.context) == p.contextHash
       && live.tasks[p.taskId].owner == p.owner
       && live.tasks[p.taskId].goal == historic.tasks[p.taskId].goal
       && live.tasks[p.taskId].scopes == historic.tasks[p.taskId].scopes
       && p.sessionId == live.sessionId && p.baseCommit == live.baseCommit
  }

  /** The proposal fits the session but not its present state: the context or the task changed since it was captured. */
  ghost predicate Superseded(hash: ContextHash, g: Objects, p: Proposal, head: Sha)
    requires HoldsState(g, head)
  {
    var live := StateAt(g, head);
    && p.sessionId == live.sessionId && p.baseCommit == live.baseCommit
    && (hash(live.context) != p.contextHash
        || (Recorded(hash, g, p, head)
            && var past, now := StateAt(g, p.contextRevision).tasks[p.taskId], live.tasks[p.taskId];
               past.owner != now.owner || past.goal != now.goal || past.scopes != now.scopes))
  }

  predicate SameAssignment(a: Task, b: Task) {
    a.owner == b.owner && a.goal == b.goal && a.scopes == b.scopes
  }

  /** Every check `publish_proposal` makes against the fetched head, in its order. */
  method CheckProposal(store: GitStore, p: Proposal, expected: Sha, head: Sha, current: SessionState, ghost at: Hub)
    returns (problem: Option<Error>)
    requires store.hub.Valid() && Moved(store.hub.hash, at, store.hub.View()) && Inv(store.hub.hash, at)
    requires FetchedAt(at, head, current)
    ensures problem.None? <==> head == expected && ProvenanceHolds(store.hub.hash, store.hub.objects, p, head)
    ensures problem.Some? ==> problem.value == ValidationError || problem.value == StaleRevisionError
    ensures HoldsState(store.hub.objects, head)
    ensures problem == Some(StaleRevisionError)
            <==> head != expected || Superseded(store.hub.hash, store.hub.objects, p, head)
  {
    var g, hash := store.hub.objects, store.hub.hash;
    AncestorGrows(at.objects, g, p.contextRevision, head);
    assert StateAt(g, head) == current;
    if head != expected {
      return Some(StaleRevisionError);
    }
    if p.sessionId != current.sessionId || p.baseCommit != current.baseCommit {
      return Some(ValidationError);
    }
    if p.contextHash != hash(current.context) {
      return Some(StaleRevisionError);
    }
    var known := FindAncestor(g, p.contextRevision, head);
    if !known {
      return Some(ValidationError);
    }
    assert HoldsState(g, p.contextRevision) by {
      AncestorInChain(at.objects, p.contextRevision, History(at), head);
      assert p.contextRevision in History(at);
    }
    var historic := StateAt(g, p.contextRevision);
    if hash(historic.context) != p.contextHash {
      return Some(ValidationError);
    }
    if p.taskId !in historic.tasks || historic.tasks[p.taskId].owner != p.owner {
      return Some(ValidationError);
    }
    if p.taskId !in current.tasks {
      return Some(ValidationError);
    }
    if !SameAssignment(historic.tasks[p.taskId], current.tasks[p.taskId]) {
      return Some(StaleRevisionError);
    }
    return None;
  }

  /** Builds the companion commit and the proposal root, then compare-and-swaps the mirror to the companion. */
  method BuildBoth(store: GitStore, child: Commit, root: Commit, time: nat, git: LocalGit)
    returns (b: Result<(Sha, Sha)>)
    requires store.hub.Valid() && root.parent.None? && child.parent.Some? && child.parent.value in store.hub.objects
    modifies store, store.hub
    ensures store.hub.Valid() && Moved(store.hub.hash, old(store.hub.View()), store.hub.View())
    ensures b.Ok? ==>
              && b.value.0 in store.hub.objects && store.hub.objects[b.value.0] == child
              && b.value.1 in store.hub.objects && store.hub.objects[b.value.1] == root
    ensures var hub := store.hub;
            var writes := && git.commits && Nameable(hub.objects, hub.commitId(child, time), child)
                          && Nameable(hub.objects, hub.commitId(root, time), root);
            && (b.Ok? <==> writes && git.swaps)
            && (b.Err? ==> b.error == if writes then StaleRevisionError else GitOperationError)
  {
    hide Moved, Inv, Nameable;
    var hub := store.hub;
    ghost var h0 := hub.View();
    ghost var idc, idr := hub.commitId(child, time), hub.commitId(root, time);
    var c := hub.CommitTree(child, time, git.commits);
    ghost var h1 := hub.View();
    if c.Err? {
      return Err(c.error);
    }
    store.Interfere();
    ghost var h2 := hub.View();
    var r := hub.CommitTree(root, time, git.commits);
    ghost var h3 := hub.View();
    MovedThen(hub.hash, h0, h1, h2);
    MovedThen(hub.hash, h0, h2, h3);
    MovedThen(hub.hash, h1, h2, h3);
    NamesStay(hub.hash, h1, h3, idc, child);
    if r.Err? {
      return Err(r.error);
    }
    store.Interfere();
    ghost var h4 := hub.View();
    BothStay(hub.hash, h0, h1, h2, h3, h4, c.value, r.value);
    MovedThen(hub.hash, h1, h3, h4);
    var moved := store.CasAdvance(c.value, git.swaps);
    MovedThen(hub.hash, h0, h4, hub.View());
    MovedThen(hub.hash, h1, h4, hub.View());
    MovedThen(hub.hash, h3, h4, hub.View());
    NamesStay(hub.hash, h1, hub.View(), idc, child);
    NamesStay(hub.hash, h3, hub.View(), idr, root);
    b := if moved then Ok((c.value, r.value)) else Err(StaleRevisionError);
  }

  /** Commits are immutable, so both are still there after everybody else has acted. */
  lemma BothStay(hash: ContextHash, h0: Hub, h1: Hub, h2: Hub, h3: Hub, h4: Hub, c: Sha, r: Sha)
    requires Moved(hash, h0, h1) && Moved(hash, h1, h2) && Moved(hash, h2, h3) && Moved(hash, h3, h4)
    requires c in h1.objects && r in h3.objects
    ensures Moved(hash, h0, h4)
    ensures c in h4.objects && h4.objects[c] == h1.objects[c] && r in h4.objects && h4.objects[r] == h3.objects[r]
  {
    MovedThen(hash, h0, h1, h2);
    MovedThen(hash, h0, h2, h3);
    MovedThen(hash, h0, h3, h4);
  }

  /**
   `publish_proposal`: `built` is the companion and the root once both are committed and the mirror holds the
   companion.
   */
  method PublishProposal(store: GitStore, p: Proposal, expected: Sha, time: nat, git: LocalGit, looks: bool,
                         net: Network)
    returns (r: Result<(Sha, Sha)>, ghost at: Hub, ghost seen: Hub, ghost before: Hub, ghost built: Option<(Sha, Sha)>)
    requires store.hub.Valid()
    modifies store, store.hub
    ensures store.hub.Valid() && Moved(store.hub.hash, old(store.hub.View()), before)
    ensures Moved(store.hub.hash, old(store.hub.View()), at) && Moved(store.hub.hash, at, seen)
    ensures Moved(store.hub.hash, seen, before)
    ensures at.session.Some? ==> HoldsState(at.objects, at.session.value)
    ensures built.Some? <==> !BeforeLookup(store, p, expected, at, git).Some? && looks && p.id !in seen.proposals
                             && Writes(store, p, expected, time, at, before, git) && git.swaps
    ensures BeforeLookup(store, p, expected, at, git).Some? ==>
              r == Err(BeforeLookup(store, p, expected, at, git).value)
    ensures BeforeLookup(store, p, expected, at, git).None? && built.None? ==>
              r == Err(if !looks then GitOperationError
                       else if p.id in seen.proposals then ValidationError
                       else if Writes(store, p, expected, time, at, before, git) then StaleRevisionError
                       else GitOperationError)
    ensures r.Ok? ==> PublishedProposal(store.hub.hash, store.hub.View(), r.value.0, r.value.1, p, expected)
    ensures ProposalPushed(before, store.hub.View(), r, built, p.id, expected, net)
    ensures r.Err? && built.Some? ==> store.mirror != Some(built.value.0)
    ensures store.hub.View() != before ==>
              p.id !in before.proposals && DisciplinedStep(store.hub.hash, before, store.hub.View())
  {
    hide Inv, Moved, ProvenanceHolds, Superseded, Nameable, DisciplinedStep, PublishedProposal;
    var hub := store.hub;
    ghost var h0 := hub.View();
    at, seen, before, built := h0, h0, h0, None;
    MovedSelf(hub.hash, h0);
    HeadHolds(hub.hash, h0);
    if !IsSha(expected) {
      return Err(ValidationError), at, seen, before, built;
    }
    var f;
    f, at := store.FetchState(git.fetches);
    HeadHolds(hub.hash, at);
    seen, before := hub.View(), hub.View();
    MovedThen(hub.hash, h0, at, before);
    MovedSelf(hub.hash, before);
    if f.Err? {
      return Err(f.error), at, seen, before, built;
    }
    var head, current := f.value.0, f.value.1;
    ProvenanceIsOld(hub.hash, at, before, p, head);
    var problem := CheckProposal(store, p, expected, head, current, at);
    if problem.Some? {
      return Err(problem.value), at, seen, before, built;
    }
    ghost var checked := before;
    store.Interfere();
    MovedThen(hub.hash, h0, checked, hub.View());
    MovedThen(hub.hash, at, checked, hub.View());
    MovedSelf(hub.hash, hub.View());
    seen, before := hub.View(), hub.View();
    if !looks {
      return Err(GitOperationError), at, seen, before, built;
    }
    if p.id in hub.proposals {
      return Err(ValidationError), at, seen, before, built;
    }
    ProvenanceIsOld(hub.hash, at, before, p, head);
    r, before, built := PushProposalOn(store, p, head, current, time, git, net, h0, at, before);
  }

  /** Why a proposal publication ends before it looks whether the id is taken. */
  ghost function BeforeLookup(store: GitStore, p: Proposal, expected: Sha, at: Hub, git: LocalGit): Option<Error>
    requires at.session.Some? ==> HoldsState(at.objects, at.session.value)
  {
    if !IsSha(expected) then Some(ValidationError)
    else if !git.fetches then Some(GitOperationError)
    else if at.session.None? then Some(SessionNotFoundError)
    else if at.session.value != expected || Superseded(store.hub.hash, at.objects, p, expected)
      then Some(StaleRevisionError)
    else if !ProvenanceHolds(store.hub.hash, at.objects, p, expected) then Some(ValidationError)
    else None
  }

  ghost function CompanionCommit(at: Hub, p: Proposal, head: Sha): Commit
    requires HoldsState(at.objects, head)
  {
    Commit(Some(head), StateTree(StateAt(at.objects, head)), ProposalNote(p.id, p.contextHash))
  }

  function RootCommit(p: Proposal): Commit {
    Commit(None, ProposalTree(p), ProposalNote(p.id, p.contextHash))
  }

  /** Both commits can be written. */
  ghost predicate Writes(store: GitStore, p: Proposal, expected: Sha, time: nat, at: Hub, before: Hub, git: LocalGit) {
    && git.commits && HoldsState(at.objects, expected)
    && var child, root, hub := CompanionCommit(at, p, expected), RootCommit(p), store.hub;
       && Nameable(before.objects, hub.commitId(child, time), child)
       && Nameable(before.objects, hub.commitId(root, time), root)
  }

  /** What is said about published revisions does not change afterwards. */
  lemma ProvenanceIsOld(hash: ContextHash, h: Hub, h': Hub, p: Proposal, head: Sha)
    requires Inv(hash, h) && Moved(hash, h, h') && h.session == Some(head)
    ensures HoldsState(h.objects, head) && HoldsState(h'.objects, head)
    ensures ProvenanceHolds(hash, h'.objects, p, head) <==> ProvenanceHolds(hash, h.objects, p, head)
    ensures Superseded(hash, h'.objects, p, head) <==> Superseded(hash, h.objects, p, head)
  {
    HeadHolds(hash, h);
    AncestorGrows(h.objects, h'.objects, p.contextRevision, head);
    if IsAncestor(h.objects, p.contextRevision, head) {
      AncestorInChain(h.objects, p.contextRevision, History(h), head);
      assert p.contextRevision in History(h);
    }
  }

  /**
   How a proposal publication ends, exactly: both refs move if the push reached the hub while the head was `expected`,
   and the client is told so exactly if the answer came back.
   */
  ghost predicate ProposalPushed(before: Hub, after: Hub, r: Result<(Sha, Sha)>, built: Option<(Sha, Sha)>, id: string,
                                 expected: Sha, net: Network)
  {
    match built
    case None => after == before && r.Err?
    case Some(b) =>
      var repeated := before.session == Some(b.0) && id in before.proposals && before.proposals[id] == b.1;
      var outcome := OutcomeOf(net, before.session == Some(expected) || repeated);
      && after == (if net.reached && before.session == Some(expected)
                   then before.(session := Some(b.0), proposals := before.proposals[id := b.1]) else before)
      && r == if outcome.Accepted? then Ok(b) else Err(ErrorOf(outcome))
  }

  /**
   A failed proposal publication changes the hub if and only if the push reached it in time and the answer was
   lost.
   */
  lemma FailedProposalChangesHubIff(before: Hub, after: Hub, r: Result<(Sha, Sha)>, built: Option<(Sha, Sha)>,
                                    id: string, expected: Sha, net: Network)
    requires ProposalPushed(before, after, r, built, id, expected, net) && (built.Some? ==> built.value.0 != expected)
    ensures r.Err? && after != before <==>
              built.Some? && net == Network(true, false) && before.session == Some(expected)
    ensures r.Err? && after != before ==> r.error == GitOperationError
  {
    if built.Some? && before.session == Some(expected) {
      assert before.(session := Some(built.value.0), proposals := before.proposals[id := built.value.1]).session
             != before.session;
    }
  }

  /** The head is the companion of this very proposal, whose provenance holds at `expected`. */
  ghost predicate PublishedProposal(hash: ContextHash, h: Hub, c: Sha, root: Sha, p: Proposal, expected: Sha) {
    && h.session == Some(c) && p.id in h.proposals && h.proposals[p.id] == root
    && IsCompanionOf(hash, h.objects, c, expected, p.id, root)
    && h.objects[root].tree.proposal == p
    && ProvenanceHolds(hash, h.objects, p, expected)
  }

  lemma ProvenanceStillHolds(hash: ContextHash, h: Hub, h': Hub, p: Proposal, head: Sha)
    requires Wf(h) && Grows(h.objects, h'.objects) && ProvenanceHolds(hash, h.objects, p, head)
    ensures ProvenanceHolds(hash, h'.objects, p, head)
  {
    AncestorGrows(h.objects, h'.objects, p.contextRevision, head);
  }

  method PushProposalOn(store: GitStore, p: Proposal, head: Sha, current: SessionState, time: nat, git: LocalGit,
                        net: Network, ghost h0: Hub, ghost at: Hub, ghost absent: Hub)
    returns (r: Result<(Sha, Sha)>, ghost before: Hub, ghost built: Option<(Sha, Sha)>)
    requires store.hub.Valid() && absent == store.hub.View() && p.id !in absent.proposals
    requires Moved(store.hub.hash, h0, absent) && Moved(store.hub.hash, at, absent) && Inv(store.hub.hash, at)
    requires FetchedAt(at, head, current) && ProvenanceHolds(store.hub.hash, absent.objects, p, head)
    modifies store, store.hub
    ensures store.hub.Valid() && Moved(store.hub.hash, h0, before) && Moved(store.hub.hash, absent, before)
    ensures built.Some? <==> Writes(store, p, head, time, at, before, git) && git.swaps
    ensures built.None? ==>
              r == Err(if Writes(store, p, head, time, at, before, git) then StaleRevisionError else GitOperationError)
    ensures r.Ok? ==> PublishedProposal(store.hub.hash, store.hub.View(), r.value.0, r.value.1, p, head)
    ensures ProposalPushed(before, store.hub.View(), r, built, p.id, head, net)
    ensures r.Err? && built.Some? ==> store.mirror != Some(built.value.0)
    ensures store.hub.View() != before ==>
              p.id !in before.proposals && DisciplinedStep(store.hub.hash, before, store.hub.View())
  {
    var hub := store.hub;
    assert head in hub.objects;
    hide ProvenanceHolds, Inv, DisciplinedStep;
    var note := ProposalNote(p.id, p.contextHash);
    var companion, ref := Commit(Some(head), StateTree(current), note), Commit(None, ProposalTree(p), note);
    var both := BuildBoth(store, companion, ref, time, git);
    before, built := hub.View(), None;
    MovedThen(hub.hash, h0, absent, before);
    if both.Err? {
      return Err(both.error), before, built;
    }
    var (child, root) := both.value;
    built := Some((child, root));
    ProposalEnabled(hub.hash, at, absent, before, child, root, p, head);
    r := PushBoth(store, child, root, p, head, net);
  }

  method PushBoth(store: GitStore, child: Sha, root: Sha, p: Proposal, head: Sha, net: Network)
    returns (r: Result<(Sha, Sha)>)
    requires store.hub.Valid() && child != head
    requires Enabled(store.hub.hash, store.hub.View(), PushProposal(child, p.id, root))
    requires IsCompanionOf(store.hub.hash, store.hub.objects, child, head, p.id, root)
    requires store.hub.objects[root].tree.proposal == p
    requires ProvenanceHolds(store.hub.hash, store.hub.objects, p, head)
    modifies store, store.hub
    ensures store.hub.Valid()
    ensures r.Ok? ==> PublishedProposal(store.hub.hash, store.hub.View(), r.value.0, r.value.1, p, head)
    ensures ProposalPushed(old(store.hub.View()), store.hub.View(), r, Some((child, root)), p.id, head, net)
    ensures r.Err? ==> store.mirror != Some(child)
    ensures store.hub.View() != old(store.hub.View()) ==>
              p.id !in old(store.hub.proposals)
              && DisciplinedStep(store.hub.hash, old(store.hub.View()), store.hub.View())
  {
    ghost var h := store.hub.View();
    ProposalSettled(store.hub.hash, h, child, root, p, head, net);
    hide ProvenanceHolds, Inv, DisciplinedStep, Enabled, FastForward, Perform;
    var outcome := store.hub.PushAtomic(child, p.id, root, net);
    var settled := store.Settle(outcome, child, head);
    r := if settled.Ok? then Ok((child, root)) else Err(settled.error);
  }

  /** The id was free when it was looked up; if the head has not moved since the fetch, it still is. */
  lemma ProposalEnabled(hash: ContextHash, at: Hub, absent: Hub, h: Hub, c: Sha, root: Sha, p: Proposal, head: Sha)
    requires Inv(hash, at) && Moved(hash, at, absent) && Moved(hash, absent, h) && p.id !in absent.proposals
    requires at.session == Some(head) && ProvenanceHolds(hash, absent.objects, p, head)
    requires c in h.objects
    requires h.objects[c] == Commit(Some(head), at.objects[head].tree, ProposalNote(p.id, p.contextHash))
    requires root in h.objects && h.objects[root] == Commit(None, ProposalTree(p), ProposalNote(p.id, p.contextHash))
    ensures IsCompanionOf(hash, h.objects, c, head, p.id, root) && ProvenanceHolds(hash, h.objects, p, head)
    ensures Enabled(hash, h, PushProposal(c, p.id, root)) && c != head
  {
    ProvenanceStillHolds(hash, absent, h, p, head);
    if h.session == Some(head) {
      Sandwich(at, absent, h);
    }
    assert Last(History(at)) == head && head in History(at) && head in History(h);
    assert h.objects[head] == at.objects[head];
    NoSelfParent(h.objects, c);
  }

  /** What the push of a companion and its root does, by the state of the hub it meets. */
  lemma ProposalSettled(hash: ContextHash, h: Hub, c: Sha, root: Sha, p: Proposal, head: Sha, net: Network)
    requires Inv(hash, h) && Enabled(hash, h, PushProposal(c, p.id, root)) && c != head
    requires IsCompanionOf(hash, h.objects, c, head, p.id, root) && ProvenanceHolds(hash, h.objects, p, head)
    requires h.objects[root].tree.proposal == p
    ensures var taken := FastForward(h.objects, h.session, c) && FastForward(h.objects, Ref(h.proposals, p.id), root);
            var h' := AfterPush(h, PushProposal(c, p.id, root), net);
            && h'.objects == h.objects
            && (taken <==> h.session == Some(head)
                           || (h.session == Some(c) && p.id in h.proposals && h.proposals[p.id] == root))
            && h' == (if net.reached && h.session == Some(head)
                      then h.(session := Some(c), proposals := h.proposals[p.id := root]) else h)
            && (OutcomeOf(net, taken).Accepted? ==> PublishedProposal(hash, h', c, root, p, head))
            && (h' != h ==> p.id !in h.proposals && DisciplinedStep(hash, h, h'))
  {
    TakenIff(hash, h, c, root, p.id, head);
    if h.session == Some(head) {
      assert Disciplined(h.objects, PushProposal(c, p.id, root));
    }
  }

  lemma TakenIff(hash: ContextHash, h: Hub, c: Sha, root: Sha, id: string, head: Sha)
    requires Inv(hash, h) && Enabled(hash, h, PushProposal(c, id, root)) && c != head
    requires IsCompanionOf(hash, h.objects, c, head, id, root)
    ensures h.session == Some(head) ==> id !in h.proposals
    ensures FastForward(h.objects, h.session, c) && FastForward(h.objects, Ref(h.proposals, id), root)
            <==> h.session == Some(head) || (h.session == Some(c) && id in h.proposals && h.proposals[id] == root)
    ensures h.session == Some(c) && id in h.proposals && h.proposals[id] == root ==>
              h.proposals[id := root] == h.proposals
  {
    var q :| q in History(h) && IsCompanionOf(hash, h.objects, c, q, id, root)
             && (h.session == Some(q) ==> id !in h.proposals);
    assert q == head;
    ChildPush(h, c, head);
    if h.session == Some(c) {
      HeadNote(hash, h, c, head, id, root);
    }
  }
}
