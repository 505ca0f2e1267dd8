/** What one publication does to the hub, and what it tells the client. */
module Publication {
  import opened Common
  import opened SessionModel
  import opened GitObjects
  import opened HubModel
  import opened HubRuns
  import opened Discipline

  /** How one push ends. */
  datatype PushOutcome = Accepted | Rejected | TransportFailure

  /** The network under one push: whether it reaches the hub, and whether the hub's answer comes back. */
  datatype Network = Network(reached: bool, answered: bool)

  /** The client's own Git: whether its fetch works, whether it can write commits, whether it wins the mirror. */
  datatype LocalGit = LocalGit(fetches: bool, commits: bool, swaps: bool)

  /** The id can name this commit: it is a commit id and names no other commit. */
  predicate Nameable(g: Objects, s: Sha, c: Commit) {
    IsSha(s) && (s in g ==> g[s] == c)
  }

  /** Why a publication ends before its push; `at` is the hub it fetched. */
  ghost function Refusal(at: Hub, state: SessionState, expected: Sha, git: LocalGit, fits: bool,
                         nameable: bool): Option<Error>
    requires at.session.Some? ==> HoldsState(at.objects, at.session.value)
  {
    if !IsSha(expected) then Some(ValidationError)
    else if !git.fetches then Some(GitOperationError)
    else if at.session.None? then Some(SessionNotFoundError)
    else if StateAt(at.objects, at.session.value).Identity() != state.Identity() then Some(ValidationError)
    else if at.session != Some(expected) then Some(StaleRevisionError)
    else if !fits then Some(ValidationError)
    else if !git.commits || !nameable then Some(GitOperationError)
    else if !git.swaps then Some(StaleRevisionError)
    else None
  }

  /** The same reason by reason, whatever the order of the checks. */
  lemma RefusalReasons(at: Hub, state: SessionState, expected: Sha, git: LocalGit, fits: bool, nameable: bool)
    requires at.session.Some? ==> HoldsState(at.objects, at.session.value)
    ensures var r, head := Refusal(at, state, expected, git, fits, nameable), at.session;
            var found := git.fetches && head.Some?;
            var same := found && var s := StateAt(at.objects, head.value);
                          && s.sessionId == state.sessionId && s.baseCommit == state.baseCommit
                          && s.targetVersion == state.targetVersion;
            && (r == None <==> IsSha(expected) && same && head == Some(expected) && fits && nameable
                               && git == LocalGit(true, true, true))
            && (r == Some(ValidationError)
                <==> !IsSha(expected) || (found && !same) || (found && head == Some(expected) && !fits))
            && (r == Some(StaleRevisionError)
                <==> IsSha(expected) && same
                     && (head != Some(expected) || (fits && nameable && git.commits && !git.swaps)))
            && (r == Some(SessionNotFoundError) <==> IsSha(expected) && git.fetches && head == None)
            && (r == Some(GitOperationError)
                <==> IsSha(expected)
                     && (!git.fetches
                         || (same && head == Some(expected) && fits && !(git.commits && nameable))))
  {}

  /** Without an answer the client knows nothing, whatever the hub did. */
  function OutcomeOf(net: Network, taken: bool): PushOutcome {
    if !(net.reached && net.answered) then TransportFailure else if taken then Accepted else Rejected
  }

  /** What the hub holds after a push. */
  ghost function AfterPush(h: Hub, a: Action, net: Network): Hub {
    if net.reached then Perform(h, a) else h
  }

  function ErrorOf(outcome: PushOutcome): Error
    requires !outcome.Accepted?
  {
    if outcome.Rejected? then StaleRevisionError else GitOperationError
  }

  lemma AtomicTaken(hash: ContextHash, h: Hub, h': Hub, c: Sha, id: string, r: Sha, ok: bool)
    requires Inv(hash, h) && Enabled(hash, h, PushProposal(c, id, r))
    requires ok <==> FastForward(h.objects, h.session, c) && FastForward(h.objects, Ref(h.proposals, id), r)
    requires h' == if ok then h.(session := Some(c), proposals := h.proposals[id := r]) else h
    ensures h' == Perform(h, PushProposal(c, id, r)) && Moved(hash, h, h')
  {
    MovedBy(hash, h, PushProposal(c, id, r));
  }

  /** The published head is `expected` with exactly one edit applied. */
  ghost predicate Rewrote(after: Hub, c: Sha, expected: Sha, e: Edit) {
    && after.session == Some(c) && HoldsState(after.objects, c) && HoldsState(after.objects, expected)
    && after.objects[c].parent == Some(expected)
    && StateAt(after.objects, c) == Apply(e, StateAt(after.objects, expected))
  }

  /** The same of whatever head the hub holds. */
  ghost predicate Landed(after: Hub, expected: Sha, e: Edit) {
    after.session.Some? && Rewrote(after, after.session.value, expected, e)
  }

  /** The state that was read and the state at `expected` agree in everything the edit does not set. */
  ghost predicate AgreeOutside(e: Edit, seen: SessionState, expected: SessionState) {
    match e
    case SetContext(_) => seen.tasks == expected.tasks
    case SetTask(t) => seen.context == expected.context && seen.tasks - {t.id} == expected.tasks - {t.id}
  }

  /** Edits of two states of one session are equal exactly if the states agree outside the edit. */
  lemma SameEditIffAgree(e: Edit, seen: SessionState, expected: SessionState)
    requires seen.Identity() == expected.Identity()
    ensures Apply(e, seen) == Apply(e, expected) <==> AgreeOutside(e, seen, expected)
  {
    if e.SetTask? {
      var id := e.task.id;
      var a, b := seen.tasks, expected.tasks;
      assert a[id := e.task] == (a - {id})[id := e.task] && b[id := e.task] == (b - {id})[id := e.task];
      assert a - {id} == a[id := e.task] - {id} && b - {id} == b[id := e.task] - {id};
    }
  }

  /**
   A successful publication is one edit of `expected` if and only if nothing else changed since the state was
   read.
   */
  ghost predicate RewroteIffAgree(after: Hub, c: Sha, expected: Sha, e: Edit, seen: SessionState) {
    && HoldsState(after.objects, expected)
    && (Rewrote(after, c, expected, e) <==> AgreeOutside(e, seen, StateAt(after.objects, expected)))
  }

  /** The one way in which a failed publication changes the hub: the push was taken and its answer was lost. */
  ghost predicate LostAnswer(before: Hub, expected: Sha, net: Network) {
    net == Network(true, false) && before.session == Some(expected)
  }

  lemma EditPublished(hash: ContextHash, h0: Hub, read: Hub, at: Hub, before: Hub, after: Hub, c: Sha, head: Sha,
                      expected: Sha, e: Edit, ok: bool)
    requires Moved(hash, h0, read) && Moved(hash, read, at) && Moved(hash, at, before)
    requires read.session == Some(head) && HoldsState(read.objects, head)
    requires BuiltOn(at, before, c, expected, Apply(e, StateAt(read.objects, head)))
    requires e.SetTask? ==> IsAncestor(read.objects, e.task.contextRevision, head)
    requires after == before || (before.session == Some(expected) && after == before.(session := Some(c)))
    requires ok ==> after.session == Some(c) && after.objects == before.objects
    ensures (ok || after != before) && (expected in History(h0) || expected == head) ==>
              Rewrote(after, c, expected, e) && Landed(after, expected, e)
    ensures ok || after != before ==> RewroteIffAgree(after, c, expected, e, StateAt(read.objects, head))
    ensures after != before ==> DisciplinedStep(hash, before, after)
  {
    var g := before.objects;
    assert Grows(read.objects, g) by {
      assert Grows(read.objects, at.objects) && Grows(at.objects, g);
    }
    if expected in History(h0) {
      DoubleFetch(h0, read, at, expected);
    }
    HeadIdentity(hash, at, head, expected);
    assert StateAt(g, expected) == StateAt(at.objects, expected) && StateAt(g, head) == StateAt(read.objects, head);
    SameEditIffAgree(e, StateAt(read.objects, head), StateAt(g, expected));
    assert EditOf(g, c, head, e) by {
      if e.SetTask? { AncestorGrows(read.objects, g, e.task.contextRevision, head); }
    }
    if after != before {
      EditDisciplined(hash, read, at, before, after, c, head, expected, e);
    }
  }

  lemma EditDisciplined(hash: ContextHash, read: Hub, at: Hub, before: Hub, after: Hub, c: Sha, head: Sha,
                        expected: Sha, e: Edit)
    requires Moved(hash, read, at) && Moved(hash, at, before) && Wf(read)
    requires read.session == Some(head) && at.session == Some(expected) && HoldsState(at.objects, head)
    requires c in before.objects
    requires before.objects[c] == Commit(Some(expected), StateTree(Apply(e, StateAt(at.objects, head))), UpdateNote)
    requires EditOf(before.objects, c, head, e) && WellTasked(Apply(e, StateAt(at.objects, head)))
    requires before.session == Some(expected) && after == before.(session := Some(c))
    ensures DisciplinedStep(hash, before, after)
  {
    var g, a := before.objects, PushUpdate(c);
    var s := History(before);
    assert History(read) <= History(at) <= s;
    assert Last(History(read)) == head && head in s;
    AncestorInChain(g, head, s, expected);
    assert Disciplined(g, a);
    HeadIdentity(hash, at, head, expected);
    UpdateEnabled(hash, at, before, c, expected, StateAt(at.objects, expected), Apply(e, StateAt(at.objects, head)));
    assert after == Perform(before, a);
  }

  lemma HeadIdentity(hash: ContextHash, h: Hub, head: Sha, expected: Sha)
    requires Inv(hash, h) && h.session == Some(expected) && head in History(h)
    ensures HoldsState(h.objects, expected) && HoldsState(h.objects, head)
    ensures StateAt(h.objects, expected).Identity() == StateAt(h.objects, head).Identity()
  {
    assert Last(History(h)) == expected;
  }

  lemma InitEnabled(hash: ContextHash, h: Hub, c: Sha, state: SessionState)
    requires Inv(hash, h) && c in h.objects && h.objects[c] == Commit(None, StateTree(state), InitNote)
    requires WellTasked(state)
    ensures Enabled(hash, h, PushInit(c)) && (state.tasks == map[] ==> Disciplined(h.objects, PushInit(c)))
    ensures FastForward(h.objects, h.session, c) <==> h.session == None || h.session == Some(c)
    ensures h.session == None || h.session == Some(c) ==>
              Inv(hash, Perform(h, PushInit(c))) && History(Perform(h, PushInit(c))) == [c]
  {
    RootPush(h, c);
    ActionKeeps(hash, h, PushInit(c));
    if h.session == None {
      InitKeeps(hash, h, c);
    } else if h.session == Some(c) {
      ChainIs(h.objects, [c], c);
    }
  }

  /** What a fetch returned: the head at that moment and its state. */
  ghost predicate FetchedAt(at: Hub, head: Sha, state: SessionState) {
    at.session == Some(head) && HoldsState(at.objects, head) && StateAt(at.objects, head) == state
  }

  /** The commit a publication pushes: a child of `expected` holding exactly `state`. */
  ghost predicate BuiltOn(at: Hub, before: Hub, c: Sha, expected: Sha, state: SessionState) {
    && at.session == Some(expected) && WellTasked(state)
    && c in before.objects && before.objects[c] == Commit(Some(expected), StateTree(state), UpdateNote)
  }

  /**
   How a publication ends, exactly.  Nothing was pushed, or the hub took the push exactly if it reached the hub while
   the head was the replaced one, and the client was told so exactly if the answer came back.
   */
  ghost predicate Published(before: Hub, after: Hub, r: Result<Sha>, built: Option<Sha>, replaced: Option<Sha>,
                            net: Network) {
    match built
    case None => after == before && r.Err?
    case Some(c) =>
      var outcome := OutcomeOf(net, before.session == replaced || before.session == built);
      && after == (if net.reached && before.session == replaced then before.(session := built) else before)
      && r == if outcome.Accepted? then Ok(c) else Err(ErrorOf(outcome))
  }

  /** A failed publication changes the hub if and only if the push reached it in time and the answer was lost. */
  lemma FailureChangesHubIff(before: Hub, after: Hub, r: Result<Sha>, built: Option<Sha>, replaced: Option<Sha>,
                             net: Network)
    requires Published(before, after, r, built, replaced, net) && built != replaced
    ensures r.Err? && after != before <==> built.Some? && net == Network(true, false) && before.session == replaced
    ensures r.Err? && after != before ==> r.error == GitOperationError
    ensures r.Ok? ==> after.session == built && (before.session == replaced || before.session == built)
  {
    if built.Some? && before.session == replaced {
      assert before.(session := built) != before;
    }
  }

  /** The pushed commit meets the hub's own condition for an update, however far the hub has moved. */
  lemma UpdateEnabled(hash: ContextHash, at: Hub, h: Hub, c: Sha, head: Sha, current: SessionState, state: SessionState)
    requires Inv(hash, at) && Moved(hash, at, h) && FetchedAt(at, head, current)
    requires state.Identity() == current.Identity() && WellTasked(state)
    requires c in h.objects && h.objects[c] == Commit(Some(head), StateTree(state), UpdateNote)
    ensures Enabled(hash, h, PushUpdate(c)) && c != head
    ensures FastForward(h.objects, h.session, c) <==> h.session == Some(head) || h.session == Some(c)
  {
    assert Last(History(at)) == head && head in History(at) && head in History(h);
    assert IsUpdateOf(h.objects, c, head);
    ChildPush(h, c, head);
    NoSelfParent(h.objects, c);
  }

  lemma HeadIsAncestor(hash: ContextHash, h: Hub, head: Sha)
    requires Inv(hash, h) && h.session == Some(head)
    ensures IsAncestor(h.objects, head, head)
  {
    assert Last(History(h)) == head;
    AncestorInChain(h.objects, head, History(h), head);
  }

  /** What a name means never changes. */
  lemma NamesStay(hash: ContextHash, h: Hub, h': Hub, s: Sha, c: Commit)
    requires Moved(hash, h, h')
    ensures s in h.objects ==> s in h'.objects && h'.objects[s] == h.objects[s]
    ensures s in h.objects ==> (Nameable(h'.objects, s, c) <==> Nameable(h.objects, s, c))
  {}

  /** Ancestry among published revisions is the same ever after. */
  lemma AncestorLater(hash: ContextHash, h: Hub, h': Hub, a: Sha, head: Sha)
    requires Moved(hash, h, h') && head in h.objects
    ensures Sound(h'.objects) && (IsAncestor(h'.objects, a, head) <==> IsAncestor(h.objects, a, head))
  {
    AncestorGrows(h.objects, h'.objects, a, head);
  }

  lemma HeadHolds(hash: ContextHash, h: Hub)
    requires Inv(hash, h)
    ensures h.session.Some? ==> HoldsState(h.objects, h.session.value)
  {
    if h.session.Some? {
      assert Last(History(h)) == h.session.value;
    }
  }

  /** A state that was read can be read for ever. */
  lemma StillHeld(hash: ContextHash, read: Hub, before: Hub, now: Hub, head: Sha)
    requires Moved(hash, read, before) && Moved(hash, before, now) && HoldsState(read.objects, head)
    ensures HoldsState(now.objects, head) && StateAt(now.objects, head) == StateAt(read.objects, head)
  {}
}
