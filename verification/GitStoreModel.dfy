/**
 The client store of collab_runtime/store.py and proposal publication of collab_runtime/proposals.py.

 Between any two atomic effects of an operation `Interfere` lets every other client run: any number of steps of
 the hub state machine, and any change of this store's own mirror ref by another thread.  The contracts therefore
 hold under every interleaving, and each operation guarantees in return that its own effects are hub steps.
 */
module GitStoreModel {
  import opened Common
  import opened SessionModel
  import opened GitObjects
  import opened HubModel
  import opened HubRuns
  import opened Discipline
  import opened Publication

  /** The hub repository and the content-addressed object store behind it. */
  class HubRepo {
    const hash: ContextHash
    const commitId: (Commit, nat) -> Sha  // the id Git derives from the content and the commit time
    var objects: Objects
    var session: Option<Sha>
    var proposals: map<string, Sha>

    ghost function View(): Hub
      reads this
    {
      Hub(objects, session, proposals)
    }

    ghost predicate Valid()
      reads this
    {
      Inv(hash, View())
    }

    constructor (hash: ContextHash, commitId: (Commit, nat) -> Sha)
      ensures Valid() && View() == EMPTY && this.hash == hash
    {
      this.hash, this.commitId := hash, commitId;
      objects, session, proposals := map[], None, map[];
      new;
      EmptyHubInv(hash);
    }

    /** Other clients take any number of steps. */
    method Others()
      requires Valid()
      modifies this
      ensures Valid() && Moved(hash, old(View()), View())
    {
      MovedSelf(hash, View());
    }

    /**
     `git commit-tree`: writes one immutable commit and returns its content-derived id, which must be a commit id and,
     as collisions are ruled out, must not already name another commit.
     */
    method CommitTree(c: Commit, time: nat, works: bool) returns (r: Result<Sha>)
      requires Valid() && (c.parent.Some? ==> c.parent.value in objects)
      modifies this`objects
      ensures Valid() && Moved(hash, old(View()), View())
      ensures r.Ok? <==> works && Nameable(objects, commitId(c, time), c)
      ensures r.Ok? ==> r.value == commitId(c, time) && r.value in objects && objects[r.value] == c
      ensures r.Err? ==> r.error == GitOperationError
    {
      var s := commitId(c, time);
      if !works || !IsSha(s) || (s in objects && objects[s] != c) {
        MovedSelf(hash, View());
        return Err(GitOperationError);
      }
      MovedBy(hash, View(), StoreObject(s, c));
      objects := objects[s := c];
      r := Ok(s);
      assert View() == Perform(old(View()), StoreObject(s, c));
    }

    /** Git's own test for one ref of a push. */
    method MayFastForward(current: Option<Sha>, pushed: Sha) returns (ok: bool)
      requires Sound(objects)
      ensures ok <==> FastForward(objects, current, pushed)
    {
      ok := pushed in objects;
      if ok && current.Some? {
        ok := FindAncestor(objects, current.value, pushed);
      }
    }

    /** An ordinary push of one commit to the session branch. */
    method PushSession(s: Sha, ghost a: Action, net: Network) returns (outcome: PushOutcome)
      requires Valid() && (a == PushInit(s) || a == PushUpdate(s)) && Enabled(hash, View(), a)
      modifies this`session
      ensures Valid() && Moved(hash, old(View()), View())
      ensures View() == AfterPush(old(View()), a, net)
      ensures outcome == OutcomeOf(net, FastForward(objects, old(session), s))
      ensures outcome.Accepted? ==> session == Some(s)
    {
      ghost var h := View();
      MovedBy(hash, h, a);
      MovedSelf(hash, h);
      var ok := MayFastForward(session, s);
      if net.reached && ok {
        session := Some(s);
        assert View() == Perform(h, a);
      }
      outcome := OutcomeOf(net, ok);
    }

    /** The hub's side of `git push --atomic`: both refs move or neither does. */
    method TakeAtomic(c: Sha, id: string, r: Sha) returns (ok: bool)
      requires Valid() && Enabled(hash, View(), PushProposal(c, id, r))
      modifies this`session, this`proposals
      ensures Valid() && Moved(hash, old(View()), View())
      ensures View() == Perform(old(View()), PushProposal(c, id, r))
      ensures ok <==> FastForward(objects, old(session), c) && FastForward(objects, old(Ref(proposals, id)), r)
      ensures if ok then session == Some(c) && id in proposals && proposals[id] == r else View() == old(View())
    {
      ghost var h := View();
      var okSession := MayFastForward(session, c);
      var okRef := MayFastForward(Ref(proposals, id), r);
      ok := okSession && okRef;
      if ok {
        session, proposals := Some(c), proposals[id := r];
      }
      AtomicTaken(hash, h, View(), c, id, r, ok);
    }

    method PushAtomic(c: Sha, id: string, r: Sha, net: Network) returns (outcome: PushOutcome)
      requires Valid() && Enabled(hash, View(), PushProposal(c, id, r))
      modifies this`session, this`proposals
      ensures Valid() && Moved(hash, old(View()), View())
      ensures View() == AfterPush(old(View()), PushProposal(c, id, r), net)
      ensures var taken := FastForward(objects, old(session), c) && FastForward(objects, old(Ref(proposals, id)), r);
              outcome == OutcomeOf(net, taken)
    {
      MovedSelf(hash, View());
      var ok := false;
      if net.reached {
        ok := TakeAtomic(c, id, r);
      }
      outcome := OutcomeOf(net, ok);
    }
  }

  /** A client-side store: its mirror ref is a best-effort copy that other threads may move at any time. */
  class GitStore {
    const hub: HubRepo
    const storable: SessionState -> bool  // what else the strict parser checks, and the byte limit
    var mirror: Option<Sha>

    constructor (hub: HubRepo, storable: SessionState -> bool)
      ensures this.hub == hub && this.storable == storable && mirror == None
    {
      this.hub, this.storable, mirror := hub, storable, None;
    }

    /** Every other client, and every other thread of this store, may act here. */
    method Interfere()
      requires hub.Valid()
      modifies this, hub
      ensures hub.Valid() && Moved(hub.hash, old(hub.View()), hub.View())
    {
      hub.Others();
      mirror := *;
    }

    /** `git update-ref` with an expected old value. */
    method CasRef(target: Sha, expected: Option<Sha>) returns (ok: bool)
      modifies this
      ensures ok <==> old(mirror) == expected
      ensures mirror == if ok then Some(target) else old(mirror)
    {
      ok := mirror == expected;
      if ok {
        mirror := Some(target);
      }
    }

    /** Between reading the mirror and swapping it, other threads either leave it alone or put another value there. */
    method Race(untouched: bool)
      requires hub.Valid()
      modifies this, hub
      ensures hub.Valid() && Moved(hub.hash, old(hub.View()), hub.View())
      ensures untouched <==> mirror == old(mirror)
    {
      var before := mirror;
      Interfere();
      if untouched {
        mirror := before;
      } else if mirror == before {
        mirror := if before.None? then Some("") else None;
      }
    }

    method CasAdvance(target: Sha, wins: bool) returns (ok: bool)
      requires hub.Valid()
      modifies this, hub
      ensures hub.Valid() && Moved(hub.hash, old(hub.View()), hub.View())
      ensures ok == wins && (ok ==> mirror == Some(target))
    {
      var current := mirror;
      Race(wins);
      ok := CasRef(target, current);
    }

    /** Fetches the head that the hub held at moment `at` and reads its immutable state. */
    method FetchState(works: bool) returns (r: Result<(Sha, SessionState)>, ghost at: Hub)
      requires hub.Valid()
      modifies this, hub
      ensures hub.Valid() && Moved(hub.hash, old(hub.View()), at) && Moved(hub.hash, at, hub.View())
      ensures r.Ok? ==> FetchedAt(at, r.value.0, r.value.1)
      ensures r.Ok? <==> works && at.session.Some?
      ensures r.Err? ==> r.error == if works then SessionNotFoundError else GitOperationError
    {
      Interfere();
      at := hub.View();
      MovedSelf(hub.hash, at);
      if !works {
        return Err(GitOperationError), at;
      }
      if hub.session.None? {
        return Err(SessionNotFoundError), at;
      }
      var head := hub.session.value;
      assert Last(History(at)) == head && HoldsState(hub.objects, head);
      var state := StateAt(hub.objects, head);
      var wins: bool := *;
      var refreshed := CasAdvance(head, wins);
      r := Ok((head, state));
    }

    /** Writes one commit and compare-and-swaps the mirror to it. */
    method Build(c: Commit, time: nat, git: LocalGit, busy: Error) returns (r: Result<Sha>)
      requires hub.Valid() && (c.parent.Some? ==> c.parent.value in hub.objects)
      modifies this, hub
      ensures hub.Valid() && Moved(hub.hash, old(hub.View()), hub.View())
      ensures var writes := git.commits && Nameable(hub.objects, hub.commitId(c, time), c);
              && (r.Ok? <==> writes && git.swaps)
              && (r.Err? ==> r.error == if writes then busy else GitOperationError)
      ensures r.Ok? ==> r.value in hub.objects && hub.objects[r.value] == c
    {
      hide Moved, Inv;
      ghost var h0 := hub.View();
      ghost var id := hub.commitId(c, time);
      r := hub.CommitTree(c, time, git.commits);
      ghost var h1 := hub.View();
      if r.Err? {
        NamesStay(hub.hash, h0, h1, id, c);
        return;
      }
      Interfere();
      ghost var h2 := hub.View();
      var moved := CasAdvance(r.value, git.swaps);
      ghost var h3 := hub.View();
      MovedSelf(hub.hash, h3);
      if moved {
        Interfere();
      } else {
        r := Err(busy);
      }
      MovedThen(hub.hash, h0, h1, h2);
      MovedThen(hub.hash, h0, h2, h3);
      MovedThen(hub.hash, h1, h2, h3);
      MovedThen(hub.hash, h1, h3, hub.View());
      MovedThen(hub.hash, h0, h1, hub.View());
      NamesStay(hub.hash, h1, hub.View(), id, c);
    }

    /** The end of a publication: a failed push compare-and-swaps the mirror back. */
    method Settle(outcome: PushOutcome, commit: Sha, head: Sha) returns (r: Result<Sha>)
      requires commit != head
      modifies this
      ensures r == if outcome.Accepted? then Ok(commit) else Err(ErrorOf(outcome))
      ensures r.Err? ==> mirror != Some(commit)
      ensures r.Ok? || old(mirror) != Some(commit) ==> mirror == old(mirror)
    {
      if outcome.Accepted? {
        return Ok(commit);
      }
      var restored := CasRef(head, Some(commit));
      r := Err(ErrorOf(outcome));
    }

    /** Why a publication of this state ends before its push, if it does. */
    ghost function Verdict(at: Hub, before: Hub, state: SessionState, expected: Sha, time: nat,
                           git: LocalGit): Option<Error>
      requires at.session.Some? ==> HoldsState(at.objects, at.session.value)
    {
      var c := Commit(Some(expected), StateTree(state), UpdateNote);
      Refusal(at, state, expected, git, WellTasked(state) && storable(state),
              Nameable(before.objects, hub.commitId(c, time), c))
    }

    /** `publish`: one child of the fetched head, guarded by `expected`. */
    method Publish(state: SessionState, expected: Sha, time: nat, git: LocalGit, net: Network)
      returns (r: Result<Sha>, ghost at: Hub, ghost before: Hub, ghost built: Option<Sha>)
      requires hub.Valid()
      modifies this, hub
      ensures hub.Valid() && Moved(hub.hash, old(hub.View()), at) && Moved(hub.hash, at, before)
      ensures Moved(hub.hash, before, hub.View())
      ensures Published(before, hub.View(), r, built, Some(expected), net)
      ensures built.Some? ==> BuiltOn(at, before, built.value, expected, state) && (r.Err? ==> mirror != built)
      ensures hub.View() != before ==> Step(hub.hash, before, hub.View())
      ensures at.session.Some? ==> HoldsState(at.objects, at.session.value)
      ensures built.Some? <==> Verdict(at, before, state, expected, time, git) == None
      ensures built.None? ==> r == Err(Verdict(at, before, state, expected, time, git).value)
      ensures r.Err? ==> r.error in {ValidationError, StaleRevisionError, SessionNotFoundError, GitOperationError}
    {
      hide Inv, Moved, Step, Nameable, IsSha, WellTasked;
      var f;
      if !IsSha(expected) {
        at, before, built := hub.View(), hub.View(), None;
        HeadHolds(hub.hash, at);
        MovedSelf(hub.hash, at);
        return Err(ValidationError), at, before, built;
      }
      f, at := FetchState(git.fetches);
      HeadHolds(hub.hash, at);
      before, built := hub.View(), None;
      MovedSelf(hub.hash, before);
      if f.Err? {
        return Err(f.error), at, before, built;
      }
      var head, current := f.value.0, f.value.1;
      if state.Identity() != current.Identity() {
        return Err(ValidationError), at, before, built;
      }
      if head != expected {
        return Err(StaleRevisionError), at, before, built;
      }
      if !(WellTasked(state) && storable(state)) {
        return Err(ValidationError), at, before, built;
      }
      r, before, built := PushChild(state, current, head, time, git, net, at);
    }

    /** The second half of `publish`, from the built commit to the settled push. */
    method PushChild(state: SessionState, current: SessionState, head: Sha, time: nat, git: LocalGit, net: Network,
                     ghost at: Hub)
      returns (r: Result<Sha>, ghost before: Hub, ghost built: Option<Sha>)
      requires hub.Valid() && Moved(hub.hash, at, hub.View()) && Inv(hub.hash, at)
      requires FetchedAt(at, head, current) && state.Identity() == current.Identity() && WellTasked(state)
      modifies this, hub
      ensures hub.Valid() && Moved(hub.hash, at, before) && Moved(hub.hash, before, hub.View())
      ensures Published(before, hub.View(), r, built, Some(head), net)
      ensures var c := Commit(Some(head), StateTree(state), UpdateNote);
              var writes := git.commits && Nameable(before.objects, hub.commitId(c, time), c);
              && (built.Some? <==> writes && git.swaps)
              && (built.None? ==> r == Err(if writes then StaleRevisionError else GitOperationError))
      ensures built.Some? ==> BuiltOn(at, before, built.value, head, state) && (r.Err? ==> mirror != built)
      ensures hub.View() != before ==> Step(hub.hash, before, hub.View())
    {
      ghost var h1 := hub.View();
      var c := Build(Commit(Some(head), StateTree(state), UpdateNote), time, git, StaleRevisionError);
      before, built := hub.View(), None;
      MovedThen(hub.hash, at, h1, before);
      MovedSelf(hub.hash, before);
      if c.Err? {
        return Err(c.error), before, built;
      }
      built := Some(c.value);
      UpdateEnabled(hub.hash, at, before, c.value, head, current, state);
      r := PushBuilt(c.value, head, net);
    }

    /** Pushes a built update and settles the mirror. */
    method PushBuilt(commit: Sha, head: Sha, net: Network) returns (r: Result<Sha>)
      requires hub.Valid() && Enabled(hub.hash, hub.View(), PushUpdate(commit)) && commit != head
      requires FastForward(hub.objects, hub.session, commit) <==>
                 hub.session == Some(head) || hub.session == Some(commit)
      modifies this, hub
      ensures hub.Valid() && Moved(hub.hash, old(hub.View()), hub.View())
      ensures Published(old(hub.View()), hub.View(), r, Some(commit), Some(head), net)
      ensures r.Err? ==> mirror != Some(commit)
      ensures hub.View() != old(hub.View()) ==> Step(hub.hash, old(hub.View()), hub.View())
    {
      hide Moved, Inv, Step, Enabled;
      MovedBy(hub.hash, hub.View(), PushUpdate(commit));
      var outcome := hub.PushSession(commit, PushUpdate(commit), net);
      r := Settle(outcome, commit, head);
    }

    /** `init_session`: the root commit of a hub that has no session yet. */
    method InitSession(state: SessionState, time: nat, git: LocalGit, net: Network)
      returns (r: Result<Sha>, ghost at: Hub, ghost before: Hub, ghost built: Option<Sha>)
      requires hub.Valid()
      modifies this, hub
      ensures hub.Valid() && Moved(hub.hash, old(hub.View()), at) && Moved(hub.hash, at, before)
      ensures Published(before, hub.View(), r, built, None, net) && (r.Err? ==> built.None? || mirror != built)
      ensures built.Some? ==> built.value in before.objects
                              && before.objects[built.value] == Commit(None, StateTree(state), InitNote)
      ensures r.Ok? ==> History(hub.View()) == [r.value]
      ensures var c := Commit(None, StateTree(state), InitNote);
              var writes := git.commits && Nameable(before.objects, hub.commitId(c, time), c);
              var fits := WellTasked(state) && storable(state);
              && (built.Some? <==> git.fetches && at.session == None && fits && writes && git.swaps)
              && (built.None? ==>
                    && (r == Err(SessionAlreadyExistsError) <==> git.fetches && at.session.Some?)
                    && (r == Err(ValidationError) <==> git.fetches && at.session == None && !fits)
                    && r.error in {SessionAlreadyExistsError, ValidationError, GitOperationError})
      ensures hub.View() != before ==> Step(hub.hash, before, hub.View())
      ensures hub.View() != before && state.tasks == map[] ==> DisciplinedStep(hub.hash, before, hub.View())
    {
      Interfere();
      at, before, built := hub.View(), hub.View(), None;
      MovedSelf(hub.hash, at);
      if !git.fetches {
        return Err(GitOperationError), at, before, built;
      }
      if hub.session.Some? {
        return Err(SessionAlreadyExistsError), at, before, built;
      }
      if !(WellTasked(state) && storable(state)) {
        return Err(ValidationError), at, before, built;
      }
      var c := Build(Commit(None, StateTree(state), InitNote), time, git, GitOperationError);
      before := hub.View();
      if c.Err? {
        return Err(c.error), at, before, built;
      }
      built := Some(c.value);
      r := PushRoot(c.value, state, net);
    }

    /** Pushes a built root; a failed push deletes the mirror ref while it holds our commit. */
    method PushRoot(commit: Sha, state: SessionState, net: Network) returns (r: Result<Sha>)
      requires hub.Valid() && commit in hub.objects
      requires hub.objects[commit] == Commit(None, StateTree(state), InitNote) && WellTasked(state)
      modifies this, hub
      ensures hub.Valid() && Published(old(hub.View()), hub.View(), r, Some(commit), None, net)
      ensures r.Err? ==> mirror != Some(commit)
      ensures r.Ok? ==> History(hub.View()) == [commit]
      ensures hub.View() != old(hub.View()) ==> Step(hub.hash, old(hub.View()), hub.View())
      ensures hub.View() != old(hub.View()) && state.tasks == map[] ==>
                DisciplinedStep(hub.hash, old(hub.View()), hub.View())
    {
      ghost var before := hub.View();
      InitEnabled(hub.hash, before, commit, state);
      hide Inv, IsChain;
      var outcome := hub.PushSession(commit, PushInit(commit), net);
      if !outcome.Accepted? && mirror == Some(commit) {
        mirror := None;
      }
      r := if outcome.Accepted? then Ok(commit) else Err(ErrorOf(outcome));
    }

    /**
     `update_context`: reads the state in one fetch and checks the revision in a second one.  Success is the expected
     state with the context replaced exactly if the tasks read first are those of the expected state.
     */
    method UpdateContext(context: SharedContext, expected: Sha, time: nat, fetches: bool, git: LocalGit, net: Network)
      returns (r: Result<Sha>, ghost m: Course)
      requires hub.Valid()
      modifies this, hub
      ensures hub.Valid() && Moved(hub.hash, old(hub.View()), m.before) && Orderly(m)
      ensures r.Ok? && expected in History(old(hub.View())) ==>
                Rewrote(hub.View(), r.value, expected, SetContext(context))
      ensures hub.View() != m.before && expected in History(old(hub.View())) ==>
                Landed(hub.View(), expected, SetContext(context))
      ensures r.Ok? ==>
                m.seen.Some? && RewroteIffAgree(hub.View(), r.value, expected, SetContext(context), m.seen.value)
      ensures r.Err? && hub.View() != m.before ==> r.error == GitOperationError && LostAnswer(m.before, expected, net)
      ensures hub.View() != m.before ==> DisciplinedStep(hub.hash, m.before, hub.View())
      ensures m.seen.Some? <==> fetches && m.read.session.Some?
      ensures m.seen.None? ==> r == Err(if fetches then SessionNotFoundError else GitOperationError)
      ensures m.seen.Some? ==>
                Tried(m, r, Verdict(m.at, m.before, Apply(SetContext(context), m.seen.value), expected, time, git))
    {
      var f;
      ghost var read;
      f, read := FetchState(fetches);
      HeadHolds(hub.hash, read);
      m := Course(read, None, read, hub.View(), None);
      ghost var h0 := old(hub.View());
      MovedThen(hub.hash, h0, read, m.before);
      if f.Err? {
        return Err(f.error), m;
      }
      r, m := PublishEdit(f.value.0, f.value.1, SetContext(context), expected, time, git, net, h0, read);
    }

    /** `upsert_task`: the task's context revision must be the fetched head or one of its ancestors. */
    method UpsertTask(task: Task, expected: Sha, time: nat, fetches: bool, git: LocalGit, net: Network)
      returns (r: Result<Sha>, ghost m: Course)
      requires hub.Valid()
      modifies this, hub
      ensures hub.Valid() && Moved(hub.hash, old(hub.View()), m.before) && Orderly(m)
      ensures r.Ok? && expected in History(old(hub.View())) ==> Rewrote(hub.View(), r.value, expected, SetTask(task))
      ensures hub.View() != m.before && expected in History(old(hub.View())) ==>
                Landed(hub.View(), expected, SetTask(task))
      ensures r.Ok? ==> m.seen.Some? && RewroteIffAgree(hub.View(), r.value, expected, SetTask(task), m.seen.value)
      ensures r.Err? && hub.View() != m.before ==> r.error == GitOperationError && LostAnswer(m.before, expected, net)
      ensures hub.View() != m.before ==> DisciplinedStep(hub.hash, m.before, hub.View())
      ensures !(fetches && m.read.session.Some?) ==>
                m.seen.None? && r == Err(if fetches then SessionNotFoundError else GitOperationError)
      ensures fetches && m.read.session.Some? ==>
                var head := m.read.session.value;
                var tasks := StateAt(m.read.objects, head).tasks;
                && (m.seen.Some? <==> (task.id in tasks || |tasks| < 256)
                                      && IsAncestor(m.read.objects, task.contextRevision, head))
                && (m.seen.None? ==> r == Err(ValidationError))
      ensures m.seen.Some? ==>
                Tried(m, r, Verdict(m.at, m.before, Apply(SetTask(task), m.seen.value), expected, time, git))
    {
      var f;
      ghost var read;
      f, read := FetchState(fetches);
      HeadHolds(hub.hash, read);
      m := Course(read, None, read, hub.View(), None);
      ghost var h0 := old(hub.View());
      MovedThen(hub.hash, h0, read, m.before);
      if f.Err? {
        return Err(f.error), m;
      }
      var head, current := f.value.0, f.value.1;
      AncestorGrows(read.objects, hub.objects, task.contextRevision, head);
      if task.id !in current.tasks && |current.tasks| >= MAX_TASKS {
        return Err(ValidationError), m;
      }
      var known := FindAncestor(hub.objects, task.contextRevision, head);
      if !known {
        return Err(ValidationError), m;
      }
      r, m := PublishEdit(head, current, SetTask(task), expected, time, git, net, h0, read);
    }

    /** Publishes one edit of a state that was read at moment `read`. */
    method PublishEdit(head: Sha, current: SessionState, e: Edit, expected: Sha, time: nat, git: LocalGit, net: Network,
                       ghost h0: Hub, ghost read: Hub)
      returns (r: Result<Sha>, ghost m: Course)
      requires hub.Valid() && Moved(hub.hash, h0, read) && Moved(hub.hash, read, hub.View())
      requires FetchedAt(read, head, current)
      requires e.SetTask? ==> IsAncestor(read.objects, e.task.contextRevision, head)
      modifies this, hub
      ensures hub.Valid() && Moved(hub.hash, h0, m.before)
      ensures Orderly(m) && m.read == read && m.seen == Some(current)
      ensures HoldsState(hub.objects, head) && StateAt(hub.objects, head) == current
      ensures r.Ok? && (expected in History(h0) || expected == head) ==> Rewrote(hub.View(), r.value, expected, e)
      ensures hub.View() != m.before && (expected in History(h0) || expected == head) ==>
                Landed(hub.View(), expected, e)
      ensures r.Ok? ==> RewroteIffAgree(hub.View(), r.value, expected, e, current)
      ensures r.Err? && hub.View() != m.before ==> r.error == GitOperationError && LostAnswer(m.before, expected, net)
      ensures hub.View() != m.before ==> DisciplinedStep(hub.hash, m.before, hub.View())
      ensures Tried(m, r, Verdict(m.at, m.before, Apply(e, current), expected, time, git))
      ensures r.Err? ==> r.error in {ValidationError, StaleRevisionError, SessionNotFoundError, GitOperationError}
    {
      hide Moved, Inv, Step, DisciplinedStep, Rewrote, RewroteIffAgree, Landed, Refusal;
      ghost var h1 := hub.View();
      ghost var at, before, built;
      r, at, before, built := Publish(Apply(e, current), expected, time, git, net);
      m := Course(read, Some(current), at, before, built);
      MovedThen(hub.hash, read, h1, at);
      MovedThen(hub.hash, h0, read, at);
      MovedThen(hub.hash, h0, at, before);
      MovedThen(hub.hash, read, at, before);
      StillHeld(hub.hash, read, before, hub.View(), head);
      if built.Some? {
        EditPublished(hub.hash, h0, read, at, before, hub.View(), built.value, head, expected, e, r.Ok?);
      }
    }
  }

  /**
   The moments of an edit: the first fetch and the state it read, the second fetch, the hub before the push, and the
   commit that was pushed.
   */
  datatype Course = Course(read: Hub, seen: Option<SessionState>, at: Hub, before: Hub, built: Option<Sha>)

  /** Both fetches met states. */
  ghost predicate Orderly(m: Course) {
    && (m.read.session.Some? ==> HoldsState(m.read.objects, m.read.session.value))
    && (m.at.session.Some? ==> HoldsState(m.at.objects, m.at.session.value))
    && (m.seen.Some? ==>
          m.read.session.Some? && m.seen.value == StateAt(m.read.objects, m.read.session.value))
  }

  /** A push is tried exactly if nothing refuses it; else the caller gets the reason. */
  ghost predicate Tried(m: Course, r: Result<Sha>, verdict: Option<Error>) {
    (m.built.Some? <==> verdict.None?) && (m.built.None? ==> verdict.Some? && r == Err(verdict.value))
  }
}
