/**
 Where the promises of the store end: an update whose expected revision first appears between its two fetches, and a
 push whose answer is lost.
 */
module LostUpdate {
  import opened Common
  import opened SessionModel
  import opened GitObjects
  import opened HubModel
  import opened HubRuns
  import opened Discipline
  import opened Publication

  /**
   For every hub a and every later hub b, with any number of revisions and proposals in between: a call that read the
   head p of a, and whose second fetch saw the head e of b as expected, builds c from the state at p on top of e.  The
   push of c is accepted.  The result is e with one edit if and only if the states at p and e agree in everything else;
   otherwise what was published in between is overwritten.
   */
  lemma UnpublishedExpectedOverwrites(hash: ContextHash, a: Hub, b: Hub, p: Sha, e: Sha, c: Sha, edit: Edit)
    requires Inv(hash, a) && Moved(hash, a, b) && a.session == Some(p) && b.session == Some(e)
    requires HoldsState(a.objects, p) && c in b.objects
    requires b.objects[c] == Commit(Some(e), StateTree(Apply(edit, StateAt(a.objects, p))), UpdateNote)
    requires WellTasked(Apply(edit, StateAt(a.objects, p)))
    ensures HoldsState(b.objects, e) && Enabled(hash, b, PushUpdate(c))
    ensures Perform(b, PushUpdate(c)) == b.(session := Some(c))
    ensures Rewrote(b.(session := Some(c)), c, e, edit)
            <==> AgreeOutside(edit, StateAt(a.objects, p), StateAt(b.objects, e))
    ensures Rewrote(b.(session := Some(c)), c, e, edit) <== e in History(a)
  {
    assert Last(History(b)) == e && Last(History(a)) == p && p in History(b);
    HeadIdentity(hash, b, p, e);
    assert StateAt(b.objects, p) == StateAt(a.objects, p);
    assert IsUpdateOf(b.objects, c, e) && e in History(b);
    ChildPush(b, c, e);
    SameEditIffAgree(edit, StateAt(a.objects, p), StateAt(b.objects, e));
    if e in History(a) {
      SelfExtends(b);
      DoubleFetch(a, b, b, e);
    }
  }

  // ---- instances ------------------------------------------------------------------------------------------------

  function Id(c: char): (s: Sha)
    requires Hex(c)
    ensures IsSha(s) && s[0] == c
  {
    seq(40, _ => c)
  }

  const R: Sha := Id('a')
  const E: Sha := Id('b')
  const C: Sha := Id('c')

  const STATE: SessionState := SessionState("s", "1", "base", SharedContext("", [], map[]), map[])
  const TASK: Task := Task("t", "owner", "goal", [], "queued", R)
  const CONTEXT: SharedContext := SharedContext("new goal", [], map[])

  lemma EditsFit()
    ensures WellTasked(Apply(SetTask(TASK), STATE)) && WellTasked(Apply(SetContext(CONTEXT), STATE))
  {}

  /** One task or one context is published as e; a call that read r writes the other one on top of it as c. */
  function Objects2(published: Edit, written: Edit): Objects {
    map[R := Commit(None, StateTree(STATE), InitNote),
        E := Commit(Some(R), StateTree(Apply(published, STATE)), UpdateNote),
        C := Commit(Some(E), StateTree(Apply(written, STATE)), UpdateNote)]
  }

  /** Both edits are legal hub steps, one after the other, from the hub whose only revision is r. */
  lemma BothArePublished(hash: ContextHash, published: Edit, written: Edit)
    requires WellTasked(Apply(published, STATE)) && WellTasked(Apply(written, STATE))
    ensures var h := Hub(Objects2(published, written), Some(R), map[]);
            && Inv(hash, h) && History(h) == [R]
            && Step(hash, h, h.(session := Some(E)))
            && Step(hash, h.(session := Some(E)), h.(session := Some(C)))
  {
    var g := Objects2(published, written);
    var h := Hub(g, Some(R), map[]);
    hide WellTasked, Apply, IsSha;
    assert Sound(g) by { Objects2Sound(published, written); }
    assert WellTasked(STATE) by { StateFits(); }
    RootIsPublished(hash, g, R);
    ChildIsPublished(hash, h, R, E);
    ChildIsPublished(hash, h.(session := Some(E)), E, C);
  }

  lemma Objects2Sound(published: Edit, written: Edit)
    ensures Sound(Objects2(published, written))
  {
    var g := Objects2(published, written);
    assert ChainTo(g, [R], R) && ChainTo(g, [R, E], E) && ChainTo(g, [R, E, C], C);
  }

  lemma StateFits()
    ensures WellTasked(STATE)
  {}

  /** A hub whose only revision is r. */
  lemma RootIsPublished(hash: ContextHash, g: Objects, r: Sha)
    requires Sound(g) && IsInitCommit(g, r)
    ensures var h := Hub(g, Some(r), map[]); Inv(hash, h) && History(h) == [r]
  {
    assert ChainTo(g, [r], r);
    ChainIs(g, [r], r);
  }

  lemma ChildIsPublished(hash: ContextHash, h: Hub, p: Sha, c: Sha)
    requires Inv(hash, h) && h.session == Some(p) && IsUpdateOf(h.objects, c, p)
    ensures Step(hash, h, h.(session := Some(c))) && Inv(hash, h.(session := Some(c)))
  {
    assert Last(History(h)) == p && p in History(h);
    ChildPush(h, c, p);
    assert Enabled(hash, h, PushUpdate(c)) && h.(session := Some(c)) == Perform(h, PushUpdate(c));
    AppendUpdateKeeps(hash, h, c, p);
  }

  /** `update_context` with expected e: the task that e added disappears from its successor. */
  lemma TaskLostWhenExpectedIsNew(hash: ContextHash)
    ensures var g := Objects2(SetTask(TASK), SetContext(CONTEXT));
            var h := Hub(g, Some(R), map[]);
            && Inv(hash, h) && History(h) == [R]
            && Step(hash, h, h.(session := Some(E)))
            && Step(hash, h.(session := Some(E)), h.(session := Some(C)))
            && "t" in StateAt(g, E).tasks && "t" !in StateAt(g, C).tasks
  {
    EditsFit();
    BothArePublished(hash, SetTask(TASK), SetContext(CONTEXT));
  }

  /** `upsert_task` with expected e: the context that e published is replaced by the older one. */
  lemma ContextLostWhenExpectedIsNew(hash: ContextHash)
    ensures var g := Objects2(SetContext(CONTEXT), SetTask(TASK));
            var h := Hub(g, Some(R), map[]);
            && Inv(hash, h) && History(h) == [R]
            && Step(hash, h, h.(session := Some(E)))
            && Step(hash, h.(session := Some(E)), h.(session := Some(C)))
            && IsAncestor(g, TASK.contextRevision, R)
            && StateAt(g, E).context == CONTEXT && StateAt(g, C).context == STATE.context != CONTEXT
  {
    EditsFit();
    BothArePublished(hash, SetContext(CONTEXT), SetTask(TASK));
    var g := Objects2(SetContext(CONTEXT), SetTask(TASK));
    var h := Hub(g, Some(R), map[]);
    AncestorInChain(g, R, [R], R);
  }

  // ---- a lost answer --------------------------------------------------------------------------------------------

  /** The hub takes revision e, the answer is lost: the client sees a failed publication, yet the hub has changed. */
  lemma AnswerLostAfterAcceptedPush(hash: ContextHash)
    ensures var h := Hub(Objects2(SetTask(TASK), SetContext(CONTEXT)), Some(R), map[]);
            var after := AfterPush(h, PushUpdate(E), Network(true, false));
            && Inv(hash, h) && Enabled(hash, h, PushUpdate(E))
            && OutcomeOf(Network(true, false), true) == TransportFailure
            && after == h.(session := Some(E)) && after != h
            && Published(h, after, Err(GitOperationError), Some(E), Some(R), Network(true, false))
  {
    EditsFit();
    BothArePublished(hash, SetTask(TASK), SetContext(CONTEXT));
    var h := Hub(Objects2(SetTask(TASK), SetContext(CONTEXT)), Some(R), map[]);
    assert IsUpdateOf(h.objects, E, R) && R in History(h);
    ChildPush(h, E, R);
  }
}
