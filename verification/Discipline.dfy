/**
 Consequences of the hub invariant for read-modify-write clients: the double fetch of `update_context` and
 `upsert_task` loses nothing, and every task points at an earlier revision of its own history.
 */
module Discipline {
  import opened Common
  import opened SessionModel
  import opened GitObjects
  import opened HubModel
  import opened HubRuns

  /** If the first and the last of three moments show the same head, so does the middle one. */
  lemma Sandwich(a: Hub, b: Hub, c: Hub)
    requires Extends(a, b) && Extends(b, c) && a.session == c.session
    ensures b.session == a.session && b.proposals == a.proposals == c.proposals
  {
    HistoryGrows(a, c);
    assert History(b) == History(a);
    if b.session.Some? {
      assert Last(History(b)) == b.session.value;
      assert Last(History(a)) == a.session.value;
    }
  }

  /**
   No lost update despite double fetching: a revision that was already published when the call began (a), and
   is the head when `publish` fetches (c), was also the head when the state was read in between (b).
   */
  lemma DoubleFetch(a: Hub, b: Hub, c: Hub, expected: Sha)
    requires Extends(a, b) && Extends(b, c)
    requires expected in History(a) && c.session == Some(expected)
    ensures b.session == Some(expected) && a.session == Some(expected)
  {
    var ha, hb, hc := History(a), History(b), History(c);
    assert ha <= hb <= hc;
    ChainDistinct(c.objects, hc);
    var i :| 0 <= i < |ha| && ha[i] == expected;
    assert hc[i] == expected && hc[|hc| - 1] == expected;
    assert ha == hc && hb == hc;
    assert a.session.Some? && b.session.Some?;
    assert Last(ha) == a.session.value && Last(hb) == b.session.value;
  }

  // ---- task provenance ------------------------------------------------------------------------------------------

  /** The state was built by one metadata edit of a state b on the parent's own history. */
  ghost predicate EditOf(g: Objects, s: Sha, b: Sha, e: Edit) {
    && HoldsState(g, s) && HoldsState(g, b)
    && StateAt(g, s) == Apply(e, StateAt(g, b))
    && (e.SetTask? ==> IsAncestor(g, e.task.contextRevision, b))
  }

  /** Actions of clients that only use init with no tasks, the edits above and proposals. */
  ghost predicate Disciplined(g: Objects, a: Action) {
    match a
    case StoreObject(_, _) => true
    case PushInit(s) => HoldsState(g, s) && StateAt(g, s).tasks == map[]
    case PushUpdate(s) =>
      s in g && g[s].parent.Some? && exists b, e :: IsAncestor(g, b, g[s].parent.value) && EditOf(g, s, b, e)
    case PushProposal(_, _, _) => true
  }

  ghost predicate DisciplinedStep(hash: ContextHash, h: Hub, h': Hub) {
    Wf(h) && exists a :: Enabled(hash, h, a) && Disciplined(h.objects, a) && h' == Perform(h, a)
  }

  ghost predicate TasksBefore(g: Objects, s: seq<Sha>, i: int) {
    && 0 <= i < |s| && HoldsState(g, s[i])
    && forall id :: id in StateAt(g, s[i]).tasks ==> StateAt(g, s[i]).tasks[id].contextRevision in s[..i]
  }

  ghost predicate Provenance(g: Objects, s: seq<Sha>) {
    forall i :: 0 <= i < |s| ==> TasksBefore(g, s, i)
  }

  lemma ProvenanceGrows(g: Objects, g': Objects, s: seq<Sha>)
    requires Provenance(g, s) && Grows(g, g')
    ensures Provenance(g', s)
  {
    forall i | 0 <= i < |s| ensures TasksBefore(g', s, i) {
      assert TasksBefore(g, s, i) && s[i] in g;
      assert StateAt(g', s[i]) == StateAt(g, s[i]);
    }
  }

  lemma ProvenanceAppend(g: Objects, s: seq<Sha>, c: Sha)
    requires Provenance(g, s) && HoldsState(g, c)
    requires forall id :: id in StateAt(g, c).tasks ==> StateAt(g, c).tasks[id].contextRevision in s
    ensures Provenance(g, s + [c])
  {
    var t := s + [c];
    forall i | 0 <= i < |t| ensures TasksBefore(g, t, i) {
      if i < |s| {
        assert TasksBefore(g, s, i);
        assert t[..i] == s[..i] && t[i] == s[i];
      } else {
        assert t[..i] == s;
      }
    }
  }

  /** One edit of an earlier state only mentions revisions that precede the new commit. */
  lemma EditProvenance(h: Hub, c: Sha, p: Sha, b: Sha, e: Edit)
    requires Wf(h) && h.session == Some(p) && Provenance(h.objects, History(h))
    requires IsAncestor(h.objects, b, p) && EditOf(h.objects, c, b, e)
    ensures forall id :: id in StateAt(h.objects, c).tasks ==>
              StateAt(h.objects, c).tasks[id].contextRevision in History(h)
  {
    var g, s := h.objects, History(h);
    AncestorInChain(g, b, s, p);
    var k :| 0 <= k < |s| && s[k] == b;
    assert TasksBefore(g, s, k);
    ChainPrefix(g, s, k + 1);
    if e.SetTask? {
      AncestorInChain(g, e.task.contextRevision, s[..k + 1], b);
    }
    forall id | id in StateAt(g, c).tasks ensures StateAt(g, c).tasks[id].contextRevision in s {
      if !(e.SetTask? && id == e.task.id) {
        assert StateAt(g, c).tasks[id] == StateAt(g, b).tasks[id];
        assert StateAt(g, b).tasks[id].contextRevision in s[..k];
      }
    }
  }

  lemma DisciplinedStepKeeps(hash: ContextHash, h: Hub, h': Hub)
    requires Inv(hash, h) && Provenance(h.objects, History(h)) && DisciplinedStep(hash, h, h')
    ensures Inv(hash, h') && Provenance(h'.objects, History(h')) && Step(hash, h, h')
  {
    var a :| Enabled(hash, h, a) && Disciplined(h.objects, a) && h' == Perform(h, a);
    ActionKeeps(hash, h, a);
    if a.StoreObject? {
      StoreKeeps(hash, h, a.sha, a.commit);
      ProvenanceGrows(h.objects, h'.objects, History(h));
    } else if h' != h {
      ProvenanceOfPush(hash, h, a);
    }
  }

  lemma ProvenanceOfPush(hash: ContextHash, h: Hub, a: Action)
    requires Inv(hash, h) && Provenance(h.objects, History(h)) && Enabled(hash, h, a) && Disciplined(h.objects, a)
    requires !a.StoreObject? && AddsOne(h, Perform(h, a))
    ensures Provenance(h.objects, History(Perform(h, a)))
  {
    var s := History(h);
    var c := Perform(h, a).session.value;
    match a
    case StoreObject(_, _) =>
    case PushInit(_) => ProvenanceAppend(h.objects, s, c);
    case PushUpdate(_) =>
      var b, e :| IsAncestor(h.objects, b, h.objects[c].parent.value) && EditOf(h.objects, c, b, e);
      EditProvenance(h, c, h.session.value, b, e);
      ProvenanceAppend(h.objects, s, c);
    case PushProposal(_, _, _) =>
      assert TasksBefore(h.objects, s, |s| - 1);
      ProvenanceAppend(h.objects, s, c);
  }

  ghost predicate IsDisciplinedRun(hash: ContextHash, run: seq<Hub>) {
    |run| > 0 && forall i, j :: 0 <= i < j < |run| && j == i + 1 ==> DisciplinedStep(hash, run[i], run[j])
  }

  /**
   In every state of every disciplined run from the empty hub, each task of each published state names as its
   context revision a strictly earlier revision of the same history.
   */
  lemma {:induction false} TasksNameEarlierRevisions(hash: ContextHash, run: seq<Hub>)
    requires IsDisciplinedRun(hash, run) && run[0] == EMPTY
    ensures Inv(hash, Last(run)) && Provenance(Last(run).objects, History(Last(run)))
    decreases |run|
  {
    if |run| == 1 {
      EmptyHubInv(hash);
    } else {
      var short := run[..|run| - 1];
      TasksNameEarlierRevisions(hash, short);
      assert Last(short) == run[|run| - 2] && DisciplinedStep(hash, run[|run| - 2], run[|run| - 1]);
      DisciplinedStepKeeps(hash, run[|run| - 2], run[|run| - 1]);
    }
  }
}
