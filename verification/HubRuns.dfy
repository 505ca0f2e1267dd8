/** Whole runs of the hub, and what every interleaving of clients keeps. */
module HubRuns {
  import opened Common
  import opened SessionModel
  import opened GitObjects
  import opened HubModel

  // ---- whole runs -----------------------------------------------------------------------------------------------

  /** Any interleaving of any number of clients is a sequence of states each one Step after the previous. */
  ghost predicate IsRun(hash: ContextHash, run: seq<Hub>) {
    |run| > 0 && forall i, j :: 0 <= i < j < |run| && j == i + 1 ==> Step(hash, run[i], run[j])
  }

  ghost predicate Reaches(hash: ContextHash, h: Hub, h': Hub) {
    exists run :: IsRun(hash, run) && run[0] == h && Last(run) == h'
  }

  lemma {:induction false} RunKeeps(hash: ContextHash, run: seq<Hub>)
    requires IsRun(hash, run) && Inv(hash, run[0])
    ensures forall i :: 0 <= i < |run| ==> Inv(hash, run[i]) && Extends(run[0], run[i])
    decreases |run|
  {
    hide Extends, Step, OneSession, ProposalsMatch, Sound;
    SelfExtends(run[0]);
    if |run| > 1 {
      var short := run[..|run| - 1];
      RunKeeps(hash, short);
      assert short[|short| - 1] == run[|run| - 2];
      StepKeeps(hash, run[|run| - 2], run[|run| - 1]);
      ExtendsTransitive(run[0], run[|run| - 2], run[|run| - 1]);
      forall i | 0 <= i < |run| ensures Inv(hash, run[i]) && Extends(run[0], run[i]) {
        if i < |short| { assert short[i] == run[i]; }
      }
    }
  }

  lemma ExtendsTransitive(a: Hub, b: Hub, c: Hub)
    requires Extends(a, b) && Extends(b, c)
    ensures Extends(a, c)
  {
    if a.session == c.session && a.session.Some? {
      assert History(a) <= History(b) <= History(c);
      SameTipSameHistory(a, c);
      assert History(b) == History(a);
      assert b.session == Some(Last(History(b)));
    }
  }

  lemma SelfExtends(h: Hub)
    requires Wf(h)
    ensures Extends(h, h)
  {}

  lemma SameTipSameHistory(a: Hub, c: Hub)
    requires Wf(a) && Wf(c) && Grows(a.objects, c.objects) && a.session == c.session
    ensures History(a) == History(c)
  {
    HistoryGrows(a, c);
  }

  lemma ReachesSelf(hash: ContextHash, h: Hub)
    ensures Reaches(hash, h, h)
  {
    assert IsRun(hash, [h]) && Last([h]) == h;
  }

  lemma ReachesThen(hash: ContextHash, a: Hub, b: Hub, c: Hub)
    requires Reaches(hash, a, b) && Reaches(hash, b, c)
    ensures Reaches(hash, a, c)
  {
    var r :| IsRun(hash, r) && r[0] == a && Last(r) == b;
    var q :| IsRun(hash, q) && q[0] == b && Last(q) == c;
    var run := r + q[1..];
    forall i | 0 < i < |run| ensures Step(hash, run[i - 1], run[i]) {
      if i == |r| {
        assert run[i - 1] == q[0] && run[i] == q[1];
      } else if i > |r| {
        assert run[i] == q[i - |r| + 1] && run[i - 1] == q[i - |r|];
      }
    }
    assert Last(run) == c;
  }

  lemma StepReaches(hash: ContextHash, a: Hub, b: Hub)
    requires Step(hash, a, b)
    ensures Reaches(hash, a, b)
  {
    var run := [a, b];
    assert IsRun(hash, run) && Last(run) == b;
  }

  /** Other clients moved the hub from h to h'. */
  ghost predicate Moved(hash: ContextHash, h: Hub, h': Hub) {
    Inv(hash, h') && Reaches(hash, h, h') && Extends(h, h')
  }

  lemma MovedSelf(hash: ContextHash, h: Hub)
    requires Inv(hash, h)
    ensures Moved(hash, h, h)
  {
    ReachesSelf(hash, h);
    SelfExtends(h);
  }

  lemma MovedThen(hash: ContextHash, a: Hub, b: Hub, c: Hub)
    requires Moved(hash, a, b) && Moved(hash, b, c)
    ensures Moved(hash, a, c)
  {
    ReachesThen(hash, a, b, c);
    ExtendsTransitive(a, b, c);
  }

  lemma MovedBy(hash: ContextHash, h: Hub, a: Action)
    requires Inv(hash, h) && Enabled(hash, h, a)
    ensures Moved(hash, h, Perform(h, a)) && Step(hash, h, Perform(h, a))
  {
    ActionKeeps(hash, h, a);
    assert Step(hash, h, Perform(h, a));
    StepReaches(hash, h, Perform(h, a));
  }

  // ---- the promises ---------------------------------------------------------------------------------------------

  /**
   Publication linearizes.  In every state of every run from the empty hub the history is one chain of distinct
   revisions with one session identity, and it is a prefix of the history of every later state.
   */
  lemma HistoryLinearizes(hash: ContextHash, run: seq<Hub>, i: nat, j: nat)
    requires IsRun(hash, run) && run[0] == EMPTY && i <= j < |run|
    ensures Wf(run[i]) && Wf(run[j])
    ensures History(run[i]) <= History(run[j])
    ensures Distinct(History(run[j]))
    ensures run[j].session.Some? ==> IsChain(run[j].objects, History(run[j]))
    ensures OneSession(run[j].objects, History(run[j]))
  {
    EmptyHubInv(hash);
    RunKeeps(hash, run);
    var tail := run[i..];
    assert IsRun(hash, tail) by {
      forall k | 0 < k < |tail| ensures Step(hash, tail[k - 1], tail[k]) { assert run[i + k - 1] == tail[k - 1]; }
    }
    RunKeeps(hash, tail);
    assert tail[j - i] == run[j] && tail[0] == run[i];
    if run[j].session.Some? { ChainDistinct(run[j].objects, History(run[j])); }
  }

  /**
   Proposal atomicity.  In every state of every run each proposal ref holds a parentless root with its own id,
   keeps it for ever, and has exactly one companion in the session history; that companion repeats its parent's
   state and the recorded context hash is the hash of the context there.  No note exists without its ref.
   */
  lemma ProposalsAreAtomic(hash: ContextHash, run: seq<Hub>, i: nat, j: nat, id: string)
    requires IsRun(hash, run) && run[0] == EMPTY && i <= j < |run|
    ensures Wf(run[i]) && Wf(run[j])
    ensures id in run[i].proposals ==> id in run[j].proposals && run[j].proposals[id] == run[i].proposals[id]
    ensures id in run[j].proposals ==>
      exists k :: Companion(hash, run[j], History(run[j]), id, k)
        && forall m :: Companion(hash, run[j], History(run[j]), id, m) ==> m == k
    ensures forall k :: 0 <= k < |History(run[j])| && IsNote(run[j].objects, History(run[j])[k])
              ==> run[j].objects[History(run[j])[k]].message.proposalId in run[j].proposals
  {
    HistoryLinearizes(hash, run, i, j);
    EmptyHubInv(hash);
    RunKeeps(hash, run);
    RunExtends(hash, run, i, j);
    var s := History(run[j]);
    if id in run[j].proposals {
      var k :| Companion(hash, run[j], s, id, k);
      forall m | Companion(hash, run[j], s, id, m) ensures m == k {
        assert IsNote(run[j].objects, s[m]) && IsNote(run[j].objects, s[k]);
      }
    }
  }

  lemma RunExtends(hash: ContextHash, run: seq<Hub>, i: nat, j: nat)
    requires IsRun(hash, run) && Inv(hash, run[0]) && i <= j < |run|
    ensures Extends(run[i], run[j])
  {
    RunKeeps(hash, run);
    var tail := run[i..];
    assert IsRun(hash, tail) by {
      forall k | 0 < k < |tail| ensures Step(hash, tail[k - 1], tail[k]) { assert run[i + k - 1] == tail[k - 1]; }
    }
    RunKeeps(hash, tail);
    assert tail[j - i] == run[j] && tail[0] == run[i];
  }

  /** The step at which a proposal ref appears is the step at which its companion becomes the session head. */
  lemma ProposalCreatedWithCompanion(hash: ContextHash, h: Hub, h': Hub, id: string)
    requires Inv(hash, h) && Step(hash, h, h') && id !in h.proposals && id in h'.proposals
    ensures Inv(hash, h') && h.session.Some? && h'.session.Some?
    ensures IsCompanionOf(hash, h'.objects, h'.session.value, h.session.value, id, h'.proposals[id])
    ensures History(h') == History(h) + [h'.session.value]
  {
    hide OneSession, IsSha, WellTasked;
    var a :| Enabled(hash, h, a) && h' == Perform(h, a);
    assert a.PushProposal? && a.id == id;
    var child, root := a.child, a.root;
    var p :| p in History(h) && IsCompanionOf(hash, h.objects, child, p, id, root)
             && (h.session == Some(p) ==> id !in h.proposals);
    FreshPush(hash, h, h', child, p, id, root);
    AppendProposalKeeps(hash, h, child, p, id, root);
  }

  /** A push that creates a proposal ref was built on the head. */
  lemma FreshPush(hash: ContextHash, h: Hub, h': Hub, child: Sha, p: Sha, id: string, root: Sha)
    requires Inv(hash, h) && p in History(h) && IsCompanionOf(hash, h.objects, child, p, id, root)
    requires h' == Perform(h, PushProposal(child, id, root)) && id !in h.proposals && id in h'.proposals
    ensures h.session == Some(p) && h' == h.(session := Some(child), proposals := h.proposals[id := root])
  {
    ChildPush(h, child, p);
    if h.session == Some(child) {
      HeadNote(hash, h, child, p, id, root);
    }
  }
}
