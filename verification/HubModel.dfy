/**
 The shared hub as a state machine.  A state holds every commit object any client has built and the refs of
 the hub repository.  An action is one atomic effect of some client: writing an object, or a push.  `Enabled`
 says what the client code has established when it pushes; `Perform` is Git's own fast-forward rule.
 */
module HubModel {
  import opened Common
  import opened SessionModel
  import opened GitObjects

  datatype Hub = Hub(objects: Objects, session: Option<Sha>, proposals: map<string, Sha>)

  type ContextHash = SharedContext -> string

  const EMPTY: Hub := Hub(map[], None, map[])

  ghost predicate Wf(h: Hub) {
    Sound(h.objects) && (h.session.Some? ==> h.session.value in h.objects)
  }

  /** Published revisions, oldest first. */
  ghost function History(h: Hub): (s: seq<Sha>)
    requires Wf(h)
    ensures h.session.None? <==> s == []
    ensures h.session.Some? ==> ChainTo(h.objects, s, h.session.value)
  {
    if h.session.None? then [] else Chain(h.objects, h.session.value)
  }

  predicate HoldsState(g: Objects, s: Sha) {
    s in g && g[s].tree.StateTree?
  }

  function StateAt(g: Objects, s: Sha): SessionState
    requires HoldsState(g, s)
  {
    g[s].tree.state
  }

  /** Git accepts an ordinary push when the ref is absent or its value is the pushed commit or an ancestor. */
  ghost predicate FastForward(g: Objects, current: Option<Sha>, pushed: Sha) {
    pushed in g && (current.Some? ==> IsAncestor(g, current.value, pushed))
  }

  function Ref(m: map<string, Sha>, id: string): Option<Sha> {
    if id in m then Some(m[id]) else None
  }

  datatype Action =
    | StoreObject(sha: Sha, commit: Commit)
    | PushInit(sha: Sha)
    | PushUpdate(sha: Sha)
    | PushProposal(child: Sha, id: string, root: Sha)

  ghost function Perform(h: Hub, a: Action): Hub {
    match a
    case StoreObject(s, c) => h.(objects := h.objects[s := c])
    case PushInit(s) => if FastForward(h.objects, h.session, s) then h.(session := Some(s)) else h
    case PushUpdate(s) => if FastForward(h.objects, h.session, s) then h.(session := Some(s)) else h
    case PushProposal(c, id, r) =>
      // --atomic: both refs or neither
      if FastForward(h.objects, h.session, c) && FastForward(h.objects, Ref(h.proposals, id), r)
      then h.(session := Some(c), proposals := h.proposals[id := r]) else h
  }

  ghost predicate IsInitCommit(g: Objects, s: Sha) {
    && s in g && g[s].parent == None && g[s].tree.StateTree? && g[s].message == InitNote
    && WellTasked(g[s].tree.state)
  }

  /** An update was built on a revision p that had been fetched as the hub head, keeping the identity triple. */
  ghost predicate IsUpdateOf(g: Objects, s: Sha, p: Sha) {
    && HoldsState(g, s) && HoldsState(g, p)
    && g[s].parent == Some(p) && g[s].message == UpdateNote
    && StateAt(g, s).Identity() == StateAt(g, p).Identity() && WellTasked(StateAt(g, s))
  }

  /** A proposal root carries no history and records the id it is published under. */
  ghost predicate IsProposalRoot(g: Objects, r: Sha, id: string) {
    r in g && g[r].parent == None && g[r].tree.ProposalTree? && g[r].tree.proposal.id == id
  }

  /** The companion session commit repeats its parent's state and names the proposal and its context hash. */
  ghost predicate IsCompanionOf(hash: ContextHash, g: Objects, c: Sha, p: Sha, id: string, r: Sha) {
    && HoldsState(g, c) && HoldsState(g, p) && IsProposalRoot(g, r, id)
    && g[c].parent == Some(p) && g[c].tree == g[p].tree
    && var recorded := g[r].tree.proposal.contextHash;
       g[c].message == ProposalNote(id, recorded) && recorded == hash(StateAt(g, c).context)
  }

  ghost predicate Enabled(hash: ContextHash, h: Hub, a: Action)
    requires Wf(h)
  {
    match a
    case StoreObject(s, c) => CanStore(h.objects, s, c)
    case PushInit(s) => IsInitCommit(h.objects, s)
    case PushUpdate(s) => exists p :: p in History(h) && IsUpdateOf(h.objects, s, p)
    case PushProposal(c, id, r) =>
      exists p :: p in History(h) && IsCompanionOf(hash, h.objects, c, p, id, r)
                  && (h.session == Some(p) ==> id !in h.proposals)
  }

  ghost predicate Step(hash: ContextHash, h: Hub, h': Hub) {
    Wf(h) && exists a :: Enabled(hash, h, a) && h' == Perform(h, a)
  }

  // ---- what every reachable hub satisfies -----------------------------------------------------------------------

  /** Every revision holds a state within the limits, and all of them have one identity. */
  ghost predicate OneSession(g: Objects, s: seq<Sha>) {
    && (forall i :: 0 <= i < |s| ==> HoldsState(g, s[i]) && WellTasked(StateAt(g, s[i])))
    && (forall i, j :: 0 <= i < |s| && 0 <= j < |s| ==> StateAt(g, s[i]).Identity() == StateAt(g, s[j]).Identity())
  }

  /** Position i of the history is the commit that was pushed together with proposal `id`. */
  ghost predicate Companion(hash: ContextHash, h: Hub, s: seq<Sha>, id: string, i: int) {
    && 0 <= i < |s| && id in h.proposals && s[i] in h.objects && h.objects[s[i]].parent.Some?
    && IsCompanionOf(hash, h.objects, s[i], h.objects[s[i]].parent.value, id, h.proposals[id])
  }

  ghost predicate IsNote(g: Objects, s: Sha) {
    s in g && g[s].message.ProposalNote?
  }

  ghost predicate RefsHaveCompanions(hash: ContextHash, h: Hub, s: seq<Sha>) {
    forall id :: id in h.proposals ==> exists i :: Companion(hash, h, s, id, i)
  }

  ghost predicate NotesAreCompanions(hash: ContextHash, h: Hub, s: seq<Sha>) {
    forall i :: 0 <= i < |s| && IsNote(h.objects, s[i])
      ==> Companion(hash, h, s, h.objects[s[i]].message.proposalId, i)
  }

  ghost predicate NotesDistinct(g: Objects, s: seq<Sha>) {
    forall i, j :: 0 <= i < j < |s| && IsNote(g, s[i]) && IsNote(g, s[j])
      ==> g[s[i]].message.proposalId != g[s[j]].message.proposalId
  }

  /** Proposal refs and the notes in the session history correspond one to one. */
  ghost predicate ProposalsMatch(hash: ContextHash, h: Hub, s: seq<Sha>) {
    RefsHaveCompanions(hash, h, s) && NotesAreCompanions(hash, h, s) && NotesDistinct(h.objects, s)
  }

  ghost predicate Inv(hash: ContextHash, h: Hub) {
    && Wf(h)
    && OneSession(h.objects, History(h))
    && ProposalsMatch(hash, h, History(h))
  }

  lemma EmptyHubInv(hash: ContextHash)
    ensures Inv(hash, EMPTY) && History(EMPTY) == []
  {}

  /** The only heads from which a child of a published revision can be pushed: its parent, or itself. */
  lemma ChildPush(h: Hub, c: Sha, p: Sha)
    requires Wf(h) && p in History(h) && c in h.objects && h.objects[c].parent == Some(p)
    ensures FastForward(h.objects, h.session, c) <==> h.session == Some(p) || h.session == Some(c)
    ensures h.session == Some(p) ==> c !in History(h)
  {
    var g, s := h.objects, History(h);
    var i :| 0 <= i < |s| && s[i] == p;
    ChainPrefix(g, s, i + 1);
    ChainExtend(g, s[..i + 1], p, c);
    var k := s[..i + 1] + [c];
    AncestorInChain(g, Last(s), k, c);
    ChainDistinct(g, s);
    if Last(s) in k && Last(s) != c {
      var j :| 0 <= j < |k| && k[j] == Last(s);
      assert s[j] == s[|s| - 1];
    }
    if h.session == Some(p) {
      assert k == s + [c];
      ChainDistinct(g, k);
      assert forall j :: 0 <= j < |s| ==> k[j] == s[j] && k[j] != k[|s|];
    }
  }

  lemma RootPush(h: Hub, c: Sha)
    requires Wf(h) && c in h.objects && h.objects[c].parent == None
    ensures FastForward(h.objects, h.session, c) <==> h.session == None || h.session == Some(c)
  {
    assert ChainTo(h.objects, [c], c);
    if h.session.Some? {
      AncestorInChain(h.objects, h.session.value, [c], c);
    }
  }

  /** A proposal ref, once it holds a root, can only be pushed to that same root. */
  lemma RootRefFixed(g: Objects, held: Sha, r: Sha)
    requires r in g && g[r].parent == None
    ensures FastForward(g, Some(held), r) <==> held == r
  {
    assert ChainTo(g, [r], r);
    AncestorInChain(g, held, [r], r);
  }

  // ---- one step -------------------------------------------------------------------------------------------------

  /** Objects and histories only grow, and a proposal ref never changes. */
  ghost predicate Extends(h: Hub, h': Hub) {
    && Wf(h) && Wf(h') && Grows(h.objects, h'.objects)
    && History(h) <= History(h')
    && (forall id :: id in h.proposals ==> id in h'.proposals && h'.proposals[id] == h.proposals[id])
    && (h.session == h'.session ==> h.proposals == h'.proposals)
  }

  lemma HistoryGrows(h: Hub, h': Hub)
    requires Wf(h) && Wf(h') && Grows(h.objects, h'.objects) && h.session == h'.session
    ensures History(h) == History(h')
  {
    if h.session.Some? {
      RootedGrows(h.objects, h'.objects, h.session.value);
    }
  }

  lemma CompanionCarries(hash: ContextHash, h: Hub, h': Hub, s: seq<Sha>, t: seq<Sha>, id: string, i: int)
    requires Companion(hash, h, s, id, i) && s <= t && Grows(h.objects, h'.objects)
    requires id in h'.proposals && h'.proposals[id] == h.proposals[id]
    ensures Companion(hash, h', t, id, i)
  {
    assert t[i] == s[i];
  }

  lemma MoreRefsHaveCompanions(hash: ContextHash, h: Hub, h': Hub, s: seq<Sha>, t: seq<Sha>)
    requires RefsHaveCompanions(hash, h, s) && s <= t && Grows(h.objects, h'.objects)
    requires forall q :: q in h'.proposals ==>
               (q in h.proposals && h'.proposals[q] == h.proposals[q]) || Companion(hash, h', t, q, |s|)
    ensures RefsHaveCompanions(hash, h', t)
  {
    forall q | q in h'.proposals ensures exists i :: Companion(hash, h', t, q, i) {
      if q in h.proposals && h'.proposals[q] == h.proposals[q] {
        var i :| Companion(hash, h, s, q, i);
        CompanionCarries(hash, h, h', s, t, q, i);
      }
    }
  }

  lemma IdentityGrows(g: Objects, g': Objects, s: seq<Sha>)
    requires OneSession(g, s) && Grows(g, g')
    ensures OneSession(g', s)
  {
    forall i | 0 <= i < |s| ensures HoldsState(g', s[i]) && StateAt(g', s[i]) == StateAt(g, s[i]) {
      assert HoldsState(g, s[i]);
    }
  }

  lemma IdentityAppend(g: Objects, s: seq<Sha>, c: Sha)
    requires OneSession(g, s) && |s| > 0 && HoldsState(g, c) && WellTasked(StateAt(g, c))
    requires StateAt(g, c).Identity() == StateAt(g, Last(s)).Identity()
    ensures OneSession(g, s + [c])
  {
    var t := s + [c];
    hide WellTasked;
    forall i | 0 <= i < |t|
      ensures HoldsState(g, t[i]) && StateAt(g, t[i]).Identity() == StateAt(g, c).Identity()
      ensures WellTasked(StateAt(g, t[i]))
    {
      if i < |s| { assert t[i] == s[i] && HoldsState(g, s[i]); }
    }
  }

  lemma ProposalsMatchGrows(hash: ContextHash, h: Hub, h': Hub, t: seq<Sha>)
    requires ProposalsMatch(hash, h, t) && Grows(h.objects, h'.objects) && h'.proposals == h.proposals
    requires forall i :: 0 <= i < |t| ==> t[i] in h.objects
    ensures ProposalsMatch(hash, h', t)
  {
    MoreRefsHaveCompanions(hash, h, h', t, t);
    assert forall i :: 0 <= i < |t| ==>
        (IsNote(h'.objects, t[i]) <==> IsNote(h.objects, t[i]))
        && h'.objects[t[i]] == h.objects[t[i]];
    NotesGrow(hash, h, h', t);
  }

  lemma NotesGrow(hash: ContextHash, h: Hub, h': Hub, t: seq<Sha>)
    requires NotesAreCompanions(hash, h, t) && Grows(h.objects, h'.objects) && h'.proposals == h.proposals
    requires forall i :: 0 <= i < |t| ==> t[i] in h.objects
    ensures NotesAreCompanions(hash, h', t)
  {
    forall i | 0 <= i < |t| && IsNote(h'.objects, t[i])
      ensures Companion(hash, h', t, h'.objects[t[i]].message.proposalId, i)
    {
      CompanionCarries(hash, h, h', t, t, h.objects[t[i]].message.proposalId, i);
    }
  }

  lemma StoreKeeps(hash: ContextHash, h: Hub, s: Sha, c: Commit)
    requires Inv(hash, h) && CanStore(h.objects, s, c)
    ensures var h' := Perform(h, StoreObject(s, c)); Inv(hash, h') && Extends(h, h') && History(h') == History(h)
  {
    var h' := Perform(h, StoreObject(s, c));
    StoreSound(h.objects, s, c);
    HistoryGrows(h, h');
    IdentityGrows(h.objects, h'.objects, History(h));
    ProposalsMatchGrows(hash, h, h', History(h));
  }

  /** What a successful push of a child of the current head does to the history. */
  lemma AppendHistory(h: Hub, h': Hub, c: Sha)
    requires Wf(h) && c in h.objects && h'.objects == h.objects && h'.session == Some(c)
    requires h.objects[c].parent == h.session
    ensures Wf(h') && History(h') == History(h) + [c]
  {
    if h.session.Some? {
      ChainExtend(h.objects, History(h), h.session.value, c);
      ChainIs(h.objects, History(h) + [c], c);
    } else {
      ChainIs(h.objects, [c], c);
    }
  }

  lemma InitKeeps(hash: ContextHash, h: Hub, c: Sha)
    requires Inv(hash, h) && h.session == None && IsInitCommit(h.objects, c)
    ensures var h' := h.(session := Some(c)); Inv(hash, h') && Extends(h, h') && History(h') == [c]
  {
    var h' := h.(session := Some(c));
    AppendHistory(h, h', c);
  }

  lemma MoreNotesAreCompanions(hash: ContextHash, h: Hub, h': Hub, s: seq<Sha>, c: Sha)
    requires NotesAreCompanions(hash, h, s) && h'.objects == h.objects
    requires forall q :: q in h.proposals ==> q in h'.proposals && h'.proposals[q] == h.proposals[q]
    requires IsNote(h.objects, c) ==> Companion(hash, h', s + [c], h.objects[c].message.proposalId, |s|)
    ensures NotesAreCompanions(hash, h', s + [c])
  {
    var t := s + [c];
    forall i | 0 <= i < |t| && IsNote(h'.objects, t[i])
      ensures Companion(hash, h', t, h'.objects[t[i]].message.proposalId, i)
    {
      if i < |s| {
        assert t[i] == s[i];
        CompanionCarries(hash, h, h', s, t, h.objects[s[i]].message.proposalId, i);
      }
    }
  }

  lemma MoreNotesDistinct(hash: ContextHash, h: Hub, s: seq<Sha>, c: Sha)
    requires NotesAreCompanions(hash, h, s) && NotesDistinct(h.objects, s)
    requires IsNote(h.objects, c) ==> h.objects[c].message.proposalId !in h.proposals
    ensures NotesDistinct(h.objects, s + [c])
  {
    var g, t := h.objects, s + [c];
    forall i, j | 0 <= i < j < |t| && IsNote(g, t[i]) && IsNote(g, t[j])
      ensures g[t[i]].message.proposalId != g[t[j]].message.proposalId
    {
      assert t[i] == s[i] && Companion(hash, h, s, g[s[i]].message.proposalId, i);
    }
  }

  lemma AppendedProposalsMatch(hash: ContextHash, h: Hub, h': Hub, s: seq<Sha>, c: Sha, id: string, r: Sha)
    requires ProposalsMatch(hash, h, s) && id !in h.proposals
    requires h'.objects == h.objects && h'.proposals == h.proposals[id := r]
    requires Companion(hash, h', s + [c], id, |s|)
    ensures ProposalsMatch(hash, h', s + [c])
  {
    assert (s + [c])[|s|] == c;
    MoreRefsHaveCompanions(hash, h, h', s, s + [c]);
    MoreNotesAreCompanions(hash, h, h', s, c);
    MoreNotesDistinct(hash, h, s, c);
  }

  lemma AppendUpdateKeeps(hash: ContextHash, h: Hub, c: Sha, p: Sha)
    requires Inv(hash, h) && h.session == Some(p) && IsUpdateOf(h.objects, c, p)
    ensures var h' := h.(session := Some(c)); Inv(hash, h') && Extends(h, h') && History(h') == History(h) + [c]
  {
    var h', s := h.(session := Some(c)), History(h);
    AppendHistory(h, h', c);
    IdentityAppend(h.objects, s, c);
    MoreRefsHaveCompanions(hash, h, h', s, s + [c]);
    MoreNotesAreCompanions(hash, h, h', s, c);
    MoreNotesDistinct(hash, h, s, c);
  }

  lemma AppendProposalKeeps(hash: ContextHash, h: Hub, c: Sha, p: Sha, id: string, r: Sha)
    requires Inv(hash, h) && h.session == Some(p) && id !in h.proposals
    requires IsCompanionOf(hash, h.objects, c, p, id, r)
    ensures var h' := h.(session := Some(c), proposals := h.proposals[id := r]);
            Inv(hash, h') && Extends(h, h') && History(h') == History(h) + [c]
  {
    var h' := h.(session := Some(c), proposals := h.proposals[id := r]);
    AppendHistory(h, h', c);
    var s := History(h);
    IdentityAppend(h.objects, s, c);
    assert Companion(hash, h', s + [c], id, |s|);
    AppendedProposalsMatch(hash, h, h', s, c, id, r);
  }

  /** If the head is itself a companion commit, its proposal is already published. */
  lemma HeadNote(hash: ContextHash, h: Hub, c: Sha, p: Sha, id: string, r: Sha)
    requires Inv(hash, h) && IsCompanionOf(hash, h.objects, c, p, id, r) && h.session == Some(c)
    ensures id in h.proposals && r in h.objects
    ensures FastForward(h.objects, Ref(h.proposals, id), r) <==> h.proposals[id] == r
  {
    var s := History(h);
    assert IsNote(h.objects, s[|s| - 1]);
    assert Companion(hash, h, s, id, |s| - 1);
    RootRefFixed(h.objects, h.proposals[id], r);
  }

  lemma PushProposalKeeps(hash: ContextHash, h: Hub, c: Sha, id: string, r: Sha)
    requires Inv(hash, h) && Enabled(hash, h, PushProposal(c, id, r))
    ensures var h' := Perform(h, PushProposal(c, id, r));
            Inv(hash, h') && Extends(h, h') && (h' == h || AddsOne(h, h'))
  {
    var p :| p in History(h) && IsCompanionOf(hash, h.objects, c, p, id, r)
             && (h.session == Some(p) ==> id !in h.proposals);
    ChildPush(h, c, p);
    if h.session == Some(p) {
      AppendProposalKeeps(hash, h, c, p, id, r);
    } else if h.session == Some(c) {
      HeadNote(hash, h, c, p, id, r);
      assert h.proposals[id := h.proposals[id]] == h.proposals;
    }
  }

  /** Every action of every client keeps the invariant and only extends the hub. */
  lemma ActionKeeps(hash: ContextHash, h: Hub, a: Action)
    requires Inv(hash, h) && Enabled(hash, h, a)
    ensures Inv(hash, Perform(h, a)) && Extends(h, Perform(h, a))
    ensures a.StoreObject? || Perform(h, a) == h || AddsOne(h, Perform(h, a))
  {
    match a
    case StoreObject(s, c) => StoreKeeps(hash, h, s, c);
    case PushInit(c) =>
      RootPush(h, c);
      if h.session == None { InitKeeps(hash, h, c); }
    case PushUpdate(c) =>
      var p :| p in History(h) && IsUpdateOf(h.objects, c, p);
      ChildPush(h, c, p);
      if h.session == Some(p) { AppendUpdateKeeps(hash, h, c, p); }
    case PushProposal(c, id, r) => PushProposalKeeps(hash, h, c, id, r);
  }

  /** The push published exactly one new revision, a child of the previous head. */
  ghost predicate AddsOne(h: Hub, h': Hub) {
    && Wf(h) && Wf(h') && h'.session.Some? && h'.session.value in h.objects
    && h.objects[h'.session.value].parent == h.session
    && h'.session.value !in History(h)
    && History(h') == History(h) + [h'.session.value]
  }

  lemma StepKeeps(hash: ContextHash, h: Hub, h': Hub)
    requires Inv(hash, h) && Step(hash, h, h')
    ensures Inv(hash, h') && Extends(h, h')
  {
    var a :| Enabled(hash, h, a) && h' == Perform(h, a);
    ActionKeeps(hash, h, a);
  }
}
