/**
 The immutable Git object graph as the collaboration code uses it: commits with at most one parent, whose
 tree holds either session.json or proposal.json.  `IsChain` is the first-parent history of its last element.
 */
module GitObjects {
  import opened Common
  import opened SessionModel

  datatype Message = InitNote | UpdateNote | ProposalNote(proposalId: string, contextHash: string)

  datatype Tree = StateTree(state: SessionState) | ProposalTree(proposal: Proposal)

  datatype Commit = Commit(parent: Option<Sha>, tree: Tree, message: Message)

  type Objects = map<Sha, Commit>

  ghost predicate IsChain(g: Objects, h: seq<Sha>) {
    && |h| > 0
    && (forall i :: 0 <= i < |h| ==> h[i] in g)
    && g[h[0]].parent == None
    && (forall i, j :: 0 <= i < j < |h| && j == i + 1 ==> g[h[j]].parent == Some(h[i]))
  }

  ghost predicate ChainTo(g: Objects, h: seq<Sha>, tip: Sha) {
    IsChain(g, h) && Last(h) == tip
  }

  ghost predicate Rooted(g: Objects, tip: Sha) {
    exists h :: ChainTo(g, h, tip)
  }

  /** Every object reaches a root, and its id is a commit id: what a sound object store guarantees. */
  ghost predicate Sound(g: Objects) {
    && (forall s {:trigger Rooted(g, s)} :: s in g ==> Rooted(g, s))
    && (forall s {:trigger IsSha(s)} :: s in g ==> IsSha(s))
  }

  lemma {:induction false} ChainUnique(g: Objects, h: seq<Sha>, k: seq<Sha>)
    requires IsChain(g, h) && IsChain(g, k) && Last(h) == Last(k)
    ensures h == k
  {
    assert g[Last(h)].parent == if |h| == 1 then None else Some(h[|h| - 2]);
    assert g[Last(k)].parent == if |k| == 1 then None else Some(k[|k| - 2]);
    if |h| > 1 {
      ChainUnique(g, h[..|h| - 1], k[..|k| - 1]);
      assert h == h[..|h| - 1] + [Last(h)];
      assert k == k[..|k| - 1] + [Last(k)];
    }
  }

  lemma ChainPrefix(g: Objects, h: seq<Sha>, n: nat)
    requires IsChain(g, h) && 0 < n <= |h|
    ensures ChainTo(g, h[..n], h[n - 1])
  {}

  /** No revision occurs twice in a history. */
  lemma ChainDistinct(g: Objects, h: seq<Sha>)
    requires IsChain(g, h)
    ensures Distinct(h)
  {
    forall i, j | 0 <= i < j < |h| ensures h[i] != h[j] {
      if h[i] == h[j] {
        ChainPrefix(g, h, i + 1);
        ChainPrefix(g, h, j + 1);
        ChainUnique(g, h[..i + 1], h[..j + 1]);
      }
    }
  }

  /** The history of a commit, oldest first: the first-parent chain that ends at it. */
  ghost function Chain(g: Objects, tip: Sha): (h: seq<Sha>)
    requires Rooted(g, tip)
    ensures ChainTo(g, h, tip)
  {
    var h :| ChainTo(g, h, tip);
    h
  }

  lemma ChainIs(g: Objects, h: seq<Sha>, tip: Sha)
    requires ChainTo(g, h, tip)
    ensures Rooted(g, tip) && Chain(g, tip) == h
  {
    ChainUnique(g, h, Chain(g, tip));
  }

  /** `git merge-base --is-ancestor`: a is b or one of its ancestors; an unknown revision is not. */
  ghost predicate IsAncestor(g: Objects, a: Sha, b: Sha) {
    b in g && exists h :: ChainTo(g, h, b) && a in h
  }

  lemma AncestorInChain(g: Objects, a: Sha, h: seq<Sha>, tip: Sha)
    requires ChainTo(g, h, tip)
    ensures IsAncestor(g, a, tip) <==> a in h
  {
    if IsAncestor(g, a, tip) {
      var k :| ChainTo(g, k, tip) && a in k;
      ChainUnique(g, h, k);
    }
  }

  /** Adding objects never rewrites an existing history. */
  ghost predicate Grows(g: Objects, g': Objects) {
    forall s :: s in g ==> s in g' && g'[s] == g[s]
  }

  lemma ChainGrows(g: Objects, g': Objects, h: seq<Sha>)
    requires Grows(g, g') && IsChain(g, h)
    ensures IsChain(g', h)
  {}

  lemma RootedGrows(g: Objects, g': Objects, tip: Sha)
    requires Grows(g, g') && Rooted(g, tip)
    ensures Rooted(g', tip) && Chain(g', tip) == Chain(g, tip)
  {
    ChainGrows(g, g', Chain(g, tip));
    ChainIs(g', Chain(g, tip), tip);
  }

  /** The ancestors of a known revision never change. */
  lemma AncestorGrows(g: Objects, g': Objects, a: Sha, tip: Sha)
    requires Grows(g, g') && Sound(g) && tip in g
    ensures IsAncestor(g', a, tip) <==> IsAncestor(g, a, tip)
  {
    assert Rooted(g, tip);
    RootedGrows(g, g', tip);
    AncestorInChain(g, a, Chain(g, tip), tip);
    AncestorInChain(g', a, Chain(g, tip), tip);
  }

  lemma ChainExtend(g: Objects, h: seq<Sha>, tip: Sha, child: Sha)
    requires ChainTo(g, h, tip) && child in g && g[child].parent == Some(tip)
    ensures ChainTo(g, h + [child], child)
  {}

  lemma NoSelfParent(g: Objects, s: Sha)
    requires Sound(g) && s in g
    ensures g[s].parent != Some(s)
  {
    var h := Chain(g, s);
    if g[s].parent == Some(s) {
      ChainExtend(g, h, s, s);
      ChainUnique(g, h, h + [s]);
    }
  }

  /** A commit object may be written under an id that is free or already names the same content. */
  ghost predicate CanStore(g: Objects, s: Sha, c: Commit) {
    && (s in g ==> g[s] == c)
    && (c.parent.Some? ==> c.parent.value in g)
    && IsSha(s)
  }

  lemma StoreSound(g: Objects, s: Sha, c: Commit)
    requires Sound(g) && CanStore(g, s, c)
    ensures Sound(g[s := c]) && Grows(g, g[s := c])
  {
    var g' := g[s := c];
    assert Grows(g, g');
    forall x | x in g' ensures Rooted(g', x) {
      if x in g {
        RootedGrows(g, g', x);
      } else if c.parent.Some? {
        RootedGrows(g, g', c.parent.value);
        ChainExtend(g', Chain(g', c.parent.value), c.parent.value, s);
      } else {
        assert ChainTo(g', [s], s);
      }
    }
  }

  /** Walks parent links as `merge-base --is-ancestor` does; an absent head has no ancestors. */
  method FindAncestor(g: Objects, a: Sha, b: Sha) returns (found: bool)
    requires Sound(g)
    ensures found <==> IsAncestor(g, a, b)
  {
    if b !in g {
      return false;
    }
    ghost var h := Chain(g, b);
    var current := b;
    ghost var i := |h| - 1;
    while current != a && g[current].parent.Some?
      invariant 0 <= i < |h| && current == h[i] && current in g
      invariant forall j :: i < j < |h| ==> h[j] != a
      decreases i
    {
      current := g[current].parent.value;
      i := i - 1;
    }
    found := current == a;
    assert i > 0 ==> g[h[i]].parent == Some(h[i - 1]);
    assert found <==> a in h;
    AncestorInChain(g, a, h, b);
  }
}
