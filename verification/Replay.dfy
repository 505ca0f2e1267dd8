/** Bounded replay: `replay_states` of collab_runtime/store.py and `replay` of collab_runtime/coordinator.py. */
module Replay {
  import opened Common
  import opened StringOrder
  import opened SessionModel
  import opened GitObjects
  import opened HubModel
  import opened HubRuns
  import opened Publication
  import opened GitStoreModel

  const REPLAY_WINDOW: nat := 64
  const MAX_REPLAY_PAGE: nat := 32

  datatype ReplayEvent = ReplayEvent(previous: Sha, revision: Sha, contextChanged: bool, changedTasks: seq<string>)

  datatype ReplayPage = ReplayPage(head: Sha, next: Sha, events: seq<ReplayEvent>, hasMore: bool)

  datatype StateReplay = StateReplay(head: Sha, after: Sha, previous: SessionState,
                                     states: seq<(Sha, SessionState)>, hasMore: bool)

  // ---- what a page means ----------------------------------------------------------------------------------------

  /** The task is in both states and the same, or in neither. */
  predicate SameTask(a: SessionState, b: SessionState, id: string) {
    (id in a.tasks <==> id in b.tasks) && (id in a.tasks ==> a.tasks[id] == b.tasks[id])
  }

  function ChangedTasks(a: SessionState, b: SessionState): (ids: set<string>)
    ensures forall id :: id in ids <==> !SameTask(a, b, id)
  {
    set id | id in a.tasks.Keys + b.tasks.Keys && !SameTask(a, b, id)
  }

  /** The durable transition between two published states. */
  ghost function EventOf(a: (Sha, SessionState), b: (Sha, SessionState)): ReplayEvent {
    ReplayEvent(a.0, b.0, a.1.context != b.1.context, Sorted(ChangedTasks(a.1, b.1)))
  }

  ghost function Transition(g: Objects, p: Sha, r: Sha): ReplayEvent
    requires HoldsState(g, p) && HoldsState(g, r)
  {
    EventOf((p, StateAt(g, p)), (r, StateAt(g, r)))
  }

  ghost predicate AllStates(g: Objects, s: seq<Sha>) {
    forall i :: 0 <= i < |s| ==> HoldsState(g, s[i])
  }

  /** The events of a stretch of history: one for each consecutive pair of revisions. */
  ghost function Events(g: Objects, s: seq<Sha>): (e: seq<ReplayEvent>)
    requires AllStates(g, s)
    ensures |e| == if s == [] then 0 else |s| - 1
  {
    seq(if s == [] then 0 else |s| - 1, i requires 0 <= i < |s| - 1 => Transition(g, s[i], s[i + 1]))
  }

  /** What one event says, on the two states themselves. */
  lemma TransitionSays(g: Objects, p: Sha, r: Sha)
    requires HoldsState(g, p) && HoldsState(g, r)
    ensures var e, a, b := Transition(g, p, r), StateAt(g, p), StateAt(g, r);
            && e.previous == p && e.revision == r && StrictlySorted(e.changedTasks)
            && (e.contextChanged <==> a.context != b.context)
            && forall id :: id in e.changedTasks <==>
                 || (id in a.tasks && id !in b.tasks) || (id !in a.tasks && id in b.tasks)
                 || (id in a.tasks && id in b.tasks && a.tasks[id] != b.tasks[id])
  {}

  lemma EventsSplit(g: Objects, s: seq<Sha>, k: nat)
    requires AllStates(g, s) && k < |s|
    ensures Events(g, s) == Events(g, s[..k + 1]) + Events(g, s[k..])
  {
    hide Transition;
    var a, b := Events(g, s[..k + 1]), Events(g, s[k..]);
    forall i | 0 <= i < |s| - 1 ensures (a + b)[i] == Events(g, s)[i] {
      if i < k {
        assert a[i] == Transition(g, s[i], s[i + 1]);
      } else {
        assert b[i - k] == Transition(g, s[k..][i - k], s[k..][i - k + 1]);
      }
    }
  }

  lemma EventsGrow(g: Objects, g': Objects, s: seq<Sha>)
    requires AllStates(g, s) && Grows(g, g')
    ensures AllStates(g', s) && Events(g', s) == Events(g, s)
  {
    forall i | 0 <= i < |s| ensures HoldsState(g', s[i]) && StateAt(g', s[i]) == StateAt(g, s[i]) {
      assert HoldsState(g, s[i]);
    }
    forall i | 0 <= i < |s| - 1 ensures Events(g', s)[i] == Events(g, s)[i] {
      assert Events(g, s)[i] == Transition(g, s[i], s[i + 1]);
    }
  }

  lemma SnapshotsGrow(g: Objects, g': Objects, s: seq<Sha>)
    requires AllStates(g, s) && Grows(g, g')
    ensures AllStates(g', s) && Snapshots(g', s) == Snapshots(g, s)
  {
    forall i | 0 <= i < |s| ensures HoldsState(g', s[i]) && StateAt(g', s[i]) == StateAt(g, s[i]) {
      assert HoldsState(g, s[i]);
    }
  }

  /** Position of the oldest revision that is still replayed. */
  function WindowStart(n: nat): nat {
    if n > REPLAY_WINDOW + 1 then n - (REPLAY_WINDOW + 1) else 0
  }

  /** The page served at cursor position i of history s. */
  ghost predicate IsPageAt(g: Objects, s: seq<Sha>, i: nat, limit: nat, page: ReplayPage) {
    && AllStates(g, s) && WindowStart(|s|) <= i < |s|
    && var j := Min(i + limit, |s| - 1);
       page == ReplayPage(Last(s), s[j], Events(g, s[i..j + 1]), j < |s| - 1)
  }

  ghost predicate IsPage(g: Objects, s: seq<Sha>, cursor: Sha, limit: nat, page: ReplayPage) {
    exists i: nat :: IsPageAt(g, s, i, limit, page) && s[i] == cursor
  }

  // ---- computing a page -----------------------------------------------------------------------------------------

  function Reversed<T>(s: seq<T>): (r: seq<T>)
    ensures |r| == |s| && forall i :: 0 <= i < |s| ==> r[i] == s[|s| - 1 - i]
  {
    if s == [] then [] else [s[|s| - 1]] + Reversed(s[..|s| - 1])
  }

  /** `_first_parent_chain`: at most 65 commits, newest first. */
  method FirstParentChain(g: Objects, head: Sha) returns (chain: seq<Sha>)
    requires Sound(g) && head in g
    ensures Rooted(g, head)
    ensures Reversed(chain) == Chain(g, head)[WindowStart(|Chain(g, head)|)..]
  {
    assert Rooted(g, head);
    ghost var h := Chain(g, head);
    chain := [head];
    var current := head;
    while |chain| < REPLAY_WINDOW + 1 && g[current].parent.Some?
      invariant 0 < |chain| <= |h| && |chain| <= REPLAY_WINDOW + 1
      invariant forall i :: 0 <= i < |chain| ==> chain[i] == h[|h| - 1 - i]
      invariant current == h[|h| - |chain|] && current in g
      decreases REPLAY_WINDOW + 1 - |chain|
    {
      ghost var k := |h| - |chain|;
      assert k > 0 ==> g[h[k]].parent == Some(h[k - 1]);
      current := g[current].parent.value;
      chain := chain + [current];
    }
    ghost var k := |h| - |chain|;
    assert k > 0 ==> g[h[k]].parent == Some(h[k - 1]);
    assert k == WindowStart(|h|);
  }

  method IndexOf(s: seq<Sha>, x: Sha) returns (i: int)
    ensures x in s <==> i >= 0
    ensures i >= 0 ==> i < |s| && s[i] == x && x !in s[..i]
    ensures i < 0 ==> i == -1
  {
    i := 0;
    while i < |s|
      invariant 0 <= i <= |s| && x !in s[..i]
    {
      if s[i] == x {
        return;
      }
      i := i + 1;
    }
    i := -1;
  }

  ghost function Snapshots(g: Objects, s: seq<Sha>): seq<(Sha, SessionState)>
    requires AllStates(g, s)
  {
    seq(|s|, i requires 0 <= i < |s| => (s[i], StateAt(g, s[i])))
  }

  ghost predicate IsStateReplay(g: Objects, s: seq<Sha>, i: nat, limit: nat, page: StateReplay) {
    && AllStates(g, s) && WindowStart(|s|) <= i < |s|
    && var j := Min(i + limit, |s| - 1);
       && page.head == Last(s)
       && [(page.after, page.previous)] + page.states == Snapshots(g, s[i..j + 1])
       && (page.hasMore <==> j < |s| - 1)
  }

  lemma StateReplayOfOlder(g: Objects, g': Objects, s: seq<Sha>, i: nat, limit: nat, page: StateReplay)
    requires AllStates(g, s) && Grows(g, g') && IsStateReplay(g', s, i, limit, page)
    ensures IsStateReplay(g, s, i, limit, page)
  {
    SnapshotsGrow(g, g', s[i..Min(i + limit, |s| - 1) + 1]);
  }

  /** `replay_states`: a fetch pins the head; a cursor outside the recent window is never served. */
  method ReplayStates(store: GitStore, cursor: Sha, limit: nat, fetches: bool)
    returns (r: Result<StateReplay>, ghost at: Hub, ghost i: nat)
    requires store.hub.Valid()
    modifies store, store.hub
    ensures store.hub.Valid() && Moved(store.hub.hash, old(store.hub.View()), at)
             && Moved(store.hub.hash, at, store.hub.View())
    ensures r == Err(ValidationError) <==> !IsSha(cursor) || !(1 <= limit <= 32)
    ensures r == Err(ReplayUnavailableError)
            <==> IsSha(cursor) && 1 <= limit <= 32 && fetches && at.session.Some?
                 && cursor !in History(at)[WindowStart(|History(at)|)..]
    ensures r.Ok? <==> IsSha(cursor) && 1 <= limit <= 32 && fetches && at.session.Some?
                       && cursor in History(at)[WindowStart(|History(at)|)..]
    ensures r.Ok? ==> i < |History(at)| && History(at)[i] == cursor
                      && IsStateReplay(at.objects, History(at), i, limit, r.value)
    ensures r.Err? ==> r.error in {ValidationError, ReplayUnavailableError, GitOperationError, SessionNotFoundError}
  {
    i := 0;
    at := store.hub.View();
    MovedSelf(store.hub.hash, at);
    if !IsSha(cursor) || !(1 <= limit <= MAX_REPLAY_PAGE) {
      return Err(ValidationError), at, i;
    }
    var f;
    f, at := store.FetchState(fetches);
    if f.Err? {
      return Err(f.error), at, i;
    }
    ghost var s := History(at);
    StillThere(store.hub.hash, at, store.hub.View(), f.value.0, f.value.1);
    hide Moved, Inv, Wf, History, IsStateReplay, AllStates, Sound, ChainTo, Grows;
    var page := BuildStates(store.hub.objects, f.value.0, cursor, limit, s);
    if page.None? {
      return Err(ReplayUnavailableError), at, i;
    }
    i :| i < |s| && s[i] == cursor && IsStateReplay(store.hub.objects, s, i, limit, page.value);
    StateReplayOfOlder(at.objects, store.hub.objects, s, i, limit, page.value);
    r := Ok(page.value);
  }

  /** What was fetched at `at` can still be read later. */
  lemma StillThere(hash: ContextHash, at: Hub, now: Hub, head: Sha, state: SessionState)
    requires Inv(hash, at) && Moved(hash, at, now) && FetchedAt(at, head, state)
    ensures Wf(at) && Sound(now.objects) && ChainTo(now.objects, History(at), head) && Grows(at.objects, now.objects)
    ensures AllStates(at.objects, History(at)) && AllStates(now.objects, History(at))
  {
    ChainGrows(at.objects, now.objects, History(at));
    EventsGrow(at.objects, now.objects, History(at));
  }

  method ReadStates(g: Objects, revisions: seq<Sha>) returns (states: seq<(Sha, SessionState)>)
    requires AllStates(g, revisions)
    ensures states == Snapshots(g, revisions)
  {
    states := [];
    for k := 0 to |revisions|
      invariant |states| == k && forall m :: 0 <= m < k ==> states[m] == (revisions[m], StateAt(g, revisions[m]))
    {
      states := states + [(revisions[k], StateAt(g, revisions[k]))];
    }
  }

  /** The newest revisions of the chain that ends at `head`, oldest first. */
  method RecentWindow(g: Objects, head: Sha, ghost s: seq<Sha>) returns (window: seq<Sha>)
    requires Sound(g) && ChainTo(g, s, head)
    ensures window == s[WindowStart(|s|)..] && s != [] && Last(s) == head
  {
    ChainIs(g, s, head);
    var chain := FirstParentChain(g, head);
    window := Reversed(chain);
  }

  /** The page of the chain that ends at `head`, read from immutable objects. */
  method BuildStates(g: Objects, head: Sha, cursor: Sha, limit: nat, ghost s: seq<Sha>)
    returns (page: Option<StateReplay>)
    requires Sound(g) && ChainTo(g, s, head) && AllStates(g, s)
    ensures page.None? <==> cursor !in s[WindowStart(|s|)..]
    ensures page.Some? ==> exists i: nat :: i < |s| && s[i] == cursor && IsStateReplay(g, s, i, limit, page.value)
  {
    hide Sound, ChainTo;
    var window := RecentWindow(g, head, s);
    var index := IndexOf(window, cursor);
    if index < 0 {
      return None;
    }
    var stop := if index + limit < |window| - 1 then index + limit else |window| - 1;
    var all := ReadStates(g, window[index..stop + 1]);
    page := Some(StateReplay(head, cursor, all[0].1, all[1..], index + limit < |window| - 1));
    PageOfWindow(g, s, index, stop, limit, all, page.value);
  }

  lemma PageOfWindow(g: Objects, s: seq<Sha>, index: nat, stop: nat, limit: nat, all: seq<(Sha, SessionState)>,
                     page: StateReplay)
    requires AllStates(g, s) && s != []
    requires var n := |s| - WindowStart(|s|); index < n && stop == Min(index + limit, n - 1)
    requires all == Snapshots(g, s[WindowStart(|s|)..][index..stop + 1]) && all != []
    requires page
             == StateReplay(Last(s), s[WindowStart(|s|) + index], all[0].1, all[1..], stop < |s| - WindowStart(|s|) - 1)
    ensures IsStateReplay(g, s, WindowStart(|s|) + index, limit, page)
  {
    var w := WindowStart(|s|);
    assert s[w..][index..stop + 1] == s[w + index..w + stop + 1];
    assert [all[0]] + all[1..] == all;
  }

  ghost function EventsOf(all: seq<(Sha, SessionState)>): (e: seq<ReplayEvent>)
    requires all != []
  {
    seq(|all| - 1, k requires 0 <= k < |all| - 1 => EventOf(all[k], all[k + 1]))
  }

  method BuildEvent(a: (Sha, SessionState), b: (Sha, SessionState)) returns (e: ReplayEvent)
    ensures e == EventOf(a, b)
  {
    var changed := SortSet(ChangedTasks(a.1, b.1));
    e := ReplayEvent(a.0, b.0, a.1.context != b.1.context, changed);
  }

  /** The coordinator turns a page of states into a page of events. */
  method BuildEvents(page: StateReplay) returns (r: ReplayPage)
    ensures r == ReplayPage(page.head, Last([(page.after, page.previous)] + page.states).0,
                            EventsOf([(page.after, page.previous)] + page.states), page.hasMore)
  {
    hide EventOf;
    ghost var all := [(page.after, page.previous)] + page.states;
    var previousRevision, previous := page.after, page.previous;
    var events: seq<ReplayEvent> := [];
    for k := 0 to |page.states|
      invariant |events| == k && (previousRevision, previous) == all[k]
      invariant forall m :: 0 <= m < k ==> events[m] == EventOf(all[m], all[m + 1])
    {
      var revision, state := page.states[k].0, page.states[k].1;
      assert all[k + 1] == (revision, state);
      var event := BuildEvent((previousRevision, previous), (revision, state));
      events := events + [event];
      previousRevision, previous := revision, state;
    }
    r := ReplayPage(page.head, previousRevision, events, page.hasMore);
  }

  lemma EventsOfStates(g: Objects, s: seq<Sha>, i: nat, limit: nat, page: StateReplay, r: ReplayPage)
    requires IsStateReplay(g, s, i, limit, page)
    requires r == ReplayPage(page.head, Last([(page.after, page.previous)] + page.states).0,
                             EventsOf([(page.after, page.previous)] + page.states), page.hasMore)
    ensures IsPageAt(g, s, i, limit, r)
  {
    hide EventOf, EventsOf, Events, Snapshots;
    var j := Min(i + limit, |s| - 1);
    var t := s[i..j + 1];
    assert AllStates(g, t);
    SnapshotEvents(g, t);
  }

  lemma SnapshotEvents(g: Objects, t: seq<Sha>)
    requires AllStates(g, t) && t != []
    ensures Snapshots(g, t) != [] && EventsOf(Snapshots(g, t)) == Events(g, t)
    ensures Last(Snapshots(g, t)).0 == Last(t)
  {
    hide EventOf;
  }

  /** The window on the positions themselves. */
  lemma WindowIsRecent(s: seq<Sha>, cursor: Sha)
    ensures cursor in s[WindowStart(|s|)..] <==> exists i :: 0 <= i < |s| && |s| - i <= 65 && s[i] == cursor
  {
    var w := WindowStart(|s|);
    if cursor in s[w..] {
      var k :| 0 <= k < |s| - w && s[w..][k] == cursor;
      assert s[w + k] == cursor;
    }
    if i :| 0 <= i < |s| && |s| - i <= 65 && s[i] == cursor {
      assert s[w..][i - w] == cursor;
    }
  }

  /** What a page says, event by event. */
  lemma PageSays(g: Objects, s: seq<Sha>, i: nat, limit: nat, page: ReplayPage)
    requires IsPageAt(g, s, i, limit, page)
    ensures |s| - i <= 65 && page.head == s[|s| - 1]
    ensures |page.events| == (if limit < |s| - 1 - i then limit else |s| - 1 - i)
    ensures page.next == s[i + |page.events|] && (page.hasMore <==> i + |page.events| < |s| - 1)
    ensures forall k :: 0 <= k < |page.events| ==>
              var e, a, b := page.events[k], StateAt(g, s[i + k]), StateAt(g, s[i + k + 1]);
              && e.previous == s[i + k] && e.revision == s[i + k + 1] && StrictlySorted(e.changedTasks)
              && (e.contextChanged <==> a.context != b.context)
              && forall id :: id in e.changedTasks <==> !SameTask(a, b, id)
  {
    var j := Min(i + limit, |s| - 1);
    forall k | 0 <= k < |page.events|
      ensures page.events[k] == Transition(g, s[i + k], s[i + k + 1])
    {
      var t := s[i..j + 1];
      assert t[k] == s[i + k] && t[k + 1] == s[i + k + 1];
    }
  }

  /** `Coordinator.replay`: served if and only if the cursor is among the newest 65 revisions of the fetched head. */
  method ReplayEvents(store: GitStore, cursor: Sha, limit: nat, fetches: bool)
    returns (r: Result<ReplayPage>, ghost at: Hub)
    requires store.hub.Valid()
    modifies store, store.hub
    ensures store.hub.Valid() && Moved(store.hub.hash, old(store.hub.View()), at)
             && Moved(store.hub.hash, at, store.hub.View())
    ensures r.Ok? ==> IsPage(at.objects, History(at), cursor, limit, r.value)
    ensures r == Err(ValidationError) <==> !IsSha(cursor) || !(1 <= limit <= 32)
    ensures var served := IsSha(cursor) && 1 <= limit <= 32 && fetches && at.session.Some?;
            var s := History(at);
            var recent := exists i :: 0 <= i < |s| && |s| - i <= 65 && s[i] == cursor;
            (r.Ok? <==> served && recent) && (r == Err(ReplayUnavailableError) <==> served && !recent)
  {
    var page;
    ghost var i;
    page, at, i := ReplayStates(store, cursor, limit, fetches);
    WindowIsRecent(History(at), cursor);
    if page.Err? {
      return Err(page.error), at;
    }
    var built := BuildEvents(page.value);
    EventsOfStates(at.objects, History(at), i, limit, page.value, built);
    r := Ok(built);
  }

  // ---- what following pages delivers ----------------------------------------------------------------------------

  /** Each page was served from the hub as it stood then; the head may move between pages. */
  ghost predicate Followed(hash: ContextHash, hubs: seq<Hub>, limits: seq<nat>, pages: seq<ReplayPage>, cursor: Sha)
    decreases |pages|
  {
    && |hubs| == |limits| == |pages|
    && (pages != [] ==>
          && Inv(hash, hubs[0]) && limits[0] > 0
          && IsPage(hubs[0].objects, History(hubs[0]), cursor, limits[0], pages[0])
          && (|hubs| > 1 ==> Extends(hubs[0], hubs[1]))
          && Followed(hash, hubs[1..], limits[1..], pages[1..], pages[0].next))
  }

  function Concatenated(pages: seq<ReplayPage>): seq<ReplayEvent> {
    if pages == [] then [] else pages[0].events + Concatenated(pages[1..])
  }

  /** `events` are exactly the transitions of h's history from position i to position j. */
  ghost predicate Covers(h: Hub, i: int, j: int, events: seq<ReplayEvent>) {
    && Wf(h) && AllStates(h.objects, History(h)) && 0 <= i <= j < |History(h)|
    && events == Events(h.objects, History(h)[i..j + 1])
  }

  /**
   Following `next` with any limits while the head moves yields, concatenated, exactly the events of the history
   from the first cursor to the last page's `next`; the stream is exhausted exactly when `hasMore` is false.
   */
  lemma {:induction false} PagesConcatenate(hash: ContextHash, hubs: seq<Hub>, limits: seq<nat>, pages: seq<ReplayPage>,
                                            cursor: Sha)
    returns (i: nat, j: nat)
    requires pages != [] && Followed(hash, hubs, limits, pages, cursor)
    ensures Inv(hash, Last(hubs)) && Extends(hubs[0], Last(hubs))
    ensures Covers(Last(hubs), i, j, Concatenated(pages))
    ensures var s := History(Last(hubs));
            s[i] == cursor && s[j] == Last(pages).next && (Last(pages).hasMore <==> j < |s| - 1)
    decreases |pages|
  {
    var h0, last := hubs[0], Last(hubs);
    var q;
    i, q := PageRange(h0, cursor, limits[0], pages[0]);
    if |pages| == 1 {
      j := q;
      SelfExtends(h0);
      assert pages[1..] == [] && Concatenated(pages) == pages[0].events;
    } else {
      var m;
      m, j := PagesConcatenate(hash, hubs[1..], limits[1..], pages[1..], pages[0].next);
      assert Last(hubs[1..]) == last && Last(pages[1..]) == Last(pages);
      ExtendsTransitive(h0, hubs[1], last);
      CoversJoin(h0, last, i, q, m, j, pages[0].events, Concatenated(pages[1..]));
    }
  }

  lemma PageRange(h: Hub, cursor: Sha, limit: nat, page: ReplayPage) returns (p: nat, q: nat)
    requires Wf(h) && IsPage(h.objects, History(h), cursor, limit, page)
    ensures Covers(h, p, q, page.events)
    ensures var s := History(h); s[p] == cursor && s[q] == page.next && (page.hasMore <==> q < |s| - 1)
  {
    p :| IsPageAt(h.objects, History(h), p, limit, page) && History(h)[p] == cursor;
    q := Min(p + limit, |History(h)| - 1);
    hide Wf, History;
  }

  /** Two ranges of growing histories that meet at the same revision join into one. */
  lemma CoversJoin(h0: Hub, h: Hub, i: nat, q: nat, m: nat, j: nat, a: seq<ReplayEvent>, b: seq<ReplayEvent>)
    requires Extends(h0, h) && Covers(h0, i, q, a) && Covers(h, m, j, b)
    requires History(h)[m] == History(h0)[q]
    ensures Covers(h, i, j, a + b) && m == q && History(h)[i] == History(h0)[i]
  {
    var s0, s := History(h0), History(h);
    assert s[q] == s0[q] && s[i] == s0[i];
    ChainDistinct(h.objects, s);
    JoinEvents(h0.objects, h.objects, s0, s, i, q, j);
  }

  lemma JoinEvents(g0: Objects, g: Objects, s0: seq<Sha>, s: seq<Sha>, p: nat, q: nat, j: nat)
    requires AllStates(g0, s0) && Grows(g0, g) && AllStates(g, s) && s0 <= s && p <= q < |s0| && q <= j < |s|
    ensures AllStates(g0, s0[p..q + 1])
    ensures Events(g0, s0[p..q + 1]) + Events(g, s[q..j + 1]) == Events(g, s[p..j + 1])
  {
    var t := s[p..j + 1];
    EventsSplit(g, t, q - p);
    assert t[..q - p + 1] == s0[p..q + 1] && t[q - p..] == s[q..j + 1];
    EventsGrow(g0, g, s0[p..q + 1]);
  }

  // ---- what the events of a range say about its two ends --------------------------------------------------------

  /** A task that no event of a range names is identical at both ends; so is the context if no event flags it. */
  lemma {:induction false} UnnamedTaskUnchanged(g: Objects, s: seq<Sha>, id: string)
    requires AllStates(g, s) && s != []
    requires forall k :: 0 <= k < |Events(g, s)| ==> id !in Events(g, s)[k].changedTasks
    ensures var a, b := StateAt(g, s[0]), StateAt(g, Last(s));
            (id in a.tasks <==> id in b.tasks) && (id in a.tasks ==> a.tasks[id] == b.tasks[id])
    decreases |s|
  {
    if |s| > 1 {
      var t := s[..|s| - 1];
      assert Events(g, s) == Events(g, t) + [Transition(g, s[|s| - 2], s[|s| - 1])];
      assert forall k :: 0 <= k < |Events(g, t)| ==> Events(g, t)[k] == Events(g, s)[k];
      UnnamedTaskUnchanged(g, t, id);
      assert id !in Events(g, s)[|s| - 2].changedTasks;
    }
  }

  lemma {:induction false} UnflaggedContextUnchanged(g: Objects, s: seq<Sha>)
    requires AllStates(g, s) && s != []
    requires forall k :: 0 <= k < |Events(g, s)| ==> !Events(g, s)[k].contextChanged
    ensures StateAt(g, s[0]).context == StateAt(g, Last(s)).context
    decreases |s|
  {
    if |s| > 1 {
      var t := s[..|s| - 1];
      assert Events(g, s) == Events(g, t) + [Transition(g, s[|s| - 2], s[|s| - 1])];
      assert forall k :: 0 <= k < |Events(g, t)| ==> Events(g, t)[k] == Events(g, s)[k];
      UnflaggedContextUnchanged(g, t);
      assert !Events(g, s)[|s| - 2].contextChanged;
    }
  }
}
