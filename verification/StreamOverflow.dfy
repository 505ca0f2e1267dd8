/** Two published revisions whose transition the stream cannot carry. */
module StreamOverflow {
  import opened Common
  import opened StringOrder
  import opened SessionModel
  import opened GitObjects
  import opened HubModel
  import opened HubRuns
  import opened Replay
  import opened Consumer
  import opened EventStream
  import opened StreamRoundTrip
  import opened StreamLimits
  import LostUpdate

  /** The ids of 250 tasks, from the i-th longest id on. */
  function Batch(i: nat): (ids: seq<string>)
    requires i + 250 <= 512
    ensures |ids| == 250 && forall k :: 0 <= k < 250 ==> ids[k] == LongId(i + k)
  {
    seq(250, k requires 0 <= k < 250 => LongId(i + k))
  }

  ghost function Crowd(i: nat): SessionState
    requires i + 250 <= 512
  {
    LostUpdate.STATE.(tasks := map id | id in Elements(Batch(i)) :: Task(id, "owner", "goal", [], "queued", ROOT))
  }

  const ROOT: Sha := LostUpdate.R
  const NEXT: Sha := LostUpdate.E

  /** 250 tasks, and a raw publication that replaces them by 250 others. */
  ghost function Objects2(): Objects {
    map[ROOT := Commit(None, StateTree(Crowd(0)), InitNote),
        NEXT := Commit(Some(ROOT), StateTree(Crowd(250)), UpdateNote)]
  }

  lemma BatchIsDistinct(i: nat)
    requires i + 250 <= 512
    ensures |Elements(Batch(i))| == 250
  {
    var ids := Batch(i);
    hide LongId;
    forall a, b | 0 <= a < b < |ids| ensures ids[a] != ids[b] {
      LongIdsSorted(i + a, i + b);
      assert Less(ids[a], ids[b]);
      if ids[a] == ids[b] {
        LessAsymmetric(ids[a], ids[b]);
      }
    }
    DistinctSize(ids);
  }

  lemma CrowdIsWellTasked(i: nat)
    requires i + 250 <= 512
    ensures WellTasked(Crowd(i))
  {
    var s := Crowd(i);
    BatchIsDistinct(i);
    assert s.tasks.Keys == Elements(Batch(i));
    hide LongId, IsSafeId;
    forall id | id in s.tasks ensures IsSafeId(id) {
      var k :| 0 <= k < 250 && Batch(i)[k] == id;
      LongIdIsSafe(i + k);
    }
  }

  /** All 500 tasks change. */
  lemma CrowdsDiffer()
    ensures Sorted(ChangedTasks(Crowd(0), Crowd(250))) == LongIds(500)
  {
    var a, b, ids := Crowd(0), Crowd(250), LongIds(500);
    hide LongId, Less;
    forall i, j | 0 <= i < j < |ids| ensures Less(ids[i], ids[j]) {
      LongIdsSorted(i, j);
    }
    forall id | id in ids ensures id in ChangedTasks(a, b) {
      var k :| 0 <= k < 500 && ids[k] == id;
      InOneCrowd(k);
    }
    forall id | id in ChangedTasks(a, b) ensures id in ids {
      if id in a.tasks {
        var k :| 0 <= k < 250 && Batch(0)[k] == id;
        assert ids[k] == id;
      } else {
        var k :| 0 <= k < 250 && Batch(250)[k] == id;
        assert ids[250 + k] == id;
      }
    }
    SortedUnique(ids, Sorted(ChangedTasks(a, b)));
  }

  lemma InOneCrowd(k: nat)
    requires k < 500
    ensures LongId(k) in Crowd(0).tasks <==> LongId(k) !in Crowd(250).tasks
  {
    hide LongId;
    if k < 250 {
      assert Batch(0)[k] == LongId(k);
      NotInBatch(k, 250);
    } else {
      assert Batch(250)[k - 250] == LongId(k);
      NotInBatch(k, 0);
    }
  }

  lemma NotInBatch(k: nat, i: nat)
    requires k < 512 && i + 250 <= 512 && !(i <= k < i + 250)
    ensures LongId(k) !in Elements(Batch(i))
  {
    hide LongId;
    forall j | 0 <= j < 250 ensures Batch(i)[j] != LongId(k) {
      var low, high := Min(k, i + j), Max(k, i + j);
      LongIdsSorted(low, high);
      LessAsymmetric(LongId(low), LongId(high));
    }
  }

  lemma Objects2Sound()
    ensures Sound(Objects2())
  {
    hide Crowd;
    var g := Objects2();
    assert ChainTo(g, [ROOT], ROOT) && ChainTo(g, [ROOT, NEXT], NEXT);
  }

  /** Both states are published, one step apart, within the limits of the state parser, and the event is refused. */
  lemma PublishedButNotCarried(hash: ContextHash, rd: Reader, b: Inbox)
    requires Reads(rd) && |b.pending| < MAX_PENDING_EVENTS
    ensures var h := Hub(Objects2(), Some(ROOT), map[]);
            var h' := h.(session := Some(NEXT));
            && Inv(hash, h) && Step(hash, h, h') && Inv(hash, h')
            && HoldsState(h.objects, ROOT) && HoldsState(h.objects, NEXT)
            && var e := Transition(h.objects, ROOT, NEXT);
               Feed(rd, Render(Revision(e)), NOTHING, b, |Render(Revision(e))| + 1) == (b, ProtocolError)
  {
    var g := Objects2();
    var h := Hub(g, Some(ROOT), map[]);
    hide Crowd, WellTasked, IsSha, Feed, Render, Reads, Sorted, LongIds, Sound;
    Objects2Sound();
    CrowdIsWellTasked(0);
    CrowdIsWellTasked(250);
    CrowdsAreOneSession();
    LostUpdate.RootIsPublished(hash, g, ROOT);
    LostUpdate.ChildIsPublished(hash, h, ROOT, NEXT);
    CrowdsDiffer();
    FiveHundredLongIdsAreNotCarried(rd, Transition(g, ROOT, NEXT), 500, b);
  }

  lemma CrowdsAreOneSession()
    ensures Crowd(0).Identity() == Crowd(250).Identity()
  {}
}
