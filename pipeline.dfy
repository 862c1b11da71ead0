/**
 * Properties of a whole queue-mode submission, tying intake, the transform
 * pass and bulk export together for a fresh batch.
 */
module Pipeline {
  import opened Wrappers
  import opened ItemModel
  import opened ProcessHandler
  import opened DownloadHandler
  import opened FileHandler

  /** When every item of `pre` is pending, counting items that left `Pending` for `st` is counting `st` in `post`. */
  lemma {:induction false} AllPendingCount(pre: seq<ItemState>, post: seq<ItemState>, st: Status)
    requires |post| == |pre|
    requires forall j :: 0 <= j < |pre| ==> pre[j].status == Pending
    ensures CountFromPending(pre, post, st) == CountStatus(post, st)
  {
    if |pre| > 0 {
      var n := |pre| - 1;
      AllPendingCount(pre[..n], post[..n], st);
    }
  }

  /** A queue in which no item is in status `st` counts none. */
  lemma {:induction false} NoneInStatus(states: seq<ItemState>, st: Status)
    requires forall j :: 0 <= j < |states| ==> states[j].status != st
    ensures CountStatus(states, st) == 0
  {
    if |states| > 0 {
      NoneInStatus(states[..|states| - 1], st);
    }
  }

  /**
   * For a fresh batch, the final counter is the number of completed items,
   * at most the batch size; the download-all control appears exactly when
   * bulk export has something to export, and the archive then holds one
   * entry per counted item.
   */
  lemma FreshBatchCounterMatchesExport(valid: seq<File>, clock: seq<int>, loads: seq<Option<Image>>,
                                       outs: seq<TransformOutcome>, t: nat)
    requires |clock| == |valid| && |loads| == |valid| && |outs| == |valid|
    ensures var post := RunStates(NewStates(valid, clock), loads, outs);
      && |post| == |valid|
      && (forall j :: 0 <= j < |post| ==> WellFormed(post[j]))
      && RunCount(NewStates(valid, clock), loads, outs) == CountStatus(post, Completed) <= |valid|
      && (ArchiveOf(post, t).None? <==> RunCount(NewStates(valid, clock), loads, outs) == 0)
      && (ArchiveOf(post, t).Some? ==> |ArchiveOf(post, t).value.entries| == RunCount(NewStates(valid, clock), loads, outs))
  {
    var pre := NewStates(valid, clock);
    var post := RunStates(pre, loads, outs);
    match FirstLoadFailure(loads) {
      case Some(k) =>
        NoneInStatus(post, Completed);
      case None =>
        var mid := Preloaded(pre, loads, |pre|);
        SuccessCountIsNewlyCompleted(mid, outs);
        AllPendingCount(mid, post, Completed);
        PendingEndsCompletedOrError(mid, outs);
        AllPendingCount(mid, mid, Pending);
    }
    ArchiveOfCompleted(post, t);
  }

  /**
   * Three fresh items where the second one's engine call fails and the
   * third fails after it was marked completed: the failure of one item does
   * not stop the others, only the first is counted and exported, and the
   * third ends in `Error` while still holding its result.
   */
  lemma MixedOutcomes(valid: seq<File>, clock: seq<int>, img: Image, b1: Blob, b3: Blob, t: nat)
    requires |valid| == 3 && |clock| == 3
    ensures var loads := [Some(img), Some(img), Some(img)];
      var outs := [Succeeds(b1), EngineFails, FailsAfterCompleted(b3)];
      var post := RunStates(NewStates(valid, clock), loads, outs);
      && post[0].status == Completed && post[0].processedBlob == Some(b1)
      && post[1].status == Error && post[1].processedBlob == None
      && post[2].status == Error && post[2].processedBlob == Some(b3)
      && RunCount(NewStates(valid, clock), loads, outs) == 1
      && ArchiveOf(post, t) == Some(Archive(ArchiveName(t), [EntryFor(post[0])]))
  {
    var loads := [Some(img), Some(img), Some(img)];
    var outs := [Succeeds(b1), EngineFails, FailsAfterCompleted(b3)];
    var pre := NewStates(valid, clock);
    assert FirstLoadFailure(loads[2..]) == None && FirstLoadFailure(loads[1..]) == None;
    var post := RunStates(pre, loads, outs);
    FreshBatchCounterMatchesExport(valid, clock, loads, outs, t);
    var mid := Preloaded(pre, loads, 3);
    assert post == TransformAll(mid, outs);
    assert post == [post[0], post[1], post[2]];
    OneCompletedOfThree(post[0], post[1], post[2]);
  }

  /** Of the items `[completed, error, error]`, one is counted as completed and exported. */
  lemma OneCompletedOfThree(a: ItemState, b: ItemState, c: ItemState)
    requires a.status == Completed && b.status == Error && c.status == Error && a.processedBlob.Some?
    ensures CountStatus([a, b, c], Completed) == 1
    ensures CompletedStates([a, b, c]) == [a] && Entries([a]) == [EntryFor(a)]
  {
    assert [a, b, c][..2] == [a, b] && [a, b][..1] == [a] && [a][..0] == [];
    assert CountStatus([a], Completed) == 1;
    assert CountStatus([a, b], Completed) == 1;
    assert [a, b, c][1..] == [b, c] && [b, c][1..] == [c] && [c][1..] == [];
    assert CompletedStates([c]) == [];
    assert CompletedStates([b, c]) == [];
    assert CompletedStates([a, b, c]) == [a] + CompletedStates([b, c]);
  }
}
