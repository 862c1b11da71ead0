/**
 * The pipeline controller (src/handlers/processHandler.js): single-item mode
 * and the two-pass queue mode that moves every pending item through
 * `Processing` to `Completed` or `Error`, mutating the items in place.
 *
 * The engine, the image decoder, the PNG encoder and the originality check
 * are outside this model; their behaviour on each item is an input
 * (a load result per item, a `TransformOutcome` per item, a `SingleOutcome`).
 */
module ProcessHandler {
  import opened Wrappers
  import opened ItemModel
  import opened AppState
  import opened UiController

  // ---------------------------------------------------------------------------
  // Single-item mode
  // ---------------------------------------------------------------------------

  /** How far single-item mode gets before its first failure, if any. */
  datatype SingleOutcome =
    | LoadFails                       // the source file cannot be decoded
    | FailsAfterLoad(img: Image)      // the originality check, the watermark info or the engine call throws
    | EncodesNull(img: Image)         // the PNG encoder yields no blob; creating its URL then throws
    | Encodes(img: Image, blob: Blob) // the blob is stored; later steps, the zoom reattachment included, may still throw

  /** The item after single-item mode; every failure is swallowed. */
  function SingleState(s: ItemState, o: SingleOutcome): (r: ItemState)
    ensures r.status == s.status
    ensures r.id == s.id && r.name == s.name && r.file == s.file
    ensures o.LoadFails? ==> r == s
    ensures !o.LoadFails? ==> r.originalImg == Some(o.img)
    ensures (o.LoadFails? || o.FailsAfterLoad?) ==> r.processedBlob == s.processedBlob
    ensures o.EncodesNull? ==> r.processedBlob == None
    ensures o.Encodes? ==> r.processedBlob == Some(o.blob)
    ensures WellFormed(s) && s.status != Completed ==> WellFormed(r)
  {
    match o
    case LoadFails => s
    case FailsAfterLoad(img) => s.(originalImg := Some(img))
    case EncodesNull(img) => s.(originalImg := Some(img), processedBlob := None)
    case Encodes(img, blob) => s.(originalImg := Some(img), processedBlob := Some(blob))
  }

  /** Single-item mode: records the decoded image and the result on the item, never touching its status. */
  method ProcessSingle(item: Item, outcome: SingleOutcome)
    modifies item
    ensures item.State() == SingleState(old(item.State()), outcome)
  {
    match outcome
    case LoadFails =>
    case FailsAfterLoad(img) =>
      item.originalImg := Some(img);
    case EncodesNull(img) =>
      item.originalImg := Some(img);
      item.processedBlob := None;
    case Encodes(img, blob) =>
      item.originalImg := Some(img);
      item.processedBlob := Some(blob);
  }

  // ---------------------------------------------------------------------------
  // Queue mode, preload pass
  // ---------------------------------------------------------------------------

  /** The position of the first item whose source cannot be decoded, if any. */
  function FirstLoadFailure(loads: seq<Option<Image>>): (r: Option<nat>)
    ensures r.Some? ==> r.value < |loads| && loads[r.value].None?
    ensures r.Some? ==> forall j :: 0 <= j < r.value ==> loads[j].Some?
    ensures r.None? ==> forall j :: 0 <= j < |loads| ==> loads[j].Some?
  {
    if |loads| == 0 then None
    else if loads[0].None? then Some(0)
    else match FirstLoadFailure(loads[1..])
      case Some(k) => Some(k + 1)
      case None => None
  }

  /** The queue after the preload pass has set the decoded image of its first `k` items. */
  function Preloaded(pre: seq<ItemState>, loads: seq<Option<Image>>, k: nat): (r: seq<ItemState>)
    requires |loads| == |pre| && k <= |pre|
    requires forall j :: 0 <= j < k ==> loads[j].Some?
    ensures |r| == |pre|
    ensures forall j :: 0 <= j < |pre| ==> r[j].status == pre[j].status && r[j].processedBlob == pre[j].processedBlob
    ensures forall j :: 0 <= j < k ==> r[j].originalImg == loads[j] && r[j].originalImg.Some?
    ensures forall j :: k <= j < |pre| ==> r[j] == pre[j]
    ensures forall j :: 0 <= j < |pre| ==> WellFormed(pre[j]) ==> WellFormed(r[j])
  {
    seq(|pre|, j requires 0 <= j < |pre| => if j < k then pre[j].(originalImg := loads[j]) else pre[j])
  }

  // ---------------------------------------------------------------------------
  // Queue mode, transform pass
  // ---------------------------------------------------------------------------

  /** What happens to a pending item in the transform pass. */
  datatype TransformOutcome =
    | EngineFails                     // the engine rejects
    | EncodeFails                     // the PNG encoder yields no blob; creating its URL then throws
    | FailsAfterCompleted(blob: Blob) // a step after the status became `Completed` throws
    | Succeeds(blob: Blob)            // every step succeeds and the counter is raised

  /** The item after the transform pass has reached it. */
  function TransformItem(s: ItemState, o: TransformOutcome): (r: ItemState)
    ensures r.id == s.id && r.name == s.name && r.file == s.file && r.originalImg == s.originalImg
    ensures s.status != Pending ==> r == s
    ensures s.status == Pending ==> IsTerminal(r.status)
    ensures s.status == Pending ==> (r.status == Completed <==> o.Succeeds?)
    ensures s.status == Pending && o.EncodeFails? ==> r.processedBlob == None
    ensures s.status == Pending && o.EngineFails? ==> r.processedBlob == s.processedBlob
    ensures s.status == Pending && (o.FailsAfterCompleted? || o.Succeeds?) ==> r.processedBlob == Some(o.blob)
    ensures WellFormed(s) ==> WellFormed(r)
  {
    if s.status != Pending then s
    else match o
      case EngineFails => s.(status := Error)
      case EncodeFails => s.(status := Error, processedBlob := None)
      case FailsAfterCompleted(blob) => s.(status := Error, processedBlob := Some(blob))
      case Succeeds(blob) => s.(status := Completed, processedBlob := Some(blob))
  }

  /** The item reached the end of the success path, where the counter is raised. */
  predicate IsCounted(s: ItemState, o: TransformOutcome)
  {
    s.status == Pending && o.Succeeds?
  }

  /** The queue after the transform pass: each item transformed independently of the others. */
  function TransformAll(pre: seq<ItemState>, outs: seq<TransformOutcome>): (r: seq<ItemState>)
    requires |outs| == |pre|
    ensures |r| == |pre|
    ensures forall j :: 0 <= j < |pre| ==> r[j] == TransformItem(pre[j], outs[j])
  {
    seq(|pre|, j requires 0 <= j < |pre| => TransformItem(pre[j], outs[j]))
  }

  /** How many items of the pass reach the counter. */
  function SuccessCount(pre: seq<ItemState>, outs: seq<TransformOutcome>): nat
    requires |outs| == |pre|
  {
    if |pre| == 0 then 0
    else
      var n := |pre| - 1;
      SuccessCount(pre[..n], outs[..n]) + (if IsCounted(pre[n], outs[n]) then 1 else 0)
  }

  /** How many items went from `Pending` in `pre` to `st` in `post`. */
  function CountFromPending(pre: seq<ItemState>, post: seq<ItemState>, st: Status): nat
    requires |post| == |pre|
  {
    if |pre| == 0 then 0
    else
      var n := |pre| - 1;
      CountFromPending(pre[..n], post[..n], st)
        + (if pre[n].status == Pending && post[n].status == st then 1 else 0)
  }

  // ---------------------------------------------------------------------------
  // The trace of the transform pass
  // ---------------------------------------------------------------------------

  /** One write of the transform pass: to an item's status or result, or to the counter. */
  datatype Event =
    | SetStatus(index: nat, status: Status)
    | SetBlob(index: nat, blob: Option<Blob>)
    | Count(index: nat)

  /** The status of the last status write in `es`, if there is one. */
  function LastStatus(es: seq<Event>): Option<Status>
  {
    if |es| == 0 then None
    else if es[|es| - 1].SetStatus? then Some(es[|es| - 1].status)
    else LastStatus(es[..|es| - 1])
  }

  /** The writes the transform pass makes for item `i`, in order. */
  function ItemEvents(i: nat, s: ItemState, o: TransformOutcome): seq<Event>
  {
    if s.status != Pending then []
    else
      [SetStatus(i, Processing)] +
      match o
      case EngineFails => [SetStatus(i, Error)]
      case EncodeFails => [SetBlob(i, None), SetStatus(i, Error)]
      case FailsAfterCompleted(blob) => [SetBlob(i, Some(blob)), SetStatus(i, Completed), SetStatus(i, Error)]
      case Succeeds(blob) => [SetBlob(i, Some(blob)), SetStatus(i, Completed), Count(i)]
  }

  /**
   * The shape of one turn's writes: they all concern item `i`; a skipped item
   * has none; a pending one enters `Processing` first and only there, never
   * returns to `Pending`, becomes `Completed` only right after its result is
   * stored, ends with its final status, and raises the counter iff counted.
   */
  lemma ItemEventsShape(i: nat, s: ItemState, o: TransformOutcome)
    ensures var r := ItemEvents(i, s, o);
      && (forall k :: 0 <= k < |r| ==> r[k].index == i)
      && (s.status != Pending ==> r == [])
      && (s.status == Pending ==> |r| >= 2 && r[0] == SetStatus(i, Processing))
      && (s.status == Pending ==> LastStatus(r) == Some(TransformItem(s, o).status))
      && (forall k :: 0 <= k < |r| && r[k].SetStatus? ==> r[k].status != Pending)
      && (forall k :: 0 < k < |r| ==> r[k] != SetStatus(i, Processing))
      && (forall k :: 0 <= k < |r| && r[k] == SetStatus(i, Completed) ==>
            0 < k && r[k - 1].SetBlob? && r[k - 1].blob.Some?)
      && (Count(i) in r <==> IsCounted(s, o))
  {
  }

  /** The writes of the whole transform pass, item by item in queue order. */
  function PassEvents(pre: seq<ItemState>, outs: seq<TransformOutcome>): seq<Event>
    requires |outs| == |pre|
  {
    if |pre| == 0 then []
    else
      var n := |pre| - 1;
      PassEvents(pre[..n], outs[..n]) + ItemEvents(n, pre[n], outs[n])
  }

  /** The writes in `es` that concern item `i`, in order. */
  function EventsOf(es: seq<Event>, i: nat): seq<Event>
  {
    if |es| == 0 then []
    else EventsOf(es[..|es| - 1], i) + (if es[|es| - 1].index == i then [es[|es| - 1]] else [])
  }

  /** How many increments of the counter `es` holds. */
  function CountWrites(es: seq<Event>): nat
  {
    if |es| == 0 then 0
    else CountWrites(es[..|es| - 1]) + (if es[|es| - 1].Count? then 1 else 0)
  }

  // ---------------------------------------------------------------------------
  // A whole queue-mode run
  // ---------------------------------------------------------------------------

  /** How a queue-mode run ends: aborted by a load failure, or after both passes. */
  datatype QueueRun =
    | LoadFailed(at: nat)
    | Finished(showDownloadAll: bool, reports: seq<Progress>)

  /** The progress lines shown after the `count` successes of a pass that started at counter `c0`. */
  function ProgressReports(c0: int, count: nat, total: nat): (r: seq<Progress>)
    ensures |r| == count
    ensures forall k :: 0 <= k < count ==> r[k] == Progress(c0 + k + 1, total)
  {
    seq(count, k requires 0 <= k < count => Progress(c0 + k + 1, total))
  }

  function RunStates(pre: seq<ItemState>, loads: seq<Option<Image>>, outs: seq<TransformOutcome>): seq<ItemState>
    requires |loads| == |pre| && |outs| == |pre|
  {
    match FirstLoadFailure(loads)
    case Some(k) => Preloaded(pre, loads, k)
    case None => TransformAll(Preloaded(pre, loads, |pre|), outs)
  }

  function RunCount(pre: seq<ItemState>, loads: seq<Option<Image>>, outs: seq<TransformOutcome>): nat
    requires |loads| == |pre| && |outs| == |pre|
  {
    match FirstLoadFailure(loads)
    case Some(_) => 0
    case None => SuccessCount(Preloaded(pre, loads, |pre|), outs)
  }

  function RunEvents(pre: seq<ItemState>, loads: seq<Option<Image>>, outs: seq<TransformOutcome>): seq<Event>
    requires |loads| == |pre| && |outs| == |pre|
  {
    match FirstLoadFailure(loads)
    case Some(_) => []
    case None => PassEvents(Preloaded(pre, loads, |pre|), outs)
  }

  function RunResult(pre: seq<ItemState>, loads: seq<Option<Image>>, outs: seq<TransformOutcome>, c0: int): QueueRun
    requires |loads| == |pre| && |outs| == |pre|
  {
    match FirstLoadFailure(loads)
    case Some(k) => LoadFailed(k)
    case None =>
      var count := SuccessCount(Preloaded(pre, loads, |pre|), outs);
      Finished(c0 + count > 0, ProgressReports(c0, count, |pre|))
  }

  // ---------------------------------------------------------------------------
  // Queue mode
  // ---------------------------------------------------------------------------

  /**
   * The preload pass: decodes each item's source in queue order and records
   * the image on the item. The first decode failure ends the pass there.
   */
  method Preload(imageQueue: seq<Item>, loads: seq<Option<Image>>) returns (failed: Option<nat>)
    requires Distinct(imageQueue) && |loads| == |imageQueue|
    modifies imageQueue
    ensures failed == FirstLoadFailure(loads)
    ensures StatesOf(imageQueue) == Preloaded(old(StatesOf(imageQueue)), loads,
              if failed.Some? then failed.value else |imageQueue|)
  {
    ghost var pre := StatesOf(imageQueue);
    var n := |imageQueue|;
    var i := 0;
    while i < n
      invariant 0 <= i <= n
      invariant forall j :: 0 <= j < i ==> loads[j].Some?
      invariant forall j :: 0 <= j < i ==> imageQueue[j].State() == pre[j].(originalImg := loads[j])
      invariant forall j :: i <= j < n ==> imageQueue[j].State() == pre[j]
    {
      var item := imageQueue[i];
      if loads[i].None? {
        assert StatesOf(imageQueue) == Preloaded(pre, loads, i);
        return Some(i);
      }
      var img := loads[i].value;
      item.originalImg := Some(img);
      i := i + 1;
    }
    assert StatesOf(imageQueue) == Preloaded(pre, loads, n);
    return None;
  }

  /**
   * One turn of the transform pass (the loop body): an item that is not
   * pending is skipped; a pending one enters `Processing`, and the outcome
   * decides where it ends. A failure is caught here. The counter is raised,
   * and the progress line redrawn, only at the end of the success path.
   */
  method TransformStep(store: Store, item: Item, ghost i: nat, outcome: TransformOutcome)
    returns (shown: Option<Progress>, ghost events: seq<Event>)
    modifies store, item
    ensures item.State() == TransformItem(old(item.State()), outcome)
    ensures store.processedCount == old(store.processedCount) + (if IsCounted(old(item.State()), outcome) then 1 else 0)
    ensures store.imageQueue == old(store.imageQueue)
    ensures store.engine == old(store.engine) && store.zoom == old(store.zoom)
    ensures shown == if IsCounted(old(item.State()), outcome) then Some(Progress(store.processedCount, |store.imageQueue|)) else None
    ensures events == ItemEvents(i, old(item.State()), outcome)
  {
    shown := None;
    events := [];
    if item.status != Pending {
      return;
    }
    // Each write is logged with the value read back from the item after it.
    item.status := Processing;
    events := [SetStatus(i, item.status)];
    match outcome
    case EngineFails =>
      item.status := Error;
      events := events + [SetStatus(i, item.status)];
    case EncodeFails =>
      item.processedBlob := None;
      events := events + [SetBlob(i, item.processedBlob)];
      item.status := Error;
      events := events + [SetStatus(i, item.status)];
    case FailsAfterCompleted(blob) =>
      item.processedBlob := Some(blob);
      events := events + [SetBlob(i, item.processedBlob)];
      item.status := Completed;
      events := events + [SetStatus(i, item.status)];
      item.status := Error;
      events := events + [SetStatus(i, item.status)];
    case Succeeds(blob) =>
      item.processedBlob := Some(blob);
      events := events + [SetBlob(i, item.processedBlob)];
      item.status := Completed;
      events := events + [SetStatus(i, item.status)];
      var _ := store.IncrementProcessedCount();
      events := events + [Count(i)];
      var p := UpdateProgress(store);
      shown := Some(p);
  }

  /** Extending the pass by item `i` adds its count and its writes to the end. */
  lemma PassStep(pre: seq<ItemState>, outs: seq<TransformOutcome>, i: nat)
    requires |outs| == |pre| && i < |pre|
    ensures SuccessCount(pre[..i + 1], outs[..i + 1])
              == SuccessCount(pre[..i], outs[..i]) + (if IsCounted(pre[i], outs[i]) then 1 else 0)
    ensures PassEvents(pre[..i + 1], outs[..i + 1]) == PassEvents(pre[..i], outs[..i]) + ItemEvents(i, pre[i], outs[i])
  {
    assert pre[..i + 1][..i] == pre[..i] && outs[..i + 1][..i] == outs[..i];
  }

  /** One more success adds the next progress line. */
  lemma ReportsStep(c0: int, k: nat, total: nat)
    ensures ProgressReports(c0, k + 1, total) == ProgressReports(c0, k, total) + [Progress(c0 + k + 1, total)]
  {
  }

  /**
   * The transform pass after its first `i` turns over the live queue `q`,
   * which held the snapshots `pre` and the counter `c0` when it began.
   */
  ghost predicate PassedUpTo(store: Store, q: seq<Item>, pre: seq<ItemState>, outcomes: seq<TransformOutcome>,
                             c0: int, i: nat, reports: seq<Progress>, events: seq<Event>)
    reads store, q
  {
    && |pre| == |q| && |outcomes| == |q| && i <= |q|
    && store.imageQueue == q
    && (forall j :: 0 <= j < i ==> q[j].State() == TransformItem(pre[j], outcomes[j]))
    && (forall j :: i <= j < |q| ==> q[j].State() == pre[j])
    && store.processedCount == c0 + SuccessCount(pre[..i], outcomes[..i])
    && reports == ProgressReports(c0, SuccessCount(pre[..i], outcomes[..i]), |q|)
    && events == PassEvents(pre[..i], outcomes[..i])
  }

  /** Turn `i` of the pass: only the item at position `i` changes. */
  method PassTurn(store: Store, q: seq<Item>, ghost pre: seq<ItemState>, outcomes: seq<TransformOutcome>,
                  ghost c0: int, i: nat, reports: seq<Progress>, ghost events: seq<Event>)
    returns (newReports: seq<Progress>, ghost newEvents: seq<Event>)
    requires Distinct(q) && i < |q|
    requires PassedUpTo(store, q, pre, outcomes, c0, i, reports, events)
    modifies store, q[i]
    ensures PassedUpTo(store, q, pre, outcomes, c0, i + 1, newReports, newEvents)
    ensures store.engine == old(store.engine) && store.zoom == old(store.zoom)
  {
    PassStep(pre, outcomes, i);
    ghost var k := SuccessCount(pre[..i], outcomes[..i]);
    var item := q[i];
    var shown, es := TransformStep(store, item, i, outcomes[i]);
    newEvents := events + es;
    newReports := reports;
    if shown.Some? {
      ReportsStep(c0, k, |q|);
      newReports := reports + [shown.value];
    }
    forall j | 0 <= j < |q| && j != i ensures q[j].State() == old(q[j].State()) {
      assert q[j] != item;
    }
  }

  /** The transform pass over the live queue, skipping every item that is not pending. */
  method TransformPass(store: Store, outcomes: seq<TransformOutcome>)
    returns (reports: seq<Progress>, ghost events: seq<Event>)
    requires Distinct(store.imageQueue) && |outcomes| == |store.imageQueue|
    modifies store, store.imageQueue
    ensures store.imageQueue == old(store.imageQueue)
    ensures store.engine == old(store.engine) && store.zoom == old(store.zoom)
    ensures StatesOf(store.imageQueue) == TransformAll(old(StatesOf(store.imageQueue)), outcomes)
    ensures store.processedCount == old(store.processedCount) + SuccessCount(old(StatesOf(store.imageQueue)), outcomes)
    ensures reports == ProgressReports(old(store.processedCount), SuccessCount(old(StatesOf(store.imageQueue)), outcomes), |store.imageQueue|)
    ensures events == PassEvents(old(StatesOf(store.imageQueue)), outcomes)
  {
    var imageQueue := store.GetImageQueue();
    ghost var pre := StatesOf(imageQueue);
    ghost var c0 := store.processedCount;
    var n := |imageQueue|;
    reports := [];
    events := [];
    var i := 0;
    while i < n
      invariant 0 <= i <= n
      invariant PassedUpTo(store, imageQueue, pre, outcomes, c0, i, reports, events)
      invariant store.engine == old(store.engine) && store.zoom == old(store.zoom)
    {
      reports, events := PassTurn(store, imageQueue, pre, outcomes, c0, i, reports, events);
      i := i + 1;
    }
    assert pre[..n] == pre && outcomes[..n] == outcomes;
  }

  /**
   * Queue mode over the live queue: the preload pass, which an uncaught
   * decode failure aborts, then the transform pass; the download-all control
   * is shown when the counter ends above zero.
   */
  method ProcessQueue(store: Store, loads: seq<Option<Image>>, outcomes: seq<TransformOutcome>)
    returns (run: QueueRun, ghost events: seq<Event>)
    requires store.Valid()
    requires |loads| == |store.imageQueue| && |outcomes| == |store.imageQueue|
    modifies store, store.imageQueue
    ensures store.Valid()
    ensures store.imageQueue == old(store.imageQueue)
    ensures store.engine == old(store.engine) && store.zoom == old(store.zoom)
    ensures StatesOf(store.imageQueue) == RunStates(old(StatesOf(store.imageQueue)), loads, outcomes)
    ensures store.processedCount == old(store.processedCount) + RunCount(old(StatesOf(store.imageQueue)), loads, outcomes)
    ensures run == RunResult(old(StatesOf(store.imageQueue)), loads, outcomes, old(store.processedCount))
    ensures run.Finished? ==> run.showDownloadAll == (store.processedCount > 0)
    ensures events == RunEvents(old(StatesOf(store.imageQueue)), loads, outcomes)
  {
    var imageQueue := store.GetImageQueue();
    ghost var pre := StatesOf(imageQueue);
    var failed := Preload(imageQueue, loads);
    if failed.Some? {
      return LoadFailed(failed.value), [];
    }
    var reports;
    reports, events := TransformPass(store, outcomes);
    var processedCount := store.GetProcessedCount();
    run := Finished(processedCount > 0, reports);
  }

  // ---------------------------------------------------------------------------
  // Properties of the transform pass
  // ---------------------------------------------------------------------------

  /** The counter counts exactly the items that went from `Pending` to `Completed`. */
  lemma {:induction false} SuccessCountIsNewlyCompleted(pre: seq<ItemState>, outs: seq<TransformOutcome>)
    requires |outs| == |pre|
    ensures SuccessCount(pre, outs) == CountFromPending(pre, TransformAll(pre, outs), Completed)
  {
    if |pre| > 0 {
      var n := |pre| - 1;
      SuccessCountIsNewlyCompleted(pre[..n], outs[..n]);
      assert TransformAll(pre, outs)[..n] == TransformAll(pre[..n], outs[..n]);
    }
  }

  /**
   * Every pending item ends `Completed` or `Error`, and only the completed
   * ones are counted: errors never reach the counter.
   */
  lemma {:induction false} PendingEndsCompletedOrError(pre: seq<ItemState>, outs: seq<TransformOutcome>)
    requires |outs| == |pre|
    ensures CountStatus(pre, Pending)
              == SuccessCount(pre, outs) + CountFromPending(pre, TransformAll(pre, outs), Error)
    ensures CountStatus(TransformAll(pre, outs), Pending) == 0
    ensures SuccessCount(pre, outs) <= CountStatus(pre, Pending) <= |pre|
  {
    if |pre| > 0 {
      var n := |pre| - 1;
      PendingEndsCompletedOrError(pre[..n], outs[..n]);
      assert TransformAll(pre, outs)[..n] == TransformAll(pre[..n], outs[..n]);
    }
  }

  /** The count depends only on the statuses the items have before the pass. */
  lemma {:induction false} SuccessCountByStatus(a: seq<ItemState>, b: seq<ItemState>, outs: seq<TransformOutcome>)
    requires |a| == |b| == |outs|
    requires forall j :: 0 <= j < |a| ==> a[j].status == b[j].status
    ensures SuccessCount(a, outs) == SuccessCount(b, outs)
  {
    if |a| > 0 {
      var n := |a| - 1;
      SuccessCountByStatus(a[..n], b[..n], outs[..n]);
    }
  }

  /**
   * Per-item isolation: replacing the outcome of item `i` changes the final
   * state of item `i` alone, and the count by that item's contribution alone.
   */
  lemma {:induction false} OutcomeIsolation(pre: seq<ItemState>, outs: seq<TransformOutcome>, i: nat, o: TransformOutcome)
    requires |outs| == |pre| && i < |pre|
    ensures forall j :: 0 <= j < |pre| && j != i ==> TransformAll(pre, outs[i := o])[j] == TransformAll(pre, outs)[j]
    ensures SuccessCount(pre, outs[i := o]) + (if IsCounted(pre[i], outs[i]) then 1 else 0)
              == SuccessCount(pre, outs) + (if IsCounted(pre[i], o) then 1 else 0)
  {
    if |pre| > 0 {
      var n := |pre| - 1;
      if i < n {
        OutcomeIsolation(pre[..n], outs[..n], i, o);
        assert outs[i := o][..n] == outs[..n][i := o];
      } else {
        assert outs[i := o][..n] == outs[..n];
      }
    }
  }

  /** The writes of the pass concern items of the queue, in queue order. */
  lemma {:induction false} PassEventsInQueueOrder(pre: seq<ItemState>, outs: seq<TransformOutcome>)
    requires |outs| == |pre|
    ensures forall k :: 0 <= k < |PassEvents(pre, outs)| ==> PassEvents(pre, outs)[k].index < |pre|
    ensures forall k, l :: 0 <= k < l < |PassEvents(pre, outs)| ==>
              PassEvents(pre, outs)[k].index <= PassEvents(pre, outs)[l].index
  {
    if |pre| > 0 {
      var n := |pre| - 1;
      PassEventsInQueueOrder(pre[..n], outs[..n]);
    }
  }

  lemma {:induction false} EventsOfAppend(a: seq<Event>, b: seq<Event>, i: nat)
    ensures EventsOf(a + b, i) == EventsOf(a, i) + EventsOf(b, i)
  {
    if |b| > 0 {
      var m := |b| - 1;
      EventsOfAppend(a, b[..m], i);
      assert (a + b)[..|a + b| - 1] == a + b[..m];
    } else {
      assert a + b == a;
    }
  }

  lemma {:induction false} CountWritesAppend(a: seq<Event>, b: seq<Event>)
    ensures CountWrites(a + b) == CountWrites(a) + CountWrites(b)
  {
    if |b| > 0 {
      var m := |b| - 1;
      CountWritesAppend(a, b[..m]);
      assert (a + b)[..|a + b| - 1] == a + b[..m];
    } else {
      assert a + b == a;
    }
  }

  lemma {:induction false} NoEventsOfOthers(es: seq<Event>, i: nat)
    requires forall k :: 0 <= k < |es| ==> es[k].index != i
    ensures EventsOf(es, i) == []
  {
    if |es| > 0 {
      NoEventsOfOthers(es[..|es| - 1], i);
    }
  }

  lemma {:induction false} AllEventsOf(es: seq<Event>, i: nat)
    requires forall k :: 0 <= k < |es| ==> es[k].index == i
    ensures EventsOf(es, i) == es
  {
    if |es| > 0 {
      AllEventsOf(es[..|es| - 1], i);
    }
  }

  /**
   * The writes the pass makes to item `i` are exactly those of its own turn:
   * a pending item enters `Processing` once, first, and its last status write
   * is its final status; a non-pending item is never written.
   */
  lemma {:induction false} PassEventsOfItem(pre: seq<ItemState>, outs: seq<TransformOutcome>, i: nat)
    requires |outs| == |pre| && i < |pre|
    ensures EventsOf(PassEvents(pre, outs), i) == ItemEvents(i, pre[i], outs[i])
  {
    var n := |pre| - 1;
    var before := PassEvents(pre[..n], outs[..n]);
    var last := ItemEvents(n, pre[n], outs[n]);
    EventsOfAppend(before, last, i);
    if i < n {
      PassEventsOfItem(pre[..n], outs[..n], i);
      NoEventsOfOthers(last, i);
    } else {
      PassEventsInQueueOrder(pre[..n], outs[..n]);
      NoEventsOfOthers(before, i);
      AllEventsOf(last, i);
    }
  }

  /** No write of the pass ever puts an item back to `Pending`. */
  lemma {:induction false} PassNeverSetsPending(pre: seq<ItemState>, outs: seq<TransformOutcome>)
    requires |outs| == |pre|
    ensures forall k :: 0 <= k < |PassEvents(pre, outs)| && PassEvents(pre, outs)[k].SetStatus? ==>
              PassEvents(pre, outs)[k].status != Pending
  {
    if |pre| > 0 {
      var n := |pre| - 1;
      PassNeverSetsPending(pre[..n], outs[..n]);
    }
  }

  /** A turn increments the counter once if it is counted, and otherwise not at all. */
  lemma ItemCountWrites(i: nat, s: ItemState, o: TransformOutcome)
    ensures CountWrites(ItemEvents(i, s, o)) == if IsCounted(s, o) then 1 else 0
  {
    var es := ItemEvents(i, s, o);
    if |es| > 0 {
      var prefix := es[..|es| - 1];
      assert forall k :: 0 <= k < |prefix| ==> !prefix[k].Count?;
      NoCountWrites(prefix);
    }
  }

  lemma {:induction false} NoCountWrites(es: seq<Event>)
    requires forall k :: 0 <= k < |es| ==> !es[k].Count?
    ensures CountWrites(es) == 0
  {
    if |es| > 0 {
      NoCountWrites(es[..|es| - 1]);
    }
  }

  /** The counter moves in lockstep with the pass: one increment per counted item. */
  lemma {:induction false} CountEventsMatchCounter(pre: seq<ItemState>, outs: seq<TransformOutcome>)
    requires |outs| == |pre|
    ensures CountWrites(PassEvents(pre, outs)) == SuccessCount(pre, outs)
  {
    if |pre| > 0 {
      var n := |pre| - 1;
      CountWritesAppend(PassEvents(pre[..n], outs[..n]), ItemEvents(n, pre[n], outs[n]));
      ItemCountWrites(n, pre[n], outs[n]);
      CountEventsMatchCounter(pre[..n], outs[..n]);
    }
  }

  /**
   * A decode failure in the preload pass aborts the run: no status changes,
   * nothing is counted, no transform write happens, and the items from the
   * failing one on are untouched.
   */
  lemma LoadFailureAbortsRun(pre: seq<ItemState>, loads: seq<Option<Image>>, outs: seq<TransformOutcome>)
    requires |loads| == |pre| && |outs| == |pre|
    requires FirstLoadFailure(loads).Some?
    ensures var post := RunStates(pre, loads, outs);
      forall j :: 0 <= j < |pre| ==> post[j].status == pre[j].status && post[j].processedBlob == pre[j].processedBlob
    ensures forall j :: FirstLoadFailure(loads).value <= j < |pre| ==> RunStates(pre, loads, outs)[j] == pre[j]
    ensures RunCount(pre, loads, outs) == 0 && RunEvents(pre, loads, outs) == []
  {
  }

  /** When every item loads, the run counts the items that were pending and succeeded. */
  lemma RunCountWithoutLoadFailure(pre: seq<ItemState>, loads: seq<Option<Image>>, outs: seq<TransformOutcome>)
    requires |loads| == |pre| && |outs| == |pre|
    requires FirstLoadFailure(loads).None?
    ensures RunCount(pre, loads, outs) == SuccessCount(pre, outs)
    ensures forall j :: 0 <= j < |pre| ==> RunStates(pre, loads, outs)[j].originalImg == loads[j]
  {
    SuccessCountByStatus(Preloaded(pre, loads, |pre|), pre, outs);
  }
}
