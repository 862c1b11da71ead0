/**
 * Intake (src/handlers/fileHandler.js): the admission filter, the batch of
 * pending items built from the admitted files, the replacement of the store's
 * batch and the dispatch to single-item or queue mode.
 */
module FileHandler {
  import opened Wrappers
  import opened Seqs
  import opened ItemModel
  import opened AppState
  import opened UiController
  import opened ProcessHandler

  /** The size ceiling: 20 MiB. */
  const MaxFileSize: nat := 20 * 1024 * 1024

  /**
   * The media-type test: the pattern `image/(jpeg|png|webp)` is not anchored,
   * so it accepts any type that contains one of the three names.
   */
  predicate MatchesImageType(mediaType: string)
  {
    Contains(mediaType, "image/jpeg") || Contains(mediaType, "image/png") || Contains(mediaType, "image/webp")
  }

  predicate Admitted(f: File)
  {
    MatchesImageType(f.mediaType) && f.size <= MaxFileSize
  }

  /** The admitted files, in submission order. */
  function ValidFiles(files: seq<File>): seq<File>
  {
    Filter(Admitted, files)
  }

  /**
   * A file is admitted iff its type matches and its size is within the
   * ceiling; each admitted file is kept as often as it was submitted, and the
   * admitted files keep their submission order.
   */
  lemma ValidFilesExact(files: seq<File>, f: File) returns (idx: seq<nat>)
    ensures f in ValidFiles(files) <==> f in files && MatchesImageType(f.mediaType) && f.size <= MaxFileSize
    ensures multiset(ValidFiles(files))[f] == if Admitted(f) then multiset(files)[f] else 0
    ensures EmbedsAt(ValidFiles(files), files, idx)
  {
    FilterMembership(Admitted, files, f);
    FilterMultiplicity(Admitted, files, f);
    idx := FilterEmbedding(Admitted, files);
  }

  /** The pattern is a substring search: the exact types pass, near misses fail, embedded ones pass. */
  lemma MediaTypeExamples()
    ensures MatchesImageType("image/png") && MatchesImageType("image/jpeg") && MatchesImageType("image/webp")
    ensures !MatchesImageType("image/jpg") && !MatchesImageType("image/gif")
    ensures MatchesImageType("x-image/pngx")
  {
    assert OccursAt("image/png", "image/png", 0);
    assert OccursAt("image/jpeg", "image/jpeg", 0);
    assert OccursAt("image/webp", "image/webp", 0);
    assert OccursAt("x-image/pngx", "image/png", 2);
    assert "image/jpg"[6] != "image/png"[6] && "image/gif"[6] != "image/png"[6];
    assert !Contains("image/jpg", "image/png") && !Contains("image/gif", "image/png") by {
      assert "image/jpg"[..9] != "image/png" && "image/gif"[..9] != "image/png";
      assert !Contains("image/jpg"[1..], "image/png") && !Contains("image/gif"[1..], "image/png");
    }
  }

  /** Submitting an oversized JPEG with a valid PNG yields the PNG alone. */
  lemma OversizedFileDropped(big: File, ok: File)
    requires big.mediaType == "image/jpeg" && big.size == MaxFileSize + 1
    requires ok.mediaType == "image/png" && ok.size <= MaxFileSize
    ensures ValidFiles([big, ok]) == [ok]
  {
    assert OccursAt("image/png", "image/png", 0);
    assert [big, ok][1..] == [ok] && [ok][1..] == [];
    assert !Admitted(big) && Admitted(ok);
    assert ValidFiles([ok]) == [ok] + Filter(Admitted, []);
    assert ValidFiles([big, ok]) == ValidFiles([ok]);
  }

  /** Readings of a clock that never runs backwards. */
  predicate NonDecreasing(clock: seq<int>)
  {
    forall j, k :: 0 <= j <= k < |clock| ==> clock[j] <= clock[k]
  }

  /**
   * The snapshots of the batch built from `valid`, where building item `j`
   * reads the clock as `clock[j]`: one pending item per file, with id
   * `clock[j] + j`. While the clock does not run backwards, ids strictly
   * increase along the batch, however often it ticks.
   */
  function NewStates(valid: seq<File>, clock: seq<int>): (r: seq<ItemState>)
    requires |clock| == |valid|
    ensures |r| == |valid|
    ensures forall j :: 0 <= j < |valid| ==> r[j] == NewItemState(valid[j], clock[j] + j)
    ensures NonDecreasing(clock) ==> forall j, k :: 0 <= j < k < |r| ==> r[j].id < r[k].id
  {
    seq(|valid|, j requires 0 <= j < |valid| => NewItemState(valid[j], clock[j] + j))
  }

  /** The `map` over the admitted files: one fresh pending item per file, each reading the clock once. */
  method BuildQueue(valid: seq<File>, clock: seq<int>) returns (queue: seq<Item>)
    requires |clock| == |valid|
    ensures |queue| == |valid| && Distinct(queue)
    ensures forall j :: 0 <= j < |queue| ==> fresh(queue[j])
    ensures StatesOf(queue) == NewStates(valid, clock)
  {
    queue := [];
    for index := 0 to |valid|
      invariant |queue| == index && Distinct(queue)
      invariant forall j :: 0 <= j < index ==> fresh(queue[j])
      invariant forall j :: 0 <= j < index ==> queue[j].State() == NewItemState(valid[j], clock[j] + j)
    {
      var now := clock[index];
      var item := new Item(now + index, valid[index]);
      queue := queue + [item];
    }
  }

  /** Which mode intake starts. */
  datatype Dispatch = NoBatch | SingleMode | QueueMode

  function DispatchFor(admitted: nat): (d: Dispatch)
    ensures d == NoBatch <==> admitted == 0
    ensures d == SingleMode <==> admitted == 1
    ensures d == QueueMode <==> admitted >= 2
  {
    if admitted == 0 then NoBatch else if admitted == 1 then SingleMode else QueueMode
  }

  /**
   * Intake up to the dispatch: with no admitted file nothing changes;
   * otherwise the batch replaces the store's queue and the counter restarts.
   */
  method CreateBatch(store: Store, files: seq<File>, clock: seq<int>) returns (d: Dispatch)
    requires |clock| == |ValidFiles(files)|
    modifies store
    ensures d == DispatchFor(|ValidFiles(files)|)
    ensures d == NoBatch ==>
              store.imageQueue == old(store.imageQueue) && store.processedCount == old(store.processedCount)
    ensures d != NoBatch ==>
              && store.processedCount == 0
              && StatesOf(store.imageQueue) == NewStates(ValidFiles(files), clock)
              && (forall j :: 0 <= j < |store.imageQueue| ==> fresh(store.imageQueue[j]))
              && store.Valid()
    ensures store.engine == old(store.engine) && store.zoom == old(store.zoom)
  {
    var validFiles := ValidFiles(files);
    if |validFiles| == 0 {
      return NoBatch;
    }
    var imageQueue := BuildQueue(validFiles, clock);
    store.SetImageQueue(imageQueue);
    store.SetProcessedCount(0);
    d := DispatchFor(|validFiles|);
  }

  /** How a submission ended: nothing started, single-item mode, or queue mode after its first progress line. */
  datatype Submission =
    | NotStarted
    | SingleRun
    | QueueRunFrom(initial: Progress, run: QueueRun)

  /** The state a submission leaves behind, as `HandleFiles` promises it. */
  twostate predicate Handled(store: Store, files: seq<File>, clock: seq<int>, single: SingleOutcome,
                             loads: seq<Option<Image>>, outcomes: seq<TransformOutcome>, result: Submission)
    requires |clock| == |ValidFiles(files)| && |loads| == |ValidFiles(files)| && |outcomes| == |ValidFiles(files)|
    reads store, store.imageQueue
  {
    var valid := ValidFiles(files);
    && store.engine == old(store.engine) && store.zoom == old(store.zoom)
    && (|valid| == 0 ==>
          && result == NotStarted
          && store.imageQueue == old(store.imageQueue)
          && store.processedCount == old(store.processedCount))
    && (|valid| > 0 ==>
          && store.Valid()
          && |store.imageQueue| == |valid|
          && (forall j :: 0 <= j < |valid| ==> fresh(store.imageQueue[j])))
    && (|valid| == 1 ==>
          && result == SingleRun
          && store.processedCount == 0
          && store.imageQueue[0].State() == SingleState(NewItemState(valid[0], clock[0]), single))
    && (|valid| >= 2 ==>
          && StatesOf(store.imageQueue) == RunStates(NewStates(valid, clock), loads, outcomes)
          && store.processedCount == RunCount(NewStates(valid, clock), loads, outcomes)
          && result == QueueRunFrom(Progress(0, |valid|), RunResult(NewStates(valid, clock), loads, outcomes, 0)))
  }

  /**
   * Intake and dispatch: one admitted file runs single-item mode on the new
   * item, two or more show the `0/n` progress line and run queue mode.
   * The engine's and the browser's behaviour on the new items is given by
   * `single`, `loads` and `outcomes`.
   */
  method HandleFiles(store: Store, files: seq<File>, clock: seq<int>, single: SingleOutcome,
                     loads: seq<Option<Image>>, outcomes: seq<TransformOutcome>)
    returns (result: Submission)
    requires |clock| == |ValidFiles(files)| && |loads| == |ValidFiles(files)| && |outcomes| == |ValidFiles(files)|
    modifies store
    ensures Handled(store, files, clock, single, loads, outcomes, result)
  {
    var d := CreateBatch(store, files, clock);
    match d
    case NoBatch =>
      result := NotStarted;
    case SingleMode =>
      var imageQueue := store.GetImageQueue();
      ProcessSingle(imageQueue[0], single);
      result := SingleRun;
    case QueueMode =>
      var initial := UpdateProgress(store);
      var run, _ := ProcessQueue(store, loads, outcomes);
      result := QueueRunFrom(initial, run);
  }

  /** A file-input change event: the files the user picked. */
  datatype SelectEvent = SelectEvent(files: seq<File>)

  /** The file-input handler: intake applied to the event's file list. */
  method HandleFileSelect(store: Store, e: SelectEvent, clock: seq<int>, single: SingleOutcome,
                          loads: seq<Option<Image>>, outcomes: seq<TransformOutcome>)
    returns (result: Submission)
    requires |clock| == |ValidFiles(e.files)| && |loads| == |ValidFiles(e.files)| && |outcomes| == |ValidFiles(e.files)|
    modifies store
    ensures Handled(store, e.files, clock, single, loads, outcomes, result)
  {
    result := HandleFiles(store, e.files, clock, single, loads, outcomes);
  }
}
