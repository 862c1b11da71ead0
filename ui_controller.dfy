/**
 * The store-facing part of src/ui/uiController.js: clearing the batch and
 * reading the progress pair that the progress line displays.
 */
module UiController {
  import opened AppState

  /** What the progress line shows: `processed/total`. */
  datatype Progress = Progress(processed: int, total: nat)

  /** Drops the current batch and zeroes the counter; engine and zoom are kept. */
  method Reset(store: Store)
    modifies store
    ensures store.GetImageQueue() == [] && store.GetProcessedCount() == 0
    ensures store.engine == old(store.engine) && store.zoom == old(store.zoom)
    ensures store.Valid()
  {
    store.SetImageQueue([]);
    store.SetProcessedCount(0);
  }

  /** Reads the counter and the queue length; it changes nothing in the store. */
  method UpdateProgress(store: Store) returns (p: Progress)
    ensures p.processed == store.GetProcessedCount()
    ensures p.total == |store.GetImageQueue()|
  {
    var imageQueue := store.GetImageQueue();
    var processedCount := store.GetProcessedCount();
    p := Progress(processedCount, |imageQueue|);
  }
}
