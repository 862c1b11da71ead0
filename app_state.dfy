/**
 * The process-wide store of the application (src/state/appState.js): the
 * watermark engine, the current batch, the processed counter and the zoom
 * widget, each reassigned by its own setter.
 */
module AppState {
  import opened Wrappers
  import opened ItemModel

  /** An opaque handle to the watermark-removal engine. */
  datatype Engine = Engine(handle: nat)

  /** An opaque handle to the zoom widget. */
  datatype Zoom = Zoom(handle: nat)

  class Store {
    var engine: Option<Engine>
    var imageQueue: seq<Item>
    var processedCount: int
    var zoom: Option<Zoom>

    /**
     * The invariant every pipeline stage relies on: the queue holds each item
     * once, and every completed item carries its result.
     */
    ghost predicate Valid()
      reads this, imageQueue
    {
      Distinct(imageQueue)
      && forall j :: 0 <= j < |imageQueue| ==> WellFormed(imageQueue[j].State())
    }

    /** The module's initial bindings. */
    constructor ()
      ensures engine == None && imageQueue == [] && processedCount == 0 && zoom == None
      ensures Valid()
    {
      engine := None;
      imageQueue := [];
      processedCount := 0;
      zoom := None;
    }

    function GetEngine(): Option<Engine>
      reads this
    {
      engine
    }

    method SetEngine(value: Option<Engine>)
      modifies this
      ensures GetEngine() == value
      ensures imageQueue == old(imageQueue) && processedCount == old(processedCount) && zoom == old(zoom)
    {
      engine := value;
    }

    /** The live queue: the very item references last stored, not a copy of them. */
    function GetImageQueue(): seq<Item>
      reads this
    {
      imageQueue
    }

    method SetImageQueue(queue: seq<Item>)
      modifies this
      ensures GetImageQueue() == queue
      ensures engine == old(engine) && processedCount == old(processedCount) && zoom == old(zoom)
    {
      imageQueue := queue;
    }

    function GetProcessedCount(): int
      reads this
    {
      processedCount
    }

    method SetProcessedCount(count: int)
      modifies this
      ensures GetProcessedCount() == count
      ensures engine == old(engine) && imageQueue == old(imageQueue) && zoom == old(zoom)
    {
      processedCount := count;
    }

    /** Raises the counter by one and returns its new value. */
    method IncrementProcessedCount() returns (n: int)
      modifies this
      ensures processedCount == old(processedCount) + 1 && n == processedCount
      ensures engine == old(engine) && imageQueue == old(imageQueue) && zoom == old(zoom)
    {
      processedCount := processedCount + 1;
      n := processedCount;
    }

    function GetZoom(): Option<Zoom>
      reads this
    {
      zoom
    }

    method SetZoom(value: Option<Zoom>)
      modifies this
      ensures GetZoom() == value
      ensures engine == old(engine) && imageQueue == old(imageQueue) && processedCount == old(processedCount)
    {
      zoom := value;
    }
  }
}
