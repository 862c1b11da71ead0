/**
 * The unit of work of the batch pipeline: one submitted image file and the
 * mutable record that follows it through loading, transformation and export.
 */
module ItemModel {
  import opened Wrappers

  /** The lifecycle of one item; `Completed` and `Error` are terminal. */
  datatype Status = Pending | Processing | Completed | Error

  /** A submitted file as intake sees it: its name, declared media type and size in bytes. */
  datatype File = File(name: string, mediaType: string, size: nat)

  /** A decoded image; the engine's input. Only its dimensions are visible to the pipeline. */
  datatype Image = Image(width: nat, height: nat)

  /** An encoded PNG payload, opaque to the pipeline. */
  datatype Blob = Blob(bytes: seq<bv8>)

  /** A snapshot of one item: its fixed fields and the three fields the pipeline mutates. */
  datatype ItemState = ItemState(
    id: int,
    name: string,
    file: File,
    status: Status,
    originalImg: Option<Image>,
    processedBlob: Option<Blob>)

  predicate IsTerminal(s: Status)
  {
    s == Completed || s == Error
  }

  /** The store invariant on one item: a completed item always holds its result. */
  predicate WellFormed(s: ItemState)
  {
    s.status == Completed ==> s.processedBlob.Some?
  }

  /** The record intake builds for `file` (fileHandler.js, the object literal of the `map`). */
  function NewItemState(file: File, id: int): (s: ItemState)
    ensures s.status == Pending && WellFormed(s)
  {
    ItemState(id, file.name, file, Pending, None, None)
  }

  /** How many items of a queue snapshot are in status `st`. */
  function CountStatus(states: seq<ItemState>, st: Status): nat
  {
    if |states| == 0 then 0
    else
      var n := |states| - 1;
      CountStatus(states[..n], st) + (if states[n].status == st then 1 else 0)
  }

  /** An item object; the queue shares these by reference and the pipeline mutates them in place. */
  class Item {
    const id: int
    const file: File
    const name: string
    var status: Status
    var originalImg: Option<Image>
    var processedBlob: Option<Blob>

    constructor (id: int, file: File)
      ensures State() == NewItemState(file, id)
    {
      this.id := id;
      this.file := file;
      this.name := file.name;
      this.status := Pending;
      this.originalImg := None;
      this.processedBlob := None;
    }

    function State(): ItemState
      reads this
    {
      ItemState(id, name, file, status, originalImg, processedBlob)
    }
  }

  /** The snapshots of a queue's items, in queue order. */
  function StatesOf(q: seq<Item>): (r: seq<ItemState>)
    reads q
    ensures |r| == |q|
    ensures forall j :: 0 <= j < |q| ==> r[j] == q[j].State()
  {
    seq(|q|, j reads q requires 0 <= j < |q| => q[j].State())
  }

  /** No item object occurs twice in the queue. */
  predicate Distinct(q: seq<Item>)
  {
    forall j, k :: 0 <= j < k < |q| ==> q[j] != q[k]
  }
}
