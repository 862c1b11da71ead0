/**
 * Export (src/handlers/downloadHandler.js): the output file name shared by
 * single and bulk download, the filter on completed items, and the list of
 * archive entries. Object URLs, the link click and the zip encoder are
 * outside this model; an archive is its name and its list of entries.
 */
module DownloadHandler {
  import opened Wrappers
  import opened Seqs
  import opened ItemModel
  import opened AppState

  const OutputPrefix: string := "unwatermarked_"

  // ---------------------------------------------------------------------------
  // File names
  // ---------------------------------------------------------------------------

  /**
   * The pattern `\.[^.]+$` matches `name` from position `p`: a dot, then one
   * or more characters that are not dots, up to the end of the name.
   */
  ghost predicate ExtensionAt(name: string, p: nat)
  {
    p + 1 < |name| && name[p] == '.' && forall k :: p < k < |name| ==> name[k] != '.'
  }

  /** The pattern matches at most at one position. */
  lemma ExtensionUnique(name: string, p: nat, q: nat)
    requires ExtensionAt(name, p) && ExtensionAt(name, q)
    ensures p == q
  {
  }

  /** The position of the last dot of `s`, if it has one. */
  function LastDot(s: string): (r: Option<nat>)
    ensures r.Some? ==> r.value < |s| && s[r.value] == '.' && forall k :: r.value < k < |s| ==> s[k] != '.'
    ensures r.None? ==> forall k :: 0 <= k < |s| ==> s[k] != '.'
  {
    if |s| == 0 then None
    else if s[|s| - 1] == '.' then Some(|s| - 1)
    else LastDot(s[..|s| - 1])
  }

  /** The name without its extension: the one match of `\.[^.]+$`, if any, replaced by nothing. */
  function Stem(name: string): (r: string)
    ensures |r| <= |name| && r == name[..|r|]
    ensures r != name ==> ExtensionAt(name, |r|)
    ensures forall p: nat :: ExtensionAt(name, p) ==> r == name[..p]
    ensures (forall k :: 0 <= k < |name| ==> name[k] != '.') ==> r == name
    ensures |name| > 0 && name[|name| - 1] == '.' ==> r == name
  {
    match LastDot(name)
    case Some(p) =>
      if p + 1 < |name| then
        assert ExtensionAt(name, p);
        assert forall q: nat :: ExtensionAt(name, q) ==> q == p by {
          forall q: nat | ExtensionAt(name, q) ensures q == p {
            ExtensionUnique(name, p, q);
          }
        }
        name[..p]
      else
        assert forall q: nat :: !ExtensionAt(name, q);
        name
    case None =>
      assert forall q: nat :: !ExtensionAt(name, q);
      name
  }

  /** The name a result is saved under, in single and in bulk export alike. */
  function OutputName(name: string): string
  {
    OutputPrefix + Stem(name) + ".png"
  }

  /** Two different files can share an output name: only the last extension is dropped. */
  lemma OutputNamesCollide()
    ensures OutputName("photo.jpg") == OutputName("photo.webp") == "unwatermarked_photo.png"
  {
    assert ExtensionAt("photo.jpg", 5);
    assert ExtensionAt("photo.webp", 5);
  }

  /** Only the last extension goes; a leading-dot name loses everything; a trailing dot stays. */
  lemma StemExamples()
    ensures Stem("archive.tar.gz") == "archive.tar"
    ensures Stem(".png") == ""
    ensures Stem("scan.") == "scan."
    ensures Stem("scan") == "scan"
  {
    assert ExtensionAt("archive.tar.gz", 11);
    assert ExtensionAt(".png", 0);
  }

  /** The decimal digits of `n`, most significant first, as `String(n)` writes an integer. */
  function Decimal(n: nat): (s: string)
    ensures |s| > 0 && forall k :: 0 <= k < |s| ==> '0' <= s[k] <= '9'
    ensures s[0] == '0' ==> n == 0
  {
    if n < 10 then [(('0' as int) + n) as char]
    else Decimal(n / 10) + [(('0' as int) + n % 10) as char]
  }

  /** The number a string of decimal digits denotes. */
  function DecimalValue(s: string): nat
    requires forall k :: 0 <= k < |s| ==> '0' <= s[k] <= '9'
  {
    if |s| == 0 then 0
    else DecimalValue(s[..|s| - 1]) * 10 + (s[|s| - 1] as int - '0' as int)
  }

  /** Reading the digits back gives the number: distinct times give distinct archive names. */
  lemma {:induction false} DecimalRoundTrip(n: nat)
    ensures DecimalValue(Decimal(n)) == n
  {
    if n >= 10 {
      DecimalRoundTrip(n / 10);
      var s := Decimal(n);
      assert s[..|s| - 1] == Decimal(n / 10);
    }
  }

  /** The archive name, time-stamped with the current time in milliseconds. */
  function ArchiveName(now: nat): string
  {
    OutputPrefix + Decimal(now) + ".zip"
  }

  lemma ArchiveNamesDistinct(t1: nat, t2: nat)
    requires t1 != t2
    ensures ArchiveName(t1) != ArchiveName(t2)
  {
    if ArchiveName(t1) == ArchiveName(t2) {
      var a, b := Decimal(t1), Decimal(t2);
      assert |a| == |b|;
      assert a == ArchiveName(t1)[|OutputPrefix|..|OutputPrefix| + |a|];
      assert b == ArchiveName(t2)[|OutputPrefix|..|OutputPrefix| + |b|];
      DecimalRoundTrip(t1);
      DecimalRoundTrip(t2);
      assert false;
    }
  }

  // ---------------------------------------------------------------------------
  // Single download
  // ---------------------------------------------------------------------------

  /** What a download link carries: a file name and the payload behind its URL. */
  datatype FileDownload = FileDownload(fileName: string, blob: Blob)

  /**
   * The link `downloadImage` clicks for one item. Creating the URL of a
   * missing result throws, and the handler is wired only to items that
   * already hold one. The name and payload are those of the item's entry in
   * bulk export.
   */
  function DownloadImage(item: Item): (d: FileDownload)
    requires item.processedBlob.Some?
    reads item
    ensures d.fileName == EntryFor(item.State()).fileName && d.blob == EntryFor(item.State()).blob
  {
    FileDownload(OutputName(item.name), item.processedBlob.value)
  }

  // ---------------------------------------------------------------------------
  // Bulk download
  // ---------------------------------------------------------------------------

  /** One file of the archive. */
  datatype Entry = Entry(fileName: string, blob: Blob)

  /** The archive handed to the browser: its name and its entries in order. */
  datatype Archive = Archive(archiveName: string, entries: seq<Entry>)

  function IsCompleted(s: ItemState): bool
  {
    s.status == Completed
  }

  /** The items bulk export considers, in queue order. */
  function CompletedStates(states: seq<ItemState>): seq<ItemState>
  {
    Filter(IsCompleted, states)
  }

  /** Every kept item is completed: the filter is the identity on completed items. */
  lemma {:induction false} CompletedStatesAreCompleted(states: seq<ItemState>)
    ensures forall k :: 0 <= k < |CompletedStates(states)| ==> CompletedStates(states)[k].status == Completed
    ensures (forall j :: 0 <= j < |states| ==> WellFormed(states[j])) ==>
              forall k :: 0 <= k < |CompletedStates(states)| ==> CompletedStates(states)[k].processedBlob.Some?
  {
    if |states| > 0 {
      CompletedStatesAreCompleted(states[1..]);
      assert CompletedStates(states)
          == (if IsCompleted(states[0]) then [states[0]] else []) + CompletedStates(states[1..]);
    }
  }

  /** The filter keeps exactly the completed items, as often as they occur, in queue order. */
  lemma CompletedStatesExact(states: seq<ItemState>, s: ItemState) returns (idx: seq<nat>)
    ensures s in CompletedStates(states) <==> s in states && s.status == Completed
    ensures multiset(CompletedStates(states))[s] == if s.status == Completed then multiset(states)[s] else 0
    ensures EmbedsAt(CompletedStates(states), states, idx)
  {
    FilterMembership(IsCompleted, states, s);
    FilterMultiplicity(IsCompleted, states, s);
    idx := FilterEmbedding(IsCompleted, states);
  }

  /** The number of items bulk export considers is the number of completed items. */
  lemma {:induction false} CompletedStatesCount(states: seq<ItemState>)
    ensures |CompletedStates(states)| == CountStatus(states, Completed)
  {
    if |states| > 0 {
      var n := |states| - 1;
      CompletedStatesCount(states[..n]);
      assert states == states[..n] + [states[n]];
      FilterAppend(IsCompleted, states[..n], [states[n]]);
      assert Filter(IsCompleted, [states[n]]) == (if IsCompleted(states[n]) then [states[n]] else []) + Filter(IsCompleted, []);
    }
  }

  /** The entry for one completed item: its derived name and its result. */
  function EntryFor(s: ItemState): Entry
    requires s.processedBlob.Some?
  {
    Entry(OutputName(s.name), s.processedBlob.value)
  }

  /** The entries for a list of completed items, one each, in the same order. */
  function Entries(completed: seq<ItemState>): (r: seq<Entry>)
    requires forall k :: 0 <= k < |completed| ==> completed[k].processedBlob.Some?
    ensures |r| == |completed| && forall k :: 0 <= k < |completed| ==> r[k] == EntryFor(completed[k])
  {
    seq(|completed|, k requires 0 <= k < |completed| => EntryFor(completed[k]))
  }

  /** The bulk-export result for a queue snapshot taken at time `now`. */
  function ArchiveOf(states: seq<ItemState>, now: nat): Option<Archive>
    requires forall j :: 0 <= j < |states| ==> WellFormed(states[j])
  {
    var completed := CompletedStates(states);
    CompletedStatesAreCompleted(states);
    if |completed| == 0 then None
    else Some(Archive(ArchiveName(now), Entries(completed)))
  }

  /**
   * Bulk export: the completed items are collected in one pass; with none,
   * nothing happens; otherwise one entry per completed item is added in
   * queue order.
   */
  method DownloadAll(store: Store, now: nat) returns (archive: Option<Archive>)
    requires store.Valid()
    ensures archive == ArchiveOf(StatesOf(store.imageQueue), now)
  {
    var imageQueue := store.GetImageQueue();
    var states := StatesOf(imageQueue);
    var completed := CompletedStates(states);
    if |completed| == 0 {
      return None;
    }
    CompletedStatesAreCompleted(states);
    var entries: seq<Entry> := [];
    for k := 0 to |completed|
      invariant |entries| == k
      invariant forall l :: 0 <= l < k ==> entries[l] == EntryFor(completed[l])
    {
      var item := completed[k];
      var filename := OutputName(item.name);
      entries := entries + [Entry(filename, item.processedBlob.value)];
    }
    assert entries == Entries(completed);
    archive := Some(Archive(ArchiveName(now), entries));
  }

  /**
   * Bulk export produces nothing exactly when no item is completed, and
   * otherwise one entry per completed item, in queue order, named as single
   * export names it and carrying that item's result.
   */
  lemma ArchiveOfCompleted(states: seq<ItemState>, now: nat)
    requires forall j :: 0 <= j < |states| ==> WellFormed(states[j])
    ensures ArchiveOf(states, now).None? <==> CountStatus(states, Completed) == 0
    ensures ArchiveOf(states, now).Some? ==>
              var a := ArchiveOf(states, now).value;
              && a.archiveName == ArchiveName(now)
              && |a.entries| == CountStatus(states, Completed)
              && forall k :: 0 <= k < |a.entries| ==>
                   a.entries[k].fileName == OutputName(CompletedStates(states)[k].name)
                   && Some(a.entries[k].blob) == CompletedStates(states)[k].processedBlob
  {
    CompletedStatesCount(states);
    CompletedStatesAreCompleted(states);
  }

  /** Export of `[completed, error, completed]` holds the first and third items only. */
  lemma ExportSkipsFailedItem(a: ItemState, b: ItemState, c: ItemState, now: nat)
    requires a.status == Completed && b.status == Error && c.status == Completed
    requires a.processedBlob.Some? && c.processedBlob.Some?
    ensures ArchiveOf([a, b, c], now)
              == Some(Archive(ArchiveName(now), [EntryFor(a), EntryFor(c)]))
  {
    assert [a, b, c][1..] == [b, c] && [b, c][1..] == [c] && [c][1..] == [];
    assert CompletedStates([c]) == [c] + CompletedStates([]);
    assert CompletedStates([b, c]) == CompletedStates([c]);
    assert CompletedStates([a, b, c]) == [a] + CompletedStates([b, c]) == [a, c];
    assert Entries([a, c]) == [EntryFor(a), EntryFor(c)];
  }

  /** Every completed item of a valid queue has its entry in the archive. */
  lemma CompletedItemArchived(states: seq<ItemState>, k: nat, now: nat)
    requires forall j :: 0 <= j < |states| ==> WellFormed(states[j])
    requires k < |states| && states[k].status == Completed
    ensures ArchiveOf(states, now).Some? && EntryFor(states[k]) in ArchiveOf(states, now).value.entries
  {
    var completed := CompletedStates(states);
    FilterMembership(IsCompleted, states, states[k]);
    var l :| 0 <= l < |completed| && completed[l] == states[k];
    CompletedStatesAreCompleted(states);
    var entries := Entries(completed);
    assert ArchiveOf(states, now) == Some(Archive(ArchiveName(now), entries));
    assert entries[l] == EntryFor(states[k]);
  }

  /**
   * Single and bulk export agree: the file a completed item downloads on its
   * own is one of the entries of the archive of its queue.
   */
  lemma CompletedDownloadIsArchived(q: seq<Item>, k: nat, now: nat)
    requires forall j :: 0 <= j < |q| ==> WellFormed(q[j].State())
    requires k < |q| && q[k].status == Completed
    ensures q[k].processedBlob.Some?
    ensures var d := DownloadImage(q[k]);
      ArchiveOf(StatesOf(q), now).Some? && Entry(d.fileName, d.blob) in ArchiveOf(StatesOf(q), now).value.entries
  {
    assert WellFormed(q[k].State());
    CompletedItemArchived(StatesOf(q), k, now);
  }
}
