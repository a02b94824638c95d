/**
  Persistence of the planner grid (services/plannerService.ts). The document
  store holds one document per slot under users/<uid>/planner/<slot index>;
  the object store holds uploaded pictures by path. Both are modelled as
  plain collections in a `PlannerStore` object.
 */
module PlannerService {
  import opened Types
  import Text
  import Planner

  /** A stored planner document; every field may be missing in a document written by someone else. */
  datatype PlannerDoc = PlannerDoc(
    id: Option<string>,
    url: Option<string>,
    caption: Option<string>,
    storagePath: Option<string>,
    updatedAt: nat)

  /** The document users/<userId>/planner/<docId>. */
  datatype DocPath = DocPath(userId: string, docId: string)

  /** The key of slot index's document: `index.toString()`. */
  function SlotDocId(index: nat): string {
    Text.NatToString(index)
  }

  /**
    The object path of an uploaded picture:
    user_uploads/<uid>/<timestamp>_<random>.<ext>, where ext is
    `fileName.split('.').pop()`.
   */
  function UploadPath(userId: string, timestamp: nat, random: string, fileName: string): (r: string)
    ensures "user_uploads/" + userId + "/" <= r
    ensures Text.AfterLast(r, '.') == Text.AfterLast(fileName, '.')
  {
    var folder := "user_uploads/" + userId + "/";
    var ext := Text.AfterLast(fileName, '.');
    var name := Text.NatToString(timestamp) + "_" + random;
    Text.AfterLastOf(folder + name, '.', ext);
    Text.ConcatAssoc(folder, name, "." + ext);
    folder + (name + ("." + ext))
  }

  /** The extension is what follows the last '.' of the name, or the whole name when it has no '.'. */
  lemma UploadExtension(fileName: string)
    ensures var ext := Text.AfterLast(fileName, '.');
      && '.' !in ext
      && ('.' in fileName ==> |ext| < |fileName| && fileName == fileName[..|fileName| - |ext| - 1] + "." + ext)
      && ('.' !in fileName ==> ext == fileName)
  {
    var ext := Text.AfterLast(fileName, '.');
    if '.' in fileName {
      assert fileName == fileName[..|fileName| - |ext| - 1] + "." + ext;
    }
  }

  /** The data written for a slot: id, url, caption (default '') and storage path (default null); never the file. */
  function SaveData(item: GridItem, now: nat): (r: PlannerDoc)
    ensures r.id == Some(item.id) && r.caption == Some(item.caption) && r.updatedAt == now
    ensures Truthy(r.storagePath) <==> Truthy(item.storagePath)
    ensures r.storagePath.Some? ==> r.storagePath == item.storagePath
  {
    PlannerDoc(Some(item.id), item.url, Some(item.caption),
               if Truthy(item.storagePath) then item.storagePath else None, now)
  }

  /** The slot a document fills: its id read by parseInt, kept only when it lies in 0..11. */
  function SlotIndex(docId: string): (r: Option<nat>)
    ensures r.Some? ==> r.value < Planner.SlotCount && Text.ParseInt(docId) == Some(r.value as int)
    ensures r.None? ==> match Text.ParseInt(docId)
                         case None => true
                         case Some(n) => n < 0 || n >= Planner.SlotCount as int
  {
    match Text.ParseInt(docId)
    case None => None
    case Some(n) => if 0 <= n < Planner.SlotCount as int then Some(n as nat) else None
  }

  /** The key of every slot's document leads back to that slot. */
  lemma SlotIndexOfDocId(i: nat)
    requires i < Planner.SlotCount
    ensures SlotIndex(SlotDocId(i)) == Some(i)
  {
    Text.ParseIntOfNatToString(i);
  }

  /** A slot rebuilt from its document: the id falls back to "slot-i", the file is never restored. */
  function LoadedItem(i: nat, d: PlannerDoc): (r: GridItem)
    ensures r.file.None?
    ensures r.id == if Truthy(d.id) then d.id.value else Planner.SlotId(i)
    ensures r.url == d.url && r.storagePath == d.storagePath
  {
    GridItem(if Truthy(d.id) then d.id.value else Planner.SlotId(i), d.url, None, d.caption.GetOr(""), d.storagePath)
  }

  /** The slot each listed document names, if any. */
  function Targets(snapshot: seq<(string, PlannerDoc)>): (r: seq<Option<nat>>)
    ensures |r| == |snapshot|
    ensures forall k :: 0 <= k < |r| ==> r[k] == SlotIndex(snapshot[k].0)
  {
    seq(|snapshot|, k requires 0 <= k < |snapshot| => SlotIndex(snapshot[k].0))
  }

  /** The position of the last target equal to Some(i): the document the fetch leaves in slot i. */
  function LastFor(targets: seq<Option<nat>>, i: nat): (r: Option<nat>)
    ensures r.Some? ==> r.value < |targets|
  {
    if targets == [] then None
    else if targets[|targets| - 1] == Some(i) then Some(|targets| - 1)
    else LastFor(targets[..|targets| - 1], i)
  }

  /** LastFor finds the last position naming slot i, and finds none only when no position names it. */
  lemma {:induction false} LastForIsLast(targets: seq<Option<nat>>, i: nat)
    ensures LastFor(targets, i).None? ==> forall k :: 0 <= k < |targets| ==> targets[k] != Some(i)
    ensures LastFor(targets, i).Some? ==>
      var k := LastFor(targets, i).value;
      targets[k] == Some(i) && forall m :: k < m < |targets| ==> targets[m] != Some(i)
  {
    if targets != [] && targets[|targets| - 1] != Some(i) {
      LastForIsLast(targets[..|targets| - 1], i);
    }
  }

  /** The slot i of the fetched grid, from the listed documents. */
  function LoadedSlot(snapshot: seq<(string, PlannerDoc)>, i: nat): (r: GridItem)
    ensures r.file.None?
  {
    match LastFor(Targets(snapshot), i)
    case None => Planner.EmptySlot(i)
    case Some(k) => LoadedItem(i, snapshot[k].1)
  }

  /**
    fetchPlannerGrid over the listed documents (id and data, in listing
    order): always twelve slots; each slot holds the last document naming
    it, or the empty slot when none does.
   */
  /** One listed document applied to slots that hold the fetch of the documents before it. */
  /** The twelve slots fetched from the listed documents. */
  ghost function Fetched(snapshot: seq<(string, PlannerDoc)>): (g: seq<GridItem>)
    ensures |g| == Planner.SlotCount
    ensures forall i :: 0 <= i < Planner.SlotCount ==> g[i] == LoadedSlot(snapshot, i)
  {
    seq(Planner.SlotCount, i requires 0 <= i => LoadedSlot(snapshot, i))
  }

  /** One listed document applied to the slots fetched from the documents before it. */
  lemma FetchStep(snapshot: seq<(string, PlannerDoc)>, k: nat, after: seq<GridItem>)
    requires k < |snapshot|
    requires after == match SlotIndex(snapshot[k].0)
                      case Some(j) => Fetched(snapshot[..k])[j := LoadedItem(j, snapshot[k].1)]
                      case None => Fetched(snapshot[..k])
    ensures after == Fetched(snapshot[..k + 1])
  {
    forall i | 0 <= i < Planner.SlotCount
      ensures after[i] == LoadedSlot(snapshot[..k + 1], i)
    {
      LoadedSlotStep(snapshot, k, i);
    }
  }

  /** The body of fetchPlannerGrid's loop: a document whose id parses to a slot index replaces that slot. */
  method PlaceDocument(slots: array<GridItem>, docId: string, data: PlannerDoc)
    requires slots.Length == Planner.SlotCount
    modifies slots
    ensures slots[..] == match SlotIndex(docId)
                         case Some(j) => old(slots[..])[j := LoadedItem(j, data)]
                         case None => old(slots[..])
  {
    var index := Text.ParseInt(docId);
    if index.Some? && index.value >= 0 && index.value < Planner.SlotCount as int {
      slots[index.value] := LoadedItem(index.value, data);
    }
  }

  method FetchPlannerGrid(snapshot: seq<(string, PlannerDoc)>) returns (grid: seq<GridItem>)
    ensures |grid| == Planner.SlotCount
    ensures forall i :: 0 <= i < Planner.SlotCount ==> grid[i] == LoadedSlot(snapshot, i)
  {
    var slots := new GridItem[Planner.SlotCount](i requires 0 <= i => Planner.EmptySlot(i));
    var k := 0;
    assert slots[..] == Fetched(snapshot[..k]);
    while k < |snapshot|
      invariant 0 <= k <= |snapshot|
      invariant slots[..] == Fetched(snapshot[..k])
    {
      var (docId, data) := snapshot[k];
      PlaceDocument(slots, docId, data);
      FetchStep(snapshot, k, slots[..]);
      k := k + 1;
    }
    assert snapshot[..k] == snapshot;
    grid := slots[..];
  }

  lemma LoadedSlotStep(snapshot: seq<(string, PlannerDoc)>, k: nat, i: nat)
    requires k < |snapshot|
    ensures LoadedSlot(snapshot[..k + 1], i) ==
      if SlotIndex(snapshot[k].0) == Some(i) then LoadedItem(i, snapshot[k].1) else LoadedSlot(snapshot[..k], i)
  {
    var t := Targets(snapshot[..k + 1]);
    assert t[..k] == Targets(snapshot[..k]);
    assert t[k] == SlotIndex(snapshot[k].0);
  }

  /** What a save-then-fetch round trip gives back for a slot. */
  function Reloaded(item: GridItem, i: nat): GridItem {
    item.(id := if item.id != "" then item.id else Planner.SlotId(i),
          file := None,
          storagePath := if Truthy(item.storagePath) then item.storagePath else None)
  }

  /**
    A listing of the user's planner collection in docs: each listed document
    is stored under that user and id, every document of the user is listed,
    and no id is listed twice. The order is free.
   */
  ghost predicate ListsCollection(docs: map<DocPath, PlannerDoc>, userId: string, listing: seq<(string, PlannerDoc)>) {
    && (forall k :: 0 <= k < |listing| ==>
          DocPath(userId, listing[k].0) in docs && docs[DocPath(userId, listing[k].0)] == listing[k].1)
    && (forall p :: p in docs && p.userId == userId ==> exists k :: 0 <= k < |listing| && listing[k].0 == p.docId)
    && (forall k, m :: 0 <= k < m < |listing| ==> listing[k].0 != listing[m].0)
  }

  /** Every document of the user has a key `SaveGridItem` writes: the decimal rendering of a slot index. */
  ghost predicate OnlySlotDocs(docs: map<DocPath, PlannerDoc>, userId: string) {
    forall p :: p in docs && p.userId == userId ==> exists j: nat :: p.docId == SlotDocId(j)
  }

  /** Slot i's document holds what `SaveGridItem` writes for item, at whatever time it was written. */
  ghost predicate SavedSlot(docs: map<DocPath, PlannerDoc>, userId: string, i: nat, item: GridItem) {
    var p := DocPath(userId, SlotDocId(i));
    p in docs && docs[p] == SaveData(item, docs[p].updatedAt)
  }

  /** Saving keeps the user's collection made of slot documents. */
  lemma SaveKeepsSlotDocs(docs: map<DocPath, PlannerDoc>, userId: string, owner: string, index: nat, d: PlannerDoc)
    requires OnlySlotDocs(docs, userId)
    ensures OnlySlotDocs(docs[DocPath(owner, SlotDocId(index)) := d], userId)
  {
    var docs' := docs[DocPath(owner, SlotDocId(index)) := d];
    forall p | p in docs' && p.userId == userId
      ensures exists j: nat :: p.docId == SlotDocId(j)
    {
      if p !in docs {
        assert p.docId == SlotDocId(index);
      }
    }
  }

  /** Saving slot index records item there and leaves what the other slots record. */
  lemma SaveWritesSlot(docs: map<DocPath, PlannerDoc>, userId: string, index: nat, item: GridItem, now: nat, j: nat, other: GridItem)
    ensures SavedSlot(docs[DocPath(userId, SlotDocId(index)) := SaveData(item, now)], userId, index, item)
    ensures j != index ==>
      (SavedSlot(docs[DocPath(userId, SlotDocId(index)) := SaveData(item, now)], userId, j, other)
       <==> SavedSlot(docs, userId, j, other))
  {
    if j != index {
      Text.NatToStringInjective(j, index);
    }
  }

  /** A document key written by `SaveGridItem` leads to slot i only when it is slot i's key. */
  lemma SlotIndexOfAnyDocId(j: nat, i: nat)
    requires SlotIndex(SlotDocId(j)) == Some(i)
    ensures j == i
  {
    Text.ParseIntOfNatToString(j);
  }

  /** A stored document read back for slot i: the slot as saved, with the file dropped. */
  lemma LoadedSaveData(item: GridItem, now: nat, i: nat)
    ensures LoadedItem(i, SaveData(item, now)) == Reloaded(item, i)
  {
  }

  /**
    Saving all twelve slots and fetching the collection back restores each
    slot, with the file dropped, an empty id replaced by "slot-i" and an
    empty storage path read as none, whatever order the collection is
    listed in, provided the collection holds only slot documents.
   */
  lemma SaveThenFetch(docs: map<DocPath, PlannerDoc>, userId: string, grid: seq<GridItem>,
                      listing: seq<(string, PlannerDoc)>, i: nat)
    requires |grid| == Planner.SlotCount && i < Planner.SlotCount
    requires forall j :: 0 <= j < Planner.SlotCount ==> SavedSlot(docs, userId, j, grid[j])
    requires OnlySlotDocs(docs, userId)
    requires ListsCollection(docs, userId, listing)
    ensures LoadedSlot(listing, i) == Reloaded(grid[i], i)
  {
    var p := DocPath(userId, SlotDocId(i));
    assert SavedSlot(docs, userId, i, grid[i]);
    var k :| 0 <= k < |listing| && listing[k].0 == p.docId;
    var t := Targets(listing);
    SlotIndexOfDocId(i);
    assert t[k] == Some(i);
    LastForIsLast(t, i);
    var m := LastFor(t, i).value;
    assert DocPath(userId, listing[m].0) in docs;
    var j: nat :| listing[m].0 == SlotDocId(j);
    SlotIndexOfAnyDocId(j, i);
    assert m == k;
    LoadedSaveData(grid[i], docs[p].updatedAt, i);
  }

  /** The document keys a reset deletes: those of the slots (among the first n) that show a picture. */
  ghost function ResetDocs(userId: string, grid: seq<GridItem>, n: nat): set<DocPath>
    requires n <= |grid|
  {
    set i | 0 <= i < n && Truthy(grid[i].url) :: DocPath(userId, SlotDocId(i))
  }

  /** The objects a reset deletes: the storage paths of the slots (among the first n) that show a picture and have one. */
  ghost function ResetObjects(grid: seq<GridItem>, n: nat): set<string>
    requires n <= |grid|
  {
    set i | 0 <= i < n && Truthy(grid[i].url) && Truthy(grid[i].storagePath) :: grid[i].storagePath.value
  }

  /** One more slot adds its own document and object to the reset, when it shows a picture. */
  lemma ResetStep(userId: string, grid: seq<GridItem>, n: nat)
    requires n < |grid|
    ensures ResetDocs(userId, grid, n + 1) ==
      ResetDocs(userId, grid, n) + (if Truthy(grid[n].url) then {DocPath(userId, SlotDocId(n))} else {})
    ensures ResetObjects(grid, n + 1) ==
      ResetObjects(grid, n) + (if Truthy(grid[n].url) && Truthy(grid[n].storagePath) then {grid[n].storagePath.value} else {})
  {
  }

  lemma MinusMoreExcept<T>(s: set<T>, done: set<T>, more: set<T>, kept: set<T>)
    ensures s - (done - kept) - (more - kept) == s - ((done + more) - kept)
    ensures more <= kept ==> s - (done - kept) == s - ((done + more) - kept)
  {
  }

  lemma MapMinusMore<K, V>(m: map<K, V>, done: set<K>, more: set<K>)
    ensures m - done - more == m - (done + more)
  {
  }

  /** A reset deletes slot i's document exactly when slot i shows a picture. */
  lemma ResetDocsExactly(userId: string, grid: seq<GridItem>, i: nat)
    requires i < |grid|
    ensures DocPath(userId, SlotDocId(i)) in ResetDocs(userId, grid, |grid|) <==> Truthy(grid[i].url)
  {
    if DocPath(userId, SlotDocId(i)) in ResetDocs(userId, grid, |grid|) {
      var j :| 0 <= j < |grid| && Truthy(grid[j].url) && DocPath(userId, SlotDocId(j)) == DocPath(userId, SlotDocId(i));
      Text.NatToStringInjective(i, j);
    }
  }

  /** A reset never deletes another user's documents or a document whose key is not a slot index. */
  lemma ResetDocsScope(userId: string, grid: seq<GridItem>, p: DocPath)
    requires p in ResetDocs(userId, grid, |grid|)
    ensures p.userId == userId
    ensures exists i :: 0 <= i < |grid| && p.docId == SlotDocId(i) && Truthy(grid[i].url)
  {
  }

  class PlannerStore {
    var docs: map<DocPath, PlannerDoc>
    var objects: set<string>

    constructor (docs: map<DocPath, PlannerDoc>, objects: set<string>)
      ensures this.docs == docs && this.objects == objects
    {
      this.docs := docs;
      this.objects := objects;
    }

    /** uploadPlannerImage: the picture is stored under its generated path; the download URL is an input. */
    method UploadPlannerImage(userId: string, file: File, timestamp: nat, random: string, downloadUrl: string)
      returns (url: string, storagePath: string)
      modifies this`objects
      ensures storagePath == UploadPath(userId, timestamp, random, file.name)
      ensures objects == old(objects) + {storagePath}
      ensures url == downloadUrl
    {
      storagePath := UploadPath(userId, timestamp, random, file.name);
      objects := objects + {storagePath};
      url := downloadUrl;
    }

    /**
      deletePlannerImage: an empty path does nothing. A failed delete
      (`deleteFails`) is swallowed and leaves the object in place;
      deleting a missing object is not an error.
     */
    method DeletePlannerImage(storagePath: string, deleteFails: bool)
      modifies this`objects
      ensures objects == if storagePath == "" || deleteFails then old(objects) else old(objects) - {storagePath}
    {
      if storagePath == "" {
        return;
      }
      if !deleteFails {
        objects := objects - {storagePath};
      }
    }

    /** saveGridItemToFirestore: the slot's document, keyed by index.toString(), receives the saved fields. */
    method SaveGridItem(userId: string, index: nat, item: GridItem, now: nat)
      modifies this`docs
      ensures docs == old(docs)[DocPath(userId, SlotDocId(index)) := SaveData(item, now)]
    {
      docs := docs[DocPath(userId, SlotDocId(index)) := SaveData(item, now)];
    }

    /** deleteGridItemFromFirestore */
    method DeleteGridItem(userId: string, index: nat)
      modifies this`docs
      ensures docs == old(docs) - {DocPath(userId, SlotDocId(index))}
    {
      docs := docs - {DocPath(userId, SlotDocId(index))};
    }

    /**
      resetPlannerGrid: for every slot showing a picture, its stored picture
      (when it has a storage path) and its document are deleted; slots
      without a picture are left alone.
     */
    method ResetPlannerGrid(userId: string, grid: seq<GridItem>, failing: set<string>)
      modifies this`docs, this`objects
      ensures docs == old(docs) - ResetDocs(userId, grid, |grid|)
      ensures objects == old(objects) - (ResetObjects(grid, |grid|) - failing)
    {
      var index := 0;
      while index < |grid|
        invariant 0 <= index <= |grid|
        invariant docs == old(docs) - ResetDocs(userId, grid, index)
        invariant objects == old(objects) - (ResetObjects(grid, index) - failing)
      {
        var item := grid[index];
        ghost var doneDocs, doneObjects := ResetDocs(userId, grid, index), ResetObjects(grid, index);
        if Truthy(item.url) {
          if Truthy(item.storagePath) {
            DeletePlannerImage(item.storagePath.value, item.storagePath.value in failing);
          }
          DeleteGridItem(userId, index);
        }
        ResetStep(userId, grid, index);
        MapMinusMore(old(docs), doneDocs, if Truthy(item.url) then {DocPath(userId, SlotDocId(index))} else {});
        MinusMoreExcept(old(objects), doneObjects,
                        if Truthy(item.url) && Truthy(item.storagePath) then {item.storagePath.value} else {}, failing);
        index := index + 1;
      }
    }
  }
}
