/**
  The grid planner (components/Planner.tsx): twelve fixed slots that the user
  fills with pictures, reorders by dragging one slot onto another, and
  annotates with captions through a modal that edits a draft.
 */
module Planner {
  import opened Types
  import Text

  /** The number of slots; the grid is never resized. */
  const SlotCount: nat := 12

  /** The caption shown in the live preview when the hovered slot has none. */
  const DefaultHoverCaption: string :=
    "Essential minimalism for your daily life. Discover our new collection designed for modern living. #SimpleLiving #Kanagara"

  /** The context sent to the caption generator when the draft is empty. */
  const DefaultCaptionPrompt: string := "Write an engaging, aesthetic caption for this photo."

  function SlotId(i: nat): string {
    "slot-" + Text.NatToString(i)
  }

  /** Slot identifiers built from distinct positions are distinct. */
  lemma SlotIdsDistinct(i: nat, j: nat)
    ensures SlotId(i) == SlotId(j) ==> i == j
  {
    if SlotId(i) == SlotId(j) {
      assert Text.NatToString(i) == SlotId(i)[5..];
      assert Text.NatToString(j) == SlotId(j)[5..];
      Text.NatToStringInjective(i, j);
    }
  }

  function EmptySlot(i: nat): GridItem {
    GridItem(SlotId(i), None, None, "", None)
  }

  /** The grid the planner starts with: slot i is the empty slot "slot-i". */
  function InitialGrid(): (g: seq<GridItem>)
    ensures |g| == SlotCount
    ensures forall i :: 0 <= i < SlotCount ==> g[i] == EmptySlot(i)
  {
    seq(SlotCount, i requires 0 <= i => EmptySlot(i))
  }

  /** The twelve initial slots carry pairwise distinct identifiers. */
  lemma InitialIdsDistinct(i: nat, j: nat)
    requires i < SlotCount && j < SlotCount && i != j
    ensures InitialGrid()[i].id != InitialGrid()[j].id
  {
    SlotIdsDistinct(i, j);
  }

  // ---------------------------------------------------------------------
  // Grid updates: each replaces slots at an index; none inserts or removes.

  /** The grid after a picture is put into slot i: only its url and file change. */
  function Assigned(g: seq<GridItem>, i: nat, url: string, file: File): (r: seq<GridItem>)
    requires i < |g|
    ensures |r| == |g| && r[i].url == Some(url) && r[i].file == Some(file)
  {
    g[i := g[i].(url := Some(url), file := Some(file))]
  }

  /** The grid after slot i is emptied: url, file and caption are cleared, the id stays. */
  function Cleared(g: seq<GridItem>, i: nat): (r: seq<GridItem>)
    requires i < |g|
    ensures |r| == |g| && r[i].url.None? && r[i].file.None? && r[i].caption == ""
  {
    g[i := g[i].(url := None, file := None, caption := "")]
  }

  /** The grid after slot i's caption is set. */
  function Captioned(g: seq<GridItem>, i: nat, caption: string): (r: seq<GridItem>)
    requires i < |g|
    ensures |r| == |g| && r[i].caption == caption
    ensures r[i].id == g[i].id && r[i].url == g[i].url && r[i].file == g[i].file && r[i].storagePath == g[i].storagePath
    ensures forall k :: 0 <= k < |g| && k != i ==> r[k] == g[k]
  {
    g[i := g[i].(caption := caption)]
  }

  /** The grid after the whole contents of slots i and j are exchanged. */
  function Swapped(g: seq<GridItem>, i: nat, j: nat): (r: seq<GridItem>)
    requires i < |g| && j < |g|
    ensures |r| == |g| && r[i] == g[j] && r[j] == g[i]
    ensures forall k :: 0 <= k < |g| && k != i && k != j ==> r[k] == g[k]
  {
    g[i := g[j]][j := g[i]]
  }

  /** Putting a picture into a slot keeps the other slots and the slot's id and caption. */
  lemma AssignedKeepsRest(g: seq<GridItem>, i: nat, url: string, file: File)
    requires i < |g|
    ensures |Assigned(g, i, url, file)| == |g|
    ensures Assigned(g, i, url, file)[i].id == g[i].id
    ensures Assigned(g, i, url, file)[i].caption == g[i].caption
    ensures Assigned(g, i, url, file)[i].storagePath == g[i].storagePath
    ensures Assigned(g, i, url, file)[i].url == Some(url) && Assigned(g, i, url, file)[i].file == Some(file)
    ensures forall k :: 0 <= k < |g| && k != i ==> Assigned(g, i, url, file)[k] == g[k]
  {
  }

  /** Emptying a slot keeps its id and every other slot. */
  lemma ClearedKeepsRest(g: seq<GridItem>, i: nat)
    requires i < |g|
    ensures |Cleared(g, i)| == |g|
    ensures Cleared(g, i)[i].id == g[i].id
    ensures Cleared(g, i)[i].url.None? && Cleared(g, i)[i].file.None? && Cleared(g, i)[i].caption == ""
    ensures forall k :: 0 <= k < |g| && k != i ==> Cleared(g, i)[k] == g[k]
  {
  }

  /** A swap moves slot contents without creating or losing any. */
  lemma SwappedIsPermutation(g: seq<GridItem>, i: nat, j: nat)
    requires i < |g| && j < |g|
    ensures |Swapped(g, i, j)| == |g|
    ensures multiset(Swapped(g, i, j)) == multiset(g)
  {
    if i != j {
      var h := g[i := g[j]];
      assert multiset(h) == multiset(g) - multiset{g[i]} + multiset{g[j]};
      assert multiset(h[j := g[i]]) == multiset(h) - multiset{h[j]} + multiset{g[i]};
    }
  }

  /** Dragging slot i onto slot j and back restores the grid. */
  lemma SwapSelfInverse(g: seq<GridItem>, i: nat, j: nat)
    requires i < |g| && j < |g|
    ensures Swapped(Swapped(g, i, j), i, j) == g
  {
  }

  /** The swap is symmetric: dragging i onto j equals dragging j onto i. */
  lemma SwapSymmetric(g: seq<GridItem>, i: nat, j: nat)
    requires i < |g| && j < |g|
    ensures Swapped(g, i, j) == Swapped(g, j, i)
  {
  }

  // ---------------------------------------------------------------------
  // The live preview

  /** `grid.find(item => item.url === url)`: the position of the first slot showing url. */
  function FirstWithUrl(g: seq<GridItem>, url: string, from: nat): (r: Option<nat>)
    requires from <= |g|
    ensures r.Some? ==> from <= r.value < |g| && g[r.value].url == Some(url)
    ensures r.Some? ==> forall k :: from <= k < r.value ==> g[k].url != Some(url)
    ensures r.None? ==> forall k :: from <= k < |g| ==> g[k].url != Some(url)
    decreases |g| - from
  {
    if from == |g| then None
    else if g[from].url == Some(url) then Some(from)
    else FirstWithUrl(g, url, from + 1)
  }

  /** The caption shown in the preview for the hovered picture: the caption of the first slot showing it, or the stock caption. */
  function HoverCaption(g: seq<GridItem>, hovered: Option<string>): (r: string)
    ensures r != ""
    ensures !Truthy(hovered) ==> r == DefaultHoverCaption
    ensures Truthy(hovered) && (forall k :: 0 <= k < |g| ==> g[k].url != hovered) ==> r == DefaultHoverCaption
    ensures Truthy(hovered) && FirstWithUrl(g, hovered.value, 0).Some? ==>
      var k := FirstWithUrl(g, hovered.value, 0).value;
      && g[k].url == hovered
      && (forall m :: 0 <= m < k ==> g[m].url != hovered)
      && r == (if g[k].caption != "" then g[k].caption else DefaultHoverCaption)
  {
    if !Truthy(hovered) then DefaultHoverCaption
    else match FirstWithUrl(g, hovered.value, 0)
      case None => DefaultHoverCaption
      case Some(k) => if g[k].caption != "" then g[k].caption else DefaultHoverCaption
  }

  /** The slot whose caption is being edited, as captured when the modal opened. */
  datatype Editing = Editing(index: nat, item: GridItem)

  /** What the caption generator is asked for. */
  datatype CaptionRequest = CaptionRequest(file: File, context: string, platform: Platform, language: Language)

  class GridPlanner {
    const items: array<GridItem>
    const language: Language
    var draggedIndex: Option<nat>
    var isDraggingFile: bool
    var hoveredUrl: Option<string>
    var editing: Option<Editing>
    var captionText: string
    var isGeneratingCaption: bool
    /** The slot a click on an empty tile is going to fill once the file dialog returns. */
    var activeSlot: Option<nat>

    ghost predicate Valid()
      reads this
    {
      && items.Length == SlotCount
      && (draggedIndex.Some? ==> draggedIndex.value < SlotCount)
      && (editing.Some? ==> editing.value.index < SlotCount)
      && (activeSlot.Some? ==> activeSlot.value < SlotCount)
    }

    constructor (language: Language)
      ensures Valid() && fresh(items)
      ensures items[..] == InitialGrid()
      ensures this.language == language
      ensures draggedIndex.None? && !isDraggingFile && hoveredUrl.None?
      ensures editing.None? && captionText == "" && !isGeneratingCaption && activeSlot.None?
    {
      items := new GridItem[SlotCount](i requires 0 <= i => EmptySlot(i));
      this.language := language;
      draggedIndex, isDraggingFile, hoveredUrl := None, false, None;
      editing, captionText, isGeneratingCaption, activeSlot := None, "", false, None;
    }

    /** handleFileUpload: slot index shows the new object URL of file. */
    method HandleFileUpload(file: File, url: string, index: nat)
      requires Valid() && index < SlotCount
      modifies items
      ensures Valid()
      ensures items[..] == Assigned(old(items[..]), index, url, file)
    {
      items[index] := items[index].(url := Some(url), file := Some(file));
    }

    /** A click on an empty slot remembers the slot and opens the file dialog. */
    method TriggerFileInput(index: nat)
      requires Valid() && index < SlotCount
      modifies this`activeSlot
      ensures Valid() && activeSlot == Some(index)
    {
      activeSlot := Some(index);
    }

    /** handleFileSelect: the first chosen file goes into the remembered slot, if any. */
    method HandleFileSelect(files: seq<File>, url: string)
      requires Valid()
      modifies items
      ensures Valid()
      ensures items[..] == if files != [] && activeSlot.Some?
                           then Assigned(old(items[..]), activeSlot.value, url, files[0])
                           else old(items[..])
    {
      if files != [] && activeSlot.Some? {
        HandleFileUpload(files[0], url, activeSlot.value);
      }
    }

    /** A click on a slot: a filled slot opens the caption modal, an empty one the file dialog. */
    method ClickSlot(index: nat)
      requires Valid() && index < SlotCount
      modifies this`editing, this`captionText, this`activeSlot
      ensures Valid()
      ensures Truthy(items[index].url) ==>
        editing == Some(Editing(index, items[index])) && captionText == items[index].caption && activeSlot == old(activeSlot)
      ensures !Truthy(items[index].url) ==>
        activeSlot == Some(index) && editing == old(editing) && captionText == old(captionText)
    {
      if Truthy(items[index].url) {
        OpenCaptionModal(index);
      } else {
        TriggerFileInput(index);
      }
    }

    /** removeItem: slot index is emptied; the preview forgets the picture if it was showing it. */
    method RemoveItem(index: nat)
      requires Valid() && index < SlotCount
      modifies items, this`hoveredUrl
      ensures Valid()
      ensures items[..] == Cleared(old(items[..]), index)
      ensures hoveredUrl == if old(hoveredUrl) == old(items[index].url) then None else old(hoveredUrl)
    {
      var wasShowing := hoveredUrl == items[index].url;
      items[index] := items[index].(url := None, file := None, caption := "");
      if wasShowing {
        hoveredUrl := None;
      }
    }

    /** handleDragStart: remember the slot being dragged. */
    method DragStart(index: nat)
      requires Valid() && index < SlotCount
      modifies this`draggedIndex
      ensures Valid() && draggedIndex == Some(index)
    {
      draggedIndex := Some(index);
    }

    /**
      handleDrop on slot target. Dropped OS files win: the first one fills the
      target and the file-drag flag drops, while draggedIndex is left as it
      was. Otherwise a slot dragged from elsewhere is swapped with the target,
      and draggedIndex is reset.
     */
    method Drop(target: nat, files: seq<File>, url: string)
      requires Valid() && target < SlotCount
      modifies items, this`isDraggingFile, this`draggedIndex
      ensures Valid()
      ensures files != [] ==>
        && items[..] == Assigned(old(items[..]), target, url, files[0])
        && !isDraggingFile
        && draggedIndex == old(draggedIndex)
      ensures files == [] ==>
        && items[..] == (if old(draggedIndex).Some? && old(draggedIndex).value != target
                         then Swapped(old(items[..]), old(draggedIndex).value, target)
                         else old(items[..]))
        && isDraggingFile == old(isDraggingFile)
        && draggedIndex.None?
    {
      if files != [] {
        HandleFileUpload(files[0], url, target);
        isDraggingFile := false;
        return;
      }
      if draggedIndex.Some? && draggedIndex.value != target {
        var from := draggedIndex.value;
        items[from], items[target] := items[target], items[from];
      }
      draggedIndex := None;
    }

    /** The container's own drop handler, which runs after a slot's: the file-drag flag drops. */
    method ContainerDrop()
      modifies this`isDraggingFile
      ensures !isDraggingFile
    {
      isDraggingFile := false;
    }

    /** handleContainerDragEnter: a drag carrying files raises the file-drag flag. */
    method ContainerDragEnter(types: seq<string>)
      modifies this`isDraggingFile
      ensures isDraggingFile == if "Files" in types then true else old(isDraggingFile)
    {
      if "Files" in types {
        isDraggingFile := true;
      }
    }

    /** handleContainerDragLeave: leaving for an element outside the container lowers the flag. */
    method ContainerDragLeave(stillInside: bool)
      modifies this`isDraggingFile
      ensures isDraggingFile == if stillInside then old(isDraggingFile) else false
    {
      if stillInside {
        return;
      }
      isDraggingFile := false;
    }

    /** Pointer enters slot index: a slot with a picture becomes the preview. */
    method MouseEnter(index: nat)
      requires Valid() && index < SlotCount
      modifies this`hoveredUrl
      ensures hoveredUrl == if Truthy(items[index].url) then items[index].url else old(hoveredUrl)
    {
      if Truthy(items[index].url) {
        hoveredUrl := items[index].url;
      }
    }

    method MouseLeave()
      modifies this`hoveredUrl
      ensures hoveredUrl.None?
    {
      hoveredUrl := None;
    }

    /** The caption the live preview shows. */
    function CurrentHoverCaption(): (r: string)
      reads this, items
      ensures r != ""
      ensures hoveredUrl.None? ==> r == DefaultHoverCaption
    {
      HoverCaption(items[..], hoveredUrl)
    }

    /** openCaptionModal: the slot (as it is now) is captured and its caption copied into the draft. */
    method OpenCaptionModal(index: nat)
      requires Valid() && index < SlotCount
      modifies this`editing, this`captionText
      ensures Valid()
      ensures editing == Some(Editing(index, items[index]))
      ensures captionText == items[index].caption
    {
      editing := Some(Editing(index, items[index]));
      captionText := items[index].caption;
    }

    /** The draft follows the text field. */
    method EditDraft(text: string)
      modifies this`captionText
      ensures captionText == text
    {
      captionText := text;
    }

    /** closeCaptionModal: the modal closes and the draft is discarded. */
    method CloseCaptionModal()
      requires Valid()
      modifies this`editing, this`captionText
      ensures Valid() && editing.None? && captionText == ""
    {
      editing := None;
      captionText := "";
    }

    /** handleSaveCaption: the draft becomes the caption of the edited slot only, and the modal closes; with no modal open nothing happens. */
    method SaveCaption()
      requires Valid()
      modifies items, this`editing, this`captionText
      ensures Valid()
      ensures old(editing).Some? ==>
        && items[..] == Captioned(old(items[..]), old(editing).value.index, old(captionText))
        && editing.None? && captionText == ""
      ensures old(editing).None? ==>
        items[..] == old(items[..]) && editing == old(editing) && captionText == old(captionText)
    {
      if editing.Some? {
        var i := editing.value.index;
        items[i] := items[i].(caption := captionText);
        CloseCaptionModal();
      }
    }

    /**
      First half of handleGenerateCaption: without an edited slot that had a
      file when the modal opened nothing happens; otherwise the generator is
      asked with the draft as context, or with the stock prompt when the
      draft is empty. The button is disabled while a request is pending.
     */
    method StartGenerateCaption() returns (request: Option<CaptionRequest>)
      requires !isGeneratingCaption
      modifies this`isGeneratingCaption
      ensures request.None? <==> editing.None? || editing.value.item.file.None?
      ensures request.Some? ==>
        && request.value.file == editing.value.item.file.value
        && request.value.context == (if captionText != "" then captionText else DefaultCaptionPrompt)
        && request.value.platform == Instagram
        && request.value.language == language
        && isGeneratingCaption
      ensures request.None? ==> !isGeneratingCaption
    {
      if editing.None? || editing.value.item.file.None? {
        return None;
      }
      isGeneratingCaption := true;
      var context := if captionText != "" then captionText else DefaultCaptionPrompt;
      request := Some(CaptionRequest(editing.value.item.file.value, context, Instagram, language));
    }

    /** Second half: a generated caption replaces the draft only (never the grid); a failure keeps the draft. */
    method FinishGenerateCaption(result: Result<GeneratedContent, string>)
      modifies this`captionText, this`isGeneratingCaption
      ensures captionText == if result.Ok? then result.value.caption else old(captionText)
      ensures !isGeneratingCaption
    {
      if result.Ok? {
        captionText := result.value.caption;
      }
      isGeneratingCaption := false;
    }
  }

  /** Two drags between the same slots, each with no files, restore the grid and leave no drag pending. */
  method DoubleSwapRestores(p: GridPlanner, i: nat, j: nat)
    requires p.Valid() && i < SlotCount && j < SlotCount
    modifies p.items, p
    ensures p.items[..] == old(p.items[..])
    ensures p.draggedIndex.None?
  {
    p.DragStart(i);
    p.Drop(j, [], "");
    p.DragStart(i);
    p.Drop(j, [], "");
    if i != j {
      SwapSelfInverse(old(p.items[..]), i, j);
    }
  }
}
