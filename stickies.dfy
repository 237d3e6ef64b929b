/** The stickies board (app/stickies/page.tsx): the note list held by the
    page, the stacking order, the per-note edits of dragging, resizing and
    typing, the debounced saves and the body of a new sticky. */
module Stickies {
  import opened Common
  import opened Sorting
  import opened NotesApi

  /** `n.zIndex || 1`: a zero stacking index counts as 1. */
  function EffZ(n: Note): (z: int)
    ensures n.zIndex != 0 ==> z == n.zIndex
    ensures n.zIndex == 0 ==> z == 1
  {
    if n.zIndex == 0 then 1 else n.zIndex
  }

  /** `notes.reduce((m, n) => Math.max(m, n.zIndex || 1), 1)`: at least 1, at
      least every note's index, and either 1 or the index of some note. */
  function MaxZ(notes: seq<Note>): (m: int)
    ensures m >= 1
    ensures forall i :: 0 <= i < |notes| ==> EffZ(notes[i]) <= m
    ensures m == 1 || exists i :: 0 <= i < |notes| && EffZ(notes[i]) == m
  {
    if notes == [] then 1
    else
      var init := notes[..|notes| - 1];
      var m0 := MaxZ(init);
      assert forall i :: 0 <= i < |init| ==> init[i] == notes[i];
      Max(m0, EffZ(notes[|notes| - 1]))
  }

  /** The comparison of `load`'s sort: ascending effective index. */
  predicate LowerOrEqualZ(a: Note, b: Note) {
    EffZ(a) <= EffZ(b)
  }

  /** `load`'s ordering of the fetched list. */
  function StackOrder(fetched: seq<Note>): seq<Note> {
    InsertionSort(fetched, LowerOrEqualZ)
  }

  /** The fields a save may carry (`Partial<Note>`); `None` is an absent key. */
  datatype Patch = Patch(
    title: Option<string>,
    content: Option<string>,
    color: Option<string>,
    x: Option<int>,
    y: Option<int>,
    width: Option<int>,
    height: Option<int>,
    zIndex: Option<int>)

  const NoFields := Patch(None, None, None, None, None, None, None, None)

  /** `{ ...n, ...patch }`. */
  function Apply(n: Note, p: Patch): Note {
    n.(title := p.title.GetOr(n.title),
       content := p.content.GetOr(n.content),
       color := p.color.GetOr(n.color),
       x := p.x.GetOr(n.x),
       y := p.y.GetOr(n.y),
       width := p.width.GetOr(n.width),
       height := p.height.GetOr(n.height),
       zIndex := p.zIndex.GetOr(n.zIndex))
  }

  /** `curr.map(x => x.id === id ? { ...x, ...patch } : x)`. */
  function PatchWhere(notes: seq<Note>, id: nat, p: Patch): (r: seq<Note>)
    ensures |r| == |notes|
  {
    seq(|notes|, i requires 0 <= i < |notes| => if notes[i].id == id then Apply(notes[i], p) else notes[i])
  }

  function ZPatch(z: int): Patch { NoFields.(zIndex := Some(z)) }

  function MovePatch(x: int, y: int): Patch { NoFields.(x := Some(x), y := Some(y)) }

  function ResizePatch(x: int, y: int, w: int, h: int): Patch {
    NoFields.(x := Some(x), y := Some(y), width := Some(w), height := Some(h))
  }

  /** `bringToFront`'s new index. */
  function FrontZ(notes: seq<Note>): int {
    MaxZ(notes) + 1
  }

  /** The list after `bringToFront` of the note with that id. */
  function Raise(notes: seq<Note>, id: nat): seq<Note> {
    PatchWhere(notes, id, ZPatch(FrontZ(notes)))
  }

  /** The body `createNote` posts; `rx` and `ry` are the rounded random
      offsets, `Math.round(Math.random() * 60)` and `* 40`. */
  function NewStickyBody(notes: seq<Note>, rx: nat, ry: nat): Body
    requires rx <= 60 && ry <= 40
  {
    map["title" := Str("Sticky"), "content" := Str(""), "color" := Str("#FFF6A5"),
        "x" := Num(60 + rx), "y" := Num(60 + ry), "width" := Num(260), "height" := Num(180),
        "zIndex" := Num(MaxZ(notes) + 1)]
  }

  // ----- properties -----

  /** A patch changes exactly the notes with the given id, and of those only
      the fields it carries; length and order are kept. */
  lemma PatchOnlyTarget(notes: seq<Note>, id: nat, p: Patch)
    ensures var r := PatchWhere(notes, id, p);
      && |r| == |notes|
      && (forall i :: 0 <= i < |notes| && notes[i].id != id ==> r[i] == notes[i])
      && (forall i :: 0 <= i < |notes| && notes[i].id == id ==> r[i] == Apply(notes[i], p))
      && (forall i :: 0 <= i < |notes| ==> r[i].id == notes[i].id)
  {
    var r := PatchWhere(notes, id, p);
    forall i | 0 <= i < |notes| ensures r[i] == if notes[i].id == id then Apply(notes[i], p) else notes[i] {
    }
  }

  /** Applying a patch keeps every field it does not carry, and sets every
      field it does. */
  lemma ApplyFieldwise(n: Note, p: Patch)
    ensures var m := Apply(n, p);
      && m.id == n.id && m.isPinned == n.isPinned && m.taskId == n.taskId && m.subtaskId == n.subtaskId
      && m.createdAt == n.createdAt && m.updatedAt == n.updatedAt
      && (p.title.Some? ==> m.title == p.title.value) && (p.title.None? ==> m.title == n.title)
      && (p.content.Some? ==> m.content == p.content.value) && (p.content.None? ==> m.content == n.content)
      && (p.color.Some? ==> m.color == p.color.value) && (p.color.None? ==> m.color == n.color)
      && (p.x.Some? ==> m.x == p.x.value) && (p.x.None? ==> m.x == n.x)
      && (p.y.Some? ==> m.y == p.y.value) && (p.y.None? ==> m.y == n.y)
      && (p.width.Some? ==> m.width == p.width.value) && (p.width.None? ==> m.width == n.width)
      && (p.height.Some? ==> m.height == p.height.value) && (p.height.None? ==> m.height == n.height)
      && (p.zIndex.Some? ==> m.zIndex == p.zIndex.value) && (p.zIndex.None? ==> m.zIndex == n.zIndex)
  {
  }

  /** Drag-stop moves only the dragged note and only its position;
      resize-stop changes only its position and size. */
  lemma DragAndResizeTouchOnlyGeometry(n: Note, x: int, y: int, w: int, h: int)
    ensures Apply(n, MovePatch(x, y)) == n.(x := x, y := y)
    ensures Apply(n, ResizePatch(x, y, w, h)) == n.(x := x, y := y, width := w, height := h)
  {
  }

  /** After `bringToFront(id)` the note with that id lies strictly above every
      other note, and nothing but its stacking index has changed. */
  lemma {:induction false} BringToFrontOnTop(notes: seq<Note>, id: nat)
    ensures var r := Raise(notes, id);
      && |r| == |notes|
      && (forall i, j :: 0 <= i < |r| && 0 <= j < |r| && r[i].id == id && r[j].id != id ==> EffZ(r[j]) < r[i].zIndex)
      && (forall i :: 0 <= i < |r| && notes[i].id == id ==> r[i] == notes[i].(zIndex := FrontZ(notes)))
      && (forall i :: 0 <= i < |r| && notes[i].id != id ==> r[i] == notes[i])
  {
    var r := Raise(notes, id);
    PatchOnlyTarget(notes, id, ZPatch(FrontZ(notes)));
    forall i, j | 0 <= i < |r| && 0 <= j < |r| && r[i].id == id && r[j].id != id
      ensures EffZ(r[j]) < r[i].zIndex
    {
      assert r[j] == notes[j];
      assert EffZ(notes[j]) <= MaxZ(notes);
    }
  }

  /** `load` shows a permutation of the fetched notes in ascending effective
      stacking index. */
  lemma StackOrderSorted(fetched: seq<Note>)
    ensures var r := StackOrder(fetched);
      && multiset(r) == multiset(fetched)
      && forall i, j :: 0 <= i < j < |r| ==> EffZ(r[i]) <= EffZ(r[j])
  {
    InsertionSortSorted(fetched, LowerOrEqualZ);
    var r := StackOrder(fetched);
    assert forall i, j :: 0 <= i < j < |r| ==> LowerOrEqualZ(r[i], r[j]);
  }

  /** A new sticky is titled 'Sticky', coloured '#FFF6A5', 260 by 180, placed
      within [60, 120] by [60, 100], unpinned, unlinked, and stacked above
      every note on the board. */
  lemma NewStickyFields(notes: seq<Note>, rx: nat, ry: nat)
    requires rx <= 60 && ry <= 40
    ensures var d := CreateData(Some(NewStickyBody(notes, rx, ry)));
      && d.Some?
      && d.value.title == "Sticky" && d.value.content == "" && d.value.color == "#FFF6A5"
      && d.value.width == 260 && d.value.height == 180
      && 60 <= d.value.x <= 120 && 60 <= d.value.y <= 100
      && !d.value.isPinned && d.value.taskId.None? && d.value.subtaskId.None?
      && d.value.zIndex == MaxZ(notes) + 1
      && forall i :: 0 <= i < |notes| ==> EffZ(notes[i]) < d.value.zIndex
  {
    var b := NewStickyBody(notes, rx, ry);
    StickyBodyFields(notes, rx, ry);
    assert CreateData(Some(b)) == Some(NoteData("Sticky", "", "#FFF6A5", false, 60 + rx, 60 + ry, 260, 180, MaxZ(notes) + 1, None, None));
  }

  lemma StickyBodyFields(notes: seq<Note>, rx: nat, ry: nat)
    requires rx <= 60 && ry <= 40
    ensures var b := NewStickyBody(notes, rx, ry);
      && Field(b, "title") == Str("Sticky") && Field(b, "content") == Str("") && Field(b, "color") == Str("#FFF6A5")
      && Field(b, "isPinned") == Null && Field(b, "taskId") == Null && Field(b, "subtaskId") == Null
      && Field(b, "x") == Num(60 + rx) && Field(b, "y") == Num(60 + ry)
      && Field(b, "width") == Num(260) && Field(b, "height") == Num(180) && Field(b, "zIndex") == Num(MaxZ(notes) + 1)
  {
  }

  /** Whether the status line shows 'Saving…', 'Saved' or nothing. */
  datatype SaveStatus = Idle | Saving | Saved

  /** The page: its note list, the save waiting for each note (the per-id
      timer map; a newer save for a note cancels the older one) and the
      status line. */
  class Board {
    var notes: seq<Note>
    var pending: map<nat, Patch>
    var saving: SaveStatus

    constructor ()
      ensures notes == [] && pending == map[] && saving == Idle
    {
      notes, pending, saving := [], map[], Idle;
    }

    /** `load`. */
    method Load(fetched: seq<Note>)
      modifies this
      ensures notes == StackOrder(fetched)
      ensures pending == old(pending) && saving == old(saving)
    {
      notes := StackOrder(fetched);
    }

    /** `debounceSave`: replaces the note's waiting save. */
    method DebounceSave(id: nat, p: Patch)
      modifies this
      ensures pending == old(pending)[id := p] && saving == Saving && notes == old(notes)
    {
      saving := Saving;
      pending := pending[id := p];
    }

    /** The timer of note `id` fires: its waiting save is sent. */
    method FireSave(id: nat) returns (sent: Option<Patch>)
      modifies this
      ensures id in old(pending) ==> sent == Some(old(pending)[id]) && saving == Saved
      ensures id !in old(pending) ==> sent.None? && saving == old(saving)
      ensures pending == old(pending) - {id} && notes == old(notes)
    {
      if id in pending {
        sent := Some(pending[id]);
        pending := pending - {id};
        saving := Saved;
      } else {
        sent := None;
      }
    }

    method BringToFront(id: nat)
      modifies this
      ensures notes == Raise(old(notes), id)
      ensures pending == old(pending)[id := ZPatch(FrontZ(old(notes)))] && saving == Saving
    {
      var next := MaxZ(notes) + 1;
      DebounceSave(id, ZPatch(next));
      notes := PatchWhere(notes, id, ZPatch(next));
    }

    method DragStop(id: nat, x: int, y: int)
      modifies this
      ensures notes == PatchWhere(old(notes), id, MovePatch(x, y))
      ensures pending == old(pending)[id := MovePatch(x, y)] && saving == Saving
    {
      notes := PatchWhere(notes, id, MovePatch(x, y));
      DebounceSave(id, MovePatch(x, y));
    }

    /** `w` and `h` are the rounded sizes read from the resized element. */
    method ResizeStop(id: nat, x: int, y: int, w: int, h: int)
      modifies this
      ensures notes == PatchWhere(old(notes), id, ResizePatch(x, y, w, h))
      ensures pending == old(pending)[id := ResizePatch(x, y, w, h)] && saving == Saving
    {
      notes := PatchWhere(notes, id, ResizePatch(x, y, w, h));
      DebounceSave(id, ResizePatch(x, y, w, h));
    }

    /** A title, colour or content edit of one sticky. */
    method Change(id: nat, p: Patch)
      modifies this
      ensures notes == PatchWhere(old(notes), id, p)
      ensures pending == old(pending)[id := p] && saving == Saving
    {
      notes := PatchWhere(notes, id, p);
      DebounceSave(id, p);
    }
  }
}
