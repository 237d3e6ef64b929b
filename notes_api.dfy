/** The note table behind `GET` / `POST /api/notes` (app/api/notes/route.ts):
    creation with per-field defaults, and the pinned-first listing. */
module NotesApi {
  import opened Common
  import opened Sorting

  /** One row of the note table; the same record serves the notes editor and
      the stickies board. Timestamps are integers (milliseconds). */
  datatype Note = Note(
    id: nat,
    title: string,
    content: string,
    color: string,
    isPinned: bool,
    x: int,
    y: int,
    width: int,
    height: int,
    zIndex: int,
    taskId: Option<int>,
    subtaskId: Option<int>,
    createdAt: int,
    updatedAt: int)

  /** A parsed JSON object body: field name to value. */
  type Body = map<string, Value>

  /** `body.key`; an absent key reads as `undefined`, which every use here
      treats exactly like `null`. */
  function Field(body: Body, key: string): Value {
    if key in body then body[key] else Null
  }

  /** `v ?? default` written to a text column: null keeps the default, a
      string is stored; any other value is refused by the store. */
  function TextOr(v: Value, default: string): Option<string> {
    match v
    case Null => Some(default)
    case Str(s) => Some(s)
    case _ => None
  }

  /** `typeof v === 'number' ? v : default`. */
  function NumberOr(v: Value, default: int): int {
    if v.Num? then v.n else default
  }

  /** `v ?? null` written to an optional integer link column. */
  function LinkOr(v: Value): Option<Option<int>> {
    match v
    case Null => Some(None)
    case Num(n) => Some(Some(n))
    case _ => None
  }

  /** The `data` object of the `create` call. */
  datatype NoteData = NoteData(
    title: string,
    content: string,
    color: string,
    isPinned: bool,
    x: int,
    y: int,
    width: int,
    height: int,
    zIndex: int,
    taskId: Option<int>,
    subtaskId: Option<int>)

  /** The defaults an empty body produces. */
  const DefaultData := NoteData("Untitled", "", "#ffffff", false, 60, 60, 320, 220, 1, None, None)

  /** `POST`'s field defaulting. `None` for the body is a body that failed to
      parse, read as `{}`; `None` as the result is a body the store refuses. */
  function CreateData(body: Option<Body>): Option<NoteData> {
    var b := body.GetOr(map[]);
    var title := TextOr(Field(b, "title"), "Untitled");
    var content := TextOr(Field(b, "content"), "");
    var color := TextOr(Field(b, "color"), "#ffffff");
    var taskId := LinkOr(Field(b, "taskId"));
    var subtaskId := LinkOr(Field(b, "subtaskId"));
    if title.None? || content.None? || color.None? || taskId.None? || subtaskId.None? then None
    else Some(NoteData(
      title.value, content.value, color.value,
      Truthy(Field(b, "isPinned")),
      NumberOr(Field(b, "x"), 60),
      NumberOr(Field(b, "y"), 60),
      NumberOr(Field(b, "width"), 320),
      NumberOr(Field(b, "height"), 220),
      NumberOr(Field(b, "zIndex"), 1),
      taskId.value, subtaskId.value))
  }

  /** The stored row for accepted data. */
  function NewNote(id: nat, d: NoteData, now: int): Note {
    Note(id, d.title, d.content, d.color, d.isPinned, d.x, d.y, d.width, d.height, d.zIndex,
      d.taskId, d.subtaskId, now, now)
  }

  /** `orderBy: [{ isPinned: 'desc' }, { updatedAt: 'desc' }]` as a comparison. */
  predicate PinnedThenRecent(a: Note, b: Note) {
    (a.isPinned && !b.isPinned) || (a.isPinned == b.isPinned && a.updatedAt >= b.updatedAt)
  }

  /** `GET`'s ordering. */
  function ListNotes(notes: seq<Note>): seq<Note> {
    InsertionSort(notes, PinnedThenRecent)
  }

  // ----- properties -----

  /** An empty body and an unparseable one both give the documented defaults. */
  lemma EmptyBodyDefaults()
    ensures CreateData(None) == Some(DefaultData)
    ensures CreateData(Some(map[])) == Some(DefaultData)
  {
  }

  /** Field by field: text fields and links fall back to their defaults only
      when null or absent, layout fields keep a value only when it is a
      number, and `isPinned` is the value's truthiness. A non-null value of
      the wrong kind in a text or link field makes the store refuse. */
  lemma CreateFieldwise(b: Body)
    ensures var r := CreateData(Some(b));
      && (r.Some? <==>
            && (Field(b, "title").Null? || Field(b, "title").Str?)
            && (Field(b, "content").Null? || Field(b, "content").Str?)
            && (Field(b, "color").Null? || Field(b, "color").Str?)
            && (Field(b, "taskId").Null? || Field(b, "taskId").Num?)
            && (Field(b, "subtaskId").Null? || Field(b, "subtaskId").Num?))
      && (r.Some? ==>
            && ("title" in b && b["title"].Str? ==> r.value.title == b["title"].s)
            && ("title" !in b || b["title"].Null? ==> r.value.title == "Untitled")
            && ("content" in b && b["content"].Str? ==> r.value.content == b["content"].s)
            && ("content" !in b || b["content"].Null? ==> r.value.content == "")
            && ("color" in b && b["color"].Str? ==> r.value.color == b["color"].s)
            && ("color" !in b || b["color"].Null? ==> r.value.color == "#ffffff")
            && (r.value.isPinned <==> "isPinned" in b && Truthy(b["isPinned"]))
            && (if "x" in b && b["x"].Num? then r.value.x == b["x"].n else r.value.x == 60)
            && (if "y" in b && b["y"].Num? then r.value.y == b["y"].n else r.value.y == 60)
            && (if "width" in b && b["width"].Num? then r.value.width == b["width"].n else r.value.width == 320)
            && (if "height" in b && b["height"].Num? then r.value.height == b["height"].n else r.value.height == 220)
            && (if "zIndex" in b && b["zIndex"].Num? then r.value.zIndex == b["zIndex"].n else r.value.zIndex == 1)
            && ("taskId" in b && b["taskId"].Num? ==> r.value.taskId == Some(b["taskId"].n))
            && ("taskId" !in b || b["taskId"].Null? ==> r.value.taskId == None)
            && ("subtaskId" in b && b["subtaskId"].Num? ==> r.value.subtaskId == Some(b["subtaskId"].n))
            && ("subtaskId" !in b || b["subtaskId"].Null? ==> r.value.subtaskId == None))
  {
  }

  /** The listing comparison is total and transitive. */
  lemma PinnedThenRecentIsTotalPreorder()
    ensures TotalPreorder(PinnedThenRecent)
  {
  }

  /** The listing is a permutation of the table with every pinned note before
      every unpinned one and, within each group, `updatedAt` non-increasing. */
  lemma ListOrder(notes: seq<Note>)
    ensures var r := ListNotes(notes);
      && multiset(r) == multiset(notes)
      && (forall i, j :: 0 <= i < j < |r| && r[j].isPinned ==> r[i].isPinned)
      && (forall i, j :: 0 <= i < j < |r| && r[i].isPinned == r[j].isPinned ==> r[i].updatedAt >= r[j].updatedAt)
  {
    PinnedThenRecentIsTotalPreorder();
    InsertionSortSorted(notes, PinnedThenRecent);
    var r := ListNotes(notes);
    assert forall i, j :: 0 <= i < j < |r| ==> PinnedThenRecent(r[i], r[j]);
  }

  /** Autoincrement keys: ascending in insertion order, all below the counter. */
  predicate KeysBelow(notes: seq<Note>, nextId: nat) {
    && (forall i, j :: 0 <= i < j < |notes| ==> notes[i].id < notes[j].id)
    && (forall i :: 0 <= i < |notes| ==> notes[i].id < nextId)
  }

  /** The table as a mutable object. */
  class NoteStore {
    var notes: seq<Note>
    var nextId: nat

    ghost predicate Valid()
      reads this
    {
      KeysBelow(notes, nextId)
    }

    constructor ()
      ensures notes == [] && nextId == 1
      ensures Valid()
    {
      notes := [];
      nextId := 1;
    }

    /** `GET`. */
    method Get() returns (r: seq<Note>)
      requires Valid()
      ensures multiset(r) == multiset(notes)
      ensures forall i, j :: 0 <= i < j < |r| && r[j].isPinned ==> r[i].isPinned
      ensures forall i, j :: 0 <= i < j < |r| && r[i].isPinned == r[j].isPinned ==> r[i].updatedAt >= r[j].updatedAt
    {
      r := ListNotes(notes);
      ListOrder(notes);
    }

    /** `POST`: insert a row built from the body, or nothing when the store
      refuses the data. */
    method Post(body: Option<Body>, now: int) returns (r: Option<Note>)
      requires Valid()
      modifies this
      ensures Valid()
      ensures r.Some? ==> forall n :: n in old(notes) ==> n.id < r.value.id
      ensures var d := CreateData(body);
        if d.Some? then
          && r == Some(NewNote(old(nextId), d.value, now))
          && notes == old(notes) + [r.value] && nextId == old(nextId) + 1
        else r.None? && notes == old(notes) && nextId == old(nextId)
    {
      var d := CreateData(body);
      if d.Some? {
        var n := NewNote(nextId, d.value, now);
        notes := notes + [n];
        nextId := nextId + 1;
        r := Some(n);
      } else {
        r := None;
      }
    }
  }
}
