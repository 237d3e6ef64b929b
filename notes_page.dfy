/** The notes editor (app/notes/page.tsx): the formatting buttons that wrap
    the textarea's selection, the sidebar preview, and the editor state set
    by `load`, `hydrate`, selecting a note and `deleteNote`. */
module NotesPage {
  import opened Common
  import opened NotesApi
  import opened NoteSearch

  // ----- formatting the selection -----

  /** The textarea: its text and its selection `[start, end)`. */
  datatype TextArea = TextArea(value: string, start: nat, end: nat)

  predicate ValidSelection(t: TextArea) {
    t.start <= t.end <= |t.value|
  }

  /** `value.slice(start, end) || 'text'`. */
  function Selected(t: TextArea): string
    requires ValidSelection(t)
  {
    if t.start == t.end then "text" else t.value[t.start..t.end]
  }

  /** The new text and the caret position `replaceSelection` produces. */
  datatype Edit = Edit(value: string, cursor: nat)

  /** `replaceSelection(wrapperStart, wrapperEnd)`, the caret as written:
      `(wrapperStart + selected).length`. */
  function ReplaceSelection(t: TextArea, ws: string, we: string): Edit
    requires ValidSelection(t)
  {
    var sel := Selected(t);
    Edit(t.value[..t.start] + ws + sel + we + t.value[t.end..], |ws + sel|)
  }

  /** `wrapMarkdown(mdStart, mdEnd = mdStart)`. */
  function WrapMarkdown(t: TextArea, md: string): Edit
    requires ValidSelection(t)
  {
    ReplaceSelection(t, md, md)
  }

  /** `applySpanStyle(style)`. */
  function ApplySpanStyle(t: TextArea, style: string): Edit
    requires ValidSelection(t)
  {
    ReplaceSelection(t, "<span style=\"" + style + "\">", "</span>")
  }

  /** The toolbar's Markdown buttons. */
  datatype Button = Bold | Italic | H1 | H2 | H3 | Code | Checklist

  function Press(t: TextArea, b: Button): Edit
    requires ValidSelection(t)
  {
    match b
    case Bold => WrapMarkdown(t, "**")
    case Italic => WrapMarkdown(t, "*")
    case H1 => ReplaceSelection(t, "# ", "")
    case H2 => ReplaceSelection(t, "## ", "")
    case H3 => ReplaceSelection(t, "### ", "")
    case Code => WrapMarkdown(t, "`")
    case Checklist => ReplaceSelection(t, "- [ ] ", "")
  }

  /** Cuts the wrappers back out of an edited text: `start` characters kept,
      `ws` skipped, `k` kept, `we` skipped, the rest kept. */
  function Unwrap(v: string, start: nat, ws: nat, k: nat, we: nat): string
    requires start + ws + k + we <= |v|
  {
    v[..start] + v[start + ws..start + ws + k] + v[start + ws + k + we..]
  }

  /** The text around the selection is kept, the selection (or 'text' when
      empty) sits between the two wrappers, and cutting the wrappers out
      gives back the original text with the placeholder in an empty
      selection. */
  lemma ReplaceSelectionShape(t: TextArea, ws: string, we: string)
    requires ValidSelection(t)
    ensures var e := ReplaceSelection(t, ws, we);
      var sel := Selected(t);
      && |e.value| == |t.value| - (t.end - t.start) + |ws| + |sel| + |we|
      && e.value[..t.start] == t.value[..t.start]
      && e.value[t.start..t.start + |ws|] == ws
      && e.value[t.start + |ws|..t.start + |ws| + |sel|] == sel
      && e.value[t.start + |ws| + |sel|..t.start + |ws| + |sel| + |we|] == we
      && e.value[t.start + |ws| + |sel| + |we|..] == t.value[t.end..]
      && (t.start < t.end ==> Unwrap(e.value, t.start, |ws|, |sel|, |we|) == t.value)
      && (t.start == t.end ==> Unwrap(e.value, t.start, |ws|, |sel|, |we|) == t.value[..t.start] + "text" + t.value[t.start..])
  {
    var sel := Selected(t);
    var a, b := t.value[..t.start], t.value[t.end..];
    var v := ReplaceSelection(t, ws, we).value;
    assert v == a + ws + sel + we + b;
    assert |a| == t.start && |b| == |t.value| - t.end;
    FiveParts(a, ws, sel, we, b);
    assert Unwrap(v, t.start, |ws|, |sel|, |we|) == a + sel + b;
    if t.start < t.end {
      assert sel == t.value[t.start..t.end];
      assert a + sel + b == t.value;
    } else {
      assert sel == "text";
      assert b == t.value[t.start..];
    }
  }

  /** The five pieces of a wrapped text can be sliced back out, and cutting
      out the two wrappers leaves the other three. */
  lemma FiveParts(a: string, ws: string, sel: string, we: string, b: string)
    ensures var v := a + ws + sel + we + b;
      var p1, p2, p3 := |a| + |ws|, |a| + |ws| + |sel|, |a| + |ws| + |sel| + |we|;
      && |v| == p3 + |b|
      && v[..|a|] == a && v[|a|..p1] == ws && v[p1..p2] == sel && v[p2..p3] == we && v[p3..] == b
      && Unwrap(v, |a|, |ws|, |sel|, |we|) == a + sel + b
  {
    var v := a + ws + sel + we + b;
    var p1, p2, p3 := |a| + |ws|, |a| + |ws| + |sel|, |a| + |ws| + |sel| + |we|;
    assert v == (((a + ws) + sel) + we) + b;
    assert v[..|a|] == a;
    assert v[|a|..p1] == ws;
    assert v[p1..p2] == sel;
    assert v[p2..p3] == we;
    assert v[p3..] == b;
  }

  /** The caret goes to `|wrapperStart| + |selected|` from the start of the
      text, whatever the selection's start: only for a selection at the very
      start does it land just after the inserted text. */
  lemma CursorIgnoresStart(t: TextArea, ws: string, we: string)
    requires ValidSelection(t)
    ensures ReplaceSelection(t, ws, we).cursor == |ws| + |Selected(t)|
    ensures ReplaceSelection(t, ws, we).cursor == t.start + |ws| + |Selected(t)| <==> t.start == 0
  {
  }

  /** A concrete case: bold over "cd" in "abcd" gives "ab**cd**" with the
      caret at 4, between the opening marker and "cd", where the selection's
      end (6) was meant. */
  lemma CursorMisplacedExample()
    ensures var t := TextArea("abcd", 2, 4);
      var e := WrapMarkdown(t, "**");
      && e.value == "ab**cd**" && e.cursor == 4 && e.value[..e.cursor] != "ab**cd"
  {
    var t := TextArea("abcd", 2, 4);
    assert Selected(t) == "cd";
    var e := WrapMarkdown(t, "**");
    assert e.value[..4] == "ab**";
  }

  /** The evidently intended caret: just after the inserted opening wrapper
      and selection. */
  function IntendedCursor(t: TextArea, ws: string): nat
    requires ValidSelection(t)
  {
    t.start + |ws| + |Selected(t)|
  }

  /** The intended caret sits right after the selection it wrapped, and the
      text before it is the text before the selection, the opening wrapper
      and the selection. */
  lemma IntendedCursorFollowsSelection(t: TextArea, ws: string, we: string)
    requires ValidSelection(t)
    ensures var e := ReplaceSelection(t, ws, we);
      && IntendedCursor(t, ws) <= |e.value|
      && e.value[..IntendedCursor(t, ws)] == t.value[..t.start] + ws + Selected(t)
      && e.value[IntendedCursor(t, ws)..] == we + t.value[t.end..]
  {
    var e := ReplaceSelection(t, ws, we);
    var c := IntendedCursor(t, ws);
    assert e.value == (t.value[..t.start] + ws + Selected(t)) + (we + t.value[t.end..]);
  }

  /** Bold, italic and code put the same marker on both sides; the heading
      and checklist buttons insert a prefix and nothing after. */
  lemma ButtonsMarkers(t: TextArea, style: string)
    requires ValidSelection(t)
    ensures Press(t, Bold) == ReplaceSelection(t, "**", "**")
    ensures Press(t, Italic) == ReplaceSelection(t, "*", "*")
    ensures Press(t, Code) == ReplaceSelection(t, "`", "`")
    ensures Press(t, H1).value == t.value[..t.start] + "# " + Selected(t) + t.value[t.end..]
    ensures Press(t, H2).value == t.value[..t.start] + "## " + Selected(t) + t.value[t.end..]
    ensures Press(t, H3).value == t.value[..t.start] + "### " + Selected(t) + t.value[t.end..]
    ensures Press(t, Checklist).value == t.value[..t.start] + "- [ ] " + Selected(t) + t.value[t.end..]
    ensures ApplySpanStyle(t, style).value ==
      t.value[..t.start] + "<span style=\"" + style + "\">" + Selected(t) + "</span>" + t.value[t.end..]
  {
  }

  // ----- sidebar preview -----

  predicate IsMark(c: char) {
    c == '#' || c == '*' || c == '_' || c == '`' || c == '>'
  }

  /** `replace(/[#*_`>]/g, '')`. */
  function StripMarks(s: string): (r: string)
    ensures |r| <= |s|
    ensures forall i :: 0 <= i < |r| ==> !IsMark(r[i])
  {
    if s == [] then []
    else if IsMark(s[0]) then StripMarks(s[1..])
    else [s[0]] + StripMarks(s[1..])
  }

  const PreviewLength: nat := 120

  /** The sidebar line under a note's title. */
  function Preview(content: string): string {
    var s := StripMarks(content);
    s[..Min(PreviewLength, |s|)]
  }

  /** Stripping works character by character, so it distributes over
      concatenation and keeps unmarked text as it is. */
  lemma {:induction false} StripMarksAppend(a: string, b: string)
    ensures StripMarks(a + b) == StripMarks(a) + StripMarks(b)
  {
    if a == [] {
      assert a + b == b;
    } else {
      assert (a + b)[1..] == a[1..] + b;
      StripMarksAppend(a[1..], b);
    }
  }

  lemma {:induction false} StripMarksKeepsPlain(s: string)
    requires forall i :: 0 <= i < |s| ==> !IsMark(s[i])
    ensures StripMarks(s) == s
  {
    if s != [] {
      StripMarksKeepsPlain(s[1..]);
    }
  }

  /** The preview holds no Markdown marks, at most 120 characters, and is the
      start of the content with the marks removed; content of at most 120
      unmarked characters is shown whole. */
  lemma PreviewMeaning(content: string)
    ensures var p := Preview(content);
      && |p| <= PreviewLength
      && (forall i :: 0 <= i < |p| ==> !IsMark(p[i]))
      && p == StripMarks(content)[..|p|]
      && (|StripMarks(content)| <= PreviewLength ==> p == StripMarks(content))
      && ((forall i :: 0 <= i < |content| ==> !IsMark(content[i])) && |content| <= PreviewLength ==> p == content)
  {
    if forall i :: 0 <= i < |content| ==> !IsMark(content[i]) {
      StripMarksKeepsPlain(content);
    }
  }

  // ----- editor state -----

  /** The editor's state fields. `activeId` is `None` for null. */
  datatype Editor = Editor(
    notes: seq<Note>,
    activeId: Option<nat>,
    title: string,
    content: string,
    color: string,
    isPinned: bool,
    filter: string)

  const Blank := Editor([], None, "", "", "#ffffff", false, "")

  /** `hydrate(n)`: copy the note into the editor, an empty colour shown as
      white. */
  function Hydrate(e: Editor, n: Note): Editor {
    e.(title := n.title, content := n.content, color := if n.color == "" then "#ffffff" else n.color,
       isPinned := n.isPinned)
  }

  /** `load` with the fetched list: the first note becomes active when none
      is. */
  function Load(e: Editor, fetched: seq<Note>): Editor {
    if |fetched| > 0 && e.activeId.None? then Hydrate(e.(notes := fetched, activeId := Some(fetched[0].id)), fetched[0])
    else e.(notes := fetched)
  }

  /** A click on a note in the sidebar. */
  function Select(e: Editor, n: Note): Editor {
    Hydrate(e.(activeId := Some(n.id)), n)
  }

  /** `deleteNote(id)` after the user answered `confirmed`, `fetched` being
      the list `load` brings back. The next active note is chosen from the
      list as it was before the call; when none is left, title and content
      are cleared while colour and pin stay. */
  function DeleteNote(e: Editor, id: nat, confirmed: bool, fetched: seq<Note>): Editor {
    if !confirmed then e
    else
      var loaded := Load(e, fetched);
      if e.activeId == Some(id) then
        var rest := RemoveId(e.notes, id);
        if |rest| > 0 then Hydrate(loaded.(activeId := Some(rest[0].id)), rest[0])
        else loaded.(activeId := None, title := "", content := "")
      else loaded
  }

  /** `notes.filter(n => n.id !== id)`. */
  function RemoveId(notes: seq<Note>, id: nat): (r: seq<Note>)
    ensures |r| <= |notes|
  {
    if notes == [] then []
    else if notes[0].id == id then RemoveId(notes[1..], id)
    else [notes[0]] + RemoveId(notes[1..], id)
  }

  /** The body `createNote` posts. */
  const NewNoteBody: Body := map["title" := Str("Untitled"), "content" := Str(""), "color" := Str("#ffffff"), "isPinned" := Bool(false)]

  /** `createNote`: the reply `created`, then the reload, then the new note
      becomes active. */
  function CreateNote(e: Editor, created: Note, fetched: seq<Note>): Editor {
    Select(Load(e, fetched), created)
  }

  /** `hydrate` shows the note's fields, white for an empty colour, and
      changes nothing else. */
  lemma HydrateShowsNote(e: Editor, n: Note)
    ensures var h := Hydrate(e, n);
      && h.title == n.title && h.content == n.content && h.isPinned == n.isPinned
      && (n.color == "" ==> h.color == "#ffffff") && (n.color != "" ==> h.color == n.color)
      && h.notes == e.notes && h.activeId == e.activeId && h.filter == e.filter
  {
  }

  /** `load` always replaces the list; it changes the active note only when
      none was active and the list is not empty, and then shows the first. */
  lemma LoadPicksFirst(e: Editor, fetched: seq<Note>)
    ensures Load(e, fetched).notes == fetched
    ensures e.activeId.Some? || fetched == [] ==> Load(e, fetched) == e.(notes := fetched)
    ensures e.activeId.None? && fetched != [] ==>
      Load(e, fetched).activeId == Some(fetched[0].id) && Load(e, fetched).title == fetched[0].title
      && Load(e, fetched).content == fetched[0].content
  {
  }

  /** The kept notes are exactly the others, in order. */
  lemma {:induction false} RemoveIdMembership(notes: seq<Note>, id: nat, n: Note)
    ensures n in RemoveId(notes, id) <==> n in notes && n.id != id
  {
    if notes != [] {
      RemoveIdMembership(notes[1..], id, n);
      assert notes == [notes[0]] + notes[1..];
    }
  }

  /** Deleting the active note shows the first OTHER note of the list held
      before the call (even if the reload no longer has it), or clears title
      and content but not colour or pin when there is none; deleting another
      note, or declining, keeps the editor's note. */
  lemma DeleteNoteNextActive(e: Editor, id: nat, confirmed: bool, fetched: seq<Note>)
    ensures var d := DeleteNote(e, id, confirmed, fetched);
      && (!confirmed ==> d == e)
      && (confirmed ==> d.notes == fetched)
      && (confirmed && e.activeId == Some(id) && RemoveId(e.notes, id) != [] ==>
            var next := RemoveId(e.notes, id)[0];
            && next in e.notes && next.id != id
            && d.activeId == Some(next.id) && d.title == next.title && d.content == next.content)
      && (confirmed && e.activeId == Some(id) && RemoveId(e.notes, id) == [] ==>
            && d.activeId.None? && d.title == "" && d.content == ""
            && d.color == e.color && d.isPinned == e.isPinned)
      && (confirmed && e.activeId.Some? && e.activeId != Some(id) ==> d == e.(notes := fetched))
  {
    if confirmed && e.activeId == Some(id) && RemoveId(e.notes, id) != [] {
      RemoveIdMembership(e.notes, id, RemoveId(e.notes, id)[0]);
    }
  }

  /** A new note is posted with the same fields an empty body gets, and is
      then the active note. */
  lemma CreateNoteShowsIt(e: Editor, created: Note, fetched: seq<Note>)
    ensures CreateData(Some(NewNoteBody)) == Some(DefaultData)
    ensures var c := CreateNote(e, created, fetched);
      c.activeId == Some(created.id) && c.notes == fetched && c.title == created.title && c.content == created.content
  {
    var b := NewNoteBody;
    assert Field(b, "title") == Str("Untitled");
    assert Field(b, "content") == Str("");
    assert Field(b, "color") == Str("#ffffff");
    assert Field(b, "isPinned") == Bool(false);
    assert Field(b, "taskId") == Null && Field(b, "subtaskId") == Null;
    assert Field(b, "x") == Null && Field(b, "y") == Null && Field(b, "width") == Null;
    assert Field(b, "height") == Null && Field(b, "zIndex") == Null;
  }

  /** The page's state fields, updated in place by its handlers. */
  class EditorPage {
    var notes: seq<Note>
    var activeId: Option<nat>
    var title: string
    var content: string
    var color: string
    var isPinned: bool
    var filter: string

    function State(): Editor
      reads this
    {
      Editor(notes, activeId, title, content, color, isPinned, filter)
    }

    method Set(e: Editor)
      modifies this
      ensures State() == e
    {
      notes, activeId, title, content, color, isPinned, filter :=
        e.notes, e.activeId, e.title, e.content, e.color, e.isPinned, e.filter;
    }

    constructor ()
      ensures State() == Blank
    {
      notes, activeId, title, content, color, isPinned, filter := [], None, "", "", "#ffffff", false, "";
    }

    method OnLoad(fetched: seq<Note>)
      modifies this
      ensures State() == Load(old(State()), fetched)
    {
      if |fetched| > 0 && activeId.None? {
        notes, activeId := fetched, Some(fetched[0].id);
        Set(Hydrate(State(), fetched[0]));
      } else {
        notes := fetched;
      }
    }

    method OnSelect(n: Note)
      modifies this
      ensures State() == Select(old(State()), n)
    {
      activeId := Some(n.id);
      Set(Hydrate(State(), n));
    }

    method OnDelete(id: nat, confirmed: bool, fetched: seq<Note>)
      modifies this
      ensures State() == DeleteNote(old(State()), id, confirmed, fetched)
    {
      if !confirmed {
        return;
      }
      var before := notes;
      var wasActive := activeId;
      OnLoad(fetched);
      if wasActive == Some(id) {
        var rest := RemoveId(before, id);
        if |rest| > 0 {
          activeId := Some(rest[0].id);
          Set(Hydrate(State(), rest[0]));
        } else {
          activeId, title, content := None, "", "";
        }
      }
    }

    /** A formatting button, `sel` being the textarea's selection (`None`
        when the textarea is not mounted). `caret` is where the animation
        frame callback puts the textarea's caret, `None` when it does not
        run. */
    method OnFormat(sel: Option<(nat, nat)>, ws: string, we: string) returns (caret: Option<nat>)
      requires sel.Some? ==> sel.value.0 <= sel.value.1 <= |content|
      modifies this
      ensures sel.None? ==> State() == old(State()) && caret.None?
      ensures sel.Some? ==>
        var t := TextArea(old(content), sel.value.0, sel.value.1);
        && State() == old(State()).(content := ReplaceSelection(t, ws, we).value)
        && caret == Some(ReplaceSelection(t, ws, we).cursor)
        && (caret.value == IntendedCursor(t, ws) <==> t.start == 0)
    {
      caret := None;
      if sel.Some? {
        var t := TextArea(content, sel.value.0, sel.value.1);
        var e := ReplaceSelection(t, ws, we);
        content := e.value;
        caret := Some(e.cursor);
        CursorIgnoresStart(t, ws, we);
      }
    }

    /** The `filtered` memo over the page's list. */
    method Filtered() returns (r: seq<Note>)
      ensures (forall i :: 0 <= i < |filter| ==> IsSpace(filter[i])) ==> r == notes
      ensures Query(filter) != "" ==> forall n :: n in r <==> n in notes && Matches(n, Query(filter))
    {
      r := Search(notes, filter);
      SearchMeaning(notes, filter);
    }
  }
}
