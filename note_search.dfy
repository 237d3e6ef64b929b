/** The search box shared by the stickies board (app/stickies/page.tsx) and
    the notes editor (app/notes/page.tsx): trim and lower-case the query; a
    blank query shows every note, any other keeps, in order, the notes whose
    lower-cased title or content contains it. */
module NoteSearch {
  import opened Common
  import opened NotesApi

  /** `filter.trim().toLowerCase()`. */
  function Query(filter: string): string {
    Lower(Trim(filter))
  }

  predicate Matches(n: Note, q: string) {
    Contains(Lower(n.title), q) || Contains(Lower(n.content), q)
  }

  /** `notes.filter(...)`. */
  function Keep(notes: seq<Note>, q: string): (r: seq<Note>)
    ensures |r| <= |notes|
  {
    if notes == [] then []
    else if Matches(notes[0], q) then [notes[0]] + Keep(notes[1..], q)
    else Keep(notes[1..], q)
  }

  /** The `filtered` memo. */
  function Search(notes: seq<Note>, filter: string): seq<Note> {
    var q := Query(filter);
    if q == "" then notes else Keep(notes, q)
  }

  // ----- properties -----

  /** A note is kept exactly when it is listed and matches. */
  lemma {:induction false} KeepMembership(notes: seq<Note>, q: string, n: Note)
    ensures n in Keep(notes, q) <==> n in notes && Matches(n, q)
  {
    if notes != [] {
      KeepMembership(notes[1..], q, n);
      assert notes == [notes[0]] + notes[1..];
    }
  }

  /** Filtering a concatenation filters each part: the kept notes stay in
      their listed order. */
  lemma {:induction false} KeepAppend(a: seq<Note>, b: seq<Note>, q: string)
    ensures Keep(a + b, q) == Keep(a, q) + Keep(b, q)
  {
    if a != [] {
      assert (a + b)[1..] == a[1..] + b;
      KeepAppend(a[1..], b, q);
    } else {
      assert a + b == b;
    }
  }

  /** An empty or all-whitespace query shows every note in order; any other
      query shows exactly the listed notes whose lower-cased title or content
      contains the trimmed, lower-cased query, in their listed order. */
  lemma SearchMeaning(notes: seq<Note>, filter: string)
    ensures (forall i :: 0 <= i < |filter| ==> IsSpace(filter[i])) ==> Search(notes, filter) == notes
    ensures Query(filter) != "" ==>
      forall n :: n in Search(notes, filter) <==> n in notes && Matches(n, Query(filter))
    ensures forall a, b :: notes == a + b && Query(filter) != "" ==>
      Search(notes, filter) == Keep(a, Query(filter)) + Keep(b, Query(filter))
  {
    TrimEmptyIff(filter);
    var q := Query(filter);
    if q != "" {
      forall n ensures n in Search(notes, filter) <==> n in notes && Matches(n, q) {
        KeepMembership(notes, q, n);
      }
      forall a, b | notes == a + b ensures Keep(notes, q) == Keep(a, q) + Keep(b, q) {
        KeepAppend(a, b, q);
      }
    }
  }
}
