/** The Notes app (components/apps/notes-app.tsx): a list of five notes and a
    detail view for the selected one, whose record and text are looked up in
    two parallel tables keyed by the note's id. */
module Notes {
  import opened Optional

  datatype Note = Note(id: int, title: string, date: string, category: string)

  /** The `notesList` table, in display order. */
  const NotesList: seq<Note> := [
    Note(1, "Professional Skills", "12/14/2024", "Career"),
    Note(2, "Education & Certifications", "12/10/2024", "Career"),
    Note(3, "Fun Facts About Me", "12/05/2024", "Personal"),
    Note(4, "Current Projects", "12/01/2024", "Work"),
    Note(5, "Career Goals", "11/28/2024", "Career")
  ]

  /** The `noteContent` table. Each text is represented by its opening line. */
  const NoteContent: map<int, string> := map[
    1 := "Professional Skills",
    2 := "Education & Certifications",
    3 := "This is Me!",
    4 := "Current Projects",
    5 := "Career Goals"
  ]

  /** `notes.find((n) => n.id === id)`: the first note with that id, if any. */
  function Find(notes: seq<Note>, id: int): (r: Option<Note>)
    ensures r == None <==> forall k :: 0 <= k < |notes| ==> notes[k].id != id
    ensures r.Some? ==>
      exists k :: 0 <= k < |notes| && notes[k] == r.value && r.value.id == id &&
        forall j :: 0 <= j < k ==> notes[j].id != id
  {
    if notes == [] then None
    else if notes[0].id == id then Some(notes[0])
    else
      var r := Find(notes[1..], id);
      assert forall k :: 1 <= k < |notes| ==> notes[k] == notes[1..][k - 1];
      r
  }

  /** `noteContent[id]`: `undefined` for an id the table lacks. */
  function Content(id: int): (text: Option<string>)
    ensures text.Some? <==> 1 <= id <= 5
    ensures text.Some? ==> text.value == NoteContent[id]
  {
    if id in NoteContent then Some(NoteContent[id]) else None
  }

  /** The note ids are 1 to 5 in order, hence distinct and never 0. */
  lemma NoteIds()
    ensures |NotesList| == 5
    ensures forall k :: 0 <= k < |NotesList| ==> NotesList[k].id == k + 1
  {
  }

  /** The two tables are parallel: the content table has exactly the ids of
      the notes list. */
  lemma TablesParallel()
    ensures NoteContent.Keys == set n | n in NotesList :: n.id
  {
    var ids := set n | n in NotesList :: n.id;
    assert NotesList[0].id == 1 && NotesList[1].id == 2 && NotesList[2].id == 3;
    assert NotesList[3].id == 4 && NotesList[4].id == 5;
    assert NotesList[0] in NotesList && NotesList[1] in NotesList && NotesList[2] in NotesList;
    assert NotesList[3] in NotesList && NotesList[4] in NotesList;
    assert ids == {1, 2, 3, 4, 5};
  }

  /** What the detail view shows: the note's record and its text. */
  datatype NoteDetail = NoteDetail(note: Option<Note>, content: Option<string>)

  /** The detail view shows when the selection is set and truthy (non-zero). */
  predicate DetailShown(selected: Option<int>) {
    selected.Some? && selected.value != 0
  }

  /** The detail view, or `None` while the list is shown. */
  function DetailFor(selected: Option<int>): (d: Option<NoteDetail>)
    ensures d.Some? <==> DetailShown(selected)
  {
    if DetailShown(selected)
    then Some(NoteDetail(Find(NotesList, selected.value), Content(selected.value)))
    else None
  }

  /** Selecting any listed note shows its own record and its own text. */
  lemma ListedNoteResolves(k: nat)
    requires k < |NotesList|
    ensures DetailFor(Some(NotesList[k].id)) ==
      Some(NoteDetail(Some(NotesList[k]), Some(NoteContent[NotesList[k].id])))
  {
    NoteIds();
    TablesParallel();
    var id := NotesList[k].id;
    var r := Find(NotesList, id);
    assert r.Some?;
    var j :| 0 <= j < |NotesList| && NotesList[j] == r.value && r.value.id == id;
    assert j == k;
  }

  /** The app's one state variable, `selectedNote`. */
  class NotesApp {
    var selectedNote: Option<int>

    constructor ()
      ensures selectedNote == None
      ensures Detail() == None
    {
      selectedNote := None;
    }

    /** A click on a note of the list. */
    method Select(id: int)
      modifies this
      ensures selectedNote == Some(id)
    {
      selectedNote := Some(id);
    }

    /** The detail view's back button. */
    method Back()
      modifies this
      ensures selectedNote == None
      ensures Detail() == None
    {
      selectedNote := None;
    }

    function Detail(): (d: Option<NoteDetail>)
      reads this
      ensures d.Some? <==> DetailShown(selectedNote)
    {
      DetailFor(selectedNote)
    }
  }

  /** Clicking the `k`th note of the list opens the detail view of that note. */
  method ClickNote(app: NotesApp, k: nat)
    requires k < |NotesList|
    modifies app
    ensures app.Detail() == Some(NoteDetail(Some(NotesList[k]), Some(NoteContent[NotesList[k].id])))
  {
    app.Select(NotesList[k].id);
    ListedNoteResolves(k);
  }
}
