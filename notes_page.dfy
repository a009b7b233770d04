/**
 * The single-list notes page of src/pages/NotesPage.tsx. The list updates
 * (rewrite by id, prepend, filter) are functions; the handlers are methods
 * of one object holding the page's state variables. `Date.now()` is the
 * parameter `now` and `new Date().toISOString().split('T')[0]` is `today`.
 */
module NotesPage {
  import opened Wrappers
  import opened Strings
  import opened Lists

  datatype Note = Note(id: int, title: string, content: string, date: string)

  /** A selection counts only when it is a non-zero number (`if (selectedNote)`). */
  predicate Truthy(s: Option<int>) {
    s.Some? && s.value != 0
  }

  /** The sample notes the page starts with. */
  const SampleNotes: seq<Note> := [
    Note(1, "Цели на апрель",
         "1. Пить больше воды\n2. Есть больше овощей\n3. Контролировать размеры порций", "2023-04-01"),
    Note(2, "Рецепт смузи", "Банан, шпинат, молоко, лед - все взбить в блендере.", "2023-04-05"),
    Note(3, "Заметки о самочувствии",
         "После исключения сахара чувствую себя намного лучше. Больше энергии, меньше усталости.", "2023-04-10")
  ]

  /** `notes.find(n => n.id === id)`: the first note with that id. */
  function Find(notes: seq<Note>, id: int): (r: Option<Note>)
    ensures r.None? <==> forall i :: 0 <= i < |notes| ==> notes[i].id != id
    ensures r.Some? ==> r.value in notes && r.value.id == id
  {
    if notes == [] then None
    else if notes[0].id == id then Some(notes[0])
    else Find(notes[1..], id)
  }

  /** The ids of a list, in order. */
  function Ids(notes: seq<Note>): (r: seq<int>)
    ensures |r| == |notes| && forall i :: 0 <= i < |r| ==> r[i] == notes[i].id
  {
    if notes == [] then [] else [notes[0].id] + Ids(notes[1..])
  }

  /** `notes.map(note => note.id === id ? { ...note, title, content, date } : note)` */
  function Rewrite(notes: seq<Note>, id: int, title: string, content: string, date: string): (r: seq<Note>)
    ensures |r| == |notes|
  {
    if notes == [] then []
    else [if notes[0].id == id then notes[0].(title := title, content := content, date := date) else notes[0]]
         + Rewrite(notes[1..], id, title, content, date)
  }

  /** The id that `filter` compares when a note is deleted. */
  function NoteKey(n: Note): int { n.id }

  /**
   * Rewriting keeps the length and the order of the ids, replaces title,
   * content and date of the notes with that id, and keeps every other note.
   */
  lemma {:induction false} RewriteOnlyMatching(notes: seq<Note>, id: int, title: string, content: string, date: string)
    ensures Ids(Rewrite(notes, id, title, content, date)) == Ids(notes)
    ensures forall i :: 0 <= i < |notes| ==>
      Rewrite(notes, id, title, content, date)[i]
        == if notes[i].id == id then Note(id, title, content, date) else notes[i]
  {
    if notes != [] {
      var rest := Rewrite(notes[1..], id, title, content, date);
      RewriteOnlyMatching(notes[1..], id, title, content, date);
      assert forall i :: 0 < i < |notes| ==> Rewrite(notes, id, title, content, date)[i] == rest[i - 1];
    }
  }

  /** Saving the same values twice is the same as saving them once. */
  lemma {:induction false} RewriteIdempotent(notes: seq<Note>, id: int, title: string, content: string, date: string)
    ensures Rewrite(Rewrite(notes, id, title, content, date), id, title, content, date)
         == Rewrite(notes, id, title, content, date)
  {
    if notes != [] {
      RewriteIdempotent(notes[1..], id, title, content, date);
    }
  }

  /** Deleting a freshly created note (with an id no other note has) restores the list. */
  lemma {:induction false} DeleteUndoesCreate(notes: seq<Note>, n: Note)
    requires forall i :: 0 <= i < |notes| ==> notes[i].id != n.id
    ensures RemoveByKey([n] + notes, NoteKey, n.id) == notes
  {
    assert ([n] + notes)[1..] == notes;
    RemoveByKeyAbsent(notes, NoteKey, n.id);
  }

  class NotesPageState {
    var notes: seq<Note>
    var selectedNote: Option<int>
    var title: string
    var content: string
    var isEditing: bool

    constructor ()
      ensures notes == SampleNotes && selectedNote == None && title == "" && content == "" && !isEditing
    {
      notes := SampleNotes;
      selectedNote := None;
      title := "";
      content := "";
      isEditing := false;
    }

    /** `handleSelectNote`: a known id selects that note and loads it for reading; an unknown id changes nothing. */
    method HandleSelectNote(id: int)
      modifies this
      ensures Find(old(notes), id).None? ==> unchanged(this)
      ensures Find(old(notes), id).Some? ==>
        && selectedNote == Some(id) && title == Find(old(notes), id).value.title
        && content == Find(old(notes), id).value.content && !isEditing && notes == old(notes)
    {
      var note := Find(notes, id);
      if note.Some? {
        selectedNote := Some(id);
        title := note.value.title;
        content := note.value.content;
        isEditing := false;
      }
    }

    /** `handleNewNote`: clears the selection and the fields and starts editing. */
    method HandleNewNote()
      modifies this
      ensures selectedNote == None && title == "" && content == "" && isEditing && notes == old(notes)
    {
      selectedNote := None;
      title := "";
      content := "";
      isEditing := true;
    }

    /**
     * `handleSave`: a title that is blank after trimming is refused. With a
     * note selected, rewrites the notes with that id; otherwise prepends a new
     * note with id `now` and selects it. Then stops editing.
     */
    method HandleSave(now: int, today: string)
      modifies this
      ensures IsBlank(old(title)) ==> unchanged(this)
      ensures !IsBlank(old(title)) ==> !isEditing && title == old(title) && content == old(content)
      ensures !IsBlank(old(title)) && Truthy(old(selectedNote)) ==>
        notes == Rewrite(old(notes), old(selectedNote).value, title, content, today) && selectedNote == old(selectedNote)
      ensures !IsBlank(old(title)) && !Truthy(old(selectedNote)) ==>
        notes == [Note(now, title, content, today)] + old(notes) && selectedNote == Some(now)
    {
      if IsBlank(title) {
        return;
      }
      if Truthy(selectedNote) {
        notes := Rewrite(notes, selectedNote.value, title, content, today);
      } else {
        var newNote := Note(now, title, content, today);
        notes := [newNote] + notes;
        selectedNote := Some(newNote.id);
      }
      isEditing := false;
    }

    /** `handleDelete`: without a selection nothing happens; otherwise drops that id and clears the selection and the fields. */
    method HandleDelete()
      modifies this
      ensures !Truthy(old(selectedNote)) ==> unchanged(this)
      ensures Truthy(old(selectedNote)) ==>
        && notes == RemoveByKey(old(notes), NoteKey, old(selectedNote).value)
        && selectedNote == None && title == "" && content == "" && isEditing == old(isEditing)
    {
      if !Truthy(selectedNote) {
        return;
      }
      notes := RemoveByKey(notes, NoteKey, selectedNote.value);
      selectedNote := None;
      title := "";
      content := "";
    }
  }
}
