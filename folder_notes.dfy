/**
 * The folder-and-notes editor of src/components/notes/NotesPage.tsx. Its
 * React state variables are the fields of one object; each handler reads the
 * values of the current render and sets the new ones, so a handler is one
 * method that changes the fields at once. `new Date()` and `Date.now()` are
 * the parameter `now` (milliseconds), and generated ids are `note-<now>` and
 * `folder-<now>`.
 */
module FolderNotes {
  import opened Wrappers
  import opened Strings
  import opened Lists

  datatype Note = Note(id: string, title: string, content: string, lastModified: int)

  /** `expanded` is optional in the source; absent and `false` are treated alike there, and here both are `false`. */
  datatype Folder = Folder(id: string, name: string, notes: seq<Note>, expanded: bool)

  /** The ids that `findIndex` and `filter` compare. */
  function FolderKey(f: Folder): string { f.id }
  function NoteKey(n: Note): string { n.id }

  /** A selection counts only when it is a non-empty string (`!selectedFolder`). */
  predicate Truthy(s: Option<string>) {
    s.Some? && s.value != ""
  }

  /** The decimal digits of a number, as a template literal prints it. */
  function Decimal(n: nat): (r: string)
    ensures |r| >= 1 && forall i :: 0 <= i < |r| ==> IsDigit(r[i])
    ensures |r| == 1 <==> n < 10
  {
    if n < 10 then [(n + 48) as char] else Decimal(n / 10) + [(n % 10 + 48) as char]
  }

  /** Different numbers print differently. */
  lemma {:induction false} DecimalInjective(a: nat, b: nat)
    requires Decimal(a) == Decimal(b)
    ensures a == b
  {
    var da := Decimal(a);
    if a >= 10 && b >= 10 {
      assert da[|da| - 1] == Decimal(b)[|da| - 1];
      assert Decimal(a / 10) == da[..|da| - 1] == Decimal(b)[..|da| - 1] == Decimal(b / 10);
      DecimalInjective(a / 10, b / 10);
    }
  }

  function NoteId(now: nat): string { "note-" + Decimal(now) }
  function FolderId(now: nat): string { "folder-" + Decimal(now) }

  /** Notes created at different milliseconds get different ids. */
  lemma NoteIdsDiffer(a: nat, b: nat)
    requires a != b
    ensures NoteId(a) != NoteId(b)
  {
    if NoteId(a) == NoteId(b) {
      assert Decimal(a) == NoteId(a)[5..] == NoteId(b)[5..] == Decimal(b);
      DecimalInjective(a, b);
    }
  }

  /** The note at `k` with a new title, content and modification time; every other note as it was. */
  function Rewrite(notes: seq<Note>, k: int, title: string, content: string, now: int): (r: seq<Note>)
    requires -1 <= k < |notes|
    ensures |r| == |notes|
    ensures forall j :: 0 <= j < |r| && j != k ==> r[j] == notes[j]
    ensures forall j :: 0 <= j < |r| ==> r[j].id == notes[j].id
    ensures 0 <= k ==> r[k].title == title && r[k].content == content && r[k].lastModified == now
  {
    if k == -1 then notes else notes[k := notes[k].(title := title, content := content, lastModified := now)]
  }

  /** `folders.map(...)` flipping `expanded` on the folders with that id. */
  function Toggle(folders: seq<Folder>, id: string): (r: seq<Folder>)
    ensures |r| == |folders|
  {
    if folders == [] then []
    else [if folders[0].id == id then folders[0].(expanded := !folders[0].expanded) else folders[0]]
         + Toggle(folders[1..], id)
  }

  /** Toggling flips `expanded` on the matching folders and changes nothing else. */
  lemma {:induction false} ToggleOnlyMatching(folders: seq<Folder>, id: string)
    ensures forall i :: 0 <= i < |folders| ==>
      && Toggle(folders, id)[i].id == folders[i].id
      && Toggle(folders, id)[i].name == folders[i].name
      && Toggle(folders, id)[i].notes == folders[i].notes
      && Toggle(folders, id)[i].expanded == (if folders[i].id == id then !folders[i].expanded else folders[i].expanded)
  {
    if folders != [] {
      ToggleOnlyMatching(folders[1..], id);
      assert forall i :: 0 < i < |folders| ==> Toggle(folders, id)[i] == Toggle(folders[1..], id)[i - 1];
    }
  }

  /** Toggling twice restores the folders. */
  lemma {:induction false} ToggleTwice(folders: seq<Folder>, id: string)
    ensures Toggle(Toggle(folders, id), id) == folders
  {
    if folders != [] {
      ToggleTwice(folders[1..], id);
    }
  }

  /**
   * The selection after `deleteFolder` as written: when the deleted folder was
   * selected, the first folder of the list from before the deletion.
   */
  function SelectionAfterDeleteAsWritten(folders: seq<Folder>, selected: Option<string>, id: string): Option<string> {
    if selected == Some(id) then (if |folders| > 0 then Some(folders[0].id) else None) else selected
  }

  /** Deleting the selected first folder leaves it selected although it is gone. */
  lemma DeletedFirstFolderStaysSelected(folders: seq<Folder>)
    requires |folders| > 0
    ensures var id := folders[0].id;
      && SelectionAfterDeleteAsWritten(folders, Some(id), id) == Some(id)
      && IndexOfKey(RemoveByKey(folders, FolderKey, id), FolderKey, id) == -1
  {
    var id := folders[0].id;
    var rest := RemoveByKey(folders, FolderKey, id);
    RemoveByKeyElements(folders, FolderKey, id);
    assert forall i :: 0 <= i < |rest| ==> rest[i] in rest;
  }

  /**
   * The evidently intended selection: when the deleted folder was selected,
   * the first folder that remains, or none.
   */
  function SelectionAfterDelete(folders: seq<Folder>, selected: Option<string>, id: string): (r: Option<string>)
    ensures r != Some(id)
    ensures selected != Some(id) ==> r == selected
    ensures selected == Some(id) ==>
      && (r.None? <==> RemoveByKey(folders, FolderKey, id) == [])
      && (r.Some? ==> IndexOfKey(RemoveByKey(folders, FolderKey, id), FolderKey, r.value) == 0)
  {
    var remaining := RemoveByKey(folders, FolderKey, id);
    if selected == Some(id) then
      if |remaining| > 0 then
        RemoveByKeyElements(folders, FolderKey, id);
        assert remaining[0] in remaining;
        Some(remaining[0].id)
      else None
    else selected
  }

  /** The sample folders the page starts with. */
  function SampleFolders(now: int): seq<Folder> {
    [ Folder("folder-1", "Основные заметки", [
        Note("note-1", "Цели на неделю",
             "1. Пить больше воды\n2. Есть больше овощей\n3. Контролировать размеры порций", now),
        Note("note-2", "Рецепт смузи", "Банан, шпинат, молоко, лед - все взбить в блендере.", now - 86400000)
      ], true),
      Folder("folder-2", "Рецепты", [
        Note("note-3", "Полезный завтрак",
             "Овсянка с ягодами и орехами. Залить кипятком и настоять 10 минут.", now - 172800000)
      ], false) ]
  }

  class FolderNotesPage {
    var folders: seq<Folder>
    var selectedFolder: Option<string>
    var selectedNote: Option<string>
    var isEditingNote: bool
    var isCreatingFolder: bool
    var newFolderName: string
    var noteTitle: string
    var noteContent: string

    constructor (now: int)
      ensures folders == SampleFolders(now) && selectedFolder == Some("folder-1") && selectedNote == None
      ensures !isEditingNote && !isCreatingFolder && newFolderName == "" && noteTitle == "" && noteContent == ""
    {
      folders := SampleFolders(now);
      selectedFolder := Some("folder-1");
      selectedNote := None;
      isEditingNote := false;
      isCreatingFolder := false;
      newFolderName := "";
      noteTitle := "";
      noteContent := "";
    }

    /** `openNote`: with a known folder holding the note, selects both and loads the note for reading; otherwise nothing. */
    method OpenNote(folderId: string, noteId: string)
      modifies this
      ensures var fi := IndexOfKey(old(folders), FolderKey, folderId);
        fi == -1 || IndexOfKey(old(folders)[fi].notes, NoteKey, noteId) == -1 ==> unchanged(this)
      ensures var fi := IndexOfKey(old(folders), FolderKey, folderId);
        fi >= 0 && IndexOfKey(old(folders)[fi].notes, NoteKey, noteId) >= 0 ==>
          var note := old(folders)[fi].notes[IndexOfKey(old(folders)[fi].notes, NoteKey, noteId)];
          && selectedFolder == Some(folderId) && selectedNote == Some(noteId)
          && noteTitle == note.title && noteContent == note.content && !isEditingNote
          && folders == old(folders) && isCreatingFolder == old(isCreatingFolder) && newFolderName == old(newFolderName)
    {
      var fi := IndexOfKey(folders, FolderKey, folderId);
      if fi == -1 {
        return;
      }
      var ni := IndexOfKey(folders[fi].notes, NoteKey, noteId);
      if ni == -1 {
        return;
      }
      var note := folders[fi].notes[ni];
      selectedFolder := Some(folderId);
      selectedNote := Some(noteId);
      noteTitle := note.title;
      noteContent := note.content;
      isEditingNote := false;
    }

    /** `createNewNote`: with a folder selected, clears the note selection and the fields and starts editing. */
    method CreateNewNote()
      modifies this
      ensures !Truthy(old(selectedFolder)) ==> unchanged(this)
      ensures Truthy(old(selectedFolder)) ==>
        && selectedNote == None && noteTitle == "" && noteContent == "" && isEditingNote
        && folders == old(folders) && selectedFolder == old(selectedFolder)
        && isCreatingFolder == old(isCreatingFolder) && newFolderName == old(newFolderName)
    {
      if !Truthy(selectedFolder) {
        return;
      }
      selectedNote := None;
      noteTitle := "";
      noteContent := "";
      isEditingNote := true;
    }

    /**
     * `saveNote`: in the selected folder, rewrites the selected note (an
     * unknown id changes no note) or, with no note selected, appends a new
     * one and selects it; then stops editing. Without a selected folder that
     * exists, nothing happens.
     */
    method SaveNote(now: nat)
      modifies this
      ensures !Truthy(old(selectedFolder)) || IndexOfKey(old(folders), FolderKey, old(selectedFolder).value) == -1 ==> unchanged(this)
      ensures Truthy(old(selectedFolder)) && IndexOfKey(old(folders), FolderKey, old(selectedFolder).value) >= 0 ==>
        var fi := IndexOfKey(old(folders), FolderKey, old(selectedFolder).value);
        var notes := old(folders)[fi].notes;
        && |folders| == |old(folders)| && !isEditingNote
        && (forall i :: 0 <= i < |folders| && i != fi ==> folders[i] == old(folders)[i])
        && folders[fi] == old(folders)[fi].(notes := folders[fi].notes)
        && (Truthy(old(selectedNote)) ==>
              && folders[fi].notes == Rewrite(notes, IndexOfKey(notes, NoteKey, old(selectedNote).value), noteTitle, noteContent, now)
              && selectedNote == old(selectedNote))
        && (!Truthy(old(selectedNote)) ==>
              && folders[fi].notes == notes + [Note(NoteId(now), noteTitle, noteContent, now)]
              && selectedNote == Some(NoteId(now)))
        && selectedFolder == old(selectedFolder) && noteTitle == old(noteTitle) && noteContent == old(noteContent)
        && isCreatingFolder == old(isCreatingFolder) && newFolderName == old(newFolderName)
    {
      if !Truthy(selectedFolder) {
        return;
      }
      var fi := IndexOfKey(folders, FolderKey, selectedFolder.value);
      if fi == -1 {
        return;
      }
      var notes := folders[fi].notes;
      if Truthy(selectedNote) {
        var ni := IndexOfKey(notes, NoteKey, selectedNote.value);
        notes := Rewrite(notes, ni, noteTitle, noteContent, now);
      } else {
        var id := NoteId(now);
        notes := notes + [Note(id, noteTitle, noteContent, now)];
        selectedNote := Some(id);
      }
      folders := folders[fi := folders[fi].(notes := notes)];
      isEditingNote := false;
    }

    /**
     * `deleteNote`: with a folder and a note selected and the folder found,
     * drops the notes with that id from that folder only and clears the note
     * selection and the fields.
     */
    method DeleteNote()
      modifies this
      ensures (|| !Truthy(old(selectedFolder)) || !Truthy(old(selectedNote))
               || IndexOfKey(old(folders), FolderKey, old(selectedFolder).value) == -1) ==> unchanged(this)
      ensures Truthy(old(selectedFolder)) && Truthy(old(selectedNote))
              && IndexOfKey(old(folders), FolderKey, old(selectedFolder).value) >= 0 ==>
        var fi := IndexOfKey(old(folders), FolderKey, old(selectedFolder).value);
        && folders == old(folders)[fi := old(folders)[fi].(notes := RemoveByKey(old(folders)[fi].notes, NoteKey, old(selectedNote).value))]
        && selectedNote == None && noteTitle == "" && noteContent == ""
        && selectedFolder == old(selectedFolder) && isEditingNote == old(isEditingNote)
        && isCreatingFolder == old(isCreatingFolder) && newFolderName == old(newFolderName)
    {
      if !Truthy(selectedFolder) || !Truthy(selectedNote) {
        return;
      }
      var fi := IndexOfKey(folders, FolderKey, selectedFolder.value);
      if fi == -1 {
        return;
      }
      folders := folders[fi := folders[fi].(notes := RemoveByKey(folders[fi].notes, NoteKey, selectedNote.value))];
      selectedNote := None;
      noteTitle := "";
      noteContent := "";
    }

    /** `createFolder`: a name that is blank after trimming is refused; otherwise an empty folder is appended and selected. */
    method CreateFolder(now: nat)
      modifies this
      ensures IsBlank(old(newFolderName)) ==> unchanged(this)
      ensures !IsBlank(old(newFolderName)) ==>
        && folders == old(folders) + [Folder(FolderId(now), old(newFolderName), [], false)]
        && selectedFolder == Some(FolderId(now)) && newFolderName == "" && !isCreatingFolder
        && selectedNote == old(selectedNote) && isEditingNote == old(isEditingNote)
        && noteTitle == old(noteTitle) && noteContent == old(noteContent)
    {
      if IsBlank(newFolderName) {
        return;
      }
      var folder := Folder(FolderId(now), newFolderName, [], false);
      folders := folders + [folder];
      newFolderName := "";
      isCreatingFolder := false;
      selectedFolder := Some(folder.id);
    }

    /**
     * `deleteFolder`: drops the folders with that id; when it was the
     * selected one, clears the note selection and selects the first folder
     * of the list from before the deletion (see `SelectionAfterDeleteAsWritten`
     * and, for the evidently intended rule, `SelectionAfterDelete`).
     */
    method DeleteFolder(folderId: string)
      modifies this
      ensures folders == RemoveByKey(old(folders), FolderKey, folderId)
      ensures selectedFolder == SelectionAfterDeleteAsWritten(old(folders), old(selectedFolder), folderId)
      ensures selectedNote == if old(selectedFolder) == Some(folderId) then None else old(selectedNote)
      ensures isEditingNote == old(isEditingNote) && isCreatingFolder == old(isCreatingFolder)
      ensures newFolderName == old(newFolderName) && noteTitle == old(noteTitle) && noteContent == old(noteContent)
    {
      var selection := SelectionAfterDeleteAsWritten(folders, selectedFolder, folderId);
      if selectedFolder == Some(folderId) {
        selectedNote := None;
      }
      folders := RemoveByKey(folders, FolderKey, folderId);
      selectedFolder := selection;
    }

    /** `toggleFolder`: flips `expanded` on the folders with that id. */
    method ToggleFolder(folderId: string)
      modifies this
      ensures folders == Toggle(old(folders), folderId)
      ensures selectedFolder == old(selectedFolder) && selectedNote == old(selectedNote)
      ensures isEditingNote == old(isEditingNote) && isCreatingFolder == old(isCreatingFolder)
      ensures newFolderName == old(newFolderName) && noteTitle == old(noteTitle) && noteContent == old(noteContent)
    {
      folders := Toggle(folders, folderId);
    }
  }
}
