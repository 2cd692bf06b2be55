/** The clinical notes panel (src/components/patient/ClinicalNotes.tsx): the
    list of notes, the draft being typed and whether the editor is shown.
    Ids and clocks come in as parameters. */
module ClinicalNotes {
  import opened Strings

  /** `date` is a millisecond timestamp. */
  datatype Note = Note(id: string, text: string, date: int, author: string)

  /** The author every note is signed with. */
  const Author: string := "Dr. Sarah Chen"

  const DayMillis: int := 86400000
  const HalfDayMillis: int := 43200000

  /** `MOCK_NOTES`, dated from the moment the module was loaded. */
  function MockNotes(loadedAt: int): (notes: seq<Note>)
    ensures |notes| == 2
    ensures notes[0].id == "1" && notes[1].id == "2"
    ensures notes[0].date == loadedAt - DayMillis && notes[1].date == loadedAt - HalfDayMillis
  {
    [ Note("1", "Patient admitted with complaints of " + "chest pain and shortness of breath. "
                + "ECG shows sinus tachycardia.", loadedAt - DayMillis, Author),
      Note("2", "Started on Beta blockers. " + "Monitoring BP every 4 hours.",
           loadedAt - HalfDayMillis, Author) ]
  }

  /** A text that starts with something other than whitespace survives `trim`. */
  lemma NotBlank(s: string)
    requires |s| > 0 && !IsJsWhitespace(s[0])
    ensures Trim(s) != ""
  {
    TrimEmptyIffBlank(s);
  }

  /** The state of the panel. */
  class NotesPanel {
    var notes: seq<Note>
    var newNote: string
    var isAdding: bool

    /** Every note in the list is signed by the author and has text
        other than whitespace. */
    predicate Valid()
      reads this
    {
      forall k :: 0 <= k < |notes| ==> notes[k].author == Author && Trim(notes[k].text) != ""
    }

    constructor(loadedAt: int)
      ensures Valid()
      ensures notes == MockNotes(loadedAt) && newNote == "" && !isAdding
    {
      var mock := MockNotes(loadedAt);
      assert mock[0].text[0] == 'P';
      assert mock[1].text[0] == 'S';
      NotBlank(mock[0].text);
      NotBlank(mock[1].text);
      notes := mock;
      newNote := "";
      isAdding := false;
    }

    /** Typing into the text area. */
    method SetDraft(text: string)
      requires Valid()
      modifies this
      ensures Valid()
      ensures newNote == text && notes == old(notes) && isAdding == old(isAdding)
    {
      newNote := text;
    }

    /** The plus button shows the editor when it is hidden and hides it
        when it is shown; the draft and the notes stay. */
    method ToggleAdding()
      requires Valid()
      modifies this
      ensures Valid()
      ensures isAdding == !old(isAdding)
      ensures newNote == old(newNote) && notes == old(notes)
    {
      isAdding := !isAdding;
    }

    /** Cancel hides the editor; it does not clear the draft, which is
        there again when the editor is reopened. */
    method Cancel()
      requires Valid()
      modifies this
      ensures Valid()
      ensures !isAdding
      ensures newNote == old(newNote) && notes == old(notes)
    {
      isAdding := false;
    }

    /** `handleSave`: a draft that is empty or only whitespace changes
        nothing; any other draft becomes a new note, as typed (not trimmed),
        put in front of the others, and the draft is cleared and the editor
        hidden. */
    method HandleSave(uuid: string, now: int) returns (saved: bool)
      requires Valid()
      modifies this
      ensures Valid()
      ensures saved <==> Trim(old(newNote)) != ""
      ensures !saved ==> notes == old(notes) && newNote == old(newNote) && isAdding == old(isAdding)
      ensures saved ==> notes == [Note(uuid, old(newNote), now, Author)] + old(notes)
      ensures saved ==> newNote == "" && !isAdding
    {
      if Trim(newNote) == "" {
        return false;
      }
      var note := Note(uuid, newNote, now, Author);
      notes := [note] + notes;
      newNote := "";
      isAdding := false;
      return true;
    }
  }

  /** Two saves in a row: the second one finds the draft cleared and adds
      nothing, so a double click saves one note. */
  method SaveTwice(p: NotesPanel, uuid1: string, uuid2: string, now: int) returns (first: bool, second: bool)
    requires p.Valid()
    modifies p
    ensures p.Valid()
    ensures !second
    ensures first ==> p.notes == [Note(uuid1, old(p.newNote), now, Author)] + old(p.notes)
    ensures !first ==> p.notes == old(p.notes)
  {
    first := p.HandleSave(uuid1, now);
    if first {
      assert p.newNote == "";
      assert Trim("") == "";
    }
    second := p.HandleSave(uuid2, now);
  }
}
