/**
 * The quick-notes widget: at most ten short notes, newest first, each with
 * a colour picked at random from five; persisted under `nexus_notes`.
 */
module QuickNotes {
  import opened Wrappers
  import opened JsText
  import opened ListOps

  /** The most notes the widget accepts. */
  const MaxNotes: nat := 10

  /** The five note colours, in the order of the source's list. */
  datatype NoteColor = Amber | Emerald | Sky | Rose | Violet

  const Colors: seq<NoteColor> := [Amber, Emerald, Sky, Rose, Violet]

  /** The style classes each colour stands for. */
  function ColorClass(c: NoteColor): string {
    match c
    case Amber => "bg-amber-100 dark:bg-amber-900/40 text-amber-900 dark:text-amber-100 border-amber-200 dark:border-amber-800"
    case Emerald => "bg-emerald-100 dark:bg-emerald-900/40 text-emerald-900 dark:text-emerald-100 border-emerald-200 dark:border-emerald-800"
    case Sky => "bg-sky-100 dark:bg-sky-900/40 text-sky-900 dark:text-sky-100 border-sky-200 dark:border-sky-800"
    case Rose => "bg-rose-100 dark:bg-rose-900/40 text-rose-900 dark:text-rose-100 border-rose-200 dark:border-rose-800"
    case Violet => "bg-violet-100 dark:bg-violet-900/40 text-violet-900 dark:text-violet-100 border-violet-200 dark:border-violet-800"
  }

  datatype Note = Note(id: string, text: string, color: NoteColor, createdAt: int)

  function NoteId(n: Note): string {
    n.id
  }

  /** `handleAdd`: `None` when the text is blank or the board is full;
      `colorIndex` is the random pick `floor(random * 5)`. */
  function AddNote(notes: seq<Note>, text: string, newId: string, colorIndex: nat, now: int): Option<seq<Note>>
    requires colorIndex < |Colors|
  {
    if IsBlank(text) || |notes| >= MaxNotes then None
    else Some([Note(newId, Trim(text), Colors[colorIndex], now)] + notes)
  }

  /** A note is added exactly when the text is not blank and fewer than ten
      notes exist; it goes in front with the trimmed text and one of the
      five colours, so adding never takes the board past ten. */
  lemma AddNoteSpec(notes: seq<Note>, text: string, newId: string, colorIndex: nat, now: int)
    requires colorIndex < |Colors|
    ensures AddNote(notes, text, newId, colorIndex, now).Some? <==> !IsBlank(text) && |notes| < MaxNotes
    ensures AddNote(notes, text, newId, colorIndex, now).Some? ==>
      var r := AddNote(notes, text, newId, colorIndex, now).value;
      && |r| == |notes| + 1 && r[1..] == notes
      && r[0].id == newId && r[0].text == Trim(text) && r[0].text != "" && r[0].color in Colors
    ensures |notes| <= MaxNotes && AddNote(notes, text, newId, colorIndex, now).Some? ==>
      |AddNote(notes, text, newId, colorIndex, now).value| <= MaxNotes
  {
  }

  class NotesBoard {
    var notes: seq<Note>
    var isAdding: bool
    var newNoteText: string
    /** What is stored under `nexus_notes`, rewritten after every change. */
    var stored: seq<Note>

    ghost predicate Valid()
      reads this
    {
      stored == notes
    }

    /** The initial state: the stored notes, or none. */
    constructor (saved: Option<seq<Note>>)
      ensures Valid()
      ensures notes == saved.GetOr([]) && !isAdding && newNoteText == ""
    {
      notes := saved.GetOr([]);
      stored := saved.GetOr([]);
      isAdding := false;
      newNoteText := "";
    }

    /** The add button: opens the form only while fewer than ten notes exist. */
    method OpenForm()
      modifies this
      ensures isAdding == (old(isAdding) || |notes| < MaxNotes)
      ensures notes == old(notes) && newNoteText == old(newNoteText) && stored == old(stored)
    {
      if |notes| < MaxNotes {
        isAdding := true;
      }
    }

    /** Escape or the close button. */
    method CloseForm()
      modifies this
      ensures !isAdding
      ensures notes == old(notes) && newNoteText == old(newNoteText) && stored == old(stored)
    {
      isAdding := false;
    }

    method SetText(text: string)
      modifies this
      ensures newNoteText == text
      ensures notes == old(notes) && isAdding == old(isAdding) && stored == old(stored)
    {
      newNoteText := text;
    }

    /** `handleAdd`: on success the text is cleared and the form closes;
        otherwise nothing changes. */
    method HandleAdd(newId: string, colorIndex: nat, now: int)
      requires Valid() && colorIndex < |Colors|
      modifies this
      ensures Valid()
      ensures var r := AddNote(old(notes), old(newNoteText), newId, colorIndex, now);
        if r.Some? then notes == r.value && newNoteText == "" && !isAdding
        else notes == old(notes) && newNoteText == old(newNoteText) && isAdding == old(isAdding)
    {
      if IsBlank(newNoteText) || |notes| >= MaxNotes {
        return;
      }
      var note := Note(newId, Trim(newNoteText), Colors[colorIndex], now);
      notes := [note] + notes;
      stored := notes;
      newNoteText := "";
      isAdding := false;
    }

    /** `deleteNote(id)`. */
    method DeleteNote(id: string)
      requires Valid()
      modifies this
      ensures Valid()
      ensures notes == WithoutKey(old(notes), NoteId, id)
      ensures isAdding == old(isAdding) && newNoteText == old(newNoteText)
    {
      notes := WithoutKey(notes, NoteId, id);
      stored := notes;
    }
  }
}
