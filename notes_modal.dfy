/**
 * The notes dialog (app/modules/customers/ui/notes-modal.tsx): the draft
 * of a new note, the guard that decides whether a note is sent, and what
 * happens to the draft afterwards. The note-creation call is a remote call
 * whose outcome is a parameter.
 */
module NotesModal {
  import opened Js

  /** What the note-creation endpoint is asked for. */
  datatype NoteRequest = NoteRequest(customerId: string, content: string)

  /** `handleCreateNote`'s guard and request: nothing is sent without a
      customer or with a draft that is only whitespace; otherwise the
      trimmed draft is sent for that customer. */
  function CreateRequest(customerId: Option<string>, draft: string): (r: Option<NoteRequest>)
    ensures r.None? <==> !Truthy(customerId) || AllWhitespace(draft)
    ensures r.Some? ==> r.value.customerId == customerId.value && r.value.content == Trim(draft)
    ensures r.Some? ==> r.value.content != [] && !IsWhitespace(r.value.content[0])
                        && !IsWhitespace(r.value.content[|r.value.content| - 1])
  {
    TrimEmptyIff(draft);
    var content := Trim(draft);
    if !Truthy(customerId) || content == [] then None
    else Some(NoteRequest(customerId.value, content))
  }

  /** The dialog's state: the draft, and whether the dialog is open. */
  datatype NotesState = NotesState(newNote: string, open: bool)

  /** The draft after `handleCreateNote`: cleared when a note was sent and
      created, kept when nothing was sent or the call failed. */
  function AfterCreate(s: NotesState, request: Option<NoteRequest>, succeeded: bool): (t: NotesState)
    ensures t.open == s.open
    ensures t.newNote == "" <==> (request.Some? && succeeded) || s.newNote == ""
    ensures t.newNote != "" ==> t.newNote == s.newNote
  {
    if request.Some? && succeeded then s.(newNote := "") else s
  }

  /** `handleClose`: the draft is dropped and the dialog asks to close. */
  function AfterClose(s: NotesState): (t: NotesState)
    ensures t.newNote == "" && !t.open
  {
    NotesState("", false)
  }

  /** The Add Note button: disabled while the trimmed draft is empty or a
      note is being created. */
  predicate AddDisabled(draft: string, pending: bool)
    ensures !pending ==> (AddDisabled(draft, pending) <==> AllWhitespace(draft))
    ensures pending ==> AddDisabled(draft, pending)
  {
    TrimEmptyIff(draft);
    Trim(draft) == [] || pending
  }

  /** Add Note is disabled exactly for whitespace-only drafts and while a
      create is pending; when it is enabled and a customer is selected,
      clicking it sends a note. */
  lemma AddDisabledIff(customerId: Option<string>, draft: string, pending: bool)
    ensures AddDisabled(draft, pending) <==> AllWhitespace(draft) || pending
    ensures !AddDisabled(draft, pending) && Truthy(customerId) ==> CreateRequest(customerId, draft).Some?
  {
    TrimEmptyIff(draft);
  }

  /** Text typed while a note is being created is lost when the call
      succeeds: the draft is cleared whatever it holds by then. */
  lemma TypingDuringCreateIsCleared(s: NotesState, customerId: Option<string>, typed: string)
    requires CreateRequest(customerId, s.newNote).Some?
    ensures AfterCreate(s.(newNote := typed), CreateRequest(customerId, s.newNote), true).newNote == ""
    ensures AfterCreate(s.(newNote := typed), CreateRequest(customerId, s.newNote), false).newNote == typed
  {
  }

  /** The "By:" line of a note: shown only when the note has an author. */
  function AuthorLine(author: Option<string>): (r: Option<string>)
    ensures r.None? <==> !Truthy(author)
    ensures r.Some? ==> r.value == "By: " + author.value
  {
    if Truthy(author) then Some("By: " + author.value) else None
  }

  /** The dialog's draft and open flag. */
  class NotesDialog {
    var newNote: string
    var open: bool

    function State(): NotesState
      reads this
    {
      NotesState(newNote, open)
    }

    constructor (open: bool)
      ensures State() == NotesState("", open)
    {
      newNote, this.open := "", open;
    }

    method Type(text: string)
      modifies this
      ensures State() == old(State()).(newNote := text)
    {
      newNote := text;
    }

    /** `handleCreateNote` up to its `await`: the guard, and the request
        sent when it passes. Nothing changes yet. */
    method BeginCreateNote(customerId: Option<string>) returns (request: Option<NoteRequest>)
      ensures request == CreateRequest(customerId, newNote)
    {
      if !Truthy(customerId) || Trim(newNote) == [] {
        return None;
      }
      request := Some(NoteRequest(customerId.value, Trim(newNote)));
    }

    /** `handleCreateNote` after its `await`. The create call's outcome is
        `succeeded`. The text area stays editable while the call is in
        flight, so the draft cleared here is the one in the box now. */
    method FinishCreateNote(request: Option<NoteRequest>, succeeded: bool)
      modifies this
      ensures State() == AfterCreate(old(State()), request, succeeded)
    {
      if request.Some? && succeeded {
        newNote := "";
      }
    }

    method HandleClose()
      modifies this
      ensures State() == AfterClose(old(State()))
    {
      newNote := "";
      open := false;
    }
  }
}
