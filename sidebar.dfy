/**
 * The title editor of src/components/enhanced-sidebar.tsx: which
 * conversation is being renamed (`editingId`) and the title typed so far
 * (`editTitle`). A save hands at most one rename to
 * `onUpdateConversationTitle`, modelled as the value the handler returns.
 */
module Sidebar {
  import opened Records
  import opened Text

  /** A call of `onUpdateConversationTitle(id, title)`. */
  datatype TitleChange = TitleChange(id: string, title: string)

  /**
   * The rename a save requests: one for the conversation being edited,
   * when there is one (a null or empty id is falsy) and the typed title is
   * not all white space; the title is sent trimmed.
   */
  function TitleUpdate(editingId: Option<string>, editTitle: string): (r: Option<TitleChange>)
    ensures r.Some? <==> IsSet(editingId) && !AllWhitespace(editTitle)
    ensures r.Some? ==> r.value.id == editingId.value && r.value.title == Trim(editTitle) && r.value.title != ""
  {
    TrimEmptyIff(editTitle);
    if IsSet(editingId) && Trim(editTitle) != "" then Some(TitleChange(editingId.value, Trim(editTitle))) else None
  }

  /**
   * A saved title is never empty, neither starts nor ends with white
   * space, and is left as it is by a further trim.
   */
  lemma SavedTitleIsClean(editingId: Option<string>, editTitle: string)
    ensures match TitleUpdate(editingId, editTitle)
            case None => true
            case Some(change) =>
              && change.id != ""
              && change.title != ""
              && !IsWhitespace(change.title[0]) && !IsWhitespace(change.title[|change.title| - 1])
              && Trim(change.title) == change.title
  {
    TrimIsInnerPiece(editTitle);
    TrimIdempotent(editTitle);
  }

  class TitleEditor {
    /** The id of the conversation being renamed, if any. */
    var editingId: Option<string>
    /** The title typed in the rename box. */
    var editTitle: string

    /** No rename in progress. */
    predicate Idle()
      reads this
    {
      editingId == None && editTitle == ""
    }

    constructor()
      ensures Idle()
    {
      editingId, editTitle := None, "";
    }

    /** `handleEditStart`: the box opens on the conversation with its current title. */
    method HandleEditStart(c: Conversation)
      modifies this
      ensures editingId == Some(c.id) && editTitle == c.title
    {
      editingId, editTitle := Some(c.id), c.title;
    }

    /** The rename box's `onChange`: only the typed title changes. */
    method ChangeTitle(text: string)
      modifies this
      ensures editingId == old(editingId) && editTitle == text
    {
      editTitle := text;
    }

    /**
     * `handleEditSave`: requests the rename the guard lets through, and
     * closes the box whether or not it did.
     */
    method HandleEditSave() returns (update: Option<TitleChange>)
      modifies this
      ensures update == TitleUpdate(old(editingId), old(editTitle))
      ensures Idle()
    {
      if IsSet(editingId) && Trim(editTitle) != "" {
        update := Some(TitleChange(editingId.value, Trim(editTitle)));
      } else {
        update := None;
      }
      editingId, editTitle := None, "";
    }

    /**
     * `handleEditCancel`: closes the box. It has no way to request a
     * rename, which is the model of never calling the callback.
     */
    method HandleEditCancel()
      modifies this
      ensures Idle()
    {
      editingId, editTitle := None, "";
    }

    /** The rename box's key press: Enter saves, any other key does nothing. */
    method HandleTitleKeyPress(key: string) returns (update: Option<TitleChange>)
      modifies this
      ensures key == "Enter" ==> update == TitleUpdate(old(editingId), old(editTitle)) && Idle()
      ensures key != "Enter" ==> update == None && editingId == old(editingId) && editTitle == old(editTitle)
    {
      update := None;
      if key == "Enter" {
        update := HandleEditSave();
      }
    }
  }
}
