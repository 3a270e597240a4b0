/**
 * The message box of src/components/chat/chat-input.tsx: one piece of
 * state, the text typed so far, and the guard that decides whether that
 * text is handed to `onSendMessage`. The handler's call of the callback is
 * modelled as the value it returns.
 */
module ChatInput {
  import opened Records
  import opened Text

  /**
   * What `handleSend` passes to `onSendMessage` for the typed text, or
   * None when the guard holds it back: only text that is not all white
   * space is sent, only while no reply is loading and once the model is
   * loaded, and it is sent trimmed.
   */
  function Outgoing(input: string, isLoading: bool, isModelLoaded: bool): (r: Option<string>)
    ensures r.Some? <==> !AllWhitespace(input) && !isLoading && isModelLoaded
    ensures r.Some? ==> r.value == Trim(input) && r.value != ""
  {
    TrimEmptyIff(input);
    if Trim(input) != "" && !isLoading && isModelLoaded then Some(Trim(input)) else None
  }

  /**
   * The text handed to `onSendMessage` is never empty, neither starts nor
   * ends with white space, trimming it again changes nothing, and it is a
   * piece of what was typed with only white space cut from either side.
   */
  lemma SentTextIsClean(input: string, isLoading: bool, isModelLoaded: bool)
    ensures match Outgoing(input, isLoading, isModelLoaded)
            case None => true
            case Some(text) =>
              && text != ""
              && !IsWhitespace(text[0]) && !IsWhitespace(text[|text| - 1])
              && Trim(text) == text
              && exists i, j :: 0 <= i <= j <= |input| && text == input[i..j]
                   && AllWhitespace(input[..i]) && AllWhitespace(input[j..])
  {
    TrimIsInnerPiece(input);
    TrimIdempotent(input);
  }

  /** `disabled={!isModelLoaded || isLoading}` on the text area. */
  predicate TextareaDisabled(isLoading: bool, isModelLoaded: bool) {
    !isModelLoaded || isLoading
  }

  /** `disabled={!input.trim() || isLoading || !isModelLoaded}` on the send button. */
  predicate SendDisabled(input: string, isLoading: bool, isModelLoaded: bool) {
    Trim(input) == "" || isLoading || !isModelLoaded
  }

  /**
   * The send button is disabled exactly when a click would send nothing,
   * and a disabled text area always comes with a disabled button.
   */
  lemma ButtonMatchesGuard(input: string, isLoading: bool, isModelLoaded: bool)
    ensures SendDisabled(input, isLoading, isModelLoaded) <==> Outgoing(input, isLoading, isModelLoaded).None?
    ensures SendDisabled(input, isLoading, isModelLoaded) <==> AllWhitespace(input) || isLoading || !isModelLoaded
    ensures TextareaDisabled(isLoading, isModelLoaded) ==> SendDisabled(input, isLoading, isModelLoaded)
  {
    TrimEmptyIff(input);
  }

  /** The key press that submits: Enter without Shift. */
  predicate Submits(key: string, shiftKey: bool) {
    key == "Enter" && !shiftKey
  }

  class ChatInputBox {
    /** The typed text (`input`). */
    var input: string

    constructor()
      ensures input == ""
    {
      input := "";
    }

    /** The text area's `onChange`: the typed text becomes the new value. */
    method Change(text: string)
      modifies this
      ensures input == text
    {
      input := text;
    }

    /**
     * `handleSend`: hands the trimmed text on when the guard lets it
     * through and then clears the box; otherwise sends nothing and the box
     * keeps its text.
     */
    method HandleSend(isLoading: bool, isModelLoaded: bool) returns (sent: Option<string>)
      modifies this
      ensures sent == Outgoing(old(input), isLoading, isModelLoaded)
      ensures input == if sent.Some? then "" else old(input)
    {
      if Trim(input) != "" && !isLoading && isModelLoaded {
        sent := Some(Trim(input));
        input := "";
      } else {
        sent := None;
      }
    }

    /**
     * `handleKeyPress`: Enter without Shift suppresses the newline and
     * acts as a click on send; any other key leaves everything as it is.
     */
    method HandleKeyPress(key: string, shiftKey: bool, isLoading: bool, isModelLoaded: bool)
      returns (sent: Option<string>, preventDefault: bool)
      modifies this
      ensures preventDefault <==> Submits(key, shiftKey)
      ensures Submits(key, shiftKey) ==> sent == Outgoing(old(input), isLoading, isModelLoaded)
      ensures !Submits(key, shiftKey) ==> sent == None
      ensures input == if sent.Some? then "" else old(input)
    {
      sent, preventDefault := None, false;
      if key == "Enter" && !shiftKey {
        preventDefault := true;
        sent := HandleSend(isLoading, isModelLoaded);
      }
    }
  }
}
