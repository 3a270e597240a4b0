/**
 * The single-conversation chat hook of src/hooks/use-local-chat.ts. It keeps
 * one message list, persisted as JSON text under one local-storage key;
 * the slot is modelled as the value that key holds, if any.
 *
 * JSON text itself is not modelled: a stored value is either the parsed
 * list of records `saveMessages` wrote, a blank string, or text that does
 * not parse as such a list. A record carries the date as milliseconds,
 * which the ISO string `JSON.stringify` writes and `new Date` reads back.
 */
module LocalChat {
  import opened Records
  import opened Engine

  datatype ChatState = ChatState(
    messages: seq<Message>,
    isLoading: bool,
    modelStatus: string,
    isModelLoaded: bool)

  const InitialState := ChatState([], false, NotInitializedStatus, false)

  /** The local-storage key that holds the serialised list. */
  const StorageKey := "local-chat-messages"

  /** A message as `JSON.stringify` writes it: the date becomes its ISO text, here its milliseconds. */
  datatype Record = Record(id: string, role: Role, content: string, createdAt: int)

  /** What the storage key holds. */
  datatype Stored =
    | Json(records: seq<Record>)  // a list of message records
    | Blank                       // the empty string, which `if (saved)` skips
    | Unparsable                  // text that `JSON.parse` or the `map` over it rejects

  /** `JSON.stringify(messages)`. */
  function Serialize(ms: seq<Message>): (rs: seq<Record>)
    ensures |rs| == |ms|
    ensures forall i :: 0 <= i < |ms| ==> rs[i].id == ms[i].id && rs[i].content == ms[i].content
  {
    seq(|ms|, i requires 0 <= i < |ms| => Record(ms[i].id, ms[i].role, ms[i].content, ms[i].createdAt))
  }

  /** `JSON.parse(saved).map(msg => ({ ...msg, createdAt: new Date(msg.createdAt) }))`. */
  function Deserialize(rs: seq<Record>): (ms: seq<Message>)
    ensures |ms| == |rs|
    ensures forall i :: 0 <= i < |rs| ==> ms[i].id == rs[i].id && ms[i].content == rs[i].content
  {
    seq(|rs|, i requires 0 <= i < |rs| => Message(rs[i].id, rs[i].role, rs[i].content, rs[i].createdAt))
  }

  /** Loading what was saved gives back the same messages: id, role, content and date. */
  lemma SaveLoadRoundTrip(ms: seq<Message>)
    ensures Deserialize(Serialize(ms)) == ms
  {
    var back := Deserialize(Serialize(ms));
    forall i | 0 <= i < |ms| ensures back[i] == ms[i] {
    }
  }

  /** The status text a state shows. */
  function ModelStatus(s: ChatState): string {
    s.modelStatus
  }

  class LocalChatController {
    var state: ChatState
    /** Whether `engineRef.current` holds an engine. */
    var hasEngine: bool
    /** What `localStorage` holds under `StorageKey`, if anything. */
    var slot: Option<Stored>
    /** Whether `setItem` succeeds; when it throws (a full quota), the error is swallowed. */
    const storageWritable: bool
    /** Every state handed to the view, one per `setState`, in order. */
    ghost var published: seq<ChatState>

    constructor (slot: Option<Stored>, storageWritable: bool)
      ensures state == InitialState && !hasEngine && published == []
      ensures this.slot == slot && this.storageWritable == storageWritable
    {
      state := InitialState;
      hasEngine := false;
      this.slot := slot;
      this.storageWritable := storageWritable;
      published := [];
    }

    /** `setState`: the view sees the new state. */
    method SetState(s: ChatState)
      modifies this`state, this`published
      ensures state == s && published == old(published) + [s]
    {
      state := s;
      published := published + [s];
    }

    /**
     * `loadMessages`: a stored list replaces the messages; a missing key,
     * a blank value or text that does not parse leaves the state alone.
     */
    method LoadMessages()
      modifies this`state, this`published
      ensures slot.Some? && slot.value.Json? ==>
                state == old(state).(messages := Deserialize(slot.value.records))
                && published == old(published) + [state]
      ensures !(slot.Some? && slot.value.Json?) ==> state == old(state) && published == old(published)
    {
      if slot.Some? && slot.value.Json? {
        SetState(state.(messages := Deserialize(slot.value.records)));
      }
    }

    /** `saveMessages(ms)`: write the list under the key, or swallow the failure. */
    method SaveMessages(ms: seq<Message>)
      modifies this`slot
      ensures slot == if storageWritable then Some(Json(Serialize(ms))) else old(slot)
    {
      if storageWritable {
        slot := Some(Json(Serialize(ms)));
      }
    }

    /** `clearMessages`: empty the list and remove the key. */
    method ClearMessages()
      modifies this`state, this`published, this`slot
      ensures state == old(state).(messages := []) && slot == None
      ensures published == old(published) + [state]
    {
      SetState(state.(messages := []));
      slot := None;
    }

    /** `setState` of a new model status, which the view shows. */
    method ShowStatus(status: string, loaded: bool)
      modifies this`state, this`published
      ensures state == old(state).(modelStatus := status, isModelLoaded := loaded)
      ensures Statuses(published, ModelStatus) == Statuses(old(published), ModelStatus) + [status]
    {
      SetState(state.(modelStatus := status, isModelLoaded := loaded));
      StatusesAppend(old(published), state, ModelStatus);
    }

    /**
     * `initializeEngine`: publish the loading notice, one status per
     * progress report, then the ready notice or the failure notice. A failed
     * load leaves `isModelLoaded` and the engine as they were.
     */
    method InitializeEngine(reports: seq<string>, loads: bool)
      modifies this`state, this`published, this`hasEngine
      ensures state == old(state).(modelStatus := if loads then ReadyStatus else FailedStatus,
                                   isModelLoaded := old(state.isModelLoaded) || loads)
      ensures hasEngine == (old(hasEngine) || loads)
      ensures Statuses(published, ModelStatus) == Statuses(old(published), ModelStatus) + StatusTrace(reports, loads)
    {
      ghost var start := Statuses(published, ModelStatus);
      ShowStatus(LoadingStatus, state.isModelLoaded);
      var i := 0;
      while i < |reports|
        invariant 0 <= i <= |reports|
        invariant state == old(state).(modelStatus := state.modelStatus)
        invariant hasEngine == old(hasEngine)
        invariant Statuses(published, ModelStatus) == start + ([LoadingStatus] + ProgressStatuses(reports[..i]))
      {
        ghost var shown := [LoadingStatus] + ProgressStatuses(reports[..i]);
        ShowStatus(ProgressStatus(reports[i]), state.isModelLoaded);
        ProgressStatusesStep(reports, i);
        assert start + shown + [ProgressStatus(reports[i])] == start + (shown + [ProgressStatus(reports[i])]);
        i := i + 1;
      }
      assert reports[..i] == reports;
      ghost var shown := [LoadingStatus] + ProgressStatuses(reports);
      var final := if loads then ReadyStatus else FailedStatus;
      assert StatusTrace(reports, loads) == shown + [final];
      if loads {
        hasEngine := true;
      }
      ShowStatus(final, state.isModelLoaded || loads);
      assert start + shown + [final] == start + (shown + [final]);
    }

    /** The step `sendMessage` repeats: show `ms` with the loading flag set, then save it. */
    method ShowAndSave(ms: seq<Message>)
      modifies this`state, this`published, this`slot
      ensures state == old(state).(messages := ms, isLoading := true)
      ensures slot == if storageWritable then Some(Json(Serialize(ms))) else old(slot)
      ensures published == old(published) + [state]
    {
      SetState(state.(messages := ms, isLoading := true));
      SaveMessages(ms);
    }

    /**
     * The reply is streaming from `start`: the view shows `before` and the
     * reply carrying `text`, the slot holds that list when storage is
     * writable and `stored` otherwise, and every state shown since `log`
     * is a snapshot of the reply growing towards `final`.
     */
    ghost predicate Streaming(start: ChatState, log: seq<ChatState>, stored: Option<Stored>,
                              before: seq<Message>, placeholder: Message, text: string, final: string)
      reads this
    {
      && state == start.(messages := before + [placeholder.(content := text)])
      && slot == (if storageWritable then Some(Json(Serialize(state.messages))) else stored)
      && log <= published && |log| < |published| && published[|published| - 1] == state
      && forall k :: |log| <= k < |published| ==> StreamView(published[k].isLoading, published[k].messages, before, placeholder, final)
    }

    /** One delta of the stream: the reply now carries `text`, which is shown and saved. */
    method ShowDelta(ghost start: ChatState, ghost log: seq<ChatState>, ghost stored: Option<Stored>,
                     before: seq<Message>, placeholder: Message, ghost previous: string, text: string,
                     ghost final: string)
      requires Streaming(start, log, stored, before, placeholder, previous, final)
      requires !HasMessageId(before, placeholder.id) && text <= final
      modifies this`state, this`published, this`slot
      ensures Streaming(start, log, stored, before, placeholder, text, final)
      ensures old(published) <= published
    {
      var updated := ReplaceContent(before + [placeholder], placeholder.id, text);
      ReplaceLast(before, placeholder, text);
      assert StreamSnapshot(updated, before, placeholder, final);
      ShowAndSave(updated);
    }

    /** The streaming loop of `sendMessage`: each delta extends the reply, which is shown and saved. */
    method StreamReply(ghost start: ChatState, ghost log: seq<ChatState>, ghost stored: Option<Stored>,
                       before: seq<Message>, placeholder: Message, chunks: seq<Option<string>>)
      requires Streaming(start, log, stored, before, placeholder, "", Merged(chunks))
      requires !HasMessageId(before, placeholder.id)
      modifies this`state, this`published, this`slot
      ensures Streaming(start, log, stored, before, placeholder, Merged(chunks), Merged(chunks))
      ensures old(published) <= published
    {
      var fullContent := "";
      var i := 0;
      while i < |chunks|
        invariant 0 <= i <= |chunks|
        invariant fullContent == Merged(chunks[..i])
        invariant Streaming(start, log, stored, before, placeholder, fullContent, Merged(chunks))
        invariant old(published) <= published
      {
        var chunk := chunks[i];
        MergedStep(chunks, i);
        if IsDelta(chunk) {
          ghost var previous := fullContent;
          fullContent := fullContent + chunk.value;
          ShowDelta(start, log, stored, before, placeholder, previous, fullContent, Merged(chunks));
        }
        i := i + 1;
      }
      assert chunks[..i] == chunks;
    }

    /**
     * The opening of a reply: show and save the user message with the
     * loading flag set, then the same list with the empty reply after it.
     */
    method BeginReply(user: Message, placeholder: Message, ghost final: string)
      requires placeholder.content == ""
      modifies this`state, this`published, this`slot
      ensures Streaming(old(state).(isLoading := true), old(published), old(slot),
                        old(state.messages) + [user], placeholder, "", final)
      ensures published[|old(published)|].messages == old(state.messages) + [user]
    {
      var newMessages := state.messages + [user];
      assert StreamSnapshot(newMessages, newMessages, placeholder, final);
      assert StreamSnapshot(newMessages + [placeholder], newMessages, placeholder, final);
      ShowAndSave(newMessages);
      ShowAndSave(newMessages + [placeholder]);
      assert placeholder.(content := "") == placeholder;
    }

    /**
     * `sendMessage(content)` with fresh ids for the user message and the
     * reply, one clock reading `now`, and the completion the engine streams
     * back. Without an engine it does nothing.
     *
     * `mark` is the position in `published` of the state that first shows
     * the user message: from there until the last state, `isLoading` holds
     * and the message list only ever shows the reply growing.
     */
    method SendMessage(content: string, userId: string, assistantId: string, now: int, completion: Completion)
      returns (ghost mark: nat)
      requires userId != assistantId
      requires !HasMessageId(state.messages, userId) && !HasMessageId(state.messages, assistantId)
      modifies this`state, this`published, this`slot
      ensures !old(hasEngine) ==> state == old(state) && published == old(published) && slot == old(slot)
      ensures old(hasEngine) ==>
                var user := Message(userId, User, content, now);
                var placeholder := Message(assistantId, Assistant, "", now);
                && state == old(state).(messages := AfterSend(old(state.messages), user, placeholder, completion.chunks),
                                        isLoading := false)
                && slot == (if storageWritable then Some(Json(Serialize(state.messages))) else old(slot))
                && old(published) <= published
                && |old(published)| <= mark < |published| - 1
                && published[mark].messages == old(state.messages) + [user]
                && (forall k :: mark <= k < |published| - 1 ==>
                      StreamView(published[k].isLoading, published[k].messages, old(state.messages) + [user], placeholder, Merged(completion.chunks)))
                && published[|published| - 1] == state
    {
      if !hasEngine {
        return 0;
      }
      var user := Message(userId, User, content, now);
      var placeholder := Message(assistantId, Assistant, "", now);
      AppendAbsent(state.messages, user, assistantId);
      mark := |published|;
      ghost var start := state.(isLoading := true);
      ghost var stored := slot;
      var newMessages := state.messages + [user];
      BeginReply(user, placeholder, Merged(completion.chunks));
      StreamReply(start, old(published), stored, newMessages, placeholder, completion.chunks);
      assert state.messages == AfterSend(old(state.messages), user, placeholder, completion.chunks);
      ghost var streamed := published;
      // A stream that ends and a stream that throws both clear `isLoading`.
      SetState(state.(isLoading := false));
      assert forall k :: mark <= k < |published| - 1 ==> published[k] == streamed[k];
    }
  }

  /** Saving a list and loading it back into any state shows exactly that list. */
  method SaveThenLoad(chat: LocalChatController, ms: seq<Message>)
    requires chat.storageWritable
    modifies chat`slot, chat`state, chat`published
    ensures chat.state == old(chat.state).(messages := ms)
  {
    chat.SaveMessages(ms);
    SaveLoadRoundTrip(ms);
    chat.LoadMessages();
  }
}
