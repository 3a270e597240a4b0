/**
 * The multi-conversation chat hook of src/hooks/use-enhanced-chat.ts. Its
 * state is the `ChatState` record; every `setState` callback is a pure
 * transition over that record, and the hook's operations run those
 * transitions in sequence around calls to the local store.
 *
 * Each operation of the hook is a closure over the state of the render
 * that created it. The model runs one operation at a time, so "the state
 * the closure captured" is the state when the operation starts; inside
 * `sendMessage`, the `saveMessages` it calls keeps reading that captured
 * state even after `createConversation` or a stream update has moved on.
 */
module EnhancedChat {
  import opened Records
  import opened Engine
  import Db

  datatype ChatState = ChatState(
    messages: seq<Message>,
    conversations: seq<Conversation>,
    currentConversationId: Option<string>,
    isLoading: bool,
    modelStatus: string,
    isModelLoaded: bool)

  const InitialState := ChatState([], [], None, false, NotInitializedStatus, false)

  /** The title `createConversation` uses when none is passed. */
  const DefaultTitle := "New Chat"

  /** No two conversations of the list share an id. */
  predicate UniqueConversationIds(cs: seq<Conversation>) {
    forall i, j :: 0 <= i < j < |cs| ==> cs[i].id != cs[j].id
  }

  /** `a` lists conversations with the ids of `b`, in the same order. */
  predicate SameIds(a: seq<Conversation>, b: seq<Conversation>) {
    |a| == |b| && forall i :: 0 <= i < |a| ==> a[i].id == b[i].id
  }

  /** The current id, when there is one, names a conversation of the list. */
  predicate CurrentListed(s: ChatState) {
    s.currentConversationId.Some? ==> Names(s.conversations, s.currentConversationId.value)
  }

  /** `conversations.find(c => c.id === id)`: the first conversation with that id. */
  function Find(cs: seq<Conversation>, id: string): (r: Option<Conversation>)
    ensures r.None? <==> !Names(cs, id)
    ensures r.Some? ==> exists i :: 0 <= i < |cs| && cs[i] == r.value && r.value.id == id
                          && forall j :: 0 <= j < i ==> cs[j].id != id
  {
    if cs == [] then None
    else if cs[0].id == id then Some(cs[0])
    else
      var r := Find(cs[1..], id);
      assert Names(cs, id) ==> Names(cs[1..], id) by {
        if Names(cs, id) {
          var k :| 0 <= k < |cs| && cs[k].id == id;
          assert cs[1..][k - 1].id == id;
        }
      }
      if r.Some? then
        var i :| 0 <= i < |cs[1..]| && cs[1..][i] == r.value && r.value.id == id
                 && forall j :: 0 <= j < i ==> cs[1..][j].id != id;
        assert cs[i + 1] == r.value && forall j :: 0 <= j < i + 1 ==> cs[j].id != id;
        r
      else r
  }

  /**
   * `conversations.filter(c => c.id !== id)`: drops exactly the
   * conversations with that id, every copy of them, and keeps every other
   * entry as often as it occurs, in order.
   */
  function Without(cs: seq<Conversation>, id: string): (r: seq<Conversation>)
    ensures forall c :: c in r <==> c in cs && c.id != id
    ensures IsSubsequence(r, cs)
  {
    if cs == [] then []
    else
      if cs[0].id != id then
        var rest := Without(cs[1..], id);
        assert ([cs[0]] + rest)[1..] == rest;
        [cs[0]] + rest
      else
        var rest := Without(cs[1..], id);
        assert rest != [] ==> IsSubsequence(rest, cs[1..]);
        rest
  }

  /**
   * `filter` keeps every conversation with another id as often as it
   * occurred, and none with this id.
   */
  lemma {:induction false} WithoutCounts(cs: seq<Conversation>, id: string)
    ensures forall c :: multiset(Without(cs, id))[c] == if c.id != id then multiset(cs)[c] else 0
  {
    if cs != [] {
      WithoutCounts(cs[1..], id);
      assert cs == [cs[0]] + cs[1..];
    }
  }

  /** `conversations.map(c => c.id === id ? updated : c)`. */
  function Replaced(cs: seq<Conversation>, id: string, updated: Conversation): (r: seq<Conversation>)
    requires updated.id == id
    ensures SameIds(r, cs)
    ensures forall i :: 0 <= i < |cs| && cs[i].id != id ==> r[i] == cs[i]
    ensures forall i :: 0 <= i < |cs| && cs[i].id == id ==> r[i] == updated
  {
    seq(|cs|, i requires 0 <= i < |cs| => if cs[i].id == id then updated else cs[i])
  }

  /**
   * The `createConversation` transition: the new conversation goes in
   * front, the message list empties and the new conversation is current.
   */
  function Created(s: ChatState, c: Conversation): (r: ChatState)
    ensures r.conversations == [c] + s.conversations
    ensures r.messages == [] && r.currentConversationId == Some(c.id)
    ensures r.isLoading == s.isLoading && r.modelStatus == s.modelStatus && r.isModelLoaded == s.isModelLoaded
    ensures CurrentListed(r)
    ensures UniqueConversationIds(s.conversations) && !Names(s.conversations, c.id) ==> UniqueConversationIds(r.conversations)
  {
    var r := s.(conversations := [c] + s.conversations, messages := [], currentConversationId := Some(c.id));
    assert r.conversations[0].id == c.id;
    r
  }

  /**
   * The `deleteConversation` transition. When the deleted conversation was
   * current, the first remaining one (in list order) becomes current, or
   * none; the message list is kept only while some id is current.
   */
  function Deleted(s: ChatState, cid: string): (r: ChatState)
    ensures forall c :: c in r.conversations <==> c in s.conversations && c.id != cid
    ensures IsSubsequence(r.conversations, s.conversations)
    ensures r.currentConversationId != Some(cid)
    ensures s.currentConversationId == Some(cid) ==>
              r.currentConversationId == if r.conversations != [] && r.conversations[0].id != ""
                                         then Some(r.conversations[0].id) else None
    ensures s.currentConversationId != Some(cid) ==> r.currentConversationId == s.currentConversationId
    ensures r.messages == if IsSet(r.currentConversationId) then s.messages else []
    ensures r.isLoading == s.isLoading && r.modelStatus == s.modelStatus && r.isModelLoaded == s.isModelLoaded
    ensures CurrentListed(s) ==> CurrentListed(r)
  {
    var rest := Without(s.conversations, cid);
    var next := if s.currentConversationId == Some(cid) then
                  (if rest != [] && rest[0].id != "" then Some(rest[0].id) else None)
                else s.currentConversationId;
    var r := s.(conversations := rest, currentConversationId := next,
                messages := if IsSet(next) then s.messages else []);
    assert CurrentListed(s) ==> CurrentListed(r) by {
      if CurrentListed(s) && next.Some? {
        if s.currentConversationId == Some(cid) {
          assert rest[0] in rest;
        } else {
          var k :| 0 <= k < |s.conversations| && s.conversations[k].id == next.value;
          assert s.conversations[k] in rest;
          var m :| 0 <= m < |rest| && rest[m] == s.conversations[k];
        }
      }
    }
    r
  }

  /** A title change or a timestamp bump keeps which conversations exist and their order. */
  lemma ReplacedKeepsCurrentListed(s: ChatState, id: string, updated: Conversation)
    requires updated.id == id && CurrentListed(s)
    ensures CurrentListed(s.(conversations := Replaced(s.conversations, id, updated)))
    ensures UniqueConversationIds(s.conversations) ==> UniqueConversationIds(Replaced(s.conversations, id, updated))
  {
    var r := Replaced(s.conversations, id, updated);
    if s.currentConversationId.Some? {
      var k :| 0 <= k < |s.conversations| && s.conversations[k].id == s.currentConversationId.value;
      assert r[k].id == s.currentConversationId.value;
    }
  }

  /**
   * The conversation the captured `saveMessages` writes back after a
   * successful save: the first listed conversation with the captured
   * current id, its `updatedAt` set to `now`. None when no id is current,
   * when the captured list does not hold it, or when the store is closed.
   */
  function SaveBump(captured: ChatState, ready: bool, now: int): (r: Option<Conversation>)
    ensures r.Some? <==> ready && IsSet(captured.currentConversationId)
                         && Names(captured.conversations, captured.currentConversationId.value)
    ensures r.Some? ==> && r.value.id == captured.currentConversationId.value
                        && r.value.updatedAt == now
                        && r.value == Find(captured.conversations, r.value.id).value.(updatedAt := now)
  {
    if !ready || !IsSet(captured.currentConversationId) then None
    else match Find(captured.conversations, captured.currentConversationId.value)
      case None => None
      case Some(c) => Some(c.(updatedAt := now))
  }

  /** The conversations table once `bump`, if any, is `put`. */
  function BumpedTable(t: map<string, Conversation>, bump: Option<Conversation>): (r: map<string, Conversation>)
    ensures bump.None? ==> r == t
    ensures bump.Some? ==> r.Keys == t.Keys + {bump.value.id} && r[bump.value.id] == bump.value
    ensures forall k :: k in t && (bump.None? || k != bump.value.id) ==> k in r && r[k] == t[k]
  {
    if bump.Some? then t[bump.value.id := bump.value] else t
  }

  /** The conversation list once `bump`, if any, replaces its entries in place. */
  function BumpedList(cs: seq<Conversation>, bump: Option<Conversation>): (r: seq<Conversation>)
    ensures SameIds(r, cs)
    ensures bump.None? ==> r == cs
    ensures bump.Some? ==> r == Replaced(cs, bump.value.id, bump.value)
  {
    if bump.Some? then Replaced(cs, bump.value.id, bump.value) else cs
  }

  /** Every save of one send writes the same bump, so a second one changes nothing more. */
  lemma BumpTwice(cs: seq<Conversation>, t: map<string, Conversation>, bump: Option<Conversation>)
    ensures BumpedList(BumpedList(cs, bump), bump) == BumpedList(cs, bump)
    ensures BumpedTable(BumpedTable(t, bump), bump) == BumpedTable(t, bump)
  {
    if bump.Some? {
      var once := BumpedList(cs, bump);
      var twice := BumpedList(once, bump);
      forall i | 0 <= i < |cs| ensures twice[i] == once[i] {
      }
    }
  }

  /** The status text a state shows. */
  function ModelStatus(s: ChatState): string {
    s.modelStatus
  }

  /**
   * A delta keeps the reply's list well formed: with `text` in place of
   * `previous` the ids are still distinct and the list is still a
   * snapshot of the reply growing towards `final`.
   */
  lemma DeltaKeepsSnapshot(shown: seq<Message>, before: seq<Message>, placeholder: Message,
                           previous: string, text: string, final: string)
    requires shown == before + [placeholder.(content := previous)] && UniqueIds(shown)
    requires !HasMessageId(before, placeholder.id) && text <= final
    ensures ReplaceContent(before + [placeholder], placeholder.id, text) == before + [placeholder.(content := text)]
    ensures UniqueIds(before + [placeholder.(content := text)])
    ensures StreamSnapshot(before + [placeholder.(content := text)], before, placeholder, final)
  {
    ReplaceLast(before, placeholder, text);
    var updated := before + [placeholder.(content := text)];
    forall i, j | 0 <= i < j < |updated| ensures updated[i].id != updated[j].id {
      assert updated[i].id == shown[i].id && updated[j].id == shown[j].id;
    }
    assert updated[..|before|] == before;
  }

  class ChatController {
    var state: ChatState
    /** Whether `engineRef.current` holds an engine. */
    var hasEngine: bool
    const db: Db.LocalDatabase
    /** Every state handed to the view, one per `setState`, in order. */
    ghost var published: seq<ChatState>

    ghost predicate Valid()
      reads this, db
    {
      db.Valid() && UniqueIds(state.messages)
    }

    constructor (db: Db.LocalDatabase)
      requires db.Valid()
      ensures Valid() && this.db == db
      ensures state == InitialState && !hasEngine && published == []
    {
      this.db := db;
      state := InitialState;
      hasEngine := false;
      published := [];
    }

    /** `setState`: the view sees the new state. */
    method SetState(s: ChatState)
      modifies this`state, this`published
      ensures state == s && published == old(published) + [s]
    {
      state := s;
      published := published + [s];
    }

    /**
     * The mount effect: open the store, show its conversations newest
     * first, and load the most recent one.
     */
    method Mount(openSucceeds: bool)
      requires Valid()
      modifies this`state, this`published, db`ready
      ensures Valid()
      ensures db.conversations == old(db.conversations) && db.messages == old(db.messages)
      ensures db.ready == (old(db.ready) || openSucceeds)
      ensures !openSucceeds ==> state == old(state) && published == old(published)
      ensures openSucceeds ==> Db.ListsConversations(state.conversations, db.conversations)
      ensures openSucceeds ==> state.isLoading == old(state.isLoading) && state.modelStatus == old(state.modelStatus)
                               && state.isModelLoaded == old(state.isModelLoaded)
      ensures openSucceeds && state.conversations == [] ==>
                state.messages == old(state.messages) && state.currentConversationId == old(state.currentConversationId)
      ensures openSucceeds && state.conversations != [] ==>
                state.currentConversationId == Some(state.conversations[0].id)
                && Db.ListsMessages(state.messages, db.messages, state.currentConversationId)
    {
      var init := db.Init(openSucceeds);
      if init.Fail? {
        return;
      }
      var listed := db.GetConversations();
      if listed.Err? {
        return;
      }
      SetState(state.(conversations := listed.value));
      if |listed.value| > 0 {
        LoadConversation(Some(listed.value[0].id));
      }
    }

    /**
     * `loadConversation`: read the conversation's messages from the store
     * and make it current. A null id reads every stored message.
     */
    method LoadConversation(cid: Option<string>)
      requires Valid()
      modifies this`state, this`published
      ensures Valid()
      ensures !db.ready ==> state == old(state) && published == old(published)
      ensures db.ready ==> state == old(state).(messages := state.messages, currentConversationId := cid)
      ensures db.ready ==> Db.ListsMessages(state.messages, db.messages, cid)
      ensures db.ready ==> published == old(published) + [state]
    {
      var read := db.GetMessages(cid);
      if read.Err? {
        return;
      }
      Db.ListedIdsUnique(read.value, db.messages, cid);
      SetState(state.(messages := read.value, currentConversationId := cid));
    }

    /** `createConversation(title)` with the fresh id `id` and the clock reading `now`. */
    method CreateConversation(id: string, title: string, now: int)
      requires Valid()
      requires id != "" && !Names(state.conversations, id)
      modifies this`state, this`published, db`conversations
      ensures Valid()
      ensures db.ready ==> state == Created(old(state), Conversation(id, title, now, now))
      ensures db.ready ==> db.conversations == old(db.conversations)[id := Conversation(id, title, now, now)]
      ensures !db.ready ==> state == old(state) && db.conversations == old(db.conversations)
      ensures published == if db.ready then old(published) + [state] else old(published)
    {
      var c := Conversation(id, title, now, now);
      var saved := db.SaveConversation(c);
      if saved.Fail? {
        return;
      }
      SetState(Created(state, c));
    }

    /**
     * `deleteConversation(cid)`: remove it from the store and the list, then
     * reload the messages of the conversation that was current when the
     * call began, unless that was the deleted one.
     */
    method DeleteConversation(cid: string)
      requires Valid()
      modifies this`state, this`published, db`conversations, db`messages
      ensures Valid()
      ensures !db.ready ==> state == old(state) && db.conversations == old(db.conversations) && db.messages == old(db.messages)
      ensures db.ready ==> db.conversations == old(db.conversations) - {cid}
      ensures db.ready ==> db.messages == Db.Cascade(old(db.messages), cid)
      ensures db.ready && old(state.currentConversationId) == Some(cid) ==> state == Deleted(old(state), cid)
      ensures db.ready && old(state.currentConversationId) != Some(cid) ==>
                state == Deleted(old(state), cid).(messages := state.messages)
                && Db.ListsMessages(state.messages, db.messages, old(state.currentConversationId))
      ensures db.ready ==> state.currentConversationId != Some(cid)
      ensures !db.ready ==> published == old(published)
      ensures db.ready && old(state.currentConversationId) == Some(cid) ==> published == old(published) + [state]
      ensures db.ready && old(state.currentConversationId) != Some(cid) ==>
                published == old(published) + [Deleted(old(state), cid), state]
    {
      var captured := state.currentConversationId;
      var deleted := db.DeleteConversation(cid);
      if deleted.Fail? {
        return;
      }
      SetState(Deleted(state, cid));
      if captured != Some(cid) {
        LoadConversation(captured);
      }
    }

    /**
     * `updateConversationTitle(cid, title)`: an unknown id changes nothing;
     * otherwise the matching conversation gets the new title and `updatedAt`
     * in the store and in the list, in place.
     */
    method UpdateConversationTitle(cid: string, title: string, now: int)
      requires Valid()
      modifies this`state, this`published, db`conversations
      ensures Valid()
      ensures !Names(old(state.conversations), cid) || !db.ready ==>
                state == old(state) && db.conversations == old(db.conversations)
      ensures Names(old(state.conversations), cid) && db.ready ==>
                var updated := Find(old(state.conversations), cid).value.(title := title, updatedAt := now);
                && state == old(state).(conversations := Replaced(old(state.conversations), cid, updated))
                && db.conversations == old(db.conversations)[cid := updated]
      ensures published == if Names(old(state.conversations), cid) && db.ready then old(published) + [state]
                           else old(published)
    {
      var found := Find(state.conversations, cid);
      if found.None? {
        return;
      }
      var updated := found.value.(title := title, updatedAt := now);
      var saved := db.SaveConversation(updated);
      if saved.Fail? {
        return;
      }
      SetState(state.(conversations := Replaced(state.conversations, cid, updated)));
    }

    /**
     * `saveMessages(ms)` as closed over `captured`: nothing without a
     * current id; otherwise replace the stored messages, then bump the
     * captured conversation's `updatedAt` in the store and in the list.
     * A store failure ends the call quietly.
     */
    method SaveMessages(captured: ChatState, ms: seq<Message>, now: int)
      requires Valid()
      modifies this`state, this`published, db`conversations, db`messages
      ensures Valid()
      ensures !IsSet(captured.currentConversationId) || !db.ready || !UniqueIds(ms) ==>
                state == old(state) && published == old(published)
                && db.conversations == old(db.conversations) && db.messages == old(db.messages)
      ensures IsSet(captured.currentConversationId) && db.ready && UniqueIds(ms) ==>
                var bump := SaveBump(captured, db.ready, now);
                && db.messages == Db.Tagged(captured.currentConversationId.value, ms)
                && db.conversations == BumpedTable(old(db.conversations), bump)
                && state == old(state).(conversations := BumpedList(old(state.conversations), bump))
                && published == if bump.Some? then old(published) + [state] else old(published)
    {
      if !IsSet(captured.currentConversationId) {
        return;
      }
      var cid := captured.currentConversationId.value;
      var saved := db.SaveMessages(cid, ms);
      if saved.Fail? {
        return;
      }
      var found := Find(captured.conversations, cid);
      if found.None? {
        return;
      }
      var bumped := found.value.(updatedAt := now);
      var put := db.SaveConversation(bumped);
      if put.Fail? {
        return;
      }
      SetState(state.(conversations := Replaced(state.conversations, cid, bumped)));
    }

    /** `setState` of a new model status, which the view shows. */
    method ShowStatus(status: string, loaded: bool)
      requires Valid()
      modifies this`state, this`published
      ensures Valid()
      ensures state == old(state).(modelStatus := status, isModelLoaded := loaded)
      ensures Statuses(published, ModelStatus) == Statuses(old(published), ModelStatus) + [status]
    {
      SetState(state.(modelStatus := status, isModelLoaded := loaded));
      StatusesAppend(old(published), state, ModelStatus);
    }

    /**
     * `initializeEngine`: publish the loading notice, one status per
     * progress report, then the ready notice or the failure notice. A failed
     * load leaves `isModelLoaded` and the engine as they were.
     */
    method InitializeEngine(reports: seq<string>, loads: bool)
      requires Valid()
      modifies this`state, this`published, this`hasEngine
      ensures Valid()
      ensures state == old(state).(modelStatus := if loads then ReadyStatus else FailedStatus,
                                   isModelLoaded := old(state.isModelLoaded) || loads)
      ensures hasEngine == (old(hasEngine) || loads)
      ensures Statuses(published, ModelStatus) == Statuses(old(published), ModelStatus) + StatusTrace(reports, loads)
    {
      ghost var start := Statuses(published, ModelStatus);
      ShowStatus(LoadingStatus, state.isModelLoaded);
      var i := 0;
      while i < |reports|
        invariant 0 <= i <= |reports|
        invariant state == old(state).(modelStatus := state.modelStatus)
        invariant hasEngine == old(hasEngine)
        invariant Statuses(published, ModelStatus) == start + ([LoadingStatus] + ProgressStatuses(reports[..i]))
      {
        ghost var shown := [LoadingStatus] + ProgressStatuses(reports[..i]);
        ShowStatus(ProgressStatus(reports[i]), state.isModelLoaded);
        ProgressStatusesStep(reports, i);
        assert start + shown + [ProgressStatus(reports[i])] == start + (shown + [ProgressStatus(reports[i])]);
        i := i + 1;
      }
      assert reports[..i] == reports;
      ghost var shown := [LoadingStatus] + ProgressStatuses(reports);
      var final := if loads then ReadyStatus else FailedStatus;
      assert StatusTrace(reports, loads) == shown + [final];
      if loads {
        hasEngine := true;
      }
      ShowStatus(final, state.isModelLoaded || loads);
      assert start + shown + [final] == start + (shown + [final]);
    }

    /**
     * The step `sendMessage` repeats: show `ms` (with the loading flag
     * `loading`), then save it through the captured `saveMessages`.
     */
    method ShowAndSave(captured: ChatState, ms: seq<Message>, loading: bool, now: int)
      requires Valid() && UniqueIds(ms)
      modifies this`state, this`published, db`conversations, db`messages
      ensures Valid()
      ensures var bump := SaveBump(captured, db.ready, now);
              && state == old(state).(messages := ms, isLoading := loading,
                                      conversations := BumpedList(old(state.conversations), bump))
              && db.conversations == BumpedTable(old(db.conversations), bump)
      ensures db.messages == if IsSet(captured.currentConversationId) && db.ready
                             then Db.Tagged(captured.currentConversationId.value, ms) else old(db.messages)
      ensures old(published) < published && published[|published| - 1] == state
      ensures forall k :: |old(published)| <= k < |published| ==>
                published[k].messages == ms && published[k].isLoading == loading
    {
      SetState(state.(messages := ms, isLoading := loading));
      SaveMessages(captured, ms, now);
    }

    /**
     * The reply is streaming from `start`: the view shows `before` and the
     * reply carrying `text`; the captured save has bumped the conversation
     * (if any) in the list and in the store, whose conversations were
     * `conversations` before; the messages table mirrors the list when a
     * conversation was current at the start of the send and the store is
     * open, and is still `stored` otherwise; and every state shown since
     * `log` is a snapshot of the reply growing towards `final`.
     */
    ghost predicate Streaming(captured: ChatState, start: ChatState, log: seq<ChatState>,
                              stored: map<string, Db.StoredMessage>, conversations: map<string, Conversation>,
                              before: seq<Message>, placeholder: Message, text: string, final: string, now: int)
      reads this, db
    {
      && Valid()
      && start.isLoading
      && state == start.(messages := before + [placeholder.(content := text)],
                         conversations := BumpedList(start.conversations, SaveBump(captured, db.ready, now)))
      && db.conversations == BumpedTable(conversations, SaveBump(captured, db.ready, now))
      && db.messages == (if IsSet(captured.currentConversationId) && db.ready
                         then Db.Tagged(captured.currentConversationId.value, state.messages) else stored)
      && log <= published && |log| < |published| && published[|published| - 1] == state
      && forall k :: |log| <= k < |published| ==> StreamView(published[k].isLoading, published[k].messages, before, placeholder, final)
    }

    /**
     * One delta of the stream: the reply now carries `text`, which the
     * view is shown and the captured `saveMessages` stores.
     */
    method ShowDelta(captured: ChatState, ghost start: ChatState, ghost log: seq<ChatState>,
                     ghost stored: map<string, Db.StoredMessage>, ghost conversations: map<string, Conversation>,
                     before: seq<Message>, placeholder: Message, ghost previous: string, text: string,
                     ghost final: string, now: int)
      requires Streaming(captured, start, log, stored, conversations, before, placeholder, previous, final, now)
      requires !HasMessageId(before, placeholder.id) && text <= final
      modifies this`state, this`published, db`conversations, db`messages
      ensures Streaming(captured, start, log, stored, conversations, before, placeholder, text, final, now)
      ensures old(published) <= published
    {
      var updated := ReplaceContent(before + [placeholder], placeholder.id, text);
      DeltaKeepsSnapshot(state.messages, before, placeholder, previous, text, final);
      ghost var bump := SaveBump(captured, db.ready, now);
      BumpTwice(start.conversations, conversations, bump);
      ShowAndSave(captured, updated, true, now);
    }

    /**
     * One turn of the streaming loop: chunk `i` extends the reply when it is
     * a delta, and is otherwise skipped.
     */
    method TakeChunk(captured: ChatState, ghost start: ChatState, ghost log: seq<ChatState>,
                     ghost stored: map<string, Db.StoredMessage>, ghost conversations: map<string, Conversation>,
                     before: seq<Message>, placeholder: Message, chunks: seq<Option<string>>, i: nat,
                     fullContent: string, now: int)
      returns (next: string)
      requires i < |chunks| && fullContent == Merged(chunks[..i])
      requires Streaming(captured, start, log, stored, conversations, before, placeholder, fullContent, Merged(chunks), now)
      requires !HasMessageId(before, placeholder.id)
      modifies this`state, this`published, db`conversations, db`messages
      ensures next == Merged(chunks[..i + 1])
      ensures Streaming(captured, start, log, stored, conversations, before, placeholder, next, Merged(chunks), now)
      ensures old(published) <= published
    {
      MergedStep(chunks, i);
      next := fullContent;
      if IsDelta(chunks[i]) {
        next := fullContent + chunks[i].value;
        ShowDelta(captured, start, log, stored, conversations, before, placeholder, fullContent, next, Merged(chunks), now);
      }
    }

    /**
     * The streaming loop of `sendMessage`: every delta is appended to the
     * reply's content, shown, and saved through the captured
     * `saveMessages`. The view sees only snapshots of the reply growing.
     */
    method StreamReply(captured: ChatState, ghost start: ChatState, ghost log: seq<ChatState>,
                       ghost stored: map<string, Db.StoredMessage>, ghost conversations: map<string, Conversation>,
                       before: seq<Message>, placeholder: Message, chunks: seq<Option<string>>, now: int)
      requires Streaming(captured, start, log, stored, conversations, before, placeholder, "", Merged(chunks), now)
      requires !HasMessageId(before, placeholder.id)
      modifies this`state, this`published, db`conversations, db`messages
      ensures Streaming(captured, start, log, stored, conversations, before, placeholder, Merged(chunks), Merged(chunks), now)
      ensures old(published) <= published
    {
      var fullContent := "";
      var i := 0;
      while i < |chunks|
        invariant 0 <= i <= |chunks|
        invariant fullContent == Merged(chunks[..i])
        invariant Streaming(captured, start, log, stored, conversations, before, placeholder, fullContent, Merged(chunks), now)
        invariant old(published) <= published
      {
        fullContent := TakeChunk(captured, start, log, stored, conversations, before, placeholder, chunks, i, fullContent, now);
        i := i + 1;
      }
      assert chunks[..i] == chunks;
    }

    /**
     * The opening of a reply: show and save the user message with the
     * loading flag set, then the same list with the empty reply after it.
     * Every state it shows is a snapshot of a reply streaming towards
     * `final`, whatever that turns out to be.
     */
    method BeginReply(captured: ChatState, user: Message, placeholder: Message, ghost final: string, now: int)
      requires Valid()
      requires user.id != placeholder.id && placeholder.content == ""
      requires UniqueIds(captured.messages)
      requires !HasMessageId(captured.messages, user.id) && !HasMessageId(captured.messages, placeholder.id)
      modifies this`state, this`published, db`conversations, db`messages
      ensures !HasMessageId(captured.messages + [user], placeholder.id)
      ensures Streaming(captured, old(state).(isLoading := true), old(published), old(db.messages), old(db.conversations),
                        captured.messages + [user], placeholder, "", final, now)
      ensures published[|old(published)|].messages == captured.messages + [user]
    {
      var newMessages := captured.messages + [user];
      AppendFresh(captured.messages, user);
      AppendAbsent(captured.messages, user, placeholder.id);
      AppendFresh(newMessages, placeholder);
      assert StreamSnapshot(newMessages, newMessages, placeholder, final);
      assert StreamSnapshot(newMessages + [placeholder], newMessages, placeholder, final);
      BumpTwice(old(state.conversations), old(db.conversations), SaveBump(captured, db.ready, now));
      ShowAndSave(captured, newMessages, true, now);
      ghost var shown := published;
      ShowAndSave(captured, newMessages + [placeholder], true, now);
      assert forall k :: |old(published)| <= k < |published| ==>
               published[k].messages == if k < |shown| then newMessages else newMessages + [placeholder];
      assert placeholder.(content := "") == placeholder;
    }

    /**
     * The body of `sendMessage` once a conversation is in place: open the
     * reply, stream it in, and clear the loading flag. `captured` is the
     * state the call began with.
     *
     * `mark` is the position in `published` of the state that first shows
     * the user message: from there until the last state, `isLoading` holds
     * and the message list only ever shows the reply growing.
     */
    method Exchange(captured: ChatState, user: Message, placeholder: Message, chunks: seq<Option<string>>, now: int)
      returns (ghost mark: nat)
      requires Valid()
      requires user.id != placeholder.id && placeholder.content == ""
      requires UniqueIds(captured.messages)
      requires !HasMessageId(captured.messages, user.id) && !HasMessageId(captured.messages, placeholder.id)
      modifies this`state, this`published, db`conversations, db`messages
      ensures Valid()
      ensures var bump := SaveBump(captured, db.ready, now);
              && state == old(state).(messages := AfterSend(captured.messages, user, placeholder, chunks),
                                      isLoading := false,
                                      conversations := BumpedList(old(state.conversations), bump))
              && db.conversations == BumpedTable(old(db.conversations), bump)
      ensures db.messages == if IsSet(captured.currentConversationId) && db.ready
                             then Db.Tagged(captured.currentConversationId.value, state.messages) else old(db.messages)
      ensures old(published) <= published && |old(published)| <= mark < |published| - 1
      ensures published[|published| - 1] == state
      ensures published[mark].messages == captured.messages + [user]
      ensures forall k :: mark <= k < |published| - 1 ==>
                StreamView(published[k].isLoading, published[k].messages, captured.messages + [user], placeholder, Merged(chunks))
    {
      mark := |published|;
      ghost var start := state.(isLoading := true);
      ghost var stored := db.messages;
      ghost var conversations := db.conversations;
      ghost var bump := SaveBump(captured, db.ready, now);
      BeginReply(captured, user, placeholder, Merged(chunks), now);
      ghost var begun := published;
      StreamReply(captured, start, old(published), stored, conversations, captured.messages + [user], placeholder, chunks, now);
      assert published[mark] == begun[mark];
      assert state.messages == AfterSend(captured.messages, user, placeholder, chunks);
      assert state == old(state).(messages := state.messages, isLoading := true,
                                  conversations := BumpedList(old(state.conversations), bump));
      ghost var streamed := published;
      // A stream that ends and a stream that throws both clear `isLoading`.
      SetState(state.(isLoading := false));
      assert forall k :: mark <= k < |published| - 1 ==> published[k] == streamed[k];
    }

    /**
     * `sendMessage(content)` with fresh ids for a conversation it may have
     * to create, for the user message and for the reply, one clock reading
     * `now`, and the completion the engine streams back. Without an engine
     * it does nothing; without a current conversation it creates one first,
     * but the saves keep reading the state the call began with, so they
     * store nothing.
     */
    method SendMessage(content: string, conversationId: string, userId: string, assistantId: string,
                       now: int, completion: Completion)
      returns (ghost mark: nat)
      requires Valid()
      requires conversationId != "" && !Names(state.conversations, conversationId)
      requires userId != assistantId
      requires !HasMessageId(state.messages, userId) && !HasMessageId(state.messages, assistantId)
      modifies this`state, this`published, db`conversations, db`messages
      ensures Valid()
      ensures !old(hasEngine) ==>
                state == old(state) && published == old(published)
                && db.conversations == old(db.conversations) && db.messages == old(db.messages)
      ensures old(hasEngine) ==>
                var user := Message(userId, User, content, now);
                var placeholder := Message(assistantId, Assistant, "", now);
                var creates := !IsSet(old(state.currentConversationId)) && db.ready;
                var newConversation := Conversation(conversationId, DefaultTitle, now, now);
                var begun := if creates then Created(old(state), newConversation) else old(state);
                var bump := SaveBump(old(state), db.ready, now);
                && state == begun.(messages := AfterSend(old(state.messages), user, placeholder, completion.chunks),
                                   isLoading := false,
                                   conversations := BumpedList(begun.conversations, bump))
                && db.conversations == BumpedTable(if creates then old(db.conversations)[conversationId := newConversation]
                                                   else old(db.conversations), bump)
                && db.messages == (if IsSet(old(state.currentConversationId)) && db.ready
                                   then Db.Tagged(old(state.currentConversationId).value, state.messages)
                                   else old(db.messages))
                && old(published) <= published
                && |old(published)| <= mark < |published| - 1
                && published[mark].messages == old(state.messages) + [user]
                && (forall k :: mark <= k < |published| - 1 ==>
                      StreamView(published[k].isLoading, published[k].messages, old(state.messages) + [user], placeholder, Merged(completion.chunks)))
                && published[|published| - 1] == state
    {
      if !hasEngine {
        return 0;
      }
      var captured := state;
      if !IsSet(captured.currentConversationId) {
        CreateConversation(conversationId, DefaultTitle, now);
      }
      var user := Message(userId, User, content, now);
      var placeholder := Message(assistantId, Assistant, "", now);
      mark := Exchange(captured, user, placeholder, completion.chunks, now);
    }

    /**
     * `clearMessages`: with a current conversation, empty the list and save
     * the empty list, which clears the whole messages table and bumps the
     * conversation.
     */
    method ClearMessages(now: int)
      requires Valid()
      modifies this`state, this`published, db`conversations, db`messages
      ensures Valid()
      ensures !IsSet(old(state.currentConversationId)) ==>
                state == old(state) && published == old(published)
                && db.conversations == old(db.conversations) && db.messages == old(db.messages)
      ensures IsSet(old(state.currentConversationId)) ==>
                var bump := SaveBump(old(state), db.ready, now);
                && state == old(state).(messages := [], conversations := BumpedList(old(state.conversations), bump))
                && db.conversations == BumpedTable(old(db.conversations), bump)
                && db.messages == (if db.ready then map[] else old(db.messages))
                && published == old(published) + [old(state).(messages := [])] + (if bump.Some? then [state] else [])
    {
      if !IsSet(state.currentConversationId) {
        return;
      }
      var captured := state;
      SetState(state.(messages := []));
      SaveMessages(captured, [], now);
    }
  }
}
