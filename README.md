# local-chat: a verified model of the chat core

local-chat is a browser chat client. It keeps conversations and their
messages in IndexedDB and streams replies from a language model that runs
in the browser. This project models its core in Dafny and proves what that
core guarantees:

- `Db` models the local store (`src/lib/db.ts`). It is a class with two
  tables, each a map from id to row. Reads come back in the order IndexedDB
  and a stable sort give them: newest `updatedAt` first for conversations,
  oldest `createdAt` first for messages, and ties by ascending id. That
  order is defined in `Ordering`.
- `EnhancedChat` models the multi-conversation hook
  (`src/hooks/use-enhanced-chat.ts`):
  - every `setState` callback is a pure transition (`Created`, `Deleted`,
    `Replaced`, ...);
  - the hook is a class, `ChatController`, whose methods run those
    transitions around calls to the store;
  - a ghost log `published` records every state the view is shown, so the
    streaming contracts can speak about what the user sees while a reply
    arrives.
- `LocalChat` models the older single-conversation hook
  (`src/hooks/use-local-chat.ts`). It persists through one local-storage key.
- `Engine` models what both hooks see of the inference engine:
  - the status texts published while a model loads;
  - a completion as the list of chunks it delivered, each with or without a
    text delta;
  - the merge of those deltas into the reply.
- `ChatInput` (`src/components/chat/chat-input.tsx`) and `Sidebar`
  (`src/components/enhanced-sidebar.tsx`) model the two guards that keep
  empty messages and empty titles out. Both rely on `String.prototype.trim`,
  which `Text` models.

Values the code draws from the environment become parameters:

- the fresh ids `nanoid()` returns;
- the clock reading `new Date()` returns;
- whether `indexedDB.open` and `localStorage.setItem` succeed;
- the progress reports, success and chunks of the engine.

Each handler calls its callback (`onSendMessage`,
`onUpdateConversationTitle`); the model returns that call as a value.

Some of what the code does is easy to miss when reading it; the model
keeps each of these behaviours as written:

- **Tie order.** Conversations with equal `updatedAt` come back in
  ascending id order, and so do the messages of one conversation with equal
  `createdAt`. `getAll` returns rows in key order (for the
  `conversationId` index, by conversation and then by id) and `Array.sort`
  is stable.
- **`saveMessages` clears every row of the table.** `store.clear()` empties the
  whole messages table, not just the rows of the conversation being saved.
  So saving one conversation deletes the stored messages of every other one
  (`Db.Tagged`). A failing `add` (a repeated id) aborts the transaction, and
  the clear is rolled back with it.
- **Deleting the current conversation.** The next current conversation is
  the first one left in the list, which is not re-sorted. A conversation
  whose id is the empty string counts as no conversation.
- **Reload after delete uses the old current id.** The reload reads the
  current id captured when the call began. If that was null, `getMessages`
  gets a null key, which matches every stored message.
- **The first message of a new conversation is not saved.** `sendMessage`
  creates the conversation when none is current. Its saves still read the
  captured, unset current id, so they do nothing.
- **The hooks do not guard sends.** They check neither `isLoading` nor
  empty content; only the message box does. A send while a reply is
  loading starts a second exchange.
- **`initializeEngine` can run twice.** A second call while the model is
  loaded or loading starts another load.
- **A failed reply leaves the status alone.** `modelStatus` does not change;
  both the normal end and a thrown error only clear `isLoading`, and the
  reply keeps the content merged before the error.

## Model

| member | source | states |
|---|---|---|
| Text.IsWhitespace | src/components/chat/chat-input.tsx:17 | the characters `trim()` removes: the ECMAScript white space and line terminators |
| Text.FirstKept | src/components/chat/chat-input.tsx:17 | the start of the trimmed text: every character it skips is white space and it stops at the first one that is not |
| Text.LastKept | src/components/chat/chat-input.tsx:17 | the end of the trimmed text: every character it drops from the end is white space and the last one kept is not |
| Text.Trim | src/components/chat/chat-input.tsx:17 | `trim()` never lengthens a string |
| Text.TrimIsInnerPiece | src/components/chat/chat-input.tsx:17-18 | the trimmed text is a piece of its input: only white space is cut on each side, and the piece starts and ends with a non-white-space character |
| Text.TrimEmptyIff | src/components/chat/chat-input.tsx:17 | `s.trim()` is the empty (falsy) string exactly when `s` is all white space |
| Text.TrimIdempotent | src/components/enhanced-sidebar.tsx:34-35 | trimming an already trimmed text changes nothing |
| Ordering.IdLess | src/lib/db.ts:70 | the order of string primary keys: character by character, a proper prefix first |
| Ordering.Before | src/lib/db.ts:79 | the listing order: by timestamp rank, and by key among equal ranks |
| Ordering.IdLessIrreflexive | src/lib/db.ts:70 | no key comes before itself |
| Ordering.IdLessTransitive | src/lib/db.ts:70 | key order is transitive |
| Ordering.IdLessTotal | src/lib/db.ts:70 | any two different keys are ordered one way or the other |
| Ordering.BeforeStrictTotal | src/lib/db.ts:79 | the (timestamp, id) order the listings use is a strict total order |
| Ordering.OrderedDistinct | src/lib/db.ts:79 | an ordered listing holds no row twice |
| Ordering.Insert | src/lib/db.ts:131 | inserting keeps every element and adds exactly one: the result is a permutation of the input plus the new element |
| Ordering.InsertOrdered | src/lib/db.ts:131 | inserting a row with a new key into an ordered list keeps it ordered |
| Ordering.Sort | src/lib/db.ts:131 | the sorted list is a permutation of its input |
| Ordering.SortOrdered | src/lib/db.ts:131 | the sorted list is ordered when no two keys coincide |
| Ordering.OrderedUnique | src/lib/db.ts:131 | two ordered listings of the same rows are the same list, so each table state reads back one way |
| Engine.Statuses | src/hooks/use-enhanced-chat.ts:155-183 | one status text per published state, in the order they were shown |
| Engine.StatusesAppend | src/hooks/use-enhanced-chat.ts:157 | showing one more state adds exactly its status to the end of the trace |
| Engine.ProgressStatus | src/hooks/use-enhanced-chat.ts:164-168 | a progress report shows its text, or "Initializing..." exactly when the text is empty; it is never empty |
| Engine.ProgressStatuses | src/hooks/use-enhanced-chat.ts:164-168 | one status per progress report, in report order |
| Engine.StatusTrace | src/hooks/use-enhanced-chat.ts:155-183 | a load shows "Loading model...", then one status per report, then "Model ready!" or "Failed to load model" |
| Engine.IsDelta | src/hooks/use-enhanced-chat.ts:233 | `if (delta)`: a chunk counts when its delta is present and not the empty string |
| Engine.DeltaText | src/hooks/use-enhanced-chat.ts:234 | the text a chunk appends, empty when it has no delta |
| Engine.DeltaTextIff | src/hooks/use-enhanced-chat.ts:233-234 | a chunk adds text exactly when it passes the `if (delta)` test, and then adds its whole delta |
| Engine.Merged | src/hooks/use-enhanced-chat.ts:230-235 | `fullContent` after a run of chunks: their deltas joined in arrival order |
| Engine.MergedWithoutDeltas | src/hooks/use-enhanced-chat.ts:230-235 | a stream without a single delta leaves the reply empty |
| Engine.MergedAppend | src/hooks/use-enhanced-chat.ts:230-246 | merging a stream in two parts equals merging each part and joining the results |
| Engine.MergedGrows | src/hooks/use-enhanced-chat.ts:232-234 | the reply only grows: the content after fewer chunks is a prefix of the content after more |
| Engine.MergedStep | src/hooks/use-enhanced-chat.ts:233-234 | one more chunk appends exactly its delta |
| Engine.MergedThreeDeltas | src/hooks/use-enhanced-chat.ts:232-234 | deltas "Hi", " there", "!" give "Hi there!" |
| Engine.ReplaceContent | src/hooks/use-enhanced-chat.ts:237-241 | the streaming `map` changes only the content of the reply and keeps every other message, id, role and date |
| Engine.ReplaceLast | src/hooks/use-enhanced-chat.ts:237-241 | when only the last message has the reply's id, the `map` replaces just that message |
| Engine.StreamView | src/hooks/use-enhanced-chat.ts:205-244 | a view shown during a reply: loading, and showing the messages before it, or those and the reply with a prefix of its final content |
| Engine.AfterSend | src/hooks/use-enhanced-chat.ts:205-246 | after a send the list is the earlier messages unchanged, then the user message, then the reply with the merged deltas |
| Db.ConversationKey | src/lib/db.ts:70-79 | the conversation listing key: newest `updatedAt` first, then by id |
| Db.ConversationKeyOrder | src/lib/db.ts:70-79 | a conversation is listed before another exactly when it was updated later, or at the same time with a smaller id |
| Db.MessageKey | src/lib/db.ts:122-131 | the message listing key: oldest `createdAt` first, then by id |
| Db.MessageKeyOrder | src/lib/db.ts:122-131 | a message is listed before another exactly when it was created earlier, or at the same time with a smaller id |
| Db.Tagged | src/lib/db.ts:84-114 | after a save the table holds exactly the saved messages, under their ids and tagged with the conversation; no row of another conversation survives |
| Db.Cascade | src/lib/db.ts:136-161 | after a delete, exactly the rows of other conversations remain, unchanged |
| Db.DeleteKeepsNoOrphans | src/lib/db.ts:136-161 | deleting a conversation with its messages leaves no message whose conversation is missing |
| Db.SaveKeepsNoOrphans | src/lib/db.ts:84-114 | saving a stored conversation's messages leaves no orphan rows |
| Db.SaveThenReadRoundTrip | src/lib/db.ts:84-134 | reading a conversation straight after saving its messages returns a permutation of the saved messages, sorted by `createdAt`, ties by id |
| Db.ListedIdsUnique | src/lib/db.ts:116-134 | a message listing holds no id twice |
| Db.ListedConversationIdsUnique | src/lib/db.ts:64-82 | a conversation listing holds no id twice |
| Db.LocalDatabase.constructor | src/lib/db.ts:19-20 | a new store has no handle and sees the persisted tables |
| Db.LocalDatabase.Init | src/lib/db.ts:22-49 | opening sets the handle, and a failed open reports the error and changes nothing |
| Db.LocalDatabase.SaveConversation | src/lib/db.ts:51-62 | `put` upserts the row under its id, and fails without a handle |
| Db.LocalDatabase.GetConversations | src/lib/db.ts:64-82 | every stored conversation exactly once, newest `updatedAt` first, ties by id; an error without a handle |
| Db.LocalDatabase.SaveMessages | src/lib/db.ts:84-114 | the table becomes exactly the saved messages (the whole table is cleared); a repeated id fails and changes nothing |
| Db.LocalDatabase.GetMessages | src/lib/db.ts:116-134 | exactly the rows the key matches, oldest first, ties by id; a null key matches every row |
| Db.LocalDatabase.DeleteConversation | src/lib/db.ts:136-161 | removes the conversation and exactly its messages, in one transaction |
| Records.IsSet | src/hooks/use-enhanced-chat.ts:132 | JavaScript truthiness of an id: `null` and the empty string both count as no id |
| EnhancedChat.Find | src/hooks/use-enhanced-chat.ts:114 | `find` returns the first conversation with the id, and none exactly when no conversation has it |
| EnhancedChat.Without | src/hooks/use-enhanced-chat.ts:89 | `filter` drops exactly the conversations with the id and keeps the others in their order |
| EnhancedChat.WithoutCounts | src/hooks/use-enhanced-chat.ts:89 | `filter` keeps each conversation with another id as often as it occurred, and none with the id |
| EnhancedChat.Replaced | src/hooks/use-enhanced-chat.ts:120-122 | the `map` replaces exactly the conversations with the id and keeps the order and the others |
| EnhancedChat.Created | src/hooks/use-enhanced-chat.ts:73-78 | a new conversation goes first, becomes current, and empties the list; ids stay unique |
| EnhancedChat.Deleted | src/hooks/use-enhanced-chat.ts:88-100 | the deleted conversation is never current afterwards; otherwise the current one stays, or the first one left takes its place; messages are kept only while an id is current |
| EnhancedChat.ReplacedKeepsCurrentListed | src/hooks/use-enhanced-chat.ts:118-123 | a rename or a timestamp bump keeps the current conversation listed and the ids unique |
| EnhancedChat.SaveBump | src/hooks/use-enhanced-chat.ts:132-149 | the row a save writes back: present exactly when the store is open, an id was current in the captured state and that state lists it; it is that conversation with `updatedAt` set to the clock |
| EnhancedChat.BumpedTable | src/hooks/use-enhanced-chat.ts:138-141 | writing the bump puts exactly that row under its id and leaves every other row as it was |
| EnhancedChat.BumpedList | src/hooks/use-enhanced-chat.ts:142-147 | the bump replaces, in place, the listed conversations with its id and leaves the rest |
| EnhancedChat.BumpTwice | src/hooks/use-enhanced-chat.ts:132-149 | every save of one send writes the same bump, so repeating it changes nothing more in the list or the store |
| EnhancedChat.DeltaKeepsSnapshot | src/hooks/use-enhanced-chat.ts:237-241 | a delta changes only the reply, so the ids stay distinct and the list is still a snapshot of the reply growing |
| EnhancedChat.ChatController.constructor | src/hooks/use-enhanced-chat.ts:16-25 | the initial state: nothing loaded, "Not initialized", no engine |
| EnhancedChat.ChatController.SetState | src/hooks/use-enhanced-chat.ts:16 | the view is shown each new state, in order |
| EnhancedChat.ChatController.Mount | src/hooks/use-enhanced-chat.ts:28-45 | after opening the store the list holds every stored conversation newest first, and the newest one is loaded and current; a failed open shows nothing |
| EnhancedChat.ChatController.LoadConversation | src/hooks/use-enhanced-chat.ts:48-59 | the conversation's stored messages in date order become the list, it becomes current, and the view is shown that state; a store error changes nothing |
| EnhancedChat.ChatController.CreateConversation | src/hooks/use-enhanced-chat.ts:62-82 | the new conversation is stored and put first and current; a store error changes nothing |
| EnhancedChat.ChatController.DeleteConversation | src/hooks/use-enhanced-chat.ts:85-109 | the conversation and its messages leave the store and the list; the messages of the conversation current at the start are reloaded; the view is shown the state after the delete and then the reloaded one |
| EnhancedChat.ChatController.UpdateConversationTitle | src/hooks/use-enhanced-chat.ts:112-128 | a listed conversation gets the new title and `updatedAt` in the store and in place in the list, and the view is shown it; an unknown id or a closed store changes nothing |
| EnhancedChat.ChatController.SaveMessages | src/hooks/use-enhanced-chat.ts:131-152 | with a current id in the captured state and an open store, the table becomes exactly the saved list and the bump is written to the store and the list, every other row and field unchanged; otherwise nothing changes |
| EnhancedChat.ChatController.ShowStatus | src/hooks/use-enhanced-chat.ts:157 | the view is shown the new status |
| EnhancedChat.ChatController.InitializeEngine | src/hooks/use-enhanced-chat.ts:155-184 | the view is shown exactly the status trace of the load, and only a successful load sets the engine and `isModelLoaded` |
| EnhancedChat.ChatController.ShowAndSave | src/hooks/use-enhanced-chat.ts:206-207 | the list is shown with the loading flag and saved through the captured save: the store and the list change by exactly the bump, and the messages table becomes the list when an id was captured and the store is open, and is untouched otherwise |
| EnhancedChat.ChatController.ShowDelta | src/hooks/use-enhanced-chat.ts:237-244 | after a delta the view and the store hold the reply with the new content, the conversation table is the one before the send plus the bump, and every state shown so far is a snapshot of the growing reply |
| EnhancedChat.ChatController.TakeChunk | src/hooks/use-enhanced-chat.ts:232-245 | one turn of the loop: the content becomes the merge of one more chunk, and the view, the list and the store keep mirroring it |
| EnhancedChat.ChatController.StreamReply | src/hooks/use-enhanced-chat.ts:230-246 | after the stream the reply carries the merged deltas, and every state shown meanwhile is a prefix of it |
| EnhancedChat.ChatController.BeginReply | src/hooks/use-enhanced-chat.ts:205-219 | the view is shown the user message, then the empty reply after it, while loading |
| EnhancedChat.ChatController.Exchange | src/hooks/use-enhanced-chat.ts:198-252 | the whole reply cycle: the final list is the earlier messages, the user message and the merged reply; loading ends; the list and the conversation table change by exactly the bump; the messages table mirrors the list or is untouched; every state in between shows the reply growing |
| EnhancedChat.ChatController.SendMessage | src/hooks/use-enhanced-chat.ts:187-253 | without an engine nothing happens; otherwise a conversation is created first when none is current (stored when the store is open), the send cycle runs, and the captured save stores the list and the bump only when an id was current at the start, so a newly created conversation gets no messages stored |
| EnhancedChat.ChatController.ClearMessages | src/hooks/use-enhanced-chat.ts:256-261 | with a current conversation the list empties, the messages table empties when the store is open, and the conversation is bumped in the store and the list; without one nothing happens |
| LocalChat.Serialize | src/hooks/use-local-chat.ts:47 | one record per message, in order, with its id and content |
| LocalChat.Deserialize | src/hooks/use-local-chat.ts:33-36 | one message per record, in order, with its id and content |
| LocalChat.SaveLoadRoundTrip | src/hooks/use-local-chat.ts:29-51 | loading what was saved gives back the same messages |
| LocalChat.LocalChatController.constructor | src/hooks/use-local-chat.ts:19-26 | the initial state: no messages, "Not initialized", no engine |
| LocalChat.LocalChatController.SetState | src/hooks/use-local-chat.ts:19 | the view is shown each new state, in order |
| LocalChat.LocalChatController.LoadMessages | src/hooks/use-local-chat.ts:29-42 | a stored list replaces the messages; a missing, blank or unparsable value changes nothing |
| LocalChat.LocalChatController.SaveMessages | src/hooks/use-local-chat.ts:45-51 | the key holds the serialised list, or keeps its value when writing fails |
| LocalChat.LocalChatController.ClearMessages | src/hooks/use-local-chat.ts:151-154 | the list empties and the key is removed |
| LocalChat.LocalChatController.ShowStatus | src/hooks/use-local-chat.ts:56 | the view is shown the new status |
| LocalChat.LocalChatController.InitializeEngine | src/hooks/use-local-chat.ts:54-84 | the view is shown exactly the status trace of the load, and only a successful load sets the engine and `isModelLoaded` |
| LocalChat.LocalChatController.ShowAndSave | src/hooks/use-local-chat.ts:100-102 | the list is shown with the loading flag and then saved |
| LocalChat.LocalChatController.ShowDelta | src/hooks/use-local-chat.ts:132-139 | after a delta the view and the slot hold the reply with the new content |
| LocalChat.LocalChatController.StreamReply | src/hooks/use-local-chat.ts:125-141 | after the stream the reply carries the merged deltas, and every state shown meanwhile is a prefix of it |
| LocalChat.LocalChatController.BeginReply | src/hooks/use-local-chat.ts:100-114 | the view is shown the user message, then the empty reply after it, while loading |
| LocalChat.LocalChatController.SendMessage | src/hooks/use-local-chat.ts:87-148 | without an engine nothing happens; otherwise the final list is the earlier messages, the user message and the merged reply, stored when storage is writable, and loading ends |
| LocalChat.SaveThenLoad | src/hooks/use-local-chat.ts:29-51 | saving a list and loading it back shows exactly that list |
| ChatInput.Outgoing | src/components/chat/chat-input.tsx:16-21 | text is sent exactly when it is not all white space, no reply is loading and the model is loaded; it is sent trimmed and never empty |
| ChatInput.SentTextIsClean | src/components/chat/chat-input.tsx:17-18 | sent text is non-empty, has no white space at either end, and is what was typed minus white space at the ends |
| ChatInput.TextareaDisabled | src/components/chat/chat-input.tsx:38 | the text area is disabled while the model is not loaded or a reply is loading |
| ChatInput.SendDisabled | src/components/chat/chat-input.tsx:45 | the send button is disabled for all-white-space text, while a reply is loading, or while the model is not loaded |
| ChatInput.Submits | src/components/chat/chat-input.tsx:24 | the key press that submits is Enter without Shift |
| ChatInput.ButtonMatchesGuard | src/components/chat/chat-input.tsx:38-45 | the send button is disabled exactly when a click would send nothing, and a disabled text area implies a disabled button |
| ChatInput.ChatInputBox.constructor | src/components/chat/chat-input.tsx:14 | the box starts empty |
| ChatInput.ChatInputBox.Change | src/components/chat/chat-input.tsx:35 | typing replaces the text |
| ChatInput.ChatInputBox.HandleSend | src/components/chat/chat-input.tsx:16-21 | sends what the guard lets through and then empties the box; otherwise the text stays |
| ChatInput.ChatInputBox.HandleKeyPress | src/components/chat/chat-input.tsx:23-28 | Enter without Shift suppresses the newline and acts as send; any other key does nothing |
| Sidebar.TitleUpdate | src/components/enhanced-sidebar.tsx:33-36 | a rename is requested exactly when an id is being edited and the title is not all white space; the title is trimmed and never empty |
| Sidebar.SavedTitleIsClean | src/components/enhanced-sidebar.tsx:34-35 | a saved title is non-empty, has no white space at either end, and survives a further trim |
| Sidebar.TitleEditor.constructor | src/components/enhanced-sidebar.tsx:25-26 | no rename in progress |
| Sidebar.TitleEditor.HandleEditStart | src/components/enhanced-sidebar.tsx:28-31 | the editor opens on the conversation's id and current title |
| Sidebar.TitleEditor.ChangeTitle | src/components/enhanced-sidebar.tsx:88 | typing changes only the title |
| Sidebar.TitleEditor.HandleEditSave | src/components/enhanced-sidebar.tsx:33-39 | requests the rename the guard lets through, and always closes the editor |
| Sidebar.TitleEditor.HandleEditCancel | src/components/enhanced-sidebar.tsx:41-44 | closes the editor and requests nothing |
| Sidebar.TitleEditor.HandleTitleKeyPress | src/components/enhanced-sidebar.tsx:89 | Enter saves; any other key changes nothing |

## Left out

- `indexedDB.open` upgrade handling, schema creation and the unused `createdAt` indexes (src/lib/db.ts:32-47): the tables are two maps from the start.
- Store faults other than an open failure, a missing handle and a repeated key (quota, aborts raised by the browser): the code only logs them.
- Dates are whole milliseconds. The ISO strings written to the store and to local storage are not modelled, and neither is `Invalid Date`.
- JSON text: the storage slot holds either the list of records, a blank value or text that does not parse; the parser itself is not modelled.
- Key order compares ids character by character. IndexedDB compares UTF-16 code units, which differs only for ids outside the Basic Multilingual Plane; `nanoid` ids are ASCII.
- The engine: `CreateMLCEngine`, the model download and the prompt built from the messages are outside the model. A load is its list of progress texts and whether it succeeds. A completion is the list of chunks it delivered before it ended or threw.
- Engine.Completion: the `end` field is carried but not read, because the code clears `isLoading` the same way whether the stream ends or throws.
- EnhancedChat.ChatController.SendMessage: takes one clock reading for the user message, the reply and every timestamp bump. The code reads the clock several times.
- LocalChat.LocalChatController.SendMessage: takes one clock reading for both messages, where the code reads the clock twice.
- LocalChat.LocalChatController.SendMessage: whether `localStorage.setItem` succeeds is one constant of the controller (`storageWritable`), so all the saves of a send succeed or all fail (the same holds for `SaveMessages` and `ShowAndSave`). Storage that fills up part way through a stream, so that the first saves succeed and later ones fail, is not modelled.
- EnhancedChat.ChatController.CreateConversation: one clock reading `now` sets both `createdAt` and `updatedAt`. The code calls `new Date()` once for each (src/hooks/use-enhanced-chat.ts:67-68), so the two may differ by a millisecond.
- Db.LocalDatabase.GetMessages: with a null key, messages with equal `createdAt` are ordered by id. The `conversationId` index orders them by conversation and then by id. The two orders agree whenever the table holds the rows of one conversation only, which is what every successful `saveMessages` leaves.
- Interleaving: the model runs one operation at a time. In the browser another handler may run at every `await`, so a save can race another save; each closure keeps the state of the render that created it, which the model passes in as `captured`.
- React rendering, `formatDate` (Intl formatting), the settings dialog, and the clear-all-data button (a database deletion and a page reload).
- The click event that `enhanced-chat.tsx` passes as a title: titles are strings only.
- `console.error` logging.
