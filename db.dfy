/**
 * The local store of src/lib/db.ts: an IndexedDB database with a
 * `conversations` table keyed by `id` and a `messages` table keyed by `id`
 * and indexed by `conversationId`. Each table is a map from key to row.
 * Every operation runs in one IndexedDB transaction, so a failed request
 * rolls back the whole operation: the model commits a method's changes
 * only when all its requests succeed.
 */
module Db {
  import opened Records
  import opened Ordering

  datatype DbError =
    | NotInitialized   // "Database not initialized": `init` has not set the handle
    | OpenFailed       // `indexedDB.open` reported an error
    | ConstraintError  // `add` met a key that is already in the table

  /** A row of the messages table: a message tagged with its conversation. */
  datatype StoredMessage = StoredMessage(message: Message, conversationId: string)

  /** Newest `updatedAt` first, then ascending id (`getAll` order, stable sort). */
  function ConversationKey(c: Conversation): SortKey {
    SortKey(-c.updatedAt, c.id)
  }

  /**
   * Oldest `createdAt` first, then ascending id: the index order of one
   * conversation's rows, kept by the stable sort.
   */
  function MessageKey(m: Message): SortKey {
    SortKey(m.createdAt, m.id)
  }

  /**
   * The conversation listing's order: a conversation comes before another
   * exactly when it was updated later, or at the same time with a smaller id.
   */
  lemma ConversationKeyOrder(a: Conversation, b: Conversation)
    ensures Before(ConversationKey(a), ConversationKey(b))
            <==> a.updatedAt > b.updatedAt || (a.updatedAt == b.updatedAt && IdLess(a.id, b.id))
  {
  }

  /**
   * The message listing's order: a message comes before another exactly
   * when it was created earlier, or at the same time with a smaller id.
   */
  lemma MessageKeyOrder(a: Message, b: Message)
    ensures Before(MessageKey(a), MessageKey(b))
            <==> a.createdAt < b.createdAt || (a.createdAt == b.createdAt && IdLess(a.id, b.id))
  {
  }

  /** Each row sits under its own `id` (the key path of both tables). */
  predicate ConversationsKeyed(t: map<string, Conversation>) {
    forall k :: k in t ==> t[k].id == k
  }

  predicate MessagesKeyed(t: map<string, StoredMessage>) {
    forall k :: k in t ==> t[k].message.id == k
  }

  /** `c` is a row of the conversations table. */
  predicate StoresConversation(t: map<string, Conversation>, c: Conversation) {
    c.id in t && t[c.id] == c
  }

  /** The query of `index.getAll`: a conversation id, or null, which matches every row. */
  predicate Matches(query: Option<string>, row: StoredMessage) {
    query.None? || row.conversationId == query.value
  }

  /** `m` is the message of a row of `t` that `query` matches. */
  predicate StoresMessage(t: map<string, StoredMessage>, query: Option<string>, m: Message) {
    m.id in t && t[m.id].message == m && Matches(query, t[m.id])
  }

  /** `r` is what `getConversations` resolves to for the table `t`. */
  ghost predicate ListsConversations(r: seq<Conversation>, t: map<string, Conversation>) {
    Ordered(r, ConversationKey) && forall c :: c in r <==> StoresConversation(t, c)
  }

  /** `r` is what `getMessages(query)` resolves to for the table `t`. */
  ghost predicate ListsMessages(r: seq<Message>, t: map<string, StoredMessage>, query: Option<string>) {
    Ordered(r, MessageKey) && forall m :: m in r <==> StoresMessage(t, query, m)
  }

  /** Every message row belongs to a stored conversation. */
  predicate NoOrphans(cs: map<string, Conversation>, t: map<string, StoredMessage>) {
    forall k :: k in t ==> t[k].conversationId in cs
  }

  /**
   * The messages table after `saveMessages(cid, ms)` succeeds: `clear`
   * emptied the WHOLE table, then one `add` per message put it back tagged
   * with `cid`. Rows of every other conversation are gone.
   */
  function Tagged(cid: string, ms: seq<Message>): (t: map<string, StoredMessage>)
    requires UniqueIds(ms)
    ensures MessagesKeyed(t)
    ensures forall m :: m in ms ==> m.id in t && t[m.id] == StoredMessage(m, cid)
    ensures forall k :: k in t ==> t[k].conversationId == cid && t[k].message in ms
  {
    map m | m in ms :: m.id := StoredMessage(m, cid)
  }

  /** A row sits under an id exactly when some message of the list has that id. */
  lemma TaggedKeys(cid: string, ms: seq<Message>, id: string)
    requires UniqueIds(ms)
    ensures id in Tagged(cid, ms) <==> HasMessageId(ms, id)
  {
    if id in Tagged(cid, ms) {
      var m := Tagged(cid, ms)[id].message;
      var j :| 0 <= j < |ms| && ms[j] == m;
    }
    if HasMessageId(ms, id) {
      var j :| 0 <= j < |ms| && ms[j].id == id;
      assert ms[j] in ms;
    }
  }

  /** Adding one more message adds its row and nothing else. */
  lemma TaggedAppend(cid: string, ms: seq<Message>, m: Message)
    requires UniqueIds(ms + [m])
    ensures UniqueIds(ms)
    ensures Tagged(cid, ms + [m]) == Tagged(cid, ms)[m.id := StoredMessage(m, cid)]
  {
    forall i, j | 0 <= i < j < |ms| ensures ms[i].id != ms[j].id {
      assert ms[i] == (ms + [m])[i] && ms[j] == (ms + [m])[j];
    }
    var a := Tagged(cid, ms + [m]);
    var b := Tagged(cid, ms)[m.id := StoredMessage(m, cid)];
    forall k | k in a ensures k in b && a[k] == b[k] {
      assert a[k].message in ms + [m];
    }
    forall k | k in b ensures k in a {
      if k != m.id {
        assert b[k].message in ms;
      }
    }
  }

  /** The messages table after the rows tagged `cid` are deleted. */
  function Cascade(t: map<string, StoredMessage>, cid: string): (r: map<string, StoredMessage>)
    ensures forall k :: k in r <==> k in t && t[k].conversationId != cid
    ensures forall k :: k in r ==> r[k] == t[k]
  {
    map k | k in t && t[k].conversationId != cid :: t[k]
  }

  /** Deleting a conversation with its messages leaves no orphan rows behind. */
  lemma DeleteKeepsNoOrphans(cs: map<string, Conversation>, t: map<string, StoredMessage>, cid: string)
    requires NoOrphans(cs, t)
    ensures NoOrphans(cs - {cid}, Cascade(t, cid))
    ensures forall k :: k in Cascade(t, cid) ==> Cascade(t, cid)[k].conversationId != cid
  {
  }

  /** Saving a stored conversation's messages leaves no orphan rows. */
  lemma SaveKeepsNoOrphans(cs: map<string, Conversation>, cid: string, ms: seq<Message>)
    requires UniqueIds(ms) && cid in cs
    ensures NoOrphans(cs, Tagged(cid, ms))
  {
  }

  /**
   * Round trip: reading a conversation's messages straight after saving
   * them yields exactly the saved messages, oldest `createdAt` first, ties
   * in ascending id order.
   */
  lemma SaveThenReadRoundTrip(cid: string, ms: seq<Message>, r: seq<Message>)
    requires UniqueIds(ms)
    requires ListsMessages(r, Tagged(cid, ms), Some(cid))
    ensures r == Sort(ms, MessageKey)
    ensures multiset(r) == multiset(ms)
    ensures forall i, j :: 0 <= i < j < |r| ==> r[i].createdAt <= r[j].createdAt
  {
    assert DistinctKeys(ms, MessageKey);
    SortOrdered(ms, MessageKey);
    OrderedUnique(r, Sort(ms, MessageKey), MessageKey);
  }

  /** A listing of a keyed table holds no id twice. */
  lemma ListedIdsUnique(r: seq<Message>, t: map<string, StoredMessage>, query: Option<string>)
    requires ListsMessages(r, t, query)
    ensures UniqueIds(r)
  {
    OrderedDistinct(r, MessageKey);
    forall i, j | 0 <= i < j < |r| ensures r[i].id != r[j].id {
      assert r[i] in r && r[j] in r;
    }
  }

  /** A listing of a keyed table holds no conversation id twice. */
  lemma ListedConversationIdsUnique(r: seq<Conversation>, t: map<string, Conversation>)
    requires ListsConversations(r, t)
    ensures forall i, j :: 0 <= i < j < |r| ==> r[i].id != r[j].id
  {
    OrderedDistinct(r, ConversationKey);
    forall i, j | 0 <= i < j < |r| ensures r[i].id != r[j].id {
      assert r[i] in r && r[j] in r;
    }
  }

  class LocalDatabase {
    /** Whether `init` has set the database handle (`this.db !== null`). */
    var ready: bool
    var conversations: map<string, Conversation>
    var messages: map<string, StoredMessage>

    ghost predicate Valid()
      reads this
    {
      ConversationsKeyed(conversations) && MessagesKeyed(messages)
    }

    /**
     * `new LocalDatabase()`: no handle yet; the tables hold whatever earlier
     * sessions persisted.
     */
    constructor (persistedConversations: map<string, Conversation>, persistedMessages: map<string, StoredMessage>)
      requires ConversationsKeyed(persistedConversations) && MessagesKeyed(persistedMessages)
      ensures Valid() && !ready
      ensures conversations == persistedConversations && messages == persistedMessages
    {
      ready := false;
      conversations := persistedConversations;
      messages := persistedMessages;
    }

    /** `init`: opening the database sets the handle; a failed open leaves it as it was. */
    method Init(openSucceeds: bool) returns (r: Outcome<DbError>)
      requires Valid()
      modifies this`ready
      ensures Valid()
      ensures r == if openSucceeds then Pass else Fail(OpenFailed)
      ensures ready == (old(ready) || openSucceeds)
    {
      if !openSucceeds {
        return Fail(OpenFailed);
      }
      ready := true;
      return Pass;
    }

    /** `saveConversation`: `put` is an upsert keyed by `id`. */
    method SaveConversation(c: Conversation) returns (r: Outcome<DbError>)
      requires Valid()
      modifies this`conversations
      ensures Valid()
      ensures r == if ready then Pass else Fail(NotInitialized)
      ensures r.Pass? ==> conversations == old(conversations)[c.id := c]
      ensures r.Fail? ==> conversations == old(conversations)
    {
      if !ready {
        return Fail(NotInitialized);
      }
      conversations := conversations[c.id := c];
      return Pass;
    }

    /** `getConversations`: every stored conversation once, newest `updatedAt` first. */
    method GetConversations() returns (r: Result<seq<Conversation>, DbError>)
      requires Valid()
      ensures !ready ==> r == Err(NotInitialized)
      ensures r.Ok? <==> ready
      ensures r.Ok? ==> ListsConversations(r.value, conversations)
      ensures r.Ok? ==> forall i, j :: 0 <= i < j < |r.value| ==> r.value[i].updatedAt >= r.value[j].updatedAt
    {
      if !ready {
        return Err(NotInitialized);
      }
      var rest := conversations.Keys;
      var listed: seq<Conversation> := [];
      while rest != {}
        invariant rest <= conversations.Keys
        invariant Ordered(listed, ConversationKey)
        invariant forall c :: c in listed <==> StoresConversation(conversations, c) && c.id !in rest
        decreases rest
      {
        var k :| k in rest;
        var c := conversations[k];
        forall i | 0 <= i < |listed| ensures ConversationKey(listed[i]) != ConversationKey(c) {
          assert listed[i] in listed;
        }
        InsertOrdered(listed, c, ConversationKey);
        listed := Insert(listed, c, ConversationKey);
        rest := rest - {k};
      }
      return Ok(listed);
    }

    /**
     * `saveMessages(cid, ms)`: clear the whole messages table, then `add`
     * each message tagged `cid`. An `add` on an id already added fails, which
     * aborts the transaction and so rolls the clear back as well.
     */
    method SaveMessages(cid: string, ms: seq<Message>) returns (r: Outcome<DbError>)
      requires Valid()
      modifies this`messages
      ensures Valid()
      ensures r == if !ready then Fail(NotInitialized)
                   else if !UniqueIds(ms) then Fail(ConstraintError)
                   else Pass
      ensures r.Pass? ==> messages == Tagged(cid, ms)
      ensures r.Fail? ==> messages == old(messages)
    {
      if !ready {
        return Fail(NotInitialized);
      }
      var table: map<string, StoredMessage> := map[];
      var i := 0;
      while i < |ms|
        invariant 0 <= i <= |ms|
        invariant messages == old(messages)
        invariant UniqueIds(ms[..i])
        invariant table == Tagged(cid, ms[..i])
      {
        TaggedKeys(cid, ms[..i], ms[i].id);
        if ms[i].id in table {
          var j :| 0 <= j < i && ms[..i][j].id == ms[i].id;
          assert ms[j].id == ms[i].id;
          return Fail(ConstraintError);
        }
        assert ms[..i + 1] == ms[..i] + [ms[i]];
        AppendFresh(ms[..i], ms[i]);
        TaggedAppend(cid, ms[..i], ms[i]);
        table := table[ms[i].id := StoredMessage(ms[i], cid)];
        i := i + 1;
      }
      assert ms[..i] == ms;
      messages := table;
      return Pass;
    }

    /**
     * `getMessages(query)`: the messages of the rows the index matches,
     * oldest `createdAt` first. The code passes a conversation id; a null
     * key (what a stale null id turns into) matches every row.
     */
    method GetMessages(query: Option<string>) returns (r: Result<seq<Message>, DbError>)
      requires Valid()
      ensures !ready ==> r == Err(NotInitialized)
      ensures r.Ok? <==> ready
      ensures r.Ok? ==> ListsMessages(r.value, messages, query)
      ensures r.Ok? ==> forall i, j :: 0 <= i < j < |r.value| ==> r.value[i].createdAt <= r.value[j].createdAt
    {
      if !ready {
        return Err(NotInitialized);
      }
      var rest := messages.Keys;
      var listed: seq<Message> := [];
      while rest != {}
        invariant rest <= messages.Keys
        invariant Ordered(listed, MessageKey)
        invariant forall m :: m in listed <==> StoresMessage(messages, query, m) && m.id !in rest
        decreases rest
      {
        var k :| k in rest;
        var row := messages[k];
        if Matches(query, row) {
          forall i | 0 <= i < |listed| ensures MessageKey(listed[i]) != MessageKey(row.message) {
            assert listed[i] in listed;
          }
          InsertOrdered(listed, row.message, MessageKey);
          listed := Insert(listed, row.message, MessageKey);
        }
        rest := rest - {k};
      }
      return Ok(listed);
    }

    /**
     * `deleteConversation(cid)`: delete the conversation row, look up the
     * keys of its messages through the index and delete each of them.
     */
    method DeleteConversation(cid: string) returns (r: Outcome<DbError>)
      requires Valid()
      modifies this`conversations, this`messages
      ensures Valid()
      ensures r == if ready then Pass else Fail(NotInitialized)
      ensures r.Pass? ==> conversations == old(conversations) - {cid}
      ensures r.Pass? ==> messages == Cascade(old(messages), cid)
      ensures r.Fail? ==> conversations == old(conversations) && messages == old(messages)
    {
      if !ready {
        return Fail(NotInitialized);
      }
      conversations := conversations - {cid};
      var keys := set k | k in messages && messages[k].conversationId == cid;
      while keys != {}
        invariant conversations == old(conversations) - {cid}
        invariant keys <= messages.Keys
        invariant MessagesKeyed(messages)
        invariant forall k :: k in messages <==> k in old(messages) && (old(messages)[k].conversationId != cid || k in keys)
        invariant forall k :: k in messages ==> messages[k] == old(messages)[k]
        decreases keys
      {
        var k :| k in keys;
        messages := messages - {k};
        keys := keys - {k};
      }
      assert messages == Cascade(old(messages), cid);
      return Pass;
    }
  }
}
