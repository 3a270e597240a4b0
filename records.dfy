/**
 * The records shared by the chat client: the `Message` of
 * src/hooks/use-local-chat.ts and the `Conversation` of src/lib/db.ts,
 * plus the small wrapper types the model uses for absent values and for
 * the errors the code raises. Dates are milliseconds since the epoch.
 */
module Records {

  datatype Option<+T> = None | Some(value: T)

  /** The outcome of an operation that returns nothing but may fail. */
  datatype Outcome<+E> = Pass | Fail(error: E)

  /** The outcome of an operation that returns a value or fails. */
  datatype Result<+T, +E> = Ok(value: T) | Err(error: E)

  datatype Role = User | Assistant

  datatype Message = Message(id: string, role: Role, content: string, createdAt: int)

  datatype Conversation = Conversation(id: string, title: string, createdAt: int, updatedAt: int)

  /**
   * JavaScript truthiness of an id that may be null: `null` and the empty
   * string are both falsy, so `if (!id) return` treats them alike.
   */
  predicate IsSet(id: Option<string>) {
    id.Some? && id.value != ""
  }

  /** No two messages share an id (the key path of the messages table). */
  predicate UniqueIds(ms: seq<Message>) {
    forall i, j :: 0 <= i < j < |ms| ==> ms[i].id != ms[j].id
  }

  /** `id` is the id of some message of `ms`. */
  predicate HasMessageId(ms: seq<Message>, id: string) {
    exists i :: 0 <= i < |ms| && ms[i].id == id
  }

  /** `id` is the id of some conversation of `cs`. */
  predicate Names(cs: seq<Conversation>, id: string) {
    exists i :: 0 <= i < |cs| && cs[i].id == id
  }

  /** `a` is `b` with some elements left out and the rest kept in order. */
  predicate IsSubsequence<T(==)>(a: seq<T>, b: seq<T>) {
    if a == [] then true
    else if b == [] then false
    else (a[0] == b[0] && IsSubsequence(a[1..], b[1..])) || IsSubsequence(a, b[1..])
  }

  /** Appending a message with a new id keeps the ids unique. */
  lemma AppendFresh(ms: seq<Message>, m: Message)
    requires UniqueIds(ms) && !HasMessageId(ms, m.id)
    ensures UniqueIds(ms + [m])
  {
    forall i | 0 <= i < |ms| ensures (ms + [m])[i].id != m.id {
      assert (ms + [m])[i] == ms[i];
    }
  }

  /** An id absent from `ms` and different from `m`'s is absent from `ms + [m]`. */
  lemma AppendAbsent(ms: seq<Message>, m: Message, id: string)
    requires !HasMessageId(ms, id) && m.id != id
    ensures !HasMessageId(ms + [m], id)
  {
    forall i | 0 <= i < |ms| + 1 ensures (ms + [m])[i].id != id {
      if i < |ms| {
        assert (ms + [m])[i] == ms[i];
      }
    }
  }
}
