/**
 * What the chat hooks see of the in-browser inference engine: the status
 * texts they publish while it loads, and a streamed completion, taken as
 * the list of chunks it delivered followed by either a normal end or a
 * thrown error. A chunk carries a text delta or none
 * (`chunk.choices[0]?.delta?.content` is undefined).
 */
module Engine {
  import opened Records

  const NotInitializedStatus := "Not initialized"
  const LoadingStatus := "Loading model..."
  const InitializingStatus := "Initializing..."
  const ReadyStatus := "Model ready!"
  const FailedStatus := "Failed to load model"

  /** The status shown for one progress report: its text, or a fallback when the text is empty. */
  function ProgressStatus(text: string): (r: string)
    ensures r != ""
    ensures text != "" ==> r == text
    ensures text == "" ==> r == InitializingStatus
  {
    if text != "" then text else InitializingStatus
  }

  /** The statuses the progress reports publish, one per report, in order. */
  function ProgressStatuses(reports: seq<string>): (r: seq<string>)
    ensures |r| == |reports|
    ensures forall i :: 0 <= i < |reports| ==> r[i] == ProgressStatus(reports[i])
  {
    seq(|reports|, i requires 0 <= i < |reports| => ProgressStatus(reports[i]))
  }

  /** One more report adds its status at the end. */
  lemma ProgressStatusesStep(reports: seq<string>, i: nat)
    requires i < |reports|
    ensures ProgressStatuses(reports[..i + 1]) == ProgressStatuses(reports[..i]) + [ProgressStatus(reports[i])]
  {
    assert reports[..i + 1][..i] == reports[..i];
  }

  /**
   * The statuses an engine load publishes, in order: the loading notice,
   * one per progress report, then the ready or failure notice.
   */
  function StatusTrace(reports: seq<string>, loads: bool): (r: seq<string>)
    ensures |r| == |reports| + 2
    ensures r[0] == LoadingStatus
    ensures forall i :: 0 <= i < |reports| ==> r[i + 1] == ProgressStatus(reports[i])
    ensures r[|r| - 1] == if loads then ReadyStatus else FailedStatus
  {
    [LoadingStatus] + ProgressStatuses(reports) + [if loads then ReadyStatus else FailedStatus]
  }

  /** The status texts of a run of published states, in order. */
  function Statuses<S>(log: seq<S>, status: S -> string): (r: seq<string>)
    ensures |r| == |log|
    ensures forall i :: 0 <= i < |log| ==> r[i] == status(log[i])
  {
    seq(|log|, i requires 0 <= i < |log| => status(log[i]))
  }

  lemma StatusesAppend<S>(log: seq<S>, s: S, status: S -> string)
    ensures Statuses(log + [s], status) == Statuses(log, status) + [status(s)]
  {
    assert (log + [s])[..|log|] == log;
  }

  datatype StreamEnd = Finished | Threw

  /** A completion: the chunks delivered before the stream ended or threw. */
  datatype Completion = Completion(chunks: seq<Option<string>>, end: StreamEnd)

  /** `if (delta)`: a missing delta and the empty string are both skipped. */
  predicate IsDelta(chunk: Option<string>) {
    chunk.Some? && chunk.value != ""
  }

  /** The text of a chunk's delta, empty when it has none. */
  function DeltaText(chunk: Option<string>): string {
    if chunk.Some? then chunk.value else ""
  }

  /** A chunk adds text to the reply exactly when it passes the `if (delta)` test, and then adds its delta. */
  lemma DeltaTextIff(chunk: Option<string>)
    ensures DeltaText(chunk) != "" <==> IsDelta(chunk)
    ensures IsDelta(chunk) ==> DeltaText(chunk) == chunk.value
  {
  }

  /** The assistant content after `chunks`: their deltas joined in arrival order (`fullContent += delta`). */
  function Merged(chunks: seq<Option<string>>): string {
    if chunks == [] then "" else Merged(chunks[..|chunks| - 1]) + DeltaText(chunks[|chunks| - 1])
  }

  /** A stream without a single delta leaves the reply empty. */
  lemma {:induction false} MergedWithoutDeltas(chunks: seq<Option<string>>)
    requires forall i :: 0 <= i < |chunks| ==> !IsDelta(chunks[i])
    ensures Merged(chunks) == ""
  {
    if chunks != [] {
      var init := chunks[..|chunks| - 1];
      assert forall i :: 0 <= i < |init| ==> init[i] == chunks[i];
      MergedWithoutDeltas(init);
    }
  }

  /** Merging a stream in two parts is merging each part and joining the results. */
  lemma {:induction false} MergedAppend(a: seq<Option<string>>, b: seq<Option<string>>)
    ensures Merged(a + b) == Merged(a) + Merged(b)
  {
    if b != [] {
      assert (a + b)[..|a + b| - 1] == a + b[..|b| - 1];
      MergedAppend(a, b[..|b| - 1]);
    } else {
      assert a + b == a;
    }
  }

  /** The content after the first `i` chunks is a prefix of the content after the first `j`. */
  lemma MergedGrows(chunks: seq<Option<string>>, i: nat, j: nat)
    requires i <= j <= |chunks|
    ensures Merged(chunks[..i]) <= Merged(chunks[..j])
  {
    assert chunks[..j] == chunks[..i] + chunks[i..j];
    MergedAppend(chunks[..i], chunks[i..j]);
  }

  /** One more chunk extends the content by its delta, and the content so far is a prefix of the final one. */
  lemma MergedStep(chunks: seq<Option<string>>, i: nat)
    requires i < |chunks|
    ensures Merged(chunks[..i + 1]) == Merged(chunks[..i]) + DeltaText(chunks[i])
    ensures Merged(chunks[..i + 1]) <= Merged(chunks)
  {
    assert chunks[..i + 1][..i] == chunks[..i];
    MergedGrows(chunks, i + 1, |chunks|);
    assert chunks[..|chunks|] == chunks;
  }

  /** Deltas "Hi", " there", "!" in that order give "Hi there!". */
  lemma MergedThreeDeltas()
    ensures Merged([Some("Hi"), Some(" there"), Some("!")]) == "Hi there!"
  {
    assert [Some("Hi"), Some(" there"), Some("!")][..2] == [Some("Hi"), Some(" there")];
    assert [Some("Hi"), Some(" there")][..1] == [Some("Hi")];
    assert [Some("Hi")][..0] == [];
  }

  /**
   * The `map` that gives the message with id `id` the content `text` and
   * leaves every other message as it is.
   */
  function ReplaceContent(ms: seq<Message>, id: string, text: string): (r: seq<Message>)
    ensures |r| == |ms|
    ensures forall i :: 0 <= i < |ms| ==>
              r[i].id == ms[i].id && r[i].role == ms[i].role && r[i].createdAt == ms[i].createdAt
    ensures forall i :: 0 <= i < |ms| && ms[i].id != id ==> r[i] == ms[i]
    ensures forall i :: 0 <= i < |ms| && ms[i].id == id ==> r[i].content == text
  {
    seq(|ms|, i requires 0 <= i < |ms| => if ms[i].id == id then ms[i].(content := text) else ms[i])
  }

  /**
   * When the placeholder is the last message and no earlier message shares
   * its id, the replacement touches only the placeholder.
   */
  lemma ReplaceLast(prefix: seq<Message>, placeholder: Message, text: string)
    requires !HasMessageId(prefix, placeholder.id)
    ensures ReplaceContent(prefix + [placeholder], placeholder.id, text)
            == prefix + [placeholder.(content := text)]
  {
    var r := ReplaceContent(prefix + [placeholder], placeholder.id, text);
    forall i | 0 <= i < |prefix| ensures r[i] == prefix[i] {
      assert (prefix + [placeholder])[i] == prefix[i];
    }
  }

  /**
   * The message list once a reply has streamed in: the messages shown
   * before, the user message, and the reply carrying the joined deltas. It
   * is what the streaming `map` over the list with the placeholder yields
   * for the final content.
   */
  function AfterSend(before: seq<Message>, user: Message, assistant: Message, chunks: seq<Option<string>>): (r: seq<Message>)
    requires !HasMessageId(before, assistant.id) && user.id != assistant.id
    ensures r == ReplaceContent(before + [user, assistant], assistant.id, Merged(chunks))
    ensures |r| == |before| + 2 && r[..|before|] == before
  {
    ReplaceLast(before + [user], assistant, Merged(chunks));
    assert before + [user, assistant] == before + [user] + [assistant];
    before + [user, assistant.(content := Merged(chunks))]
  }

  /**
   * A message list the view may be shown while a reply streams in: the
   * list before the placeholder, or that list followed by the placeholder
   * carrying a prefix of the final content.
   */
  predicate StreamSnapshot(ms: seq<Message>, before: seq<Message>, placeholder: Message, final: string) {
    || ms == before
    || (&& |ms| == |before| + 1
        && ms[..|before|] == before
        && ms[|before|] == placeholder.(content := ms[|before|].content)
        && ms[|before|].content <= final)
  }

  /** A view shown while a reply streams in: still loading, and a snapshot of the reply growing. */
  predicate StreamView(isLoading: bool, ms: seq<Message>, before: seq<Message>, placeholder: Message, final: string) {
    isLoading && StreamSnapshot(ms, before, placeholder, final)
  }
}
