/** The event loop of `ChatMessageView.generate_response_response`
    (chat/views.py): each upstream event of the Responses API stream either
    updates the `ai_content` buffers, or is turned into one normalised chunk,
    or both, or is skipped. */
module Translator {
  import opened Base
  import opened JsonValues
  import opened ChatChunks

  /** An upstream stream event, by its `type`. */
  datatype Event =
    | Created(responseId: string)                      // "response.created"
    | ReasoningDelta(itemId: string, delta: string)    // "response.reasoning_summary_text.delta"
    | OutputDelta(itemId: string, delta: string)       // "response.output_text.delta"
    | Completed(responseId: string, totalTokens: int)  // "response.completed", with usage.total_tokens
    | OtherEvent(kind: string)                         // any other type
    | Untyped                                          // an object without a `type` attribute

  /** The `ai_content` dict: reasoning_content, content, tokens, response_id. */
  datatype Acc = Acc(reasoning: string, content: string, tokens: int, responseId: string)

  /** `ai_content` before the first event. */
  const Empty := Acc("", "", 0, "")

  const Assistant := "assistant"

  /** The chunk for a reasoning delta: content "", the delta as reasoning. */
  function ReasoningChunk(itemId: string, delta: string, model: string, created: int): Json {
    CreateChatChunk(itemId, [ChoiceToDict(Choice("", Assistant, 0, delta, None))], model, created, "response", None)
  }

  /** The chunk for an output-text delta: the delta as content. */
  function ContentChunk(itemId: string, delta: string, model: string, created: int): Json {
    CreateChatChunk(itemId, [ChoiceToDict(Choice(delta, Assistant, 0, "", None))], model, created, "response", None)
  }

  /** The chunk for `response.completed`: no choices, the total as usage. */
  function UsageChunk(responseId: string, total: int, model: string, created: int): Json {
    CreateChatChunk(responseId, [], model, created, "response", Some(total))
  }

  /** One iteration of the event loop: the new buffers and the chunks yielded. */
  function Step(acc: Acc, e: Event, model: string, created: int): (Acc, seq<Json>) {
    match e
    case Untyped => (acc, [])
    case Created(id) =>
      // Only the first capture happens; a later created event falls through
      // every branch and yields nothing.
      if acc.responseId == "" then (acc.(responseId := id), []) else (acc, [])
    case ReasoningDelta(item, d) =>
      (acc.(reasoning := acc.reasoning + d), [ReasoningChunk(item, d, model, created)])
    case OutputDelta(item, d) =>
      (acc.(content := acc.content + d), [ContentChunk(item, d, model, created)])
    case Completed(id, total) =>
      (acc.(tokens := total), [UsageChunk(id, total, model, created)])
    case OtherEvent(_) => (acc, [])
  }

  /** The loop run over `events`: the final buffers and every chunk yielded. */
  function Translate(events: seq<Event>, model: string, created: int): (Acc, seq<Json>)
    decreases |events|
  {
    if events == [] then (Empty, [])
    else
      var prev := Translate(events[..|events| - 1], model, created);
      var step := Step(prev.0, events[|events| - 1], model, created);
      (step.0, prev.1 + step.1)
  }

  /** The event loop, as the source runs it: it mutates the buffers and
      appends each yielded chunk. */
  method TranslateEvents(events: seq<Event>, model: string, created: int) returns (acc: Acc, chunks: seq<Json>)
    ensures (acc, chunks) == Translate(events, model, created)
  {
    acc, chunks := Empty, [];
    var i := 0;
    while i < |events|
      invariant 0 <= i <= |events|
      invariant (acc, chunks) == Translate(events[..i], model, created)
    {
      var e := events[i];
      assert events[..i + 1][..i] == events[..i];
      ghost var next := Step(acc, e, model, created);
      assert Translate(events[..i + 1], model, created) == (next.0, chunks + next.1);
      assert chunks + [] == chunks;
      if !e.Untyped? {
        if acc.responseId == "" && e.Created? {
          acc := acc.(responseId := e.responseId);
          i := i + 1;
          continue;
        }
        if e.ReasoningDelta? {
          acc := acc.(reasoning := acc.reasoning + e.delta);
          chunks := chunks + [ReasoningChunk(e.itemId, e.delta, model, created)];
        } else if e.OutputDelta? {
          acc := acc.(content := acc.content + e.delta);
          chunks := chunks + [ContentChunk(e.itemId, e.delta, model, created)];
        }
        if e.Completed? {
          acc := acc.(tokens := e.totalTokens);
          chunks := chunks + [UsageChunk(e.responseId, e.totalTokens, model, created)];
        }
      }
      i := i + 1;
    }
    assert events[..i] == events;
  }

  // ---------------------------------------------------------------------
  // Reference definitions, read front to back.

  /** All output-text deltas, concatenated in arrival order. */
  function OutputText(events: seq<Event>): string {
    if events == [] then ""
    else (if events[0].OutputDelta? then events[0].delta else "") + OutputText(events[1..])
  }

  /** All reasoning deltas, concatenated in arrival order. */
  function ReasoningText(events: seq<Event>): string {
    if events == [] then ""
    else (if events[0].ReasoningDelta? then events[0].delta else "") + ReasoningText(events[1..])
  }

  /** The id of the first created event whose id is non-empty, or "". */
  function FirstResponseId(events: seq<Event>): string {
    if events == [] then ""
    else if events[0].Created? && events[0].responseId != "" then events[0].responseId
    else FirstResponseId(events[1..])
  }

  /** The total of the last completed event, if any. */
  function LastUsage(events: seq<Event>): Option<int> {
    if events == [] then None
    else if events[|events| - 1].Completed? then Some(events[|events| - 1].totalTokens)
    else LastUsage(events[..|events| - 1])
  }

  /** The chunks one event yields, whatever the buffers hold. */
  function Emitted(e: Event, model: string, created: int): seq<Json> {
    Step(Empty, e, model, created).1
  }

  /** The chunks of every event, concatenated in arrival order. */
  function AllChunks(events: seq<Event>, model: string, created: int): seq<Json> {
    if events == [] then [] else Emitted(events[0], model, created) + AllChunks(events[1..], model, created)
  }

  /** True for the events that yield a chunk. */
  predicate Yields(e: Event) {
    e.ReasoningDelta? || e.OutputDelta? || e.Completed?
  }

  /** The number of events that yield a chunk. */
  function YieldCount(events: seq<Event>): nat {
    if events == [] then 0 else (if Yields(events[0]) then 1 else 0) + YieldCount(events[1..])
  }

  // ---------------------------------------------------------------------
  // Lemmas.

  /** What an event yields does not depend on the buffers: exactly one chunk
      for a delta or a completed event, none for the others (created events
      included, captured or not). */
  lemma StepYield(acc: Acc, e: Event, model: string, created: int)
    ensures Step(acc, e, model, created).1 == Emitted(e, model, created)
    ensures |Emitted(e, model, created)| == if Yields(e) then 1 else 0
  {
  }

  lemma {:induction false} OutputTextSnoc(events: seq<Event>, e: Event)
    ensures OutputText(events + [e]) == OutputText(events) + (if e.OutputDelta? then e.delta else "")
  {
    if events != [] {
      assert (events + [e])[1..] == events[1..] + [e];
      OutputTextSnoc(events[1..], e);
    }
  }

  lemma {:induction false} ReasoningTextSnoc(events: seq<Event>, e: Event)
    ensures ReasoningText(events + [e]) == ReasoningText(events) + (if e.ReasoningDelta? then e.delta else "")
  {
    if events != [] {
      assert (events + [e])[1..] == events[1..] + [e];
      ReasoningTextSnoc(events[1..], e);
    }
  }

  lemma {:induction false} FirstResponseIdSnoc(events: seq<Event>, e: Event)
    ensures FirstResponseId(events + [e]) ==
      if FirstResponseId(events) != "" then FirstResponseId(events)
      else if e.Created? then e.responseId else ""
  {
    if events != [] {
      assert (events + [e])[1..] == events[1..] + [e];
      FirstResponseIdSnoc(events[1..], e);
    }
  }

  lemma {:induction false} AllChunksSnoc(events: seq<Event>, e: Event, model: string, created: int)
    ensures AllChunks(events + [e], model, created) == AllChunks(events, model, created) + Emitted(e, model, created)
  {
    if events != [] {
      assert (events + [e])[1..] == events[1..] + [e];
      AllChunksSnoc(events[1..], e, model, created);
    }
  }

  /** The loop's buffers are the independent readings of the events: the
      reasoning and the content are the in-order concatenations of their own
      deltas, the tokens are the last completed total (0 when the stream never
      completed), and the response id is the first non-empty created id. */
  lemma {:induction false} TranslateBuffers(events: seq<Event>, model: string, created: int)
    ensures Translate(events, model, created).0 ==
      Acc(ReasoningText(events), OutputText(events), LastUsage(events).GetOr(0), FirstResponseId(events))
    decreases |events|
  {
    if events != [] {
      var init, e := events[..|events| - 1], events[|events| - 1];
      assert events == init + [e];
      TranslateBuffers(init, model, created);
      OutputTextSnoc(init, e);
      ReasoningTextSnoc(init, e);
      FirstResponseIdSnoc(init, e);
    }
  }

  /** The yielded chunks are each event's own chunks, in arrival order. */
  lemma {:induction false} TranslateChunks(events: seq<Event>, model: string, created: int)
    ensures Translate(events, model, created).1 == AllChunks(events, model, created)
    decreases |events|
  {
    if events != [] {
      var init, e := events[..|events| - 1], events[|events| - 1];
      assert events == init + [e];
      TranslateChunks(init, model, created);
      StepYield(Translate(init, model, created).0, e, model, created);
      AllChunksSnoc(init, e, model, created);
    }
  }

  /** Splitting the stream splits the chunks: the chunks of `a + b` are the
      chunks of `a` followed by those of `b`. */
  lemma {:induction false} AllChunksAppend(a: seq<Event>, b: seq<Event>, model: string, created: int)
    ensures AllChunks(a + b, model, created) == AllChunks(a, model, created) + AllChunks(b, model, created)
  {
    if a != [] {
      assert (a + b)[1..] == a[1..] + b;
      AllChunksAppend(a[1..], b, model, created);
    } else {
      assert a + b == b;
    }
  }

  /** One chunk per delta or completed event. */
  lemma {:induction false} AllChunksCount(events: seq<Event>, model: string, created: int)
    ensures |AllChunks(events, model, created)| == YieldCount(events)
  {
    if events != [] {
      StepYield(Empty, events[0], model, created);
      AllChunksCount(events[1..], model, created);
    }
  }

  // ---------------------------------------------------------------------
  // The shape of every chunk.

  /** The choices of a chunk. */
  function ChoicesOf(ch: Json): seq<Json> {
    match Get(ch, "choices")
    case Some(JArr(cs)) => cs
    case _ => []
  }

  /** The delta dict of a choice. */
  function DeltaOf(c: Json): Json {
    match Get(c, "delta")
    case Some(d) => d
    case None => JNull
  }

  /** A chunk carries one channel: its single choice never holds a
      reasoning delta beside non-empty content. */
  predicate OneChannel(ch: Json) {
    forall c <- ChoicesOf(ch) ::
      !(HasKey(DeltaOf(c), "reasoning_content") && Get(DeltaOf(c), "content") != Some(JStr("")))
  }

  /** A chunk as the loop yields it: the model, the one `created` value,
      object "response", and either a single assistant choice at index 0
      carrying one channel, or no choices and then a usage key exactly when
      the usage is non-zero. */
  predicate WellFormedChunk(ch: Json, model: string, created: int) {
    && ch.JObj?
    && Get(ch, "created") == Some(JInt(created))
    && Get(ch, "model") == Some(JStr(model))
    && Get(ch, "object") == Some(JStr("response"))
    && HasKey(ch, "id")
    && OneChannel(ch)
    && (|ChoicesOf(ch)| == 1 || (ChoicesOf(ch) == [] && Get(ch, "choices") == Some(JArr([]))))
    && (forall c <- ChoicesOf(ch) ::
          Get(c, "index") == Some(JInt(0)) && Get(DeltaOf(c), "role") == Some(JStr(Assistant)))
  }

  lemma ChoiceFacts(c: Choice)
    requires c.finishReason == None
    ensures Get(ChoiceToDict(c), "index") == Some(JInt(c.index))
    ensures DeltaOf(ChoiceToDict(c)) == JObj(DeltaFields(c))
  {
  }

  /** A chunk of one assistant choice at index 0 with no finish reason,
      and with content or reasoning empty, is well formed. */
  lemma SingleChoiceChunk(item: string, choice: Choice, model: string, created: int)
    requires choice.finishReason == None && choice.index == 0 && choice.role == Assistant
    requires choice.content == "" || choice.reasoningContent == ""
    ensures var ch := CreateChatChunk(item, [ChoiceToDict(choice)], model, created, "response", None);
      ChoicesOf(ch) == [ChoiceToDict(choice)] && WellFormedChunk(ch, model, created)
  {
    var ch := CreateChatChunk(item, [ChoiceToDict(choice)], model, created, "response", None);
    ChunkFields(item, [ChoiceToDict(choice)], model, created, "response", None);
    ChunkKeys(item, [ChoiceToDict(choice)], model, created, "response", None);
    assert ChoicesOf(ch) == [ChoiceToDict(choice)];
    ChoiceFacts(choice);
    DeltaShape(choice);
  }

  lemma ReasoningChunkShape(item: string, d: string, model: string, created: int)
    ensures WellFormedChunk(ReasoningChunk(item, d, model, created), model, created)
    ensures var c := ChoicesOf(ReasoningChunk(item, d, model, created));
      |c| == 1 && Get(DeltaOf(c[0]), "content") == Some(JStr(""))
      && (HasKey(DeltaOf(c[0]), "reasoning_content") <==> d != "")
  {
    var choice := Choice("", Assistant, 0, d, None);
    SingleChoiceChunk(item, choice, model, created);
    ChoiceFacts(choice);
    DeltaShape(choice);
  }

  lemma ContentChunkShape(item: string, d: string, model: string, created: int)
    ensures WellFormedChunk(ContentChunk(item, d, model, created), model, created)
    ensures var c := ChoicesOf(ContentChunk(item, d, model, created));
      |c| == 1 && Get(DeltaOf(c[0]), "content") == Some(JStr(d))
      && !HasKey(DeltaOf(c[0]), "reasoning_content")
  {
    var choice := Choice(d, Assistant, 0, "", None);
    SingleChoiceChunk(item, choice, model, created);
    ChoiceFacts(choice);
    DeltaShape(choice);
  }

  lemma UsageChunkShape(id: string, total: int, model: string, created: int)
    ensures WellFormedChunk(UsageChunk(id, total, model, created), model, created)
    ensures Get(UsageChunk(id, total, model, created), "id") == Some(JStr(id))
    ensures Get(UsageChunk(id, total, model, created), "usage") == if total != 0 then Some(JInt(total)) else None
  {
    ChunkFields(id, [], model, created, "response", Some(total));
    ChunkKeys(id, [], model, created, "response", Some(total));
    ChunkUsage(id, [], model, created, "response", Some(total));
  }

  /** Every chunk the loop yields is well formed: one channel per chunk, and
      all of them carry the same `created` stamp (the default argument of
      `create_chat_chunk` is evaluated once). */
  lemma {:induction false} AllChunksWellFormed(events: seq<Event>, model: string, created: int)
    ensures forall ch <- AllChunks(events, model, created) :: WellFormedChunk(ch, model, created)
  {
    if events != [] {
      AllChunksWellFormed(events[1..], model, created);
      match events[0]
      case ReasoningDelta(item, d) => ReasoningChunkShape(item, d, model, created);
      case OutputDelta(item, d) => ContentChunkShape(item, d, model, created);
      case Completed(id, total) => UsageChunkShape(id, total, model, created);
      case _ =>
    }
  }
}
