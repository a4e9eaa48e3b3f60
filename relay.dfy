/** `ChatMessageView.generate_response_response` wrapped in `SSEGenerator`
    (chat/views.py): what the client receives and what is stored for one
    streamed assistant reply.

    The generator body runs lazily, from the first frame the client pulls,
    and every exception it raises reaches the `except` of `__iter__`. So a
    failure before `message_start` (no model, a bad `think_type`, a refused
    upstream call) yields one error frame and stores nothing. Once the event
    loop has started, the `finally` block validates and stores the reply
    and then yields `message_end`; the exception that ended the loop, if
    any, is re-raised after it and becomes a last error frame. A rejected
    store raises in its place, so no `message_end` is sent. */
module Relay {
  import opened Base
  import opened JsonValues
  import opened Translator
  import opened Sse
  import opened ChatModels
  import opened DrfFields

  /** A value or the `str()` of the exception raised in its place. */
  datatype Outcome<T> = Ok(value: T) | Raised(message: string)

  // ---------------------------------------------------------------------
  // Request configuration.

  /** `ChatMessageView.think`. */
  const ThinkModes: seq<string> := ["disabled", "enabled", "auto"]

  /** The `think_type` of a request body: an integer, or any other JSON
      value, named by its Python type. */
  datatype ThinkArg = ThinkInt(i: int) | ThinkOther(typeName: string)

  /** `self.think[think_type]`, with Python's tuple indexing. */
  function ThinkMode(t: ThinkArg): Outcome<string> {
    match t
    case ThinkInt(i) =>
      if -3 <= i < 0 then Ok(ThinkModes[i + 3])
      else if 0 <= i < 3 then Ok(ThinkModes[i])
      else Raised("tuple index out of range")
    case ThinkOther(name) => Raised("tuple indices must be integers or slices, not " + name)
  }

  /** Indices -3 to 2 pick a mode, counting from the end when negative;
      every other integer is out of range and any other type is refused.
      The default `think_type` 1 asks for "enabled". */
  lemma ThinkModeCases(t: ThinkArg)
    ensures ThinkMode(t).Ok? <==> t.ThinkInt? && -3 <= t.i < 3
    ensures ThinkMode(t).Ok? ==> ThinkMode(t).value == ThinkModes[t.i % 3]
    ensures ThinkMode(ThinkInt(1)) == Ok("enabled")
  {
  }

  /** The `response_config` passed to `responses.create`. */
  function ResponseConfig(modelId: string, content: string, mode: string, previous: Option<string>): Json {
    var fields := [
      ("model", JStr(modelId)),
      ("input", JArr([JObj([("role", JStr("user")), ("content", JStr(content))])])),
      ("stream", JBool(true)),
      ("extra_body", JObj([("thinking", JObj([("type", JStr(mode))]))]))];
    if previous.Some? && previous.value != "" then JObj(fields + [("previous_response_id", JStr(previous.value))])
    else JObj(fields)
  }

  /** The upstream request has the model, the input, the stream flag and
      the thinking mode, in that order, and then a continuation id exactly
      when one is given and non-empty. */
  lemma ResponseConfigKeys(modelId: string, content: string, mode: string, previous: Option<string>)
    ensures KeysOf(ResponseConfig(modelId, content, mode, previous).fields)
         == ["model", "input", "stream", "extra_body"]
            + (if previous.Some? && previous.value != "" then ["previous_response_id"] else [])
  {
  }

  /** The upstream request always streams, and it continues an earlier
      response exactly when the continuation id is non-empty. */
  lemma ResponseConfigShape(modelId: string, content: string, mode: string, previous: Option<string>)
    ensures var fs := ResponseConfig(modelId, content, mode, previous).fields;
      && Lookup(fs, "stream") == Some(JBool(true))
      && Lookup(fs, "previous_response_id") ==
           (if previous.Some? && previous.value != "" then Some(JStr(previous.value)) else None)
  {
    var fs := ResponseConfig(modelId, content, mode, previous).fields;
    assert fs[2] == ("stream", JBool(true));
    LookupFirst(fs, 2, "stream");
    if previous.Some? && previous.value != "" {
      LookupFirst(fs, 4, "previous_response_id");
    } else {
      ResponseConfigKeys(modelId, content, mode, previous);
      LookupNone(fs, "previous_response_id");
    }
  }

  // ---------------------------------------------------------------------
  // Serializer validation of the stored reply.

  /** Where a reply is stored. */
  datatype ReplyTarget = ReplyTarget(session: int, model: int, parent: int)

  /** The `ChatMessageSerializer` the `finally` block validates and saves:
      the accumulated reasoning and content, the tokens, and the response id
      or None when none was captured. The errors are listed in the
      serializer's field order. */
  function SaveReply(target: ReplyTarget, acc: Acc, now: int): Outcome<ChatMessage> {
    var reasoning := CheckChars(acc.reasoning, true, None);
    var content := CheckChars(acc.content, false, None);
    var respId: Checked<Option<string>> :=
      if acc.responseId == "" then Clean(None)
      else match CheckChars(acc.responseId, true, Some(100))
        case Clean(v) => Clean(Some(v))
        case Invalid(ds) => Invalid(ds);
    var errors := ErrorsOf("reasoning_content", reasoning) + ErrorsOf("content", content)
                  + ErrorsOf("message_resp_id", respId);
    if errors != [] then Raised(ErrorsText(errors))
    else Ok(ChatMessage(target.session, AssistantRole, Some(reasoning.value), content.value,
                        Some(target.model), now, acc.tokens, Some(target.parent), respId.value))
  }

  /** The reply is stored exactly when its content is not blank, the
      reasoning and content hold no NUL character and a captured response
      id fits in 100 characters. */
  lemma SaveReplyCases(target: ReplyTarget, acc: Acc, now: int)
    ensures SaveReply(target, acc, now).Ok? <==>
      && !IsBlank(acc.content) && NulChar !in Strip(acc.content)
      && (IsBlank(acc.reasoning) || NulChar !in Strip(acc.reasoning))
      && (acc.responseId == "" || IsBlank(acc.responseId)
          || (|Strip(acc.responseId)| <= 100 && NulChar !in Strip(acc.responseId)))
  {
    CheckCharsCases(acc.reasoning, true, None);
    CheckCharsCases(acc.content, false, None);
    CheckCharsCases(acc.responseId, true, Some(100));
  }

  /** A stored reply is an assistant message under the user's message,
      with the stripped texts, the tokens as captured and the response id
      only when one was captured. */
  lemma SaveReplyRow(target: ReplyTarget, acc: Acc, now: int)
    requires SaveReply(target, acc, now).Ok?
    ensures var row := SaveReply(target, acc, now).value;
      && row.role == AssistantRole && row.session == target.session
      && row.model == Some(target.model) && row.parentMessage == Some(target.parent)
      && row.content == Strip(acc.content) && row.reasoningContent == Some(Strip(acc.reasoning))
      && row.tokens == acc.tokens && row.createdAt == now
      && row.messageRespId == (if acc.responseId == "" then None else Some(Strip(acc.responseId)))
  {
    CheckCharsCases(acc.reasoning, true, None);
    CheckCharsCases(acc.content, false, None);
    CheckCharsCases(acc.responseId, true, Some(100));
    StripEmptyIffBlank(acc.reasoning);
    StripEmptyIffBlank(acc.responseId);
  }

  // ---------------------------------------------------------------------
  // The stream.

  /** How the upstream call went: refused outright, or opened with the
      events that arrived and how the stream ended. A client that goes away
      is the stream ending early: its events are a prefix. */
  datatype StreamEnd = Finished | Broken(message: string)
  datatype Upstream = Refused(message: string) | Opened(events: seq<Event>, end: StreamEnd)

  /** What the relay knows of the user's message. */
  datatype RelayContext = RelayContext(
    userMessageId: int,
    userContent: string,
    session: int,
    sessionData: Json,
    model: Option<(int, ChatModel)>,
    modelData: Json,
    previousResponseId: Option<string>)

  /** `chat_model.model_id` on a message whose model was deleted. */
  const NoModelText := "'NoneType' object has no attribute 'model_id'"

  /** The `message_start` payload: a placeholder assistant message. */
  function StartFields(ctx: RelayContext): seq<(string, Json)> {
    [("type", JStr("message_start")),
     ("data", JObj([
       ("id", JInt(-1)), ("role", JStr("assistant")), ("reasoning_content", JStr("")),
       ("content", JStr("")), ("created_at", JNull), ("tokens", JInt(0)),
       ("message_resp_id", JNull), ("session", ctx.sessionData), ("model", ctx.modelData),
       ("parent_message", JInt(ctx.userMessageId))]))]
  }

  /** The `message_end` payload: the stored message's id, time, response id
      and tokens. */
  function EndFields(id: int, createdAtText: string, row: ChatMessage): seq<(string, Json)> {
    [("type", JStr("message_end")),
     ("data", JObj([
       ("id", JInt(id)), ("created_at", JStr(createdAtText)),
       ("message_resp_id", if row.messageRespId.Some? then JStr(row.messageRespId.value) else JNull),
       ("tokens", JInt(row.tokens))]))]
  }

  /** The chunks as payloads of the framing loop. */
  function ChunkPayloads(chunks: seq<Json>): (r: seq<Payload>)
    requires forall ch <- chunks :: ch.JObj?
    ensures |r| == |chunks|
    ensures forall i :: 0 <= i < |r| ==> r[i].DictPayload? && JObj(r[i].fields) == chunks[i]
  {
    var r := seq(|chunks|, i requires 0 <= i < |chunks| => DictPayload(chunks[i].fields));
    assert forall i :: 0 <= i < |r| ==> chunks[i] in chunks && r[i] == DictPayload(chunks[i].fields);
    r
  }

  /** What one relay produces: the payloads framed, the exception that
      ended the stream (if any), and the stored reply (if any). */
  datatype RelayResult = RelayResult(payloads: seq<Payload>, failure: Option<string>, saved: Option<ChatMessage>)

  /** `message_start` and then the payload of every chunk of the loop. */
  function Streamed(ctx: RelayContext, events: seq<Event>, created: int): (r: seq<Payload>)
    requires ctx.model.Some?
    ensures var chunks := AllChunks(events, ctx.model.value.1.modelId, created);
      && |r| == 1 + |chunks| && r[0] == DictPayload(StartFields(ctx))
      && forall i :: 0 <= i < |chunks| ==> r[1 + i].DictPayload? && JObj(r[1 + i].fields) == chunks[i]
  {
    var modelId := ctx.model.value.1.modelId;
    var chunks := AllChunks(events, modelId, created);
    AllChunksWellFormed(events, modelId, created);
    var tail := ChunkPayloads(chunks);
    [DictPayload(StartFields(ctx))] + tail
  }

  /** Where the reply to the message is stored. */
  function TargetOf(ctx: RelayContext): ReplyTarget
    requires ctx.model.Some?
  {
    ReplyTarget(ctx.session, ctx.model.value.0, ctx.userMessageId)
  }

  /** The relay, for the given upstream behaviour. `created` is the one
      `created` stamp of every chunk, `now` the store's clock, and
      `createdAtText` its rendering in `message_end`. */
  function RelayRun(ctx: RelayContext, think: ThinkArg, upstream: Upstream,
                    created: int, now: int, createdAtText: string, newId: int): RelayResult
  {
    if ctx.model.None? then RelayResult([], Some(NoModelText), None)
    else if ThinkMode(think).Raised? then RelayResult([], Some(ThinkMode(think).message), None)
    else if upstream.Refused? then RelayResult([], Some(upstream.message), None)
    else
      var acc := Translate(upstream.events, ctx.model.value.1.modelId, created).0;
      var streamed := Streamed(ctx, upstream.events, created);
      match SaveReply(TargetOf(ctx), acc, now)
      case Raised(text) => RelayResult(streamed, Some(text), None)
      case Ok(row) =>
        RelayResult(streamed + [DictPayload(EndFields(newId, createdAtText, row))],
                    if upstream.end.Broken? then Some(upstream.end.message) else None,
                    Some(row))
  }

  /** The relay as it runs: the early failures, then the event loop, the
      save of the `finally` block and the `message_end` payload. */
  method RunRelay(ctx: RelayContext, think: ThinkArg, upstream: Upstream,
                  created: int, now: int, createdAtText: string, newId: int) returns (r: RelayResult)
    ensures r == RelayRun(ctx, think, upstream, created, now, createdAtText, newId)
  {
    if ctx.model.None? {
      return RelayResult([], Some(NoModelText), None);
    }
    var mode := ThinkMode(think);
    if mode.Raised? {
      return RelayResult([], Some(mode.message), None);
    }
    if upstream.Refused? {
      return RelayResult([], Some(upstream.message), None);
    }
    var modelId := ctx.model.value.1.modelId;
    var acc, chunks := TranslateEvents(upstream.events, modelId, created);
    TranslateChunks(upstream.events, modelId, created);
    AllChunksWellFormed(upstream.events, modelId, created);
    var payloads := [DictPayload(StartFields(ctx))] + ChunkPayloads(chunks);
    var saved := SaveReply(TargetOf(ctx), acc, now);
    if saved.Raised? {
      return RelayResult(payloads, Some(saved.message), None);
    }
    payloads := payloads + [DictPayload(EndFields(newId, createdAtText, saved.value))];
    r := RelayResult(payloads, if upstream.end.Broken? then Some(upstream.end.message) else None, Some(saved.value));
  }

  /** The frames the client receives. */
  function RelayFrames(r: RelayResult): seq<string> {
    Frames(r.payloads, r.failure)
  }

  /** Nothing reaches the event loop when the message has no model, the
      thinking mode cannot be looked up or the upstream call is refused: the
      client gets exactly one frame, the error, and nothing is stored. */
  lemma EarlyFailure(ctx: RelayContext, think: ThinkArg, upstream: Upstream,
                     created: int, now: int, createdAtText: string, newId: int)
    requires ctx.model.None? || ThinkMode(think).Raised? || upstream.Refused?
    ensures var r := RelayRun(ctx, think, upstream, created, now, createdAtText, newId);
      && r.saved.None? && r.payloads == [] && r.failure.Some?
      && RelayFrames(r) == [DataFrame(ErrorBody(r.failure.value))]
      && r.failure.value == (if ctx.model.None? then NoModelText
                             else if ThinkMode(think).Raised? then ThinkMode(think).message
                             else upstream.message)
  {
  }

  /** An opened stream's payloads start with the streamed ones. */
  lemma OpenedPayloads(ctx: RelayContext, think: ThinkArg, events: seq<Event>, end: StreamEnd,
                       created: int, now: int, createdAtText: string, newId: int)
    requires ctx.model.Some? && ThinkMode(think).Ok?
    ensures var r := RelayRun(ctx, think, Opened(events, end), created, now, createdAtText, newId);
      var streamed := Streamed(ctx, events, created);
      |r.payloads| >= |streamed| && r.payloads[..|streamed|] == streamed
  {
  }

  /** Once the stream is open, `message_start` comes first and then the
      frame of every chunk of the event loop, unchanged and in arrival
      order. */
  lemma StreamOrder(ctx: RelayContext, think: ThinkArg, events: seq<Event>, end: StreamEnd,
                    created: int, now: int, createdAtText: string, newId: int)
    requires ctx.model.Some? && ThinkMode(think).Ok?
    ensures var r := RelayRun(ctx, think, Opened(events, end), created, now, createdAtText, newId);
      var chunks := AllChunks(events, ctx.model.value.1.modelId, created);
      && |r.payloads| >= 1 + |chunks|
      && RelayFrames(r)[0] == DataFrame(Dumps(JObj(StartFields(ctx)), Compact))
      && forall i :: 0 <= i < |chunks| ==> RelayFrames(r)[1 + i] == DataFrame(Dumps(chunks[i], Compact))
  {
    var r := RelayRun(ctx, think, Opened(events, end), created, now, createdAtText, newId);
    var streamed := Streamed(ctx, events, created);
    OpenedPayloads(ctx, think, events, end, created, now, createdAtText, newId);
    forall i | 0 <= i < |streamed| ensures RelayFrames(r)[i] == DataFrame(Body(streamed[i])) {
      assert r.payloads[i] == streamed[i];
      FrameAt(r.payloads, r.failure, i);
    }
  }

  /** The `finally` block stores one reply exactly when the accumulated
      reply passes validation, whether the stream finished or broke. The
      stored content and reasoning are the stripped concatenations of their
      deltas, the tokens are the last completed total or 0, and the response
      id is the first non-empty created id. A stored reply is announced by a
      last `message_end` payload and any stream error follows it; a refused
      one ends the stream with the validation error instead. */
  lemma StoredReply(ctx: RelayContext, think: ThinkArg, events: seq<Event>, end: StreamEnd,
                    created: int, now: int, createdAtText: string, newId: int)
    requires ctx.model.Some? && ThinkMode(think).Ok?
    ensures var r := RelayRun(ctx, think, Opened(events, end), created, now, createdAtText, newId);
      var acc := Acc(ReasoningText(events), OutputText(events), LastUsage(events).GetOr(0), FirstResponseId(events));
      var chunks := AllChunks(events, ctx.model.value.1.modelId, created);
      && (r.saved.Some? <==> SaveReply(TargetOf(ctx), acc, now).Ok?)
      && (r.saved.Some? ==>
            && r.saved.value == SaveReply(TargetOf(ctx), acc, now).value
            && |r.payloads| == 2 + |chunks|
            && r.payloads[|r.payloads| - 1] == DictPayload(EndFields(newId, createdAtText, r.saved.value))
            && r.failure == (if end.Broken? then Some(end.message) else None))
      && (r.saved.None? ==>
            && |r.payloads| == 1 + |chunks|
            && r.failure == Some(SaveReply(TargetOf(ctx), acc, now).message))
  {
    TranslateBuffers(events, ctx.model.value.1.modelId, created);
    TranslateChunks(events, ctx.model.value.1.modelId, created);
  }

  /** The deltas that arrived before a cut are a prefix of those of the
      whole stream: a stream cut short keeps what it had accumulated. */
  lemma {:induction false} OutputTextPrefix(events: seq<Event>, k: nat)
    requires k <= |events|
    ensures OutputText(events[..k]) <= OutputText(events)
    decreases |events| - k
  {
    if k < |events| {
      OutputTextPrefix(events, k + 1);
      assert events[..k + 1] == events[..k] + [events[k]];
      OutputTextSnoc(events[..k], events[k]);
    } else {
      assert events[..k] == events;
    }
  }

  /** The events of the worked example: created r1, "Hi" and " there" on one
      output item, completed with 42 tokens. */
  function HiThereEvents(item: string): seq<Event> {
    [Created("r1"), OutputDelta(item, "Hi"), OutputDelta(item, " there"), Completed("r1", 42)]
  }

  lemma HiThereBuffers(item: string, model: string, created: int)
    ensures Translate(HiThereEvents(item), model, created).0 == Acc("", "Hi there", 42, "r1")
  {
    var events := HiThereEvents(item);
    var p1, p2, p3 := events[..1], events[..2], events[..3];
    assert p1[..0] == [] && p2[..1] == p1 && p3[..2] == p2 && events[..3] == p3;
    assert Translate(p1, model, created).0 == Acc("", "", 0, "r1");
    assert Translate(p2, model, created).0 == Acc("", "Hi", 0, "r1");
    assert Translate(p3, model, created).0 == Acc("", "Hi there", 0, "r1");
  }

  lemma HiThereChunks(item: string, model: string, created: int)
    ensures AllChunks(HiThereEvents(item), model, created) ==
      [ContentChunk(item, "Hi", model, created), ContentChunk(item, " there", model, created),
       UsageChunk("r1", 42, model, created)]
  {
    var events := HiThereEvents(item);
    var usage := UsageChunk("r1", 42, model, created);
    var hi, there := ContentChunk(item, "Hi", model, created), ContentChunk(item, " there", model, created);
    assert events[1..][1..][1..] == [Completed("r1", 42)];
    assert AllChunks(events[1..][1..][1..], model, created) == [usage];
    assert AllChunks(events[1..][1..], model, created) == [there, usage];
    assert AllChunks(events[1..], model, created) == [hi, there, usage];
  }

  /** A reply with no reasoning, whose content and response id carry no
      surrounding whitespace and no NUL character, and whose id fits in 100
      characters, is stored with that content, tokens and id unchanged. */
  lemma SavePlainReply(target: ReplyTarget, acc: Acc, now: int)
    requires acc.reasoning == ""
    requires acc.content != [] && !IsSpace(acc.content[0]) && !IsSpace(acc.content[|acc.content| - 1])
    requires NulChar !in acc.content
    requires acc.responseId != [] && !IsSpace(acc.responseId[0]) && !IsSpace(acc.responseId[|acc.responseId| - 1])
    requires NulChar !in acc.responseId && |acc.responseId| <= 100
    ensures SaveReply(target, acc, now).Ok?
    ensures var row := SaveReply(target, acc, now).value;
      row.content == acc.content && row.tokens == acc.tokens && row.messageRespId == Some(acc.responseId)
      && row.reasoningContent == Some("")
  {
    CheckCharsPlain(acc.content, false, None);
    CheckCharsPlain(acc.responseId, true, Some(100));
  }

  lemma HiThereSave(target: ReplyTarget, now: int)
    ensures SaveReply(target, Acc("", "Hi there", 42, "r1"), now).Ok?
    ensures var row := SaveReply(target, Acc("", "Hi there", 42, "r1"), now).value;
      row.content == "Hi there" && row.tokens == 42 && row.messageRespId == Some("r1")
  {
    SavePlainReply(target, Acc("", "Hi there", 42, "r1"), now);
  }

  /** The reply to `created(r1)`, "Hi", " there", `completed(42)` ends
      with no error; the stored message holds "Hi there", 42 tokens and
      response id r1, and is announced by the fifth and last payload. */
  lemma HiThereStored(ctx: RelayContext, item: string, created: int, now: int, createdAtText: string, newId: int)
    requires ctx.model.Some?
    ensures var r := RelayRun(ctx, ThinkInt(1), Opened(HiThereEvents(item), Finished), created, now, createdAtText, newId);
      && r.failure.None? && r.saved.Some?
      && r.saved.value.content == "Hi there" && r.saved.value.tokens == 42
      && r.saved.value.messageRespId == Some("r1")
      && |r.payloads| == 5
      && r.payloads[4] == DictPayload(EndFields(newId, createdAtText, r.saved.value))
  {
    var model := ctx.model.value.1.modelId;
    HiThereBuffers(item, model, created);
    HiThereChunks(item, model, created);
    HiThereSave(TargetOf(ctx), now);
    TranslateBuffers(HiThereEvents(item), model, created);
    StoredReply(ctx, ThinkInt(1), HiThereEvents(item), Finished, created, now, createdAtText, newId);
  }

  /** The same relay streams `message_start`, the two content chunks and
      the usage chunk, in that order, before the end. */
  lemma HiThereStreamed(ctx: RelayContext, item: string, created: int, now: int, createdAtText: string, newId: int)
    requires ctx.model.Some?
    ensures var r := RelayRun(ctx, ThinkInt(1), Opened(HiThereEvents(item), Finished), created, now, createdAtText, newId);
      var model := ctx.model.value.1.modelId;
      && |r.payloads| >= 4
      && r.payloads[0] == DictPayload(StartFields(ctx))
      && r.payloads[1].DictPayload? && JObj(r.payloads[1].fields) == ContentChunk(item, "Hi", model, created)
      && r.payloads[2].DictPayload? && JObj(r.payloads[2].fields) == ContentChunk(item, " there", model, created)
      && r.payloads[3].DictPayload? && JObj(r.payloads[3].fields) == UsageChunk("r1", 42, model, created)
  {
    var model := ctx.model.value.1.modelId;
    HiThereChunks(item, model, created);
    OpenedPayloads(ctx, ThinkInt(1), HiThereEvents(item), Finished, created, now, createdAtText, newId);
    var r := RelayRun(ctx, ThinkInt(1), Opened(HiThereEvents(item), Finished), created, now, createdAtText, newId);
    var streamed := Streamed(ctx, HiThereEvents(item), created);
    assert |streamed| == 4;
    assert r.payloads[1] == streamed[1] && r.payloads[2] == streamed[2] && r.payloads[3] == streamed[3];
  }
}
