/** `ChatMessageView.create`, `ChatMessageView.ai_response` and the
    `get_queryset` filters of chat/views.py, over the chat tables.

    The upstream model service is an oracle from the request configuration
    to what it does with it; the serializer renderings of the session and
    the model in `message_start`, the clock, the `created` stamp of the
    chunks and the rendering of the stored time are parameters. */
module ChatViews {
  import opened Base
  import opened JsonValues
  import opened Translator
  import opened Sse
  import opened ChatModels
  import opened DrfFields
  import opened Relay

  const SessionNotFound := "当前会话不存在或无权限访问"
  const ModelNotFound := "当前模型不存在"
  const MessageNotFound := "用户消息不存在或无权限访问"

  // ---------------------------------------------------------------------
  // create

  /** The body of a `create` request; a missing key reads as None. */
  datatype CreateRequest = CreateRequest(
    content: Option<string>,
    sessionId: Option<int>,
    parentId: Option<int>,
    modelId: Option<string>)

  /** What `create` answers: 201 with the stored message; 400 with the
      session serializer's errors as the message; 404; 400 from the
      exception handler for the message serializer's errors; or a server
      error, when there is no content to take a title from. */
  datatype CreateReply =
    | MessageCreated(id: int)
    | SessionRejected(errors: seq<FieldErrors>)
    | NotFound(message: string)
    | MessageRejected(errors: seq<FieldErrors>)
    | ServerError

  /** `content[:20] if len(content) > 20 else content`. */
  function TitleOf(content: string): (r: string)
    ensures |r| == Min(20, |content|) && r == content[..|r|]
  {
    if |content| > 20 then content[..20] else content
  }

  /** `ChatModel.objects.get(model_id=...)`: the row with that model id;
      none for a missing id, since the column is never null. */
  ghost function FindModel(models: map<int, ChatModel>, modelId: Option<string>): Option<int> {
    if modelId.Some? && exists k :: k in models && models[k].modelId == modelId.value then
      Some(var k :| k in models && models[k].modelId == modelId.value; k)
    else None
  }

  /** Model ids are unique, so the row found is the one with that id. */
  lemma FindModelUnique(models: map<int, ChatModel>, modelId: string, k: int)
    requires ModelsUnique(models) && k in models && models[k].modelId == modelId
    ensures FindModel(models, Some(modelId)) == Some(k)
  {
  }

  /** The `parent_message` field: no parent, or the key of any message. */
  function CheckParent(messages: map<int, ChatMessage>, parent: Option<int>): Checked<Option<int>> {
    if parent.None? then Clean(None)
    else if parent.value in messages then Clean(parent)
    else Invalid([DoesNotExistDetail(parent.value)])
  }

  /** The `content` field: required and not blank. */
  function CheckContent(content: Option<string>): Checked<string> {
    if content.None? then Invalid([NullDetail]) else CheckChars(content.value, false, None)
  }

  /** The errors of the user message's serializer, in field order. */
  function MessageErrors(messages: map<int, ChatMessage>, content: Option<string>, parent: Option<int>): seq<FieldErrors> {
    ErrorsOf("content", CheckContent(content)) + ErrorsOf("parent_message", CheckParent(messages, parent))
  }

  /** From the model lookup on: the user message is validated and stored
      in session `s`, and the session's `updated_at` is saved. */
  ghost function AddUserMessage(db: Db, s: int, content: Option<string>, parent: Option<int>,
                                modelId: Option<string>, now: int): (CreateReply, Db)
    requires s in db.sessions
  {
    var md := FindModel(db.models, modelId);
    if md.None? then (NotFound(ModelNotFound), db)
    else
      var errors := MessageErrors(db.messages, content, parent);
      if errors != [] then (MessageRejected(errors), db)
      else
        var row := NewMessage(s, UserRole, CheckContent(content).value, md, CheckParent(db.messages, parent).value, now);
        (MessageCreated(db.nextMessage), TouchSession(InsertMessage(db, row), s, now))
  }

  /** The new session of a request without a session id. */
  function SessionTitle(content: string): Checked<string> {
    CheckChars(TitleOf(content), false, Some(200))
  }

  /** The title is refused exactly when the first 20 characters are blank
      or hold a NUL character, never for its length; a kept title is their
      stripped text. */
  lemma SessionTitleCases(content: string)
    ensures SessionTitle(content).Invalid? <==>
      IsBlank(TitleOf(content)) || NulChar in Strip(TitleOf(content))
    ensures SessionTitle(content).Invalid? ==>
      SessionTitle(content).details == (if IsBlank(TitleOf(content)) then [BlankDetail] else [NullCharDetail])
    ensures SessionTitle(content).Clean? ==>
      SessionTitle(content).value == Strip(TitleOf(content)) && |SessionTitle(content).value| <= 20
  {
    var title := TitleOf(content);
    CheckCharsCases(title, false, Some(200));
    assert |Strip(title)| <= |title| <= 20;
  }

  /** `create` for the authenticated `user`. A falsy session id (missing or
      0) opens a new session titled with the first 20 characters of the
      content and drops the parent; any other id must name one of the
      user's sessions. */
  ghost function CreateSpec(db: Db, user: int, req: CreateRequest, now: int): (CreateReply, Db) {
    if req.sessionId.None? || req.sessionId.value == 0 then
      if req.content.None? then (ServerError, db)
      else
        var title := SessionTitle(req.content.value);
        if title.Invalid? then (SessionRejected([FieldErrors("title", title.details)]), db)
        else
          var db1 := InsertSession(db, NewSession(title.value, user, now));
          AddUserMessage(db1, db.nextSession, req.content, None, req.modelId, now)
    else
      var s := req.sessionId.value;
      if s !in db.sessions || db.sessions[s].user != user then (NotFound(SessionNotFound), db)
      else AddUserMessage(db, s, req.content, req.parentId, req.modelId, now)
  }

  /** Storing a user message: only a refused model or refused fields write
      nothing; a stored message is a user message with the stripped
      content, the model asked for, the parent (if any), no reasoning, no
      response id and 0 tokens, under the next key, and its session's
      `updated_at` becomes now. */
  lemma AddUserMessageFacts(db: Db, s: int, content: Option<string>, parent: Option<int>, modelId: Option<string>, now: int)
    requires s in db.sessions
    ensures var res := AddUserMessage(db, s, content, parent, modelId, now); var reply, after := res.0, res.1;
      && (reply.NotFound? || reply.MessageRejected? || reply.MessageCreated?)
      && (reply.NotFound? <==> FindModel(db.models, modelId).None?)
      && (reply.MessageRejected? ==> reply.errors == MessageErrors(db.messages, content, parent))
      && (!reply.MessageCreated? ==> after == db)
      && (reply.MessageCreated? ==>
            && reply.id == db.nextMessage && reply.id in after.messages
            && var row := after.messages[reply.id];
            && after == TouchSession(InsertMessage(db, row), s, now)
            && row.session == s && row.role == UserRole && row.createdAt == now
            && content.Some? && row.content == Strip(content.value)
            && row.reasoningContent.None? && row.messageRespId.None? && row.tokens == 0
            && row.model == FindModel(db.models, modelId)
            && row.parentMessage == parent
            && (parent.Some? ==> parent.value in db.messages))
  {
    var res := AddUserMessage(db, s, content, parent, modelId, now); var reply, after := res.0, res.1;
    if reply.MessageCreated? {
      CheckCharsCases(content.value, false, None);
    }
  }

  /** Storing a user message changes no session but for the `updated_at`
      of its own. */
  lemma AddUserMessageSessions(db: Db, s: int, content: Option<string>, parent: Option<int>, modelId: Option<string>, now: int)
    requires s in db.sessions
    ensures var after := AddUserMessage(db, s, content, parent, modelId, now).1;
      && after.sessions.Keys == db.sessions.Keys
      && (forall t :: t in db.sessions && t != s ==> after.sessions[t] == db.sessions[t])
      && after.sessions[s].(updatedAt := db.sessions[s].updatedAt) == db.sessions[s]
  {
  }

  /** Storing a user message keeps the tables consistent and changes
      neither the users nor the models. */
  lemma AddUserMessageKeepsIntegrity(db: Db, s: int, content: Option<string>, parent: Option<int>, modelId: Option<string>, now: int)
    requires Integrity(db) && s in db.sessions
    ensures Integrity(AddUserMessage(db, s, content, parent, modelId, now).1)
    ensures AddUserMessage(db, s, content, parent, modelId, now).1.models == db.models
    ensures AddUserMessage(db, s, content, parent, modelId, now).1.users == db.users
  {
    AddUserMessageFacts(db, s, content, parent, modelId, now);
    var res := AddUserMessage(db, s, content, parent, modelId, now); var reply, after := res.0, res.1;
    if reply.MessageCreated? {
      var row := after.messages[reply.id];
      var md := FindModel(db.models, modelId);
      assert md.Some? ==> md.value in db.models;
      InsertMessageKeepsIntegrity(db, row);
      TouchSessionKeepsIntegrity(InsertMessage(db, row), s, now);
    }
  }

  /** `create` keeps the tables consistent and changes neither the users
      nor the models. */
  lemma CreateKeepsIntegrity(db: Db, user: int, req: CreateRequest, now: int)
    requires Integrity(db) && user in db.users
    ensures Integrity(CreateSpec(db, user, req, now).1)
    ensures CreateSpec(db, user, req, now).1.models == db.models
    ensures CreateSpec(db, user, req, now).1.users == db.users
  {
    if req.sessionId.None? || req.sessionId.value == 0 {
      if req.content.Some? && SessionTitle(req.content.value).Clean? {
        var session := NewSession(SessionTitle(req.content.value).value, user, now);
        var db1 := InsertSession(db, session);
        assert CreateSpec(db, user, req, now) == AddUserMessage(db1, db.nextSession, req.content, None, req.modelId, now);
        InsertSessionKeepsIntegrity(db, session);
        AddUserMessageKeepsIntegrity(db1, db.nextSession, req.content, None, req.modelId, now);
      } else {
        assert CreateSpec(db, user, req, now).1 == db;
      }
    } else if req.sessionId.value in db.sessions && db.sessions[req.sessionId.value].user == user {
      assert CreateSpec(db, user, req, now) == AddUserMessage(db, req.sessionId.value, req.content, req.parentId, req.modelId, now);
      AddUserMessageKeepsIntegrity(db, req.sessionId.value, req.content, req.parentId, req.modelId, now);
    } else {
      assert CreateSpec(db, user, req, now).1 == db;
    }
  }

  /** A new message is stored only under one of the caller's sessions, as a
      user message with the stripped content and the model asked for, under
      the next key; that session's `updated_at` becomes now. */
  lemma CreateStoresUserMessage(db: Db, user: int, req: CreateRequest, now: int)
    ensures var res := CreateSpec(db, user, req, now); var reply, after := res.0, res.1;
      reply.MessageCreated? ==>
        var row := after.messages[reply.id];
        && reply.id == db.nextMessage
        && row.role == UserRole && req.content.Some? && row.content == Strip(req.content.value)
        && row.reasoningContent.None? && row.messageRespId.None? && row.tokens == 0 && row.createdAt == now
        && req.modelId.Some? && row.model.Some? && row.model.value in db.models
        && db.models[row.model.value].modelId == req.modelId.value
        && row.session in after.sessions && after.sessions[row.session].user == user
        && after.sessions[row.session].updatedAt == now
  {
    if req.sessionId.None? || req.sessionId.value == 0 {
      if req.content.Some? && SessionTitle(req.content.value).Clean? {
        var db1 := InsertSession(db, NewSession(SessionTitle(req.content.value).value, user, now));
        assert db1.sessions[db.nextSession].user == user;
        AddUserMessageRow(db1, db.nextSession, req.content, None, req.modelId, now);
      }
    } else if req.sessionId.value in db.sessions && db.sessions[req.sessionId.value].user == user {
      AddUserMessageRow(db, req.sessionId.value, req.content, req.parentId, req.modelId, now);
    }
  }

  /** A stored user message holds the stripped content and the row of the
      model asked for, and its session keeps its owner with `updated_at`
      now. */
  lemma AddUserMessageRow(db: Db, s: int, content: Option<string>, parent: Option<int>, modelId: Option<string>, now: int)
    requires s in db.sessions
    ensures var res := AddUserMessage(db, s, content, parent, modelId, now); var reply, after := res.0, res.1;
      reply.MessageCreated? ==>
        var row := after.messages[reply.id];
        && reply.id == db.nextMessage
        && row.role == UserRole && content.Some? && row.content == Strip(content.value)
        && row.reasoningContent.None? && row.messageRespId.None? && row.tokens == 0 && row.createdAt == now
        && modelId.Some? && row.model.Some? && row.model.value in db.models
        && db.models[row.model.value].modelId == modelId.value
        && row.session == s && s in after.sessions && after.sessions[s].user == db.sessions[s].user
        && after.sessions[s].updatedAt == now
  {
    AddUserMessageFacts(db, s, content, parent, modelId, now);
  }

  /** With no session id, a refused title is answered with the session
      serializer's error and writes nothing. */
  lemma CreateTitleRejected(db: Db, user: int, content: string, parent: Option<int>, modelId: Option<string>, now: int)
    requires SessionTitle(content).Invalid?
    ensures var res := CreateSpec(db, user, CreateRequest(Some(content), None, parent, modelId), now); var reply, after := res.0, res.1;
      && after == db
      && reply == SessionRejected([FieldErrors("title", SessionTitle(content).details)])
  {
  }

  /** With no session id and a usable title, the new session belongs to
      the caller under the next session key and is titled with the
      stripped first 20 characters of the content. */
  lemma CreateNewSession(db: Db, user: int, content: string, parent: Option<int>, modelId: Option<string>, now: int)
    requires SessionTitle(content).Clean?
    ensures var after := CreateSpec(db, user, CreateRequest(Some(content), None, parent, modelId), now).1;
      && after.sessions.Keys == db.sessions.Keys + {db.nextSession}
      && after.sessions[db.nextSession].user == user
      && after.sessions[db.nextSession].title == Strip(TitleOf(content))
      && |after.sessions[db.nextSession].title| <= 20
  {
    SessionTitleCases(content);
    var db1 := InsertSession(db, NewSession(SessionTitle(content).value, user, now));
    var req := CreateRequest(Some(content), None, parent, modelId);
    assert CreateSpec(db, user, req, now) == AddUserMessage(db1, db.nextSession, Some(content), None, modelId, now);
    AddUserMessageSessions(db1, db.nextSession, Some(content), None, modelId, now);
  }

  /** A message stored with no session id goes into the new session and
      has no parent, whatever parent the request named. */
  lemma CreateNewSessionMessage(db: Db, user: int, content: string, parent: Option<int>, modelId: Option<string>, now: int)
    requires SessionTitle(content).Clean?
    ensures var r := CreateSpec(db, user, CreateRequest(Some(content), None, parent, modelId), now);
      r.0.MessageCreated? ==>
        && r.0.id in r.1.messages
        && r.1.messages[r.0.id].session == db.nextSession
        && r.1.messages[r.0.id].parentMessage.None?
  {
    var db1 := InsertSession(db, NewSession(SessionTitle(content).value, user, now));
    var req := CreateRequest(Some(content), None, parent, modelId);
    assert CreateSpec(db, user, req, now) == AddUserMessage(db1, db.nextSession, Some(content), None, modelId, now);
    AddUserMessageFacts(db1, db.nextSession, Some(content), None, modelId, now);
  }

  /** A session id that is not one of the caller's sessions is refused with
      404 and nothing is written. */
  lemma CreateForeignSession(db: Db, user: int, req: CreateRequest, now: int)
    requires req.sessionId.Some? && req.sessionId.value != 0
    requires req.sessionId.value !in db.sessions || db.sessions[req.sessionId.value].user != user
    ensures CreateSpec(db, user, req, now) == (NotFound(SessionNotFound), db)
  {
  }

  /** An unknown model id is refused with 404 and stores no message, but
      only after the session is made: a request with no session id leaves
      a new, empty session behind. */
  lemma CreateUnknownModel(db: Db, user: int, req: CreateRequest, now: int)
    requires Integrity(db)
    requires req.modelId.None? || forall k :: k in db.models ==> db.models[k].modelId != req.modelId.value
    requires req.sessionId.None? || req.sessionId.value == 0
    requires req.content.Some? && SessionTitle(req.content.value).Clean?
    ensures var after := CreateSpec(db, user, req, now).1;
      && CreateSpec(db, user, req, now).0 == NotFound(ModelNotFound)
      && after.messages == db.messages
      && after.sessions.Keys == db.sessions.Keys + {db.nextSession}
      && MessagesIn(after.messages, {db.nextSession}) == {}
  {
    var db1 := InsertSession(db, NewSession(SessionTitle(req.content.value).value, user, now));
    assert CreateSpec(db, user, req, now) == AddUserMessage(db1, db.nextSession, req.content, None, req.modelId, now);
    UnknownModelWritesNothing(db1, db.nextSession, req.content, req.modelId, now);
    NextSessionEmpty(db);
  }

  lemma UnknownModelWritesNothing(db: Db, s: int, content: Option<string>, modelId: Option<string>, now: int)
    requires s in db.sessions
    requires modelId.None? || forall k :: k in db.models ==> db.models[k].modelId != modelId.value
    ensures AddUserMessage(db, s, content, None, modelId, now) == (NotFound(ModelNotFound), db)
  {
    assert FindModel(db.models, modelId).None?;
  }

  /** No stored message belongs to the session key not yet used. */
  lemma NextSessionEmpty(db: Db)
    requires Integrity(db)
    ensures MessagesIn(db.messages, {db.nextSession}) == {}
  {
    forall m | m in db.messages ensures db.messages[m].session != db.nextSession {
      assert MessageRefsValid(db, db.messages[m]);
    }
  }

  /** A refused message writes no message; the errors name the content
      (missing, blank or holding NUL) first and then a parent key with no
      row. */
  lemma MessageErrorsOrder(messages: map<int, ChatMessage>, content: Option<string>, parent: Option<int>)
    ensures var errors := MessageErrors(messages, content, parent);
      && (errors == [] <==> CheckContent(content).Clean? && (parent.None? || parent.value in messages))
      && (errors != [] ==>
            && errors[0].details != []
            && errors[0].field == (if CheckContent(content).Invalid? then "content" else "parent_message"))
  {
    if content.Some? {
      CheckCharsCases(content.value, false, None);
    }
  }

  // ---------------------------------------------------------------------
  // ai_response

  /** The body of an `ai_response` request; `think_type` defaults to 1. */
  datatype AiRequest = AiRequest(userMessageId: Option<int>, thinkType: Option<ThinkArg>)

  /** A 404 envelope, or the event stream. */
  datatype AiReply = MessageMissing(message: string) | EventStream(frames: seq<string>)

  /** `ChatMessage.objects.get(id=..., session__user=user, role="user")`. */
  predicate OwnsUserMessage(db: Db, user: int, id: Option<int>) {
    && id.Some? && id.value in db.messages && db.messages[id.value].role == UserRole
    && db.messages[id.value].session in db.sessions
    && db.sessions[db.messages[id.value].session].user == user
  }

  /** The parent's response id, when there is a parent and its id is a
      non-empty string. */
  function PreviousResponseId(db: Db, msg: ChatMessage): Option<string> {
    if msg.parentMessage.Some? && msg.parentMessage.value in db.messages then
      var r := db.messages[msg.parentMessage.value].messageRespId;
      if r.Some? && r.value != "" then r else None
    else None
  }

  /** What the relay knows of message `id`. */
  function ContextOf(db: Db, id: int, sessionData: Json, modelData: Json): RelayContext
    requires id in db.messages
  {
    var msg := db.messages[id];
    RelayContext(id, msg.content, msg.session, sessionData,
                 if msg.model.Some? && msg.model.value in db.models then Some((msg.model.value, db.models[msg.model.value])) else None,
                 modelData, PreviousResponseId(db, msg))
  }

  /** What the upstream service does with the request the relay sends. The
      relay only calls it once the model and the thinking mode are known;
      before that it reads the same for any upstream. */
  function UpstreamOf(ctx: RelayContext, think: ThinkArg, client: Json -> Upstream): Upstream {
    if ctx.model.Some? && ThinkMode(think).Ok? then
      client(ResponseConfig(ctx.model.value.1.modelId, ctx.userContent, ThinkMode(think).value, ctx.previousResponseId))
    else Refused("")
  }

  /** `ai_response` for the authenticated `user`: the frames of the relay
      and the tables after it; the reply, if stored, takes the next key. */
  function AiResponseSpec(db: Db, user: int, req: AiRequest, client: Json -> Upstream, sessionData: Json,
                          modelData: Json, created: int, now: int, createdAtText: string): (AiReply, Db)
  {
    if !OwnsUserMessage(db, user, req.userMessageId) then (MessageMissing(MessageNotFound), db)
    else
      var ctx := ContextOf(db, req.userMessageId.value, sessionData, modelData);
      var think := req.thinkType.GetOr(ThinkInt(1));
      var r := RelayRun(ctx, think, UpstreamOf(ctx, think, client), created, now, createdAtText, db.nextMessage);
      (EventStream(RelayFrames(r)), if r.saved.Some? then InsertMessage(db, r.saved.value) else db)
  }

  /** Only the caller's own user messages are answered; anything else gets
      404 and writes nothing. */
  lemma AiResponseOwner(db: Db, user: int, req: AiRequest, client: Json -> Upstream, sessionData: Json,
                        modelData: Json, created: int, now: int, createdAtText: string)
    ensures var res := AiResponseSpec(db, user, req, client, sessionData, modelData, created, now, createdAtText); var reply, after := res.0, res.1;
      && (reply.MessageMissing? <==> !OwnsUserMessage(db, user, req.userMessageId))
      && (reply.MessageMissing? ==> after == db && reply.message == MessageNotFound)
  {
  }

  /** The continuation id is the parent's response id exactly when the
      parent exists and holds a non-empty one. */
  lemma PreviousResponseIdCases(db: Db, msg: ChatMessage, id: string)
    ensures PreviousResponseId(db, msg) == Some(id) <==>
      && msg.parentMessage.Some? && msg.parentMessage.value in db.messages
      && db.messages[msg.parentMessage.value].messageRespId == Some(id) && id != ""
  {
  }

  /** The relay stores at most one message, the assistant reply under the
      user's message, in the user's session and with the message's model,
      and keeps the tables consistent. */
  lemma AiResponseKeepsIntegrity(db: Db, user: int, req: AiRequest, client: Json -> Upstream, sessionData: Json,
                                 modelData: Json, created: int, now: int, createdAtText: string)
    requires Integrity(db)
    ensures var res := AiResponseSpec(db, user, req, client, sessionData, modelData, created, now, createdAtText); var reply, after := res.0, res.1;
      && Integrity(after)
      && (after == db || after == InsertMessage(db, after.messages[db.nextMessage]))
      && (after != db ==>
            var row := after.messages[db.nextMessage];
            && row.role == AssistantRole && row.parentMessage == req.userMessageId
            && row.session == db.messages[req.userMessageId.value].session
            && row.model == db.messages[req.userMessageId.value].model)
  {
    if OwnsUserMessage(db, user, req.userMessageId) {
      var ctx := ContextOf(db, req.userMessageId.value, sessionData, modelData);
      var think := req.thinkType.GetOr(ThinkInt(1));
      var upstream := UpstreamOf(ctx, think, client);
      var r := RelayRun(ctx, think, upstream, created, now, createdAtText, db.nextMessage);
      if r.saved.Some? {
        var acc := Translate(upstream.events, ctx.model.value.1.modelId, created).0;
        assert r.saved.value == SaveReply(TargetOf(ctx), acc, now).value;
        SaveReplyRow(TargetOf(ctx), acc, now);
        InsertMessageKeepsIntegrity(db, r.saved.value);
      }
    }
  }

  /** The conversation continues upstream: when a stored reply kept the
      response id `r` of its stream and the user then writes under that
      reply, the relay of the new message sends `r` as
      `previous_response_id`. */
  lemma Continuation(db: Db, reply: int, msg: ChatMessage, modelId: string, mode: string, r: string)
    requires reply in db.messages && db.messages[reply].messageRespId == Some(r) && r != ""
    requires msg.parentMessage == Some(reply)
    ensures PreviousResponseId(db, msg) == Some(r)
    ensures Lookup(ResponseConfig(modelId, msg.content, mode, PreviousResponseId(db, msg)).fields, "previous_response_id")
            == Some(JStr(r))
  {
    ResponseConfigShape(modelId, msg.content, mode, PreviousResponseId(db, msg));
  }

  /** `parent_message` is only looked up, never checked against the
      session: a user may name a message of another user's session as the
      parent of a message in their own, the message is stored with it, and
      the relay of that message then sends the other user's response id,
      continuing their upstream conversation. */
  lemma ForeignParentAccepted(db: Db, user: int, s: int, content: string, p: int, modelId: string, r: string, now: int)
    requires Integrity(db)
    requires s in db.sessions && db.sessions[s].user == user && s != 0
    requires p in db.messages && db.messages[p].session in db.sessions && db.sessions[db.messages[p].session].user != user
    requires db.messages[p].messageRespId == Some(r) && r != ""
    requires FindModel(db.models, Some(modelId)).Some?
    requires !IsBlank(content) && NulChar !in Strip(content)
    ensures var res := CreateSpec(db, user, CreateRequest(Some(content), Some(s), Some(p), Some(modelId)), now);
      && res.0 == MessageCreated(db.nextMessage)
      && res.1.messages[db.nextMessage].session == s
      && res.1.messages[db.nextMessage].parentMessage == Some(p)
      && PreviousResponseId(res.1, res.1.messages[db.nextMessage]) == Some(r)
  {
    CheckCharsCases(content, false, None);
    assert MessageErrors(db.messages, Some(content), Some(p)) == [];
    AddUserMessageFacts(db, s, Some(content), Some(p), Some(modelId), now);
    assert p != db.nextMessage;
  }

  /** A relay that stores its reply keeps the stream's first non-empty
      `response.created` id, stripped, as the reply's response id. */
  lemma StoredResponseId(db: Db, user: int, req: AiRequest, client: Json -> Upstream, sessionData: Json,
                         modelData: Json, created: int, now: int, createdAtText: string)
    requires OwnsUserMessage(db, user, req.userMessageId)
    ensures var res := AiResponseSpec(db, user, req, client, sessionData, modelData, created, now, createdAtText); var reply, after := res.0, res.1;
      var ctx := ContextOf(db, req.userMessageId.value, sessionData, modelData);
      var think := req.thinkType.GetOr(ThinkInt(1));
      var upstream := UpstreamOf(ctx, think, client);
      after != db ==>
        && upstream.Opened?
        && var first := FirstResponseId(upstream.events);
        && after.messages[db.nextMessage].messageRespId == (if first == "" then None else Some(Strip(first)))
  {
    var ctx := ContextOf(db, req.userMessageId.value, sessionData, modelData);
    var think := req.thinkType.GetOr(ThinkInt(1));
    var upstream := UpstreamOf(ctx, think, client);
    if ctx.model.Some? && ThinkMode(think).Ok? && upstream.Opened? {
      StoredReply(ctx, think, upstream.events, upstream.end, created, now, createdAtText, db.nextMessage);
      var acc := Acc(ReasoningText(upstream.events), OutputText(upstream.events),
                     LastUsage(upstream.events).GetOr(0), FirstResponseId(upstream.events));
      if SaveReply(TargetOf(ctx), acc, now).Ok? {
        SaveReplyRow(TargetOf(ctx), acc, now);
      }
    }
  }

  // ---------------------------------------------------------------------
  // get_queryset

  /** `ChatMessageView.get_queryset`: the messages of the caller's sessions,
      and only those of one session when a `session_id` is given. */
  function VisibleMessages(db: Db, user: int, sessionFilter: Option<int>): set<int> {
    set m | m in db.messages && db.messages[m].session in db.sessions
            && db.sessions[db.messages[m].session].user == user
            && (sessionFilter.None? || db.messages[m].session == sessionFilter.value)
  }

  /** `ChatSessionView.get_queryset`: the caller's sessions. */
  function VisibleSessions(db: Db, user: int): set<int> {
    SessionsOf(db.sessions, user)
  }

  /** No user sees another user's sessions or messages; filtering by a
      session gives exactly that session's messages when the session is the
      caller's and nothing otherwise. */
  lemma OwnerIsolation(db: Db, user: int, other: int, s: int)
    requires Integrity(db) && user != other
    ensures VisibleMessages(db, user, None) * VisibleMessages(db, other, None) == {}
    ensures VisibleSessions(db, user) * VisibleSessions(db, other) == {}
    ensures forall m :: m in VisibleMessages(db, user, None) <==>
      m in db.messages && db.messages[m].session in VisibleSessions(db, user)
    ensures VisibleMessages(db, user, Some(s)) ==
      if s in VisibleSessions(db, user) then MessagesIn(db.messages, {s}) else {}
  {
    forall m | m in MessagesIn(db.messages, {s}) ensures db.messages[m].session in db.sessions {
      assert MessageRefsValid(db, db.messages[m]);
    }
  }

  // ---------------------------------------------------------------------
  // The view.

  /** The message endpoints over the tables they read and write. */
  class ChatMessageView {
    var db: Db

    ghost predicate Valid()
      reads this
    {
      Integrity(db) && ModelsUnique(db.models)
    }

    constructor(tables: Db)
      requires Integrity(tables) && ModelsUnique(tables.models)
      ensures Valid() && db == tables
    {
      db := tables;
    }

    /** `create`: the lookups in order, each failing one answering at
        once; a new session is saved before the model is looked up. */
    method Create(user: int, req: CreateRequest, now: int) returns (reply: CreateReply)
      requires Valid() && user in db.users
      modifies this
      ensures Valid()
      ensures (reply, db) == CreateSpec(old(db), user, req, now)
    {
      CreateKeepsIntegrity(db, user, req, now);
      if req.sessionId.None? || req.sessionId.value == 0 {
        if req.content.None? {
          return ServerError;
        }
        var title := CheckChars(TitleOf(req.content.value), false, Some(200));
        if title.Invalid? {
          return SessionRejected([FieldErrors("title", title.details)]);
        }
        var s := db.nextSession;
        db := InsertSession(db, NewSession(title.value, user, now));
        reply := AddMessage(s, req.content, None, req.modelId, now);
      } else {
        var s := req.sessionId.value;
        if s !in db.sessions || db.sessions[s].user != user {
          return NotFound(SessionNotFound);
        }
        reply := AddMessage(s, req.content, req.parentId, req.modelId, now);
      }
    }

    /** The model lookup, the user message's serializer, the save and the
        session's new `updated_at`. */
    method AddMessage(s: int, content: Option<string>, parent: Option<int>, modelId: Option<string>, now: int)
      returns (reply: CreateReply)
      requires s in db.sessions && ModelsUnique(db.models)
      modifies this
      ensures (reply, db) == AddUserMessage(old(db), s, content, parent, modelId, now)
    {
      var md: Option<int> := None;
      if modelId.Some? && exists k :: k in db.models && db.models[k].modelId == modelId.value {
        var k :| k in db.models && db.models[k].modelId == modelId.value;
        FindModelUnique(db.models, modelId.value, k);
        md := Some(k);
      }
      if md.None? {
        return NotFound(ModelNotFound);
      }
      var checked := CheckContent(content);
      var p := CheckParent(db.messages, parent);
      var errors := ErrorsOf("content", checked) + ErrorsOf("parent_message", p);
      if errors != [] {
        return MessageRejected(errors);
      }
      var id := db.nextMessage;
      db := InsertMessage(db, NewMessage(s, UserRole, checked.value, md, p.value, now));
      db := TouchSession(db, s, now);
      reply := MessageCreated(id);
    }

    /** `ai_response`: the owner-scoped lookup, the continuation id, then
        the relay and its framing; a stored reply takes the next key. */
    method AiResponse(user: int, req: AiRequest, client: Json -> Upstream, sessionData: Json,
                      modelData: Json, created: int, now: int, createdAtText: string) returns (reply: AiReply)
      requires Valid()
      modifies this
      ensures Valid()
      ensures (reply, db) == AiResponseSpec(old(db), user, req, client, sessionData, modelData, created, now, createdAtText)
    {
      AiResponseKeepsIntegrity(db, user, req, client, sessionData, modelData, created, now, createdAtText);
      if !OwnsUserMessage(db, user, req.userMessageId) {
        return MessageMissing(MessageNotFound);
      }
      var id := req.userMessageId.value;
      var msg := db.messages[id];
      var previous: Option<string> := None;
      if msg.parentMessage.Some? && msg.parentMessage.value in db.messages {
        var r := db.messages[msg.parentMessage.value].messageRespId;
        if r.Some? && r.value != "" {
          previous := r;
        }
      }
      var model: Option<(int, ChatModel)> := None;
      if msg.model.Some? && msg.model.value in db.models {
        model := Some((msg.model.value, db.models[msg.model.value]));
      }
      var ctx := RelayContext(id, msg.content, msg.session, sessionData, model, modelData, previous);
      var think := req.thinkType.GetOr(ThinkInt(1));
      var result := RunRelay(ctx, think, UpstreamOf(ctx, think, client), created, now, createdAtText, db.nextMessage);
      var frames := FrameStream(result.payloads, result.failure);
      if result.saved.Some? {
        db := InsertMessage(db, result.saved.value);
      }
      reply := EventStream(frames);
    }
  }
}
