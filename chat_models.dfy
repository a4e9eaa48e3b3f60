/** The chat schema of chat/models.py: sessions, model configurations and
    messages, the tables that hold them, what deleting a row does to the
    rows that refer to it, the default orderings and the `__str__` texts. */
module ChatModels {
  import opened Base

  /** `ChatMessage.ROLE_CHOICES`. */
  datatype Role = UserRole | AssistantRole | SystemRole

  /** The stored value of a role. */
  function RoleValue(r: Role): string {
    match r
    case UserRole => "user"
    case AssistantRole => "assistant"
    case SystemRole => "system"
  }

  /** The role a stored value names, if it is one of the choices. */
  function ParseRole(s: string): Option<Role> {
    if s == "user" then Some(UserRole)
    else if s == "assistant" then Some(AssistantRole)
    else if s == "system" then Some(SystemRole)
    else None
  }

  /** The three choices are exactly the values a role can take: reading a
      stored value back gives the role, and only the three values read back. */
  lemma RoleRoundTrip(r: Role, s: string)
    ensures ParseRole(RoleValue(r)) == Some(r)
    ensures ParseRole(s) == Some(r) <==> s == RoleValue(r)
    ensures ParseRole(s).Some? <==> s in {"user", "assistant", "system"}
  {
  }

  /** A `ChatSession` row; times are clock readings. */
  datatype ChatSession = ChatSession(title: string, user: int, createdAt: int, updatedAt: int, isActive: bool)

  /** A `ChatModel` row. */
  datatype ChatModel = ChatModel(name: string, modelId: string, description: string, isActive: bool, epId: Option<string>)

  /** A `ChatMessage` row; `session`, `model` and `parentMessage` are keys. */
  datatype ChatMessage = ChatMessage(
    session: int,
    role: Role,
    reasoningContent: Option<string>,
    content: string,
    model: Option<int>,
    createdAt: int,
    tokens: int,
    parentMessage: Option<int>,
    messageRespId: Option<string>)

  /** A new session: active, created and updated now. */
  function NewSession(title: string, user: int, now: int): ChatSession {
    ChatSession(title, user, now, now, true)
  }

  /** A new message with the field defaults: no reasoning, no response id,
      and 0 tokens. */
  function NewMessage(session: int, role: Role, content: string, model: Option<int>,
                      parent: Option<int>, now: int): ChatMessage {
    ChatMessage(session, role, None, content, model, now, 0, parent, None)
  }

  /** The tables, keyed by primary key, with the next keys to hand out. */
  datatype Db = Db(
    users: set<int>,
    sessions: map<int, ChatSession>,
    models: map<int, ChatModel>,
    messages: map<int, ChatMessage>,
    nextSession: int,
    nextMessage: int)

  /** Every foreign key points at an existing row, and the next keys are
      above every key in use. */
  predicate Integrity(db: Db) {
    && (forall s :: s in db.sessions ==> db.sessions[s].user in db.users && s < db.nextSession)
    && (forall m :: m in db.messages ==> MessageRefsValid(db, db.messages[m]) && m < db.nextMessage)
  }

  predicate MessageRefsValid(db: Db, msg: ChatMessage) {
    && msg.session in db.sessions
    && (msg.model.Some? ==> msg.model.value in db.models)
    && (msg.parentMessage.Some? ==> msg.parentMessage.value in db.messages)
  }

  /** `name` and `model_id` are unique, and so is `ep_id` among the rows
      that have one. */
  predicate ModelsUnique(models: map<int, ChatModel>) {
    forall a, b :: a in models && b in models && a != b ==>
      && models[a].name != models[b].name
      && models[a].modelId != models[b].modelId
      && (models[a].epId.Some? && models[b].epId.Some? ==> models[a].epId != models[b].epId)
  }

  // ---------------------------------------------------------------------
  // Inserts and updates.

  /** Saves a new session under the next session key. */
  function InsertSession(db: Db, session: ChatSession): Db {
    db.(sessions := db.sessions[db.nextSession := session], nextSession := db.nextSession + 1)
  }

  /** Saves a new message under the next message key. */
  function InsertMessage(db: Db, msg: ChatMessage): Db {
    db.(messages := db.messages[db.nextMessage := msg], nextMessage := db.nextMessage + 1)
  }

  /** `session.save(update_fields=["updated_at"])`. */
  function TouchSession(db: Db, s: int, now: int): Db
    requires s in db.sessions
  {
    db.(sessions := db.sessions[s := db.sessions[s].(updatedAt := now)])
  }

  /** A session of an existing user can be saved; the rows already there
      are unchanged and the new key was free. */
  lemma InsertSessionKeepsIntegrity(db: Db, session: ChatSession)
    requires Integrity(db) && session.user in db.users
    ensures Integrity(InsertSession(db, session))
    ensures db.nextSession !in db.sessions
  {
    var after := InsertSession(db, session);
    forall m | m in after.messages ensures MessageRefsValid(after, after.messages[m]) {
      assert MessageRefsValid(db, db.messages[m]);
    }
  }

  /** A message whose keys point at existing rows can be saved; the new key
      was free. */
  lemma InsertMessageKeepsIntegrity(db: Db, msg: ChatMessage)
    requires Integrity(db) && MessageRefsValid(db, msg)
    ensures Integrity(InsertMessage(db, msg))
    ensures db.nextMessage !in db.messages
  {
    var after := InsertMessage(db, msg);
    forall m | m in after.messages ensures MessageRefsValid(after, after.messages[m]) && m < after.nextMessage {
      if m != db.nextMessage {
        assert MessageRefsValid(db, db.messages[m]);
      }
    }
  }

  /** Saving a session's time changes no key. */
  lemma TouchSessionKeepsIntegrity(db: Db, s: int, now: int)
    requires Integrity(db) && s in db.sessions
    ensures Integrity(TouchSession(db, s, now))
  {
    var after := TouchSession(db, s, now);
    forall m | m in after.messages ensures MessageRefsValid(after, after.messages[m]) {
      assert MessageRefsValid(db, db.messages[m]);
    }
  }

  // ---------------------------------------------------------------------
  // Deletes: CASCADE from user to session to message, SET_NULL on the
  // message's model and parent.

  /** Drops the messages in `gone`; a surviving message whose parent is
      dropped keeps living with no parent. */
  function RemoveMessages(messages: map<int, ChatMessage>, gone: set<int>): map<int, ChatMessage> {
    map m | m in messages && m !in gone ::
      if messages[m].parentMessage.Some? && messages[m].parentMessage.value in gone
      then messages[m].(parentMessage := None)
      else messages[m]
  }

  /** The messages of the given sessions. */
  function MessagesIn(messages: map<int, ChatMessage>, sessions: set<int>): set<int> {
    set m | m in messages && messages[m].session in sessions
  }

  /** Deleting one message. */
  function DeleteMessage(db: Db, id: int): Db {
    db.(messages := RemoveMessages(db.messages, {id}))
  }

  /** Deleting a session deletes its messages. */
  function DeleteSession(db: Db, s: int): Db {
    db.(sessions := db.sessions - {s}, messages := RemoveMessages(db.messages, MessagesIn(db.messages, {s})))
  }

  /** The sessions of a user. */
  function SessionsOf(sessions: map<int, ChatSession>, user: int): set<int> {
    set s | s in sessions && sessions[s].user == user
  }

  /** Deleting a user deletes their sessions, and with them their messages. */
  function DeleteUser(db: Db, u: int): Db {
    var gone := SessionsOf(db.sessions, u);
    db.(users := db.users - {u},
        sessions := map s | s in db.sessions && s !in gone :: db.sessions[s],
        messages := RemoveMessages(db.messages, MessagesIn(db.messages, gone)))
  }

  /** Deleting a model configuration leaves its messages with no model. */
  function DeleteModel(db: Db, md: int): Db {
    db.(models := db.models - {md},
        messages := map m | m in db.messages ::
          if db.messages[m].model == Some(md) then db.messages[m].(model := None) else db.messages[m])
  }

  /** Dropping messages keeps the rest: exactly the messages outside `gone`
      survive, each as it was except that a parent in `gone` is cleared. */
  lemma RemoveMessagesSurvivors(messages: map<int, ChatMessage>, gone: set<int>)
    ensures forall m :: m in RemoveMessages(messages, gone) <==> m in messages && m !in gone
    ensures forall m :: m in RemoveMessages(messages, gone) ==>
      var before, after := messages[m], RemoveMessages(messages, gone)[m];
      && after.(parentMessage := before.parentMessage) == before
      && (after.parentMessage == if before.parentMessage.Some? && before.parentMessage.value in gone
                                 then None else before.parentMessage)
  {
  }

  /** Deleting one message keeps the tables consistent; its children stay,
      with no parent. */
  lemma DeleteMessageKeepsIntegrity(db: Db, id: int)
    requires Integrity(db)
    ensures Integrity(DeleteMessage(db, id))
    ensures forall m :: m in db.messages && m != id ==> m in DeleteMessage(db, id).messages
    ensures forall m :: m in db.messages && db.messages[m].parentMessage == Some(id) && m != id ==>
      DeleteMessage(db, id).messages[m].parentMessage.None?
  {
    var after := DeleteMessage(db, id);
    forall m | m in after.messages ensures MessageRefsValid(after, after.messages[m]) && m < after.nextMessage {
      assert MessageRefsValid(db, db.messages[m]);
    }
  }

  /** Deleting a session removes exactly its messages and keeps the tables
      consistent; the messages of other sessions survive. */
  lemma DeleteSessionKeepsIntegrity(db: Db, s: int)
    requires Integrity(db)
    ensures Integrity(DeleteSession(db, s))
    ensures forall m :: m in DeleteSession(db, s).messages <==> m in db.messages && db.messages[m].session != s
  {
    var after := DeleteSession(db, s);
    forall m | m in after.messages ensures MessageRefsValid(after, after.messages[m]) && m < after.nextMessage {
      assert MessageRefsValid(db, db.messages[m]);
    }
  }

  /** Deleting a user removes their sessions and every message in them, and
      nothing else; the tables stay consistent. */
  lemma DeleteUserKeepsIntegrity(db: Db, u: int)
    requires Integrity(db)
    ensures Integrity(DeleteUser(db, u))
    ensures forall s :: s in DeleteUser(db, u).sessions <==> s in db.sessions && db.sessions[s].user != u
    ensures forall m :: m in DeleteUser(db, u).messages <==>
      m in db.messages && db.sessions[db.messages[m].session].user != u
  {
    var after := DeleteUser(db, u);
    forall m | m in after.messages ensures MessageRefsValid(after, after.messages[m]) && m < after.nextMessage {
      assert MessageRefsValid(db, db.messages[m]);
    }
  }

  /** Deleting a model keeps every message; only the ones that used it lose
      their model, and the tables stay consistent. */
  lemma DeleteModelKeepsIntegrity(db: Db, md: int)
    requires Integrity(db)
    ensures Integrity(DeleteModel(db, md))
    ensures DeleteModel(db, md).messages.Keys == db.messages.Keys
    ensures forall m :: m in db.messages ==>
      var after := DeleteModel(db, md).messages[m];
      after.model == (if db.messages[m].model == Some(md) then None else db.messages[m].model)
      && after.(model := db.messages[m].model) == db.messages[m]
  {
    var after := DeleteModel(db, md);
    forall m | m in after.messages ensures MessageRefsValid(after, after.messages[m]) && m < after.nextMessage {
      assert MessageRefsValid(db, db.messages[m]);
    }
  }

  // ---------------------------------------------------------------------
  // Default orderings.

  /** Messages by `created_at`, oldest first. */
  predicate OldestFirst(ms: seq<ChatMessage>) {
    forall i, j :: 0 <= i < j < |ms| ==> ms[i].createdAt <= ms[j].createdAt
  }

  /** Sessions by `updated_at`, most recent first. */
  predicate RecentFirst(ss: seq<ChatSession>) {
    forall i, j :: 0 <= i < j < |ss| ==> ss[i].updatedAt >= ss[j].updatedAt
  }

  lemma ConsOldestFirst(a: ChatMessage, rest: seq<ChatMessage>)
    requires OldestFirst(rest)
    requires rest == [] || a.createdAt <= rest[0].createdAt
    ensures OldestFirst([a] + rest)
  {
    var r := [a] + rest;
    forall i, j | 0 <= i < j < |r| ensures r[i].createdAt <= r[j].createdAt {
      if i == 0 && j > 1 {
        assert rest[0].createdAt <= rest[j - 1].createdAt;
      }
    }
  }

  /** Places `x` before the first message created after it. */
  function InsertByCreated(x: ChatMessage, ms: seq<ChatMessage>): (r: seq<ChatMessage>)
    ensures |r| == |ms| + 1 && (r[0] == x || (ms != [] && r[0] == ms[0]))
  {
    if ms == [] || x.createdAt <= ms[0].createdAt then [x] + ms
    else [ms[0]] + InsertByCreated(x, ms[1..])
  }

  /** Inserting into an ordered list keeps it ordered. */
  lemma {:induction false} InsertByCreatedSorted(x: ChatMessage, ms: seq<ChatMessage>)
    requires OldestFirst(ms)
    ensures OldestFirst(InsertByCreated(x, ms))
  {
    if ms == [] || x.createdAt <= ms[0].createdAt {
      ConsOldestFirst(x, ms);
    } else {
      var tail := ms[1..];
      assert OldestFirst(tail) by {
        forall i, j | 0 <= i < j < |tail| ensures tail[i].createdAt <= tail[j].createdAt {
          assert ms[i + 1].createdAt <= ms[j + 1].createdAt;
        }
      }
      InsertByCreatedSorted(x, tail);
      var rest := InsertByCreated(x, tail);
      assert rest[0] == x || ms[0].createdAt <= rest[0].createdAt;
      ConsOldestFirst(ms[0], rest);
    }
  }

  /** Inserting adds exactly `x`. */
  lemma {:induction false} InsertByCreatedPerm(x: ChatMessage, ms: seq<ChatMessage>)
    ensures multiset(InsertByCreated(x, ms)) == multiset(ms) + multiset{x}
  {
    if ms != [] && !(x.createdAt <= ms[0].createdAt) {
      InsertByCreatedPerm(x, ms[1..]);
      assert ms == [ms[0]] + ms[1..];
    }
  }

  /** The `ordering = ["created_at"]` of a message query: insertion sort
      by creation time; equal times keep their relative order. */
  function OrderMessages(ms: seq<ChatMessage>): seq<ChatMessage> {
    if ms == [] then [] else InsertByCreated(ms[0], OrderMessages(ms[1..]))
  }

  /** The ordered messages are the same messages, oldest first. */
  lemma {:induction false} OrderMessagesFacts(ms: seq<ChatMessage>)
    ensures OldestFirst(OrderMessages(ms))
    ensures multiset(OrderMessages(ms)) == multiset(ms)
  {
    if ms != [] {
      var rest := OrderMessages(ms[1..]);
      OrderMessagesFacts(ms[1..]);
      InsertByCreatedSorted(ms[0], rest);
      InsertByCreatedPerm(ms[0], rest);
      assert ms == [ms[0]] + ms[1..];
    }
  }

  lemma ConsRecentFirst(a: ChatSession, rest: seq<ChatSession>)
    requires RecentFirst(rest)
    requires rest == [] || a.updatedAt >= rest[0].updatedAt
    ensures RecentFirst([a] + rest)
  {
    var r := [a] + rest;
    forall i, j | 0 <= i < j < |r| ensures r[i].updatedAt >= r[j].updatedAt {
      if i == 0 && j > 1 {
        assert rest[0].updatedAt >= rest[j - 1].updatedAt;
      }
    }
  }

  /** Places `x` before the first session updated no later than it. */
  function InsertByUpdated(x: ChatSession, ss: seq<ChatSession>): (r: seq<ChatSession>)
    ensures |r| == |ss| + 1 && (r[0] == x || (ss != [] && r[0] == ss[0]))
  {
    if ss == [] || x.updatedAt >= ss[0].updatedAt then [x] + ss
    else [ss[0]] + InsertByUpdated(x, ss[1..])
  }

  /** Inserting into an ordered list keeps it ordered. */
  lemma {:induction false} InsertByUpdatedSorted(x: ChatSession, ss: seq<ChatSession>)
    requires RecentFirst(ss)
    ensures RecentFirst(InsertByUpdated(x, ss))
  {
    if ss == [] || x.updatedAt >= ss[0].updatedAt {
      ConsRecentFirst(x, ss);
    } else {
      var tail := ss[1..];
      assert RecentFirst(tail) by {
        forall i, j | 0 <= i < j < |tail| ensures tail[i].updatedAt >= tail[j].updatedAt {
          assert ss[i + 1].updatedAt >= ss[j + 1].updatedAt;
        }
      }
      InsertByUpdatedSorted(x, tail);
      var rest := InsertByUpdated(x, tail);
      assert rest[0] == x || ss[0].updatedAt >= rest[0].updatedAt;
      ConsRecentFirst(ss[0], rest);
    }
  }

  /** Inserting adds exactly `x`. */
  lemma {:induction false} InsertByUpdatedPerm(x: ChatSession, ss: seq<ChatSession>)
    ensures multiset(InsertByUpdated(x, ss)) == multiset(ss) + multiset{x}
  {
    if ss != [] && !(x.updatedAt >= ss[0].updatedAt) {
      InsertByUpdatedPerm(x, ss[1..]);
      assert ss == [ss[0]] + ss[1..];
    }
  }

  /** The `ordering = ["-updated_at"]` of a session query: insertion sort
      by update time, most recent first. */
  function OrderSessions(ss: seq<ChatSession>): seq<ChatSession> {
    if ss == [] then [] else InsertByUpdated(ss[0], OrderSessions(ss[1..]))
  }

  /** The ordered sessions are the same sessions, most recently updated
      first. */
  lemma {:induction false} OrderSessionsFacts(ss: seq<ChatSession>)
    ensures RecentFirst(OrderSessions(ss))
    ensures multiset(OrderSessions(ss)) == multiset(ss)
  {
    if ss != [] {
      var rest := OrderSessions(ss[1..]);
      OrderSessionsFacts(ss[1..]);
      InsertByUpdatedSorted(ss[0], rest);
      InsertByUpdatedPerm(ss[0], rest);
      assert ss == [ss[0]] + ss[1..];
    }
  }

  // ---------------------------------------------------------------------
  // Display texts.

  function Min(a: int, b: int): int { if a <= b then a else b }

  /** `ChatMessage.__str__`: the session title, the role and the first 50
      characters of the content, always followed by "..." even when the
      content is shorter. */
  function MessageText(sessionTitle: string, msg: ChatMessage): (r: string)
    ensures |r| == |sessionTitle| + |RoleValue(msg.role)| + 8 + Min(50, |msg.content|)
    ensures r[..|sessionTitle|] == sessionTitle
    ensures r[|sessionTitle|..|sessionTitle| + 3] == " - "
    ensures r[|sessionTitle| + 3..|sessionTitle| + 3 + |RoleValue(msg.role)|] == RoleValue(msg.role)
    ensures r[|sessionTitle| + 3 + |RoleValue(msg.role)|..|sessionTitle| + 5 + |RoleValue(msg.role)|] == ": "
    ensures r[|r| - 3..] == "..."
    ensures var shown := r[|r| - 3 - Min(50, |msg.content|)..|r| - 3];
      shown == msg.content[..Min(50, |msg.content|)]
      && (|msg.content| <= 50 ==> shown == msg.content)
  {
    var shown := if |msg.content| <= 50 then msg.content else msg.content[..50];
    sessionTitle + " - " + RoleValue(msg.role) + ": " + shown + "..."
  }

  /** `ChatSession.__str__`: the owner's username, then the title. */
  function SessionText(username: string, session: ChatSession): (r: string)
    ensures |r| == |username| + 3 + |session.title|
    ensures r[..|username|] == username && r[|r| - |session.title|..] == session.title
    ensures r[|username|..|username| + 3] == " - "
  {
    username + " - " + session.title
  }
}
