/** The client's chat store (store/chat.ts): the session list, the message
    list and the temporary message that accumulates a streamed reply. The
    actions change the lists in place; `findIndex` is written out as the
    scan it performs. Timestamps are the ISO texts the caller supplies. */
module ChatStore {
  import opened Base

  datatype SessionItem = SessionItem(id: int, title: string, user: int, createdAt: string,
                                     updatedAt: string, isActive: bool)

  /** A `Partial<ChatSession>`: the fields present in the object. */
  datatype SessionPatch = SessionPatch(id: Option<int>, title: Option<string>, user: Option<int>,
                                       createdAt: Option<string>, updatedAt: Option<string>,
                                       isActive: Option<bool>)

  datatype MessageItem = MessageItem(id: int, role: string, content: string,
                                     reasoningContent: Option<string>, tokens: int,
                                     messageRespId: Option<string>)

  datatype TempMessage = TempMessage(thinkingStatus: string, reasoningContent: string, content: string)

  /** An entry of `allMessages`: a stored message or the temporary one. */
  datatype Shown = Stored(message: MessageItem) | Pending(temp: TempMessage)

  /** `{...item, ...patch}`: the patch's fields win. */
  function Merge(item: SessionItem, patch: SessionPatch): SessionItem {
    SessionItem(patch.id.GetOr(item.id), patch.title.GetOr(item.title), patch.user.GetOr(item.user),
      patch.createdAt.GetOr(item.createdAt), patch.updatedAt.GetOr(item.updatedAt),
      patch.isActive.GetOr(item.isActive))
  }

  /** `findIndex(item => item.id === id)` on sessions: the first position
      holding the id, or -1. An absent id matches nothing. */
  function SessionIndex(ss: seq<SessionItem>, id: Option<int>): (r: int)
    ensures -1 <= r < |ss|
    ensures r >= 0 ==> id == Some(ss[r].id) && forall j :: 0 <= j < r ==> id != Some(ss[j].id)
    ensures r == -1 ==> forall j :: 0 <= j < |ss| ==> id != Some(ss[j].id)
  {
    if ss == [] then -1
    else if id == Some(ss[0].id) then 0
    else
      var r := SessionIndex(ss[1..], id);
      if r == -1 then -1 else r + 1
  }

  /** The same search on messages. */
  function MessageIndex(ms: seq<MessageItem>, id: int): (r: int)
    ensures -1 <= r < |ms|
    ensures r >= 0 ==> ms[r].id == id && forall j :: 0 <= j < r ==> ms[j].id != id
    ensures r == -1 ==> forall j :: 0 <= j < |ms| ==> ms[j].id != id
  {
    if ms == [] then -1
    else if ms[0].id == id then 0
    else
      var r := MessageIndex(ms[1..], id);
      if r == -1 then -1 else r + 1
  }

  /** `updateSession`'s list. */
  function UpdatedSessions(ss: seq<SessionItem>, patch: SessionPatch): seq<SessionItem> {
    var i := SessionIndex(ss, patch.id);
    if i == -1 then ss else ss[i := Merge(ss[i], patch)]
  }

  /** `deleteSession`'s list. */
  function DeletedSessions(ss: seq<SessionItem>, id: int): seq<SessionItem> {
    var i := SessionIndex(ss, Some(id));
    if i == -1 then ss else ss[..i] + ss[i + 1..]
  }

  /** `updateSessionTime`'s list. */
  function TouchedSessions(ss: seq<SessionItem>, id: Option<int>, now: string): seq<SessionItem> {
    if id.None? || id.value == 0 then ss
    else
      var i := SessionIndex(ss, id);
      if i == -1 then ss else ss[i := ss[i].(updatedAt := now)]
  }

  /** `addMessage`'s list. */
  function AddedMessages(ms: seq<MessageItem>, m: MessageItem): seq<MessageItem> {
    var i := MessageIndex(ms, m.id);
    if i == -1 then ms + [m] else ms[i := m]
  }

  /** `updateTempMessage`'s temporary message. */
  function UpdatedTemp(temp: Option<TempMessage>, content: string, isFirst: bool, reasoning: string): Option<TempMessage> {
    if isFirst then Some(TempMessage("thinking", reasoning, content))
    else if temp.None? then None
    else if reasoning != [] then Some(temp.value.(reasoningContent := temp.value.reasoningContent + reasoning))
    else if content != [] then Some(temp.value.(content := temp.value.content + content))
    else temp
  }

  /** The message list with its ids all different. */
  predicate UniqueIds(ms: seq<MessageItem>) {
    forall i, j :: 0 <= i < j < |ms| ==> ms[i].id != ms[j].id
  }

  /** The highest position holding an assistant message, or -1. */
  function LastAssistantIndex(ms: seq<MessageItem>): (r: int)
    ensures -1 <= r < |ms|
    ensures r >= 0 ==> ms[r].role == "assistant" && forall j :: r < j < |ms| ==> ms[j].role != "assistant"
    ensures r == -1 ==> forall j :: 0 <= j < |ms| ==> ms[j].role != "assistant"
  {
    if ms == [] then -1
    else if ms[|ms| - 1].role == "assistant" then |ms| - 1
    else LastAssistantIndex(ms[..|ms| - 1])
  }

  // ---------------------------------------------------------------------
  // What the list operations promise.

  /** `updateSession` merges into the first entry with the patch's id and
      leaves every other entry, and the length, as they were; an unknown or
      missing id changes nothing. */
  lemma UpdateSessionEffect(ss: seq<SessionItem>, patch: SessionPatch)
    ensures |UpdatedSessions(ss, patch)| == |ss|
    ensures SessionIndex(ss, patch.id) == -1 ==> UpdatedSessions(ss, patch) == ss
    ensures var i := SessionIndex(ss, patch.id);
      forall j :: 0 <= j < |ss| ==>
        UpdatedSessions(ss, patch)[j] == if j == i then Merge(ss[j], patch) else ss[j]
  {
  }

  /** `deleteSession` removes exactly the first entry with the id: the
      entries before it and after it keep their order, and the removed one
      is the only one missing. */
  lemma DeleteSessionEffect(ss: seq<SessionItem>, id: int)
    ensures var i := SessionIndex(ss, Some(id));
      && (i == -1 ==> DeletedSessions(ss, id) == ss)
      && (i >= 0 ==>
            && |DeletedSessions(ss, id)| == |ss| - 1
            && DeletedSessions(ss, id)[..i] == ss[..i]
            && DeletedSessions(ss, id)[i..] == ss[i + 1..]
            && multiset(DeletedSessions(ss, id)) + multiset{ss[i]} == multiset(ss))
  {
    var i := SessionIndex(ss, Some(id));
    if i >= 0 {
      assert ss == ss[..i] + [ss[i]] + ss[i + 1..];
    }
  }

  /** `updateSessionTime` ignores a falsy id (0 included) and an unknown
      one; otherwise only that entry's `updatedAt` changes. */
  lemma TouchSessionEffect(ss: seq<SessionItem>, id: Option<int>, now: string)
    ensures id.None? || id == Some(0) || SessionIndex(ss, id) == -1 ==> TouchedSessions(ss, id, now) == ss
    ensures var i := SessionIndex(ss, id);
      id.Some? && id.value != 0 && i >= 0 ==>
        && |TouchedSessions(ss, id, now)| == |ss|
        && TouchedSessions(ss, id, now)[i] == ss[i].(updatedAt := now)
        && forall j :: 0 <= j < |ss| && j != i ==> TouchedSessions(ss, id, now)[j] == ss[j]
  {
  }

  /** `addMessage` replaces the entry with the same id in place (length and
      positions unchanged) or appends at the end; either way the message is
      in the list, and ids that were unique stay unique. */
  lemma AddMessageEffect(ms: seq<MessageItem>, m: MessageItem)
    ensures var i := MessageIndex(ms, m.id);
      && (i >= 0 ==>
            && |AddedMessages(ms, m)| == |ms|
            && AddedMessages(ms, m)[i] == m
            && forall j :: 0 <= j < |ms| && j != i ==> AddedMessages(ms, m)[j] == ms[j])
      && (i == -1 ==> AddedMessages(ms, m) == ms + [m])
    ensures m in AddedMessages(ms, m)
    ensures UniqueIds(ms) ==> UniqueIds(AddedMessages(ms, m))
  {
    var i := MessageIndex(ms, m.id);
    var r := AddedMessages(ms, m);
    if i >= 0 {
      assert r[i] == m;
    } else {
      assert r[|ms|] == m;
    }
  }

  /** With `isFirst` the temporary message is replaced; otherwise a
      non-empty reasoning delta is appended to the reasoning, else a
      non-empty content delta to the content, never both; with no temporary
      message nothing happens. */
  lemma UpdateTempEffect(temp: Option<TempMessage>, content: string, isFirst: bool, reasoning: string)
    ensures isFirst ==> UpdatedTemp(temp, content, isFirst, reasoning) == Some(TempMessage("thinking", reasoning, content))
    ensures !isFirst && temp.None? ==> UpdatedTemp(temp, content, isFirst, reasoning).None?
    ensures !isFirst && temp.Some? ==>
      var t := UpdatedTemp(temp, content, isFirst, reasoning).value;
      && t.thinkingStatus == temp.value.thinkingStatus
      && t.reasoningContent == temp.value.reasoningContent + reasoning
      && t.content == temp.value.content + (if reasoning == [] then content else [])
  {
  }

  /** The reasoning and content deltas of a run of stream chunks, each
      given as (content, reasoning), concatenated. */
  function ReasoningOf(deltas: seq<(string, string)>): string {
    if deltas == [] then "" else ReasoningOf(deltas[..|deltas| - 1]) + deltas[|deltas| - 1].1
  }

  function ContentOf(deltas: seq<(string, string)>): string {
    if deltas == [] then "" else ContentOf(deltas[..|deltas| - 1]) + deltas[|deltas| - 1].0
  }

  /** `updateTempMessage(content, false, reasoning)` for each chunk in turn. */
  function ApplyDeltas(temp: Option<TempMessage>, deltas: seq<(string, string)>): Option<TempMessage> {
    if deltas == [] then temp
    else
      var last := deltas[|deltas| - 1];
      UpdatedTemp(ApplyDeltas(temp, deltas[..|deltas| - 1]), last.0, false, last.1)
  }

  /** Feeding a stream's chunks, each carrying one channel, to
      `updateTempMessage` builds each buffer as the concatenation of its own
      deltas. */
  lemma {:induction false} DeltasAccumulate(start: TempMessage, deltas: seq<(string, string)>)
    requires forall i :: 0 <= i < |deltas| ==> deltas[i].0 == [] || deltas[i].1 == []
    ensures ApplyDeltas(Some(start), deltas) ==
      Some(start.(reasoningContent := start.reasoningContent + ReasoningOf(deltas),
                  content := start.content + ContentOf(deltas)))
  {
    if deltas != [] {
      var init := deltas[..|deltas| - 1];
      DeltasAccumulate(start, init);
      var last := deltas[|deltas| - 1];
      assert init + [last] == deltas;
      assert ReasoningOf(deltas) == ReasoningOf(init) + last.1;
      assert ContentOf(deltas) == ContentOf(init) + last.0;
      if last.1 != [] {
        assert last.0 == [] && ContentOf(deltas) == ContentOf(init);
        assert start.reasoningContent + ReasoningOf(init) + last.1 == start.reasoningContent + ReasoningOf(deltas);
      } else {
        assert ReasoningOf(deltas) == ReasoningOf(init);
        if last.0 == [] {
          assert ContentOf(deltas) == ContentOf(init);
        } else {
          assert start.content + ContentOf(init) + last.0 == start.content + ContentOf(deltas);
        }
      }
    } else {
      assert start.reasoningContent + "" == start.reasoningContent;
      assert start.content + "" == start.content;
    }
  }

  /** The store. */
  class Store {
    var sessionList: seq<SessionItem>
    var activeSessionId: Option<int>
    var messageList: seq<MessageItem>
    var tempMessage: Option<TempMessage>

    constructor()
      ensures sessionList == [] && activeSessionId.None? && messageList == [] && tempMessage.None?
    {
      sessionList := [];
      activeSessionId := None;
      messageList := [];
      tempMessage := None;
    }

    /** `findIndex` over the sessions. */
    method FindSession(id: Option<int>) returns (index: int)
      ensures index == SessionIndex(sessionList, id)
    {
      index := 0;
      while index < |sessionList| && id != Some(sessionList[index].id)
        invariant 0 <= index <= |sessionList|
        invariant forall j :: 0 <= j < index ==> id != Some(sessionList[j].id)
      {
        index := index + 1;
      }
      if index == |sessionList| {
        index := -1;
      }
      SessionIndexIs(sessionList, id, index);
    }

    /** `findIndex` over the messages. */
    method FindMessage(id: int) returns (index: int)
      ensures index == MessageIndex(messageList, id)
    {
      index := 0;
      while index < |messageList| && messageList[index].id != id
        invariant 0 <= index <= |messageList|
        invariant forall j :: 0 <= j < index ==> messageList[j].id != id
      {
        index := index + 1;
      }
      if index == |messageList| {
        index := -1;
      }
      MessageIndexIs(messageList, id, index);
    }

    method SetSessionList(sessions: seq<SessionItem>)
      modifies this
      ensures sessionList == sessions
      ensures messageList == old(messageList) && tempMessage == old(tempMessage) && activeSessionId == old(activeSessionId)
    {
      sessionList := sessions;
    }

    /** `addSession`: the new session goes first; the old list is the tail. */
    method AddSession(session: SessionItem)
      modifies this
      ensures sessionList == [session] + old(sessionList)
      ensures messageList == old(messageList) && tempMessage == old(tempMessage) && activeSessionId == old(activeSessionId)
    {
      sessionList := [session] + sessionList;
    }

    method UpdateSession(patch: SessionPatch)
      modifies this
      ensures sessionList == UpdatedSessions(old(sessionList), patch)
      ensures messageList == old(messageList) && tempMessage == old(tempMessage) && activeSessionId == old(activeSessionId)
    {
      var index := FindSession(patch.id);
      if index != -1 {
        sessionList := sessionList[index := Merge(sessionList[index], patch)];
      }
    }

    method DeleteSession(id: int)
      modifies this
      ensures sessionList == DeletedSessions(old(sessionList), id)
      ensures messageList == old(messageList) && tempMessage == old(tempMessage) && activeSessionId == old(activeSessionId)
    {
      var index := FindSession(Some(id));
      if index != -1 {
        sessionList := sessionList[..index] + sessionList[index + 1..];
      }
    }

    method UpdateSessionTime(id: Option<int>, now: string)
      modifies this
      ensures sessionList == TouchedSessions(old(sessionList), id, now)
      ensures messageList == old(messageList) && tempMessage == old(tempMessage) && activeSessionId == old(activeSessionId)
    {
      if id.None? || id.value == 0 {
        return;
      }
      var index := FindSession(id);
      if index != -1 {
        sessionList := sessionList[index := sessionList[index].(updatedAt := now)];
      }
    }

    method SetMessageList(messages: seq<MessageItem>)
      modifies this
      ensures messageList == messages
      ensures sessionList == old(sessionList) && tempMessage == old(tempMessage) && activeSessionId == old(activeSessionId)
    {
      messageList := messages;
    }

    method AddMessage(message: MessageItem)
      modifies this
      ensures messageList == AddedMessages(old(messageList), message)
      ensures sessionList == old(sessionList) && tempMessage == old(tempMessage) && activeSessionId == old(activeSessionId)
    {
      var index := FindMessage(message.id);
      if index != -1 {
        messageList := messageList[index := message];
      } else {
        messageList := messageList + [message];
      }
    }

    method UpdateTempMessage(content: string, isFirst: bool, reasoning: string)
      modifies this
      ensures tempMessage == UpdatedTemp(old(tempMessage), content, isFirst, reasoning)
      ensures sessionList == old(sessionList) && messageList == old(messageList) && activeSessionId == old(activeSessionId)
    {
      if isFirst {
        tempMessage := Some(TempMessage("thinking", reasoning, content));
      } else if tempMessage.Some? {
        if reasoning != [] {
          tempMessage := Some(tempMessage.value.(reasoningContent := tempMessage.value.reasoningContent + reasoning));
        } else if content != [] {
          tempMessage := Some(tempMessage.value.(content := tempMessage.value.content + content));
        }
      }
    }

    method ClearTempMessage()
      modifies this
      ensures tempMessage.None?
      ensures sessionList == old(sessionList) && messageList == old(messageList) && activeSessionId == old(activeSessionId)
    {
      tempMessage := None;
    }

    /** The `allMessages` getter: the stored messages, then the temporary
      one exactly when there is one. */
    function AllMessages(): (r: seq<Shown>)
      reads this
      ensures |r| == |messageList| + (if tempMessage.Some? then 1 else 0)
      ensures forall i :: 0 <= i < |messageList| ==> r[i] == Stored(messageList[i])
      ensures tempMessage.Some? ==> r[|messageList|] == Pending(tempMessage.value)
    {
      var stored := seq(|messageList|, i requires 0 <= i < |messageList| reads this => Stored(messageList[i]));
      if tempMessage.Some? then stored + [Pending(tempMessage.value)] else stored
    }

    /** The `lastAssistantMessage` getter: scans from the end. */
    method LastAssistantMessage() returns (r: Option<MessageItem>)
      ensures var i := LastAssistantIndex(messageList);
        r == if i == -1 then None else Some(messageList[i])
    {
      var i := |messageList| - 1;
      while i >= 0
        invariant -1 <= i < |messageList|
        invariant forall j :: i < j < |messageList| ==> messageList[j].role != "assistant"
      {
        if messageList[i].role == "assistant" {
          LastAssistantIs(messageList, i);
          return Some(messageList[i]);
        }
        i := i - 1;
      }
      LastAssistantIs(messageList, -1);
      r := None;
    }
  }

  /** The first matching position, characterised, is the one
      `SessionIndex` finds. */
  lemma SessionIndexIs(ss: seq<SessionItem>, id: Option<int>, index: int)
    requires -1 <= index < |ss|
    requires index >= 0 ==> id == Some(ss[index].id) && forall j :: 0 <= j < index ==> id != Some(ss[j].id)
    requires index == -1 ==> forall j :: 0 <= j < |ss| ==> id != Some(ss[j].id)
    ensures index == SessionIndex(ss, id)
  {
  }

  lemma MessageIndexIs(ms: seq<MessageItem>, id: int, index: int)
    requires -1 <= index < |ms|
    requires index >= 0 ==> ms[index].id == id && forall j :: 0 <= j < index ==> ms[j].id != id
    requires index == -1 ==> forall j :: 0 <= j < |ms| ==> ms[j].id != id
    ensures index == MessageIndex(ms, id)
  {
  }

  lemma LastAssistantIs(ms: seq<MessageItem>, index: int)
    requires -1 <= index < |ms|
    requires index >= 0 ==> ms[index].role == "assistant"
    requires forall j :: index < j < |ms| ==> ms[j].role != "assistant"
    ensures index == LastAssistantIndex(ms)
  {
  }
}
