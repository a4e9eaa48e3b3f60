/** The normalised chunk shapes the chat relay streams to the client:
    `Choice.to_dict` and `SSEGenerator.create_chat_chunk` of chat/views.py.
    Both build a dict and add some keys only when the value is truthy. */
module ChatChunks {
  import opened Base
  import opened JsonValues

  /** A `Choice` object: content, role, index, reasoning_content, finish_reason. */
  datatype Choice = Choice(
    content: string,
    role: string,
    index: int,
    reasoningContent: string,
    finishReason: Option<string>)

  /** Python truthiness of an optional string: present and non-empty. */
  predicate TruthyStr(o: Option<string>) {
    o.Some? && o.value != ""
  }

  /** Python truthiness of an optional integer: present and non-zero. */
  predicate TruthyInt(o: Option<int>) {
    o.Some? && o.value != 0
  }

  /** The `delta` dict of a choice. */
  function DeltaFields(c: Choice): seq<(string, Json)> {
    var delta := [("role", JStr(c.role)), ("content", JStr(c.content))];
    if c.reasoningContent != "" then SetKey(delta, "reasoning_content", JStr(c.reasoningContent))
    else delta
  }

  /** `Choice.to_dict()`: `index` and `delta`, where `delta` always holds
      `role` and `content`, gains `reasoning_content` only when it is
      non-empty, and the choice gains `finish_reason` only when truthy. */
  function ChoiceToDict(c: Choice): (r: Json)
    ensures r.JObj?
    ensures KeysOf(r.fields) == ["index", "delta"] + (if TruthyStr(c.finishReason) then ["finish_reason"] else [])
    ensures Lookup(r.fields, "index") == Some(JInt(c.index))
    ensures Lookup(r.fields, "delta") == Some(JObj(DeltaFields(c)))
    ensures TruthyStr(c.finishReason) ==> Lookup(r.fields, "finish_reason") == Some(JStr(c.finishReason.value))
  {
    var d := [("index", JInt(c.index)), ("delta", JObj(DeltaFields(c)))];
    if TruthyStr(c.finishReason) then
      SetKeyLookup(d, "finish_reason", JStr(c.finishReason.value), "index");
      SetKeyLookup(d, "finish_reason", JStr(c.finishReason.value), "delta");
      JObj(SetKey(d, "finish_reason", JStr(c.finishReason.value)))
    else JObj(d)
  }

  /** The delta of every choice has `role` and `content`; it has
      `reasoning_content` exactly when the reasoning text is non-empty, and
      then carries that text. */
  lemma DeltaShape(c: Choice)
    ensures KeysOf(DeltaFields(c)) == ["role", "content"] + (if c.reasoningContent != "" then ["reasoning_content"] else [])
    ensures Lookup(DeltaFields(c), "role") == Some(JStr(c.role))
    ensures Lookup(DeltaFields(c), "content") == Some(JStr(c.content))
    ensures c.reasoningContent != "" ==> Lookup(DeltaFields(c), "reasoning_content") == Some(JStr(c.reasoningContent))
  {
    var delta := [("role", JStr(c.role)), ("content", JStr(c.content))];
    SetKeyLookup(delta, "reasoning_content", JStr(c.reasoningContent), "role");
    SetKeyLookup(delta, "reasoning_content", JStr(c.reasoningContent), "content");
  }

  /** `create_chat_chunk(id, choices, model, created, object_type, usage)`. */
  function CreateChatChunk(id: string, choices: seq<Json>, model: string, created: int,
                           objectType: string, usage: Option<int>): (r: Json)
    ensures r.JObj? && |r.fields| == if TruthyInt(usage) then 6 else 5
  {
    var chunk := [("id", JStr(id)), ("choices", JArr(choices)), ("created", JInt(created)),
                  ("model", JStr(model)), ("object", JStr(objectType))];
    // `chunk["usage"] = usage` on a key the dict does not have yet appends it.
    if TruthyInt(usage) then JObj(chunk + [("usage", JInt(usage.value))]) else JObj(chunk)
  }

  /** A chunk has the five fixed keys, then `usage` only when the usage is
      truthy, so a usage of 0 is left out. */
  lemma ChunkKeys(id: string, choices: seq<Json>, model: string, created: int,
                  objectType: string, usage: Option<int>)
    ensures KeysOf(CreateChatChunk(id, choices, model, created, objectType, usage).fields)
         == ["id", "choices", "created", "model", "object"] + (if TruthyInt(usage) then ["usage"] else [])
  {
    var fs := CreateChatChunk(id, choices, model, created, objectType, usage).fields;
    var ks := ["id", "choices", "created", "model", "object"] + (if TruthyInt(usage) then ["usage"] else []);
    assert forall i :: 0 <= i < |ks| ==> KeysOf(fs)[i] == ks[i];
  }

  /** Each key of a chunk carries the argument of the same name. */
  lemma ChunkFields(id: string, choices: seq<Json>, model: string, created: int,
                    objectType: string, usage: Option<int>)
    ensures var fs := CreateChatChunk(id, choices, model, created, objectType, usage).fields;
      && Lookup(fs, "id") == Some(JStr(id))
      && Lookup(fs, "choices") == Some(JArr(choices))
      && Lookup(fs, "created") == Some(JInt(created))
      && Lookup(fs, "model") == Some(JStr(model))
      && Lookup(fs, "object") == Some(JStr(objectType))
  {
    var fs := CreateChatChunk(id, choices, model, created, objectType, usage).fields;
    assert fs[0] == ("id", JStr(id)) && fs[1] == ("choices", JArr(choices));
    assert fs[2] == ("created", JInt(created)) && fs[3] == ("model", JStr(model));
    assert fs[4] == ("object", JStr(objectType));
    LookupFirst(fs, 0, "id");
    LookupFirst(fs, 1, "choices");
    LookupFirst(fs, 2, "created");
    LookupFirst(fs, 3, "model");
    LookupFirst(fs, 4, "object");
  }

  /** The `usage` key of a chunk holds the usage exactly when it is truthy. */
  lemma ChunkUsage(id: string, choices: seq<Json>, model: string, created: int,
                   objectType: string, usage: Option<int>)
    ensures Lookup(CreateChatChunk(id, choices, model, created, objectType, usage).fields, "usage")
         == if TruthyInt(usage) then Some(JInt(usage.value)) else None
  {
    var fs := CreateChatChunk(id, choices, model, created, objectType, usage).fields;
    ChunkKeys(id, choices, model, created, objectType, usage);
    LookupNone(fs, "usage");
    if TruthyInt(usage) {
      assert fs[5] == ("usage", JInt(usage.value));
      LookupFirst(fs, 5, "usage");
    }
  }
}
