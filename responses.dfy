/** utils/response.py: the envelope every view answers with, and the
    exception handler that rewrites throttling and validation errors into
    the same shape. The timestamp, `datetime.now()` rendered, is a
    parameter. */
module Responses {
  import opened Base
  import opened JsonValues
  import opened DrfFields

  const DefaultMessage := "操作成功"
  const ThrottledMessage := "请求过于频繁"
  const UnknownError := "未知错误"

  /** The dict built before the extra keyword fields are merged. */
  function EnvelopeBase(data: Json, message: Json, status: int, timestamp: string): seq<(string, Json)> {
    [("status", JInt(status)), ("data", data), ("message", message), ("timestamp", JStr(timestamp))]
  }

  /** `d.update(kwargs)`: every item assigned in turn, in order. */
  function UpdateAll(fs: seq<(string, Json)>, kwargs: seq<(string, Json)>): seq<(string, Json)>
    decreases |kwargs|
  {
    if kwargs == [] then fs
    else UpdateAll(SetKey(fs, kwargs[0].0, kwargs[0].1), kwargs[1..])
  }

  /** `StandardResponse(data, message, status, **kwargs)`: the body, built
      by merging the keyword fields into the envelope one by one, and the
      HTTP status, which is the `status` argument. */
  method StandardResponse(data: Json, message: Json, status: int, kwargs: seq<(string, Json)>, timestamp: string)
    returns (body: seq<(string, Json)>, httpStatus: int)
    ensures body == UpdateAll(EnvelopeBase(data, message, status, timestamp), kwargs)
    ensures httpStatus == status
  {
    body := EnvelopeBase(data, message, status, timestamp);
    for i := 0 to |kwargs|
      invariant UpdateAll(body, kwargs[i..]) == UpdateAll(EnvelopeBase(data, message, status, timestamp), kwargs)
    {
      assert kwargs[i..][1..] == kwargs[i + 1..];
      body := SetKey(body, kwargs[i].0, kwargs[i].1);
    }
    assert kwargs[|kwargs|..] == [];
    httpStatus := status;
  }

  /** Merging keeps every key in its place and appends the new ones. */
  lemma {:induction false} UpdateAllPrefix(fs: seq<(string, Json)>, kwargs: seq<(string, Json)>)
    ensures KeysOf(fs) <= KeysOf(UpdateAll(fs, kwargs))
    decreases |kwargs|
  {
    if kwargs != [] {
      var next := SetKey(fs, kwargs[0].0, kwargs[0].1);
      UpdateAllPrefix(next, kwargs[1..]);
      assert KeysOf(fs) <= KeysOf(next);
    }
  }

  /** After merging, a key is present exactly when it was in the dict or
      among the keyword fields. */
  lemma {:induction false} UpdateAllHasKey(fs: seq<(string, Json)>, kwargs: seq<(string, Json)>, k: string)
    ensures k in KeysOf(UpdateAll(fs, kwargs)) <==> k in KeysOf(fs) || k in KeysOf(kwargs)
    decreases |kwargs|
  {
    if kwargs != [] {
      var next := SetKey(fs, kwargs[0].0, kwargs[0].1);
      UpdateAllHasKey(next, kwargs[1..], k);
      assert k in KeysOf(next) <==> k in KeysOf(fs) || k == kwargs[0].0;
      assert KeysOf(kwargs) == [kwargs[0].0] + KeysOf(kwargs[1..]);
    }
  }

  /** After merging, a keyword field wins over the field of the same name,
      and every other field reads as before. */
  lemma {:induction false} UpdateAllLookup(fs: seq<(string, Json)>, kwargs: seq<(string, Json)>, k: string)
    requires DistinctKeys(kwargs)
    ensures Lookup(UpdateAll(fs, kwargs), k) == if k in KeysOf(kwargs) then Lookup(kwargs, k) else Lookup(fs, k)
    decreases |kwargs|
  {
    if kwargs != [] {
      var head, tail := kwargs[0], kwargs[1..];
      var next := SetKey(fs, head.0, head.1);
      assert DistinctKeys(tail) by {
        forall i, j | 0 <= i < j < |tail| ensures tail[i].0 != tail[j].0 {
          assert kwargs[i + 1].0 != kwargs[j + 1].0;
        }
      }
      UpdateAllLookup(next, tail, k);
      SetKeyLookup(fs, head.0, head.1, k);
      assert KeysOf(kwargs) == [head.0] + KeysOf(tail);
      if k == head.0 {
        assert k !in KeysOf(tail) by {
          forall j | 0 <= j < |tail| ensures KeysOf(tail)[j] != k {
            assert kwargs[0].0 != kwargs[j + 1].0;
          }
        }
      }
    }
  }

  /** The envelope always starts with `status`, `data`, `message` and
      `timestamp`, in that order; the keyword fields that are new follow. */
  lemma EnvelopeKeys(data: Json, message: Json, status: int, kwargs: seq<(string, Json)>, timestamp: string)
    ensures var ks := KeysOf(UpdateAll(EnvelopeBase(data, message, status, timestamp), kwargs));
      && |ks| >= 4 && ks[..4] == ["status", "data", "message", "timestamp"]
      && forall k :: k in ks <==> k in ["status", "data", "message", "timestamp"] || k in KeysOf(kwargs)
  {
    var base := EnvelopeBase(data, message, status, timestamp);
    UpdateAllPrefix(base, kwargs);
    assert KeysOf(base) == ["status", "data", "message", "timestamp"];
    forall k ensures k in KeysOf(UpdateAll(base, kwargs)) <==> k in KeysOf(base) || k in KeysOf(kwargs) {
      UpdateAllHasKey(base, kwargs, k);
    }
  }

  /** A field of the response reads as the keyword field of that name when
      there is one, and otherwise as the argument of the envelope field of
      that name; no other field exists. */
  lemma EnvelopeField(data: Json, message: Json, status: int, kwargs: seq<(string, Json)>, timestamp: string, k: string)
    requires DistinctKeys(kwargs)
    ensures Lookup(UpdateAll(EnvelopeBase(data, message, status, timestamp), kwargs), k) ==
      if k in KeysOf(kwargs) then Lookup(kwargs, k)
      else if k == "status" then Some(JInt(status))
      else if k == "data" then Some(data)
      else if k == "message" then Some(message)
      else if k == "timestamp" then Some(JStr(timestamp))
      else None
  {
    UpdateAllLookup(EnvelopeBase(data, message, status, timestamp), kwargs, k);
    EnvelopeBaseLookup(data, message, status, timestamp, k);
  }

  /** The defaults of `StandardResponse`: called without `data`, `message`
      or `status`, the body says status 200, data null and "操作成功".
      Keyword fields cannot name those three (they bind to the parameters),
      so only the timestamp can be replaced. */
  lemma StandardResponseDefaults(kwargs: seq<(string, Json)>, timestamp: string)
    requires DistinctKeys(kwargs)
    requires "status" !in KeysOf(kwargs) && "data" !in KeysOf(kwargs) && "message" !in KeysOf(kwargs)
    ensures var body := UpdateAll(EnvelopeBase(JNull, JStr(DefaultMessage), 200, timestamp), kwargs);
      && Lookup(body, "status") == Some(JInt(200))
      && Lookup(body, "data") == Some(JNull)
      && Lookup(body, "message") == Some(JStr(DefaultMessage))
      && Lookup(body, "timestamp") ==
           (if "timestamp" in KeysOf(kwargs) then Lookup(kwargs, "timestamp") else Some(JStr(timestamp)))
  {
    EnvelopeField(JNull, JStr(DefaultMessage), 200, kwargs, timestamp, "status");
    EnvelopeField(JNull, JStr(DefaultMessage), 200, kwargs, timestamp, "data");
    EnvelopeField(JNull, JStr(DefaultMessage), 200, kwargs, timestamp, "message");
    EnvelopeField(JNull, JStr(DefaultMessage), 200, kwargs, timestamp, "timestamp");
  }

  lemma EnvelopeBaseLookup(data: Json, message: Json, status: int, timestamp: string, k: string)
    ensures Lookup(EnvelopeBase(data, message, status, timestamp), k) ==
      if k == "status" then Some(JInt(status))
      else if k == "data" then Some(data)
      else if k == "message" then Some(message)
      else if k == "timestamp" then Some(JStr(timestamp))
      else None
  {
    var base := EnvelopeBase(data, message, status, timestamp);
    if k == "status" { LookupFirst(base, 0, k); }
    else if k == "data" { LookupFirst(base, 1, k); }
    else if k == "message" { LookupFirst(base, 2, k); }
    else if k == "timestamp" { LookupFirst(base, 3, k); }
    else {
      LookupNone(base, k);
      assert KeysOf(base) == ["status", "data", "message", "timestamp"];
    }
  }

  // ---------------------------------------------------------------------
  // The exception handler.

  /** What a `ValidationError` holds: a dict of fields and their messages
      (what a serializer raises), or a bare list of messages. */
  datatype ValidationDetail = DetailDict(fields: seq<(string, seq<string>)>) | DetailList(items: seq<string>)

  /** The exceptions the handler tells apart, with the response DRF's
      default handler would give them. */
  datatype ApiError =
    | Throttled(data: seq<(string, Json)>)
    | ValidationFailed(detail: ValidationDetail)
    | OtherApiError(status: int, body: Json)
    | NotApiError

  /** What the handler returns: a response, nothing (the exception goes on
      to the server's 500 page), or an exception of its own. */
  datatype Handled = Reply(status: int, body: Json) | NoReply | HandlerFailed

  /** The messages of a serializer's errors, as `str(ErrorDetail)` gives
      them. */
  function DetailMessages(errors: seq<FieldErrors>): (r: seq<(string, seq<string>)>)
    ensures |r| == |errors|
    ensures forall i :: 0 <= i < |errors| ==> r[i].0 == errors[i].field && |r[i].1| == |errors[i].details|
  {
    seq(|errors|, i requires 0 <= i < |errors| =>
      (errors[i].field, seq(|errors[i].details|, j requires 0 <= j < |errors[i].details| => errors[i].details[j].message)))
  }

  /** The message of a validation error: the first field and its first
      message joined by ':', or "未知错误" for an empty dict. None when the
      first field's list is empty: `errs[0]` raises. */
  function ValidationMessage(fields: seq<(string, seq<string>)>): Option<string> {
    if fields == [] then Some(UnknownError)
    else if fields[0].1 == [] then None
    else Some(fields[0].0 + ":" + fields[0].1[0])
  }

  /** The text before the first ':' (all of it when there is none). */
  function BeforeColon(s: string): (r: string)
    ensures |r| <= |s| && r == s[..|r|] && ':' !in r
    ensures |r| < |s| ==> s[|r|] == ':'
  {
    if s == [] || s[0] == ':' then [] else [s[0]] + BeforeColon(s[1..])
  }

  /** The text after the first ':'. */
  function AfterColon(s: string): string {
    var n := |BeforeColon(s)|;
    if n < |s| then s[n + 1..] else ""
  }

  lemma {:induction false} BeforeColonOf(field: string, rest: string)
    requires ':' !in field
    ensures BeforeColon(field + ":" + rest) == field
  {
    if field != [] {
      assert (field + ":" + rest)[1..] == field[1..] + ":" + rest;
      BeforeColonOf(field[1..], rest);
    }
  }

  /** The message names the failing field: it splits at its first ':' into
      the first field's name and that field's first message, whatever the
      later fields hold. */
  lemma ValidationMessageSplits(fields: seq<(string, seq<string>)>, more: seq<(string, seq<string>)>)
    requires fields != [] && fields[0].1 != [] && ':' !in fields[0].0
    ensures ValidationMessage(fields).Some?
    ensures BeforeColon(ValidationMessage(fields).value) == fields[0].0
    ensures AfterColon(ValidationMessage(fields).value) == fields[0].1[0]
    ensures ValidationMessage(fields + more) == ValidationMessage(fields)
  {
    var m := ValidationMessage(fields).value;
    BeforeColonOf(fields[0].0, fields[0].1[0]);
    assert m[|fields[0].0| + 1..] == fields[0].1[0];
    assert (fields + more)[0] == fields[0];
  }

  /** `custom_exception_handler`. DRF answers a throttled request with 429
      and a validation error with 400; the handler replaces the body by
      status, message and timestamp. The message of a throttled request is
      its `detail`, or "请求过于频繁" when there is none; that of a
      validation error is `ValidationMessage`. A bare list has no `items`,
      so the handler itself raises; other API errors keep DRF's body, and
      other exceptions get no response. */
  function ExceptionHandler(exc: ApiError, timestamp: string): Handled {
    match exc
    case Throttled(data) =>
      Reply(429, JObj([("status", JInt(429)), ("message", Lookup(data, "detail").GetOr(JStr(ThrottledMessage))),
                       ("timestamp", JStr(timestamp))]))
    case ValidationFailed(DetailDict(fields)) =>
      if ValidationMessage(fields).None? then HandlerFailed
      else Reply(400, JObj([("status", JInt(400)), ("message", JStr(ValidationMessage(fields).value)),
                            ("timestamp", JStr(timestamp))]))
    case ValidationFailed(DetailList(_)) => HandlerFailed
    case OtherApiError(status, body) => Reply(status, body)
    case NotApiError => NoReply
  }

  /** Throttled and validation responses carry exactly status, message and
      timestamp, with the status of the response; a throttled request with
      no detail says "请求过于频繁", one with a detail passes it on, and an
      empty error dict says "未知错误". */
  lemma HandlerShapes(exc: ApiError, timestamp: string)
    ensures (exc.Throttled? || (exc.ValidationFailed? && exc.detail.DetailDict? && ValidationMessage(exc.detail.fields).Some?)) ==>
      var h := ExceptionHandler(exc, timestamp);
      && h.Reply? && h.status == (if exc.Throttled? then 429 else 400)
      && KeysOf(h.body.fields) == ["status", "message", "timestamp"]
      && Get(h.body, "status") == Some(JInt(h.status))
    ensures exc.Throttled? ==>
      Get(ExceptionHandler(exc, timestamp).body, "message") ==
        (if "detail" in KeysOf(exc.data) then Lookup(exc.data, "detail") else Some(JStr(ThrottledMessage)))
    ensures exc == ValidationFailed(DetailDict([])) ==>
      Get(ExceptionHandler(exc, timestamp).body, "message") == Some(JStr(UnknownError))
    ensures ExceptionHandler(exc, timestamp).HandlerFailed? <==>
      exc.ValidationFailed? && (exc.detail.DetailList? || ValidationMessage(exc.detail.fields).None?)
  {
    var h := ExceptionHandler(exc, timestamp);
    if h.Reply? && (exc.Throttled? || exc.ValidationFailed?) {
      LookupFirst(h.body.fields, 0, "status");
      LookupFirst(h.body.fields, 1, "message");
    }
    if exc.Throttled? {
      LookupNone(exc.data, "detail");
    }
  }
}
