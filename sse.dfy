/** `SSEGenerator.__iter__` (chat/views.py): each payload of the wrapped
    generator becomes one event of the text/event-stream format of the
    WHATWG HTML Living Standard, section 9.2 (server-sent events), a single
    `data:` line followed by a blank line. */
module Sse {
  import opened Base
  import opened JsonValues

  /** What the wrapped generator yields: a dict, or any other object
      together with its `str()`. */
  datatype Payload = DictPayload(fields: seq<(string, Json)>) | OtherPayload(text: string)

  /** `f"data: {body}\n\n"`. */
  function DataFrame(body: string): string {
    "data: " + body + "\n\n"
  }

  /** The body of a payload's frame: compact JSON for a dict, `str()` otherwise. */
  function Body(p: Payload): string {
    match p
    case DictPayload(fs) => Dumps(JObj(fs), Compact)
    case OtherPayload(t) => t
  }

  /** The body of the error frame: `json.dumps({"error": message})`, with
      Python's default separators. */
  function ErrorBody(message: string): string {
    Dumps(JObj([("error", JStr(message))]), PyDefault)
  }

  /** The bodies of the frames: one per payload, then one error body when
      the wrapped generator raised. */
  function Bodies(payloads: seq<Payload>, failure: Option<string>): (r: seq<string>)
    ensures |r| == |payloads| + (if failure.Some? then 1 else 0)
  {
    seq(|payloads|, i requires 0 <= i < |payloads| => Body(payloads[i]))
      + (if failure.Some? then [ErrorBody(failure.value)] else [])
  }

  /** The frames `__iter__` yields for the payloads and the failure that
      ended them, if any. */
  function Frames(payloads: seq<Payload>, failure: Option<string>): seq<string> {
    var bodies := Bodies(payloads, failure);
    seq(|bodies|, i requires 0 <= i < |bodies| => DataFrame(bodies[i]))
  }

  /** The framing loop: one frame per payload, in order; an exception
      raised by the wrapped generator ends the stream with one error frame. */
  method FrameStream(payloads: seq<Payload>, failure: Option<string>) returns (frames: seq<string>)
    ensures frames == Frames(payloads, failure)
    ensures |frames| == |payloads| + (if failure.Some? then 1 else 0)
    ensures forall i :: 0 <= i < |payloads| ==> frames[i] == DataFrame(Body(payloads[i]))
    ensures failure.Some? ==> frames[|payloads|] == DataFrame(ErrorBody(failure.value))
  {
    frames := [];
    for i := 0 to |payloads|
      invariant |frames| == i
      invariant forall k :: 0 <= k < i ==> frames[k] == DataFrame(Body(payloads[k]))
    {
      match payloads[i]
      case DictPayload(fs) =>
        frames := frames + [DataFrame(Dumps(JObj(fs), Compact))];
      case OtherPayload(t) =>
        frames := frames + [DataFrame(t)];
    }
    if failure.Some? {
      frames := frames + [DataFrame(ErrorBody(failure.value))];
    }
  }

  /** The frame at a payload's position is that payload's frame. */
  lemma FrameAt(payloads: seq<Payload>, failure: Option<string>, i: nat)
    requires i < |payloads|
    ensures |Frames(payloads, failure)| > i && Frames(payloads, failure)[i] == DataFrame(Body(payloads[i]))
  {
  }

  /** The error frame reads `data: {"error": "<message>"}` followed by a
      blank line: the default separators put a space after the colon. */
  lemma ErrorFrameText(message: string)
    ensures DataFrame(ErrorBody(message)) == "data: {" + Quote("error") + ": " + Quote(message) + "}\n\n"
  {
    DumpsSingleField("error", JStr(message), PyDefault);
  }

  // ---------------------------------------------------------------------
  // Reading the stream back.

  /** All frames, as the bytes on the wire. */
  function Concat(ss: seq<string>): string {
    if ss == [] then "" else ss[0] + Concat(ss[1..])
  }

  /** The index of the first line feed of `s`, or `|s|` when there is none. */
  function LineEnd(s: string): (n: nat)
    ensures n <= |s|
    ensures forall i :: 0 <= i < n ==> s[i] != '\n'
    ensures n < |s| ==> s[n] == '\n'
  {
    if s == [] || s[0] == '\n' then 0 else 1 + LineEnd(s[1..])
  }

  /** Reads a stream of events each made of one `data: ` line and a blank
      line, as an event-stream parser dispatches them; None for any other
      text. */
  function ParseEvents(text: string): Option<seq<string>>
    decreases |text|
  {
    if text == [] then Some([])
    else if |text| < 6 || text[..6] != "data: " then None
    else
      var rest := text[6..];
      var n := LineEnd(rest);
      if n + 2 <= |rest| && rest[n..n + 2] == "\n\n" then
        match ParseEvents(rest[n + 2..])
        case Some(tail) => Some([rest[..n]] + tail)
        case None => None
      else None
  }

  /** The wire text of frames with the given bodies. */
  function Wire(bodies: seq<string>): string {
    if bodies == [] then "" else DataFrame(bodies[0]) + Wire(bodies[1..])
  }

  lemma {:induction false} ConcatFrames(bodies: seq<string>)
    ensures Concat(seq(|bodies|, i requires 0 <= i < |bodies| => DataFrame(bodies[i]))) == Wire(bodies)
  {
    var frames := seq(|bodies|, i requires 0 <= i < |bodies| => DataFrame(bodies[i]));
    if bodies != [] {
      ConcatFrames(bodies[1..]);
      assert frames[1..] == seq(|bodies| - 1, i requires 0 <= i < |bodies| - 1 => DataFrame(bodies[1..][i]));
    }
  }

  lemma LineEndOf(body: string, tail: string)
    requires '\n' !in body
    ensures LineEnd(body + "\n\n" + tail) == |body|
  {
    var s := body + "\n\n" + tail;
    assert s[|body|] == '\n';
  }

  /** One frame whose body has no line feed reads back as that body. */
  lemma ParseOne(body: string, tail: string)
    requires '\n' !in body
    ensures ParseEvents(DataFrame(body) + tail) ==
      match ParseEvents(tail)
      case Some(rest) => Some([body] + rest)
      case None => None
  {
    var text := DataFrame(body) + tail;
    assert text == "data: " + (body + "\n\n" + tail);
    assert text[..6] == "data: ";
    var rest := text[6..];
    assert rest == body + "\n\n" + tail;
    LineEndOf(body, tail);
    assert rest[|body|..|body| + 2] == "\n\n";
    assert rest[|body| + 2..] == tail;
    assert rest[..|body|] == body;
  }

  /** Reading back frames whose bodies hold no line feed gives the bodies. */
  lemma {:induction false} ParseWire(bodies: seq<string>)
    requires forall i :: 0 <= i < |bodies| ==> '\n' !in bodies[i]
    ensures ParseEvents(Wire(bodies)) == Some(bodies)
  {
    if bodies != [] {
      ParseWire(bodies[1..]);
      ParseOne(bodies[0], Wire(bodies[1..]));
      assert [bodies[0]] + bodies[1..] == bodies;
    }
  }

  /** The framing round-trips: when every payload is a dict, reading the
      stream back yields each payload's compact JSON and then the error
      body, if any, in order. JSON text never holds a line feed, so no
      frame ends early. */
  lemma StreamRoundTrip(payloads: seq<Payload>, failure: Option<string>)
    requires forall i :: 0 <= i < |payloads| ==> payloads[i].DictPayload?
    ensures ParseEvents(Concat(Frames(payloads, failure))) == Some(Bodies(payloads, failure))
  {
    var bodies := Bodies(payloads, failure);
    forall i | 0 <= i < |bodies| ensures '\n' !in bodies[i] {
      if i < |payloads| {
        DumpsPrintable(JObj(payloads[i].fields), Compact);
      } else {
        DumpsPrintable(JObj([("error", JStr(failure.value))]), PyDefault);
      }
    }
    ConcatFrames(bodies);
    ParseWire(bodies);
  }
}
