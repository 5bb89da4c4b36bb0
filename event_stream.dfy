/** The response decoder every client copies: a body whose `content-type`
    starts with `text/event-stream` is read as an event stream, keeping only
    the first line that starts with `data: ` (a small subset of section 9.2
    of the WHATWG HTML Living Standard: only the first data line counts and
    the space after the colon is required); any other body is parsed whole. */
module EventStream {
  import opened Optional
  import opened Text
  import opened JsonValue
  import opened Rpc

  const EventStreamType: string := "text/event-stream"
  const DataPrefix: string := "data: "

  /** `response.headers.get('content-type', '')`. */
  function ContentType(h: Headers): (t: string)
    ensures "content-type" in h ==> t == h["content-type"]
    ensures "content-type" !in h ==> t == ""
  {
    if "content-type" in h then h["content-type"] else ""
  }

  predicate IsEventStream(h: Headers) {
    StartsWith(ContentType(h), EventStreamType)
  }

  predicate IsDataLine(line: string) {
    StartsWith(line, DataPrefix)
  }

  /** `response.text.strip().split('\n')`. */
  function Lines(body: string): (lines: seq<string>)
    ensures |lines| >= 1
    ensures forall i :: 0 <= i < |lines| ==> '\n' !in lines[i]
  {
    var lines := Split(Strip(body), "\n");
    assert forall i :: 0 <= i < |lines| ==> '\n' !in lines[i] by {
      SplitPieces(Strip(body), "\n");
      forall i | 0 <= i < |lines| ensures '\n' !in lines[i] {
        ContainsChar(lines[i], '\n');
      }
    }
    lines
  }

  /** Index of the first data line. */
  function FirstDataLine(lines: seq<string>): (r: Option<nat>)
    ensures r.Some? ==> r.value < |lines| && IsDataLine(lines[r.value])
    ensures r.Some? ==> forall j :: 0 <= j < r.value ==> !IsDataLine(lines[j])
    ensures r.None? ==> forall j :: 0 <= j < |lines| ==> !IsDataLine(lines[j])
  {
    if lines == [] then None
    else if IsDataLine(lines[0]) then Some(0)
    else
      match FirstDataLine(lines[1..])
      case None => None
      case Some(i) => Some(i + 1)
  }

  /** The text after `data: ` on the first data line, if there is one. */
  function PayloadOf(lines: seq<string>): (r: Option<string>)
    ensures r.None? <==> forall j :: 0 <= j < |lines| ==> !IsDataLine(lines[j])
    ensures r.Some? ==> exists i :: (0 <= i < |lines| && lines[i] == DataPrefix + r.value
      && forall j :: 0 <= j < i ==> !IsDataLine(lines[j]))
  {
    match FirstDataLine(lines)
    case None => None
    case Some(i) =>
      assert lines[i] == DataPrefix + lines[i][|DataPrefix|..];
      Some(lines[i][|DataPrefix|..])
  }

  /** The scan loop the clients run over the stream's lines: remember the
      rest of the first data line and stop. */
  method ScanDataLine(lines: seq<string>) returns (jsonStr: Option<string>)
    ensures jsonStr == PayloadOf(lines)
  {
    jsonStr := None;
    var i := 0;
    while i < |lines|
      invariant 0 <= i <= |lines|
      invariant forall j :: 0 <= j < i ==> !IsDataLine(lines[j])
      invariant jsonStr == None
    {
      if StartsWith(lines[i], DataPrefix) {
        jsonStr := Some(lines[i][|DataPrefix|..]);
        break;
      }
      i := i + 1;
    }
    if jsonStr.Some? {
      assert FirstDataLine(lines) == Some(i);
    }
  }

  /** The payload of the first data line of an event-stream body. */
  function DataPayload(body: string): Option<string> {
    PayloadOf(Lines(body))
  }

  /** The outcome of decoding a body. */
  datatype Decoded =
    | Parsed(value: Json)
    | NoDataLine  // event stream without a non-empty data payload
    | Malformed   // the parser raised

  function FromParse(r: Option<Json>): (d: Decoded)
    ensures d.Parsed? <==> r.Some?
    ensures d.Parsed? ==> d.value == r.value
    ensures !d.NoDataLine?
  {
    match r
    case None => Malformed
    case Some(v) => Parsed(v)
  }

  /** The decoder of the tool calls: an event stream needs a data line with a
      non-empty payload (`if json_str:`) before anything is parsed. */
  function Decode(parse: Parser, h: Headers, body: string): (d: Decoded)
    ensures !IsEventStream(h) ==> d == FromParse(parse(body))
    ensures d.NoDataLine? <==> IsEventStream(h) && (DataPayload(body).None? || DataPayload(body) == Some(""))
    ensures IsEventStream(h) && d.Parsed? ==>
      exists p :: p != "" && DataPayload(body) == Some(p) && parse(p) == Some(d.value)
    ensures IsEventStream(h) && DataPayload(body).Some? && DataPayload(body).value != "" ==>
      d == FromParse(parse(DataPayload(body).value))
  {
    if IsEventStream(h) then
      match DataPayload(body)
      case None => NoDataLine
      case Some(p) => if p == "" then NoDataLine else FromParse(parse(p))
    else FromParse(parse(body))
  }

  /** The decoding block the tool calls share: the scan of the stream's
      lines and the `if json_str:` guard, or the whole-body parse. */
  method ReadBody(parse: Parser, h: Headers, body: string) returns (d: Decoded)
    ensures d == Decode(parse, h, body)
  {
    if IsEventStream(h) {
      var jsonStr := ScanDataLine(Lines(body));
      if jsonStr.None? || jsonStr.value == "" {
        return NoDataLine;
      }
      d := FromParse(parse(jsonStr.value));
    } else {
      d := FromParse(parse(body));
    }
  }

  /** The decoder without the emptiness guard: the loop parses the first data
      payload as soon as it sees it, even an empty one. */
  function DecodeFirst(parse: Parser, h: Headers, body: string): (d: Decoded)
    ensures !IsEventStream(h) ==> d == FromParse(parse(body))
    ensures d.NoDataLine? <==> IsEventStream(h) && DataPayload(body).None?
    ensures IsEventStream(h) && DataPayload(body).Some? ==> d == FromParse(parse(DataPayload(body).value))
  {
    if IsEventStream(h) then
      match DataPayload(body)
      case None => NoDataLine
      case Some(p) => FromParse(parse(p))
    else FromParse(parse(body))
  }

  /** With a parser that rejects the empty text, as `json.loads` does, the two
      decoders parse the same bodies to the same values; they differ only in
      calling an empty payload a missing data line or a parse error. */
  lemma DecodersAgree(parse: Parser, h: Headers, body: string)
    requires parse("") == None
    ensures Decode(parse, h, body).Parsed? <==> DecodeFirst(parse, h, body).Parsed?
    ensures Decode(parse, h, body).Parsed? ==> Decode(parse, h, body) == DecodeFirst(parse, h, body)
    ensures !Decode(parse, h, body).Parsed? ==>
      Decode(parse, h, body) == DecodeFirst(parse, h, body)
      || (Decode(parse, h, body).NoDataLine? && DecodeFirst(parse, h, body).Malformed?)
  {
  }

  /** The single event a streamable-HTTP server writes for one JSON-RPC
      message: an `event:` line, a `data:` line, and a blank line. */
  function EventFrame(payload: string): string {
    "event: message\n" + DataPrefix + payload + "\n\n"
  }

  /** The two lines of a framed event once it is stripped and split. */
  lemma FrameLines(payload: string)
    requires payload != [] && '\n' !in payload
    requires !IsSpace(payload[0]) && !IsSpace(payload[|payload| - 1])
    ensures Lines(EventFrame(payload)) == ["event: message", DataPrefix + payload]
  {
    var first := "event: message";
    var second := DataPrefix + payload;
    var core := first + "\n" + second;
    assert EventFrame(payload) == [] + core + "\n\n";
    assert core[|core| - 1] == payload[|payload| - 1];
    StripUnique([], core, "\n\n");
    assert Join([first, second], "\n") == core;
    JoinSplit([first, second], '\n');
  }

  /** The decoder reads back the payload of a framed event: a one-line JSON
      text with non-space ends survives framing and decoding. */
  lemma FramePayload(payload: string)
    requires payload != [] && '\n' !in payload
    requires !IsSpace(payload[0]) && !IsSpace(payload[|payload| - 1])
    ensures DataPayload(EventFrame(payload)) == Some(payload)
  {
    var first := "event: message";
    var second := DataPrefix + payload;
    FrameLines(payload);
    assert !IsDataLine(first) by {
      assert first[..|DataPrefix|][0] != DataPrefix[0];
    }
    assert IsDataLine(second);
    assert FirstDataLine([first, second]) == Some(1);
    assert second[|DataPrefix|..] == payload;
  }

  /** Framing a one-line JSON text as an event stream and decoding it gives
      what decoding the plain text as `application/json` gives. */
  lemma SseFramingEquivalence(parse: Parser, sse: Headers, plain: Headers, payload: string)
    requires IsEventStream(sse) && !IsEventStream(plain)
    requires payload != [] && '\n' !in payload
    requires !IsSpace(payload[0]) && !IsSpace(payload[|payload| - 1])
    ensures Decode(parse, sse, EventFrame(payload)) == Decode(parse, plain, payload)
    ensures DecodeFirst(parse, sse, EventFrame(payload)) == Decode(parse, plain, payload)
  {
    FramePayload(payload);
  }
}
