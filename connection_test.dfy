/** The connection check script (`test_mcp_connection.py`): a `tools/list`
    probe whose verdict gates a `create_presentation` probe.  The probe's
    outer handlers name an exception class the HTTP library does not have,
    so every exception that reaches them escapes instead of giving `False`;
    `ConnectionVerdict` models that, `CorrectedConnectionVerdict` the
    evident intent, which the script model uses. */
module ConnectionTest {
  import opened Optional
  import opened JsonValue
  import opened Rpc
  import opened EventStream

  /** What the probe does: return True, return False, or raise out of the
      function. */
  datatype Verdict = Passed | Failed | Raised

  /** The `tools/list` request: id 1, no params, 10 seconds. */
  function ListRequest(): (req: Request)
    ensures req.envelope.id == Some(1) && req.envelope.name == "tools/list" && req.envelope.params.None?
    ensures req.timeout == 10 && SessionHeader !in req.headers
  {
    Request(Envelope(Some(1), "tools/list", None), PlainHeaders(), 10)
  }

  /** The `create_presentation` request: id 2, a fixed title, 30 seconds. */
  function PresentationRequest(): (req: Request)
    ensures req.envelope == ToolCallEnvelope(2, "create_presentation",
                                             Obj(map["title" := Str("MCP Test Presentation")]))
    ensures req.timeout == 30 && SessionHeader !in req.headers
  {
    Request(ToolCallEnvelope(2, "create_presentation", Obj(map["title" := Str("MCP Test Presentation")])),
            PlainHeaders(), 30)
  }

  /** Iterating over the `tools` value and calling `.get` on each element
      raises unless every element is an object: a list of objects passes, a
      string or object passes only when empty (its elements are strings), and
      a number, boolean or null cannot be iterated. */
  predicate ToolsRaise(tools: Json): (r: bool)
    ensures tools.Null? || tools.Bool? || tools.Num? ==> r
    ensures tools.Arr? ==> (!r <==> forall i :: 0 <= i < |tools.items| ==> tools.items[i].Obj?)
    ensures tools.Str? ==> (r <==> tools.s != "")
    ensures tools.Obj? ==> (r <==> |tools.fields| > 0)
  {
    match tools
    case Arr(items) => exists i :: 0 <= i < |items| && !items[i].Obj?
    case Str(s) => s != ""
    case Obj(fields) => fields != map[]
    case _ => true
  }

  /** The tool listing raises: `"result" in data` on a value that has no
      `in`, `data["result"]` on a list or string, the same one level down
      for `"tools"`, or the iteration itself. */
  predicate ListingRaises(data: Json): (r: bool)
    ensures data.Null? || data.Bool? || data.Num? ==> r
    ensures data.Obj? && "result" !in data.fields ==> !r
    ensures data.Arr? ==> (r <==> Str("result") in data.items)
    ensures data.Obj? && "result" in data.fields && data.fields["result"].Obj? ==>
      var result := data.fields["result"];
      r <==> "tools" in result.fields && ToolsRaise(result.fields["tools"])
  {
    match In("result", data)
    case None => true
    case Some(hasResult) =>
      hasResult &&
      (!data.Obj? ||
        var result := data.fields["result"];
        match In("tools", result)
        case None => true
        case Some(hasTools) => hasTools && (!result.Obj? || ToolsRaise(result.fields["tools"])))
  }

  /** The listing loop: walks the tools and stops at the first element that
      has no `.get`. */
  method PrintToolListing(data: Json) returns (raises: bool)
    ensures raises == ListingRaises(data)
  {
    var hasResult := In("result", data);
    if hasResult.None? {
      return true;
    }
    if !hasResult.value {
      return false;
    }
    if !data.Obj? {
      return true;
    }
    var result := data.fields["result"];
    var hasTools := In("tools", result);
    if hasTools.None? {
      return true;
    }
    if !hasTools.value {
      return false;
    }
    if !result.Obj? {
      return true;
    }
    var tools := result.fields["tools"];
    match tools {
      case Arr(items) =>
        raises := false;
        var i := 0;
        while i < |items|
          invariant 0 <= i <= |items|
          invariant forall j :: 0 <= j < i ==> items[j].Obj?
        {
          if !items[i].Obj? {
            return true;
          }
          i := i + 1;
        }
      case Str(s) => raises := s != "";
      case Obj(fields) => raises := fields != map[];
      case _ => raises := true;
    }
  }

  /** `test_mcp_connection` as written.  An exception that reaches the outer
      handlers (a transport failure, or a listing that raises) escapes,
      because looking up the first handler's class raises. */
  function ConnectionVerdict(parse: Parser, reply: Reply): (v: Verdict)
    ensures v == Passed <==> (reply.Response? && reply.status == 200
      && Decode(parse, reply.headers, reply.body).Parsed?
      && !ListingRaises(Decode(parse, reply.headers, reply.body).value))
    ensures v == Raised <==> (reply.Failure?
      || (reply.status == 200 && Decode(parse, reply.headers, reply.body).Parsed?
          && ListingRaises(Decode(parse, reply.headers, reply.body).value)))
  {
    match reply
    case Failure => Raised
    case Response(status, headers, body) =>
      if status != 200 then Failed
      else
        match Decode(parse, headers, body)
        case Parsed(data) => if ListingRaises(data) then Raised else Passed
        case _ => Failed
  }

  /** `test_mcp_connection` as evidently intended: every exception gives
      `False`. */
  function CorrectedConnectionVerdict(parse: Parser, reply: Reply): (v: Verdict)
    ensures v != Raised
    ensures v == Passed <==> (reply.Response? && reply.status == 200
      && Decode(parse, reply.headers, reply.body).Parsed?
      && !ListingRaises(Decode(parse, reply.headers, reply.body).value))
  {
    match reply
    case Failure => Failed
    case Response(status, headers, body) =>
      if status != 200 then Failed
      else
        match Decode(parse, headers, body)
        case Parsed(data) => if ListingRaises(data) then Failed else Passed
        case _ => Failed
  }

  /** A refused connection escapes the probe as written. */
  lemma TransportFailureEscapes(parse: Parser)
    ensures ConnectionVerdict(parse, Failure) == Raised
    ensures CorrectedConnectionVerdict(parse, Failure) == Failed
  {
  }

  /** A listing whose tools are plain names escapes the probe as written. */
  lemma NamedToolsEscape(parse: Parser, headers: Headers, body: string)
    requires !IsEventStream(headers)
    requires parse(body) == Some(Obj(map["result" := Obj(map["tools" := Arr([Str("create_presentation")])])]))
    ensures ConnectionVerdict(parse, Response(200, headers, body)) == Raised
    ensures CorrectedConnectionVerdict(parse, Response(200, headers, body)) == Failed
  {
    var tools := Arr([Str("create_presentation")]);
    assert !tools.items[0].Obj?;
  }

  /** The correction changes only the escapes: wherever the probe as written
      returns, the corrected one returns the same, and both pass on exactly
      the same replies. */
  lemma CorrectionOnlyCatches(parse: Parser, reply: Reply)
    ensures ConnectionVerdict(parse, reply) != Raised ==>
      CorrectedConnectionVerdict(parse, reply) == ConnectionVerdict(parse, reply)
    ensures ConnectionVerdict(parse, reply) == Raised ==> CorrectedConnectionVerdict(parse, reply) == Failed
    ensures (ConnectionVerdict(parse, reply) == Passed) <==> (CorrectedConnectionVerdict(parse, reply) == Passed)
  {
  }

  /** `test_mcp_connection` with the handlers fixed: one `tools/list` POST,
      then the status check, the decoding and the listing. */
  method TestMcpConnection(transport: Transport, parse: Parser) returns (ok: bool)
    modifies transport
    ensures transport.sent == old(transport.sent) + [ListRequest()]
    ensures transport.pending == Rest(old(transport.pending))
    ensures ok <==> CorrectedConnectionVerdict(parse, NextReply(old(transport.pending))) == Passed
  {
    var reply := transport.Post(ListRequest());
    if reply.Failure? || reply.status != 200 {
      return false;
    }
    var decoded := ReadBody(parse, reply.headers, reply.body);
    if !decoded.Parsed? {
      return false;
    }
    var data := decoded.value;
    var raises := PrintToolListing(data);
    ok := !raises;
  }

  /** `test_create_presentation`: passes iff the status is 200 and the whole
      body parses (an event-stream body is not unwrapped). */
  predicate PresentationVerdict(parse: Parser, reply: Reply): (ok: bool)
    ensures ok ==> reply.Response? && reply.status == 200
    ensures reply.Response? && reply.status == 200 ==> (ok <==> parse(reply.body).Some?)
  {
    reply.Response? && reply.status == 200 && parse(reply.body).Some?
  }

  method TestCreatePresentation(transport: Transport, parse: Parser) returns (ok: bool)
    modifies transport
    ensures transport.sent == old(transport.sent) + [PresentationRequest()]
    ensures transport.pending == Rest(old(transport.pending))
    ensures ok == PresentationVerdict(parse, NextReply(old(transport.pending)))
  {
    var reply := transport.Post(PresentationRequest());
    ok := reply.Response? && reply.status == 200 && parse(reply.body).Some?;
  }

  /** The script's main block: the presentation probe runs iff the
      connection probe passed. */
  method RunChecks(transport: Transport, parse: Parser) returns (connected: bool, presentation: Option<bool>)
    modifies transport
    ensures connected <==> CorrectedConnectionVerdict(parse, NextReply(old(transport.pending))) == Passed
    ensures presentation.Some? <==> connected
    ensures connected ==>
      && transport.sent == old(transport.sent) + [ListRequest(), PresentationRequest()]
      && presentation.value == PresentationVerdict(parse, NextReply(Rest(old(transport.pending))))
    ensures !connected ==> transport.sent == old(transport.sent) + [ListRequest()]
  {
    connected := TestMcpConnection(transport, parse);
    presentation := None;
    if connected {
      var ok := TestCreatePresentation(transport, parse);
      presentation := Some(ok);
    }
  }
}
