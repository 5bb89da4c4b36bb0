/** The tool client of the voice page (`call_mcp_tool` and its
    `initialize_mcp_session` handshake) talking to the Google Slides tool
    server.  Unlike the engagement client, the handshake accepts a blank
    reply, rejects an event stream without a data payload, and follows a
    successful `initialize` with the `notifications/initialized`
    Notification; a tool call returns the `content` member of the result. */
module VoiceClient {
  import opened Optional
  import opened Text
  import opened JsonValue
  import opened Rpc
  import opened EventStream
  import EngagementClient

  const ClientName: string := "voice-llama-client"

  /** The handshake request: no session header, 30 seconds. */
  function InitializeRequest(): (req: Request)
    ensures req.envelope == InitializeEnvelope(ClientName) && SessionHeader !in req.headers
    ensures req.timeout == 30
  {
    Request(InitializeEnvelope(ClientName), PlainHeaders(), 30)
  }

  /** The Notification that completes the handshake, carrying the session
      header iff a non-empty session id is stored. */
  function NotificationRequest(sessionId: Option<string>): (req: Request)
    ensures IsNotification(req.envelope) && req.envelope.name == "notifications/initialized"
    ensures req.envelope.params.None?
    ensures req.headers == SessionHeaders(sessionId)
    ensures (SessionHeader in req.headers) <==> sessionId.Some? && sessionId.value != ""
    ensures SessionHeader in req.headers ==> req.headers[SessionHeader] == sessionId.value
    ensures req.timeout == 30
  {
    Request(InitializedNotification, SessionHeaders(sessionId), 30)
  }

  /** A tool request: id 1, the session header iff a non-empty id is stored,
      60 seconds for every tool. */
  function ToolRequest(name: string, args: Json, sessionId: Option<string>): (req: Request)
    ensures req.envelope == ToolCallEnvelope(1, name, args)
    ensures req.headers == SessionHeaders(sessionId) && req.timeout == 60
  {
    Request(ToolCallEnvelope(1, name, args), SessionHeaders(sessionId), 60)
  }

  /** The `initialize` reply lets the handshake go on: status 200 and either
      a body that is blank once stripped or one that decodes. */
  predicate HandshakeReplyAccepted(parse: Parser, reply: Reply): (ok: bool)
    ensures ok ==> reply.Response? && reply.status == 200
    ensures reply.Response? && reply.status == 200 && Strip(reply.body) == "" ==> ok
    ensures reply.Response? && reply.status == 200 && Strip(reply.body) != "" && !IsEventStream(reply.headers) ==>
      (ok <==> parse(reply.body).Some?)
    ensures reply.Response? && reply.status == 200 && Strip(reply.body) != "" && IsEventStream(reply.headers) ==>
      (ok <==> DataPayload(reply.body).Some? && DataPayload(reply.body).value != ""
               && parse(DataPayload(reply.body).value).Some?)
  {
    reply.Response? && reply.status == 200
    && (Strip(reply.body) == "" || Decode(parse, reply.headers, reply.body).Parsed?)
  }

  /** A blank reply is accepted, even when it claims to be an event stream. */
  lemma AcceptsBlankReply(parse: Parser, headers: Headers, body: string)
    requires Strip(body) == ""
    ensures HandshakeReplyAccepted(parse, Response(200, headers, body))
  {
  }

  /** A non-blank event stream without a data line is rejected here, although
      the engagement client's handshake accepts it. */
  lemma RejectsStreamWithoutData(parse: Parser, headers: Headers, body: string)
    requires IsEventStream(headers) && Strip(body) != "" && DataPayload(body).None?
    ensures !HandshakeReplyAccepted(parse, Response(200, headers, body))
    ensures EngagementClient.InitializeAccepted(parse, Response(200, headers, body))
  {
  }

  /** On a non-blank reply this handshake is the stricter of the two: what it
      accepts the engagement client's handshake accepts too. */
  lemma StricterOnNonBlankReplies(parse: Parser, reply: Reply)
    requires reply.Response? && Strip(reply.body) != ""
    ensures HandshakeReplyAccepted(parse, reply) ==> EngagementClient.InitializeAccepted(parse, reply)
  {
    if HandshakeReplyAccepted(parse, reply) && IsEventStream(reply.headers) {
      var d := Decode(parse, reply.headers, reply.body);
      var p :| p != "" && DataPayload(reply.body) == Some(p) && parse(p) == Some(d.value);
      assert DecodeFirst(parse, reply.headers, reply.body) == Parsed(d.value);
    }
  }

  /** What a tool call returns for its reply: the `content` member of the
      result (`[]` when absent, and the result itself defaults to `{}`) of a
      status-200 reply that decodes to an object without an `error` member;
      None when anything fails or raises, including a `result` that is not
      an object. */
  function ContentOutcome(parse: Parser, reply: Reply): (r: Option<Json>)
    ensures r.Some? <==> (reply.Response? && reply.status == 200
      && Decode(parse, reply.headers, reply.body).Parsed?
      && Decode(parse, reply.headers, reply.body).value.Obj?
      && "error" !in Decode(parse, reply.headers, reply.body).value.fields
      && var fields := Decode(parse, reply.headers, reply.body).value.fields;
         ("result" in fields ==> fields["result"].Obj?))
    ensures r.Some? ==>
      var fields := Decode(parse, reply.headers, reply.body).value.fields;
      var result := if "result" in fields then fields["result"].fields else map[];
      r.value == if "content" in result then result["content"] else Arr([])
  {
    match reply
    case Failure => None
    case Response(status, headers, body) =>
      if status != 200 then None
      else
        match Decode(parse, headers, body)
        case Parsed(data) =>
          ResultOfShape(data);
          (match ResultOf(data)
           case None => None
           case Some(result) => Get(result, "content", Arr([])))
        case _ => None
  }

  /** The reply handling of `call_mcp_tool`. */
  method ReadContentReply(parse: Parser, reply: Reply) returns (content: Option<Json>)
    ensures content == ContentOutcome(parse, reply)
  {
    content := None;
    if reply.Failure? || reply.status != 200 {
      return;
    }
    var decoded := ReadBody(parse, reply.headers, reply.body);
    if !decoded.Parsed? {
      return;
    }
    var data := decoded.value;
    var result := ResultOf(data);
    if result.Some? {
      content := Get(result.value, "content", Arr([]));
    }
  }

  /** The voice page's connection to the Google Slides tool server. */
  class SlidesSession {
    var initialized: bool
    var sessionId: Option<string>
    const transport: Transport
    const parse: Parser
    /** Every tool call made through this session, with what it returned. */
    ghost var calls: seq<ToolCall>
    /** Number of handshakes that succeeded. */
    ghost var handshakes: nat

    /** At most one handshake ever succeeds, and only that one sets the
        flag. */
    ghost predicate Valid()
      reads this
    {
      handshakes == if initialized then 1 else 0
    }

    constructor (transport: Transport, parse: Parser)
      ensures this.transport == transport && this.parse == parse
      ensures !initialized && sessionId == None && calls == [] && handshakes == 0
      ensures Valid()
    {
      this.transport := transport;
      this.parse := parse;
      initialized := false;
      sessionId := None;
      calls := [];
      handshakes := 0;
    }

    /** `initialize_mcp_session`: the `initialize` POST, the session id
        captured whatever the status, and, when the reply is accepted, the
        Notification, whose own reply only has to arrive. */
    method Initialize() returns (ok: bool)
      modifies this`sessionId, transport
      ensures var reply := NextReply(old(transport.pending));
        && sessionId == CapturedSessionId(old(sessionId), reply)
        && (HandshakeReplyAccepted(parse, reply) ==>
             && transport.sent == old(transport.sent) + [InitializeRequest(), NotificationRequest(sessionId)]
             && transport.pending == Rest(Rest(old(transport.pending)))
             && ok == NextReply(Rest(old(transport.pending))).Response?)
        && (!HandshakeReplyAccepted(parse, reply) ==>
             && transport.sent == old(transport.sent) + [InitializeRequest()]
             && transport.pending == Rest(old(transport.pending))
             && !ok)
    {
      var reply := transport.Post(InitializeRequest());
      if reply.Failure? {
        return false;
      }
      sessionId := HeaderValue(reply.headers, SessionHeader);
      if reply.status != 200 {
        return false;
      }
      if Strip(reply.body) != "" {
        if IsEventStream(reply.headers) {
          var jsonStr := ScanDataLine(Lines(reply.body));
          if jsonStr.None? || jsonStr.value == "" || parse(jsonStr.value).None? {
            return false;
          }
        } else if parse(reply.body).None? {
          return false;
        }
      }
      var answer := transport.Post(NotificationRequest(sessionId));
      ok := answer.Response?;
    }

    /** `call_mcp_tool`: handshake first while not initialized (no tool
        request when it fails), then one `tools/call`. */
    method CallTool(name: string, args: Json) returns (content: Option<Json>)
      requires Valid()
      modifies this, transport
      ensures Valid()
      ensures calls == old(calls) + [ToolCall(name, args, content)]
      ensures old(initialized) ==>
        && initialized && sessionId == old(sessionId) && handshakes == old(handshakes)
        && transport.sent == old(transport.sent) + [ToolRequest(name, args, old(sessionId))]
        && transport.pending == Rest(old(transport.pending))
        && content == ContentOutcome(parse, NextReply(old(transport.pending)))
      ensures !old(initialized) ==>
        var initReply := NextReply(old(transport.pending));
        var sid := CapturedSessionId(old(sessionId), initReply);
        var accepted := HandshakeReplyAccepted(parse, initReply);
        && sessionId == sid
        && initialized == (accepted && NextReply(Rest(old(transport.pending))).Response?)
        && (!accepted ==>
             && transport.sent == old(transport.sent) + [InitializeRequest()]
             && transport.pending == Rest(old(transport.pending))
             && content == None)
        && (accepted && !initialized ==>
             && transport.sent == old(transport.sent) + [InitializeRequest(), NotificationRequest(sid)]
             && transport.pending == Rest(Rest(old(transport.pending)))
             && content == None)
        && (initialized ==>
             && transport.sent == old(transport.sent)
                  + [InitializeRequest(), NotificationRequest(sid), ToolRequest(name, args, sid)]
             && transport.pending == Rest(Rest(Rest(old(transport.pending))))
             && content == ContentOutcome(parse, NextReply(Rest(Rest(old(transport.pending))))))
    {
      if !initialized {
        var ok := Initialize();
        if ok {
          initialized := true;
          handshakes := handshakes + 1;
        } else {
          content := None;
          calls := calls + [ToolCall(name, args, content)];
          return;
        }
      }
      var reply := transport.Post(ToolRequest(name, args, sessionId));
      content := ReadContentReply(parse, reply);
      calls := calls + [ToolCall(name, args, content)];
    }
  }
}
