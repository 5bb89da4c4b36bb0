/** The tool client of the engagement page (`call_github_mcp_tool` and its
    lazy `initialize_github_mcp_session` handshake).  The two module globals
    become the fields of one `GithubSession` object. */
module EngagementClient {
  import opened Optional
  import opened JsonValue
  import opened Rpc
  import opened EventStream

  const ClientName: string := "engagement-analyzer-client"

  /** The tools that get the long timeout. */
  const SlowTools: set<string> := {"create_branch", "create_or_update_file", "list_branches"}

  /** Seconds to wait for a tool call: 120 for the slow tools, 60 otherwise. */
  function ToolTimeout(name: string): (t: nat)
    ensures t == 120 <==> name in SlowTools
    ensures t == 60 <==> name !in SlowTools
  {
    if name in SlowTools then 120 else 60
  }

  /** The handshake request: no session header, 30 seconds. */
  function InitializeRequest(): (req: Request)
    ensures req.envelope == InitializeEnvelope(ClientName)
    ensures SessionHeader !in req.headers && req.timeout == 30
  {
    Request(InitializeEnvelope(ClientName), PlainHeaders(), 30)
  }

  /** A tool request: always id 1, with the session header iff a non-empty
      id is stored, and the per-tool timeout. */
  function ToolRequest(name: string, args: Json, sessionId: Option<string>): (req: Request)
    ensures req.envelope == ToolCallEnvelope(1, name, args)
    ensures req.headers == SessionHeaders(sessionId)
    ensures req.timeout == ToolTimeout(name)
  {
    Request(ToolCallEnvelope(1, name, args), SessionHeaders(sessionId), ToolTimeout(name))
  }

  /** The handshake's verdict: status 200 and no exception.  The decoded
      value is never used, so an event stream without a data line passes,
      while a data line the parser rejects raises and fails. */
  predicate InitializeAccepted(parse: Parser, reply: Reply): (ok: bool)
    ensures ok ==> reply.Response? && reply.status == 200
    ensures reply.Response? && reply.status == 200 && !IsEventStream(reply.headers) ==>
      (ok <==> parse(reply.body).Some?)
    ensures reply.Response? && reply.status == 200 && IsEventStream(reply.headers) ==>
      (ok <==> DataPayload(reply.body).None? || parse(DataPayload(reply.body).value).Some?)
  {
    reply.Response? && reply.status == 200
    && !DecodeFirst(parse, reply.headers, reply.body).Malformed?
  }

  /** An event stream without any data line is still a successful
      handshake. */
  lemma AcceptsStreamWithoutData(parse: Parser, headers: Headers, body: string)
    requires IsEventStream(headers) && DataPayload(body).None?
    ensures InitializeAccepted(parse, Response(200, headers, body))
  {
  }

  /** What a tool call returns for its reply: the whole `result` member
      (`{}` when absent) of a status-200 reply that decodes to an object
      without an `error` member; None for anything else.  A JSON-null
      `result` gives `Some(Null)`; Python returns `None` for it as for a
      failure, and every caller only tests truthiness, which treats the two
      alike. */
  function CallOutcome(parse: Parser, reply: Reply): (r: Option<Json>)
    ensures r.Some? ==> reply.Response? && reply.status == 200
    ensures r.Some? <==> (reply.Response? && reply.status == 200
      && Decode(parse, reply.headers, reply.body).Parsed?
      && Decode(parse, reply.headers, reply.body).value.Obj?
      && "error" !in Decode(parse, reply.headers, reply.body).value.fields)
    ensures r.Some? ==>
      var fields := Decode(parse, reply.headers, reply.body).value.fields;
      r.value == if "result" in fields then fields["result"] else EmptyObj
  {
    match reply
    case Failure => None
    case Response(status, headers, body) =>
      if status != 200 then None
      else
        match Decode(parse, headers, body)
        case Parsed(data) =>
          ResultOfShape(data);
          ResultOf(data)
        case _ => None
  }

  /** The reply handling of `call_github_mcp_tool`: status check, the
      event-stream scan or the whole-body parse, the `error` check and the
      `result` member. */
  method ReadToolReply(parse: Parser, reply: Reply) returns (result: Option<Json>)
    ensures result == CallOutcome(parse, reply)
  {
    result := None;
    if reply.Failure? || reply.status != 200 {
      return;
    }
    var decoded := ReadBody(parse, reply.headers, reply.body);
    if !decoded.Parsed? {
      return;
    }
    var data := decoded.value;
    result := ResultOf(data);
  }

  /** The engagement page's connection to the GitHub tool server. */
  class GithubSession {
    var initialized: bool
    var sessionId: Option<string>
    const transport: Transport
    const parse: Parser
    /** Every tool call made through this session, with its result. */
    ghost var calls: seq<ToolCall>
    /** Number of handshakes that succeeded. */
    ghost var handshakes: nat

    /** At most one handshake ever succeeds, and only that one sets the
        flag. */
    ghost predicate Valid()
      reads this
    {
      handshakes == if initialized then 1 else 0
    }

    constructor (transport: Transport, parse: Parser)
      ensures this.transport == transport && this.parse == parse
      ensures !initialized && sessionId == None && calls == [] && handshakes == 0
      ensures Valid()
    {
      this.transport := transport;
      this.parse := parse;
      initialized := false;
      sessionId := None;
      calls := [];
      handshakes := 0;
    }

    /** `initialize_github_mcp_session`: one POST, the session id captured
        from the reply whatever its status, and the verdict. */
    method Initialize() returns (ok: bool)
      modifies this`sessionId, transport
      ensures transport.sent == old(transport.sent) + [InitializeRequest()]
      ensures transport.pending == Rest(old(transport.pending))
      ensures sessionId == CapturedSessionId(old(sessionId), NextReply(old(transport.pending)))
      ensures ok == InitializeAccepted(parse, NextReply(old(transport.pending)))
    {
      var reply := transport.Post(InitializeRequest());
      match reply
      case Failure =>
        ok := false;
      case Response(status, headers, body) =>
        sessionId := HeaderValue(headers, SessionHeader);
        if status == 200 {
          if IsEventStream(headers) {
            var jsonStr := ScanDataLine(Lines(body));
            ok := jsonStr.None? || parse(jsonStr.value).Some?;
          } else {
            ok := parse(body).Some?;
          }
        } else {
          ok := false;
        }
    }

    /** `call_github_mcp_tool`: handshake first while not initialized (no
        tool request when it fails), then one `tools/call`. */
    method CallTool(name: string, args: Json) returns (result: Option<Json>)
      requires Valid()
      modifies this, transport
      ensures Valid()
      ensures calls == old(calls) + [ToolCall(name, args, result)]
      ensures old(initialized) ==>
        && initialized && sessionId == old(sessionId) && handshakes == old(handshakes)
        && transport.sent == old(transport.sent) + [ToolRequest(name, args, old(sessionId))]
        && transport.pending == Rest(old(transport.pending))
        && result == CallOutcome(parse, NextReply(old(transport.pending)))
      ensures !old(initialized) ==>
        var initReply := NextReply(old(transport.pending));
        var sid := CapturedSessionId(old(sessionId), initReply);
        && sessionId == sid
        && initialized == InitializeAccepted(parse, initReply)
        && (initialized ==>
             && transport.sent == old(transport.sent) + [InitializeRequest(), ToolRequest(name, args, sid)]
             && transport.pending == Rest(Rest(old(transport.pending)))
             && result == CallOutcome(parse, NextReply(Rest(old(transport.pending)))))
        && (!initialized ==>
             && transport.sent == old(transport.sent) + [InitializeRequest()]
             && transport.pending == Rest(old(transport.pending))
             && result == None)
    {
      if !initialized {
        var ok := Initialize();
        if ok {
          initialized := true;
          handshakes := handshakes + 1;
        } else {
          result := None;
          calls := calls + [ToolCall(name, args, result)];
          return;
        }
      }
      var reply := transport.Post(ToolRequest(name, args, sessionId));
      result := ReadToolReply(parse, reply);
      calls := calls + [ToolCall(name, args, result)];
    }
  }
}
