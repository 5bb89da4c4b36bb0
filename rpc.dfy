/** The wire level shared by every client: JSON-RPC 2.0 envelopes, the HTTP
    headers the clients send, the replies they get back, and the HTTP
    transport as a queue of canned replies with a log of what was posted. */
module Rpc {
  import opened Optional
  import opened JsonValue

  /** HTTP headers.  Reply headers are looked up case-insensitively by the
      HTTP library; the model keys them by their lower-case names. */
  type Headers = map<string, string>

  /** A JSON-RPC 2.0 request object (section 4 of the JSON-RPC 2.0
      specification) as the clients build it; `id == None` makes it a
      Notification (section 4.1). */
  datatype Envelope = Envelope(id: Option<int>, name: string, params: Option<Json>)

  /** One HTTP POST to the server: the JSON body, the headers, the timeout in
      seconds. */
  datatype Request = Request(envelope: Envelope, headers: Headers, timeout: nat)

  /** What a POST yields: a response, or `Failure` when the HTTP library
      raises (connection refused, timeout). */
  datatype Reply =
    | Response(status: int, headers: Headers, body: string)
    | Failure

  /** One entry of a client's log of tool calls: the tool, its arguments and
      what the call returned (None for Python's `None`). */
  datatype ToolCall = ToolCall(tool: string, args: Json, result: Option<Json>)

  const ProtocolVersion: string := "2024-11-05"
  const ClientVersion: string := "1.0.0"
  const JsonType: string := "application/json"
  const AcceptBoth: string := "application/json, text/event-stream"
  const SessionHeader: string := "mcp-session-id"

  /** The envelope as the JSON object that goes on the wire. */
  function EnvelopeJson(e: Envelope): (j: Json)
    ensures j.Obj? && "jsonrpc" in j.fields && j.fields["jsonrpc"] == Str("2.0")
    ensures "method" in j.fields && j.fields["method"] == Str(e.name)
    ensures "id" in j.fields <==> e.id.Some?
    ensures "params" in j.fields <==> e.params.Some?
    ensures e.params.Some? ==> j.fields["params"] == e.params.value
  {
    var base := map["jsonrpc" := Str("2.0"), "method" := Str(e.name)];
    var withId := if e.id.Some? then base["id" := Num(e.id.value as real)] else base;
    Obj(if e.params.Some? then withId["params" := e.params.value] else withId)
  }

  /** A request is a Notification exactly when its JSON has no `id` member,
      so the server sends no Response object back (section 4.1 of the
      JSON-RPC 2.0 specification). */
  predicate IsNotification(e: Envelope) {
    e.id.None?
  }

  /** The `initialize` request every handshake sends: id 0, protocol
      version 2024-11-05, an empty `tools` capability, and the client's name
      and version. */
  function InitializeEnvelope(clientName: string): (e: Envelope)
    ensures e.id == Some(0) && e.name == "initialize" && !IsNotification(e)
    ensures e.params.Some? && e.params.value.Obj?
    ensures e.params.value.fields.Keys == {"protocolVersion", "capabilities", "clientInfo"}
    ensures e.params.value.fields["protocolVersion"] == Str(ProtocolVersion)
    ensures e.params.value.fields["clientInfo"]
      == Obj(map["name" := Str(clientName), "version" := Str(ClientVersion)])
  {
    Envelope(Some(0), "initialize", Some(Obj(map[
      "protocolVersion" := Str(ProtocolVersion),
      "capabilities" := Obj(map["tools" := EmptyObj]),
      "clientInfo" := Obj(map["name" := Str(clientName), "version" := Str(ClientVersion)])])))
  }

  /** The `notifications/initialized` message: a Notification without params. */
  const InitializedNotification: Envelope := Envelope(None, "notifications/initialized", None)

  /** A `tools/call` request naming the tool and its arguments. */
  function ToolCallEnvelope(id: int, name: string, args: Json): (e: Envelope)
    ensures e.id == Some(id) && e.name == "tools/call"
    ensures e.params == Some(Obj(map["name" := Str(name), "arguments" := args]))
  {
    Envelope(Some(id), "tools/call", Some(Obj(map["name" := Str(name), "arguments" := args])))
  }

  /** The headers every request carries, plus the session header when a
      non-empty session id is stored (Python's `if session_id:`). */
  function SessionHeaders(sessionId: Option<string>): (h: Headers)
    ensures "Content-Type" in h && h["Content-Type"] == JsonType
    ensures "Accept" in h && h["Accept"] == AcceptBoth
    ensures SessionHeader in h <==> sessionId.Some? && sessionId.value != ""
    ensures SessionHeader in h ==> h[SessionHeader] == sessionId.value
    ensures h.Keys <= {"Content-Type", "Accept", SessionHeader}
  {
    var base := map["Content-Type" := JsonType, "Accept" := AcceptBoth];
    if sessionId.Some? && sessionId.value != "" then base[SessionHeader := sessionId.value] else base
  }

  /** The headers of a request sent without a session. */
  function PlainHeaders(): (h: Headers)
    ensures SessionHeader !in h && h == SessionHeaders(None)
  {
    SessionHeaders(None)
  }

  /** `response.headers.get(name)`. */
  function HeaderValue(h: Headers, name: string): (r: Option<string>)
    ensures r.Some? <==> name in h
    ensures r.Some? ==> r.value == h[name]
  {
    if name in h then Some(h[name]) else None
  }

  /** The stored session id once the initialize reply is in: the reply's
      `mcp-session-id` header, or None without one, taken before the status
      is looked at; a transport failure raises first and keeps the old id. */
  function CapturedSessionId(prior: Option<string>, reply: Reply): (sid: Option<string>)
    ensures reply.Failure? ==> sid == prior
    ensures reply.Response? ==> (sid.Some? <==> SessionHeader in reply.headers)
    ensures reply.Response? && sid.Some? ==> sid.value == reply.headers[SessionHeader]
  {
    match reply
    case Failure => prior
    case Response(_, headers, _) => HeaderValue(headers, SessionHeader)
  }

  /** The reply the server gives next; an exhausted queue is a server that no
      longer answers. */
  function NextReply(pending: seq<Reply>): Reply {
    if pending == [] then Failure else pending[0]
  }

  function Rest(pending: seq<Reply>): seq<Reply> {
    if pending == [] then [] else pending[1..]
  }

  /** The HTTP transport (`requests.post`): replies are served in order, and
      every request posted is logged. */
  class Transport {
    var pending: seq<Reply>
    ghost var sent: seq<Request>

    constructor (replies: seq<Reply>)
      ensures pending == replies && sent == []
    {
      pending := replies;
      sent := [];
    }

    method Post(req: Request) returns (reply: Reply)
      modifies this
      ensures reply == NextReply(old(pending)) && pending == Rest(old(pending))
      ensures sent == old(sent) + [req]
    {
      reply := NextReply(pending);
      pending := Rest(pending);
      sent := sent + [req];
    }
  }
}
