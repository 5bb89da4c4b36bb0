/** The binary-upload probe script (`test_github_binary_upload.py`): its own
    stripped-down tool call (no handshake, no session header) and the loop
    that tries four ways of uploading the same PNG, then sorts the outcomes
    into successes and failures. */
module BinaryUploadTest {
  import opened Optional
  import opened JsonValue
  import opened Rpc
  import opened EventStream
  import EngagementClient

  const TestBranch: string := "test-binary-upload"
  const Owner: string := "linsun"

  /** The request of the script's tool call: id 1, no session header,
      60 seconds. */
  function CallRequest(name: string, args: Json): (req: Request)
    ensures req.envelope == ToolCallEnvelope(1, name, args)
    ensures SessionHeader !in req.headers && req.timeout == 60
  {
    Request(ToolCallEnvelope(1, name, args), PlainHeaders(), 60)
  }

  /** What the script's tool call returns for a reply: the `result` member
      (`{}` when absent) of a status-200 reply whose first data payload, or
      whole body, parses to an object without an `error` member.  An event
      stream without a data line leaves the parsed value unbound, which
      raises and yields None like every other failure. */
  function BinaryCall(parse: Parser, reply: Reply): (r: Option<Json>)
    ensures r.Some? <==> (reply.Response? && reply.status == 200
      && DecodeFirst(parse, reply.headers, reply.body).Parsed?
      && DecodeFirst(parse, reply.headers, reply.body).value.Obj?
      && "error" !in DecodeFirst(parse, reply.headers, reply.body).value.fields)
    ensures r.Some? ==>
      var fields := DecodeFirst(parse, reply.headers, reply.body).value.fields;
      r.value == if "result" in fields then fields["result"] else EmptyObj
  {
    match reply
    case Failure => None
    case Response(status, headers, body) =>
      if status != 200 then None
      else
        match DecodeFirst(parse, headers, body)
        case Parsed(data) =>
          ResultOfShape(data);
          ResultOf(data)
        case _ => None
  }

  /** With a parser that rejects the empty text, as `json.loads` does, the
      script's call returns what the engagement client's call returns for
      the same reply, although only the client skips an empty payload. */
  lemma SameAsClientCall(parse: Parser, reply: Reply)
    requires parse("") == None
    ensures BinaryCall(parse, reply) == EngagementClient.CallOutcome(parse, reply)
  {
    if reply.Response? {
      DecodersAgree(parse, reply.headers, reply.body);
    }
  }

  /** `call_github_mcp_tool` of the script: one POST, then the reply
      handling. */
  method CallTool(transport: Transport, parse: Parser, name: string, args: Json) returns (result: Option<Json>)
    modifies transport
    ensures transport.sent == old(transport.sent) + [CallRequest(name, args)]
    ensures transport.pending == Rest(old(transport.pending))
    ensures result == BinaryCall(parse, NextReply(old(transport.pending)))
  {
    var reply := transport.Post(CallRequest(name, args));
    result := None;
    if reply.Failure? || reply.status != 200 {
      return;
    }
    var parsed: Option<Json>;
    if IsEventStream(reply.headers) {
      var jsonStr := ScanDataLine(Lines(reply.body));
      if jsonStr.None? {
        return;
      }
      parsed := parse(jsonStr.value);
    } else {
      parsed := parse(reply.body);
    }
    if parsed.Some? {
      result := ResultOf(parsed.value);
    }
  }

  /** One way of uploading: its label, the tool, the target path and the
      arguments. */
  datatype TestMethod = TestMethod(name: string, tool: string, path: string, params: Json)

  function TestPath(ts: string, k: string): string {
    "test/binary_test_" + ts + "_method" + k + ".png"
  }

  /** The arguments of one upload: the common six plus the method's
      `extra` ones. */
  function UploadParams(repo: string, path: string, image: string, message: string, extra: map<string, Json>)
    : (params: Json)
    requires "path" !in extra
    ensures params.Obj? && "path" in params.fields && params.fields["path"] == Str(path)
  {
    Obj(map["owner" := Str(Owner), "repo" := Str(repo), "path" := Str(path),
            "content" := Str(image), "message" := Str(message), "branch" := Str(TestBranch)] + extra)
  }

  /** The `path` argument of a method is the path it reports. */
  predicate UploadsToItsPath(m: TestMethod) {
    m.params.Obj? && "path" in m.params.fields && m.params.fields["path"] == Str(m.path)
  }

  /** Method `k`: its label, the tool, and the upload of the image to its
      own path. */
  function MethodAt(repo: string, ts: string, image: string, k: string, name: string, tool: string,
                    message: string, extra: map<string, Json>): (m: TestMethod)
    requires "path" !in extra
    ensures UploadsToItsPath(m) && m.path == TestPath(ts, k)
  {
    TestMethod(name, tool, TestPath(ts, k), UploadParams(repo, TestPath(ts, k), image, message, extra))
  }

  /** The four methods, in order: the plain call, `encoding: base64`,
      `content_encoding: base64`, and the `create_file` tool. */
  function TestMethods(repo: string, ts: string, image: string): (ms: seq<TestMethod>)
    ensures |ms| == 4
    ensures forall m :: m in ms ==> UploadsToItsPath(m)
  {
    [ MethodAt(repo, ts, image, "1", "Method 1: No encoding parameter (GitHub API standard)",
               "create_or_update_file", "Test binary upload - Method 1 (no encoding)", map[]),
      MethodAt(repo, ts, image, "2", "Method 2: encoding=base64 parameter",
               "create_or_update_file", "Test binary upload - Method 2 (encoding=base64)",
               map["encoding" := Str("base64")]),
      MethodAt(repo, ts, image, "3", "Method 3: content_encoding parameter",
               "create_or_update_file", "Test binary upload - Method 3 (content_encoding)",
               map["content_encoding" := Str("base64")]),
      MethodAt(repo, ts, image, "4", "Method 4: create_file tool",
               "create_file", "Test binary upload - Method 4 (create_file)", map[]) ]
  }

  /** One entry of `results`. */
  datatype MethodResult =
    | Uploaded(name: string, rawUrl: string, blobUrl: string)
    | NotUploaded(name: string)

  function RawUrl(repo: string, path: string): string {
    "https://raw.githubusercontent.com/" + Owner + "/" + repo + "/" + TestBranch + "/" + path
  }

  function BlobUrl(repo: string, path: string): string {
    "https://github.com/" + Owner + "/" + repo + "/blob/" + TestBranch + "/" + path
  }

  /** The entry for a method given what its call returned: a success, with
      both URLs of its path, iff the result is truthy. */
  function ResultFor(repo: string, m: TestMethod, result: Option<Json>): (r: MethodResult)
    ensures r.name == m.name
    ensures r.Uploaded? <==> TruthyOpt(result)
    ensures r.Uploaded? ==> r.rawUrl == RawUrl(repo, m.path) && r.blobUrl == BlobUrl(repo, m.path)
  {
    if TruthyOpt(result) then Uploaded(m.name, RawUrl(repo, m.path), BlobUrl(repo, m.path))
    else NotUploaded(m.name)
  }

  /** The entries the methods get when the server gives the `pending`
      replies in order. */
  function Outcomes(parse: Parser, repo: string, ms: seq<TestMethod>, pending: seq<Reply>): (rs: seq<MethodResult>)
    ensures |rs| == |ms|
    ensures ms != [] ==> rs[0] == ResultFor(repo, ms[0], BinaryCall(parse, NextReply(pending)))
    ensures forall k {:trigger rs[k]} :: 0 <= k < |ms| ==>
      (rs[k].name == ms[k].name
       && (rs[k].Uploaded? ==> rs[k].rawUrl == RawUrl(repo, ms[k].path) && rs[k].blobUrl == BlobUrl(repo, ms[k].path)))
  {
    if ms == [] then []
    else [ResultFor(repo, ms[0], BinaryCall(parse, NextReply(pending)))] + Outcomes(parse, repo, ms[1..], Rest(pending))
  }

  /** The requests the methods send, in order. */
  function Requests(ms: seq<TestMethod>): (reqs: seq<Request>)
    ensures |reqs| == |ms|
    ensures forall k :: 0 <= k < |ms| ==> reqs[k] == CallRequest(ms[k].tool, ms[k].params)
  {
    seq(|ms|, k requires 0 <= k < |ms| => CallRequest(ms[k].tool, ms[k].params))
  }

  /** One more method sends one more request. */
  lemma RequestsStep(ms: seq<TestMethod>, i: nat)
    requires i < |ms|
    ensures Requests(ms[..i + 1]) == Requests(ms[..i]) + [CallRequest(ms[i].tool, ms[i].params)]
  {
    assert ms[..i + 1][i] == ms[i];
    assert forall k :: 0 <= k < i ==> ms[..i + 1][k] == ms[..i][k];
  }

  /** The entries from method `i` on are its own entry followed by those of
      the methods after it, on the replies left after its own. */
  lemma OutcomesStep(parse: Parser, repo: string, ms: seq<TestMethod>, i: nat, pending: seq<Reply>, done: seq<MethodResult>)
    requires i < |ms|
    ensures done + Outcomes(parse, repo, ms[i..], pending)
      == (done + [ResultFor(repo, ms[i], BinaryCall(parse, NextReply(pending)))]) + Outcomes(parse, repo, ms[i + 1..], Rest(pending))
  {
    assert ms[i..][1..] == ms[i + 1..];
  }

  /** The loop of `test_binary_upload_methods`: every method is tried, in
      order, whatever the earlier ones gave. */
  method RunMethods(transport: Transport, parse: Parser, repo: string, methods: seq<TestMethod>)
    returns (results: seq<MethodResult>)
    modifies transport
    ensures transport.sent == old(transport.sent) + Requests(methods)
    ensures results == Outcomes(parse, repo, methods, old(transport.pending))
  {
    results := [];
    var i := 0;
    while i < |methods|
      invariant 0 <= i <= |methods|
      invariant transport.sent == old(transport.sent) + Requests(methods[..i])
      invariant results + Outcomes(parse, repo, methods[i..], transport.pending)
        == Outcomes(parse, repo, methods, old(transport.pending))
    {
      var m := methods[i];
      ghost var pending := transport.pending;
      var result := CallTool(transport, parse, m.tool, m.params);
      OutcomesStep(parse, repo, methods, i, pending, results);
      RequestsStep(methods, i);
      results := results + [ResultFor(repo, m, result)];
      i := i + 1;
    }
    assert methods[..i] == methods;
  }

  /** `test_binary_upload_methods` up to its report: the four methods tried
      in order, one entry each. */
  method TestBinaryUploadMethods(transport: Transport, parse: Parser, repo: string, ts: string, image: string)
    returns (results: seq<MethodResult>)
    modifies transport
    ensures |results| == 4
    ensures transport.sent == old(transport.sent) + Requests(TestMethods(repo, ts, image))
    ensures results == Outcomes(parse, repo, TestMethods(repo, ts, image), old(transport.pending))
  {
    results := RunMethods(transport, parse, repo, TestMethods(repo, ts, image));
  }

  /** `successful_methods`: the successes, in order. */
  function Successful(rs: seq<MethodResult>): (ok: seq<MethodResult>)
    ensures |ok| <= |rs|
  {
    if rs == [] then []
    else Successful(rs[..|rs| - 1]) + (if rs[|rs| - 1].Uploaded? then [rs[|rs| - 1]] else [])
  }

  /** `failed_methods`: the failures, in order. */
  function Failed(rs: seq<MethodResult>): (bad: seq<MethodResult>)
    ensures |bad| <= |rs|
  {
    if rs == [] then []
    else Failed(rs[..|rs| - 1]) + (if rs[|rs| - 1].NotUploaded? then [rs[|rs| - 1]] else [])
  }

  /** The successes are successful entries of the results, and the
      failures failed ones. */
  lemma {:induction false} PartitionMembers(rs: seq<MethodResult>)
    ensures forall r :: r in Successful(rs) ==> r in rs && r.Uploaded?
    ensures forall r :: r in Failed(rs) ==> r in rs && r.NotUploaded?
  {
    if rs != [] {
      var init := rs[..|rs| - 1];
      PartitionMembers(init);
      assert forall r :: r in init ==> r in rs;
    }
  }

  /** The two lists split the results: together they hold every entry
      exactly once. */
  lemma {:induction false} Partition(rs: seq<MethodResult>)
    ensures |Successful(rs)| + |Failed(rs)| == |rs|
    ensures multiset(Successful(rs)) + multiset(Failed(rs)) == multiset(rs)
  {
    if rs != [] {
      var init := rs[..|rs| - 1];
      var last := rs[|rs| - 1];
      Partition(init);
      assert rs == init + [last];
      PartitionStep(init, last);
    }
  }

  /** One more entry goes to exactly one of the two lists. */
  lemma PartitionStep(init: seq<MethodResult>, last: MethodResult)
    ensures multiset(Successful(init + [last])) + multiset(Failed(init + [last]))
      == multiset(Successful(init)) + multiset(Failed(init)) + multiset{last}
  {
    var rs := init + [last];
    assert rs[..|rs| - 1] == init;
    var ok, bad := Successful(init), Failed(init);
    if last.Uploaded? {
      assert Successful(rs) == ok + [last] && Failed(rs) == bad;
      assert multiset(ok + [last]) == multiset(ok) + multiset{last};
    } else {
      assert Successful(rs) == ok && Failed(rs) == bad + [last];
      assert multiset(bad + [last]) == multiset(bad) + multiset{last};
    }
  }

  /** `sub` is `rs` read at the increasing indices `idx`. */
  ghost predicate PickedAt(sub: seq<MethodResult>, rs: seq<MethodResult>, idx: seq<int>) {
    && |idx| == |sub|
    && (forall a :: 0 <= a < |idx| ==> 0 <= idx[a] < |rs| && rs[idx[a]] == sub[a])
    && (forall a, b :: 0 <= a < b < |idx| ==> idx[a] < idx[b])
  }

  /** `sub` keeps the order its entries have in `rs`. */
  ghost predicate InOrder(sub: seq<MethodResult>, rs: seq<MethodResult>) {
    exists idx :: PickedAt(sub, rs, idx)
  }

  /** One more entry, picked or not, keeps the picked entries in order. */
  lemma PickedExtend(sub: seq<MethodResult>, init: seq<MethodResult>, idx: seq<int>, last: MethodResult, keep: bool)
    requires PickedAt(sub, init, idx)
    ensures InOrder(sub + (if keep then [last] else []), init + [last])
  {
    var rs := init + [last];
    if keep {
      var idx' := idx + [|init|];
      forall a | 0 <= a < |idx'|
        ensures 0 <= idx'[a] < |rs| && rs[idx'[a]] == (sub + [last])[a]
      {
        if a < |idx| {
          assert rs[idx[a]] == init[idx[a]];
        }
      }
      assert PickedAt(sub + [last], rs, idx');
    } else {
      forall a | 0 <= a < |idx|
        ensures rs[idx[a]] == sub[a]
      {
        assert rs[idx[a]] == init[idx[a]];
      }
      assert sub + [] == sub;
      assert PickedAt(sub, rs, idx);
    }
  }

  /** `successful_methods` keeps the order of the results. */
  lemma {:induction false} SuccessfulInOrder(rs: seq<MethodResult>)
    ensures InOrder(Successful(rs), rs)
  {
    if rs == [] {
      assert PickedAt([], rs, []);
    } else {
      var init := rs[..|rs| - 1];
      var last := rs[|rs| - 1];
      SuccessfulInOrder(init);
      var idx :| PickedAt(Successful(init), init, idx);
      PickedExtend(Successful(init), init, idx, last, last.Uploaded?);
      assert init + [last] == rs;
    }
  }

  /** `failed_methods` keeps the order of the results. */
  lemma {:induction false} FailedInOrder(rs: seq<MethodResult>)
    ensures InOrder(Failed(rs), rs)
  {
    if rs == [] {
      assert PickedAt([], rs, []);
    } else {
      var init := rs[..|rs| - 1];
      var last := rs[|rs| - 1];
      FailedInOrder(init);
      var idx :| PickedAt(Failed(init), init, idx);
      PickedExtend(Failed(init), init, idx, last, last.NotUploaded?);
      assert init + [last] == rs;
    }
  }

  /** The URL the script fetches to check the image: the raw URL of the
      first success, if any. */
  function FirstCheckedUrl(rs: seq<MethodResult>): (u: Option<string>)
    ensures u.None? <==> Successful(rs) == []
  {
    var ok := Successful(rs);
    if ok == [] then None
    else
      PartitionMembers(rs);
      assert ok[0] in ok;
      Some(ok[0].rawUrl)
  }

  /** The first success is the earliest entry that succeeded. */
  lemma {:induction false} FirstSuccessIsEarliest(rs: seq<MethodResult>)
    requires Successful(rs) != []
    ensures exists i :: (0 <= i < |rs| && rs[i] == Successful(rs)[0]
      && forall j :: 0 <= j < i ==> rs[j].NotUploaded?)
  {
    var init := rs[..|rs| - 1];
    var last := rs[|rs| - 1];
    assert Successful(rs) == Successful(init) + (if last.Uploaded? then [last] else []);
    if Successful(init) == [] {
      var i := |rs| - 1;
      assert Successful(rs)[0] == last == rs[i];
      forall j | 0 <= j < i
        ensures rs[j].NotUploaded?
      {
        assert rs[j] == init[j];
        NoSuccessNoUpload(init, j);
      }
      assert 0 <= i < |rs| && rs[i] == Successful(rs)[0] && forall j :: 0 <= j < i ==> rs[j].NotUploaded?;
    } else {
      FirstSuccessIsEarliest(init);
      assert Successful(rs)[0] == Successful(init)[0];
      var i :| 0 <= i < |init| && init[i] == Successful(init)[0]
        && forall j :: 0 <= j < i ==> init[j].NotUploaded?;
      forall j | 0 <= j < i
        ensures rs[j].NotUploaded?
      {
        assert rs[j] == init[j];
      }
      assert rs[i] == init[i];
      assert 0 <= i < |rs| && rs[i] == Successful(rs)[0] && forall j :: 0 <= j < i ==> rs[j].NotUploaded?;
    }
  }

  /** A list without successes has no uploaded entry. */
  lemma {:induction false} NoSuccessNoUpload(rs: seq<MethodResult>, j: int)
    requires Successful(rs) == [] && 0 <= j < |rs|
    ensures rs[j].NotUploaded?
  {
    var init := rs[..|rs| - 1];
    if j < |rs| - 1 {
      NoSuccessNoUpload(init, j);
    }
  }
}
