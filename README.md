# A model of the gen-ai-demo tool-server clients

The demo's Streamlit pages and scripts talk to tool servers (Model Context
Protocol over streamable HTTP) through a JSON-RPC 2.0 client. The client is
written by hand and copied, with small differences, into four places:

- the engagement page (`demo/pages/4_Analyze_Engagement.py`), which stores an
  analysis report and two photos in a GitHub repository;
- the voice page (`demo/pages/2_Voice_With_Llama.py`), which makes Google
  Slides presentations;
- the binary-upload probe script (`demo/test_github_binary_upload.py`);
- the connection check script (`demo/test_mcp_connection.py`).

This project models those clients in Dafny and proves what they promise.

## What is modelled

- **Response decoding** (`EventStream`).
  - A body whose `content-type` starts with `text/event-stream` is stripped and split into lines. The first line starting with `data: ` is parsed, minus that prefix.
  - Any other body is parsed whole.
  - This is a small subset of the event-stream format in section 9.2 of the WHATWG HTML Living Standard.
  - There are two decoders. `Decode` has the `if json_str:` guard of the pages. `DecodeFirst` lacks it, as in the engagement page's handshake and in the probe script. The voice page's handshake keeps the guard.
  - The JSON parser is a parameter `parse: string -> Option<Json>`. None means it raised.
- **The wire** (`Rpc`):
  - JSON-RPC 2.0 envelopes. A `notifications/initialized` without an `id` is a Notification (section 4.1 of the JSON-RPC 2.0 specification).
  - The request headers.
  - The transport, a class `Transport` that serves canned replies in order and logs every POST in a ghost `sent`.
  - An exhausted queue or a `Failure` reply is a raised `requests` exception.
- **The session clients**, classes whose fields are the modules' globals (`initialized`, `sessionId`):
  - `EngagementClient.GithubSession`.
  - `VoiceClient.SlidesSession`.
  - Each has a ghost log of tool calls and a ghost count of successful handshakes.
  - Their `CallTool` contracts give, for every reply sequence, the requests sent, the new state and the value returned.
  - The probe script's handshake-less call is `BinaryUploadTest.CallTool`.
- **Result extractors**:
  - branch names out of `list_branches` text (`BranchNames`);
  - the presentation id out of `create_presentation` results (`VoiceSlides.PresentationIdOf`);
  - slugs for branch names and slide ids (`Text.Slug`).
- **Caller control flow**:
  - branch check, retry and fallback;
  - the four-step upload fallback chain per image;
  - the upload summary (`EngagementStore`);
  - the slide flow and prompt routing (`VoiceSlides`);
  - the four-method loop and the success/failure partition (`BinaryUploadTest`);
  - the connection verdicts and the `__main__` gating (`ConnectionTest`).

Python semantics that matter are written out (`JsonValue`):

- `in` on a dict, list or string, and the `TypeError` it raises on other values;
- `[]` and `.get`, where `.get` raises `AttributeError` on anything but a dict;
- truth values.

A Python exception caught by a handler is a `None`, `false` or `Raises` outcome.

## Model

| member | source | states |
|---|---|---|
| EventStream.ScanDataLine | demo/pages/2_Voice_With_Llama.py:226-232 | the line-scan loop yields exactly the text after `data: ` on the first line that starts with it, or nothing when no line does |
| EventStream.PayloadOf | demo/pages/4_Analyze_Engagement.py:286-291 | a payload exists iff some line is a data line, and it is the rest of the first data line |
| EventStream.Lines | demo/pages/4_Analyze_Engagement.py:286 | the stripped body splits into at least one line, none holding a newline |
| EventStream.Decode | demo/pages/2_Voice_With_Llama.py:222-252 | a non-stream body is parsed whole; a stream body has no data iff its first payload is absent or empty; a parsed stream value comes from a non-empty first payload, and a non-empty first payload is handed to the parser |
| EventStream.ReadBody | demo/pages/4_Analyze_Engagement.py:283-298 | the decoding steps (content-type test, line scan, emptiness guard, parse) compute exactly `Decode` |
| EventStream.DecodeFirst | demo/test_github_binary_upload.py:49-57 | the same decoder without the emptiness guard: an empty first payload is handed to the parser |
| EventStream.DecodersAgree | demo/test_github_binary_upload.py:49-57 | with a parser that rejects "", the two decoders parse the same bodies to the same values |
| EventStream.FramePayload | demo/pages/4_Analyze_Engagement.py:284-293 | the payload of a framed `event:`/`data:` event is read back unchanged |
| EventStream.SseFramingEquivalence | demo/pages/4_Analyze_Engagement.py:284-298 | decoding a one-line JSON text framed as an event stream gives what decoding it as plain JSON gives |
| JsonValue.In | demo/pages/4_Analyze_Engagement.py:303 | Python `in`: key test on dicts, element test on lists, substring test on strings, raises on null, booleans and numbers |
| JsonValue.Get | demo/pages/4_Analyze_Engagement.py:307 | `.get(key, default)` raises on non-dicts, else gives the member or the default |
| JsonValue.ResultOfShape | demo/pages/4_Analyze_Engagement.py:303-309 | the `error` check and `.get("result", {})` give a result exactly for an object without `error`, namely its `result` member or `{}` |
| Rpc.EnvelopeJson | demo/pages/2_Voice_With_Llama.py:122-125 | the wire object has `jsonrpc` "2.0" and `method`; it has `id` iff the envelope has one and `params` iff it has params |
| Rpc.InitializeEnvelope | demo/pages/4_Analyze_Engagement.py:172-186 | `initialize` has id 0, protocol version 2024-11-05 and the client's name and version 1.0.0 |
| Rpc.ToolCallEnvelope | demo/pages/4_Analyze_Engagement.py:246-254 | a `tools/call` carries the tool name and its arguments |
| Rpc.SessionHeaders | demo/pages/4_Analyze_Engagement.py:256-263 | Content-Type and Accept are always set; `mcp-session-id` is present iff a non-empty id is stored, and carries it |
| Rpc.CapturedSessionId | demo/pages/4_Analyze_Engagement.py:202-205 | the stored id becomes the reply's header (or None) whatever the status; a transport failure keeps the old id |
| Rpc.Transport.Post | demo/pages/4_Analyze_Engagement.py:269-274 | a POST gets the next canned reply and is logged |
| EngagementClient.InitializeRequest | demo/pages/4_Analyze_Engagement.py:171-198 | the handshake request: the `initialize` envelope of the client, no session header, 30 s |
| EngagementClient.ToolTimeout | demo/pages/4_Analyze_Engagement.py:266 | 120 s exactly for `create_branch`, `create_or_update_file` and `list_branches`, 60 s otherwise |
| EngagementClient.ToolRequest | demo/pages/4_Analyze_Engagement.py:246-274 | a tool request has id 1, the session headers and the per-tool timeout |
| EngagementClient.AcceptsStreamWithoutData | demo/pages/4_Analyze_Engagement.py:207-221 | a 200 event-stream handshake reply without any data line is a successful handshake |
| EngagementClient.InitializeAccepted | demo/pages/4_Analyze_Engagement.py:207-228 | the handshake succeeds only on status 200; then a plain body must parse, and an event stream passes when it has no data line or its first data payload parses |
| EngagementClient.CallOutcome | demo/pages/4_Analyze_Engagement.py:278-316 | a call returns a value iff the status is 200, the body decodes to an object and that object has no `error`; the value is the whole `result` (default `{}`) |
| EngagementClient.ReadToolReply | demo/pages/4_Analyze_Engagement.py:278-316 | the reply handling returns exactly `CallOutcome` |
| EngagementClient.GithubSession.Initialize | demo/pages/4_Analyze_Engagement.py:165-228 | one `initialize` POST; the session id is captured before the status check; success iff status 200 and the decoder does not raise |
| EngagementClient.GithubSession.CallTool | demo/pages/4_Analyze_Engagement.py:230-316 | handshake only while not initialized; flag set only on handshake success; a failed handshake returns None and sends no `tools/call`; otherwise one tool request with the current session headers whose outcome is `CallOutcome`; at most one handshake ever succeeds |
| BranchNames.NamesFromLines | demo/pages/4_Analyze_Engagement.py:421-427 | at most one name per line; a name is collected iff some line is a `name:` line giving it, whatever the other lines hold |
| BranchNames.TextNames | demo/pages/4_Analyze_Engagement.py:421-437 | a text with `name:` (any case) gives the names of its name lines; otherwise one name at most: the wanted name if the text contains it, else the first word, and none for a blank text |
| BranchNames.NameLinesOf | demo/pages/4_Analyze_Engagement.py:421-427 | the inner line loop collects exactly `NamesFromLines` |
| BranchNames.ItemNames | demo/pages/4_Analyze_Engagement.py:415-437 | one content item contributes the names of its text (raising iff its `text` member is not a string) and nothing without text |
| BranchNames.ItemBranchNames | demo/pages/4_Analyze_Engagement.py:414-437 | the body of the outer loop computes exactly `ItemNames` for one item |
| BranchNames.CollectedNames | demo/pages/4_Analyze_Engagement.py:412-437 | collecting raises iff some item raises |
| BranchNames.CollectBranchNames | demo/pages/4_Analyze_Engagement.py:412-437 | the nested collection loops compute exactly `CollectedNames` |
| BranchNames.BranchListed | demo/pages/4_Analyze_Engagement.py:405-458 | the branch exists iff the result is a truthy object with a `content` list whose collected names include the wanted name; missing, non-list or raising content gives false |
| BranchNames.NameLineOf | demo/pages/4_Analyze_Engagement.py:425-426 | a "name: b" line is a name line whose name is b |
| BranchNames.ListingRoundTrip | demo/pages/4_Analyze_Engagement.py:405-447 | for a listing of branches `bs` as "name: b" lines, a branch is reported as existing exactly when it is one of `bs` |
| Text.Split | demo/pages/2_Voice_With_Llama.py:340 | `str.split(sep)` gives at least one piece |
| Text.SplitPieces | demo/pages/2_Voice_With_Llama.py:340 | no piece of a split contains the separator |
| Text.SplitJoin | demo/pages/2_Voice_With_Llama.py:340 | joining the pieces of a split with the separator gives back the text |
| Text.LastPieceAfterMarker | demo/pages/2_Voice_With_Llama.py:340 | the last piece of a split on a non-self-overlapping marker is the text after its last occurrence |
| Text.StripFacts | demo/pages/4_Analyze_Engagement.py:286 | `strip()` removes exactly the leading and trailing whitespace |
| Text.FirstWord | demo/pages/4_Analyze_Engagement.py:433-437 | `split()[0]`: absent iff the text is all whitespace, else the non-empty whitespace-free word at the first non-space position, ending at whitespace or at the end of the text |
| Text.Slug | demo/pages/4_Analyze_Engagement.py:503 | `lower().replace(' ', joiner)` keeps the length and leaves no space |
| EngagementStore.Repeat | demo/pages/4_Analyze_Engagement.py:462 | `range(max_retries)` gives max(0, n) identical attempts |
| EngagementStore.RunExtend | demo/pages/4_Analyze_Engagement.py:462-475 | one more attempt after a failed one keeps the chain in order, stopping at the first truthy result |
| EngagementStore.CheckBranchExists | demo/pages/4_Analyze_Engagement.py:393-458 | one `list_branches` call for the owner and repository, answered by `BranchListed` |
| EngagementStore.CreateBranchWithRetry | demo/pages/4_Analyze_Engagement.py:460-487 | the `create_branch` calls are the first attempts of max(0, n) identical ones, every one but the last failed, the result is true iff the last succeeded, and a false result means all n were made (none for n <= 0) |
| EngagementStore.Try | demo/pages/4_Analyze_Engagement.py:601-611 | one upload call is logged and succeeds iff its result is truthy |
| EngagementStore.UploadReport | demo/pages/4_Analyze_Engagement.py:552-567 | one `create_or_update_file` call for the report in the dated folder on the branch; success iff its result is truthy |
| EngagementStore.UploadChain | demo/pages/4_Analyze_Engagement.py:591-637 | the four uploads are tried in fixed order and the chain stops at the first truthy result |
| EngagementStore.ImageAttempts | demo/pages/4_Analyze_Engagement.py:591-637 | four attempts in order: the standard upload to `<folder>/<image>_<ts>.jpg` on the branch, the same with `encoding: base64`, the same arguments with `create_file`, and the `.b64` path with its own message |
| EngagementStore.StoreImage | demo/pages/4_Analyze_Engagement.py:573-661 | an unreadable image makes no call and fails; a readable one runs its four-step fallback chain (plain, `encoding: base64`, `create_file`, `.b64` path) |
| EngagementStore.StoredNames | demo/pages/4_Analyze_Engagement.py:563-730 | `uploaded_files` holds one name per successful upload |
| EngagementStore.RecordUploads | demo/pages/4_Analyze_Engagement.py:563-730 | the appends to `uploaded_files` and `upload_errors` compute exactly `StoredNames` and `UploadErrors` |
| EngagementStore.ValidationOf | demo/pages/4_Analyze_Engagement.py:758-769 | at most one validation entry per uploaded file (which files, and with which URLs, is stated by `ValidationEntries` and `ValidatedImages`) |
| EngagementStore.ValidationEntries | demo/pages/4_Analyze_Engagement.py:758-769 | every validation entry is an uploaded `.jpg` name with its raw and blob URLs |
| EngagementStore.BuildValidationInfo | demo/pages/4_Analyze_Engagement.py:758-769 | the validation loop computes exactly `ValidationOf` |
| EngagementStore.Summary | demo/pages/4_Analyze_Engagement.py:754-785 | success iff at least one file was uploaded |
| EngagementStore.Summarize | demo/pages/4_Analyze_Engagement.py:754-785 | the result assembly computes exactly `Summary` |
| EngagementStore.NameSuffixes | demo/pages/4_Analyze_Engagement.py:761 | the report name does not end in `.jpg`; the image names do |
| EngagementStore.ValidatedImages | demo/pages/4_Analyze_Engagement.py:758-769 | the validation list names exactly the uploaded images, in order |
| EngagementStore.SummaryOfUploads | demo/pages/4_Analyze_Engagement.py:754-785 | success iff any of the three uploads succeeded; `partial` iff not all three did; `validation_info` lists exactly the uploaded images |
| EngagementStore.ChosenBranch | demo/pages/4_Analyze_Engagement.py:503-518 | the branch falls back to `main` only when it was absent and creation failed |
| EngagementStore.PrepareBranch | demo/pages/4_Analyze_Engagement.py:503-518 | one `list_branches` call; creation is attempted only for a branch not listed; the branch is `ChosenBranch` |
| EngagementStore.UploadAll | demo/pages/4_Analyze_Engagement.py:550-751 | the report upload, then each image's chain; the uploaded names and errors follow the outcomes |
| EngagementStore.StoreAnalysis | demo/pages/4_Analyze_Engagement.py:489-789 | no call at all when the server is unreachable; otherwise exactly these calls in order: `list_branches`, the `create_branch` retries (none when the branch is listed), the report upload, and each readable image's fallback chain, all on `ChosenBranch` in `events/<event>`; every outcome is the truthiness of its call's result, and the summary follows from the branch choice and those outcomes |
| VoiceClient.InitializeRequest | demo/pages/2_Voice_With_Llama.py:42-68 | the handshake request: the `initialize` envelope of the voice client, no session header, 30 s |
| VoiceClient.NotificationRequest | demo/pages/2_Voice_With_Llama.py:121-144 | the follow-up message is the `notifications/initialized` Notification (no `id`, no params) with the session headers: the header iff a non-empty id was captured, carrying that id; 30 s |
| VoiceClient.ToolRequest | demo/pages/2_Voice_With_Llama.py:183-211 | a tool request has id 1, the session headers and 60 s |
| VoiceClient.HandshakeReplyAccepted | demo/pages/2_Voice_With_Llama.py:84-118 | only a status-200 reply is accepted; a blank one always; a plain one iff it parses; an event stream iff its first data payload is non-empty and parses |
| VoiceClient.AcceptsBlankReply | demo/pages/2_Voice_With_Llama.py:83-119 | a 200 reply with a whitespace-only body is accepted without decoding |
| VoiceClient.RejectsStreamWithoutData | demo/pages/2_Voice_With_Llama.py:87-104 | a non-blank event stream without a data line fails this handshake, though the engagement handshake accepts it |
| VoiceClient.StricterOnNonBlankReplies | demo/pages/2_Voice_With_Llama.py:84-116 | on non-blank replies, whatever this handshake accepts the engagement handshake accepts too |
| VoiceClient.ContentOutcome | demo/pages/2_Voice_With_Llama.py:216-274 | a value iff status 200, the body decodes to an object without `error` and with an object `result` (if any); the value is `result.content`, default `[]` |
| VoiceClient.ReadContentReply | demo/pages/2_Voice_With_Llama.py:216-274 | the reply handling returns exactly `ContentOutcome` |
| VoiceClient.SlidesSession.Initialize | demo/pages/2_Voice_With_Llama.py:36-157 | the id is captured before the status check; an unaccepted reply sends nothing more and fails; an accepted one sends exactly one Notification and succeeds iff that gets any response |
| VoiceClient.SlidesSession.CallTool | demo/pages/2_Voice_With_Llama.py:163-274 | handshake only while not initialized; flag set only on handshake success; on failure None and no `tools/call`; otherwise one tool request whose outcome is `ContentOutcome` |
| Text.TitleChar | demo/pages/2_Voice_With_Llama.py:312 | a letter is upper-cased after a non-letter and lower-cased after a letter; any other character is kept |
| Text.Title | demo/pages/2_Voice_With_Llama.py:312 | `title()` keeps the length and maps each character by `TitleChar`, according to whether the character before it is a letter |
| VoiceSlides.PresentationTitle | demo/pages/2_Voice_With_Llama.py:312 | the title is "Discover " followed by the title-cased place |
| VoiceSlides.InfoOf | demo/pages/2_Voice_With_Llama.py:326 | the first element of a list result, the result itself otherwise; an empty list raises |
| VoiceSlides.PresentationIdOf | demo/pages/2_Voice_With_Llama.py:326-352 | the `presentationId` member wins; otherwise a string result, or an object's string `text`, gives the slice after the last `ID: ` up to the newline when the marker is present and nothing when it is absent; the lookup raises exactly on an empty list or a non-string `text` that the marker test does not reject |
| VoiceSlides.IdSliceRoundTrip | demo/pages/2_Voice_With_Llama.py:340 | the slice after the last "ID: " up to the newline reads back the id written there |
| VoiceSlides.IdSliceAtEnd | demo/pages/2_Voice_With_Llama.py:345 | the same for an id that ends the text |
| VoiceSlides.IdFromTextItem | demo/pages/2_Voice_With_Llama.py:326-340 | a text content item announcing "ID: x" first in a list result yields x |
| VoiceSlides.SlideIdsDistinct | demo/pages/2_Voice_With_Llama.py:368-369 | the title and content slide ids differ and hold no space |
| VoiceSlides.BatchArgs | demo/pages/2_Voice_With_Llama.py:368-401 | the batch update names the presentation and creates the title slide at index 1 and the body slide at index 2 |
| VoiceSlides.SlidesVerdict | demo/pages/2_Voice_With_Llama.py:306-416 | created or partly created iff a truthy id was found and content generated; created iff the update result is truthy too |
| VoiceSlides.CreateSlidesForPlace | demo/pages/2_Voice_With_Llama.py:306-416 | always one `create_presentation`; a `batch_update_presentation` with the found id iff the flow reaches it; no update without an id |
| VoiceSlides.DetectSlideCreationIntent | demo/pages/2_Voice_With_Llama.py:31-34 | the detector never finds a place |
| VoiceSlides.RouteOf | demo/pages/2_Voice_With_Llama.py:583-607 | every prompt goes to the chat model, so the slide path is never taken |
| BinaryUploadTest.CallRequest | demo/test_github_binary_upload.py:24-42 | `tools/call` with id 1, no session header, 60 s |
| BinaryUploadTest.BinaryCall | demo/test_github_binary_upload.py:44-67 | a value iff status 200 and the first payload or body parses to an object without `error`; the value is that object's `result`, `{}` when absent; an unbound value on a data-less stream is None |
| BinaryUploadTest.SameAsClientCall | demo/test_github_binary_upload.py:21-67 | with a parser that rejects "", the script's call returns what the engagement client's call returns |
| BinaryUploadTest.CallTool | demo/test_github_binary_upload.py:21-67 | one POST, no handshake; the result is `BinaryCall` of the reply |
| BinaryUploadTest.TestMethods | demo/test_github_binary_upload.py:85-136 | four methods, each uploading to the path it reports |
| BinaryUploadTest.Requests | demo/test_github_binary_upload.py:140-145 | one `tools/call` request per method, in method order, naming its tool and parameters |
| BinaryUploadTest.ResultFor | demo/test_github_binary_upload.py:147-167 | an entry is a success iff the result is truthy, and then it carries the raw and blob URLs of its path on the test branch |
| BinaryUploadTest.Outcomes | demo/test_github_binary_upload.py:140-167 | one entry per method, in method order: entry k carries method k's name and, when it succeeded, the raw and blob URLs of method k's path; the first is the result of the first reply for the first method |
| BinaryUploadTest.RunMethods | demo/test_github_binary_upload.py:140-167 | every method is tried exactly once, in order, and `results` has one entry per method in that order |
| BinaryUploadTest.TestBinaryUploadMethods | demo/test_github_binary_upload.py:75-167 | the four methods are tried in order, four entries |
| BinaryUploadTest.Successful | demo/test_github_binary_upload.py:172 | `successful_methods` keeps at most all entries (its members, its order and the split are stated by `PartitionMembers`, `SuccessfulInOrder` and `Partition`) |
| BinaryUploadTest.Failed | demo/test_github_binary_upload.py:173 | `failed_methods` keeps at most all entries (its members, its order and the split are stated by `PartitionMembers`, `FailedInOrder` and `Partition`) |
| BinaryUploadTest.SuccessfulInOrder | demo/test_github_binary_upload.py:172 | the successes appear in `results` at strictly increasing positions, so the filter keeps their order |
| BinaryUploadTest.FailedInOrder | demo/test_github_binary_upload.py:173 | the failures appear in `results` at strictly increasing positions, so the filter keeps their order |
| BinaryUploadTest.PartitionMembers | demo/test_github_binary_upload.py:172-173 | the successes are successful entries and the failures failed ones |
| BinaryUploadTest.Partition | demo/test_github_binary_upload.py:172-173 | successes and failures together hold every entry exactly once |
| BinaryUploadTest.FirstCheckedUrl | demo/test_github_binary_upload.py:185-187 | a URL is fetched iff some method succeeded |
| BinaryUploadTest.FirstSuccessIsEarliest | demo/test_github_binary_upload.py:185 | the checked entry is the earliest success |
| BinaryUploadTest.NoSuccessNoUpload | demo/test_github_binary_upload.py:172-175 | when `successful_methods` is empty, no entry is an upload |
| ConnectionTest.ListRequest | demo/test_mcp_connection.py:19-33 | `tools/list` with id 1, no params, 10 s |
| ConnectionTest.ToolsRaise | demo/test_mcp_connection.py:60-61 | iterating `tools` and calling `.get` raises for null, booleans and numbers, for a list with a non-object element, and for a non-empty string or object; an all-object list passes |
| ConnectionTest.ListingRaises | demo/test_mcp_connection.py:59-61 | the listing raises on a null, boolean or number; never on an object without `result`; on a list iff it holds the string `"result"`; and, for an object `result`, iff it has `tools` and iterating them raises |
| ConnectionTest.PrintToolListing | demo/test_mcp_connection.py:59-63 | the listing raises exactly when `ListingRaises` says |
| ConnectionTest.ConnectionVerdict | demo/test_mcp_connection.py:12-87 | passes iff the reply has status 200, the body decodes and the listing does not raise; escapes exactly on a transport failure or a raising listing |
| ConnectionTest.CorrectedConnectionVerdict | demo/test_mcp_connection.py:12-87 | never escapes; passes iff status 200, the body decodes and the listing does not raise |
| ConnectionTest.TransportFailureEscapes | demo/test_mcp_connection.py:75-87 | a refused connection escapes as written and fails when corrected |
| ConnectionTest.NamedToolsEscape | demo/test_mcp_connection.py:59-61 | tools listed as plain names escape as written |
| ConnectionTest.CorrectionOnlyCatches | demo/test_mcp_connection.py:66-87 | the correction changes only the escapes, which become failures; both pass on the same replies |
| ConnectionTest.TestMcpConnection | demo/test_mcp_connection.py:12-87 | one `tools/list` POST; true iff the corrected verdict passes |
| ConnectionTest.PresentationRequest | demo/test_mcp_connection.py:94-114 | id 2, `tools/call` of `create_presentation` titled "MCP Test Presentation", no session header, 30 s |
| ConnectionTest.PresentationVerdict | demo/test_mcp_connection.py:116-128 | passes only on status 200, and then iff the whole body parses as JSON, event stream or not |
| ConnectionTest.TestCreatePresentation | demo/test_mcp_connection.py:89-128 | one `create_presentation` POST; true iff status 200 and the whole body parses |
| ConnectionTest.RunChecks | demo/test_mcp_connection.py:130-143 | the presentation check runs iff the connection check passed |

## Left out

- Streamlit layout, session state, audio, the language-model calls (ollama), speech recognition and text to speech: UI and foreign libraries. The page-level files `demo/pages/1_Chat_With_Llama.py`, `demo/pages/2_Describe_A_Picture.py` and `demo/pages/3_Analyze_Mood.py` are not part of this model.
- `demo/test_auto_conversion.py` and `demo/view_logs.py` are not part of this model: thin I/O and printing.
- Real HTTP, the JSON parser and base64 are abstract. The transport is a canned reply queue; the parser is a parameter; image contents are opaque strings.
- `convert_base64_to_binary_image` is not modelled: its result is only logged.
- `test_github_mcp_connection` is the boolean parameter `reachable` of `EngagementStore.StoreAnalysis`: it is network probes only.
- Timestamps, the report text and the generated slide content are parameters (`ts`, `report`, `content`). Reading an image file is the `ImageRead` parameter: its content or an error text.
- The verification GET of the probe script and every print and log line.
- `EngagementStore.StoreAnalysis`: the `Analysis report error: …` handler and the outer `except` of `store_engagement_analysis_to_github` (`demo/pages/4_Analyze_Engagement.py:787-789`) are not modelled. In the model the calls they guard cannot raise, so neither can be reached.
- `VoiceSlides.SlidesVerdict`: the result messages are constructors, not the formatted strings. In particular the presentation URL of the success message is omitted.
- `Text.Lower` and `Text.Title` only map ASCII letters; Python's full Unicode case mapping is not modelled.
- Reply header lookup in `requests` is case-insensitive. Reply headers here are keyed by lower-case names.
- JSON numbers are reals; nothing in the clients depends on number formatting.
- Concurrency: the page globals are unguarded, but every call site runs sequentially.
- `ConnectionTest.TestMcpConnection` and `ConnectionTest.RunChecks` use the corrected verdict: the as-written verdict, whose escapes end the script, is `ConnectionTest.ConnectionVerdict`.

## Findings

| source | as written | input that shows it | evidently intended | confidence | as-written member | corrected member |
|---|---|---|---|---|---|---|
| demo/test_mcp_connection.py:75 | the first outer handler names `requests.exceptions.ConnectException`, which `requests` does not define; evaluating that clause raises `AttributeError`, so no exception reaching the outer handlers is turned into `False` | a refused connection, or a 200 reply whose `result.tools` is `["create_presentation"]` (`.get` on a string raises) | every exception makes the check print an error and return `False` | not executed | ConnectionTest.ConnectionVerdict (with ConnectionTest.TransportFailureEscapes, ConnectionTest.NamedToolsEscape) | ConnectionTest.CorrectedConnectionVerdict (with ConnectionTest.CorrectionOnlyCatches) |
