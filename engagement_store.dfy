/** The decision logic of the engagement page's GitHub storage
    (`check_branch_exists`, `create_branch_with_retry` and
    `store_engagement_analysis_to_github`): pick or create the branch, upload
    the report and the two images with their fallback chains, and summarise
    what was stored. */
module EngagementStore {
  import opened Optional
  import opened Text
  import opened JsonValue
  import opened Rpc
  import opened EngagementClient
  import opened BranchNames

  const Owner: string := "linsun"
  const DefaultRetries: int := 2
  const FallbackBranch: string := "main"

  /** One tool call a chain may make: the tool and its arguments. */
  datatype Attempt = Attempt(tool: string, args: Json)

  /** The calls in `made` are the first attempts of `attempts`, in order. */
  ghost predicate Follows(made: seq<ToolCall>, attempts: seq<Attempt>) {
    && |made| <= |attempts|
    && (forall k :: 0 <= k < |made| ==> made[k].tool == attempts[k].tool && made[k].args == attempts[k].args)
  }

  /** Every call of `made` but the last one failed. */
  ghost predicate FailedBeforeLast(made: seq<ToolCall>) {
    forall k :: 0 <= k < |made| - 1 ==> !TruthyOpt(made[k].result)
  }

  /** `made` is the log of a chain that tries `attempts` in order and stops
      at the first truthy result: it follows the attempts, every call but
      the last failed, `ok` says whether the last succeeded, and a chain that
      did not succeed ran through every attempt. */
  ghost predicate FirstSuccessRun(made: seq<ToolCall>, attempts: seq<Attempt>, ok: bool) {
    && Follows(made, attempts)
    && FailedBeforeLast(made)
    && (ok <==> made != [] && TruthyOpt(made[|made| - 1].result))
    && (!ok ==> |made| == |attempts|)
  }

  /** One more attempt after a failed one keeps the chain in order. */
  lemma RunExtend(made: seq<ToolCall>, attempts: seq<Attempt>, result: Option<Json>)
    requires Follows(made, attempts) && FailedBeforeLast(made) && |made| < |attempts|
    requires made != [] ==> !TruthyOpt(made[|made| - 1].result)
    ensures Follows(made + [ToolCall(attempts[|made|].tool, attempts[|made|].args, result)], attempts)
    ensures FailedBeforeLast(made + [ToolCall(attempts[|made|].tool, attempts[|made|].args, result)])
  {
    var m := made + [ToolCall(attempts[|made|].tool, attempts[|made|].args, result)];
    forall k | 0 <= k < |m| - 1
      ensures !TruthyOpt(m[k].result)
    {
      assert m[k] == made[k];
    }
  }

  /** `n` copies of one attempt (`range(n)` is empty for `n <= 0`). */
  function Repeat(a: Attempt, n: int): (r: seq<Attempt>)
    ensures |r| == if n > 0 then n else 0
    ensures forall k :: 0 <= k < |r| ==> r[k] == a
  {
    if n <= 0 then [] else Repeat(a, n - 1) + [a]
  }

  function ListBranchesArgs(repo: string): Json {
    Obj(map["owner" := Str(Owner), "repo" := Str(repo)])
  }

  function CreateBranchArgs(repo: string, branch: string): Json {
    Obj(map["repo" := Str(repo), "owner" := Str(Owner), "branch" := Str(branch), "from_branch" := Str("main")])
  }

  /** The arguments of a file upload. */
  function FileArgs(repo: string, path: string, content: string, message: string, branch: string): Json {
    Obj(map["owner" := Str(Owner), "repo" := Str(repo), "path" := Str(path),
            "content" := Str(content), "message" := Str(message), "branch" := Str(branch)])
  }

  /** `check_branch_exists`: one `list_branches` call, read by
      `BranchListed`. */
  method CheckBranchExists(session: GithubSession, repo: string, branch: string) returns (listed: bool)
    requires session.Valid()
    modifies session, session.transport
    ensures session.Valid()
    ensures |session.calls| == |old(session.calls)| + 1
    ensures session.calls == old(session.calls)
      + [ToolCall("list_branches", ListBranchesArgs(repo), session.calls[|old(session.calls)|].result)]
    ensures listed == BranchListed(session.calls[|old(session.calls)|].result, branch)
  {
    var result := session.CallTool("list_branches", ListBranchesArgs(repo));
    listed := false;
    if result.Some? && Truthy(result.value) {
      var r := result.value;
      if In("content", r) == Some(true) {
        var content := Index(r, "content");
        if content.Some? && content.value.Arr? {
          var names := CollectBranchNames(content.value.items, branch);
          listed := names.Some? && branch in names.value;
        }
      }
    }
  }

  /** `create_branch_with_retry`: at most `maxRetries` `create_branch`
      calls, stopping at the first truthy result. */
  method CreateBranchWithRetry(session: GithubSession, repo: string, branch: string, maxRetries: int)
    returns (created: bool, ghost made: seq<ToolCall>)
    requires session.Valid()
    modifies session, session.transport
    ensures session.Valid()
    ensures session.calls == old(session.calls) + made
    ensures FirstSuccessRun(made, Repeat(Attempt("create_branch", CreateBranchArgs(repo, branch)), maxRetries), created)
  {
    var a := Attempt("create_branch", CreateBranchArgs(repo, branch));
    ghost var attempts := Repeat(a, maxRetries);
    created, made := false, [];
    var attempt := 0;
    while attempt < maxRetries
      invariant session.Valid()
      invariant 0 <= attempt <= |attempts| && |made| == attempt
      invariant session.calls == old(session.calls) + made
      invariant Follows(made, attempts) && FailedBeforeLast(made)
      invariant made != [] ==> !TruthyOpt(made[|made| - 1].result)
      invariant !created
    {
      var ok;
      ghost var result;
      ok, result := Try(session, a);
      RunExtend(made, attempts, result);
      made := made + [ToolCall(a.tool, a.args, result)];
      if ok {
        created := true;
        break;
      }
      attempt := attempt + 1;
    }
  }

  /** Which of the two images. */
  datatype Slot = First | Second {
    function Label(): string {
      match this
      case First => "image1"
      case Second => "image2"
    }
    function Ordinal(): string {
      match this
      case First => "first"
      case Second => "second"
    }
  }

  /** The file name an image is recorded under. */
  function ImageName(slot: Slot, ts: string): string {
    slot.Label() + "_" + ts + ".jpg"
  }

  function ReportName(ts: string): string {
    "analysis_report_" + ts + ".md"
  }

  /** The four uploads tried for one image, in order: the standard call, the
      same with `encoding: base64`, the `create_file` tool, and a `.b64`
      copy. */
  function ImageAttempts(repo: string, eventName: string, folder: string, branch: string,
                         ts: string, slot: Slot, content: string): (a: seq<Attempt>)
    ensures |a| == 4
    ensures a[0].tool == a[1].tool == a[3].tool == "create_or_update_file" && a[2].tool == "create_file"
    ensures a[2].args == a[0].args
    ensures a[1].args.Obj? && a[0].args.Obj?
    ensures a[1].args.fields == a[0].args.fields["encoding" := Str("base64")]
    ensures a[0].args == FileArgs(repo, folder + "/" + ImageName(slot, ts), content,
                                  "Add " + slot.Ordinal() + " engagement image for " + eventName, branch)
    ensures a[3].args == FileArgs(repo, folder + "/" + ImageName(slot, ts) + ".b64", content,
                                  "Add " + slot.Ordinal() + " engagement image (base64) for " + eventName, branch)
  {
    var path := folder + "/" + ImageName(slot, ts);
    var message := "Add " + slot.Ordinal() + " engagement image for " + eventName;
    var standard := FileArgs(repo, path, content, message, branch);
    [ Attempt("create_or_update_file", standard),
      Attempt("create_or_update_file", Obj(standard.fields["encoding" := Str("base64")])),
      Attempt("create_file", standard),
      Attempt("create_or_update_file",
              FileArgs(repo, path + ".b64", content,
                       "Add " + slot.Ordinal() + " engagement image (base64) for " + eventName, branch)) ]
  }

  /** What reading an image file gave: its base64 text, or the message of
      the exception that reading raised. */
  datatype ImageRead = Loaded(content: string) | Unreadable(reason: string)

  /** One upload call whose result only matters for its truthiness. */
  method Try(session: GithubSession, a: Attempt) returns (ok: bool, ghost result: Option<Json>)
    requires session.Valid()
    modifies session, session.transport
    ensures session.Valid()
    ensures session.calls == old(session.calls) + [ToolCall(a.tool, a.args, result)]
    ensures ok == TruthyOpt(result)
  {
    var r := session.CallTool(a.tool, a.args);
    ok, result := TruthyOpt(r), r;
  }

  /** The four-step fallback chain of an image upload: each attempt is made
      only when the ones before it failed. */
  method UploadChain(session: GithubSession, attempts: seq<Attempt>) returns (ok: bool, ghost made: seq<ToolCall>)
    requires session.Valid() && |attempts| == 4
    modifies session, session.transport
    ensures session.Valid()
    ensures session.calls == old(session.calls) + made
    ensures FirstSuccessRun(made, attempts, ok)
  {
    ghost var r;
    ok, r := Try(session, attempts[0]);
    RunExtend([], attempts, r);
    made := [ToolCall(attempts[0].tool, attempts[0].args, r)];
    if !ok {
      ok, r := Try(session, attempts[1]);
      RunExtend(made, attempts, r);
      made := made + [ToolCall(attempts[1].tool, attempts[1].args, r)];
    }
    if !ok {
      ok, r := Try(session, attempts[2]);
      RunExtend(made, attempts, r);
      made := made + [ToolCall(attempts[2].tool, attempts[2].args, r)];
    }
    if !ok {
      ok, r := Try(session, attempts[3]);
      RunExtend(made, attempts, r);
      made := made + [ToolCall(attempts[3].tool, attempts[3].args, r)];
    }
  }

  /** The upload of one image: nothing when the file cannot be read,
      otherwise the fallback chain. */
  method StoreImage(session: GithubSession, repo: string, eventName: string, folder: string,
                    branch: string, ts: string, slot: Slot, image: ImageRead)
    returns (ok: bool, ghost made: seq<ToolCall>)
    requires session.Valid()
    modifies session, session.transport
    ensures session.Valid()
    ensures session.calls == old(session.calls) + made
    ensures image.Unreadable? ==> !ok && made == []
    ensures image.Loaded? ==>
      FirstSuccessRun(made, ImageAttempts(repo, eventName, folder, branch, ts, slot, image.content), ok)
  {
    if image.Unreadable? {
      return false, [];
    }
    ok, made := UploadChain(session, ImageAttempts(repo, eventName, folder, branch, ts, slot, image.content));
  }

  /** The files a run stored, in upload order. */
  function StoredNames(ts: string, report: bool, image1: bool, image2: bool): (files: seq<string>)
    ensures |files| == (if report then 1 else 0) + (if image1 then 1 else 0) + (if image2 then 1 else 0)
  {
    (if report then [ReportName(ts)] else [])
    + (if image1 then [ImageName(First, ts)] else [])
    + (if image2 then [ImageName(Second, ts)] else [])
  }

  /** The error messages of a run, in upload order. */
  function UploadErrors(report: bool, image1: ImageRead, ok1: bool, image2: ImageRead, ok2: bool): seq<string> {
    (if report then [] else ["Analysis report upload failed"])
    + ImageErrors("First", image1, ok1) + ImageErrors("Second", image2, ok2)
  }

  function ImageErrors(which: string, image: ImageRead, ok: bool): seq<string> {
    match image
    case Unreadable(reason) => [which + " image error: " + reason]
    case Loaded(_) => if ok then [] else [which + " image upload failed"]
  }

  /** One entry of `validation_info`. */
  datatype Validation = Validation(file: string, rawUrl: string, blobUrl: string)

  function RawUrl(repo: string, branch: string, folder: string, file: string): string {
    "https://raw.githubusercontent.com/" + Owner + "/" + repo + "/" + branch + "/" + folder + "/" + file
  }

  function BlobUrl(repo: string, branch: string, folder: string, file: string): string {
    "https://github.com/" + Owner + "/" + repo + "/blob/" + branch + "/" + folder + "/" + file
  }

  /** `validation_info`: a raw and a blob URL for every stored `.jpg` file,
      in upload order. */
  function ValidationOf(repo: string, branch: string, folder: string, files: seq<string>): (v: seq<Validation>)
    ensures |v| <= |files|
  {
    if files == [] then []
    else
      var last := files[|files| - 1];
      ValidationOf(repo, branch, folder, files[..|files| - 1])
      + (if EndsWith(last, ".jpg")
         then [Validation(last, RawUrl(repo, branch, folder, last), BlobUrl(repo, branch, folder, last))]
         else [])
  }

  /** Every validation entry is a stored `.jpg` file with its two URLs. */
  lemma {:induction false} ValidationEntries(repo: string, branch: string, folder: string, files: seq<string>)
    ensures forall e :: e in ValidationOf(repo, branch, folder, files) ==> (e.file in files && EndsWith(e.file, ".jpg")
      && e.rawUrl == RawUrl(repo, branch, folder, e.file) && e.blobUrl == BlobUrl(repo, branch, folder, e.file))
  {
    if files != [] {
      var init := files[..|files| - 1];
      ValidationEntries(repo, branch, folder, init);
      assert forall f :: f in init ==> f in files;
    }
  }

  /** The loop that fills `validation_info`. */
  method BuildValidationInfo(repo: string, branch: string, folder: string, files: seq<string>)
    returns (info: seq<Validation>)
    ensures info == ValidationOf(repo, branch, folder, files)
  {
    info := [];
    var i := 0;
    while i < |files|
      invariant 0 <= i <= |files|
      invariant info == ValidationOf(repo, branch, folder, files[..i])
    {
      var name := files[i];
      assert files[..i + 1][..i] == files[..i];
      if EndsWith(name, ".jpg") {
        info := info + [Validation(name, RawUrl(repo, branch, folder, name), BlobUrl(repo, branch, folder, name))];
      }
      i := i + 1;
    }
    assert files[..i] == files;
  }

  /** What `store_engagement_analysis_to_github` returns. */
  datatype StoreResult =
    | Unreachable
    | Stored(branch: string, folder: string, files: seq<string>, partial: bool,
             errors: seq<string>, validation: seq<Validation>)
    | AllUploadsFailed(errors: seq<string>)

  /** The returned dict once the uploads are done. */
  function Summary(repo: string, branch: string, folder: string, files: seq<string>, errors: seq<string>): (r: StoreResult)
    ensures r.Stored? <==> files != []
    ensures r.AllUploadsFailed? <==> files == []
  {
    if |files| > 0 then
      Stored(branch, folder, files, |files| < 3, errors, ValidationOf(repo, branch, folder, files))
    else AllUploadsFailed(errors)
  }

  /** The names of the validated files. */
  function Files(v: seq<Validation>): (names: seq<string>)
    ensures |names| == |v|
  {
    if v == [] then [] else Files(v[..|v| - 1]) + [v[|v| - 1].file]
  }

  /** A report name never ends in `.jpg`; an image name always does. */
  lemma NameSuffixes(ts: string, slot: Slot)
    ensures !EndsWith(ReportName(ts), ".jpg")
    ensures EndsWith(ImageName(slot, ts), ".jpg")
  {
    var r := ReportName(ts);
    assert r[|r| - 3] == '.';
    var n := ImageName(slot, ts);
    assert n[|n| - 4..] == ".jpg";
  }

  /** Validating a list of names with one more name at the end. */
  lemma ValidationSnoc(repo: string, branch: string, folder: string, files: seq<string>, f: string)
    ensures Files(ValidationOf(repo, branch, folder, files + [f]))
      == Files(ValidationOf(repo, branch, folder, files)) + (if EndsWith(f, ".jpg") then [f] else [])
  {
    assert (files + [f])[..|files|] == files;
    var v := ValidationOf(repo, branch, folder, files);
    if EndsWith(f, ".jpg") {
      var e := Validation(f, RawUrl(repo, branch, folder, f), BlobUrl(repo, branch, folder, f));
      assert ValidationOf(repo, branch, folder, files + [f]) == v + [e];
      assert (v + [e])[..|v|] == v;
      assert Files(v + [e]) == Files(v) + [f];
    } else {
      assert ValidationOf(repo, branch, folder, files + [f]) == v;
    }
  }

  /** Validation keeps exactly the stored images, in order, and never the
      report. */
  lemma ValidatedImages(repo: string, branch: string, folder: string, ts: string,
                        report: bool, image1: bool, image2: bool)
    ensures Files(ValidationOf(repo, branch, folder, StoredNames(ts, report, image1, image2)))
      == (if image1 then [ImageName(First, ts)] else []) + (if image2 then [ImageName(Second, ts)] else [])
  {
    NameSuffixes(ts, First);
    NameSuffixes(ts, Second);
    ValidationOfStored(repo, branch, folder, ReportName(ts), ImageName(First, ts), ImageName(Second, ts),
                       report, image1, image2);
  }

  /** `ValidatedImages` for any report name that is not a `.jpg` and any two
      image names that are. */
  lemma ValidationOfStored(repo: string, branch: string, folder: string, r: string, i1: string, i2: string,
                           report: bool, image1: bool, image2: bool)
    requires !EndsWith(r, ".jpg") && EndsWith(i1, ".jpg") && EndsWith(i2, ".jpg")
    ensures Files(ValidationOf(repo, branch, folder,
                               (if report then [r] else []) + (if image1 then [i1] else []) + (if image2 then [i2] else [])))
      == (if image1 then [i1] else []) + (if image2 then [i2] else [])
  {
    var a := if report then [r] else [];
    var keep1 := if image1 then [i1] else [];
    var keep2 := if image2 then [i2] else [];
    var b := a + keep1;
    assert Files(ValidationOf(repo, branch, folder, a)) == [] by {
      if report {
        assert a == [] + [r];
        ValidationSnoc(repo, branch, folder, [], r);
      }
    }
    assert Files(ValidationOf(repo, branch, folder, b)) == keep1 by {
      if image1 {
        ValidationSnoc(repo, branch, folder, a, i1);
      } else {
        assert b == a;
      }
    }
    assert Files(ValidationOf(repo, branch, folder, b + keep2)) == keep1 + keep2 by {
      if image2 {
        ValidationSnoc(repo, branch, folder, b, i2);
      } else {
        assert b + keep2 == b;
        assert keep1 + keep2 == keep1;
      }
    }
  }

  /** The summary of a run: something was stored iff one of the three
      uploads succeeded, the result is partial iff one of them failed, and
      the validation list names exactly the stored images, in order. */
  lemma SummaryOfUploads(repo: string, branch: string, folder: string, ts: string,
                         report: bool, image1: bool, image2: bool, errors: seq<string>)
    ensures var r := Summary(repo, branch, folder, StoredNames(ts, report, image1, image2), errors);
      && (r.Stored? <==> report || image1 || image2)
      && (r.Stored? ==> (r.partial <==> !(report && image1 && image2)))
      && (r.Stored? ==> (Files(r.validation)
            == (if image1 then [ImageName(First, ts)] else []) + (if image2 then [ImageName(Second, ts)] else [])))
  {
    ValidatedImages(repo, branch, folder, ts, report, image1, image2);
  }

  /** The branch the uploads go to: the slug of the event name, or `main`
      when the branch was not listed and could not be created. */
  function ChosenBranch(eventName: string, listed: bool, created: bool): (b: string)
    ensures !listed && !created ==> b == FallbackBranch
    ensures listed || created ==> b == Slug(eventName, '-')
  {
    if !listed && !created then FallbackBranch else Slug(eventName, '-')
  }

  /** The branch step: check for the event's branch, create it when it is
      missing, and fall back to `main` when creation fails.  `check` is the
      `list_branches` call, `made` the `create_branch` calls. */
  method PrepareBranch(session: GithubSession, repo: string, eventName: string)
    returns (branch: string, ghost listed: bool, ghost created: bool,
             ghost check: ToolCall, ghost made: seq<ToolCall>)
    requires session.Valid()
    modifies session, session.transport
    ensures session.Valid()
    ensures session.calls == old(session.calls) + [check] + made
    ensures check.tool == "list_branches" && check.args == ListBranchesArgs(repo)
    ensures listed == BranchListed(check.result, Slug(eventName, '-'))
    ensures listed ==> !created && made == []
    ensures !listed ==>
      FirstSuccessRun(made, Repeat(Attempt("create_branch", CreateBranchArgs(repo, Slug(eventName, '-'))), DefaultRetries), created)
    ensures branch == ChosenBranch(eventName, listed, created)
  {
    branch := Slug(eventName, '-');
    var found := CheckBranchExists(session, repo, branch);
    check := session.calls[|session.calls| - 1];
    listed, created, made := found, false, [];
    if !found {
      var ok;
      ok, made := CreateBranchWithRetry(session, repo, branch, DefaultRetries);
      created := ok;
      if !ok {
        branch := FallbackBranch;
      }
    }
  }

  /** The report upload: one `create_or_update_file` call for
      `analysis_report_<ts>.md` in the event folder. */
  method UploadReport(session: GithubSession, repo: string, eventName: string, folder: string, branch: string,
                      ts: string, report: string)
    returns (ok: bool, ghost upload: ToolCall)
    requires session.Valid()
    modifies session, session.transport
    ensures session.Valid()
    ensures session.calls == old(session.calls) + [upload]
    ensures upload.tool == "create_or_update_file"
    ensures upload.args == FileArgs(repo, folder + "/" + ReportName(ts), report,
                                    "Add engagement analysis report for " + eventName, branch)
    ensures ok == TruthyOpt(upload.result)
  {
    ghost var result;
    var args := FileArgs(repo, folder + "/" + ReportName(ts), report, "Add engagement analysis report for " + eventName, branch);
    ok, result := Try(session, Attempt("create_or_update_file", args));
    upload := ToolCall("create_or_update_file", args, result);
  }

  /** The upload step: the report, then the two images, each recorded as a
      stored file or as an error message.  `upload` is the report's call,
      `made1` and `made2` the calls of the two image chains. */
  method UploadAll(session: GithubSession, repo: string, eventName: string, folder: string, branch: string,
                   ts: string, report: string, image1: ImageRead, image2: ImageRead)
    returns (files: seq<string>, errors: seq<string>, ghost reportOk: bool, ghost ok1: bool, ghost ok2: bool,
             ghost upload: ToolCall, ghost made1: seq<ToolCall>, ghost made2: seq<ToolCall>)
    requires session.Valid()
    modifies session, session.transport
    ensures session.Valid()
    ensures session.calls == old(session.calls) + [upload] + made1 + made2
    ensures upload.tool == "create_or_update_file"
    ensures upload.args == FileArgs(repo, folder + "/" + ReportName(ts), report,
                                    "Add engagement analysis report for " + eventName, branch)
    ensures reportOk == TruthyOpt(upload.result)
    ensures image1.Unreadable? ==> !ok1 && made1 == []
    ensures image1.Loaded? ==>
      FirstSuccessRun(made1, ImageAttempts(repo, eventName, folder, branch, ts, First, image1.content), ok1)
    ensures image2.Unreadable? ==> !ok2 && made2 == []
    ensures image2.Loaded? ==>
      FirstSuccessRun(made2, ImageAttempts(repo, eventName, folder, branch, ts, Second, image2.content), ok2)
    ensures files == StoredNames(ts, reportOk, ok1, ok2)
    ensures errors == UploadErrors(reportOk, image1, ok1, image2, ok2)
  {
    var uploaded, stored1, stored2;
    uploaded, upload := UploadReport(session, repo, eventName, folder, branch, ts, report);
    ghost var afterReport := session.calls;
    stored1, made1 := StoreImage(session, repo, eventName, folder, branch, ts, First, image1);
    ghost var afterFirst := session.calls;
    assert afterFirst == afterReport + made1;
    stored2, made2 := StoreImage(session, repo, eventName, folder, branch, ts, Second, image2);
    reportOk, ok1, ok2 := uploaded, stored1, stored2;
    files, errors := RecordUploads(ts, uploaded, image1, stored1, image2, stored2);
  }

  /** The bookkeeping of the upload step: `uploaded_files` and
      `upload_errors` grow by one entry per upload, in upload order. */
  method RecordUploads(ts: string, reportOk: bool, image1: ImageRead, ok1: bool, image2: ImageRead, ok2: bool)
    returns (files: seq<string>, errors: seq<string>)
    ensures files == StoredNames(ts, reportOk, ok1, ok2)
    ensures errors == UploadErrors(reportOk, image1, ok1, image2, ok2)
  {
    files, errors := [], [];
    if reportOk {
      files := files + [ReportName(ts)];
    } else {
      errors := errors + ["Analysis report upload failed"];
    }
    if ok1 {
      files := files + [ImageName(First, ts)];
    }
    errors := errors + ImageErrors("First", image1, ok1);
    if ok2 {
      files := files + [ImageName(Second, ts)];
    }
    errors := errors + ImageErrors("Second", image2, ok2);
  }

  /** `store_engagement_analysis_to_github`.  `reachable` is the verdict of
      the connection probe; `report` the report text; `image1`, `image2` what
      reading the two image files gave.  The ghost results are the calls
      made, in order: `check` (`list_branches`), `made` (`create_branch`),
      `upload` (the report), `made1` and `made2` (the two image chains), and
      what each of them gave. */
  method StoreAnalysis(session: GithubSession, reachable: bool, eventName: string, repo: string,
                       ts: string, report: string, image1: ImageRead, image2: ImageRead)
    returns (outcome: StoreResult, ghost listed: bool, ghost created: bool,
             ghost reportOk: bool, ghost ok1: bool, ghost ok2: bool,
             ghost check: ToolCall, ghost made: seq<ToolCall>, ghost upload: ToolCall,
             ghost made1: seq<ToolCall>, ghost made2: seq<ToolCall>)
    requires session.Valid()
    modifies session, session.transport
    ensures session.Valid()
    ensures !reachable ==> outcome == Unreachable && session.calls == old(session.calls)
    ensures reachable ==> session.calls == old(session.calls) + [check] + made + [upload] + made1 + made2
    ensures reachable ==> check.tool == "list_branches" && check.args == ListBranchesArgs(repo)
    ensures reachable ==> listed == BranchListed(check.result, Slug(eventName, '-'))
    ensures listed ==> !created && made == []
    ensures reachable && !listed ==>
      FirstSuccessRun(made, Repeat(Attempt("create_branch", CreateBranchArgs(repo, Slug(eventName, '-'))), DefaultRetries), created)
    ensures reachable ==> upload.tool == "create_or_update_file"
    ensures reachable ==>
      upload.args == FileArgs(repo, "events/" + eventName + "/" + ReportName(ts), report,
                              "Add engagement analysis report for " + eventName, ChosenBranch(eventName, listed, created))
    ensures reachable ==> reportOk == TruthyOpt(upload.result)
    ensures image1.Unreadable? ==> !ok1 && made1 == []
    ensures image2.Unreadable? ==> !ok2 && made2 == []
    ensures reachable && image1.Loaded? ==>
      FirstSuccessRun(made1, ImageAttempts(repo, eventName, "events/" + eventName, ChosenBranch(eventName, listed, created),
                                           ts, First, image1.content), ok1)
    ensures reachable && image2.Loaded? ==>
      FirstSuccessRun(made2, ImageAttempts(repo, eventName, "events/" + eventName, ChosenBranch(eventName, listed, created),
                                           ts, Second, image2.content), ok2)
    ensures reachable ==>
      outcome == Summary(repo, ChosenBranch(eventName, listed, created), "events/" + eventName,
                         StoredNames(ts, reportOk, ok1, ok2), UploadErrors(reportOk, image1, ok1, image2, ok2))
  {
    listed, created, reportOk, ok1, ok2 := false, false, false, false, false;
    check, made, upload, made1, made2 := ToolCall("", Null, None), [], ToolCall("", Null, None), [], [];
    if !reachable {
      outcome := Unreachable;
      return;
    }
    var folder := "events/" + eventName;
    var branch;
    branch, listed, created, check, made := PrepareBranch(session, repo, eventName);
    ghost var afterBranch := session.calls;
    var files, errors;
    files, errors, reportOk, ok1, ok2, upload, made1, made2 := UploadAll(session, repo, eventName, folder, branch, ts, report, image1, image2);
    assert session.calls == afterBranch + [upload] + made1 + made2;
    outcome := Summarize(repo, branch, folder, files, errors);
  }

  /** The result dictionary built from what was uploaded. */
  method Summarize(repo: string, branch: string, folder: string, files: seq<string>, errors: seq<string>)
    returns (outcome: StoreResult)
    ensures outcome == Summary(repo, branch, folder, files, errors)
  {
    if |files| > 0 {
      var validation := BuildValidationInfo(repo, branch, folder, files);
      outcome := Stored(branch, folder, files, |files| < 3, errors, validation);
    } else {
      outcome := AllUploadsFailed(errors);
    }
  }
}
