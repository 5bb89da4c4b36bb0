/** The slide flow of the voice page (`create_slides_for_place` and the
    routing of a prompt): create a presentation, dig its id out of the tool's
    reply, and add a title slide and a content slide with one batch update. */
module VoiceSlides {
  import opened Optional
  import opened Text
  import opened JsonValue
  import opened Rpc
  import opened VoiceClient

  const IdMarker: string := "ID: "
  const ContentErrorPrefix: string := "Error generating content"

  /** `f"Discover {place.title()}"`. */
  function PresentationTitle(place: string): (t: string)
    ensures |t| == |"Discover "| + |place|
    ensures StartsWith(t, "Discover ")
    ensures t == "Discover " + Title(place)
  {
    var t := "Discover " + Title(place);
    assert t[..|"Discover "|] == "Discover ";
    t
  }

  function TitleArgs(place: string): Json {
    Obj(map["title" := Str(PresentationTitle(place))])
  }

  /** What looking for the presentation id in a `create_presentation` result
      gives: the value found (perhaps falsy), nothing, or an exception. */
  datatype IdLookup = Found(id: Json) | NotFound | Raises

  /** `text.split("ID: ")[-1].split("\n")[0]`: the rest of the line after
      the last marker. */
  function IdSlice(text: string): string {
    Split(Last(Split(text, IdMarker)), "\n")[0]
  }

  /** The element the id is looked for in: the first item of a list result,
      or the result itself.  An empty list has no first item and raises. */
  function InfoOf(createResult: Json): (info: Option<Json>)
    ensures info.None? <==> createResult.Arr? && createResult.items == []
  {
    match createResult
    case Arr(items) => if items == [] then None else Some(items[0])
    case _ => Some(createResult)
  }

  /** The id lookup of `create_slides_for_place`: the `presentationId`
      member of an object; else the slice after the marker in its `text`
      member when that is a string holding the marker; else the slice of a
      string result holding the marker.  A `text` member that is not a
      string raises when the marker test succeeds (no `split`) or cannot be
      made (`in` on a number, a boolean or null). */
  function PresentationIdOf(createResult: Json): (r: IdLookup)
    ensures r.Raises? <==> (InfoOf(createResult).None?
      || (InfoOf(createResult).value.Obj?
          && "presentationId" !in InfoOf(createResult).value.fields
          && "text" in InfoOf(createResult).value.fields
          && !InfoOf(createResult).value.fields["text"].Str?
          && In(IdMarker, InfoOf(createResult).value.fields["text"]) != Some(false)))
    ensures (InfoOf(createResult).Some? && InfoOf(createResult).value.Obj?
             && "presentationId" in InfoOf(createResult).value.fields) ==>
      r == Found(InfoOf(createResult).value.fields["presentationId"])
    ensures (InfoOf(createResult).Some? && InfoOf(createResult).value.Str?) ==>
      r == (if Contains(InfoOf(createResult).value.s, IdMarker)
            then Found(Str(IdSlice(InfoOf(createResult).value.s))) else NotFound)
    ensures (InfoOf(createResult).Some? && InfoOf(createResult).value.Obj?
             && "presentationId" !in InfoOf(createResult).value.fields
             && "text" in InfoOf(createResult).value.fields
             && InfoOf(createResult).value.fields["text"].Str?) ==>
      r == (if Contains(InfoOf(createResult).value.fields["text"].s, IdMarker)
            then Found(Str(IdSlice(InfoOf(createResult).value.fields["text"].s))) else NotFound)
  {
    match InfoOf(createResult)
    case None => Raises
    case Some(info) =>
      match info
      case Obj(fields) =>
        if "presentationId" in fields then Found(fields["presentationId"])
        else if "text" in fields then
          (match In(IdMarker, fields["text"])
           case None => Raises
           case Some(present) =>
             if !present then NotFound
             else if fields["text"].Str? then Found(Str(IdSlice(fields["text"].s)))
             else Raises)
        else NotFound
      case Str(s) => if Contains(s, IdMarker) then Found(Str(IdSlice(s))) else NotFound
      case _ => NotFound
  }

  /** The marker cannot overlap itself, so its last occurrence is well
      placed. */
  lemma MarkerNoSelfOverlap()
    ensures NoSelfOverlap(IdMarker)
  {
    assert IdMarker[1..] != IdMarker[..3] by { assert IdMarker[1..][0] != IdMarker[..3][0]; }
    assert IdMarker[2..] != IdMarker[..2] by { assert IdMarker[2..][0] != IdMarker[..2][0]; }
    assert IdMarker[3..] != IdMarker[..1] by { assert IdMarker[3..][0] != IdMarker[..1][0]; }
  }

  /** The slice reads back an id written after the last marker and ended by
      a newline. */
  lemma IdSliceRoundTrip(pre: string, id: string, rest: string)
    requires '\n' !in id
    requires !Contains(id + "\n" + rest, IdMarker)
    ensures IdSlice(pre + IdMarker + id + "\n" + rest) == id
  {
    MarkerNoSelfOverlap();
    var tail := id + "\n" + rest;
    assert pre + IdMarker + id + "\n" + rest == pre + IdMarker + tail;
    LastPieceAfterMarker(pre, IdMarker, tail);
    assert tail == id + ['\n'] + rest;
    FirstPieceBefore(id, '\n', rest);
  }

  /** The same for an id that ends the text. */
  lemma IdSliceAtEnd(pre: string, id: string)
    requires '\n' !in id && !Contains(id, IdMarker)
    ensures IdSlice(pre + IdMarker + id) == id
  {
    MarkerNoSelfOverlap();
    LastPieceAfterMarker(pre, IdMarker, id);
    FirstPieceBefore(id, '\n', []);
  }

  /** A text content item announcing the id, first in a list result, yields
      that id. */
  lemma IdFromTextItem(pre: string, id: string, rest: string, more: seq<Json>)
    requires '\n' !in id
    requires !Contains(id + "\n" + rest, IdMarker)
    ensures PresentationIdOf(Arr([Obj(map["type" := Str("text"),
                                          "text" := Str(pre + IdMarker + id + "\n" + rest)])] + more))
      == Found(Str(id))
  {
    var text := pre + IdMarker + id + "\n" + rest;
    IdSliceRoundTrip(pre, id, rest);
    assert OccursAt(text, IdMarker, |pre|) by {
      assert text[|pre|..|pre| + |IdMarker|] == IdMarker;
    }
    ContainsIff(text, IdMarker);
  }

  /** The two slides the flow adds, identified by the slug of the place. */
  function SlideTitleId(place: string): string {
    "slide_title_" + Slug(place, '_')
  }

  function SlideContentId(place: string): string {
    "slide_content_" + Slug(place, '_')
  }

  /** The two slide ids differ and hold no space. */
  lemma SlideIdsDistinct(place: string)
    ensures SlideTitleId(place) != SlideContentId(place)
    ensures ' ' !in SlideTitleId(place) && ' ' !in SlideContentId(place)
  {
    assert SlideTitleId(place)[6] != SlideContentId(place)[6];
  }

  function CreateSlide(objectId: string, index: int, layout: string): Json {
    Obj(map["createSlide" := Obj(map[
      "objectId" := Str(objectId),
      "insertionIndex" := Num(index as real),
      "slideLayoutReference" := Obj(map["predefinedLayout" := Str(layout)])])])
  }

  /** The batch update: a title slide at index 1, a title-and-body slide at
      index 2. */
  function BatchArgs(id: Json, place: string): (args: Json)
    ensures args.Obj? && args.fields.Keys == {"presentationId", "requests"}
    ensures args.fields["presentationId"] == id
    ensures args.fields["requests"]
      == Arr([CreateSlide(SlideTitleId(place), 1, "TITLE"), CreateSlide(SlideContentId(place), 2, "TITLE_AND_BODY")])
  {
    Obj(map["presentationId" := id,
            "requests" := Arr([CreateSlide(SlideTitleId(place), 1, "TITLE"),
                               CreateSlide(SlideContentId(place), 2, "TITLE_AND_BODY")])])
  }

  /** What `create_slides_for_place` reports (its message strings). */
  datatype SlidesOutcome =
    | CreateFailed            // "Failed to create presentation"
    | NoPresentationId        // "Failed to get presentation ID from response: ..."
    | ContentFailed           // "Failed to generate content for ...: ..."
    | SlidesFailed(id: Json)  // "Created presentation but failed to add slides. ..."
    | Created(title: string, id: Json)
    | Errored                 // "Error creating slides: ..."

  /** The flow gets as far as the batch update: the presentation was
      created, a truthy id was found, and content was generated. */
  predicate ReachesUpdate(content: string, createResult: Option<Json>) {
    && TruthyOpt(createResult)
    && PresentationIdOf(createResult.value).Found?
    && Truthy(PresentationIdOf(createResult.value).id)
    && !StartsWith(content, ContentErrorPrefix)
  }

  /** The verdict for the results of the two tool calls (`updateResult`
      matters only when the update is made). */
  function SlidesVerdict(place: string, content: string, createResult: Option<Json>, updateResult: Option<Json>)
    : (r: SlidesOutcome)
    ensures (r.Created? || r.SlidesFailed?) <==> ReachesUpdate(content, createResult)
    ensures r.Created? <==> ReachesUpdate(content, createResult) && TruthyOpt(updateResult)
    ensures r.Created? ==> r.title == PresentationTitle(place) && Truthy(r.id)
    ensures r.Created? || r.SlidesFailed? ==> r.id == PresentationIdOf(createResult.value).id
  {
    if !TruthyOpt(createResult) then CreateFailed
    else
      match PresentationIdOf(createResult.value)
      case Raises => Errored
      case NotFound => NoPresentationId
      case Found(id) =>
        if !Truthy(id) then NoPresentationId
        else if StartsWith(content, ContentErrorPrefix) then ContentFailed
        else if !TruthyOpt(updateResult) then SlidesFailed(id)
        else Created(PresentationTitle(place), id)
  }

  /** One tool call of the slide flow, seen through the session's call log. */
  method LoggedCall(session: SlidesSession, name: string, args: Json) returns (result: Option<Json>)
    requires session.Valid()
    modifies session, session.transport
    ensures session.Valid()
    ensures session.calls == old(session.calls) + [ToolCall(name, args, result)]
  {
    result := session.CallTool(name, args);
  }

  /** `create_slides_for_place`.  `content` is what the language model gave
      for the place (an error text starting with the error prefix when the
      call failed); `made` is the log of the tool calls. */
  method CreateSlidesForPlace(session: SlidesSession, place: string, content: string)
    returns (outcome: SlidesOutcome, ghost made: seq<ToolCall>)
    requires session.Valid()
    modifies session, session.transport
    ensures session.Valid()
    ensures session.calls == old(session.calls) + made
    ensures 1 <= |made| <= 2
    ensures made[0].tool == "create_presentation" && made[0].args == TitleArgs(place)
    ensures |made| == 2 <==> ReachesUpdate(content, made[0].result)
    ensures |made| == 2 ==>
      made[1].tool == "batch_update_presentation"
      && made[1].args == BatchArgs(PresentationIdOf(made[0].result.value).id, place)
    ensures outcome == SlidesVerdict(place, content, made[0].result, if |made| == 2 then made[1].result else None)
  {
    var created := LoggedCall(session, "create_presentation", TitleArgs(place));
    ghost var later;
    outcome, later := FinishSlides(session, place, content, created);
    var first := ToolCall("create_presentation", TitleArgs(place), created);
    made := [first] + later;
    assert made[0] == first && made[1..] == later;
  }

  /** The rest of `create_slides_for_place` once the presentation call has
      answered `created`: the early exits, then the batch update. */
  method FinishSlides(session: SlidesSession, place: string, content: string, created: Option<Json>)
    returns (outcome: SlidesOutcome, ghost later: seq<ToolCall>)
    requires session.Valid()
    modifies session, session.transport
    ensures session.Valid()
    ensures session.calls == old(session.calls) + later
    ensures |later| <= 1
    ensures |later| == 1 <==> ReachesUpdate(content, created)
    ensures |later| == 1 ==>
      later[0].tool == "batch_update_presentation"
      && later[0].args == BatchArgs(PresentationIdOf(created.value).id, place)
    ensures outcome == SlidesVerdict(place, content, created, if |later| == 1 then later[0].result else None)
  {
    later := [];
    if !TruthyOpt(created) {
      return CreateFailed, later;
    }
    var lookup := PresentationIdOf(created.value);
    if lookup.Raises? {
      return Errored, later;
    }
    if lookup.NotFound? || !Truthy(lookup.id) {
      return NoPresentationId, later;
    }
    if StartsWith(content, ContentErrorPrefix) {
      return ContentFailed, later;
    }
    var updated := LoggedCall(session, "batch_update_presentation", BatchArgs(lookup.id, place));
    later := [ToolCall("batch_update_presentation", BatchArgs(lookup.id, place), updated)];
    if !TruthyOpt(updated) {
      outcome := SlidesFailed(lookup.id);
    } else {
      outcome := Created(PresentationTitle(place), lookup.id);
    }
  }

  /** `detect_slide_creation_intent`: the detector is a stub that never
      finds a place. */
  function DetectSlideCreationIntent(text: string): (place: Option<string>)
    ensures place.None?
  {
    None
  }

  /** Where a prompt goes. */
  datatype Route = MakeSlides(place: string) | Chat

  /** The prompt routing of the voice page: slides for a detected (non-empty)
      place, the chat model otherwise; with the stub detector, always the
      chat model. */
  function RouteOf(prompt: string): (r: Route)
    ensures r == Chat
  {
    match DetectSlideCreationIntent(prompt)
    case Some(place) => if place != "" then MakeSlides(place) else Chat
    case None => Chat
  }
}
