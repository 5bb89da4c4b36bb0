/** How the engagement page reads branch names out of a `list_branches`
    result (`check_branch_exists`): each text item is read as "name: x"
    lines when it mentions `name:` in any case, else it contributes the
    wanted name when that occurs in it, else its first word. */
module BranchNames {
  import opened Optional
  import opened Text
  import opened JsonValue

  const NameKey: string := "name:"

  /** `line.strip().lower().startswith('name:')`. */
  predicate IsNameLine(line: string) {
    StartsWith(Lower(Strip(line)), NameKey)
  }

  /** A name line holds a colon, so the split on ':' has a second piece. */
  lemma NameLineHasColon(line: string)
    requires IsNameLine(line)
    ensures ':' in line
  {
    var t := Strip(line);
    var lead := LeadingSpace(line);
    assert Lower(t)[4] == ':';
    assert t[4] == line[lead + 4];
  }

  /** `line.split(':', 1)[1].strip()`: the text after the line's first
      colon, without surrounding whitespace. */
  function NameOf(line: string): (name: string)
    requires IsNameLine(line)
  {
    NameLineHasColon(line);
    Strip(AfterFirst(line, ':'))
  }

  /** The names the name lines of a text give, in line order. */
  function NamesFromLines(lines: seq<string>): (names: seq<string>)
    ensures |names| <= |lines|
    ensures forall n :: n in names <==> exists i :: 0 <= i < |lines| && IsNameLine(lines[i]) && NameOf(lines[i]) == n
  {
    if lines == [] then []
    else
      var last := lines[|lines| - 1];
      NamesFromLines(lines[..|lines| - 1]) + (if IsNameLine(last) then [NameOf(last)] else [])
  }

  /** The names one text item contributes. */
  function TextNames(text: string, wanted: string): (names: seq<string>)
    ensures Contains(Lower(text), NameKey) ==> names == NamesFromLines(Split(text, "\n"))
    ensures !Contains(Lower(text), NameKey) ==> |names| <= 1
    ensures !Contains(Lower(text), NameKey) && Contains(text, wanted) ==> names == [wanted]
    ensures !Contains(Lower(text), NameKey) && !Contains(text, wanted) ==>
      (names == [] <==> AllSpace(text)) && (names != [] ==> names[0] == FirstWord(text).value)
  {
    if Contains(Lower(text), NameKey) then NamesFromLines(Split(text, "\n"))
    else if Contains(text, wanted) then [wanted]
    else match FirstWord(text)
      case None => []
      case Some(w) => [w]
  }

  /** The names one element of `content` contributes: None where
      `text.lower()` raises because the `text` member is not a string. */
  function ItemNames(item: Json, wanted: string): (r: Option<seq<string>>)
    ensures r.None? <==> item.Obj? && "text" in item.fields && !item.fields["text"].Str?
    ensures r.Some? && item.Obj? && "text" in item.fields ==> r.value == TextNames(item.fields["text"].s, wanted)
    ensures r.Some? && !(item.Obj? && "text" in item.fields) ==> r.value == []
  {
    if item.Obj? && "text" in item.fields then
      match item.fields["text"]
      case Str(t) => Some(TextNames(t, wanted))
      case _ => None
    else Some([])
  }

  /** The names all elements contribute, in order; None as soon as one
      element raises. */
  function CollectedNames(items: seq<Json>, wanted: string): (r: Option<seq<string>>)
    ensures r.None? <==> exists i :: 0 <= i < |items| && ItemNames(items[i], wanted).None?
  {
    if items == [] then Some([])
    else
      var init := items[..|items| - 1];
      match (CollectedNames(init, wanted), ItemNames(items[|items| - 1], wanted))
      case (Some(before), Some(more)) =>
        assert forall i :: 0 <= i < |init| ==> init[i] == items[i];
        Some(before + more)
      case (None, _) =>
        var i :| 0 <= i < |init| && ItemNames(init[i], wanted).None?;
        assert items[i] == init[i];
        None
      case (_, None) => None
  }

  /** The inner loop over a text's lines: the names of its name lines. */
  method NameLinesOf(lines: seq<string>) returns (names: seq<string>)
    ensures names == NamesFromLines(lines)
  {
    names := [];
    var j := 0;
    while j < |lines|
      invariant 0 <= j <= |lines|
      invariant names == NamesFromLines(lines[..j])
    {
      assert lines[..j + 1][..j] == lines[..j];
      if IsNameLine(lines[j]) {
        names := names + [NameOf(lines[j])];
      }
      j := j + 1;
    }
    assert lines[..j] == lines;
  }

  /** The body of the loop over `content`: what one element adds to
      `branch_names`, or None when `text.lower()` raises. */
  method ItemBranchNames(item: Json, wanted: string) returns (more: Option<seq<string>>)
    ensures more == ItemNames(item, wanted)
  {
    if !(item.Obj? && "text" in item.fields) {
      return Some([]);
    }
    var text := item.fields["text"];
    if !text.Str? {
      return None;
    }
    if Contains(Lower(text.s), NameKey) {
      var names := NameLinesOf(Split(text.s, "\n"));
      more := Some(names);
    } else if Contains(text.s, wanted) {
      more := Some([wanted]);
    } else {
      var w := FirstWord(text.s);
      more := if w.Some? then Some([w.value]) else Some([]);
    }
  }

  /** The loops of `check_branch_exists` that fill `branch_names`. */
  method CollectBranchNames(items: seq<Json>, wanted: string) returns (names: Option<seq<string>>)
    ensures names == CollectedNames(items, wanted)
  {
    var found: seq<string> := [];
    var i := 0;
    while i < |items|
      invariant 0 <= i <= |items|
      invariant CollectedNames(items[..i], wanted) == Some(found)
    {
      var more := ItemBranchNames(items[i], wanted);
      if more.None? {
        CollectedNamesRaises(items, wanted, i);
        return None;
      }
      CollectedNamesStep(items, wanted, i);
      found := found + more.value;
      i := i + 1;
    }
    assert items[..i] == items;
    names := Some(found);
  }

  /** One element raising makes the whole list raise. */
  lemma CollectedNamesRaises(items: seq<Json>, wanted: string, i: nat)
    requires i < |items| && ItemNames(items[i], wanted).None?
    ensures CollectedNames(items, wanted).None?
  {
  }

  /** Collecting one more element appends its names. */
  lemma CollectedNamesStep(items: seq<Json>, wanted: string, i: nat)
    requires i < |items|
    requires CollectedNames(items[..i], wanted).Some? && ItemNames(items[i], wanted).Some?
    ensures CollectedNames(items[..i + 1], wanted)
      == Some(CollectedNames(items[..i], wanted).value + ItemNames(items[i], wanted).value)
  {
    assert items[..i + 1][..i] == items[..i];
    assert items[..i + 1][i] == items[i];
  }

  /** `check_branch_exists` once the `list_branches` result is in: a truthy
      result with a `content` list whose collected names include the wanted
      one.  Missing or non-list content, or anything that raises, is false. */
  function BranchListed(result: Option<Json>, wanted: string): (listed: bool)
    ensures listed <==> (result.Some? && result.value.Obj? && "content" in result.value.fields
      && result.value.fields["content"].Arr?
      && CollectedNames(result.value.fields["content"].items, wanted).Some?
      && wanted in CollectedNames(result.value.fields["content"].items, wanted).value)
  {
    match result
    case None => false
    case Some(r) =>
      if !Truthy(r) then false
      else
        match In("content", r)
        case None => false
        case Some(false) => false
        case Some(true) =>
          match Index(r, "content")
          case Some(Arr(items)) =>
            (match CollectedNames(items, wanted)
             case None => false
             case Some(names) => wanted in names)
          case _ => false
  }

  /** The listing text of branches `bs`: one "name: b" line each. */
  function ListingLines(bs: seq<string>): (lines: seq<string>)
    ensures |lines| == |bs|
    ensures forall i :: 0 <= i < |bs| ==> lines[i] == "name: " + bs[i]
  {
    seq(|bs|, i requires 0 <= i < |bs| => "name: " + bs[i])
  }

  /** A branch name the listing format can carry: one line, no surrounding
      whitespace. */
  predicate PlainName(b: string) {
    b != [] && '\n' !in b && !IsSpace(b[0]) && !IsSpace(b[|b| - 1])
  }

  /** A line with non-space ends strips to itself. */
  lemma StripPlain(line: string)
    requires line != [] && !IsSpace(line[0]) && !IsSpace(line[|line| - 1])
    ensures Strip(line) == line
  {
    StripUnique([], line, []);
    assert [] + line + [] == line;
  }

  /** Text before the first occurrence of `c` does not change what follows
      it. */
  lemma {:induction false} AfterFirstSkip(x: string, y: string, c: char)
    requires c !in x && c in y
    ensures AfterFirst(x + y, c) == AfterFirst(y, c)
  {
    if x == [] {
      assert x + y == y;
    } else {
      assert (x + y)[0] == x[0] != c;
      assert (x + y)[1..] == x[1..] + y;
      assert c !in x[1..];
      AfterFirstSkip(x[1..], y, c);
    }
  }

  /** The colon of "name: b" is its first. */
  lemma AfterNameColon(b: string)
    ensures AfterFirst("name: " + b, ':') == " " + b
  {
    assert "name: " + b == "name" + (": " + b);
    AfterFirstSkip("name", ": " + b, ':');
  }

  /** "name: b" lower-cases to a text that starts with `name:`. */
  lemma LowerNamePrefix(b: string)
    ensures StartsWith(Lower("name: " + b), NameKey)
  {
    var line := "name: " + b;
    forall i | 0 <= i < 5 ensures Lower(line)[i] == NameKey[i] {
      assert line[i] == NameKey[i];
    }
  }

  /** A name after one space strips to itself. */
  lemma StripAfterSpace(b: string)
    requires PlainName(b)
    ensures Strip(" " + b) == b
  {
    assert AllSpace(" ");
    StripUnique(" ", b, []);
    assert " " + b + [] == " " + b;
  }

  /** A "name: b" line is a name line naming exactly b. */
  lemma NameLineOf(b: string)
    requires PlainName(b)
    ensures IsNameLine("name: " + b) && NameOf("name: " + b) == b
  {
    var line := "name: " + b;
    assert line[|line| - 1] == b[|b| - 1];
    StripPlain(line);
    LowerNamePrefix(b);
    assert IsNameLine(line);
    AfterNameColon(b);
    StripAfterSpace(b);
  }

  /** Name lines read back to their names, in order. */
  lemma {:induction false} NamesFromNameLines(lines: seq<string>, names: seq<string>)
    requires |lines| == |names|
    requires forall i :: 0 <= i < |lines| ==> IsNameLine(lines[i]) && NameOf(lines[i]) == names[i]
    ensures NamesFromLines(lines) == names
  {
    if lines != [] {
      var n := |lines| - 1;
      NamesFromNameLines(lines[..n], names[..n]);
      assert names == names[..n] + [names[n]];
    }
  }

  /** Reading the names back from the lines gives the branches. */
  lemma NamesFromListing(bs: seq<string>)
    requires forall b :: b in bs ==> PlainName(b)
    ensures NamesFromLines(ListingLines(bs)) == bs
  {
    var lines := ListingLines(bs);
    forall i | 0 <= i < |lines| ensures IsNameLine(lines[i]) && NameOf(lines[i]) == bs[i] {
      assert bs[i] in bs;
      NameLineOf(bs[i]);
    }
    NamesFromNameLines(lines, bs);
  }

  /** The text of a listing: its lines joined by newlines. */
  function ListingText(bs: seq<string>): string
    requires bs != []
  {
    Join(ListingLines(bs), "\n")
  }

  /** The listing text mentions `name:`, so its names are read from its
      lines, and they are the branches. */
  lemma ListingTextNames(bs: seq<string>, wanted: string)
    requires bs != []
    requires forall b :: b in bs ==> PlainName(b)
    ensures TextNames(ListingText(bs), wanted) == bs
  {
    var lines := ListingLines(bs);
    var text := ListingText(bs);
    forall i | 0 <= i < |lines| ensures '\n' !in lines[i] {
      assert bs[i] in bs;
      assert lines[i] == "name: " + bs[i];
    }
    JoinSplit(lines, '\n');
    JoinHead(lines, "\n");
    assert OccursAt(Lower(text), NameKey, 0) by {
      forall k | 0 <= k < 5 ensures Lower(text)[k] == NameKey[k] {
        assert text[k] == text[..|lines[0]|][k] == lines[0][k];
      }
    }
    ContainsIff(Lower(text), NameKey);
    NamesFromListing(bs);
  }

  /** A `list_branches` result whose one text item lists branches `bs` as
      "name: b" lines reports a branch as existing exactly when it is one of
      `bs`. */
  lemma ListingRoundTrip(bs: seq<string>, wanted: string)
    requires bs != []
    requires forall b :: b in bs ==> PlainName(b)
    ensures
      var item := Obj(map["type" := Str("text"), "text" := Str(ListingText(bs))]);
      BranchListed(Some(Obj(map["content" := Arr([item])])), wanted) <==> wanted in bs
  {
    var item := Obj(map["type" := Str("text"), "text" := Str(ListingText(bs))]);
    ListingTextNames(bs, wanted);
    assert ItemNames(item, wanted) == Some(bs);
    assert [item][..0] == [] && [item][..1] == [item];
    CollectedNamesStep([item], wanted, 0);
    assert [] + bs == bs;
  }

  /** The text of a join starts with its first piece. */
  lemma JoinHead(parts: seq<string>, sep: string)
    requires |parts| >= 1
    ensures |parts[0]| <= |Join(parts, sep)| && Join(parts, sep)[..|parts[0]|] == parts[0]
  {
  }
}
