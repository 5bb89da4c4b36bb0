/** The Python string operations the pages apply to header values, response
    bodies and tool text: `isspace`, `strip`, `split`, `startswith`,
    `endswith`, `in` on strings, `lower`, `title`, `replace` and the first
    word of `split()`. */
module Text {
  import opened Optional

  /** Python's `str.isspace` for a single character. */
  predicate IsSpace(c: char) {
    || ('\t' <= c <= '\r')
    || ('\U{1C}' <= c <= ' ')
    || c == '\U{85}' || c == '\U{A0}' || c == '\U{1680}'
    || ('\U{2000}' <= c <= '\U{200A}')
    || c == '\U{2028}' || c == '\U{2029}' || c == '\U{202F}' || c == '\U{205F}' || c == '\U{3000}'
  }

  predicate AllSpace(s: string) {
    forall k :: 0 <= k < |s| ==> IsSpace(s[k])
  }

  predicate StartsWith(s: string, prefix: string) {
    |prefix| <= |s| && s[..|prefix|] == prefix
  }

  predicate EndsWith(s: string, suffix: string) {
    |suffix| <= |s| && s[|s| - |suffix|..] == suffix
  }

  /** `sub` occurs in `s` starting at index `k`. */
  predicate OccursAt(s: string, sub: string, k: int) {
    0 <= k && k + |sub| <= |s| && s[k..k + |sub|] == sub
  }

  lemma OccursAtTail(s: string, sub: string, k: nat)
    requires |s| >= 1
    ensures OccursAt(s[1..], sub, k) <==> OccursAt(s, sub, k + 1)
  {
    if k + |sub| <= |s| - 1 {
      assert s[1..][k..k + |sub|] == s[k + 1..k + 1 + |sub|];
    }
  }

  /** Index of the first occurrence of `sub` in `s`, as Python's `str.find`
      would report it (None for -1). */
  function IndexOf(s: string, sub: string): (r: Option<nat>)
    ensures r.Some? ==> OccursAt(s, sub, r.value)
    ensures r.Some? ==> forall k :: 0 <= k < r.value ==> !OccursAt(s, sub, k)
    ensures r.None? ==> forall k :: !OccursAt(s, sub, k)
    decreases |s|
  {
    if |s| < |sub| then None
    else if s[..|sub|] == sub then Some(0)
    else
      var tail := IndexOf(s[1..], sub);
      assert !OccursAt(s, sub, 0) by {
        assert s[0..|sub|] == s[..|sub|];
      }
      assert forall k :: 1 <= k ==> (OccursAt(s, sub, k) <==> OccursAt(s[1..], sub, k - 1)) by {
        forall k | 1 <= k ensures OccursAt(s, sub, k) <==> OccursAt(s[1..], sub, k - 1) {
          OccursAtTail(s, sub, k - 1);
        }
      }
      match tail
      case None => None
      case Some(i) => Some(i + 1)
  }

  /** Python's `sub in s` on strings. */
  predicate Contains(s: string, sub: string) {
    IndexOf(s, sub).Some?
  }

  lemma ContainsIff(s: string, sub: string)
    ensures Contains(s, sub) <==> exists k :: OccursAt(s, sub, k)
  {
    if IndexOf(s, sub).Some? {
      assert OccursAt(s, sub, IndexOf(s, sub).value);
    }
  }

  lemma ContainsChar(s: string, c: char)
    ensures Contains(s, [c]) <==> c in s
  {
    ContainsIff(s, [c]);
    if c in s {
      var k :| 0 <= k < |s| && s[k] == c;
      assert OccursAt(s, [c], k);
    }
    if Contains(s, [c]) {
      var k :| OccursAt(s, [c], k);
      assert s[k] == s[k..k + 1][0];
    }
  }

  /** An occurrence inside a slice is an occurrence in the whole string. */
  lemma OccursInSlice(s: string, lo: nat, hi: nat, sub: string, k: int)
    requires lo <= hi <= |s|
    requires OccursAt(s[lo..hi], sub, k)
    ensures OccursAt(s, sub, lo + k)
  {
    forall j | 0 <= j < |sub| ensures s[lo + k + j] == sub[j] {
      assert s[lo..hi][k..k + |sub|][j] == sub[j];
    }
    assert s[lo + k..lo + k + |sub|] == sub;
  }

  /** Python's `s.split(sep)` for a non-empty separator: the pieces between
      non-overlapping occurrences, scanning from the left. */
  function Split(s: string, sep: string): (parts: seq<string>)
    requires sep != ""
    ensures |parts| >= 1
    decreases |s|
  {
    match IndexOf(s, sep)
    case None => [s]
    case Some(i) => [s[..i]] + Split(s[i + |sep|..], sep)
  }

  /** No piece of a split holds the separator. */
  lemma {:induction false} SplitPieces(s: string, sep: string)
    requires sep != ""
    ensures forall i :: 0 <= i < |Split(s, sep)| ==> !Contains(Split(s, sep)[i], sep)
    decreases |s|
  {
    match IndexOf(s, sep)
    case None =>
    case Some(i) =>
      var head, rest := s[..i], s[i + |sep|..];
      assert !Contains(head, sep) by {
        ContainsIff(head, sep);
        if exists k :: OccursAt(head, sep, k) {
          var k :| OccursAt(head, sep, k);
          OccursInSlice(s, 0, i, sep, k);
        }
      }
      SplitPieces(rest, sep);
      assert Split(s, sep) == [head] + Split(rest, sep);
  }

  /** Python's `sep.join(parts)`. */
  function Join(parts: seq<string>, sep: string): string
    requires |parts| >= 1
  {
    if |parts| == 1 then parts[0] else parts[0] + sep + Join(parts[1..], sep)
  }

  /** Joining the pieces of a split gives back the original string. */
  lemma {:induction false} SplitJoin(s: string, sep: string)
    requires sep != ""
    ensures Join(Split(s, sep), sep) == s
    decreases |s|
  {
    match IndexOf(s, sep)
    case None =>
    case Some(i) =>
      var rest := s[i + |sep|..];
      var tail := Split(rest, sep);
      SplitJoin(rest, sep);
      assert Split(s, sep) == [s[..i]] + tail;
      JoinCons(s[..i], tail, sep);
      AroundOccurrence(s, sep, i);
  }

  lemma JoinCons(head: string, tail: seq<string>, sep: string)
    requires |tail| >= 1
    ensures Join([head] + tail, sep) == head + sep + Join(tail, sep)
  {
    assert ([head] + tail)[1..] == tail;
  }

  /** A text is what precedes an occurrence, the occurrence, and what
      follows it. */
  lemma AroundOccurrence(s: string, sub: string, i: int)
    requires OccursAt(s, sub, i)
    ensures s == s[..i] + sub + s[i + |sub|..]
  {
    assert s == s[..i] + s[i..i + |sub|] + s[i + |sub|..];
  }

  /** Splitting on one character undoes joining on it, when no piece holds
      that character. */
  lemma {:induction false} JoinSplit(parts: seq<string>, c: char)
    requires |parts| >= 1
    requires forall i :: 0 <= i < |parts| ==> c !in parts[i]
    ensures Split(Join(parts, [c]), [c]) == parts
    decreases |parts|
  {
    var head := parts[0];
    if |parts| == 1 {
      ContainsChar(head, c);
      assert IndexOf(head, [c]).None?;
      assert Split(head, [c]) == [head];
      assert parts == [head];
    } else {
      var rest := Join(parts[1..], [c]);
      assert Join(parts, [c]) == head + [c] + rest;
      SplitAtFirstChar(head, c, rest);
      JoinSplit(parts[1..], c);
      assert parts == [head] + parts[1..];
    }
  }

  /** Splitting on `c` cuts at its first occurrence. */
  lemma SplitAtFirstChar(x: string, c: char, y: string)
    requires c !in x
    ensures Split(x + [c] + y, [c]) == [x] + Split(y, [c])
  {
    var s := x + [c] + y;
    assert OccursAt(s, [c], |x|) by {
      assert s[|x|..|x| + 1] == [c];
    }
    forall k | 0 <= k < |x|
      ensures !OccursAt(s, [c], k)
    {
      assert s[k] == x[k];
    }
    assert IndexOf(s, [c]) == Some(|x|);
    assert s[|x| + 1..] == y;
    assert s[..|x|] == x;
  }

  /** `sep` cannot start again strictly inside one of its own occurrences. */
  predicate NoSelfOverlap(sep: string) {
    forall d :: 0 < d < |sep| ==> sep[d..] != sep[..|sep| - d]
  }

  /** Two occurrences of a separator that cannot overlap itself are disjoint. */
  lemma OccurrencesDisjoint(s: string, sep: string, i: int, j: int)
    requires NoSelfOverlap(sep)
    requires OccursAt(s, sep, i) && OccursAt(s, sep, j) && i < j
    ensures i + |sep| <= j
  {
    if j < i + |sep| {
      OverlapWitness(s, sep, i, j);
      assert false;
    }
  }

  /** Two overlapping occurrences make a suffix of `sep` equal to a prefix. */
  lemma OverlapWitness(s: string, sep: string, i: int, j: int)
    requires OccursAt(s, sep, i) && OccursAt(s, sep, j) && i < j < i + |sep|
    ensures sep[j - i..] == sep[..|sep| - (j - i)]
  {
    assert sep[j - i..] == s[j..i + |sep|] by {
      assert s[i..i + |sep|] == sep;
    }
    assert sep[..|sep| - (j - i)] == s[j..i + |sep|] by {
      assert s[j..j + |sep|] == sep;
    }
  }

  function Last(parts: seq<string>): string
    requires parts != []
  {
    parts[|parts| - 1]
  }

  lemma {:induction false} SplitAt(s: string, sep: string, i: nat)
    requires sep != "" && IndexOf(s, sep) == Some(i)
    ensures Split(s, sep) == [s[..i]] + Split(s[i + |sep|..], sep)
  {
  }

  /** The last piece of a split is the text after the last occurrence of a
      separator that cannot overlap itself. */
  lemma {:induction false} LastPieceAfterMarker(pre: string, sep: string, tail: string)
    requires sep != "" && NoSelfOverlap(sep)
    requires !Contains(tail, sep)
    ensures Last(Split(pre + sep + tail, sep)) == tail
    decreases |pre|
  {
    var s := pre + sep + tail;
    assert OccursAt(s, sep, |pre|) by {
      assert s[|pre|..|pre| + |sep|] == sep;
    }
    var i := IndexOf(s, sep).value;
    SplitAt(s, sep, i);
    var later := Split(s[i + |sep|..], sep);
    LastOfCons(s[..i], later);
    if i == |pre| {
      assert s[i + |sep|..] == tail;
      assert IndexOf(tail, sep).None?;
    } else {
      var rest := AfterEarlierMarker(pre, sep, tail, i);
      LastPieceAfterMarker(rest, sep, tail);
    }
  }

  lemma LastOfCons(head: string, parts: seq<string>)
    requires parts != []
    ensures Last([head] + parts) == Last(parts)
  {
  }

  /** What follows an occurrence of `sep` inside `pre` is the rest of `pre`,
      then the marker and the tail. */
  lemma AfterEarlierMarker(pre: string, sep: string, tail: string, i: nat) returns (rest: string)
    requires sep != "" && NoSelfOverlap(sep)
    requires i < |pre| && OccursAt(pre + sep + tail, sep, i)
    ensures |rest| < |pre|
    ensures (pre + sep + tail)[i + |sep|..] == rest + sep + tail
  {
    var s := pre + sep + tail;
    assert OccursAt(s, sep, |pre|) by {
      assert s[|pre|..|pre| + |sep|] == sep;
    }
    OccurrencesDisjoint(s, sep, i, |pre|);
    rest := pre[i + |sep|..];
    assert s[i + |sep|..] == rest + sep + tail;
  }

  /** The first piece of a split on `c` is the text before the first `c`. */
  lemma FirstPieceBefore(x: string, c: char, y: string)
    requires c !in x
    ensures Split(x + [c] + y, [c])[0] == x
    ensures Split(x, [c]) == [x]
  {
    ContainsChar(x, c);
    var s := x + [c] + y;
    assert OccursAt(s, [c], |x|) by {
      assert s[|x|..|x| + 1] == [c];
    }
    forall k | 0 <= k < |x|
      ensures !OccursAt(s, [c], k)
    {
      assert s[k] == x[k];
    }
    assert IndexOf(s, [c]) == Some(|x|);
    assert s[..|x|] == x;
  }

  /** Number of whitespace characters `str.lstrip` removes. */
  function LeadingSpace(s: string): (n: nat)
    ensures n <= |s|
  {
    if s == [] || !IsSpace(s[0]) then 0 else 1 + LeadingSpace(s[1..])
  }

  /** `lstrip` removes exactly the leading run of whitespace. */
  lemma {:induction false} LeadingSpaceFacts(s: string)
    ensures AllSpace(s[..LeadingSpace(s)])
    ensures LeadingSpace(s) < |s| ==> !IsSpace(s[LeadingSpace(s)])
  {
    if s != [] && IsSpace(s[0]) {
      LeadingSpaceFacts(s[1..]);
      var n := LeadingSpace(s);
      assert s[..n] == [s[0]] + s[1..][..n - 1];
    }
  }

  /** Length `str.rstrip` keeps. */
  function TrimmedLength(s: string): (n: nat)
    ensures n <= |s|
  {
    if s == [] || !IsSpace(s[|s| - 1]) then |s| else TrimmedLength(s[..|s| - 1])
  }

  /** `rstrip` removes exactly the trailing run of whitespace. */
  lemma {:induction false} TrimmedLengthFacts(s: string)
    ensures AllSpace(s[TrimmedLength(s)..])
    ensures TrimmedLength(s) > 0 ==> !IsSpace(s[TrimmedLength(s) - 1])
  {
    if s != [] && IsSpace(s[|s| - 1]) {
      TrimmedLengthFacts(s[..|s| - 1]);
      var n := TrimmedLength(s);
      assert s[n..] == s[..|s| - 1][n..] + [s[|s| - 1]];
    }
  }

  /** Python's `s.strip()`: the slice of `s` between its leading and its
      trailing whitespace. */
  function Strip(s: string): (t: string)
    ensures |t| <= |s|
  {
    var lead := LeadingSpace(s);
    var rest := s[lead..];
    rest[..TrimmedLength(rest)]
  }

  /** `strip` keeps the slice between the leading and the trailing
      whitespace. */
  lemma StripSlice(s: string)
    ensures LeadingSpace(s) + |Strip(s)| <= |s|
    ensures Strip(s) == s[LeadingSpace(s)..LeadingSpace(s) + |Strip(s)|]
  {
    var lead := LeadingSpace(s);
    var rest := s[lead..];
    assert Strip(s) == rest[..TrimmedLength(rest)];
  }

  /** What `strip` keeps: a slice of `s` with only whitespace around it and
      non-space characters at both ends. */
  lemma StripFacts(s: string)
    ensures LeadingSpace(s) + |Strip(s)| <= |s|
    ensures Strip(s) == s[LeadingSpace(s)..LeadingSpace(s) + |Strip(s)|]
    ensures AllSpace(s[..LeadingSpace(s)]) && AllSpace(s[LeadingSpace(s) + |Strip(s)|..])
    ensures Strip(s) != [] ==> !IsSpace(Strip(s)[0]) && !IsSpace(Strip(s)[|Strip(s)| - 1])
  {
    StripSlice(s);
    LeadingSpaceFacts(s);
    StripTrailing(s);
    StripEnds(s);
  }

  /** What follows the stripped text is whitespace. */
  lemma StripTrailing(s: string)
    ensures LeadingSpace(s) + |Strip(s)| <= |s|
    ensures AllSpace(s[LeadingSpace(s) + |Strip(s)|..])
  {
    var lead := LeadingSpace(s);
    var rest := s[lead..];
    var n := TrimmedLength(rest);
    TrimmedLengthFacts(rest);
    assert |Strip(s)| == n;
    assert rest[n..] == s[lead + n..];
  }

  /** The stripped text starts and ends with a non-space character. */
  lemma StripEnds(s: string)
    ensures Strip(s) != [] ==> !IsSpace(Strip(s)[0]) && !IsSpace(Strip(s)[|Strip(s)| - 1])
  {
    var lead := LeadingSpace(s);
    var rest := s[lead..];
    var n := TrimmedLength(rest);
    var t := Strip(s);
    assert t == rest[..n];
    if n > 0 {
      LeadingSpaceFacts(s);
      TrimmedLengthFacts(rest);
      assert t[0] == s[lead];
      assert t[n - 1] == rest[n - 1];
    }
  }

  /** Strip is determined by its contract: any split of `s` into whitespace,
      a core with non-space ends, and whitespace strips to that core. */
  lemma StripUnique(a: string, t: string, b: string)
    requires AllSpace(a) && AllSpace(b)
    requires t != [] ==> !IsSpace(t[0]) && !IsSpace(t[|t| - 1])
    ensures Strip(a + t + b) == t
  {
    var s := a + t + b;
    StripFacts(s);
    var r := Strip(s);
    var lead := LeadingSpace(s);
    forall k | 0 <= k < |a| ensures IsSpace(s[k]) { assert s[k] == a[k]; }
    forall k | |a| + |t| <= k < |s| ensures IsSpace(s[k]) { assert s[k] == b[k - |a| - |t|]; }
    if t == [] {
      if r != [] {
        assert false;
      }
    } else {
      assert s[|a|] == t[0];
      assert s[|a| + |t| - 1] == t[|t| - 1];
      if lead != |a| {
        assert false;
      }
      var end := lead + |r|;
      if end != |a| + |t| {
        assert false;
      }
      assert s[|a|..|a| + |t|] == t;
    }
  }

  /** Length of the leading run of non-space characters. */
  function WordEnd(s: string): (n: nat)
    ensures n <= |s|
    ensures forall k :: 0 <= k < n ==> !IsSpace(s[k])
    ensures n < |s| ==> IsSpace(s[n])
  {
    if s == [] || IsSpace(s[0]) then 0 else 1 + WordEnd(s[1..])
  }

  /** `s.strip().split()[0]` when `split()` gives any word: the first
      maximal run of non-space characters. */
  function FirstWord(s: string): (w: Option<string>)
    ensures w.None? <==> AllSpace(s)
    ensures w.Some? ==> w.value != [] && OccursAt(s, w.value, LeadingSpace(s))
    ensures w.Some? ==> forall k :: 0 <= k < |w.value| ==> !IsSpace(w.value[k])
    ensures w.Some? ==> (LeadingSpace(s) + |w.value| == |s| || IsSpace(s[LeadingSpace(s) + |w.value|]))
  {
    LeadingSpaceFacts(s);
    var lead := LeadingSpace(s);
    var rest := s[lead..];
    if rest == [] then
      assert s[..lead] == s;
      None
    else
      var word := rest[..WordEnd(rest)];
      assert word == s[lead..lead + |word|];
      assert !IsSpace(s[lead]);
      Some(word)
  }

  /** `s.split(c, 1)[1]`: the text after the first `c`. */
  function AfterFirst(s: string, c: char): (t: string)
    requires c in s
    ensures |t| < |s|
  {
    if s[0] == c then s[1..] else AfterFirst(s[1..], c)
  }

  /** `AfterFirst` returns the suffix that follows the first `c`. */
  lemma {:induction false} AfterFirstFacts(s: string, c: char)
    requires c in s
    ensures var t := AfterFirst(s, c);
      t == s[|s| - |t|..] && s[|s| - |t| - 1] == c && c !in s[..|s| - |t| - 1]
  {
    if s[0] != c {
      AfterFirstFacts(s[1..], c);
      var t := AfterFirst(s, c);
      assert s[..|s| - |t| - 1] == [s[0]] + s[1..][..|s| - |t| - 2];
    }
  }

  function LowerChar(c: char): char {
    if 'A' <= c <= 'Z' then (c as int + 32) as char else c
  }

  function UpperChar(c: char): char {
    if 'a' <= c <= 'z' then (c as int - 32) as char else c
  }

  predicate IsLetter(c: char) {
    ('a' <= c <= 'z') || ('A' <= c <= 'Z')
  }

  /** `s.lower()`, for the ASCII letters. */
  function Lower(s: string): (t: string)
    ensures |t| == |s|
    ensures forall i :: 0 <= i < |s| ==> t[i] == LowerChar(s[i])
  {
    seq(|s|, i requires 0 <= i < |s| => LowerChar(s[i]))
  }

  /** One character of `title()`: a letter is upper-cased when the character
      before it is not a letter, lower-cased otherwise; anything else is kept. */
  function TitleChar(c: char, afterLetter: bool): (d: char)
    ensures !IsLetter(c) ==> d == c
    ensures IsLetter(c) && afterLetter ==> d == LowerChar(c)
    ensures IsLetter(c) && !afterLetter ==> d == UpperChar(c)
  {
    if !IsLetter(c) then c else if afterLetter then LowerChar(c) else UpperChar(c)
  }

  /** `s.title()`, for the ASCII letters: a letter is upper-cased when the
      character before it is not a letter, lower-cased otherwise. */
  function Title(s: string, afterLetter: bool := false): (t: string)
    ensures |t| == |s|
    ensures forall i :: 0 <= i < |s| ==>
      t[i] == TitleChar(s[i], if i == 0 then afterLetter else IsLetter(s[i - 1]))
  {
    if s == [] then []
    else
      [TitleChar(s[0], afterLetter)] + Title(s[1..], IsLetter(s[0]))
  }

  /** `s.replace(target, replacement)` for single characters. */
  function ReplaceChar(s: string, target: char, replacement: char): (t: string)
    ensures |t| == |s|
    ensures forall i :: 0 <= i < |s| ==> t[i] == if s[i] == target then replacement else s[i]
  {
    seq(|s|, i requires 0 <= i < |s| => if s[i] == target then replacement else s[i])
  }

  /** `s.lower().replace(' ', joiner)`: how the pages derive branch names
      and slide ids from free text. */
  function Slug(s: string, joiner: char): (t: string)
    requires joiner != ' '
    ensures |t| == |s| && ' ' !in t
  {
    ReplaceChar(Lower(s), ' ', joiner)
  }
}
