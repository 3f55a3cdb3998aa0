/**
 * The reply-parsing block of the chat endpoint (app/api/chat/route.ts): the
 * two case-insensitive regular expressions written out as scanners over the
 * generated text, the loop that decodes each `ANNOTATION:` literal and
 * cleans the text, plus the chat title and the conversation history.
 *
 * The decoder (`JSON.parse`) is a parameter: any total function from the
 * literal to an optional raw annotation.
 */
module ChatRoute {
  import opened Options
  import opened Text
  import opened Annotations

  const PageMarker: string := "PAGE_REFERENCE:"
  const AnnotationMarker: string := "ANNOTATION:"

  /** `marker` occurs at `i` when compared as a non-Unicode `/i` regular expression compares ASCII. */
  predicate MarkerAt(s: string, i: nat, marker: string) {
    i + |marker| <= |s| && Upper(s[i..i + |marker|]) == Upper(marker)
  }

  /** Greedy `\s*` from `i`. */
  function SkipSpaces(s: string, i: nat): (j: nat)
    requires i <= |s|
    decreases |s| - i
    ensures i <= j <= |s|
    ensures forall k :: i <= k < j ==> IsSpace(s[k])
    ensures j < |s| ==> !IsSpace(s[j])
  {
    if i < |s| && IsSpace(s[i]) then SkipSpaces(s, i + 1) else i
  }

  /** Greedy `\d*` from `i`. */
  function SkipDigits(s: string, i: nat): (j: nat)
    requires i <= |s|
    decreases |s| - i
    ensures i <= j <= |s|
    ensures forall k :: i <= k < j ==> IsDigit(s[k])
    ensures j < |s| ==> !IsDigit(s[j])
  {
    if i < |s| && IsDigit(s[i]) then SkipDigits(s, i + 1) else i
  }

  /** Greedy `[^}]*` from `i`: the position of the first `}` at or after `i`, or the end. */
  function SkipToClose(s: string, i: nat): (j: nat)
    requires i <= |s|
    decreases |s| - i
    ensures i <= j <= |s|
    ensures forall k :: i <= k < j ==> s[k] != '}'
    ensures j < |s| ==> s[j] == '}'
  {
    if i < |s| && s[i] != '}' then SkipToClose(s, i + 1) else i
  }

  /**
   * A match of one of the two regular expressions at `s[start..end]`, its
   * capture group being `s[groupStart..end]`: the digits of a page
   * reference, or the object literal of an annotation directive.
   */
  datatype Match = Match(start: nat, groupStart: nat, end: nat)

  /** Position `p` lies inside one of the matches. */
  predicate Covers(ms: seq<Match>, p: nat) {
    exists k :: 0 <= k < |ms| && ms[k].start <= p < ms[k].end
  }

  lemma CoversCons(m: Match, ms: seq<Match>, p: nat)
    requires Covers(ms, p) || m.start <= p < m.end
    ensures Covers([m] + ms, p)
  {
    if m.start <= p < m.end {
      assert ([m] + ms)[0] == m;
    } else {
      var k :| 0 <= k < |ms| && ms[k].start <= p < ms[k].end;
      assert ([m] + ms)[k + 1] == ms[k];
    }
  }

  /** Each match ends before any later one starts. */
  predicate Disjoint(ms: seq<Match>) {
    forall i, j :: 0 <= i < j < |ms| ==> ms[i].end <= ms[j].start
  }

  // ------------------------------------------------ PAGE_REFERENCE:\s*(\d+)

  /**
   * What the regular expression accepts at `r.start`: the marker, whitespace,
   * then a maximal non-empty run of digits (the engine is greedy and `\s`, `\d`
   * are disjoint, so no other split exists).
   */
  predicate IsPageRef(s: string, r: Match) {
    && MarkerAt(s, r.start, PageMarker)
    && r.start + |PageMarker| <= r.groupStart < r.end <= |s|
    && (forall k :: r.start + |PageMarker| <= k < r.groupStart ==> IsSpace(s[k]))
    && (forall k :: r.groupStart <= k < r.end ==> IsDigit(s[k]))
    && (r.end < |s| ==> !IsDigit(s[r.end]))
  }

  /** The match of the page-reference pattern beginning exactly at `i`, if there is one. */
  function PageRefAt(s: string, i: nat): (r: Option<Match>)
    requires i <= |s|
    ensures r.Some? ==> r.value.start == i && IsPageRef(s, r.value)
  {
    if MarkerAt(s, i, PageMarker) then
      var j := SkipSpaces(s, i + |PageMarker|);
      var k := SkipDigits(s, j);
      if j < k then Some(Match(i, j, k)) else None
    else None
  }

  /** The pattern admits at most one match at a position, and the scanner finds it. */
  lemma PageRefUnique(s: string, m: Match)
    requires IsPageRef(s, m)
    ensures PageRefAt(s, m.start) == Some(m)
  {
    var j := SkipSpaces(s, m.start + |PageMarker|);
    assert !IsSpace(s[m.groupStart]);
    assert j == m.groupStart;
    var k := SkipDigits(s, j);
    assert k == m.end;
  }

  /** Where `text.match(/PAGE_REFERENCE:\s*(\d+)/i)` finds its match, searching from `from`. */
  function FindPageRef(s: string, from: nat): (r: Option<nat>)
    requires from <= |s|
    decreases |s| - from
    ensures r.Some? ==> from <= r.value <= |s| && PageRefAt(s, r.value).Some?
    ensures r.Some? ==> forall j :: from <= j < r.value ==> PageRefAt(s, j).None?
    ensures r.None? ==> forall j :: from <= j <= |s| ==> PageRefAt(s, j).None?
  {
    if PageRefAt(s, from).Some? then Some(from)
    else if from == |s| then None
    else FindPageRef(s, from + 1)
  }

  /** `Number.parseInt` of the captured digits of the first page reference, or null. */
  function PageNumberOf(s: string): (r: Option<nat>)
    ensures r.None? <==> forall j :: 0 <= j <= |s| ==> PageRefAt(s, j).None?
    ensures r.Some? ==>
              exists m :: IsPageRef(s, m) && (forall j :: 0 <= j < m.start ==> PageRefAt(s, j).None?) &&
                AllDigits(s[m.groupStart..m.end]) && r.value == DigitsValue(s[m.groupStart..m.end])
  {
    match FindPageRef(s, 0)
    case None => None
    case Some(i) =>
      var m := PageRefAt(s, i).value;
      Some(DigitsValue(s[m.groupStart..m.end]))
  }

  /** `s.replace(/PAGE_REFERENCE:\s*\d+/gi, "")` applied to `s[from..]`. */
  function StripPageRefs(s: string, from: nat): (r: string)
    requires from <= |s|
    decreases |s| - from
    ensures |r| <= |s| - from
  {
    if from == |s| then []
    else match PageRefAt(s, from)
      case Some(m) => StripPageRefs(s, m.end)
      case None => [s[from]] + StripPageRefs(s, from + 1)
  }

  /**
   * The page references the global replace removes from `s[from..]`: left
   * to right, each search resuming where the previous match ended.
   */
  function PageRefsFrom(s: string, from: nat): (rs: seq<Match>)
    requires from <= |s|
    decreases |s| - from
    ensures forall k :: 0 <= k < |rs| ==> from <= rs[k].start && IsPageRef(s, rs[k])
    ensures Disjoint(rs)
  {
    if from == |s| then []
    else match PageRefAt(s, from)
      case Some(m) => [m] + PageRefsFrom(s, m.end)
      case None => PageRefsFrom(s, from + 1)
  }

  /** No reference survives the scan: every position where the pattern matches lies inside a removed span. */
  lemma {:induction false} PageRefsComplete(s: string, from: nat, p: nat)
    requires from <= p < |s|
    requires PageRefAt(s, p).Some?
    ensures Covers(PageRefsFrom(s, from), p)
    decreases |s| - from
  {
    var here := PageRefAt(s, from);
    if here.Some? {
      var m := here.value;
      assert PageRefsFrom(s, from) == [m] + PageRefsFrom(s, m.end);
      if p >= m.end {
        PageRefsComplete(s, m.end, p);
      }
      CoversCons(m, PageRefsFrom(s, m.end), p);
    } else {
      assert p != from;
      assert PageRefsFrom(s, from) == PageRefsFrom(s, from + 1);
      PageRefsComplete(s, from + 1, p);
    }
  }

  /** The text of `s[from..]` outside the ordered spans `rs`, in order. */
  function Gaps(s: string, from: nat, rs: seq<Match>): string
    requires from <= |s|
    requires forall k :: 0 <= k < |rs| ==> from <= rs[k].start <= rs[k].end <= |s|
    requires Disjoint(rs)
    decreases |rs|
  {
    if rs == [] then s[from..]
    else s[from..rs[0].start] + Gaps(s, rs[0].end, rs[1..])
  }

  /** A character before the first span is kept. */
  lemma GapsKeep(s: string, from: nat, rs: seq<Match>)
    requires from < |s|
    requires forall k :: 0 <= k < |rs| ==> from + 1 <= rs[k].start <= rs[k].end <= |s|
    requires Disjoint(rs)
    ensures Gaps(s, from, rs) == [s[from]] + Gaps(s, from + 1, rs)
  {
    if rs == [] {
      assert s[from..] == [s[from]] + s[from + 1..];
    } else {
      var rest := Gaps(s, rs[0].end, rs[1..]);
      assert Gaps(s, from, rs) == s[from..rs[0].start] + rest;
      assert Gaps(s, from + 1, rs) == s[from + 1..rs[0].start] + rest;
      assert s[from..rs[0].start] == [s[from]] + s[from + 1..rs[0].start];
    }
  }

  /** A span that starts where the text does is skipped whole. */
  lemma GapsSkip(s: string, m: Match, rs: seq<Match>)
    requires m.start <= m.end <= |s|
    requires forall k :: 0 <= k < |rs| ==> m.end <= rs[k].start <= rs[k].end <= |s|
    requires Disjoint(rs)
    ensures Gaps(s, m.start, [m] + rs) == Gaps(s, m.end, rs)
  {
    assert ([m] + rs)[1..] == rs;
  }

  /** The global replace keeps exactly the text between the references the scan finds. */
  lemma {:induction false} StripIsGaps(s: string, from: nat)
    requires from <= |s|
    ensures StripPageRefs(s, from) == Gaps(s, from, PageRefsFrom(s, from))
    decreases |s| - from
  {
    if from < |s| {
      var here := PageRefAt(s, from);
      if here.Some? {
        var m := here.value;
        var rest := PageRefsFrom(s, m.end);
        assert StripPageRefs(s, from) == StripPageRefs(s, m.end);
        assert PageRefsFrom(s, from) == [m] + rest;
        StripIsGaps(s, m.end);
        GapsSkip(s, m, rest);
      } else {
        var rs := PageRefsFrom(s, from + 1);
        assert StripPageRefs(s, from) == [s[from]] + StripPageRefs(s, from + 1);
        assert PageRefsFrom(s, from) == rs;
        StripIsGaps(s, from + 1);
        GapsKeep(s, from, rs);
      }
    }
  }

  /** The text after the page-reference step: stripped and trimmed when a reference was found. */
  function AfterPageRefs(s: string): string {
    if PageNumberOf(s).Some? then Trim(StripPageRefs(s, 0)) else s
  }

  /** Without a page reference, stripping leaves the text as it was. */
  lemma {:induction false} StripWithoutPageRefs(s: string, from: nat)
    requires from <= |s|
    requires forall j :: from <= j <= |s| ==> PageRefAt(s, j).None?
    ensures StripPageRefs(s, from) == s[from..]
    decreases |s| - from
  {
    if from < |s| {
      StripWithoutPageRefs(s, from + 1);
    }
  }

  /** The first reference wins: whatever follows the digits, `PAGE_REFERENCE: <n>` at the front yields page `n`. */
  lemma FirstPageRefWins(n: nat, rest: string)
    requires rest == [] || !IsDigit(rest[0])
    ensures PageNumberOf(PageMarker + " " + NatToString(n) + rest) == Some(n)
  {
    var ds := NatToString(n);
    var s := PageMarker + " " + ds + rest;
    var m := Match(0, 16, 16 + |ds|);
    assert s[16..16 + |ds|] == ds;
    assert forall k :: 0 <= k < |PageMarker| ==> s[k] == PageMarker[k];
    PageRefUnique(s, m);
    assert FindPageRef(s, 0) == Some(0);
    DigitsValueOfNatToString(n);
  }

  // ----------------------------------------------- ANNOTATION:\s*({[^}]+})

  /**
   * What the regular expression accepts: the marker, whitespace, `{`, at
   * least one character other than `}`, and the first `}` after the `{`.
   */
  predicate IsDirective(s: string, d: Match) {
    && MarkerAt(s, d.start, AnnotationMarker)
    && d.start + |AnnotationMarker| <= d.groupStart
    && d.groupStart + 3 <= d.end <= |s|
    && (forall k :: d.start + |AnnotationMarker| <= k < d.groupStart ==> IsSpace(s[k]))
    && s[d.groupStart] == '{'
    && (forall k :: d.groupStart < k < d.end - 1 ==> s[k] != '}')
    && s[d.end - 1] == '}'
  }

  /** The directive beginning exactly at `i`, if there is one; the pattern admits at most one. */
  function DirectiveAt(s: string, i: nat): (r: Option<Match>)
    requires i <= |s|
    ensures r.Some? ==> r.value.start == i && IsDirective(s, r.value)
    ensures forall d: Match :: d.start == i && IsDirective(s, d) ==> r == Some(d)
  {
    if MarkerAt(s, i, AnnotationMarker) then
      var j := SkipSpaces(s, i + |AnnotationMarker|);
      if j < |s| && s[j] == '{' then
        var k := SkipToClose(s, j + 1);
        if j + 1 < k < |s| then Some(Match(i, j, k + 1)) else None
      else None
    else None
  }

  /** The directives of `s[from..]` one after the other, as a global regular-expression scan finds them. */
  function DirectivesFrom(s: string, from: nat): (ds: seq<Match>)
    requires from <= |s|
    decreases |s| - from
    ensures forall k :: 0 <= k < |ds| ==> from <= ds[k].start && IsDirective(s, ds[k])
    ensures Disjoint(ds)
  {
    if from == |s| then []
    else match DirectiveAt(s, from)
      case Some(d) => [d] + DirectivesFrom(s, d.end)
      case None => DirectivesFrom(s, from + 1)
  }

  /** `text.match(/ANNOTATION:\s*({[^}]+})/gi)`, as positions; the empty list stands for `null`. */
  function Directives(s: string): seq<Match> {
    DirectivesFrom(s, 0)
  }

  /**
   * Nothing is missed: every position where the pattern would match lies
   * inside one of the directives found (it is the start of one, or the scan
   * had already consumed it).
   */
  lemma {:induction false} DirectivesComplete(s: string, from: nat, p: nat)
    requires from <= p < |s|
    requires DirectiveAt(s, p).Some?
    ensures Covers(DirectivesFrom(s, from), p)
    decreases |s| - from
  {
    match DirectiveAt(s, from)
    case Some(d) =>
      if p >= d.end {
        DirectivesComplete(s, d.end, p);
      }
      CoversCons(d, DirectivesFrom(s, d.end), p);
    case None =>
      DirectivesComplete(s, from + 1, p);
  }

  /** `annotations` stays null exactly when the pattern matches nowhere. */
  lemma NoDirectivesIff(s: string)
    ensures Directives(s) == [] <==> forall p :: 0 <= p <= |s| ==> DirectiveAt(s, p).None?
  {
    if Directives(s) == [] {
      forall p | 0 <= p <= |s| ensures DirectiveAt(s, p).None? {
        if p < |s| && DirectiveAt(s, p).Some? {
          DirectivesComplete(s, 0, p);
        }
      }
    } else {
      var d := Directives(s)[0];
      assert DirectiveAt(s, d.start) == Some(d);
    }
  }

  /** The positions of `d` lie inside `s`, in order. */
  predicate Fits(s: string, d: Match) {
    d.start <= d.groupStart <= d.end <= |s|
  }

  predicate AllFit(s: string, ds: seq<Match>) {
    forall k :: 0 <= k < |ds| ==> Fits(s, ds[k])
  }

  /** The object literal handed to `JSON.parse`: the match with `ANNOTATION:\s*` removed. */
  function Literal(s: string, d: Match): string
    requires Fits(s, d)
  {
    s[d.groupStart..d.end]
  }

  /** The whole match, as `String.prototype.match` with the `g` flag returns it. */
  function MatchText(s: string, d: Match): string
    requires Fits(s, d)
  {
    s[d.start..d.end]
  }

  /** The successfully decoded literals, in text order. */
  function Decoded(s: string, ds: seq<Match>, decode: string -> Option<RawAnnotation>): seq<RawAnnotation>
    requires AllFit(s, ds)
  {
    if ds == [] then []
    else
      var prev := Decoded(s, ds[..|ds| - 1], decode);
      match decode(Literal(s, ds[|ds| - 1]))
      case Some(raw) => prev + [raw]
      case None => prev
  }

  /** The cleaned text after the loop: each decoded match's first occurrence cut out, then trimmed. */
  function Cleaned(s: string, ds: seq<Match>, decode: string -> Option<RawAnnotation>, start: string): string
    requires AllFit(s, ds)
  {
    if ds == [] then start
    else
      var prev := Cleaned(s, ds[..|ds| - 1], decode, start);
      var d := ds[|ds| - 1];
      if decode(Literal(s, d)).Some? then Trim(RemoveFirst(prev, MatchText(s, d))) else prev
  }

  /** The "extract page reference" step: the page number and the text it leaves. */
  method ExtractPageReference(text: string) returns (pageNumber: Option<nat>, cleaned: string)
    ensures pageNumber == PageNumberOf(text)
    ensures cleaned == AfterPageRefs(text)
  {
    pageNumber := None;
    cleaned := text;
    var pageMatch := FindPageRef(text, 0);
    if pageMatch.Some? {
      var m := PageRefAt(text, pageMatch.value).value;
      pageNumber := Some(DigitsValue(text[m.groupStart..m.end]));
      cleaned := Trim(StripPageRefs(text, 0));
    }
  }

  /**
   * The "extract annotations" step: every match of the original text is
   * decoded in turn; a decoded one is appended and cut out of `start`.
   */
  method ExtractAnnotations(text: string, decode: string -> Option<RawAnnotation>, start: string)
    returns (annotations: Option<seq<RawAnnotation>>, cleaned: string)
    ensures annotations == if Directives(text) == [] then None else Some(Decoded(text, Directives(text), decode))
    ensures cleaned == Cleaned(text, Directives(text), decode, start)
  {
    annotations := None;
    cleaned := start;
    var matches := Directives(text);
    if matches != [] {
      var found;
      found, cleaned := DecodeMatches(text, matches, decode, start);
      annotations := Some(found);
    }
  }

  /**
   * The loop over the matches: each literal is decoded in turn; a decoded
   * one is appended and its match cut out of the text being cleaned.
   */
  method DecodeMatches(text: string, matches: seq<Match>, decode: string -> Option<RawAnnotation>, start: string)
    returns (found: seq<RawAnnotation>, cleaned: string)
    requires AllFit(text, matches)
    ensures found == Decoded(text, matches, decode)
    ensures cleaned == Cleaned(text, matches, decode, start)
  {
    found := [];
    cleaned := start;
    var i := 0;
    while i < |matches|
      invariant 0 <= i <= |matches|
      invariant found == Decoded(text, matches[..i], decode)
      invariant cleaned == Cleaned(text, matches[..i], decode, start)
    {
      var d := matches[i];
      DecodeStep(text, matches, i, decode, start);
      var decoded := decode(Literal(text, d));
      if decoded.Some? {
        found := found + [decoded.value];
        cleaned := Trim(RemoveFirst(cleaned, MatchText(text, d)));
      }
      i := i + 1;
    }
    assert matches[..|matches|] == matches;
  }

  /** One turn of the decoding loop, in terms of the prefix of matches handled so far. */
  lemma DecodeStep(s: string, ds: seq<Match>, i: nat, decode: string -> Option<RawAnnotation>, start: string)
    requires AllFit(s, ds) && i < |ds|
    ensures AllFit(s, ds[..i]) && AllFit(s, ds[..i + 1])
    ensures Decoded(s, ds[..i + 1], decode) ==
            Decoded(s, ds[..i], decode) + (match decode(Literal(s, ds[i])) case Some(r) => [r] case None => [])
    ensures Cleaned(s, ds[..i + 1], decode, start) ==
            if decode(Literal(s, ds[i])).Some?
            then Trim(RemoveFirst(Cleaned(s, ds[..i], decode, start), MatchText(s, ds[i])))
            else Cleaned(s, ds[..i], decode, start)
  {
    assert ds[..i + 1][..i] == ds[..i];
  }

  /**
   * The reply-parsing block: the first page reference, the decoded
   * annotations (null when nothing matched) and the cleaned text.
   */
  method ParseReply(text: string, decode: string -> Option<RawAnnotation>)
    returns (pageNumber: Option<nat>, annotations: Option<seq<RawAnnotation>>, cleaned: string)
    ensures pageNumber == PageNumberOf(text)
    ensures annotations == if Directives(text) == [] then None else Some(Decoded(text, Directives(text), decode))
    ensures cleaned == Cleaned(text, Directives(text), decode, AfterPageRefs(text))
  {
    var afterPage;
    pageNumber, afterPage := ExtractPageReference(text);
    annotations, cleaned := ExtractAnnotations(text, decode, afterPage);
  }

  // ------------------------------------------------- decoding and cleaning

  /** At most one annotation per match. */
  lemma {:induction false} DecodedAtMostMatches(s: string, ds: seq<Match>, decode: string -> Option<RawAnnotation>)
    requires AllFit(s, ds)
    ensures |Decoded(s, ds, decode)| <= |ds|
  {
    if ds != [] {
      DecodedAtMostMatches(s, ds[..|ds| - 1], decode);
    }
  }

  /**
   * A failure does not disturb its neighbours: the annotations of a list of
   * matches are those of its first part followed by those of the rest.
   */
  lemma {:induction false} DecodedSplit(s: string, ds: seq<Match>, k: nat, decode: string -> Option<RawAnnotation>)
    requires AllFit(s, ds) && k <= |ds|
    ensures Decoded(s, ds, decode) == Decoded(s, ds[..k], decode) + Decoded(s, ds[k..], decode)
    decreases |ds|
  {
    if k < |ds| {
      var n := |ds| - 1;
      assert ds[..n][..k] == ds[..k];
      assert ds[k..][..|ds[k..]| - 1] == ds[..n][k..];
      assert ds[k..][|ds[k..]| - 1] == ds[n];
      DecodedSplit(s, ds[..n], k, decode);
    } else {
      assert ds[..k] == ds;
    }
  }

  /** A match that does not decode leaves the cleaned text exactly as it was. */
  lemma FailedMatchLeavesText(s: string, ds: seq<Match>, d: Match, decode: string -> Option<RawAnnotation>, start: string)
    requires AllFit(s, ds) && Fits(s, d)
    requires decode(Literal(s, d)).None?
    ensures Cleaned(s, ds + [d], decode, start) == Cleaned(s, ds, decode, start)
    ensures Decoded(s, ds + [d], decode) == Decoded(s, ds, decode)
  {
    assert (ds + [d])[..|ds|] == ds;
  }

  /** When every literal decodes, there is exactly one annotation per match, each the decoding of its literal. */
  lemma {:induction false} AllDecodedWhenAllParse(s: string, ds: seq<Match>, decode: string -> Option<RawAnnotation>)
    requires AllFit(s, ds)
    requires forall k :: 0 <= k < |ds| ==> decode(Literal(s, ds[k])).Some?
    ensures |Decoded(s, ds, decode)| == |ds|
    ensures forall k :: 0 <= k < |ds| ==> Decoded(s, ds, decode)[k] == decode(Literal(s, ds[k])).value
  {
    if ds != [] {
      var n := |ds| - 1;
      AllDecodedWhenAllParse(s, ds[..n], decode);
    }
  }

  // ------------------------------------- strict JSON and the documented form

  /** JSON's insignificant whitespace. */
  predicate IsJsonSpace(c: char) {
    c == ' ' || c == '\t' || c == '\n' || c == '\r'
  }

  function SkipJsonSpaces(s: string, i: nat): (j: nat)
    requires i <= |s|
    decreases |s| - i
    ensures i <= j <= |s|
  {
    if i < |s| && IsJsonSpace(s[i]) then SkipJsonSpaces(s, i + 1) else i
  }

  /**
   * In strict JSON an object that starts at `{` continues, after whitespace,
   * with a double-quoted key or with `}`.
   */
  predicate QuotedKeyOrEmpty(literal: string) {
    |literal| > 0 && literal[0] == '{' &&
    var j := SkipJsonSpaces(literal, 1);
    j < |literal| && (literal[j] == '"' || literal[j] == '}')
  }

  /**
   * A decoder that, like `JSON.parse`, rejects every object literal starting
   * at `{` whose first key is not double-quoted. Text before the `{` (JSON
   * whitespace that `JSON.parse` skips) is not constrained; the literals a
   * directive hands over always start at `{`.
   */
  ghost predicate StrictKeys(decode: string -> Option<RawAnnotation>) {
    forall literal :: decode(literal).Some? && OpensObject(literal) ==> QuotedKeyOrEmpty(literal)
  }

  /** The text starts with `{`. */
  predicate OpensObject(literal: string) {
    |literal| > 0 && literal[0] == '{'
  }

  /** Every literal the annotation scan hands to the decoder starts at `{`. */
  lemma DirectiveLiteralsOpenObjects(s: string)
    ensures AllFit(s, Directives(s))
    ensures forall k :: 0 <= k < |Directives(s)| ==> OpensObject(Literal(s, Directives(s)[k]))
  {
    var ds := Directives(s);
    forall k | 0 <= k < |ds| ensures Fits(s, ds[k]) && OpensObject(Literal(s, ds[k])) {
      assert IsDirective(s, ds[k]);
      assert Literal(s, ds[k])[0] == s[ds[k].groupStart];
    }
  }

  /**
   * The directive form the prompt documents, `{type: 'highlight', x: 20, ...}`
   * (unquoted or single-quoted keys), never decodes under a strict decoder:
   * the reply yields an empty, non-null annotation list and every such
   * directive stays in the cleaned text.
   */
  lemma {:induction false} UnquotedDirectivesAreDropped(s: string, ds: seq<Match>, decode: string -> Option<RawAnnotation>, start: string)
    requires AllFit(s, ds)
    requires forall k :: 0 <= k < |ds| ==> OpensObject(Literal(s, ds[k]))
    requires StrictKeys(decode)
    requires forall k :: 0 <= k < |ds| ==> !QuotedKeyOrEmpty(Literal(s, ds[k]))
    ensures Decoded(s, ds, decode) == []
    ensures Cleaned(s, ds, decode, start) == start
  {
    if ds != [] {
      UnquotedDirectivesAreDropped(s, ds[..|ds| - 1], decode, start);
    }
  }

  /**
   * The same for a whole reply: when every directive the scan finds is in
   * the documented form, the reply's annotation list is empty and the text
   * keeps every directive.
   */
  lemma UnquotedReplyKeepsDirectives(s: string, decode: string -> Option<RawAnnotation>, start: string)
    requires StrictKeys(decode)
    requires forall k :: 0 <= k < |Directives(s)| ==> !QuotedKeyOrEmpty(Literal(s, Directives(s)[k]))
    ensures Decoded(s, Directives(s), decode) == []
    ensures Cleaned(s, Directives(s), decode, start) == start
  {
    DirectiveLiteralsOpenObjects(s);
    UnquotedDirectivesAreDropped(s, Directives(s), decode, start);
  }

  /** The smallest instance of the documented form: one match, nothing decoded, text untouched. */
  lemma DocumentedExampleIsDropped(decode: string -> Option<RawAnnotation>)
    requires StrictKeys(decode)
    ensures var s := "ANNOTATION: {x: 20}";
            Directives(s) == [Match(0, 12, 19)] &&
            Decoded(s, Directives(s), decode) == [] &&
            Cleaned(s, Directives(s), decode, s) == s
  {
    var s := "ANNOTATION: {x: 20}";
    var d := Match(0, 12, 19);
    assert forall k :: 0 <= k < |AnnotationMarker| ==> s[k] == AnnotationMarker[k];
    assert IsDirective(s, d);
    assert DirectiveAt(s, 0) == Some(d);
    assert DirectivesFrom(s, 19) == [];
    assert Directives(s) == [d];
    assert Literal(s, d) == "{x: 20}";
    assert SkipJsonSpaces("{x: 20}", 1) == 1;
    assert !QuotedKeyOrEmpty(Literal(s, d));
    UnquotedDirectivesAreDropped(s, [d], decode, s);
  }

  // ------------------------------------------------------ title and history

  /** A new chat's title: the first 50 characters, with "..." when the message was longer. */
  function ChatTitle(message: string): (title: string)
    ensures |title| <= 53
    ensures StartsWith(title, Take(message, 50))
    ensures |message| <= 50 ==> title == message
    ensures |message| > 50 ==> |title| == 53 && EndsWith(title, "...")
  {
    Take(message, 50) + (if |message| > 50 then "..." else "")
  }

  /** A message of the chat as stored: the role is a free string. */
  datatype StoredMessage = StoredMessage(role: string, content: string)

  /** `${role === "user" ? "User" : "Assistant"}: ${content}`: a speaker prefix, then the message text verbatim. */
  function HistoryLine(m: StoredMessage): (line: string)
    ensures m.role == "user" ==> StartsWith(line, "User: ") && |line| == |"User: "| + |m.content|
    ensures m.role != "user" ==> StartsWith(line, "Assistant: ") && |line| == |"Assistant: "| + |m.content|
    ensures EndsWith(line, m.content)
  {
    (if m.role == "user" then "User: " else "Assistant: ") + m.content
  }

  /** `lines.join("\n")`: the lines in order with one newline between neighbours. */
  function JoinLines(lines: seq<string>): string {
    if lines == [] then []
    else if |lines| == 1 then lines[0]
    else lines[0] + "\n" + JoinLines(lines[1..])
  }

  /** The characters of all lines plus one separator between each two. */
  function LinesLength(lines: seq<string>): nat {
    if lines == [] then 0 else |lines[0]| + (if |lines| == 1 then 0 else 1 + LinesLength(lines[1..]))
  }

  /**
   * The joined text is empty for no lines; otherwise it starts with the
   * first line, ends with the last, and is as long as the lines plus one
   * separator between each two.
   */
  lemma {:induction false} JoinLinesShape(lines: seq<string>)
    ensures lines == [] ==> JoinLines(lines) == []
    ensures lines != [] ==> StartsWith(JoinLines(lines), lines[0]) && EndsWith(JoinLines(lines), lines[|lines| - 1])
    ensures |JoinLines(lines)| == LinesLength(lines)
    decreases |lines|
  {
    if |lines| > 1 {
      var rest := lines[1..];
      JoinLinesShape(rest);
      var r := JoinLines(lines);
      var tail := JoinLines(rest);
      assert r == lines[0] + "\n" + tail;
      assert r[..|lines[0]|] == lines[0];
      assert rest[|rest| - 1] == lines[|lines| - 1];
      assert r[|r| - |tail|..] == tail;
      assert tail[|tail| - |rest[|rest| - 1]|..] == rest[|rest| - 1];
      assert r[|r| - |rest[|rest| - 1]|..] == tail[|tail| - |rest[|rest| - 1]|..];
    } else if |lines| == 1 {
      assert JoinLines(lines) == lines[0];
      assert lines[0][..|lines[0]|] == lines[0];
      assert lines[0][|lines[0]| - |lines[0]|..] == lines[0];
    }
  }

  /** The conversation history: one line per message, joined with "\n". */
  function History(messages: seq<StoredMessage>): (h: string)
    ensures h == [] <==> messages == []
    ensures messages != [] ==> StartsWith(h, HistoryLine(messages[0]))
  {
    JoinLines(seq(|messages|, i requires 0 <= i < |messages| => HistoryLine(messages[i])))
  }

  lemma {:induction false} JoinLinesAppend(lines: seq<string>, last: string)
    requires lines != []
    ensures JoinLines(lines + [last]) == JoinLines(lines) + "\n" + last
    decreases |lines|
  {
    if |lines| > 1 {
      assert (lines + [last])[1..] == lines[1..] + [last];
      JoinLinesAppend(lines[1..], last);
    } else {
      assert (lines + [last])[1..] == [last];
    }
  }

  /** One more stored message adds one line after a newline (or is the whole history when it is the first). */
  lemma HistoryAppend(messages: seq<StoredMessage>, m: StoredMessage)
    ensures History(messages + [m]) ==
            if messages == [] then HistoryLine(m) else History(messages) + "\n" + HistoryLine(m)
  {
    var lines := seq(|messages|, i requires 0 <= i < |messages| => HistoryLine(messages[i]));
    var more := seq(|messages + [m]|, i requires 0 <= i < |messages + [m]| => HistoryLine((messages + [m])[i]));
    assert more == lines + [HistoryLine(m)];
    if messages != [] {
      JoinLinesAppend(lines, HistoryLine(m));
    }
  }
}
