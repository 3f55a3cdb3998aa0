/**
 * The JavaScript string operations the annotation pipeline relies on:
 * whitespace as `\s` and `trim` see it, ASCII case mapping, `startsWith`,
 * `includes`, `indexOf`, `replace` of a literal string, `slice(0, n)` and the
 * decimal rendering and parsing of non-negative integers.
 */
module Text {
  import opened Options

  /** JavaScript's WhiteSpace and LineTerminator code points: what `\s` matches and what `trim` removes. */
  predicate IsSpace(c: char) {
    c == '\t' || c == '\n' || c == '\U{B}' || c == '\U{C}' || c == '\r' || c == ' ' ||
    c == '\U{A0}' || c == '\U{1680}' || ('\U{2000}' <= c <= '\U{200A}') ||
    c == '\U{2028}' || c == '\U{2029}' || c == '\U{202F}' || c == '\U{205F}' ||
    c == '\U{3000}' || c == '\U{FEFF}'
  }

  /** What the regular-expression class `\d` matches. */
  predicate IsDigit(c: char) {
    '0' <= c <= '9'
  }

  predicate AllDigits(s: string) {
    forall i :: 0 <= i < |s| ==> IsDigit(s[i])
  }

  /** ASCII upper-casing: the canonical form a non-Unicode `/i` regular expression compares ASCII letters in. */
  function ToUpper(c: char): char {
    if 'a' <= c <= 'z' then (c as int - 32) as char else c
  }

  /** ASCII lower-casing; full Unicode case mapping is not modelled. */
  function ToLower(c: char): char {
    if 'A' <= c <= 'Z' then (c as int + 32) as char else c
  }

  function Lower(s: string): (r: string)
    ensures |r| == |s|
    ensures forall i :: 0 <= i < |s| ==> r[i] == ToLower(s[i])
  {
    seq(|s|, i requires 0 <= i < |s| => ToLower(s[i]))
  }

  function Upper(s: string): (r: string)
    ensures |r| == |s|
    ensures forall i :: 0 <= i < |s| ==> r[i] == ToUpper(s[i])
  {
    seq(|s|, i requires 0 <= i < |s| => ToUpper(s[i]))
  }

  // ---------------------------------------------------------------- trim

  /** Number of whitespace characters at the front of `s`. */
  function LeadingSpaces(s: string): (k: nat)
    ensures k <= |s|
    ensures forall j :: 0 <= j < k ==> IsSpace(s[j])
    ensures k < |s| ==> !IsSpace(s[k])
  {
    if |s| > 0 && IsSpace(s[0]) then 1 + LeadingSpaces(s[1..]) else 0
  }

  /** Number of whitespace characters at the back of `s`. */
  function TrailingSpaces(s: string): (k: nat)
    ensures k <= |s|
    ensures forall j :: |s| - k <= j < |s| ==> IsSpace(s[j])
    ensures k < |s| ==> !IsSpace(s[|s| - 1 - k])
  {
    if |s| > 0 && IsSpace(s[|s| - 1]) then 1 + TrailingSpaces(s[..|s| - 1]) else 0
  }

  /** `s[a..b]` is a slice of `s` with only whitespace before and after it. */
  predicate SpacesOutside(s: string, a: nat, b: nat) {
    a <= b <= |s| &&
    (forall j :: 0 <= j < a ==> IsSpace(s[j])) &&
    (forall j :: b <= j < |s| ==> IsSpace(s[j]))
  }

  /** `s.trim()`: the longest slice of `s` that neither starts nor ends with whitespace. */
  function Trim(s: string): (r: string)
    ensures |r| <= |s|
    ensures r == [] || (!IsSpace(r[0]) && !IsSpace(r[|r| - 1]))
    ensures r == [] <==> forall j :: 0 <= j < |s| ==> IsSpace(s[j])
    ensures exists a: nat, b: nat :: SpacesOutside(s, a, b) && r == s[a..b]
  {
    var t := s[LeadingSpaces(s)..];
    TrimIsSlice(s, t);
    t[..|t| - TrailingSpaces(t)]
  }

  /** The trimmed text is the part of `s` between a whitespace-only front and a whitespace-only back. */
  lemma TrimIsSlice(s: string, t: string)
    requires t == s[LeadingSpaces(s)..]
    ensures exists a: nat, b: nat :: SpacesOutside(s, a, b) && t[..|t| - TrailingSpaces(t)] == s[a..b]
  {
    var a := LeadingSpaces(s);
    var c := TrailingSpaces(t);
    var b := |s| - c;
    assert |t| == |s| - a;
    forall j | b <= j < |s| ensures IsSpace(s[j]) {
      assert t[j - a] == s[j];
    }
    assert SpacesOutside(s, a, b);
    assert t[..|t| - c] == s[a..b];
  }

  lemma TrimKeepsTrimmed(s: string)
    requires s == [] || (!IsSpace(s[0]) && !IsSpace(s[|s| - 1]))
    ensures Trim(s) == s
  {
    assert LeadingSpaces(s) == 0;
    assert s[0..] == s;
  }

  lemma TrimIdempotent(s: string)
    ensures Trim(Trim(s)) == Trim(s)
  {
    TrimKeepsTrimmed(Trim(s));
  }

  // ------------------------------------------------- searching in strings

  predicate OccursAt(s: string, p: string, i: nat) {
    i + |p| <= |s| && s[i..i + |p|] == p
  }

  /** `s.startsWith(p)`. */
  predicate StartsWith(s: string, p: string) {
    OccursAt(s, p, 0)
  }

  /** `s.endsWith(p)`. */
  predicate EndsWith(s: string, p: string) {
    |p| <= |s| && OccursAt(s, p, |s| - |p|)
  }

  /** `s.indexOf(p, from)`: the first position at or after `from` where `p` occurs. */
  function IndexOfFrom(s: string, p: string, from: nat): (r: Option<nat>)
    requires from <= |s|
    decreases |s| - from
    ensures r.Some? ==> from <= r.value && OccursAt(s, p, r.value)
    ensures r.Some? ==> forall j :: from <= j < r.value ==> !OccursAt(s, p, j)
    ensures r.None? ==> forall j :: from <= j ==> !OccursAt(s, p, j)
  {
    if OccursAt(s, p, from) then Some(from)
    else if from == |s| then None
    else IndexOfFrom(s, p, from + 1)
  }

  function IndexOf(s: string, p: string): Option<nat> {
    IndexOfFrom(s, p, 0)
  }

  /** `s.includes(p)`. */
  predicate Contains(s: string, p: string) {
    IndexOf(s, p).Some?
  }

  lemma ContainsAt(s: string, p: string, i: nat)
    requires OccursAt(s, p, i)
    ensures Contains(s, p)
  {
  }

  /** The empty string occurs in every string (`"abc".includes("")` is true). */
  lemma ContainsEmpty(s: string)
    ensures Contains(s, [])
  {
    assert OccursAt(s, [], 0);
  }

  /**
   * `s.replace(p, "")` with a string pattern: the first occurrence of `p`, if any,
   * is cut out and nothing else changes.
   */
  function RemoveFirst(s: string, p: string): (r: string)
    ensures IndexOf(s, p).None? ==> r == s
    ensures IndexOf(s, p).Some? ==>
              |r| == |s| - |p| &&
              r == s[..IndexOf(s, p).value] + s[IndexOf(s, p).value + |p|..]
  {
    match IndexOf(s, p)
    case None => s
    case Some(i) => s[..i] + s[i + |p|..]
  }

  /** `s.slice(0, n)`. */
  function Take(s: string, n: nat): (r: string)
    ensures |r| == if |s| <= n then |s| else n
    ensures StartsWith(s, r)
  {
    if |s| <= n then s else s[..n]
  }

  // ------------------------------------------------------ decimal numbers

  function DigitChar(d: nat): (c: char)
    requires d < 10
    ensures IsDigit(c)
  {
    ('0' as int + d) as char
  }

  function DigitValue(c: char): (d: nat)
    requires IsDigit(c)
    ensures d < 10 && DigitChar(d) == c
  {
    c as int - '0' as int
  }

  /** The template-literal rendering `${n}` of a non-negative integer: decimal, no leading zeros. */
  function NatToString(n: nat): (r: string)
    ensures |r| >= 1 && AllDigits(r)
    ensures |r| > 1 ==> r[0] != '0'
    decreases n
  {
    if n < 10 then [DigitChar(n)] else NatToString(n / 10) + [DigitChar(n % 10)]
  }

  /** `Number.parseInt` of a string of decimal digits (leading zeros allowed). */
  function DigitsValue(ds: string): (r: nat)
    requires AllDigits(ds)
    ensures ds != [] && ds[0] == '0' ==> r == DigitsValue(ds[1..])
  {
    if ds == [] then 0
    else
      var init := ds[..|ds| - 1];
      var last := DigitValue(ds[|ds| - 1]);
      assert |ds| > 1 ==> init[1..] == ds[1..][..|ds| - 2] && ds[1..][|ds| - 2] == ds[|ds| - 1];
      assert |ds| == 1 && ds[0] == '0' ==> last == 0 && ds[1..] == [];
      DigitsValue(init) * 10 + last
  }

  lemma {:induction false} DigitsValueOfNatToString(n: nat)
    ensures DigitsValue(NatToString(n)) == n
    decreases n
  {
    if n >= 10 {
      DigitsValueOfNatToString(n / 10);
      var s := NatToString(n);
      assert s[..|s| - 1] == NatToString(n / 10);
    }
  }

  /** Distinct numbers render to distinct strings. */
  lemma NatToStringInjective(p: nat, q: nat)
    requires NatToString(p) == NatToString(q)
    ensures p == q
  {
    DigitsValueOfNatToString(p);
    DigitsValueOfNatToString(q);
  }
}
