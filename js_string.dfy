/**
 * The JavaScript string operations the extension relies on: `trim`, ASCII
 * `toLowerCase`, `includes`, `split(sep)[0]`, `substring(0, n)` and the
 * recurring `replace(/\s+/g, ' ')`.  Strings are sequences of characters;
 * lengths are counted in characters.
 */
module JsString {
  import opened Wrappers

  /** The characters matched by `\s` and removed by `trim` in ECMAScript (WhiteSpace and LineTerminator). */
  predicate IsSpace(c: char) {
    c == ' ' || c == '\t' || c == '\n' || c == '\r' || c == '\U{000B}' || c == '\U{000C}'
    || c == '\U{00A0}' || c == '\U{1680}' || ('\U{2000}' <= c <= '\U{200A}')
    || c == '\U{2028}' || c == '\U{2029}' || c == '\U{202F}' || c == '\U{205F}'
    || c == '\U{3000}' || c == '\U{FEFF}'
  }

  predicate AllSpace(s: string) {
    forall k | 0 <= k < |s| :: IsSpace(s[k])
  }

  /** Leading whitespace removed: the longest suffix of `s` that does not start with whitespace. */
  function TrimStart(s: string): (r: string)
    ensures |r| <= |s| && r == s[|s| - |r|..]
    ensures AllSpace(s[..|s| - |r|])
    ensures r == [] || !IsSpace(r[0])
  {
    if s != [] && IsSpace(s[0]) then TrimStart(s[1..]) else s
  }

  /** Trailing whitespace removed: the longest prefix of `s` that does not end with whitespace. */
  function TrimEnd(s: string): (r: string)
    ensures |r| <= |s| && r == s[..|r|]
    ensures AllSpace(s[|r|..])
    ensures r == [] || !IsSpace(r[|r| - 1])
  {
    if s != [] && IsSpace(s[|s| - 1]) then TrimEnd(s[..|s| - 1]) else s
  }

  /** `s.trim()` */
  function Trim(s: string): string {
    TrimEnd(TrimStart(s))
  }

  /** A trimmed string neither starts nor ends with whitespace. */
  lemma TrimEdges(s: string)
    ensures Trim(s) == [] || (!IsSpace(Trim(s)[0]) && !IsSpace(Trim(s)[|Trim(s)| - 1]))
  {
    var t := TrimStart(s);
    if Trim(s) != [] {
      assert Trim(s)[0] == t[0];
    }
  }

  /** `s.trim()` is empty exactly when `s` consists of whitespace only. */
  lemma TrimEmptyIff(s: string)
    ensures Trim(s) == [] <==> AllSpace(s)
  {
    var t := TrimStart(s);
    if Trim(s) == [] {
      assert AllSpace(t[0..]);
      assert s == s[..|s| - |t|] + t;
    }
  }

  /** A string containing a non-whitespace character trims to a non-empty string. */
  lemma TrimNonEmpty(s: string, k: nat)
    requires k < |s| && !IsSpace(s[k])
    ensures Trim(s) != []
  {
    TrimEmptyIff(s);
  }

  /** Trimming a string that neither starts nor ends with whitespace changes nothing. */
  lemma TrimOfTrimmed(s: string)
    requires s == [] || (!IsSpace(s[0]) && !IsSpace(s[|s| - 1]))
    ensures Trim(s) == s
  {
  }

  /** ASCII part of `toLowerCase`. */
  function LowerChar(c: char): (r: char)
    ensures 'A' <= c <= 'Z' ==> r as int == c as int + 32
    ensures !('A' <= c <= 'Z') ==> r == c
  {
    if 'A' <= c <= 'Z' then (c as int + 32) as char else c
  }

  /** `s.toLowerCase()`, restricted to ASCII letters. */
  function Lower(s: string): (r: string)
    ensures |r| == |s|
    ensures forall k | 0 <= k < |s| :: r[k] == LowerChar(s[k])
  {
    seq(|s|, k requires 0 <= k < |s| => LowerChar(s[k]))
  }

  /** Lowering keeps a character whitespace or not. */
  lemma LowerCharSpace(c: char)
    ensures IsSpace(LowerChar(c)) == IsSpace(c)
  {
  }

  /** `needle` occurs in `s` at position `i`. */
  predicate OccursAt(s: string, needle: string, i: nat) {
    i + |needle| <= |s| && s[i..i + |needle|] == needle
  }

  /** The first position at or after `from` where `needle` occurs. */
  function IndexFrom(s: string, needle: string, from: nat): (r: Option<nat>)
    decreases |s| - from
    ensures r.Some? ==> from <= r.value && OccursAt(s, needle, r.value)
    ensures r.Some? ==> forall j | from <= j < r.value :: !OccursAt(s, needle, j)
    ensures r.None? ==> forall j | from <= j :: !OccursAt(s, needle, j)
  {
    if from + |needle| > |s| then None
    else if s[from..from + |needle|] == needle then Some(from)
    else IndexFrom(s, needle, from + 1)
  }

  /** `s.indexOf(needle)`, as an option. */
  function IndexOf(s: string, needle: string): Option<nat> {
    IndexFrom(s, needle, 0)
  }

  /** `s.includes(needle)` */
  predicate Includes(s: string, needle: string) {
    IndexOf(s, needle).Some?
  }

  /** `includes` holds exactly when the needle occurs somewhere. */
  lemma IncludesIff(s: string, needle: string)
    ensures Includes(s, needle) <==> exists i: nat :: OccursAt(s, needle, i)
  {
  }

  /** `s.split(sep)[0]`: the text before the first occurrence of `sep`, or all of `s`. */
  function BeforeFirst(s: string, sep: string): (r: string)
    requires sep != []
    ensures IsPrefixOf(r, s)
  {
    match IndexOf(s, sep)
    case Some(i) => s[..i]
    case None => s
  }

  predicate IsPrefixOf(p: string, s: string) {
    |p| <= |s| && s[..|p|] == p
  }

  /** `split(sep)[0]` of `head + sep + tail` is `head` when the separator's first character does not occur in `head`. */
  lemma BeforeFirstOf(head: string, sep: string, tail: string)
    requires sep != [] && sep[0] !in head
    ensures BeforeFirst(head + sep + tail, sep) == head
  {
    var s := head + sep + tail;
    assert OccursAt(s, sep, |head|);
    forall j | 0 <= j < |head|
      ensures !OccursAt(s, sep, j)
    {
      assert s[j] == head[j];
    }
  }

  /** No two adjacent characters of `s` are both whitespace. */
  predicate NoSpaceRuns(s: string) {
    forall k | 0 <= k < |s| - 1 :: !(IsSpace(s[k]) && IsSpace(s[k + 1]))
  }

  /** The only whitespace character left in `s` is the plain space. */
  predicate OnlyPlainSpaces(s: string) {
    forall k | 0 <= k < |s| :: IsSpace(s[k]) ==> s[k] == ' '
  }

  /** The characters of `s` that are not whitespace, in order. */
  function NonSpace(s: string): string
    decreases |s|
  {
    if s == [] then [] else (if IsSpace(s[0]) then [] else [s[0]]) + NonSpace(s[1..])
  }

  /** Dropping leading whitespace leaves the non-whitespace text as it was. */
  lemma {:induction false} NonSpaceTrimStart(s: string)
    ensures NonSpace(TrimStart(s)) == NonSpace(s)
    decreases |s|
  {
    if s != [] && IsSpace(s[0]) {
      NonSpaceTrimStart(s[1..]);
    }
  }

  /** `s.replace(/\s+/g, ' ')`: each maximal run of whitespace becomes a single space. */
  function CollapseSpace(s: string): (r: string)
    decreases |s|
    ensures |r| <= |s| && (r == [] <==> s == [])
    ensures OnlyPlainSpaces(r) && NoSpaceRuns(r)
    ensures s != [] && !IsSpace(s[0]) ==> r[0] == s[0]
    ensures s != [] && IsSpace(s[0]) ==> r[0] == ' '
    ensures s != [] && !IsSpace(s[|s| - 1]) ==> r[|r| - 1] == s[|s| - 1]
  {
    if s == [] then []
    else if IsSpace(s[0]) then [' '] + CollapseSpace(TrimStart(s))
    else [s[0]] + CollapseSpace(s[1..])
  }

  /** Collapsing whitespace runs changes only whitespace: the other characters stay, in order. */
  lemma {:induction false} CollapseKeepsText(s: string)
    ensures NonSpace(CollapseSpace(s)) == NonSpace(s)
    decreases |s|
  {
    if s != [] {
      var r := CollapseSpace(s);
      if IsSpace(s[0]) {
        CollapseKeepsText(TrimStart(s));
        NonSpaceTrimStart(s);
        assert r[1..] == CollapseSpace(TrimStart(s));
      } else {
        CollapseKeepsText(s[1..]);
        assert r[1..] == CollapseSpace(s[1..]);
      }
    }
  }

  /** `\s+` finds nothing to change in a string whose whitespace is single plain spaces. */
  lemma {:induction false} CollapseSpaceFixed(s: string)
    requires OnlyPlainSpaces(s) && NoSpaceRuns(s)
    ensures CollapseSpace(s) == s
    decreases |s|
  {
    if s != [] {
      assert OnlyPlainSpaces(s[1..]) && NoSpaceRuns(s[1..]);
      if IsSpace(s[0]) {
        assert TrimStart(s) == s[1..];
      }
      CollapseSpaceFixed(s[1..]);
    }
  }

  /** `s.substring(0, n)` for a non-negative `n`. */
  function Take(s: string, n: nat): (r: string)
    ensures |r| == if |s| <= n then |s| else n
    ensures IsPrefixOf(r, s)
  {
    if |s| <= n then s else s[..n]
  }

  function DigitChar(d: nat): (c: char)
    requires d < 10
    ensures '0' <= c <= '9' && c as int - '0' as int == d
  {
    ('0' as int + d) as char
  }

  predicate AllDigits(s: string) {
    forall k | 0 <= k < |s| :: '0' <= s[k] <= '9'
  }

  /** The number a string of decimal digits spells, most significant digit first. */
  function DigitsValue(s: string): nat
    requires AllDigits(s)
    decreases |s|
  {
    if s == [] then 0 else DigitsValue(s[..|s| - 1]) * 10 + (s[|s| - 1] as int - '0' as int)
  }

  /** Decimal rendering of a non-negative integer, as a template literal prints it. */
  function NatToString(n: nat): (r: string)
    ensures r != [] && AllDigits(r)
    ensures DigitsValue(r) == n
    ensures |r| > 1 ==> r[0] != '0'
  {
    if n < 10 then [DigitChar(n)]
    else
      var head := NatToString(n / 10);
      var r := head + [DigitChar(n % 10)];
      assert r[..|r| - 1] == head;
      r
  }
}
