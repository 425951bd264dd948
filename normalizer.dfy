/**
 * The string stages of `cleanupDescription` in content.js and the length
 * cap each extractor applies to the description it found.  The DOM part of
 * `cleanupDescription` (parsing the markup into a scratch element and
 * removing its script and style elements) and the three lazy paragraph,
 * list-item and heading rewrites are supplied by the caller as functions.
 */
module Normalizer {
  import opened Wrappers
  import opened JsString

  // ---------------------------------------------------------------- <br> tags

  /** Length of a match of `/<br\s*\/?>/i` at the very start of `s`, if there is one. */
  function BreakTagLength(s: string): (r: Option<nat>)
    ensures r.Some? ==> 4 <= r.value <= |s|
  {
    if |s| >= 3 && s[0] == '<' && LowerChar(s[1]) == 'b' && LowerChar(s[2]) == 'r' then
      var rest := TrimStart(s[3..]);
      var gap := |s| - 3 - |rest|;
      if rest != [] && rest[0] == '>' then Some(3 + gap + 1)
      else if |rest| >= 2 && rest[0] == '/' && rest[1] == '>' then Some(3 + gap + 2)
      else None
    else None
  }

  /** `s.replace(/<br\s*\/?>/gi, '\n')` */
  function BreaksToNewlines(s: string): string
    decreases |s|
  {
    if s == [] then []
    else match BreakTagLength(s)
      case Some(n) => "\n" + BreaksToNewlines(s[n..])
      case None => [s[0]] + BreaksToNewlines(s[1..])
  }

  // ------------------------------------------------------------ all other tags

  /** No `<` of `s` is followed, anywhere later, by a `>`: nothing shaped like a tag is left. */
  predicate NoTagLeft(s: string) {
    forall k | 0 <= k < |s| :: s[k] == '<' ==> '>' !in s[k + 1..]
  }

  /** `r` is `s` with some characters deleted: its characters occur in `s` in the same order. */
  predicate IsSubseq(r: string, s: string)
    decreases |s|
  {
    r == [] || (s != [] && ((r[0] == s[0] && IsSubseq(r[1..], s[1..])) || IsSubseq(r, s[1..])))
  }

  /** Deleting a prefix of `s` and then more characters is still a deletion from `s`. */
  lemma {:induction false} SubseqOfSuffix(r: string, s: string, k: nat)
    requires k <= |s| && IsSubseq(r, s[k..])
    ensures IsSubseq(r, s)
    decreases k
  {
    if k > 0 {
      assert s[k - 1..][1..] == s[k..];
      SubseqOfSuffix(r, s, k - 1);
    }
  }

  /**
   * `s.replace(/<[^>]*>/g, '')`: from each `<` that has a `>` after it, up to
   * and including the first such `>`, the text is removed; a `<` with no
   * later `>` stays.
   */
  function StripTags(s: string): (r: string)
    decreases |s|
    ensures IsSubseq(r, s)
    ensures forall c | c in r :: c in s
    ensures NoTagLeft(r)
  {
    if s == [] then []
    else if s[0] == '<' then
      match IndexOf(s, ">")
      case Some(j) =>
        var r := StripTags(s[j + 1..]);
        SubseqOfSuffix(r, s, j + 1);
        r
      case None =>
        assert forall k | 1 <= k < |s| :: s[k] != '>' by {
          forall k | 1 <= k < |s| ensures s[k] != '>' { assert !OccursAt(s, ">", k); }
        }
        var rest := StripTags(s[1..]);
        assert ([s[0]] + rest)[1..] == rest;
        [s[0]] + rest
    else
      var rest := StripTags(s[1..]);
      assert ([s[0]] + rest)[1..] == rest;
      [s[0]] + rest
  }

  /** A second pass of the tag pattern finds nothing: stripping tags is idempotent. */
  lemma {:induction false} StripTagsIdempotent(s: string)
    ensures StripTags(StripTags(s)) == StripTags(s)
  {
    StripTagsFixed(StripTags(s));
  }

  lemma {:induction false} StripTagsFixed(t: string)
    requires NoTagLeft(t)
    ensures StripTags(t) == t
    decreases |t|
  {
    if t != [] {
      assert NoTagLeft(t[1..]) by {
        forall k | 0 <= k < |t[1..]| && t[1..][k] == '<' ensures '>' !in t[1..][k + 1..] {
          assert t[1..][k + 1..] == t[k + 2..];
        }
      }
      if t[0] == '<' {
        assert '>' !in t[1..];
      }
      StripTagsFixed(t[1..]);
    }
  }

  // --------------------------------------------------------- whitespace stage

  /** The leading line feeds of `s` removed. */
  function DropLeadingNewlines(s: string): (r: string)
    ensures |r| <= |s| && r == s[|s| - |r|..]
    ensures forall k | 0 <= k < |s| - |r| :: s[k] == '\n'
    ensures r == [] || r[0] != '\n'
  {
    if s != [] && s[0] == '\n' then DropLeadingNewlines(s[1..]) else s
  }

  /** `s.replace(/\n{3,}/g, '\n\n')` */
  function CollapseBlankLines(s: string): (r: string)
    decreases |s|
    ensures '\n' !in s ==> r == s
    ensures s != [] && s[0] != '\n' ==> r != [] && r[0] == s[0]
    ensures s != [] && s[|s| - 1] != '\n' ==> r != [] && r[|r| - 1] == s[|s| - 1]
  {
    if s == [] then []
    else if |s| >= 3 && s[0] == '\n' && s[1] == '\n' && s[2] == '\n' then
      var rest := DropLeadingNewlines(s);
      assert s[|s| - 1] != '\n' ==> rest != [] && rest[|rest| - 1] == s[|s| - 1];
      "\n\n" + CollapseBlankLines(rest)
    else
      var rest := CollapseBlankLines(s[1..]);
      assert '\n' !in s ==> '\n' !in s[1..] && [s[0]] + s[1..] == s;
      assert rest == [] ==> |s| == 1;
      [s[0]] + rest
  }

  /** `s.replace(/\n\s+/g, '\n')` */
  function DropIndentation(s: string): (r: string)
    decreases |s|
    ensures '\n' !in s ==> r == s
  {
    if s == [] then []
    else if s[0] == '\n' && |s| >= 2 && IsSpace(s[1]) then "\n" + DropIndentation(TrimStart(s[1..]))
    else [s[0]] + DropIndentation(s[1..])
  }

  /** `s.replace(/\n+$/, '')` */
  function DropTrailingNewlines(s: string): (r: string)
    ensures '\n' !in s ==> r == s
  {
    if s != [] && s[|s| - 1] == '\n' then DropTrailingNewlines(s[..|s| - 1]) else s
  }

  /** The whitespace clean-up of `cleanupDescription`, in the order the code applies it. */
  function Tidy(s: string): string {
    DropTrailingNewlines(DropIndentation(CollapseSpace(CollapseBlankLines(Trim(s)))))
  }

  /** What the whitespace stage guarantees about its output. */
  predicate IsTidy(r: string) {
    && '\n' !in r
    && NoSpaceRuns(r)
    && OnlyPlainSpaces(r)
    && (r == [] || (!IsSpace(r[0]) && !IsSpace(r[|r| - 1])))
  }

  /**
   * Because `\s+` is replaced after `trim`, the output holds no line feed at
   * all, no two adjacent whitespace characters and no leading or trailing
   * whitespace; the three line-feed rules after it find nothing to do.
   */
  lemma TidyShape(s: string)
    ensures IsTidy(Tidy(s))
    ensures Tidy(s) == CollapseSpace(CollapseBlankLines(Trim(s)))
  {
    var t := Trim(s);
    TrimEdges(s);
    var b := CollapseBlankLines(t);
    var c := CollapseSpace(b);
    PlainSpacesHaveNoNewline(c);
    assert Tidy(s) == c;
    if t != [] {
      assert c != [] && c[0] == t[0] && c[|c| - 1] == t[|t| - 1];
    }
  }

  /** Text whose only whitespace is the plain space has no line feed. */
  lemma PlainSpacesHaveNoNewline(c: string)
    requires OnlyPlainSpaces(c)
    ensures '\n' !in c
  {
    if '\n' in c {
      var k :| 0 <= k < |c| && c[k] == '\n';
      assert IsSpace(c[k]);
    }
  }

  /** Running the whitespace stage on its own output changes nothing. */
  lemma TidyIdempotent(s: string)
    ensures Tidy(Tidy(s)) == Tidy(s)
  {
    var r := Tidy(s);
    TidyShape(s);
    TrimOfTrimmed(r);
    CollapseSpaceFixed(r);
  }

  /** An empty or all-whitespace fragment tidies to the empty string, and only such a fragment does. */
  lemma TidyEmptyIff(s: string)
    ensures Tidy(s) == [] <==> AllSpace(s)
  {
    TidyShape(s);
    TrimEmptyIff(s);
  }

  // ------------------------------------------------------------------- pipeline

  /**
   * `cleanupDescription(html)`.  `sanitize` is the DOM step (parse into a
   * scratch element, drop script and style elements, read `innerHTML` back);
   * it yields None when that step throws.  `rewriteBlocks` is the three lazy
   * `<p>`, `<li>` and `<h1-6>` rewrites.
   */
  function CleanupDescription(html: string, sanitize: string -> Option<string>,
                              rewriteBlocks: string -> string): (r: Option<string>)
    ensures html == [] ==> r == Some([])
    ensures r.Some? ==> IsTidy(r.value)
  {
    if html == [] then Some([])
    else match sanitize(html)
      case None => None
      case Some(markup) =>
        var text := StripTags(rewriteBlocks(BreaksToNewlines(markup)));
        TidyShape(text);
        Some(Tidy(text))
  }

  // ----------------------------------------------------------------- length cap

  /** `if (d.length > n) d = d.substring(0, n) + '...'` */
  function CapWithEllipsis(s: string, n: nat): (r: string)
    ensures |s| <= n ==> r == s
    ensures |s| > n ==> r == s[..n] + "..."
    ensures |r| <= n + 3
  {
    if |s| > n then s[..n] + "..." else s
  }

  /** The fallback `textContent.trim().replace(/\s+/g, ' ')` is as tidy as a cleaned description. */
  lemma CollapsedTrimIsTidy(s: string)
    ensures IsTidy(CollapseSpace(Trim(s)))
  {
    var t := Trim(s);
    PlainSpacesHaveNoNewline(CollapseSpace(t));
    TrimEdges(s);
    if t != [] {
      CollapseKeepsEdges(t);
    }
  }

  /** Collapsing whitespace keeps a non-space first and last character. */
  lemma CollapseKeepsEdges(t: string)
    requires t != [] && !IsSpace(t[0]) && !IsSpace(t[|t| - 1])
    ensures var r := CollapseSpace(t); r != [] && !IsSpace(r[0]) && !IsSpace(r[|r| - 1])
  {
  }

  /** Cutting a tidy description and appending the ellipsis leaves it tidy. */
  lemma CapKeepsTidy(s: string, n: nat)
    requires IsTidy(s)
    ensures IsTidy(CapWithEllipsis(s, n))
  {
    if |s| > n {
      var p := s[..n];
      var r := p + "...";
      assert forall k | 0 <= k < |p| :: r[k] == s[k];
      assert forall k | |p| <= k < |r| :: r[k] == '.';
    }
  }
}
