/**
 * The search `RegExp(r'\[.*\]').firstMatch(text)`. Dart regular expressions
 * follow ECMAScript (ECMA-262, section 22.2): without the dotAll flag `.`
 * matches every character except a line terminator, `*` is greedy, and
 * `firstMatch` reports the match found at the smallest start position.
 */
module BracketMatch {
  import opened Wrappers

  /** The four ECMAScript line terminators: LF, CR, LINE SEPARATOR, PARAGRAPH SEPARATOR. */
  predicate IsLineTerminator(c: char) {
    c == '\n' || c == '\r' || c == '\U{2028}' || c == '\U{2029}'
  }

  /** No character of s[lo..hi] is a line terminator. */
  predicate OnOneLine(s: string, lo: int, hi: int)
    requires 0 <= lo <= hi <= |s|
  {
    forall p :: lo <= p < hi ==> !IsLineTerminator(s[p])
  }

  /** No character of s is a line terminator. */
  predicate NoLineTerminator(s: string) {
    forall p :: 0 <= p < |s| ==> !IsLineTerminator(s[p])
  }

  /** s[i..j] is matched by the pattern `\[.*\]`. */
  predicate IsMatch(s: string, i: int, j: int) {
    0 <= i && i + 2 <= j <= |s| && s[i] == '[' && s[j - 1] == ']' && OnOneLine(s, i, j)
  }

  /**
   * s[i..j] is the match `firstMatch` reports: no match starts before i, and
   * no match starting at i is longer (the greedy `.*`).
   */
  ghost predicate IsFirstMatch(s: string, i: int, j: int) {
    && IsMatch(s, i, j)
    && (forall k, l :: IsMatch(s, k, l) ==> i <= k)
    && (forall l :: IsMatch(s, i, l) ==> l <= j)
  }

  /** Where a `.*` begun at position k has to stop: the first line terminator at or after k, or the end. */
  function LineEnd(s: string, k: nat): (e: nat)
    requires k <= |s|
    ensures k <= e <= |s|
    ensures OnOneLine(s, k, e)
    ensures e < |s| ==> IsLineTerminator(s[e])
    decreases |s| - k
  {
    if k == |s| || IsLineTerminator(s[k]) then k else LineEnd(s, k + 1)
  }

  /**
   * The backtracking of the greedy `.*`: the engine tries the longest run
   * first and gives back one character at a time until `\]` matches, so it
   * finds the greatest p with lo <= p < hi and s[p] == ']'.
   */
  function LastClose(s: string, lo: nat, hi: nat): (r: Option<nat>)
    requires lo <= hi <= |s|
    ensures r.Some? ==> lo <= r.value < hi && s[r.value] == ']'
    ensures r.Some? ==> forall p :: r.value < p < hi ==> s[p] != ']'
    ensures r.None? ==> forall p :: lo <= p < hi ==> s[p] != ']'
    decreases hi - lo
  {
    if hi == lo then None
    else if s[hi - 1] == ']' then Some(hi - 1)
    else LastClose(s, lo, hi - 1)
  }

  /** One attempt of the engine at start position i: the end (exclusive) of the match found there, if any. */
  function MatchAt(s: string, i: nat): (r: Option<nat>)
    requires i < |s|
    ensures r.Some? ==> IsMatch(s, i, r.value)
    ensures r.Some? ==> forall l :: IsMatch(s, i, l) ==> l <= r.value
    ensures r.None? ==> forall l :: !IsMatch(s, i, l)
  {
    if s[i] != '[' then None
    else
      var e := LineEnd(s, i + 1);
      match LastClose(s, i + 1, e)
      case None => None
      case Some(p) => Some(p + 1)
  }

  /** The engine's scan over start positions i, i + 1, ...: the first attempt that succeeds. */
  function FirstMatchFrom(s: string, i: nat): (r: Option<(nat, nat)>)
    requires i <= |s|
    ensures r.Some? ==> i <= r.value.0 && IsMatch(s, r.value.0, r.value.1)
    ensures r.Some? ==> forall k, l :: i <= k && IsMatch(s, k, l) ==> r.value.0 <= k
    ensures r.Some? ==> forall l :: IsMatch(s, r.value.0, l) ==> l <= r.value.1
    ensures r.None? ==> forall k, l :: i <= k ==> !IsMatch(s, k, l)
    decreases |s| - i
  {
    if i == |s| then None
    else
      match MatchAt(s, i)
      case Some(e) => Some((i, e))
      case None => FirstMatchFrom(s, i + 1)
  }

  /** `firstMatch(text)?.group(0)`: the matched text, or `None` when the pattern does not occur. */
  function Extract(s: string): (r: Option<string>)
    ensures r.Some? ==> |r.value| >= 2 && r.value[0] == '[' && r.value[|r.value| - 1] == ']'
    ensures r.Some? ==> NoLineTerminator(r.value)
    ensures r.Some? ==> exists i, j :: IsFirstMatch(s, i, j) && r.value == s[i..j]
    ensures r.None? <==> forall i, j :: !IsMatch(s, i, j)
  {
    match FirstMatchFrom(s, 0)
    case None => None
    case Some((i, j)) =>
      assert IsFirstMatch(s, i, j);
      Some(s[i..j])
  }

  /** There is at most one first match. */
  lemma FirstMatchUnique(s: string, i: int, j: int, i': int, j': int)
    requires IsFirstMatch(s, i, j) && IsFirstMatch(s, i', j')
    ensures i == i' && j == j'
  {
    assert i <= i' && i' <= i;
    assert j <= j' && j' <= j;
  }

  /** `Extract` returns exactly the text of the first match: both directions. */
  lemma ExtractIsFirstMatch(s: string, m: string)
    ensures Extract(s) == Some(m) <==> exists i, j :: IsFirstMatch(s, i, j) && m == s[i..j]
  {
    if i, j :| IsFirstMatch(s, i, j) && m == s[i..j] {
      assert IsMatch(s, i, j);
      var i', j' :| IsFirstMatch(s, i', j') && Extract(s).value == s[i'..j'];
      FirstMatchUnique(s, i, j, i', j');
    }
  }

  /**
   * A bracketed span surrounded by noise is found whole: when nothing before
   * it opens a bracket and nothing after it closes one, the first match is
   * exactly the span.
   */
  lemma ExtractAmidNoise(before: string, span: string, after: string)
    requires '[' !in before && ']' !in after
    requires |span| >= 2 && span[0] == '[' && span[|span| - 1] == ']' && NoLineTerminator(span)
    ensures Extract(before + span + after) == Some(span)
  {
    var s := before + span + after;
    var i, j := |before|, |before| + |span|;
    assert s[i..j] == span;
    assert IsMatch(s, i, j);
    ExtractIsFirstMatch(s, span);
  }

  /** The greedy `.*` runs on to the last `]` of the line, across two separate arrays. */
  lemma GreedyAcrossArrays()
    ensures Extract("a [1] b [2]") == Some("[1] b [2]")
  {
    var s := "a [1] b [2]";
    assert FirstMatchFrom(s, 0) == Some((2, 11));
    assert s[2..11] == "[1] b [2]";
  }

  /** A match never crosses a line terminator. */
  lemma NoMatchAcrossLines()
    ensures Extract("[1\n2]") == None
    ensures Extract("[1\r\n2]") == None
  {
  }

  /** The match ends at the last `]` of its own line, not of the text. */
  lemma MatchStopsAtLineEnd()
    ensures Extract("x [1] [2\n]") == Some("[1]")
  {
    var s := "x [1] [2\n]";
    assert FirstMatchFrom(s, 0) == Some((2, 5));
    assert s[2..5] == "[1]";
  }

  /** A `[` with no `]` after it on its line is skipped; the match starts at the next one that has one. */
  lemma UnclosedOpenIsSkipped()
    ensures Extract("[a\n[b]") == Some("[b]")
  {
    var s := "[a\n[b]";
    assert FirstMatchFrom(s, 0) == Some((3, 6));
    assert s[3..6] == "[b]";
  }
}
