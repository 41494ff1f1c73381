/**
 * The small family of regular expressions that the backend's keyword rules use,
 * with their meaning written out directly (no general regex engine):
 *
 *  - `\bw\b` for a literal `w` that begins and ends with a word character
 *    (an alternation `\b(w1|w2|...)\b` is several such atoms);
 *  - `\ba .+ b\b`, a literal, a space, at least one character other than a
 *    newline, a space and a second literal.
 *
 * Every literal used begins and ends with a word character, so the word
 * boundary before it is "start of text or a non-word character before", and
 * the one after it is "end of text or a non-word character after".
 */
module Patterns {
  import opened Wrappers
  import opened Text

  predicate LeftBoundary(s: string, i: int)
    requires 0 <= i <= |s|
  {
    i == 0 || !IsWordChar(s[i - 1])
  }

  predicate RightBoundary(s: string, j: int)
    requires 0 <= j <= |s|
  {
    j == |s| || !IsWordChar(s[j])
  }

  /** `\bw\b` matches `s` at index `i`. */
  predicate WordAt(s: string, w: string, i: int) {
    OccursAt(s, w, i) && LeftBoundary(s, i) && RightBoundary(s, i + |w|)
  }

  /** `\ba .+ b\b` matches `s` from index `i`, the `.+` part ending just before index `j`. */
  predicate GapAt(s: string, a: string, b: string, i: int, j: int) {
    && OccursAt(s, a + " ", i)
    && LeftBoundary(s, i)
    && i + |a| + 1 < j
    && OccursAt(s, " " + b, j)
    && RightBoundary(s, j + |b| + 1)
    && '\n' !in s[i + |a| + 1..j]
  }

  datatype Atom = Word(w: string) | Gap(before: string, after: string)

  /** `re.search` finds the atom somewhere in `s`. */
  predicate AtomMatches(atom: Atom, s: string) {
    match atom
    case Word(w) => exists i | 0 <= i <= |s| :: WordAt(s, w, i)
    case Gap(a, b) => exists i, j | 0 <= i <= j <= |s| :: GapAt(s, a, b, i, j)
  }

  /** A pattern is an alternation of atoms; it matches when one of them does. */
  type Pattern = seq<Atom>

  predicate Matches(p: Pattern, s: string) {
    exists k | 0 <= k < |p| :: AtomMatches(p[k], s)
  }

  /** The first alternative (in the order written) that matches at index `i`. */
  function FirstAltAt(alts: seq<string>, s: string, i: nat): (r: Option<string>)
    ensures r.Some? <==> exists k | 0 <= k < |alts| :: WordAt(s, alts[k], i)
    ensures r.Some? ==> r.value in alts && WordAt(s, r.value, i)
  {
    if |alts| == 0 then None
    else if WordAt(s, alts[0], i) then Some(alts[0])
    else
      var rest := FirstAltAt(alts[1..], s, i);
      assert forall k :: 1 <= k < |alts| ==> alts[k] == alts[1..][k - 1];
      rest
  }

  /**
   * The text `re.search(r'\b(w1|w2|...)\b', s).group()` returns when scanning
   * starts at index `from`: the leftmost position where some alternative
   * matches, and there the first alternative that does.
   */
  function FirstWordMatch(alts: seq<string>, s: string, from: nat): (r: Option<string>)
    ensures r.Some? <==> exists k, i | 0 <= k < |alts| && from <= i <= |s| :: WordAt(s, alts[k], i)
    ensures r.Some? ==> r.value in alts && Contains(s, r.value)
    decreases |s| + 1 - from
  {
    if from > |s| then None
    else
      match FirstAltAt(alts, s, from)
      case Some(w) => Some(w)
      case None => FirstWordMatch(alts, s, from + 1)
  }

  /** The alternation of literal words as a pattern. */
  function WordPattern(alts: seq<string>): (p: Pattern)
    ensures |p| == |alts| && forall k :: 0 <= k < |p| ==> p[k] == Word(alts[k])
  {
    seq(|alts|, k requires 0 <= k < |alts| => Word(alts[k]))
  }

  /** `re.search` succeeds exactly when a `group()` text can be reported. */
  lemma FirstWordMatchFinds(alts: seq<string>, s: string)
    ensures FirstWordMatch(alts, s, 0).Some? <==> Matches(WordPattern(alts), s)
  {
    var p := WordPattern(alts);
    if FirstWordMatch(alts, s, 0).Some? {
      var k, i :| 0 <= k < |alts| && 0 <= i <= |s| && WordAt(s, alts[k], i);
      assert AtomMatches(p[k], s);
    }
    if Matches(p, s) {
      var k :| 0 <= k < |p| && AtomMatches(p[k], s);
      var i :| 0 <= i <= |s| && WordAt(s, alts[k], i);
    }
  }
}
