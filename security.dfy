/**
 * The request and input checks of the backend: the API key validators, the
 * query sanitizer and the screening of request bodies against a list of
 * dangerous patterns.
 *
 * Every regular expression used here is written out as a predicate or a
 * scanning function with the meaning Python's `re` gives it: `re.match`
 * anchors at the start and `$` also matches just before a final newline;
 * `re.sub` replaces leftmost, non-overlapping matches in one pass over the
 * original text; `re.IGNORECASE` compares ASCII case-folded text.
 */
module Security {
  import opened Wrappers
  import opened Text
  import opened Patterns

  // ---------------------------------------------------------------------
  // APIKeyValidator
  // ---------------------------------------------------------------------

  /** The class `[a-zA-Z0-9_-]`. */
  predicate IsKeyChar(c: char) {
    IsWordChar(c) || c == '-'
  }

  predicate AllChars(s: string, p: char -> bool) {
    forall i :: 0 <= i < |s| ==> p(s[i])
  }

  /**
   * `re.match(r'^[C]+$', s)` for a class `C` without the newline: one or more
   * characters of the class up to the end, where `$` also accepts a single
   * newline ending the text.
   */
  predicate WholeRun(s: string, p: char -> bool)
    requires !p('\n')
  {
    var n := RunLength(s, p);
    n > 0 && (n == |s| || (n == |s| - 1 && s[n] == '\n'))
  }

  /** `validate_groq_key` as written. */
  function ValidateGroqKey(apiKey: string): bool {
    if apiKey == "" then false
    else if !StartsWith(apiKey, "gsk_") then false
    else if |apiKey| < 20 then false
    else if !WholeRun(apiKey, IsWordChar) then false
    else true
  }

  /** `validate_gemini_key` as written. */
  function ValidateGeminiKey(apiKey: string): bool {
    if apiKey == "" then false
    else if |apiKey| < 20 then false
    else if !WholeRun(apiKey, IsKeyChar) then false
    else true
  }

  /** `validate_groq_key` as its comments describe it: the whole key is checked. */
  function ValidateGroqKeyStrict(apiKey: string): bool {
    StartsWith(apiKey, "gsk_") && |apiKey| >= 20 && AllChars(apiKey, IsWordChar)
  }

  /** `validate_gemini_key` as its comments describe it: the whole key is checked. */
  function ValidateGeminiKeyStrict(apiKey: string): bool {
    |apiKey| >= 20 && AllChars(apiKey, IsKeyChar)
  }

  /** `WholeRun` holds of the text, or of the text before one final newline, made of class characters only. */
  lemma WholeRunMeaning(s: string, p: char -> bool)
    requires !p('\n')
    ensures WholeRun(s, p) <==>
      (|s| > 0 && AllChars(s, p)) || (|s| > 1 && s[|s| - 1] == '\n' && AllChars(s[..|s| - 1], p))
  {
    var n := RunLength(s, p);
    if |s| > 0 && AllChars(s, p) {
      assert n == |s|;
    }
    if |s| > 1 && s[|s| - 1] == '\n' && AllChars(s[..|s| - 1], p) {
      assert forall i :: 0 <= i < |s| - 1 ==> p(s[i]) by {
        forall i | 0 <= i < |s| - 1 ensures p(s[i]) {
          assert s[..|s| - 1][i] == s[i];
        }
      }
      assert n == |s| - 1;
    }
    if WholeRun(s, p) && n == |s| - 1 {
      assert s[..|s| - 1] == s[..n];
    }
  }

  /**
   * A Groq key is accepted exactly when it starts with "gsk_", has at least
   * 20 characters and consists of letters, digits and underscores, except
   * that one final newline is let through as well.
   */
  lemma GroqKeyAccepted(apiKey: string)
    ensures ValidateGroqKey(apiKey) <==>
      && StartsWith(apiKey, "gsk_") && |apiKey| >= 20
      && (AllChars(apiKey, IsWordChar) || (apiKey[|apiKey| - 1] == '\n' && AllChars(apiKey[..|apiKey| - 1], IsWordChar)))
  {
    WholeRunMeaning(apiKey, IsWordChar);
  }

  /**
   * A Gemini key is accepted exactly when it has at least 20 characters and
   * consists of letters, digits, underscores and dashes, except that one
   * final newline is let through as well.
   */
  lemma GeminiKeyAccepted(apiKey: string)
    ensures ValidateGeminiKey(apiKey) <==>
      && |apiKey| >= 20
      && (AllChars(apiKey, IsKeyChar) || (apiKey[|apiKey| - 1] == '\n' && AllChars(apiKey[..|apiKey| - 1], IsKeyChar)))
  {
    WholeRunMeaning(apiKey, IsKeyChar);
  }

  /** A Groq key with a trailing newline, accepted by the code as written. */
  function NewlineGroqKey(): string {
    "gsk_" + seq(16, _ => 'a') + "\n"
  }

  /** The newline key passes `validate_groq_key` although it holds a character outside `[a-zA-Z0-9_]`. */
  lemma GroqKeyTrailingNewline()
    ensures ValidateGroqKey(NewlineGroqKey())
    ensures !AllChars(NewlineGroqKey(), IsWordChar)
    ensures !ValidateGroqKeyStrict(NewlineGroqKey())
  {
    var k := NewlineGroqKey();
    assert AllChars(k[..|k| - 1], IsWordChar) by {
      assert k[..|k| - 1] == "gsk_" + seq(16, _ => 'a');
    }
    GroqKeyAccepted(k);
    assert !IsWordChar(k[|k| - 1]);
  }

  /** The same key passes `validate_gemini_key` although it holds a character outside `[a-zA-Z0-9_-]`. */
  lemma GeminiKeyTrailingNewline()
    ensures ValidateGeminiKey(NewlineGroqKey())
    ensures !AllChars(NewlineGroqKey(), IsKeyChar)
    ensures !ValidateGeminiKeyStrict(NewlineGroqKey())
  {
    var k := NewlineGroqKey();
    assert AllChars(k[..|k| - 1], IsKeyChar) by {
      assert k[..|k| - 1] == "gsk_" + seq(16, _ => 'a');
    }
    GeminiKeyAccepted(k);
    assert !IsKeyChar(k[|k| - 1]);
  }

  /** The corrected Groq check agrees with the code on every key that does not end in a newline. */
  lemma GroqKeyStrictAgrees(apiKey: string)
    ensures ValidateGroqKeyStrict(apiKey) ==> ValidateGroqKey(apiKey)
    ensures apiKey == [] || apiKey[|apiKey| - 1] != '\n' ==> (ValidateGroqKeyStrict(apiKey) <==> ValidateGroqKey(apiKey))
    ensures ValidateGroqKeyStrict(apiKey) ==> '\n' !in apiKey
  {
    GroqKeyAccepted(apiKey);
    if ValidateGroqKeyStrict(apiKey) {
      assert forall c :: c in apiKey ==> IsWordChar(c);
    }
  }

  /** The corrected Gemini check agrees with the code on every key that does not end in a newline. */
  lemma GeminiKeyStrictAgrees(apiKey: string)
    ensures ValidateGeminiKeyStrict(apiKey) ==> ValidateGeminiKey(apiKey)
    ensures apiKey == [] || apiKey[|apiKey| - 1] != '\n' ==> (ValidateGeminiKeyStrict(apiKey) <==> ValidateGeminiKey(apiKey))
    ensures ValidateGeminiKeyStrict(apiKey) ==> '\n' !in apiKey
  {
    GeminiKeyAccepted(apiKey);
    if ValidateGeminiKeyStrict(apiKey) {
      assert forall c :: c in apiKey ==> IsKeyChar(c);
    }
  }

  /** `sanitize_key`: the characters of `[a-zA-Z0-9_-]`, in order. */
  function SanitizeKey(apiKey: string): (r: string)
    ensures |r| <= |apiKey|
    ensures AllChars(r, IsKeyChar)
  {
    if apiKey == [] then []
    else (if IsKeyChar(apiKey[0]) then [apiKey[0]] else []) + SanitizeKey(apiKey[1..])
  }

  /**
   * `sanitize_key` keeps exactly the permitted characters: an already clean
   * key is returned unchanged, and sanitizing twice is sanitizing once.
   */
  lemma {:induction false} SanitizeKeyProperties(apiKey: string)
    ensures AllChars(apiKey, IsKeyChar) <==> SanitizeKey(apiKey) == apiKey
    ensures SanitizeKey(SanitizeKey(apiKey)) == SanitizeKey(apiKey)
    ensures forall c :: c in SanitizeKey(apiKey) <==> c in apiKey && IsKeyChar(c)
  {
    if apiKey != [] {
      var rest := apiKey[1..];
      SanitizeKeyProperties(rest);
      assert AllChars(apiKey, IsKeyChar) <==> IsKeyChar(apiKey[0]) && AllChars(rest, IsKeyChar) by {
        if IsKeyChar(apiKey[0]) && AllChars(rest, IsKeyChar) {
          forall i | 0 <= i < |apiKey| ensures IsKeyChar(apiKey[i]) {
            if i > 0 {
              assert apiKey[i] == rest[i - 1];
            }
          }
        }
      }
      assert apiKey == [apiKey[0]] + rest;
      if !IsKeyChar(apiKey[0]) {
        assert |SanitizeKey(apiKey)| < |apiKey|;
      }
      CleanIsFixed(SanitizeKey(apiKey));
    }
  }

  lemma {:induction false} CleanIsFixed(s: string)
    requires AllChars(s, IsKeyChar)
    ensures SanitizeKey(s) == s
  {
    if s != [] {
      CleanIsFixed(s[1..]);
    }
  }

  /**
   * A sanitized key passes `validate_gemini_key`, as written and as corrected,
   * exactly when it still has at least 20 characters.
   */
  lemma SanitizedGeminiKey(apiKey: string)
    ensures ValidateGeminiKey(SanitizeKey(apiKey)) <==> |SanitizeKey(apiKey)| >= 20
    ensures ValidateGeminiKeyStrict(SanitizeKey(apiKey)) <==> |SanitizeKey(apiKey)| >= 20
  {
    GeminiKeyAccepted(SanitizeKey(apiKey));
  }

  // ---------------------------------------------------------------------
  // QuerySanitizer.sanitize_query
  // ---------------------------------------------------------------------

  /** The characters `[;&|`$()]` removed against command injection. */
  const CommandChars: set<char> := {';', '&', '|', '`', '$', '(', ')'}

  /** The terms removed against SQL injection, in the order they are removed. */
  const DangerousSql: seq<string> := ["DROP", "DELETE", "INSERT", "UPDATE", "EXEC", "UNION", "SELECT", "--", ";--"]

  function WordCharAt(s: string, i: int): bool {
    0 <= i < |s| && IsWordChar(s[i])
  }

  /** `\b` at index `i`: a word character on exactly one side. */
  predicate Boundary(s: string, i: int) {
    WordCharAt(s, i - 1) != WordCharAt(s, i)
  }

  /** `\b<term>\b`, compared without regard to ASCII case, matches at index `i`. */
  predicate TermAt(s: string, term: string, i: nat) {
    i + |term| <= |s| && Lower(s[i..i + |term|]) == Lower(term) && Boundary(s, i) && Boundary(s, i + |term|)
  }

  /** `' '.join(s.split())`. */
  function Collapse(s: string): string {
    Join(" ", Split(s))
  }

  /**
   * `re.sub(r'<[^>]+>', '', s)`: a `<`, at least one character other than
   * `>`, and the first `>` after them are removed, left to right.
   */
  function TagFree(s: string): (r: string)
    ensures |r| <= |s|
    ensures forall c :: c in r ==> c in s
    ensures forall i :: 0 <= i < |r| ==> !TagAt(r, i)
    ensures (forall i :: 0 <= i < |s| ==> !TagAt(s, i)) ==> r == s
    ensures s != [] && s[0] != '<' ==> r != [] && r[0] == s[0]
    decreases |s|
  {
    if s == [] then []
    else
      var n := |CutAt(s[1..], '>')|;
      if s[0] == '<' && 0 < n && n + 1 < |s| then
        assert TagAt(s, 0) by {
          assert s[1] == s[1..][0] && s[1..][n] == '>';
        }
        TagFree(s[n + 2..])
      else
        var rest := TagFree(s[1..]);
        var r := [s[0]] + rest;
        TagAtCons(s[0], rest);
        assert !TagAt(r, 0) by {
          if s[0] == '<' && 1 < |s| {
            if n == 0 {
              assert s[1] == s[1..][0] == '>';
            } else {
              assert CutAt(s[1..], '>') == s[1..];
              assert r[1..] == rest;
            }
          }
        }
        assert (forall i :: 0 <= i < |s| ==> !TagAt(s, i)) ==> rest == s[1..] by {
          if forall i :: 0 <= i < |s| ==> !TagAt(s, i) {
            forall i | 0 <= i < |s[1..]|
              ensures !TagAt(s[1..], i)
            {
              assert s[i + 2..] == s[1..][i + 1..];
              assert !TagAt(s, i + 1);
            }
          }
        }
        r
  }

  /** A match one character further in is a match of the shorter text one index earlier. */
  lemma TagAtCons(c: char, rest: string)
    ensures forall i :: 1 <= i < |[c] + rest| ==> (TagAt([c] + rest, i) <==> TagAt(rest, i - 1))
  {
    var r := [c] + rest;
    forall i | 1 <= i < |r|
      ensures TagAt(r, i) <==> TagAt(rest, i - 1)
    {
      assert r[i + 1..] == rest[i..];
    }
  }

  /** `<[^>]+>` matches at `i`: a `<`, then a character other than `>`, and a `>` somewhere after. */
  predicate TagAt(s: string, i: int) {
    0 <= i < |s| - 1 && s[i] == '<' && s[i + 1] != '>' && '>' in s[i + 1..]
  }

  /** `re.sub(rf'\b{term}\b', '', s, flags=re.IGNORECASE)` from index `i` on. */
  function DeleteTerm(s: string, term: string, i: nat): (r: string)
    requires |term| > 0 && i <= |s|
    ensures |r| <= |s| - i
    ensures forall c :: c in r ==> c in s
    ensures (forall j :: i <= j < |s| ==> !TermAt(s, term, j)) ==> r == s[i..]
    ensures TermAt(s, term, i) ==> |r| <= |s| - i - |term|
    decreases |s| - i
  {
    if i >= |s| then []
    else if TermAt(s, term, i) then DeleteTerm(s, term, i + |term|)
    else [s[i]] + DeleteTerm(s, term, i + 1)
  }

  /** The terms `terms` removed one after the other. */
  function DeleteTerms(s: string, terms: seq<string>): (r: string)
    requires forall k :: 0 <= k < |terms| ==> |terms[k]| > 0
    ensures |r| <= |s|
    ensures forall c :: c in r ==> c in s
    ensures (forall k, j :: 0 <= k < |terms| && 0 <= j < |s| ==> !TermAt(s, terms[k], j)) ==> r == s
  {
    if terms == [] then s
    else DeleteTerm(DeleteTerms(s, terms[..|terms| - 1]), terms[|terms| - 1], 0)
  }

  /** Every character of `term` is a word character, or none is; each SQL term is of this kind. */
  predicate Uniform(term: string) {
    |term| > 0 && forall k :: 0 <= k < |term| ==> IsWordChar(term[k]) == IsWordChar(term[0])
  }

  /** `TermAt` in a text that follows a character whose word class is `before`. */
  predicate TermAfter(x: string, term: string, j: nat, before: bool) {
    && j + |term| <= |x| && Lower(x[j..j + |term|]) == Lower(term)
    && (if j == 0 then before else WordCharAt(x, j - 1)) != WordCharAt(x, j)
    && Boundary(x, j + |term|)
  }

  /** The length of the run of word class `w` that starts `s`. */
  function ClassRun(s: string, w: bool): (n: nat)
    ensures n <= |s|
    ensures forall k :: 0 <= k < n ==> IsWordChar(s[k]) == w
    ensures n == |s| || IsWordChar(s[n]) != w
  {
    if s != [] && IsWordChar(s[0]) == w then 1 + ClassRun(s[1..], w) else 0
  }

  /** Text that matches a uniform term, ignoring case, is of the term's word class throughout. */
  lemma MatchClass(x: string, term: string, j: nat)
    requires Uniform(term)
    ensures j + |term| <= |x| && Lower(x[j..j + |term|]) == Lower(term) ==>
      forall k :: j <= k < j + |term| ==> IsWordChar(x[k]) == IsWordChar(term[0])
  {
    if j + |term| <= |x| && Lower(x[j..j + |term|]) == Lower(term) {
      forall k | j <= k < j + |term|
        ensures IsWordChar(x[k]) == IsWordChar(term[0])
      {
        assert Lower(x[j..j + |term|])[k - j] == LowerChar(x[k]);
        assert Lower(term)[k - j] == LowerChar(term[k - j]);
      }
    }
  }

  /** A match past the first character of `[c] + rest` is a match in `rest`, after `c`. */
  lemma TermAfterCons(c: char, rest: string, term: string, j: nat, before: bool)
    requires |term| > 0 && j >= 1
    ensures TermAfter([c] + rest, term, j, before) <==> TermAfter(rest, term, j - 1, IsWordChar(c))
  {
    var x := [c] + rest;
    if j + |term| <= |x| {
      assert x[j..j + |term|] == rest[j - 1..j - 1 + |term|];
    }
  }

  /**
   * Scanning on from inside a run of the uniform term's word class, the run
   * cannot start a match, so the result starts with that whole run.
   */
  lemma {:induction false} DeleteTermKeepsRun(s: string, term: string, i: nat)
    requires Uniform(term) && i <= |s|
    requires WordCharAt(s, i - 1) == IsWordChar(term[0])
    ensures StartsWithRun(DeleteTerm(s, term, i), s, i, IsWordChar(term[0]))
    decreases |s| - i, 1
  {
    var w := IsWordChar(term[0]);
    if i == |s| {
      RunStops(s, i, w, DeleteTerm(s, term, i));
    } else if IsWordChar(s[i]) == w {
      KeepsRunStep(s, term, i);
    } else {
      NoMatchInRun(s, term, i);
      RunStops(s, i, w, DeleteTerm(s, term, i));
    }
  }

  /** `DeleteTermKeepsRun` at a character of the run. */
  lemma {:induction false} KeepsRunStep(s: string, term: string, i: nat)
    requires Uniform(term) && i < |s|
    requires WordCharAt(s, i - 1) == IsWordChar(term[0]) && IsWordChar(s[i]) == IsWordChar(term[0])
    ensures StartsWithRun(DeleteTerm(s, term, i), s, i, IsWordChar(term[0]))
    decreases |s| - i, 0
  {
    NoMatchInRun(s, term, i);
    DeleteTermKeepsRun(s, term, i + 1);
    RunGrows(s, i, IsWordChar(term[0]), DeleteTerm(s, term, i + 1));
  }

  /** A character of class `w` in front of a text that starts with the rest of its run. */
  lemma RunGrows(s: string, i: nat, w: bool, rest: string)
    requires i < |s| && IsWordChar(s[i]) == w
    requires StartsWithRun(rest, s, i + 1, w)
    ensures StartsWithRun([s[i]] + rest, s, i, w)
  {
    ClassRunCons(s, i, w);
    var r := [s[i]] + rest;
    var n := ClassRun(s[i + 1..], w);
    assert forall k :: 1 <= k < |r| ==> r[k] == rest[k - 1];
    assert forall k :: 0 <= k < n ==> rest[k] == s[i + 1 + k];
  }

  /** Where the run is empty, any text that starts with `s[i]` (or the end) starts with it. */
  lemma RunStops(s: string, i: nat, w: bool, r: string)
    requires i <= |s|
    requires (i == |s| && r == []) || (i < |s| && IsWordChar(s[i]) != w && r != [] && r[0] == s[i])
    ensures StartsWithRun(r, s, i, w)
  {
    if i < |s| {
      ClassRunCons(s, i, w);
    }
  }

  /**
   * Inside a run of the uniform term's word class, or at a character of the
   * other class, nothing matches, so the scan keeps the character.
   */
  lemma NoMatchInRun(s: string, term: string, i: nat)
    requires Uniform(term) && i < |s|
    requires WordCharAt(s, i - 1) == IsWordChar(term[0]) || IsWordChar(s[i]) != IsWordChar(term[0])
    ensures DeleteTerm(s, term, i) == [s[i]] + DeleteTerm(s, term, i + 1)
  {
    MatchClass(s, term, i);
    ScanKeeps(s, term, i);
  }

  /** Where nothing matches, the scan keeps the character. */
  lemma ScanKeeps(s: string, term: string, i: nat)
    requires |term| > 0 && i < |s| && !TermAt(s, term, i)
    ensures DeleteTerm(s, term, i) == [s[i]] + DeleteTerm(s, term, i + 1)
  {
  }

  /** The run at `s[i]`: one more than the run after it, or none. */
  lemma ClassRunCons(s: string, i: nat, w: bool)
    requires i < |s|
    ensures ClassRun(s[i..], w) == if IsWordChar(s[i]) == w then 1 + ClassRun(s[i + 1..], w) else 0
  {
    assert s[i..][1..] == s[i + 1..];
  }

  /** `r` starts with the whole run of word class `w` at `s[i..]`, and the run ends there. */
  predicate StartsWithRun(r: string, s: string, i: nat, w: bool)
    requires i <= |s|
  {
    var n := ClassRun(s[i..], w);
    && n <= |r| && (forall k :: 0 <= k < n ==> r[k] == s[i + k])
    && (n < |r| ==> IsWordChar(r[n]) != w)
  }

  /**
   * If the result of scanning from `i` starts with a match, then `s` itself
   * has a match at `i`. The scan state: `before` is the class of the last
   * kept character, either `s[i - 1]` or, right after a deletion, the
   * character before the deleted match.
   */
  lemma FrontMatch(s: string, term: string, i: nat, before: bool)
    requires Uniform(term) && i < |s|
    requires before == WordCharAt(s, i - 1)
          || (before != IsWordChar(term[0]) && Boundary(s, i) && WordCharAt(s, i - 1) == IsWordChar(term[0]))
    ensures TermAfter([s[i]] + DeleteTerm(s, term, i + 1), term, 0, before) ==> TermAt(s, term, i)
  {
    var rest := DeleteTerm(s, term, i + 1);
    if IsWordChar(s[i]) == IsWordChar(term[0]) {
      DeleteTermKeepsRun(s, term, i + 1);
      FrontMatchOf(s, term, i, before, rest);
    } else {
      NoMatchFromOther(s[i], rest, term, before);
    }
  }

  /** Text starting with a character of the other word class cannot start with a match. */
  lemma NoMatchFromOther(c: char, rest: string, term: string, before: bool)
    requires Uniform(term) && IsWordChar(c) != IsWordChar(term[0])
    ensures !TermAfter([c] + rest, term, 0, before)
  {
    MatchClass([c] + rest, term, 0);
  }

  /** `FrontMatch` for any continuation `rest` that starts with the run after `s[i]`. */
  lemma FrontMatchOf(s: string, term: string, i: nat, before: bool, rest: string)
    requires Uniform(term) && i < |s| && |rest| <= |s| - i - 1
    requires IsWordChar(s[i]) == IsWordChar(term[0])
    requires before == WordCharAt(s, i - 1) || (before != IsWordChar(term[0]) && Boundary(s, i))
    requires StartsWithRun(rest, s, i + 1, IsWordChar(term[0]))
    ensures TermAfter([s[i]] + rest, term, 0, before) ==> TermAt(s, term, i)
  {
    var w := IsWordChar(term[0]);
    var L := |term|;
    var x := [s[i]] + rest;
    if TermAfter(x, term, 0, before) {
      MatchClass(x, term, 0);
      forall k | 0 <= k < L - 1
        ensures IsWordChar(rest[k]) == w
      {
        assert rest[k] == x[k + 1];
      }
      RunMatch(s, i, rest, L, w);
      SameSlice(x, s, 0, i, L);
    }
  }

  /** Slices that agree index by index are equal. */
  lemma SameSlice(a: string, b: string, i: nat, j: nat, n: nat)
    requires i + n <= |a| && j + n <= |b|
    requires forall k :: i <= k < i + n ==> a[k] == b[j + (k - i)]
    ensures a[i..i + n] == b[j..j + n]
  {
    var u, v := a[i..i + n], b[j..j + n];
    forall m | 0 <= m < n
      ensures u[m] == v[m]
    {
      assert u[m] == a[i + m] == b[j + m] == v[m];
    }
  }

  /**
   * A run of class `w` that starts at `s[i]` and ends with a `\b` in the
   * scanned text is the whole run in `s`, and so ends with a `\b` in `s` too.
   */
  lemma RunMatch(s: string, i: nat, rest: string, L: nat, w: bool)
    requires i < |s| && |rest| <= |s| - i - 1 && 1 <= L <= 1 + |rest|
    requires IsWordChar(s[i]) == w
    requires forall k :: 0 <= k < L - 1 ==> IsWordChar(rest[k]) == w
    requires Boundary([s[i]] + rest, L)
    requires StartsWithRun(rest, s, i + 1, w)
    ensures i + L <= |s| && Boundary(s, i + L)
    ensures forall k :: 0 <= k < L ==> ([s[i]] + rest)[k] == s[i + k]
  {
    var x := [s[i]] + rest;
    var t := s[i + 1..];
    var n := ClassRun(t, w);
    assert forall k :: 0 <= k < |rest| ==> rest[k] == x[k + 1];
    assert forall k :: 0 <= k < n ==> rest[k] == t[k] == s[i + 1 + k];
    assert L - 1 == n;
    assert i + L < |s| ==> t[n] == s[i + L];
    assert i + L == |s| ==> |x| == L;
  }

  /** No match of a uniform term is left after the scan from `i`, given the scan state `before`. */
  lemma {:induction false} DeleteTermNoneAfter(s: string, term: string, i: nat, before: bool)
    requires Uniform(term) && i <= |s|
    requires before == WordCharAt(s, i - 1)
          || (before != IsWordChar(term[0]) && Boundary(s, i) && WordCharAt(s, i - 1) == IsWordChar(term[0]))
    ensures forall j: nat :: !TermAfter(DeleteTerm(s, term, i), term, j, before)
    decreases |s| - i, 1
  {
    if i == |s| {
      assert DeleteTerm(s, term, i) == [];
    } else if TermAt(s, term, i) {
      NoneAfterDeleted(s, term, i, before);
    } else {
      NoneAfterKept(s, term, i, before);
    }
  }

  /** `DeleteTermNoneAfter` where the scan deletes a match at `i`. */
  lemma {:induction false} NoneAfterDeleted(s: string, term: string, i: nat, before: bool)
    requires Uniform(term) && i < |s| && TermAt(s, term, i)
    requires before == WordCharAt(s, i - 1)
          || (before != IsWordChar(term[0]) && Boundary(s, i) && WordCharAt(s, i - 1) == IsWordChar(term[0]))
    ensures forall j: nat :: !TermAfter(DeleteTerm(s, term, i), term, j, before)
    decreases |s| - i, 0
  {
    MatchClass(s, term, i);
    assert WordCharAt(s, i + |term| - 1) == IsWordChar(term[0]);
    DeleteTermNoneAfter(s, term, i + |term|, before);
  }

  /** `DeleteTermNoneAfter` where the scan keeps `s[i]`. */
  lemma {:induction false} NoneAfterKept(s: string, term: string, i: nat, before: bool)
    requires Uniform(term) && i < |s| && !TermAt(s, term, i)
    requires before == WordCharAt(s, i - 1)
          || (before != IsWordChar(term[0]) && Boundary(s, i) && WordCharAt(s, i - 1) == IsWordChar(term[0]))
    ensures forall j: nat :: !TermAfter(DeleteTerm(s, term, i), term, j, before)
    decreases |s| - i, 0
  {
    ScanKeeps(s, term, i);
    DeleteTermNoneAfter(s, term, i + 1, IsWordChar(s[i]));
    FrontMatch(s, term, i, before);
    NoneAfterCons(s[i], DeleteTerm(s, term, i + 1), term, before);
  }

  /** No match in `[c] + rest`: none at the front, and none in `rest` after `c`. */
  lemma NoneAfterCons(c: char, rest: string, term: string, before: bool)
    requires |term| > 0 && !TermAfter([c] + rest, term, 0, before)
    requires forall j: nat :: !TermAfter(rest, term, j, IsWordChar(c))
    ensures forall j: nat :: !TermAfter([c] + rest, term, j, before)
  {
    forall j: nat
      ensures !TermAfter([c] + rest, term, j, before)
    {
      if j >= 1 {
        TermAfterCons(c, rest, term, j, before);
      }
    }
  }

  /**
   * One pass of `re.sub(rf'\b{term}\b', '', …)` leaves no bounded occurrence
   * of a uniform term: a match covers a whole run of its word class, and
   * deleting a run cannot join two others.
   */
  lemma DeleteTermLeavesNoTerm(s: string, term: string)
    requires Uniform(term)
    ensures forall j: nat :: !TermAt(DeleteTerm(s, term, 0), term, j)
  {
    var r := DeleteTerm(s, term, 0);
    DeleteTermNoneAfter(s, term, 0, false);
    forall j: nat
      ensures !TermAt(r, term, j)
    {
      assert !TermAfter(r, term, j, false);
    }
  }

  /** Every SQL term is made of word characters only, or of other characters only. */
  lemma DangerousSqlUniform()
    ensures forall k :: 0 <= k < |DangerousSql| ==> Uniform(DangerousSql[k])
  {
  }

  /** What `sanitize_query` returns, with the SQL terms given as `terms`. */
  function SanitizedWith(query: string, maxLength: int, terms: seq<string>): string
    requires forall k :: 0 <= k < |terms| ==> |terms[k]| > 0
  {
    if query == "" then ""
    else
      var cleaned := TagFree(Collapse(RemoveChars(Prefix(query, maxLength), {'\0'})));
      Strip(RemoveChars(DeleteTerms(cleaned, terms), CommandChars))
  }

  /** What `sanitize_query(query, max_length)` returns. */
  function SanitizedQuery(query: string, maxLength: int): string {
    SanitizedWith(query, maxLength, DangerousSql)
  }

  /** `sanitize_query`: each step reassigns the query. */
  method SanitizeQuery(query: string, maxLength: int) returns (r: string)
    ensures r == SanitizedQuery(query, maxLength)
  {
    r := SanitizeQueryWith(query, maxLength, DangerousSql);
  }

  /** The steps of `sanitize_query`, with the SQL terms given as `terms`. */
  method SanitizeQueryWith(query: string, maxLength: int, terms: seq<string>) returns (r: string)
    requires forall k :: 0 <= k < |terms| ==> |terms[k]| > 0
    ensures r == SanitizedWith(query, maxLength, terms)
  {
    if query == "" {
      return "";
    }
    var q := Prefix(query, maxLength);
    q := RemoveChars(q, {'\0'});
    q := Join(" ", Split(q));
    q := TagFree(q);
    ghost var cleaned := q;
    for k := 0 to |terms|
      invariant q == DeleteTerms(cleaned, terms[..k])
    {
      assert terms[..k + 1][..k] == terms[..k];
      q := DeleteTerm(q, terms[k], 0);
    }
    assert terms[..|terms|] == terms;
    q := RemoveChars(q, CommandChars);
    r := Strip(q);
  }

  lemma {:induction false} JoinRunsLength(s: string)
    ensures |Join(" ", Runs(s, NotSpace))| <= |s|
    decreases |s|
  {
    if s != [] {
      if !NotSpace(s[0]) {
        JoinRunsLength(s[1..]);
      } else {
        var n := RunLength(s, NotSpace);
        var rest := Runs(s[n..], NotSpace);
        assert Runs(s, NotSpace) == [s[..n]] + rest;
        if n < |s| {
          assert !NotSpace(s[n..][0]);
          assert rest == Runs(s[n..][1..], NotSpace);
          assert s[n..][1..] == s[n + 1..];
          JoinRunsLength(s[n + 1..]);
        } else {
          assert rest == [];
        }
      }
    }
  }

  lemma {:induction false} JoinRunsChars(s: string)
    ensures forall c :: c in Join(" ", Runs(s, NotSpace)) ==> c in s || c == ' '
    decreases |s|
  {
    if s != [] {
      if !NotSpace(s[0]) {
        JoinRunsChars(s[1..]);
      } else {
        var n := RunLength(s, NotSpace);
        var rest := Runs(s[n..], NotSpace);
        JoinRunsChars(s[n..]);
        assert Runs(s, NotSpace) == [s[..n]] + rest;
        forall c | c in s[..n] ensures c in s {
        }
        forall c | c in s[n..] ensures c in s {
        }
      }
    }
  }

  /** `' '.join(s.split())` shortens and only adds spaces. */
  lemma CollapseProperties(s: string)
    ensures |Collapse(s)| <= |s|
    ensures forall c :: c in Collapse(s) ==> c in s || c == ' '
  {
    JoinRunsLength(s);
    JoinRunsChars(s);
  }

  /** The result of `strip()` is a piece of its input. */
  lemma StripChars(s: string)
    ensures forall c :: c in Strip(s) ==> c in s
  {
    var l := LStrip(s);
    assert l == s[|s| - |l|..];
    assert RStrip(l) == l[..|RStrip(l)|];
  }

  /**
   * `sanitize_query`: nothing for an empty query; otherwise at most
   * `max_length` characters (for a non-negative `max_length`), no NUL and
   * none of `; & | ` $ ( )`, and no whitespace at either end.
   */
  lemma SanitizedWithProperties(query: string, maxLength: int, terms: seq<string>)
    requires forall k :: 0 <= k < |terms| ==> |terms[k]| > 0
    ensures query == "" ==> SanitizedWith(query, maxLength, terms) == ""
    ensures |SanitizedWith(query, maxLength, terms)| <= |query|
    ensures maxLength >= 0 ==> |SanitizedWith(query, maxLength, terms)| <= maxLength
    ensures '\0' !in SanitizedWith(query, maxLength, terms)
    ensures forall c :: c in CommandChars ==> c !in SanitizedWith(query, maxLength, terms)
    ensures var r := SanitizedWith(query, maxLength, terms);
      r == [] || (!IsSpace(r[0]) && !IsSpace(r[|r| - 1]))
  {
    if query != "" {
      var cut := RemoveChars(Prefix(query, maxLength), {'\0'});
      CollapseProperties(cut);
      var cleaned := TagFree(Collapse(cut));
      var deleted := RemoveChars(DeleteTerms(cleaned, terms), CommandChars);
      StripChars(deleted);
      assert forall c :: c in deleted ==> c in cut || c == ' ';
    }
  }

  /** `sanitize_query` with its own list of SQL terms. */
  lemma SanitizedQueryProperties(query: string, maxLength: int)
    ensures query == "" ==> SanitizedQuery(query, maxLength) == ""
    ensures |SanitizedQuery(query, maxLength)| <= |query|
    ensures maxLength >= 0 ==> |SanitizedQuery(query, maxLength)| <= maxLength
    ensures '\0' !in SanitizedQuery(query, maxLength)
    ensures forall c :: c in CommandChars ==> c !in SanitizedQuery(query, maxLength)
    ensures var r := SanitizedQuery(query, maxLength);
      r == [] || (!IsSpace(r[0]) && !IsSpace(r[|r| - 1]))
  {
    SanitizedWithProperties(query, maxLength, DangerousSql);
  }

  /** `validate_query_length(query, min_length, max_length)`. */
  predicate ValidQueryLength(query: string, minLength: int, maxLength: int) {
    minLength <= |query| <= maxLength
  }

  /** A sanitized query never fails the upper bound of `validate_query_length` with the same `max_length`. */
  lemma SanitizedLengthValid(query: string, minLength: int, maxLength: int)
    requires maxLength >= 0
    ensures ValidQueryLength(SanitizedQuery(query, maxLength), minLength, maxLength)
      <==> |SanitizedQuery(query, maxLength)| >= minLength
  {
    SanitizedQueryProperties(query, maxLength);
  }

  // ---------------------------------------------------------------------
  // InputValidationMiddleware
  // ---------------------------------------------------------------------

  /**
   * `<script[^>]*>.*?</script>` at index `i` of the case-folded text `t`:
   * the opening tag runs to the first `>`, and `</script>` follows on the
   * same line (`.` does not match a newline).
   */
  predicate ScriptAt(t: string, i: nat) {
    && OccursAt(t, "<script", i)
    && var k := i + 7 + |CutAt(t[i + 7..], '>')|;
       k < |t| && Contains(CutAt(t[k + 1..], '\n'), "</script>")
  }

  /** `<name[^>]*>` at index `i`: the name and a later `>`. */
  predicate OpenTagAt(t: string, name: string, i: nat) {
    OccursAt(t, name, i) && '>' in t[i + |name|..]
  }

  /** `on\w+\s*=` at index `i`: "on", at least one word character, optional whitespace, `=`. */
  predicate HandlerAt(t: string, i: nat) {
    && OccursAt(t, "on", i)
    && var w := RunLength(t[i + 2..], IsWordChar);
       && w > 0
       && var sp := RunLength(t[i + 2 + w..], IsSpace);
          i + 2 + w + sp < |t| && t[i + 2 + w + sp] == '='
  }

  /** `\ba\s+b\b` at index `i`, for words `a` and `b`. */
  predicate SpacedPairAt(t: string, a: string, b: string, i: nat) {
    && OccursAt(t, a, i) && LeftBoundary(t, i)
    && var sp := RunLength(t[i + |a|..], IsSpace);
       sp > 0 && OccursAt(t, b, i + |a| + sp) && RightBoundary(t, i + |a| + sp + |b|)
  }

  predicate HasScript(body: string) {
    var t := Lower(body);
    exists i | 0 <= i <= |t| :: ScriptAt(t, i)
  }

  predicate HasHandler(body: string) {
    var t := Lower(body);
    exists i | 0 <= i <= |t| :: HandlerAt(t, i)
  }

  predicate HasOpenTag(body: string, name: string) {
    var t := Lower(body);
    exists i | 0 <= i <= |t| :: OpenTagAt(t, name, i)
  }

  predicate HasWord(body: string, w: string) {
    var t := Lower(body);
    exists i | 0 <= i <= |t| :: WordAt(t, w, i)
  }

  predicate HasSpacedPair(body: string, a: string, b: string) {
    var t := Lower(body);
    exists i | 0 <= i <= |t| :: SpacedPairAt(t, a, b, i)
  }

  /** `[;\|&]`. */
  predicate HasCommandSeparator(body: string) {
    ';' in body || '|' in body || '&' in body
  }

  /**
   * `DANGEROUS_PATTERNS`, in order, each as "`re.search(pattern, body,
   * re.IGNORECASE)` finds a match".
   */
  function DangerousPatterns(): seq<string -> bool> {
    [ HasScript,
      (b: string) => Contains(Lower(b), "javascript:"),
      HasHandler,
      (b: string) => HasOpenTag(b, "<iframe"),
      (b: string) => HasOpenTag(b, "<object"),
      (b: string) => HasOpenTag(b, "<embed"),
      (b: string) => HasWord(b, "exec"),
      (b: string) => HasSpacedPair(b, "drop", "table"),
      (b: string) => HasSpacedPair(b, "union", "select"),
      (b: string) => Contains(b, "../.."),
      HasCommandSeparator ]
  }

  /** Some pattern of `patterns` matches the body. */
  predicate Dangerous(body: string, patterns: seq<string -> bool>) {
    exists k :: 0 <= k < |patterns| && patterns[k](body)
  }

  /** The methods whose bodies are screened. */
  predicate HasBody(httpMethod: string) {
    httpMethod in {"POST", "PUT", "PATCH"}
  }

  /** What the middleware does with a request: answer 400, or hand it on. */
  datatype Screening = Rejected | Forwarded

  /** The verdict for a request; `body` is `None` when reading or decoding it raised. */
  function InputVerdict(httpMethod: string, body: Option<string>, patterns: seq<string -> bool>): Screening {
    if HasBody(httpMethod) && body.Some? && Dangerous(body.value, patterns) then Rejected else Forwarded
  }

  /** `InputValidationMiddleware.dispatch`: the patterns are tried in order and the first match answers 400. */
  method ScreenRequest(httpMethod: string, body: Option<string>) returns (verdict: Screening)
    ensures verdict == InputVerdict(httpMethod, body, DangerousPatterns())
  {
    verdict := ScreenWith(httpMethod, body, DangerousPatterns());
  }

  /** The screening loop over `patterns`. */
  method ScreenWith(httpMethod: string, body: Option<string>, patterns: seq<string -> bool>) returns (verdict: Screening)
    ensures verdict == InputVerdict(httpMethod, body, patterns)
    ensures verdict == Rejected <==> HasBody(httpMethod) && body.Some? && exists k :: 0 <= k < |patterns| && patterns[k](body.value)
  {
    if httpMethod == "POST" || httpMethod == "PUT" || httpMethod == "PATCH" {
      if body.Some? {
        var text := body.value;
        for k := 0 to |patterns|
          invariant forall j :: 0 <= j < k ==> !patterns[j](text)
        {
          if patterns[k](text) {
            return Rejected;
          }
        }
      }
    }
    return Forwarded;
  }

  /**
   * Only a screened method with a readable body is ever rejected; a body
   * holding `;`, `|` or `&` is always rejected; and a sanitized query holds
   * none of them.
   */
  lemma InputVerdictProperties(httpMethod: string, body: Option<string>)
    ensures InputVerdict(httpMethod, body, DangerousPatterns()) == Rejected ==> HasBody(httpMethod) && body.Some?
    ensures HasBody(httpMethod) && body.Some? && HasCommandSeparator(body.value) ==>
      InputVerdict(httpMethod, body, DangerousPatterns()) == Rejected
  {
    if HasBody(httpMethod) && body.Some? && HasCommandSeparator(body.value) {
      assert DangerousPatterns()[10](body.value);
    }
  }

  /** A sanitized query never trips the command-separator pattern. */
  lemma SanitizedHasNoSeparator(query: string, maxLength: int)
    ensures !HasCommandSeparator(SanitizedQuery(query, maxLength))
  {
    SanitizedQueryProperties(query, maxLength);
  }
}
