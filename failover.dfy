/**
 * The provider chains of the AI layer and their rule-based ends.
 *
 * Query generation and synthesis each ask Groq first, then Gemini, then fall
 * back to a deterministic builder that always answers.  A provider is given
 * here as the reply it produced (`None` when there is no client, the call
 * raised, or the reply could not be read); JSON decoding is a parameter
 * (`None` when `json.loads` raises).
 */
module Failover {
  import opened Wrappers
  import opened Text
  import opened Intent
  import opened Models

  // ---------------------------------------------------------------------------
  // `re.search(r'\{[^{}]*\}', content)`: the first brace-free object
  // ---------------------------------------------------------------------------

  predicate IsBrace(c: char) {
    c == '{' || c == '}'
  }

  /** The index of the first brace at or after `i`, or `|s|` when there is none. */
  function NextBrace(s: string, i: nat): (k: nat)
    requires i <= |s|
    ensures i <= k <= |s|
    ensures forall j :: i <= j < k ==> !IsBrace(s[j])
    ensures k < |s| ==> IsBrace(s[k])
    decreases |s| - i
  {
    if i == |s| || IsBrace(s[i]) then i else NextBrace(s, i + 1)
  }

  /** The pattern matches starting at `i`: an opening brace whose next brace closes it. */
  predicate ObjectAt(s: string, i: nat) {
    i < |s| && s[i] == '{' && NextBrace(s, i + 1) < |s| && s[NextBrace(s, i + 1)] == '}'
  }

  /** The leftmost match at or after `from`. */
  function FirstObject(s: string, from: nat): (r: Option<string>)
    requires from <= |s|
    ensures r.None? <==> forall i :: from <= i < |s| ==> !ObjectAt(s, i)
    ensures r.Some? ==> exists i :: from <= i < |s| && ObjectAt(s, i) && r.value == s[i..NextBrace(s, i + 1) + 1]
    decreases |s| - from
  {
    if from == |s| then None
    else if ObjectAt(s, from) then Some(s[from..NextBrace(s, from + 1) + 1])
    else FirstObject(s, from + 1)
  }

  function ExtractObject(s: string): (r: Option<string>)
    ensures r.None? <==> forall i :: 0 <= i < |s| ==> !ObjectAt(s, i)
    ensures r.Some? ==> && |r.value| >= 2 && r.value[0] == '{' && r.value[|r.value| - 1] == '}'
                        && (forall j :: 0 < j < |r.value| - 1 ==> !IsBrace(r.value[j]))
                        && Contains(s, r.value)
  {
    var r := FirstObject(s, 0);
    if r.Some? then
      ObjectShape(s, r.value);
      r
    else r
  }

  /** A match of the pattern is a brace-free object that occurs in the text. */
  lemma ObjectShape(s: string, o: string)
    requires exists i :: 0 <= i < |s| && ObjectAt(s, i) && o == s[i..NextBrace(s, i + 1) + 1]
    ensures |o| >= 2 && o[0] == '{' && o[|o| - 1] == '}'
    ensures forall j :: 0 < j < |o| - 1 ==> !IsBrace(o[j])
    ensures Contains(s, o)
  {
    var i :| 0 <= i < |s| && ObjectAt(s, i) && o == s[i..NextBrace(s, i + 1) + 1];
    var k := NextBrace(s, i + 1);
    forall j | 0 < j < |o| - 1 ensures !IsBrace(o[j]) {
      assert o[j] == s[i + j];
    }
    assert OccursAt(s, o, i);
  }

  // ---------------------------------------------------------------------------
  // Query generation
  // ---------------------------------------------------------------------------

  /** A decoded JSON member value: a string, `null`, or anything else (a number, a boolean, an array). */
  datatype JsonValue = JString(text: string) | JNull | JOther

  /** A JSON decoder: the object's members, or `None` when `json.loads` raises. */
  type Decoder = string -> Option<map<string, JsonValue>>

  /** The object a provider's reply yields, if any: strip, find the first brace-free object, decode it. */
  function ReplyData(reply: Option<string>, decode: Decoder): Option<map<string, JsonValue>> {
    if reply.None? then None
    else
      var found := ExtractObject(Strip(reply.value));
      if found.None? then None else decode(found.value)
  }

  /** A required `str` field filled from `data.get(key, default)`; `None` when validation raises. */
  function StrField(data: map<string, JsonValue>, key: string, default: string): Option<string> {
    if key !in data then Some(default)
    else if data[key].JString? then Some(data[key].text)
    else None
  }

  /** An `Optional[str]` field filled from `data.get(key, default)`: `null` gives no value. */
  function OptStrField(data: map<string, JsonValue>, key: string, default: string): Option<Option<string>> {
    if key !in data then Some(Some(default))
    else match data[key]
      case JString(t) => Some(Some(t))
      case JNull => Some(None)
      case JOther => None
  }

  /** `GeneratedQueries` accepts the object: each query present is a string, and `reasoning` is a string or `null`. */
  predicate Validates(data: map<string, JsonValue>) {
    && ("github_query" in data ==> data["github_query"].JString?)
    && ("huggingface_query" in data ==> data["huggingface_query"].JString?)
    && ("reddit_query" in data ==> data["reddit_query"].JString?)
    && ("reasoning" in data ==> !data["reasoning"].JOther?)
  }

  /**
   * The record built from a provider's object, or `None` when building it
   * raises a validation error (which sends the chain to the next tier).
   */
  function QueriesFromData(data: map<string, JsonValue>, userQuery: string, defaultReason: string,
                           intent: QueryIntent, weights: SourceWeights): (r: Option<GeneratedQueries>)
    ensures r.Some? <==> Validates(data)
    ensures r.Some? ==> r.value.intent == Some(intent) && r.value.sourceWeights == Some(weights)
  {
    var github := StrField(data, "github_query", userQuery);
    var huggingface := StrField(data, "huggingface_query", userQuery);
    var reddit := StrField(data, "reddit_query", userQuery);
    var reasoning := OptStrField(data, "reasoning", defaultReason);
    if github.None? || huggingface.None? || reddit.None? || reasoning.None? then None
    else Some(GeneratedQueries(github.value, huggingface.value, reddit.value, reasoning.value, Some(intent), Some(weights)))
  }

  const GroqReason := "Generated by Groq AI"
  const GeminiReason := "Generated by Gemini AI (fallback)"

  /** The languages the rule-based generator recognises, in the order written. */
  const FallbackLanguages: seq<string> := ["python", "javascript", "java", "cpp", "c++", "rust", "go", "typescript"]

  /** The tokens of `words` that are recognised languages, in order. */
  function LanguageKeywords(words: seq<string>): (r: seq<string>)
    ensures forall k :: 0 <= k < |r| ==> r[k] in FallbackLanguages && r[k] in words
  {
    if words == [] then []
    else (if words[0] in FallbackLanguages then [words[0]] else []) + LanguageKeywords(words[1..])
  }

  /** `''.join(lang_keywords[:1])`: the first recognised language, or nothing. */
  function FirstLanguage(userQuery: string): string {
    var langs := LanguageKeywords(Words(Lower(userQuery)));
    if langs == [] then "" else langs[0]
  }

  /** `_generate_fallback_queries`: the user's query with the year and a few fixed words appended. */
  function FallbackQueries(userQuery: string, currentYear: nat): GeneratedQueries {
    var year := NatToString(currentYear);
    GeneratedQueries(
      Strip(userQuery + " " + year + " " + FirstLanguage(userQuery)),
      Strip(userQuery + " " + year + " latest"),
      Strip(userQuery + " " + year + " best recommendation recent"),
      Some("Using optimized fallback queries with " + year + " for maximum recency (both AI providers unavailable)"),
      None,
      None)
  }

  lemma {:induction false} DigitsNotSpace(year: string)
    requires forall i :: 0 <= i < |year| ==> IsDigit(year[i])
    ensures forall i :: 0 <= i < |year| ==> NotSpace(year[i])
  {
    forall i | 0 <= i < |year| ensures NotSpace(year[i]) {
      assert IsDigit(year[i]);
    }
  }

  /** All three rule-based queries contain the current year. */
  lemma {:induction false} FallbackQueriesContainYear(userQuery: string, currentYear: nat)
    ensures var q := FallbackQueries(userQuery, currentYear);
      var year := NatToString(currentYear);
      Contains(q.githubQuery, year) && Contains(q.huggingfaceQuery, year) && Contains(q.redditQuery, year)
  {
    var year := NatToString(currentYear);
    DigitsNotSpace(year);
    var a := userQuery + " ";
    assert userQuery + " " + year + " " + FirstLanguage(userQuery) == a + year + (" " + FirstLanguage(userQuery));
    StripKeeps(a, year, " " + FirstLanguage(userQuery));
    assert userQuery + " " + year + " latest" == a + year + " latest";
    StripKeeps(a, year, " latest");
    assert userQuery + " " + year + " best recommendation recent" == a + year + " best recommendation recent";
    StripKeeps(a, year, " best recommendation recent");
  }

  /** The appended language is one of the recognised ones but never "c++", which no `\w+` token can equal. */
  lemma {:induction false} FallbackLanguageNeverCpp(userQuery: string)
    ensures FirstLanguage(userQuery) == "" || FirstLanguage(userQuery) in FallbackLanguages
    ensures FirstLanguage(userQuery) != "c++"
  {
    var words := Words(Lower(userQuery));
    var langs := LanguageKeywords(words);
    if langs != [] {
      var w := langs[0];
      assert w in words;
      var k :| 0 <= k < |words| && words[k] == w;
      if |w| >= 2 {
        assert IsWordChar(w[1]);
      }
    }
  }

  /** Which tier of the chain produced an answer. */
  datatype Tier = GroqTier | GeminiTier | RuleBasedTier

  /** A provider answers when its reply yields an object that validates. */
  predicate Answers(reply: Option<string>, decode: Decoder) {
    ReplyData(reply, decode).Some? && Validates(ReplyData(reply, decode).value)
  }

  /** The queries one provider tier yields, or `None` when the chain moves on. */
  function ProviderQueries(reply: Option<string>, decode: Decoder, userQuery: string, reason: string,
                           intent: QueryIntent, weights: SourceWeights): (r: Option<GeneratedQueries>)
    ensures r.Some? <==> Answers(reply, decode)
  {
    var data := ReplyData(reply, decode);
    if data.None? then None else QueriesFromData(data.value, userQuery, reason, intent, weights)
  }

  /** The tier that answers: the first provider whose reply yields a valid object, else the rule-based one. */
  function AnsweringTier(groqReply: Option<string>, geminiReply: Option<string>, decode: Decoder): (t: Tier)
    ensures t == GroqTier <==> Answers(groqReply, decode)
    ensures t == GeminiTier <==> !Answers(groqReply, decode) && Answers(geminiReply, decode)
    ensures t == RuleBasedTier <==> !Answers(groqReply, decode) && !Answers(geminiReply, decode)
  {
    if Answers(groqReply, decode) then GroqTier
    else if Answers(geminiReply, decode) then GeminiTier
    else RuleBasedTier
  }

  /** One provider attempt: strip the reply, find the first brace-free object, decode and validate it. */
  method TryProvider(reply: Option<string>, decode: Decoder, userQuery: string, reason: string,
                     intent: QueryIntent, weights: SourceWeights)
    returns (q: Option<GeneratedQueries>)
    ensures q == ProviderQueries(reply, decode, userQuery, reason, intent, weights)
    ensures q.Some? ==> reply.Some? && ExtractObject(Strip(reply.value)).Some?
  {
    if reply.None? {
      return None;
    }
    var content := Strip(reply.value);
    var found := ExtractObject(content);
    if found.None? {
      return None;
    }
    var data := decode(found.value);
    if data.None? {
      return None;
    }
    q := QueriesFromData(data.value, userQuery, reason, intent, weights);
  }

  /**
   * `generate_search_queries`.  The intent and weights are those of
   * `classify_query_intent` whichever tier answers; a provider's missing keys
   * default to the user's query; when neither provider yields a valid object
   * the rule-based queries are returned.
   */
  method GenerateSearchQueries(userQuery: string, currentYear: nat,
                               groqReply: Option<string>, geminiReply: Option<string>, decode: Decoder)
    returns (q: GeneratedQueries)
    ensures q.intent == Some(ClassifyQueryIntent(userQuery).0)
    ensures q.sourceWeights == Some(ClassifyQueryIntent(userQuery).1)
    ensures QueriesOfTier(q, userQuery, currentYear, groqReply, geminiReply, decode)
  {
    var (intent, weights) := ClassifyQueryIntent(userQuery);
    q := GenerateWith(userQuery, currentYear, groqReply, geminiReply, decode, intent, weights);
  }

  /**
   * The queries match the answering tier: the validated object of the provider
   * that answered, with its reason as the default, or the rule-based queries;
   * `q.intent` and `q.sourceWeights` are carried along.
   */
  predicate QueriesOfTier(q: GeneratedQueries, userQuery: string, currentYear: nat,
                          groqReply: Option<string>, geminiReply: Option<string>, decode: Decoder)
  {
    && q.intent.Some? && q.sourceWeights.Some?
    && match AnsweringTier(groqReply, geminiReply, decode)
      case GroqTier =>
        Some(q) == ProviderQueries(groqReply, decode, userQuery, GroqReason, q.intent.value, q.sourceWeights.value)
      case GeminiTier =>
        Some(q) == ProviderQueries(geminiReply, decode, userQuery, GeminiReason, q.intent.value, q.sourceWeights.value)
      case RuleBasedTier =>
        q == FallbackQueries(userQuery, currentYear).(intent := q.intent, sourceWeights := q.sourceWeights)
  }

  /** The provider chain of `generate_search_queries` for an already classified query. */
  method GenerateWith(userQuery: string, currentYear: nat, groqReply: Option<string>, geminiReply: Option<string>,
                      decode: Decoder, intent: QueryIntent, weights: SourceWeights)
    returns (q: GeneratedQueries)
    ensures q.intent == Some(intent) && q.sourceWeights == Some(weights)
    ensures QueriesOfTier(q, userQuery, currentYear, groqReply, geminiReply, decode)
  {
    var groq := TryProvider(groqReply, decode, userQuery, GroqReason, intent, weights);
    if groq.Some? {
      return groq.value;
    }
    var gemini := TryProvider(geminiReply, decode, userQuery, GeminiReason, intent, weights);
    if gemini.Some? {
      return gemini.value;
    }
    var fallback := FallbackQueries(userQuery, currentYear);
    q := fallback.(intent := Some(intent), sourceWeights := Some(weights));
  }

  /**
   * `generate_search_queries` against the class as declared.  A provider's
   * record silently loses the `intent=` and `source_weights=` arguments, and
   * the assignment `fallback.intent = intent` on the rule-based record raises
   * a validation error for the unknown field: `None` is that exception.
   */
  method GenerateAsWritten(userQuery: string, currentYear: nat,
                           groqReply: Option<string>, geminiReply: Option<string>, decode: Decoder)
    returns (r: Option<DeclaredQueries>)
    ensures r.None? <==> AnsweringTier(groqReply, geminiReply, decode) == RuleBasedTier
    ensures var (intent, weights) := ClassifyQueryIntent(userQuery);
      && (AnsweringTier(groqReply, geminiReply, decode) == GroqTier ==>
            r == Some(Declared(ProviderQueries(groqReply, decode, userQuery, GroqReason, intent, weights).value)))
      && (AnsweringTier(groqReply, geminiReply, decode) == GeminiTier ==>
            r == Some(Declared(ProviderQueries(geminiReply, decode, userQuery, GeminiReason, intent, weights).value)))
  {
    var (intent, weights) := ClassifyQueryIntent(userQuery);
    var groq := TryProvider(groqReply, decode, userQuery, GroqReason, intent, weights);
    if groq.Some? {
      return Some(Declared(groq.value));
    }
    var gemini := TryProvider(geminiReply, decode, userQuery, GeminiReason, intent, weights);
    if gemini.Some? {
      return Some(Declared(gemini.value));
    }
    r := None;
  }

  /**
   * With no provider reply at all (no API keys configured) the chain reaches
   * the rule-based tier, where the declared class raises.
   */
  lemma {:induction false} NoProviderReachesRuleBased(decode: Decoder)
    ensures AnsweringTier(None, None, decode) == RuleBasedTier
    ensures !Answers(None, decode)
  {
    assert ReplyData(None, decode).None?;
  }

  /** In a valid object, a missing query defaults to the user's query and a missing reason to the tier's. */
  lemma MissingKeysDefault(data: map<string, JsonValue>, userQuery: string, reason: string, intent: QueryIntent, weights: SourceWeights)
    requires Validates(data)
    ensures var r := QueriesFromData(data, userQuery, reason, intent, weights);
      && r.Some?
      && ("github_query" !in data ==> r.value.githubQuery == userQuery)
      && ("huggingface_query" !in data ==> r.value.huggingfaceQuery == userQuery)
      && ("reddit_query" !in data ==> r.value.redditQuery == userQuery)
      && ("reasoning" !in data ==> r.value.reasoning == Some(reason))
  {
  }

  /** In a valid object, the strings present are kept as they are, and a `null` reason gives no reason. */
  lemma PresentValuesKept(data: map<string, JsonValue>, userQuery: string, reason: string, intent: QueryIntent, weights: SourceWeights)
    requires Validates(data)
    ensures var r := QueriesFromData(data, userQuery, reason, intent, weights);
      && r.Some?
      && ("github_query" in data ==> data["github_query"] == JString(r.value.githubQuery))
      && ("huggingface_query" in data ==> data["huggingface_query"] == JString(r.value.huggingfaceQuery))
      && ("reddit_query" in data ==> data["reddit_query"] == JString(r.value.redditQuery))
      && ("reasoning" in data && data["reasoning"].JNull? ==> r.value.reasoning.None?)
      && ("reasoning" in data && data["reasoning"].JString? ==> r.value.reasoning == Some(data["reasoning"].text))
  {
  }

  /** A `null` (or any non-string) query in a provider's object fails validation, so that provider does not answer. */
  lemma NonStringQueryRejected(data: map<string, JsonValue>, key: string, userQuery: string, reason: string,
                               intent: QueryIntent, weights: SourceWeights)
    requires key in {"github_query", "huggingface_query", "reddit_query"}
    requires key in data && !data[key].JString?
    ensures QueriesFromData(data, userQuery, reason, intent, weights).None?
  {
  }

  /** The object `{"github_query": "x", "reasoning": null}` validates, with query "x", the user's query elsewhere and no reason. */
  lemma NullReasoningValidates(userQuery: string, reason: string, intent: QueryIntent, weights: SourceWeights)
    ensures var r := QueriesFromData(map["github_query" := JString("x"), "reasoning" := JNull], userQuery, reason, intent, weights);
      r.Some? && r.value.githubQuery == "x" && r.value.huggingfaceQuery == userQuery && r.value.reasoning.None?
  {
    var data := map["github_query" := JString("x"), "reasoning" := JNull];
    assert "huggingface_query" !in data && "reddit_query" !in data;
    assert Validates(data);
    PresentValuesKept(data, userQuery, reason, intent, weights);
    MissingKeysDefault(data, userQuery, reason, intent, weights);
  }

  /** Groq's reply decoding to `{"github_query": "x", "reasoning": null}` answers at the Groq tier with no reason. */
  lemma NullReasoningAnswersAtGroq(groqReply: string, geminiReply: Option<string>, decode: Decoder,
                                   userQuery: string, intent: QueryIntent, weights: SourceWeights)
    requires ReplyData(Some(groqReply), decode) == Some(map["github_query" := JString("x"), "reasoning" := JNull])
    ensures AnsweringTier(Some(groqReply), geminiReply, decode) == GroqTier
    ensures var r := ProviderQueries(Some(groqReply), decode, userQuery, GroqReason, intent, weights);
      r.Some? && r.value.githubQuery == "x" && r.value.huggingfaceQuery == userQuery && r.value.reasoning.None?
  {
    NullReasoningValidates(userQuery, GroqReason, intent, weights);
  }

  /** A reply without any brace-free object is never used, whatever the decoder does. */
  lemma ReplyWithoutObjectIgnored(reply: string, decode: Decoder)
    requires forall i :: 0 <= i < |Strip(reply)| ==> Strip(reply)[i] != '{'
    ensures ReplyData(Some(reply), decode).None?
    ensures !Answers(Some(reply), decode)
  {
    var s := Strip(reply);
    forall i | 0 <= i < |s| ensures !ObjectAt(s, i) {
      assert s[i] != '{';
    }
  }

  // ---------------------------------------------------------------------------
  // Synthesis
  // ---------------------------------------------------------------------------

  const NoResultsText: string := "No relevant results found. Try refining your search query with more specific technical terms."
  const FallbackSuffix: string := ". Review the results below for potential starting points. (Note: AI synthesis unavailable - both Groq and Gemini providers are currently unavailable)"

  function CountActive(gs: seq<GitHubResult>): (n: nat)
    ensures n <= |gs|
    ensures n == 0 <==> forall k :: 0 <= k < |gs| ==> gs[k].status != Active
  {
    if gs == [] then 0
    else
      assert forall k :: 1 <= k < |gs| ==> gs[1..][k - 1] == gs[k];
      (if gs[0].status == Active then 1 else 0) + CountActive(gs[1..])
  }

  function CountWarnings(rs: seq<RedditResult>): (n: nat)
    ensures n <= |rs|
    ensures n == 0 <==> forall k :: 0 <= k < |rs| ==> !rs[k].hasWarning
  {
    if rs == [] then 0
    else
      assert forall k :: 1 <= k < |rs| ==> rs[1..][k - 1] == rs[k];
      (if rs[0].hasWarning then 1 else 0) + CountWarnings(rs[1..])
  }

  /** The sentence fragments of the rule-based summary, one per non-empty source. */
  function SummaryParts(gs: seq<GitHubResult>, hs: seq<HuggingFaceResult>, rs: seq<RedditResult>): seq<string> {
    GitHubPart(gs) + HuggingFacePart(hs) + RedditPart(rs)
  }

  function GitHubPart(gs: seq<GitHubResult>): (r: seq<string>)
    ensures |r| <= 1 && (r == [] <==> gs == [])
  {
    if gs == [] then []
    else if CountActive(gs) > 0 then ["Found " + NatToString(CountActive(gs)) + " active GitHub repositories"]
    else ["Found " + NatToString(|gs|) + " GitHub repositories"]
  }

  function HuggingFacePart(hs: seq<HuggingFaceResult>): (r: seq<string>)
    ensures |r| <= 1 && (r == [] <==> hs == [])
  {
    if hs == [] then [] else [NatToString(|hs|) + " Hugging Face models/spaces"]
  }

  function RedditPart(rs: seq<RedditResult>): (r: seq<string>)
    ensures |r| <= 1 && (r == [] <==> rs == [])
  {
    if rs == [] then []
    else if CountWarnings(rs) > 0
    then [NatToString(|rs|) + " Reddit discussions (" + NatToString(CountWarnings(rs)) + " with community warnings)"]
    else [NatToString(|rs|) + " Reddit discussions"]
  }

  /** `_generate_fallback_synthesis`, appending one fragment per non-empty source. */
  method FallbackSynthesis(gs: seq<GitHubResult>, hs: seq<HuggingFaceResult>, rs: seq<RedditResult>)
    returns (text: string)
    ensures gs == [] && hs == [] && rs == [] <==> text == NoResultsText
    ensures text != NoResultsText ==>
      text == "Search complete: " + Join(", ", SummaryParts(gs, hs, rs)) + FallbackSuffix
  {
    var parts: seq<string> := [];
    if gs != [] {
      var active := CountActive(gs);
      if active > 0 {
        parts := parts + ["Found " + NatToString(active) + " active GitHub repositories"];
      } else {
        parts := parts + ["Found " + NatToString(|gs|) + " GitHub repositories"];
      }
    }
    assert parts == GitHubPart(gs);
    if hs != [] {
      parts := parts + [NatToString(|hs|) + " Hugging Face models/spaces"];
    }
    assert parts == GitHubPart(gs) + HuggingFacePart(hs);
    if rs != [] {
      var warnings := CountWarnings(rs);
      if warnings > 0 {
        parts := parts + [NatToString(|rs|) + " Reddit discussions (" + NatToString(warnings) + " with community warnings)"];
      } else {
        parts := parts + [NatToString(|rs|) + " Reddit discussions"];
      }
    }
    assert parts == SummaryParts(gs, hs, rs);
    if parts == [] {
      return NoResultsText;
    }
    text := "Search complete: " + Join(", ", parts) + FallbackSuffix;
    SummaryNotEmptyText(Join(", ", parts));
  }

  lemma SummaryNotEmptyText(summary: string)
    ensures "Search complete: " + summary + FallbackSuffix != NoResultsText
  {
    var text := "Search complete: " + summary + FallbackSuffix;
    assert text[|text| - 1] == FallbackSuffix[|FallbackSuffix| - 1] == ')';
    assert NoResultsText[|NoResultsText| - 1] == '.';
  }

  /** `synthesize_results`: the first provider's stripped reply, else the rule-based summary. */
  method SynthesizeResults(gs: seq<GitHubResult>, hs: seq<HuggingFaceResult>, rs: seq<RedditResult>,
                           groqReply: Option<string>, geminiReply: Option<string>)
    returns (text: string)
    ensures groqReply.Some? ==> text == Strip(groqReply.value)
    ensures groqReply.None? && geminiReply.Some? ==> text == Strip(geminiReply.value)
    ensures groqReply.None? && geminiReply.None? ==>
      (text == NoResultsText <==> gs == [] && hs == [] && rs == [])
    ensures groqReply.None? && geminiReply.None? && text != NoResultsText ==>
      text == "Search complete: " + Join(", ", SummaryParts(gs, hs, rs)) + FallbackSuffix
  {
    if groqReply.Some? {
      return Strip(groqReply.value);
    }
    if geminiReply.Some? {
      return Strip(geminiReply.value);
    }
    text := FallbackSynthesis(gs, hs, rs);
  }
}
