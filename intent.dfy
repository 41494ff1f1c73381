/**
 * Query intent classification (`classify_query_intent`): every intent owns a
 * list of keyword patterns, its score is the number of those patterns found in
 * the lower-cased query, the first intent with the highest non-zero score wins
 * (`general` when nothing matches), and the intent selects a fixed row of
 * per-source weights.
 */
module Intent {
  import opened Text
  import opened Patterns

  datatype QueryIntent =
    | ProjectSearch
    | HowTo
    | Recommendation
    | Comparison
    | Troubleshooting
    | ModelSearch
    | General

  /** The share of attention each source gets, keyed as in the source's dicts. */
  datatype SourceWeights = SourceWeights(github: real, reddit: real, huggingface: real)

  /** The intents that are scored, in the order of the `scores` dict. */
  const ScoredIntents: seq<QueryIntent> :=
    [ProjectSearch, HowTo, Recommendation, Comparison, Troubleshooting, ModelSearch]

  function Alternatives(ws: seq<string>): Pattern {
    WordPattern(ws)
  }

  /** The pattern lists of lines 67-99, one `Pattern` per regular expression. */
  function IntentPatterns(intent: QueryIntent): seq<Pattern> {
    match intent
    case ProjectSearch => [
      Alternatives(["project", "repo", "repository", "code", "implementation", "example", "template", "boilerplate"]),
      Alternatives(["github", "clone", "fork", "open-source", "open source"]),
      [Gap("does", "exist"), Word("is there a"), Gap("find", "project")]
    ]
    case HowTo => [
      Alternatives(["how to", "how do", "how can"]),
      Alternatives(["what is the best way", "what is the best method", "what is the best approach",
             "what is the way", "what is the method", "what is the approach"]),
      Alternatives(["guide", "tutorial", "steps", "learn", "build", "create", "make", "setup"]),
      Alternatives(["can i", "can you", "can we"])
    ]
    case Recommendation => [
      Alternatives(["best", "top", "recommend", "suggestion", "should i", "which", "better", "vs"]),
      [Gap("what", "use"), Gap("what", "choose")]
    ]
    case Comparison => [
      // `\bvs\.?\b` matches exactly where `\bvs\b` does: a '.' after "vs" is already a boundary
      Alternatives(["vs", "versus"]),
      Alternatives(["compare", "comparison", "difference between", "which is better"])
    ]
    case Troubleshooting => [
      Alternatives(["error", "issue", "problem", "bug", "fix", "broken", "not working", "help", "solve"]),
      [Gap("why", "not"), Word("how to fix"), Word("debugging")]
    ]
    case ModelSearch => [
      Alternatives(["model", "llm", "transformer", "neural network", "ai model", "ml model"]),
      Alternatives(["gpt", "bert", "llama", "mistral", "stable diffusion", "clip"]),
      Alternatives(["hugging face", "huggingface", "hf", "pretrained"])
    ]
    case General => []
  }

  /** How many of the patterns match `s`. */
  function CountMatching(ps: seq<Pattern>, s: string): (n: nat)
    ensures n <= |ps|
    ensures n == 0 <==> forall k :: 0 <= k < |ps| ==> !Matches(ps[k], s)
    ensures n == |ps| <==> forall k :: 0 <= k < |ps| ==> Matches(ps[k], s)
  {
    if |ps| == 0 then 0
    else
      var rest := CountMatching(ps[..|ps| - 1], s);
      assert forall k :: 0 <= k < |ps| - 1 ==> ps[..|ps| - 1][k] == ps[k];
      rest + (if Matches(ps[|ps| - 1], s) then 1 else 0)
  }

  /** The score of one intent for a query (line 103-108): matched patterns in the lower-cased query. */
  function IntentScore(intent: QueryIntent, query: string): nat {
    CountMatching(IntentPatterns(intent), Lower(query))
  }

  /**
   * Python's `max(d, key=d.get)`: the index of the first maximal element, since
   * `max` only replaces its candidate on a strictly greater value.
   */
  function FirstMaxIndex(s: seq<nat>): (k: nat)
    requires |s| > 0
    ensures k < |s|
    ensures forall j :: 0 <= j < |s| ==> s[j] <= s[k]
    ensures forall j :: 0 <= j < k ==> s[j] < s[k]
  {
    if |s| == 1 then 0
    else
      var k := FirstMaxIndex(s[..|s| - 1]);
      assert forall j :: 0 <= j < |s| - 1 ==> s[..|s| - 1][j] == s[j];
      if s[|s| - 1] > s[k] then |s| - 1 else k
  }

  function Scores(query: string): (r: seq<nat>)
    ensures |r| == |ScoredIntents|
    ensures forall k :: 0 <= k < |r| ==> r[k] == IntentScore(ScoredIntents[k], query)
  {
    seq(|ScoredIntents|, k requires 0 <= k < |ScoredIntents| => IntentScore(ScoredIntents[k], query))
  }

  /** The position of an intent in the tie-break order (`General` comes last). */
  function Priority(intent: QueryIntent): (p: nat)
    ensures p <= |ScoredIntents|
    ensures p < |ScoredIntents| ==> ScoredIntents[p] == intent
    ensures p == |ScoredIntents| <==> intent == General
  {
    match intent
    case ProjectSearch => 0
    case HowTo => 1
    case Recommendation => 2
    case Comparison => 3
    case Troubleshooting => 4
    case ModelSearch => 5
    case General => 6
  }

  /** The weight table of lines 119-127; every row is non-negative and sums to one. */
  function WeightsFor(intent: QueryIntent): (w: SourceWeights)
    ensures w.github >= 0.0 && w.reddit >= 0.0 && w.huggingface >= 0.0
    ensures w.github + w.reddit + w.huggingface == 1.0
  {
    match intent
    case ProjectSearch => SourceWeights(0.7, 0.2, 0.1)
    case HowTo => SourceWeights(0.3, 0.6, 0.1)
    case Recommendation => SourceWeights(0.25, 0.6, 0.15)
    case Comparison => SourceWeights(0.3, 0.5, 0.2)
    case Troubleshooting => SourceWeights(0.2, 0.7, 0.1)
    case ModelSearch => SourceWeights(0.2, 0.1, 0.7)
    case General => SourceWeights(0.4, 0.4, 0.2)
  }

  /**
   * The winner for a row of scores in dict order: the first maximal entry, or
   * `General` when every score is zero.
   */
  function PickIntent(scores: seq<nat>): (intent: QueryIntent)
    requires |scores| == |ScoredIntents|
    ensures intent == General <==> forall k :: 0 <= k < |scores| ==> scores[k] == 0
    ensures intent != General ==>
      && scores[Priority(intent)] > 0
      && (forall k :: 0 <= k < |scores| ==> scores[k] <= scores[Priority(intent)])
      && (forall k :: 0 <= k < Priority(intent) ==> scores[k] < scores[Priority(intent)])
  {
    var k := FirstMaxIndex(scores);
    if scores[k] == 0 then General else ScoredIntents[k]
  }

  /**
   * `classify_query_intent`: `general` exactly when no pattern of any intent
   * matches; otherwise an intent with the highest score, every intent before it
   * in dict order scoring strictly less, together with that intent's weights.
   */
  function ClassifyQueryIntent(query: string): (r: (QueryIntent, SourceWeights))
    ensures r.1 == WeightsFor(r.0)
    ensures r.0 == General <==> forall k :: 0 <= k < |ScoredIntents| ==> IntentScore(ScoredIntents[k], query) == 0
    ensures r.0 != General ==>
      && IntentScore(r.0, query) > 0
      && (forall k :: 0 <= k < |ScoredIntents| ==> IntentScore(ScoredIntents[k], query) <= IntentScore(r.0, query))
      && (forall k :: 0 <= k < Priority(r.0) ==> IntentScore(ScoredIntents[k], query) < IntentScore(r.0, query))
  {
    var scores := Scores(query);
    var intent := PickIntent(scores);
    PickedByScore(scores, (i: QueryIntent) => IntentScore(i, query), intent);
    (intent, WeightsFor(intent))
  }

  /** What `PickIntent` promises, restated for the scores `score` gives the intents. */
  lemma PickedByScore(scores: seq<nat>, score: QueryIntent -> nat, intent: QueryIntent)
    requires |scores| == |ScoredIntents|
    requires forall k :: 0 <= k < |scores| ==> scores[k] == score(ScoredIntents[k])
    requires intent == PickIntent(scores)
    ensures intent == General <==> forall k :: 0 <= k < |ScoredIntents| ==> score(ScoredIntents[k]) == 0
    ensures intent != General ==>
      && score(intent) > 0
      && (forall k :: 0 <= k < |ScoredIntents| ==> score(ScoredIntents[k]) <= score(intent))
      && (forall k :: 0 <= k < Priority(intent) ==> score(ScoredIntents[k]) < score(intent))
  {
    if intent != General {
      assert scores[Priority(intent)] == score(intent);
    }
  }
}
