/**
 * Relevance scoring and per-source ranking.  `calculate_semantic_relevance`
 * scores a text against the query's intent keywords; the three score
 * functions combine the relevance of every text field of a result with
 * popularity, status, recency and content multipliers; the rank functions
 * sort each source's results by that score, highest first, keeping ties in
 * input order.
 *
 * Every score function is a method that builds its local `score` step by
 * step and is proved equal to a specification function made of stages.  The
 * base-10 logarithm is a parameter: all that is assumed of it is `LogLike`,
 * that it is non-negative from 1 on.  Clock readings and timestamp parsing
 * are parameters too.
 */
module Ranking {
  import opened Wrappers
  import opened Text
  import opened Models
  import opened Keywords
  import opened StableSort

  /** What the proofs assume of `math.log10`: it is non-negative on `[1, ∞)`. */
  ghost predicate LogLike(log10: real -> real) {
    forall x: real :: x >= 1.0 ==> log10(x) >= 0.0
  }

  /** Python truthiness of an optional string: present and not empty. */
  predicate Truthy(s: Option<string>) {
    s.Some? && s.value != ""
  }

  /** `s or ''`. */
  function OrEmpty(s: Option<string>): string {
    if s.Some? then s.value else ""
  }

  // ---------------------------------------------------------------------
  // calculate_semantic_relevance
  // ---------------------------------------------------------------------

  /** Some item of `list` occurs in `t` (`any(x in t for x in list)`). */
  predicate Mentions(list: seq<string>, t: string) {
    exists k :: 0 <= k < |list| && Contains(t, list[k])
  }

  /** How many items of `list` occur in `t`. */
  function Hits(list: seq<string>, t: string): (n: nat)
    ensures n <= |list|
    ensures n == 0 <==> !Mentions(list, t)
    ensures n == |list| <==> forall k :: 0 <= k < |list| ==> Contains(t, list[k])
  {
    if list == [] then 0
    else
      var init := list[..|list| - 1];
      assert forall k :: 0 <= k < |init| ==> init[k] == list[k];
      Hits(init, t) + (if Contains(t, list[|list| - 1]) then 1 else 0)
  }

  /** How many words longer than three characters occur in `t`. */
  function LongHits(words: seq<string>, t: string): (n: nat)
    ensures n <= |words|
    ensures n == 0 <==> forall k :: 0 <= k < |words| ==> !(|words[k]| > 3 && Contains(t, words[k]))
  {
    if words == [] then 0
    else
      var init := words[..|words| - 1];
      assert forall k :: 0 <= k < |init| ==> init[k] == words[k];
      var w := words[|words| - 1];
      LongHits(init, t) + (if |w| > 3 && Contains(t, w) then 1 else 0)
  }

  /** A matching phrase is worth 15 per word. */
  function PhraseTerm(phrase: string, t: string): (r: real)
    ensures r >= 0.0
    ensures r > 0.0 <==> Contains(t, phrase) && Split(phrase) != []
  {
    if Contains(t, phrase) then (|Split(phrase)| as real) * 15.0 else 0.0
  }

  function PhraseScore(phrases: seq<string>, t: string): (r: real)
    ensures r >= 0.0
    ensures r == 0.0 <==> forall k :: 0 <= k < |phrases| ==> PhraseTerm(phrases[k], t) == 0.0
  {
    if phrases == [] then 0.0
    else
      var init := phrases[..|phrases| - 1];
      assert forall k :: 0 <= k < |init| ==> init[k] == phrases[k];
      PhraseScore(init, t) + PhraseTerm(phrases[|phrases| - 1], t)
  }

  /** A matching technology is worth 12, plus 3 for every further occurrence. */
  function TechTerm(tech: string, t: string): (r: real)
    ensures Contains(t, tech) ==> r >= 12.0
    ensures !Contains(t, tech) ==> r == 0.0
  {
    if Contains(t, tech) then
      12.0 + (if Count(t, tech) > 1 then ((Count(t, tech) - 1) as real) * 3.0 else 0.0)
    else 0.0
  }

  function TechScore(techs: seq<string>, t: string): (r: real)
    ensures r >= 12.0 * (Hits(techs, t) as real)
  {
    if techs == [] then 0.0
    else
      var init := techs[..|techs| - 1];
      TechScore(init, t) + TechTerm(techs[|techs| - 1], t)
  }

  /** Intent density: matching phrases among the first three, plus matching technologies. */
  function Density(t: string, intent: IntentKeywords): nat {
    Hits(Take(intent.phrases, 3), t) + Hits(intent.technologies, t)
  }

  /** The additive part of the relevance of the lower-cased text `t`. */
  function RelevanceSum(t: string, intent: IntentKeywords): (r: real)
    ensures r >= 0.0
  {
    PhraseScore(intent.phrases, t)
    + TechScore(intent.technologies, t)
    + (Hits(intent.languages, t) as real) * 10.0
    + (Hits(intent.tasks, t) as real) * 10.0
    + (Hits(intent.actions, t) as real) * 5.0
    + (LongHits(intent.allWords, t) as real) * 2.0
  }

  /** What `calculate_semantic_relevance(text, intent)` returns. */
  function SemanticRelevance(text: string, intent: IntentKeywords): (r: real)
    ensures r >= 0.0
    ensures text == "" ==> r == 0.0
  {
    if text == "" then 0.0
    else
      var t := Lower(text);
      var sum := RelevanceSum(t, intent);
      var density := Density(t, intent);
      if density >= 3 then sum * 1.5 else if density >= 2 then sum * 1.3 else sum
  }

  /** Every detected language, task or action found in the text raises its relevance above zero. */
  lemma RelevancePositive(text: string, intent: IntentKeywords)
    requires text != ""
    requires Mentions(intent.languages, Lower(text)) || Mentions(intent.tasks, Lower(text))
             || Mentions(intent.actions, Lower(text)) || Mentions(intent.technologies, Lower(text))
    ensures SemanticRelevance(text, intent) >= 5.0
  {
    var t := Lower(text);
    assert RelevanceSum(t, intent) >= 5.0;
  }

  /** Density only ever raises the relevance: by ×1.5 from three hits, ×1.3 from two. */
  lemma DensityRaises(text: string, intent: IntentKeywords)
    requires text != ""
    ensures SemanticRelevance(text, intent) >= RelevanceSum(Lower(text), intent)
    ensures Density(Lower(text), intent) >= 3 ==> SemanticRelevance(text, intent) == RelevanceSum(Lower(text), intent) * 1.5
    ensures Density(Lower(text), intent) < 2 ==> SemanticRelevance(text, intent) == RelevanceSum(Lower(text), intent)
  {
  }

  method CalculateSemanticRelevance(text: string, intent: IntentKeywords) returns (score: real)
    ensures score == SemanticRelevance(text, intent)
  {
    if text == "" {
      return 0.0;
    }
    var t := Lower(text);
    score := 0.0;
    var phraseScore := SumPhraseScores(intent.phrases, t);
    score := score + phraseScore;
    var techScore := SumTechScores(intent.technologies, t);
    score := score + techScore;
    var langHits := CountHits(intent.languages, t);
    score := score + (langHits as real) * 10.0;
    var taskHits := CountHits(intent.tasks, t);
    score := score + (taskHits as real) * 10.0;
    var actionHits := CountHits(intent.actions, t);
    score := score + (actionHits as real) * 5.0;
    var matchedWords := LongHits(intent.allWords, t);
    score := score + (matchedWords as real) * 2.0;
    assert score == RelevanceSum(t, intent);

    var topHits := CountHits(Take(intent.phrases, 3), t);
    var techHits := CountHits(intent.technologies, t);
    var density := topHits + techHits;
    if density >= 3 {
      score := score * 1.5;
    } else if density >= 2 {
      score := score * 1.3;
    }
  }

  /** The phrase loop: 15 per word of every phrase found in `t`. */
  method SumPhraseScores(phrases: seq<string>, t: string) returns (score: real)
    ensures score == PhraseScore(phrases, t)
  {
    score := 0.0;
    for i := 0 to |phrases|
      invariant score == PhraseScore(phrases[..i], t)
    {
      if Contains(t, phrases[i]) {
        score := score + (|Split(phrases[i])| as real) * 15.0;
      }
      assert phrases[..i + 1][..i] == phrases[..i];
    }
    assert phrases[..|phrases|] == phrases;
  }

  /** The technology loop: 12 per technology found, 3 more per extra occurrence. */
  method SumTechScores(techs: seq<string>, t: string) returns (score: real)
    ensures score == TechScore(techs, t)
  {
    score := 0.0;
    for i := 0 to |techs|
      invariant score == TechScore(techs[..i], t)
    {
      if Contains(t, techs[i]) {
        score := score + 12.0;
        var count := Count(t, techs[i]);
        if count > 1 {
          score := score + ((count - 1) as real) * 3.0;
        }
      }
      assert techs[..i + 1][..i] == techs[..i];
    }
    assert techs[..|techs|] == techs;
  }

  /** A counting loop: how many items of `list` occur in `t`. */
  method CountHits(list: seq<string>, t: string) returns (n: nat)
    ensures n == Hits(list, t)
  {
    n := 0;
    for i := 0 to |list|
      invariant n == Hits(list[..i], t)
    {
      HitsSnoc(list, i, t);
      if Contains(t, list[i]) {
        n := n + 1;
      }
    }
    assert list[..|list|] == list;
  }

  lemma HitsSnoc(list: seq<string>, i: nat, t: string)
    requires i < |list|
    ensures Hits(list[..i + 1], t) == Hits(list[..i], t) + (if Contains(t, list[i]) then 1 else 0)
  {
    assert list[..i + 1][..i] == list[..i];
  }

  // ---------------------------------------------------------------------
  // Terms shared by the three score functions
  // ---------------------------------------------------------------------

  /** Title relevance ×8, plus 30 when the whole lower-cased query occurs in the title. */
  function TitleTerm(title: string, intent: IntentKeywords): (r: real)
    ensures r >= 0.0
  {
    SemanticRelevance(title, intent) * 8.0 + (if Contains(Lower(title), intent.original) then 30.0 else 0.0)
  }

  /** `bonus` when at least two of the first five phrases occur in the lower-cased `text`. */
  function PhraseBonus(text: string, intent: IntentKeywords, bonus: real): real {
    if Hits(Take(intent.phrases, 5), Lower(text)) >= 2 then bonus else 0.0
  }

  /** One per category (languages, technologies, tasks) that is non-empty and mentioned in `all`. */
  function Unique3(intent: IntentKeywords, all: string): (n: nat)
    ensures n <= 3
    ensures n == 0 <==> !Mentions(intent.languages, all) && !Mentions(intent.technologies, all)
                        && !Mentions(intent.tasks, all)
    ensures n == 3 <==> Mentions(intent.languages, all) && Mentions(intent.technologies, all)
                        && Mentions(intent.tasks, all)
  {
    (if intent.languages != [] && Mentions(intent.languages, all) then 1 else 0)
    + (if intent.technologies != [] && Mentions(intent.technologies, all) then 1 else 0)
    + (if intent.tasks != [] && Mentions(intent.tasks, all) then 1 else 0)
  }

  /** The comprehensive-match step: ×2.0 for three categories, ×1.6 for two. */
  function Holistic3Stage(s: real, unique: nat): (r: real)
    ensures s >= 0.0 ==> r >= s
    ensures unique < 2 ==> r == s
  {
    if unique >= 3 then s * 2.0 else if unique >= 2 then s * 1.6 else s
  }

  method TitleScore(title: string, intent: IntentKeywords) returns (score: real)
    ensures score == TitleTerm(title, intent)
  {
    var titleRelevance := CalculateSemanticRelevance(title, intent);
    score := titleRelevance * 8.0;
    if Contains(Lower(title), intent.original) {
      score := score + 30.0;
    }
  }

  method PhraseBonusScore(text: string, intent: IntentKeywords, bonus: real) returns (score: real)
    ensures score == PhraseBonus(text, intent, bonus)
  {
    score := 0.0;
    var phraseMatches := CountHits(Take(intent.phrases, 5), Lower(text));
    if phraseMatches >= 2 {
      score := bonus;
    }
  }

  /** The unique-match step of the three-category score functions. */
  method ApplyHolistic3(score: real, intent: IntentKeywords, allContentLower: string) returns (r: real)
    ensures r == Holistic3Stage(score, Unique3(intent, allContentLower))
  {
    var uniqueMatches := 0;
    if intent.languages != [] {
      uniqueMatches := uniqueMatches + (if Mentions(intent.languages, allContentLower) then 1 else 0);
    }
    if intent.technologies != [] {
      uniqueMatches := uniqueMatches + (if Mentions(intent.technologies, allContentLower) then 1 else 0);
    }
    if intent.tasks != [] {
      uniqueMatches := uniqueMatches + (if Mentions(intent.tasks, allContentLower) then 1 else 0);
    }
    r := score;
    if uniqueMatches >= 3 {
      r := r * 2.0;
    } else if uniqueMatches >= 2 {
      r := r * 1.6;
    }
  }

  // ---------------------------------------------------------------------
  // score_github_result
  // ---------------------------------------------------------------------

  /** Description relevance ×10, plus 25 for two matching phrases. */
  function DescriptionTerm(description: Option<string>, intent: IntentKeywords): (r: real)
    ensures r >= 0.0
    ensures !Truthy(description) ==> r == 0.0
  {
    if Truthy(description) then
      SemanticRelevance(description.value, intent) * 10.0 + PhraseBonus(description.value, intent, 25.0)
    else 0.0
  }

  /** README relevance ×12, plus 8 per detected technology, task or language in it. */
  function ReadmeTerm(readme: Option<string>, intent: IntentKeywords): (r: real)
    ensures r >= 0.0
    ensures !Truthy(readme) ==> r == 0.0
  {
    if Truthy(readme) then
      SemanticRelevance(readme.value, intent) * 12.0
      + (Hits(intent.technologies + intent.tasks + intent.languages, Lower(readme.value)) as real) * 8.0
    else 0.0
  }

  /** Some topic, lower-cased, contains `item`. */
  predicate InSomeTopic(item: string, topics: seq<string>) {
    exists j :: 0 <= j < |topics| && Contains(Lower(topics[j]), item)
  }

  /** How many of `items` occur in some lower-cased topic. */
  function TopicHits(items: seq<string>, topics: seq<string>): (n: nat)
    ensures n <= |items|
    ensures n == |items| <==> forall k :: 0 <= k < |items| ==> InSomeTopic(items[k], topics)
  {
    if items == [] then 0
    else
      var init := items[..|items| - 1];
      assert forall k :: 0 <= k < |init| ==> init[k] == items[k];
      TopicHits(init, topics) + (if InSomeTopic(items[|items| - 1], topics) then 1 else 0)
  }

  lemma TopicHitsSnoc(items: seq<string>, i: nat, topics: seq<string>)
    requires i < |items|
    ensures TopicHits(items[..i + 1], topics)
            == TopicHits(items[..i], topics) + (if InSomeTopic(items[i], topics) then 1 else 0)
  {
    assert items[..i + 1][..i] == items[..i];
  }

  /** Topic relevance ×15, plus 20 per detected technology or task found in the topics. */
  function TopicsTerm(topics: seq<string>, intent: IntentKeywords): (r: real)
    ensures r >= 0.0
    ensures topics == [] ==> r == 0.0
  {
    if topics != [] then
      SemanticRelevance(Join(" ", topics), intent) * 15.0
      + (TopicHits(intent.technologies + intent.tasks, topics) as real) * 20.0
    else 0.0
  }

  /** 15 when the repository's language is one of the detected languages. */
  function LanguageBonus(result: GitHubResult, intent: IntentKeywords): (r: real)
    ensures r == 0.0 || r == 15.0
    ensures r == 15.0 <==> Truthy(result.language) && Lower(result.language.value) in intent.languages
  {
    if Truthy(result.language) && intent.languages != [] && Lower(result.language.value) in intent.languages
    then 15.0 else 0.0
  }

  /** The sum of the content sections: title, description, README, topics, language. */
  function GitHubContent(result: GitHubResult, intent: IntentKeywords): (r: real)
    ensures r >= 0.0
  {
    TitleTerm(result.title, intent)
    + DescriptionTerm(result.description, intent)
    + ReadmeTerm(result.readmePreview, intent)
    + TopicsTerm(result.topics, intent)
    + LanguageBonus(result, intent)
  }

  function GitHubAllContent(result: GitHubResult): string {
    Lower(result.title + " " + OrEmpty(result.description) + " " + OrEmpty(result.readmePreview)
          + " " + Join(" ", result.topics))
  }

  /** The star step: `log10(stars + 1) * 2`, then ×1.5 / 1.4 / 1.3 / 1.2 above 10000 / 5000 / 1000 / 500 stars. */
  function StarStage(s: real, stars: Option<int>, log10: real -> real): (r: real)
    ensures stars.None? || stars.value <= 0 ==> r == s
  {
    if stars.Some? && stars.value > 0 then
      var n := stars.value;
      var b := s + log10((n + 1) as real) * 2.0;
      if n > 10000 then b * 1.5
      else if n > 5000 then b * 1.4
      else if n > 1000 then b * 1.3
      else if n > 500 then b * 1.2
      else b
    else s
  }

  lemma StarStageGrows(s: real, stars: Option<int>, log10: real -> real)
    requires LogLike(log10) && s >= 0.0
    ensures StarStage(s, stars, log10) >= s
  {
    if stars.Some? && stars.value > 0 {
      assert log10((stars.value + 1) as real) >= 0.0;
    }
  }

  /** The status multipliers of `score_github_result`. */
  function StatusMultiplier(status: ProjectStatus): (m: real)
    ensures m > 0.0
  {
    match status
    case Active => 2.0
    case Maintained => 1.5
    case Stale => 0.4
    case Abandoned => 0.1
    case Unknown => 0.7
  }

  /** The status multipliers order the statuses from active down to abandoned. */
  lemma StatusMultiplierOrder()
    ensures StatusMultiplier(Active) > StatusMultiplier(Maintained) > StatusMultiplier(Unknown)
            > StatusMultiplier(Stale) > StatusMultiplier(Abandoned)
  {
  }

  /** `score *= status_multipliers[status]`. */
  function StatusStage(s: real, status: ProjectStatus): (r: real)
    ensures s >= 0.0 ==> r >= 0.0
  {
    match status
    case Active => s * 2.0
    case Maintained => s * 1.5
    case Stale => s * 0.4
    case Abandoned => s * 0.1
    case Unknown => s * 0.7
  }

  /** The status step multiplies by the status's entry in the table. */
  lemma StatusStageScales(s: real, status: ProjectStatus)
    ensures StatusStage(s, status) == s * StatusMultiplier(status)
  {
  }

  /** On a positive score, a status with a larger multiplier gives a strictly larger result. */
  lemma StatusStageOrder(s: real, a: ProjectStatus, b: ProjectStatus)
    requires s > 0.0 && StatusMultiplier(a) > StatusMultiplier(b)
    ensures StatusStage(s, a) > StatusStage(s, b)
  {
  }

  /**
   * The whole days since the last update, when it is present and parses.
   * `parse` stands for `datetime.fromisoformat` after `Z` is rewritten to
   * `+00:00`, giving seconds since the epoch; `now` is the current time in
   * seconds.  `timedelta.days` rounds down, as Dafny's `/` does for a
   * positive divisor.
   */
  function DaysOld(lastUpdated: Option<string>, parse: string -> Option<int>, now: int): (r: Option<int>)
    ensures r.None? <==> !Truthy(lastUpdated) || parse(ReplaceAll(lastUpdated.value, "Z", "+00:00")).None?
  {
    if Truthy(lastUpdated) then
      match parse(ReplaceAll(lastUpdated.value, "Z", "+00:00"))
      case Some(t) => Some((now - t) / 86400)
      case None => None
    else None
  }

  /**
   * The GitHub recency step.  Ages from 365 to 730 days, and a missing or
   * unparseable timestamp, leave the score unchanged; younger repositories
   * gain; everything older than 730 days gets ×0.3, three-year-old ones
   * included, so the ×0.1 branch for ages over 1095 days is never taken.
   */
  function GitHubRecencyStage(s: real, days: Option<int>): (r: real)
    ensures s >= 0.0 ==> r >= 0.0
    ensures days.None? ==> r == s
    ensures days.Some? && 365 <= days.value <= 730 ==> r == s
    ensures days.Some? && days.value > 730 ==> r == s * 0.3
    ensures days.Some? && days.value > 1095 ==> r == s * 0.3
    ensures days.Some? && days.value < 365 && s > 0.0 ==> r > s
  {
    match days
    case None => s
    case Some(d) =>
      if d < 3 then s * 3.0
      else if d < 7 then s * 2.5
      else if d < 14 then s * 2.2
      else if d < 30 then s * 2.0
      else if d < 60 then s * 1.7
      else if d < 90 then s * 1.5
      else if d < 180 then s * 1.3
      else if d < 365 then s * 1.1
      else if d > 730 then s * 0.3
      else if d > 1095 then s * 0.1
      else s
  }

  lemma GitHubRecencyStageStrict(x: real, y: real, days: Option<int>)
    requires x > y
    ensures GitHubRecencyStage(x, days) > GitHubRecencyStage(y, days)
  {
  }

  /** A repository with neither description nor README gets ×0.6. */
  function GitHubBareStage(s: real, result: GitHubResult): (r: real)
    ensures s >= 0.0 ==> r >= 0.0
  {
    if !Truthy(result.description) && !Truthy(result.readmePreview) then s * 0.6 else s
  }

  /** The score before the status step: content, comprehensive-match step, stars. */
  function GitHubPreStatus(result: GitHubResult, intent: IntentKeywords, log10: real -> real): real {
    StarStage(Holistic3Stage(GitHubContent(result, intent), Unique3(intent, GitHubAllContent(result))),
              result.stars, log10)
  }

  /** What `score_github_result` returns, given the age of the last update in days. */
  function GitHubScoreOf(result: GitHubResult, intent: IntentKeywords, days: Option<int>, log10: real -> real): real {
    GitHubTail(GitHubPreStatus(result, intent, log10), result, intent, days)
  }

  /** The steps after the stars: status, recency, the second language bonus, the bare-repository penalty. */
  function GitHubTail(pre: real, result: GitHubResult, intent: IntentKeywords, days: Option<int>): real {
    GitHubBareStage(GitHubRecencyStage(StatusStage(pre, result.status), days) + LanguageBonus(result, intent), result)
  }

  /** The ranking key of a GitHub result for a query with `intent`. */
  function GitHubKey(intent: IntentKeywords, parse: string -> Option<int>, now: int, log10: real -> real)
    : GitHubResult -> real
  {
    (r: GitHubResult) => GitHubScoreOf(r, intent, DaysOld(r.lastUpdated, parse, now), log10)
  }

  /** Scores are never negative: every term added is non-negative and every factor positive. */
  lemma GitHubScoreNonNegative(result: GitHubResult, intent: IntentKeywords, days: Option<int>, log10: real -> real)
    requires LogLike(log10)
    ensures GitHubPreStatus(result, intent, log10) >= 0.0
    ensures GitHubScoreOf(result, intent, days, log10) >= 0.0
  {
    var holistic := Holistic3Stage(GitHubContent(result, intent), Unique3(intent, GitHubAllContent(result)));
    StarStageGrows(holistic, result.stars, log10);
  }

  /**
   * With the same positive score before the status step, a status with a
   * larger multiplier yields a strictly larger final score.
   */
  lemma StatusOrdersScores(result: GitHubResult, intent: IntentKeywords, days: Option<int>, log10: real -> real,
                           a: ProjectStatus, b: ProjectStatus)
    requires GitHubPreStatus(result, intent, log10) > 0.0
    requires StatusMultiplier(a) > StatusMultiplier(b)
    ensures GitHubScoreOf(result.(status := a), intent, days, log10)
            > GitHubScoreOf(result.(status := b), intent, days, log10)
  {
    var ra, rb := result.(status := a), result.(status := b);
    var pre := GitHubPreStatus(result, intent, log10);
    assert GitHubContent(ra, intent) == GitHubContent(result, intent) == GitHubContent(rb, intent);
    assert GitHubAllContent(ra) == GitHubAllContent(result) == GitHubAllContent(rb);
    assert GitHubPreStatus(ra, intent, log10) == pre && GitHubPreStatus(rb, intent, log10) == pre;
    StatusStageOrder(pre, a, b);
    GitHubRecencyStageStrict(StatusStage(pre, a), StatusStage(pre, b), days);
  }

  /** The topic loop: 20 for every detected technology or task found in some topic. */
  method TopicsScore(topics: seq<string>, intent: IntentKeywords) returns (score: real)
    ensures score == TopicsTerm(topics, intent)
  {
    score := 0.0;
    if topics != [] {
      var topicsText := Join(" ", topics);
      var relevance := CalculateSemanticRelevance(topicsText, intent);
      score := relevance * 15.0;
      score := AddPerTopicHit(score, intent.technologies + intent.tasks, topics);
    }
  }

  /** The topic bonus loop: 20 added to `score0` for every item found in some topic. */
  method AddPerTopicHit(score0: real, items: seq<string>, topics: seq<string>) returns (score: real)
    ensures score == score0 + (TopicHits(items, topics) as real) * 20.0
  {
    score := score0;
    ghost var hits := 0;
    for i := 0 to |items|
      invariant hits == TopicHits(items[..i], topics)
      invariant score == score0 + (hits as real) * 20.0
    {
      TopicHitsSnoc(items, i, topics);
      if InSomeTopic(items[i], topics) {
        score := score + 20.0;
        hits := hits + 1;
      }
    }
    assert items[..|items|] == items;
  }

  method ApplyStars(score: real, stars: Option<int>, log10: real -> real) returns (r: real)
    ensures r == StarStage(score, stars, log10)
  {
    r := score;
    if stars.Some? && stars.value > 0 {
      var n := stars.value;
      r := r + log10((n + 1) as real) * 2.0;
      if n > 10000 {
        r := r * 1.5;
      } else if n > 5000 {
        r := r * 1.4;
      } else if n > 1000 {
        r := r * 1.3;
      } else if n > 500 {
        r := r * 1.2;
      }
    }
  }

  method ApplyGitHubRecency(score: real, days: Option<int>) returns (r: real)
    ensures r == GitHubRecencyStage(score, days)
  {
    r := score;
    if days.Some? {
      var d := days.value;
      if d < 3 {
        r := r * 3.0;
      } else if d < 7 {
        r := r * 2.5;
      } else if d < 14 {
        r := r * 2.2;
      } else if d < 30 {
        r := r * 2.0;
      } else if d < 60 {
        r := r * 1.7;
      } else if d < 90 {
        r := r * 1.5;
      } else if d < 180 {
        r := r * 1.3;
      } else if d < 365 {
        r := r * 1.1;
      } else if d > 730 {
        r := r * 0.3;
      } else if d > 1095 {
        r := r * 0.1;
      }
    }
  }

  method ApplyStatus(score: real, status: ProjectStatus) returns (r: real)
    ensures r == StatusStage(score, status)
  {
    match status {
      case Active => r := score * 2.0;
      case Maintained => r := score * 1.5;
      case Stale => r := score * 0.4;
      case Abandoned => r := score * 0.1;
      case Unknown => r := score * 0.7;
    }
  }

  method ApplyGitHubTail(pre: real, result: GitHubResult, intent: IntentKeywords, days: Option<int>)
    returns (score: real)
    ensures score == GitHubTail(pre, result, intent, days)
  {
    score := ApplyStatus(pre, result.status);
    score := ApplyGitHubRecency(score, days);
    ghost var recent := score;
    if Truthy(result.language) && intent.languages != [] {
      var langLower := Lower(result.language.value);
      if langLower in intent.languages {
        score := score + 15.0;
      }
    }
    assert score == recent + LanguageBonus(result, intent);
    if !Truthy(result.description) && !Truthy(result.readmePreview) {
      score := score * 0.6;
    }
  }

  /** The description section of `score_github_result`. */
  method DescriptionScore(description: Option<string>, intent: IntentKeywords) returns (score: real)
    ensures score == DescriptionTerm(description, intent)
  {
    score := 0.0;
    if Truthy(description) {
      var d := description.value;
      var relevance := CalculateSemanticRelevance(d, intent);
      score := score + relevance * 10.0;
      var bonus := PhraseBonusScore(d, intent, 25.0);
      score := score + bonus;
    }
  }

  /** The README section of `score_github_result`. */
  method ReadmeScore(readmePreview: Option<string>, intent: IntentKeywords) returns (score: real)
    ensures score == ReadmeTerm(readmePreview, intent)
  {
    score := 0.0;
    if Truthy(readmePreview) {
      var readme := readmePreview.value;
      var relevance := CalculateSemanticRelevance(readme, intent);
      score := score + relevance * 12.0;
      var implementationKeywords := intent.technologies + intent.tasks + intent.languages;
      var implMatches := CountHits(implementationKeywords, Lower(readme));
      score := score + (implMatches as real) * 8.0;
    }
  }

  /** `score_github_result`; `keywords` is accepted and not used, as in the source. */
  method ScoreGitHubResult(result: GitHubResult, query: string, keywords: seq<string>,
                           parse: string -> Option<int>, now: int, log10: real -> real)
    returns (score: real)
    ensures score == GitHubKey(IntentKeywordsOf(query), parse, now, log10)(result)
  {
    score := 0.0;
    var intent := ExtractIntentKeywords(query);
    var title := TitleScore(result.title, intent);
    score := score + title;
    var description := DescriptionScore(result.description, intent);
    score := score + description;
    var readme := ReadmeScore(result.readmePreview, intent);
    score := score + readme;
    var topics := TopicsScore(result.topics, intent);
    score := score + topics;
    if Truthy(result.language) && intent.languages != [] {
      if Lower(result.language.value) in intent.languages {
        score := score + 15.0;
      }
    }
    assert score == GitHubContent(result, intent);
    score := ApplyHolistic3(score, intent, GitHubAllContent(result));
    score := ApplyStars(score, result.stars, log10);
    assert score == GitHubPreStatus(result, intent, log10);
    score := ApplyGitHubTail(score, result, intent, DaysOld(result.lastUpdated, parse, now));
  }

  // ---------------------------------------------------------------------
  // score_huggingface_result
  // ---------------------------------------------------------------------

  /** Description relevance ×12, plus 25 for two matching phrases. */
  function ModelDescriptionTerm(description: Option<string>, intent: IntentKeywords): (r: real)
    ensures r >= 0.0
    ensures !Truthy(description) ==> r == 0.0
  {
    if Truthy(description) then
      SemanticRelevance(description.value, intent) * 12.0 + PhraseBonus(description.value, intent, 25.0)
    else 0.0
  }

  /** Pipeline-tag relevance (dashes read as spaces) ×20, plus 30 per detected task in the tag. */
  function PipelineTerm(tag: Option<string>, intent: IntentKeywords): (r: real)
    ensures r >= 0.0
    ensures !Truthy(tag) ==> r == 0.0
  {
    if Truthy(tag) then
      SemanticRelevance(ReplaceAll(tag.value, "-", " "), intent) * 20.0
      + (Hits(intent.tasks, Lower(tag.value)) as real) * 30.0
    else 0.0
  }

  function HuggingFaceContent(result: HuggingFaceResult, intent: IntentKeywords): (r: real)
    ensures r >= 0.0
  {
    TitleTerm(result.title, intent)
    + ModelDescriptionTerm(result.description, intent)
    + PipelineTerm(result.pipelineTag, intent)
  }

  function HuggingFaceAllContent(result: HuggingFaceResult): string {
    Lower(result.title + " " + OrEmpty(result.description) + " " + OrEmpty(result.pipelineTag))
  }

  /** ×1.8 when both the detected tasks and the detected technologies are mentioned. */
  function Holistic2Stage(s: real, intent: IntentKeywords, all: string): (r: real)
    ensures Mentions(intent.tasks, all) && Mentions(intent.technologies, all) ==> r == s * 1.8
    ensures !(Mentions(intent.tasks, all) && Mentions(intent.technologies, all)) ==> r == s
  {
    var unique :=
      (if intent.tasks != [] && Mentions(intent.tasks, all) then 1 else 0)
      + (if intent.technologies != [] && Mentions(intent.technologies, all) then 1 else 0);
    if unique >= 2 then s * 1.8 else s
  }

  /** The download step: `log10(downloads + 1) * 1.5`, then ×1.6 / 1.5 / 1.3 / 1.2 above 1e6 / 1e5 / 1e4 / 1e3. */
  function DownloadStage(s: real, downloads: Option<int>, log10: real -> real): (r: real)
    ensures downloads.None? || downloads.value <= 0 ==> r == s
  {
    if downloads.Some? && downloads.value > 0 then
      var n := downloads.value;
      var b := s + log10((n + 1) as real) * 1.5;
      if n > 1000000 then b * 1.6
      else if n > 100000 then b * 1.5
      else if n > 10000 then b * 1.3
      else if n > 1000 then b * 1.2
      else b
    else s
  }

  /** The like step: `log10(likes + 1)`, then ×1.3 / 1.2 above 500 / 100 likes. */
  function LikeStage(s: real, likes: Option<int>, log10: real -> real): (r: real)
    ensures likes.None? || likes.value <= 0 ==> r == s
  {
    if likes.Some? && likes.value > 0 then
      var n := likes.value;
      var b := s + log10((n + 1) as real) * 1.0;
      if n > 500 then b * 1.3 else if n > 100 then b * 1.2 else b
    else s
  }

  lemma DownloadStageGrows(s: real, downloads: Option<int>, log10: real -> real)
    requires LogLike(log10) && s >= 0.0
    ensures DownloadStage(s, downloads, log10) >= s
  {
    if downloads.Some? && downloads.value > 0 {
      assert log10((downloads.value + 1) as real) >= 0.0;
    }
  }

  lemma LikeStageGrows(s: real, likes: Option<int>, log10: real -> real)
    requires LogLike(log10) && s >= 0.0
    ensures LikeStage(s, likes, log10) >= s
  {
    if likes.Some? && likes.value > 0 {
      assert log10((likes.value + 1) as real) >= 0.0;
    }
  }

  /** ×1.5 with a Space demo. */
  function SpacesStage(s: real, result: HuggingFaceResult): real {
    if Truthy(result.spacesUrl) then s * 1.5 else s
  }

  /** ×0.7 without a description. */
  function NoDescriptionStage(s: real, result: HuggingFaceResult): real {
    if !Truthy(result.description) then s * 0.7 else s
  }

  /** The score before the Space and description steps. */
  function HuggingFacePopular(result: HuggingFaceResult, intent: IntentKeywords, log10: real -> real): real {
    var content := Holistic2Stage(HuggingFaceContent(result, intent), intent, HuggingFaceAllContent(result));
    LikeStage(DownloadStage(content, result.downloads, log10), result.likes, log10)
  }

  /** What `score_huggingface_result` returns. */
  function HuggingFaceScoreOf(result: HuggingFaceResult, intent: IntentKeywords, log10: real -> real): real {
    HuggingFaceTail(HuggingFacePopular(result, intent, log10), result)
  }

  /** The Space and description steps. */
  function HuggingFaceTail(pre: real, result: HuggingFaceResult): real {
    NoDescriptionStage(SpacesStage(pre, result), result)
  }

  function HuggingFaceKey(intent: IntentKeywords, log10: real -> real): HuggingFaceResult -> real {
    (r: HuggingFaceResult) => HuggingFaceScoreOf(r, intent, log10)
  }

  lemma HuggingFaceScoreNonNegative(result: HuggingFaceResult, intent: IntentKeywords, log10: real -> real)
    requires LogLike(log10)
    ensures HuggingFaceScoreOf(result, intent, log10) >= 0.0
  {
    var content := Holistic2Stage(HuggingFaceContent(result, intent), intent, HuggingFaceAllContent(result));
    DownloadStageGrows(content, result.downloads, log10);
    var downloaded := DownloadStage(content, result.downloads, log10);
    LikeStageGrows(downloaded, result.likes, log10);
  }

  /** Adding a Space demo to a result without one multiplies its score by exactly 1.5. */
  lemma SpacesBoost(result: HuggingFaceResult, intent: IntentKeywords, log10: real -> real, url: string)
    requires !Truthy(result.spacesUrl) && url != ""
    ensures HuggingFaceScoreOf(result.(spacesUrl := Some(url)), intent, log10)
            == 1.5 * HuggingFaceScoreOf(result, intent, log10)
  {
    var withSpace := result.(spacesUrl := Some(url));
    assert HuggingFaceContent(withSpace, intent) == HuggingFaceContent(result, intent);
    assert HuggingFaceAllContent(withSpace) == HuggingFaceAllContent(result);
    assert HuggingFacePopular(withSpace, intent, log10) == HuggingFacePopular(result, intent, log10);
  }

  /** The pipeline-tag section, with its loop over the detected tasks. */
  method PipelineScore(tag: Option<string>, intent: IntentKeywords) returns (score: real)
    ensures score == PipelineTerm(tag, intent)
  {
    score := 0.0;
    if Truthy(tag) {
      var t := tag.value;
      var relevance := CalculateSemanticRelevance(ReplaceAll(t, "-", " "), intent);
      score := relevance * 20.0;
      score := AddTaskBonus(score, intent.tasks, Lower(t));
    }
  }

  /** The task bonus loop: 30 added to `score0` for every task that occurs in `t`. */
  method AddTaskBonus(score0: real, list: seq<string>, t: string) returns (score: real)
    ensures score == score0 + (Hits(list, t) as real) * 30.0
  {
    score := score0;
    ghost var hits := 0;
    for i := 0 to |list|
      invariant hits == Hits(list[..i], t)
      invariant score == score0 + (hits as real) * 30.0
    {
      HitsSnoc(list, i, t);
      if Contains(t, list[i]) {
        score := score + 30.0;
        hits := hits + 1;
      }
    }
    assert list[..|list|] == list;
  }

  method ApplyDownloads(score: real, downloads: Option<int>, log10: real -> real) returns (r: real)
    ensures r == DownloadStage(score, downloads, log10)
  {
    r := score;
    if downloads.Some? && downloads.value > 0 {
      var n := downloads.value;
      r := r + log10((n + 1) as real) * 1.5;
      if n > 1000000 {
        r := r * 1.6;
      } else if n > 100000 {
        r := r * 1.5;
      } else if n > 10000 {
        r := r * 1.3;
      } else if n > 1000 {
        r := r * 1.2;
      }
    }
  }

  method ApplyLikes(score: real, likes: Option<int>, log10: real -> real) returns (r: real)
    ensures r == LikeStage(score, likes, log10)
  {
    r := score;
    if likes.Some? && likes.value > 0 {
      var n := likes.value;
      r := r + log10((n + 1) as real) * 1.0;
      if n > 500 {
        r := r * 1.3;
      } else if n > 100 {
        r := r * 1.2;
      }
    }
  }

  /** The unique-match step of `score_huggingface_result`, over tasks and technologies. */
  method ApplyHolistic2(score: real, intent: IntentKeywords, allContentLower: string) returns (r: real)
    ensures r == Holistic2Stage(score, intent, allContentLower)
  {
    var uniqueMatches := 0;
    if intent.tasks != [] {
      uniqueMatches := uniqueMatches + (if Mentions(intent.tasks, allContentLower) then 1 else 0);
    }
    if intent.technologies != [] {
      uniqueMatches := uniqueMatches + (if Mentions(intent.technologies, allContentLower) then 1 else 0);
    }
    r := score;
    if uniqueMatches >= 2 {
      r := r * 1.8;
    }
  }

  method ApplyHuggingFaceTail(pre: real, result: HuggingFaceResult) returns (score: real)
    ensures score == HuggingFaceTail(pre, result)
  {
    score := pre;
    if Truthy(result.spacesUrl) {
      score := score * 1.5;
    }
    if !Truthy(result.description) {
      score := score * 0.7;
    }
  }

  /** The description section of `score_huggingface_result`. */
  method ModelDescriptionScore(description: Option<string>, intent: IntentKeywords) returns (score: real)
    ensures score == ModelDescriptionTerm(description, intent)
  {
    score := 0.0;
    if Truthy(description) {
      var d := description.value;
      var relevance := CalculateSemanticRelevance(d, intent);
      score := score + relevance * 12.0;
      var bonus := PhraseBonusScore(d, intent, 25.0);
      score := score + bonus;
    }
  }

  /** `score_huggingface_result`; `keywords` is accepted and not used. */
  method ScoreHuggingFaceResult(result: HuggingFaceResult, query: string, keywords: seq<string>, log10: real -> real)
    returns (score: real)
    ensures score == HuggingFaceKey(IntentKeywordsOf(query), log10)(result)
  {
    score := 0.0;
    var intent := ExtractIntentKeywords(query);
    var title := TitleScore(result.title, intent);
    score := score + title;
    var description := ModelDescriptionScore(result.description, intent);
    score := score + description;
    var pipeline := PipelineScore(result.pipelineTag, intent);
    score := score + pipeline;
    assert score == HuggingFaceContent(result, intent);

    score := ApplyHolistic2(score, intent, HuggingFaceAllContent(result));
    score := ApplyDownloads(score, result.downloads, log10);
    score := ApplyLikes(score, result.likes, log10);
    assert score == HuggingFacePopular(result, intent, log10);
    score := ApplyHuggingFaceTail(score, result);
  }

  // ---------------------------------------------------------------------
  // score_reddit_result
  // ---------------------------------------------------------------------

  /** Post text relevance ×10, plus 20 for two matching phrases. */
  function SelftextTerm(selftext: Option<string>, intent: IntentKeywords): (r: real)
    ensures r >= 0.0
    ensures !Truthy(selftext) ==> r == 0.0
  {
    if Truthy(selftext) then
      SemanticRelevance(selftext.value, intent) * 10.0 + PhraseBonus(selftext.value, intent, 20.0)
    else 0.0
  }

  /** The bodies of the first five comments, joined by spaces. */
  function CommentsText(result: RedditResult): string {
    var top := Take(result.topComments, 5);
    Join(" ", seq(|top|, i requires 0 <= i < |top| => top[i].body))
  }

  /** Comment relevance ×12, plus 8 per detected technology or task mentioned in the comments. */
  function CommentsTerm(result: RedditResult, intent: IntentKeywords): (r: real)
    ensures r >= 0.0
    ensures result.topComments == [] ==> r == 0.0
  {
    if result.topComments != [] then
      SemanticRelevance(CommentsText(result), intent) * 12.0
      + (Hits(intent.technologies + intent.tasks, Lower(CommentsText(result))) as real) * 8.0
    else 0.0
  }

  function RedditContent(result: RedditResult, intent: IntentKeywords): (r: real)
    ensures r >= 0.0
  {
    TitleTerm(result.title, intent) + SelftextTerm(result.selftext, intent) + CommentsTerm(result, intent)
  }

  function RedditAllContent(result: RedditResult): string {
    Lower(result.title + " " + OrEmpty(result.selftext) + " "
          + (if result.topComments != [] then CommentsText(result) else ""))
  }

  /** The upvote step: `log10(score + 1) * 1.5`, then ×1.6 / 1.5 / 1.3 / 1.2 above 1000 / 500 / 100 / 50. */
  function VoteStage(s: real, votes: int, log10: real -> real): (r: real)
    ensures votes <= 0 ==> r == s
  {
    if votes > 0 then
      var b := s + log10((votes + 1) as real) * 1.5;
      if votes > 1000 then b * 1.6
      else if votes > 500 then b * 1.5
      else if votes > 100 then b * 1.3
      else if votes > 50 then b * 1.2
      else b
    else s
  }

  /** The comment-count step: `log10(n + 1)`, then ×1.3 / 1.2 above 100 / 50 comments. */
  function CommentCountStage(s: real, n: int, log10: real -> real): (r: real)
    ensures n <= 0 ==> r == s
  {
    if n > 0 then
      var b := s + log10((n + 1) as real) * 1.0;
      if n > 100 then b * 1.3 else if n > 50 then b * 1.2 else b
    else s
  }

  lemma VoteStageGrows(s: real, votes: int, log10: real -> real)
    requires LogLike(log10) && s >= 0.0
    ensures VoteStage(s, votes, log10) >= s
  {
    if votes > 0 {
      assert log10((votes + 1) as real) >= 0.0;
    }
  }

  lemma CommentCountStageGrows(s: real, n: int, log10: real -> real)
    requires LogLike(log10) && s >= 0.0
    ensures CommentCountStage(s, n, log10) >= s
  {
    if n > 0 {
      assert log10((n + 1) as real) >= 0.0;
    }
  }

  /**
   * The age of a post in days (a fraction), when `created_utc` is truthy;
   * `now` is the current time in seconds since the epoch.
   */
  function AgeDays(createdUtc: Option<real>, now: real): (r: Option<real>)
    ensures r.None? <==> createdUtc.None? || createdUtc.value == 0.0
  {
    if createdUtc.Some? && createdUtc.value != 0.0 then Some((now - createdUtc.value) / 86400.0) else None
  }

  /**
   * The Reddit recency step.  Ages from 365 to 730 days, and a missing
   * timestamp, leave the score unchanged; younger posts gain; everything
   * older than 730 days gets ×0.2, three-year-old posts included, so the
   * ×0.05 branch for ages over 1095 days is never taken.
   */
  function RedditRecencyStage(s: real, age: Option<real>): (r: real)
    ensures s >= 0.0 ==> r >= 0.0
    ensures age.None? ==> r == s
    ensures age.Some? && 365.0 <= age.value <= 730.0 ==> r == s
    ensures age.Some? && age.value > 730.0 ==> r == s * 0.2
    ensures age.Some? && age.value > 1095.0 ==> r == s * 0.2
    ensures age.Some? && age.value < 365.0 && s > 0.0 ==> r > s
  {
    match age
    case None => s
    case Some(a) =>
      if a < 1.0 then s * 4.0
      else if a < 3.0 then s * 3.5
      else if a < 7.0 then s * 3.0
      else if a < 14.0 then s * 2.5
      else if a < 30.0 then s * 2.2
      else if a < 60.0 then s * 1.9
      else if a < 90.0 then s * 1.7
      else if a < 180.0 then s * 1.4
      else if a < 365.0 then s * 1.2
      else if a > 730.0 then s * 0.2
      else if a > 1095.0 then s * 0.05
      else s
  }

  /** `×0.4` for a thread with a warning. */
  function WarningStage(s: real, hasWarning: bool): real {
    if hasWarning then s * 0.4 else s
  }

  /** The technology subreddits and their multipliers, in the dictionary's order. */
  const TechSubs: seq<(string, real)> := [
    ("programming", 1.5), ("machinelearning", 1.5), ("deeplearning", 1.5),
    ("learnprogramming", 1.4), ("artificial", 1.4), ("python", 1.4),
    ("javascript", 1.4), ("webdev", 1.4), ("gamedev", 1.4),
    ("datascience", 1.5), ("computervision", 1.5), ("nlp", 1.5),
    ("opensource", 1.4), ("coding", 1.3), ("technology", 1.2),
    ("softwaredevelopment", 1.4), ("rust", 1.4), ("golang", 1.4),
    ("cpp", 1.4), ("java", 1.4), ("typescript", 1.4)]

  /** The multiplier of the first listed name that occurs in `s`, if any. */
  function FirstSubMatch(subs: seq<(string, real)>, s: string): (m: Option<real>)
    ensures m.None? <==> forall k :: 0 <= k < |subs| ==> !Contains(s, subs[k].0)
    ensures m.Some? ==> exists k :: 0 <= k < |subs| && Contains(s, subs[k].0) && m.value == subs[k].1
                                    && forall j :: 0 <= j < k ==> !Contains(s, subs[j].0)
  {
    if subs == [] then None
    else if Contains(s, subs[0].0) then Some(subs[0].1)
    else
      var m := FirstSubMatch(subs[1..], s);
      assert forall k :: 0 <= k < |subs[1..]| ==> subs[1..][k] == subs[k + 1];
      m
  }

  /** The subreddit loop as a function: the first listed name found in `s` multiplies `x`; the rest are skipped. */
  function SubStage(x: real, subs: seq<(string, real)>, s: string): real {
    if subs == [] then x
    else if Contains(s, subs[0].0) then x * subs[0].1
    else SubStage(x, subs[1..], s)
  }

  /** At most one multiplier applies: the loop multiplies by the first match's entry, or by nothing. */
  lemma {:induction false} SubStageIsFirstMatch(x: real, subs: seq<(string, real)>, s: string)
    ensures SubStage(x, subs, s) == x * FirstSubMatch(subs, s).GetOr(1.0)
  {
    if subs != [] && !Contains(s, subs[0].0) {
      SubStageIsFirstMatch(x, subs[1..], s);
    }
  }

  lemma {:induction false} SubStageScales(c: real, x: real, subs: seq<(string, real)>, s: string)
    ensures SubStage(c * x, subs, s) == c * SubStage(x, subs, s)
  {
    if subs != [] && !Contains(s, subs[0].0) {
      SubStageScales(c, x, subs[1..], s);
    }
  }

  /** Every listed subreddit multiplier is at least 1.2. */
  lemma TechSubsBoost()
    ensures forall k :: 0 <= k < |TechSubs| ==> TechSubs[k].1 >= 1.2
  {
    forall k | 0 <= k < |TechSubs| ensures TechSubs[k].1 >= 1.2 {
      assert k < 7 || 7 <= k < 14 || 14 <= k;
    }
  }

  /** The factor the subreddit step applies: at least 1, and 1 when no listed name matches. */
  function SubredditMultiplier(subreddit: string): (m: real)
    ensures m >= 1.0
    ensures FirstSubMatch(TechSubs, Lower(subreddit)).None? ==> m == 1.0
  {
    TechSubsBoost();
    FirstSubMatch(TechSubs, Lower(subreddit)).GetOr(1.0)
  }

  /** 'learnprogramming' gets the 1.5 of 'programming', listed first, not its own 1.4. */
  lemma LearnProgrammingMultiplier()
    ensures SubredditMultiplier("learnprogramming") == 1.5
  {
    assert Lower("learnprogramming") == "learnprogramming";
    assert OccursAt("learnprogramming", "programming", 5);
    assert TechSubs[0] == ("programming", 1.5);
  }

  /** A post with neither text nor comments gets ×0.6. */
  function RedditBareStage(s: real, result: RedditResult): real {
    if !Truthy(result.selftext) && |result.topComments| == 0 then s * 0.6 else s
  }

  /** The score up to the recency step: content, comprehensive-match step, votes, comment count. */
  function RedditPopular(result: RedditResult, intent: IntentKeywords, log10: real -> real): real {
    var content := Holistic3Stage(RedditContent(result, intent), Unique3(intent, RedditAllContent(result)));
    CommentCountStage(VoteStage(content, result.score, log10), result.numComments, log10)
  }

  /** What `score_reddit_result` returns, given the post's age in days. */
  function RedditScoreOf(result: RedditResult, intent: IntentKeywords, age: Option<real>, log10: real -> real): real {
    RedditTail(RedditPopular(result, intent, log10), result, age)
  }

  /** The steps after the comment count: recency, warning, subreddit, the no-content penalty. */
  function RedditTail(pre: real, result: RedditResult, age: Option<real>): real {
    var warned := WarningStage(RedditRecencyStage(pre, age), result.hasWarning);
    RedditBareStage(SubStage(warned, TechSubs, Lower(result.subreddit)), result)
  }

  function RedditKey(intent: IntentKeywords, now: real, log10: real -> real): RedditResult -> real {
    (r: RedditResult) => RedditScoreOf(r, intent, AgeDays(r.createdUtc, now), log10)
  }

  lemma RedditPopularNonNegative(result: RedditResult, intent: IntentKeywords, log10: real -> real)
    requires LogLike(log10)
    ensures RedditPopular(result, intent, log10) >= 0.0
  {
    var content := Holistic3Stage(RedditContent(result, intent), Unique3(intent, RedditAllContent(result)));
    VoteStageGrows(content, result.score, log10);
    CommentCountStageGrows(VoteStage(content, result.score, log10), result.numComments, log10);
  }

  lemma RedditTailNonNegative(pre: real, result: RedditResult, age: Option<real>)
    requires pre >= 0.0
    ensures RedditTail(pre, result, age) >= 0.0
  {
    TechSubsBoost();
    SubStageNonNegative(WarningStage(RedditRecencyStage(pre, age), result.hasWarning), TechSubs, Lower(result.subreddit));
  }

  /** Scores are never negative. */
  lemma RedditScoreNonNegative(result: RedditResult, intent: IntentKeywords, age: Option<real>, log10: real -> real)
    requires LogLike(log10)
    ensures RedditScoreOf(result, intent, age, log10) >= 0.0
  {
    RedditPopularNonNegative(result, intent, log10);
    RedditTailNonNegative(RedditPopular(result, intent, log10), result, age);
  }

  lemma {:induction false} SubStageNonNegative(x: real, subs: seq<(string, real)>, s: string)
    requires x >= 0.0 && forall k :: 0 <= k < |subs| ==> subs[k].1 >= 0.0
    ensures SubStage(x, subs, s) >= 0.0
  {
    if subs != [] {
      if Contains(s, subs[0].0) {
        MulNonNeg(x, subs[0].1);
      } else {
        assert forall k :: 0 <= k < |subs[1..]| ==> subs[1..][k] == subs[k + 1];
        SubStageNonNegative(x, subs[1..], s);
      }
    }
  }

  lemma MulNonNeg(a: real, b: real)
    requires a >= 0.0 && b >= 0.0
    ensures a * b >= 0.0
  {
  }

  /** The warning flag plays no part before the warning step. */
  lemma RedditPopularIgnoresWarning(result: RedditResult, intent: IntentKeywords, log10: real -> real, w: bool)
    ensures RedditPopular(result.(hasWarning := w), intent, log10) == RedditPopular(result, intent, log10)
  {
    var other := result.(hasWarning := w);
    assert other.title == result.title && other.selftext == result.selftext;
    assert CommentsText(other) == CommentsText(result);
    assert RedditContent(other, intent) == RedditContent(result, intent);
    assert RedditAllContent(other) == RedditAllContent(result);
  }

  lemma WarningTail(pre: real, result: RedditResult, age: Option<real>)
    ensures RedditTail(pre, result.(hasWarning := true), age) == 0.4 * RedditTail(pre, result.(hasWarning := false), age)
  {
    SubStageScales(0.4, RedditRecencyStage(pre, age), TechSubs, Lower(result.subreddit));
  }

  /** A warning multiplies the final score by exactly 0.4. */
  lemma WarningPenalty(result: RedditResult, intent: IntentKeywords, age: Option<real>, log10: real -> real)
    ensures RedditScoreOf(result.(hasWarning := true), intent, age, log10)
            == 0.4 * RedditScoreOf(result.(hasWarning := false), intent, age, log10)
  {
    RedditPopularIgnoresWarning(result, intent, log10, true);
    RedditPopularIgnoresWarning(result, intent, log10, false);
    WarningTail(RedditPopular(result, intent, log10), result, age);
  }

  /** The comment section: relevance ×12 and the loop counting mentioned technologies and tasks. */
  method CommentsScore(result: RedditResult, intent: IntentKeywords) returns (score: real, commentsText: string)
    ensures score == CommentsTerm(result, intent)
    ensures result.topComments != [] ==> commentsText == CommentsText(result)
  {
    score := 0.0;
    commentsText := "";
    if result.topComments != [] {
      commentsText := CommentsText(result);
      var relevance := CalculateSemanticRelevance(commentsText, intent);
      score := relevance * 12.0;
      var solutionMentions := CountHits(intent.technologies + intent.tasks, Lower(commentsText));
      score := score + (solutionMentions as real) * 8.0;
    }
  }

  method ApplyVotes(score: real, votes: int, log10: real -> real) returns (r: real)
    ensures r == VoteStage(score, votes, log10)
  {
    r := score;
    if votes > 0 {
      r := r + log10((votes + 1) as real) * 1.5;
      if votes > 1000 {
        r := r * 1.6;
      } else if votes > 500 {
        r := r * 1.5;
      } else if votes > 100 {
        r := r * 1.3;
      } else if votes > 50 {
        r := r * 1.2;
      }
    }
  }

  method ApplyCommentCount(score: real, n: int, log10: real -> real) returns (r: real)
    ensures r == CommentCountStage(score, n, log10)
  {
    r := score;
    if n > 0 {
      r := r + log10((n + 1) as real) * 1.0;
      if n > 100 {
        r := r * 1.3;
      } else if n > 50 {
        r := r * 1.2;
      }
    }
  }

  method ApplyRedditRecency(score: real, age: Option<real>) returns (r: real)
    ensures r == RedditRecencyStage(score, age)
  {
    r := score;
    if age.Some? {
      var a := age.value;
      if a < 1.0 {
        r := r * 4.0;
      } else if a < 3.0 {
        r := r * 3.5;
      } else if a < 7.0 {
        r := r * 3.0;
      } else if a < 14.0 {
        r := r * 2.5;
      } else if a < 30.0 {
        r := r * 2.2;
      } else if a < 60.0 {
        r := r * 1.9;
      } else if a < 90.0 {
        r := r * 1.7;
      } else if a < 180.0 {
        r := r * 1.4;
      } else if a < 365.0 {
        r := r * 1.2;
      } else if a > 730.0 {
        r := r * 0.2;
      } else if a > 1095.0 {
        r := r * 0.05;
      }
    }
  }

  /** The subreddit loop: the first listed name found in `s` multiplies `score`, then the loop stops. */
  method ApplySubreddit(score: real, subs: seq<(string, real)>, s: string) returns (r: real)
    ensures r == SubStage(score, subs, s)
  {
    r := score;
    var i := 0;
    while i < |subs|
      invariant 0 <= i <= |subs|
      invariant SubStage(score, subs[i..], s) == SubStage(score, subs, s)
      invariant r == score
    {
      var (sub, multiplier) := subs[i];
      if Contains(s, sub) {
        r := r * multiplier;
        break;
      }
      assert subs[i..][1..] == subs[i + 1..];
      i := i + 1;
    }
  }

  method ApplyRedditTail(pre: real, result: RedditResult, age: Option<real>) returns (score: real)
    ensures score == RedditTail(pre, result, age)
  {
    score := ApplyRedditRecency(pre, age);
    if result.hasWarning {
      score := score * 0.4;
    }
    score := ApplySubreddit(score, TechSubs, Lower(result.subreddit));
    if !Truthy(result.selftext) && |result.topComments| == 0 {
      score := score * 0.6;
    }
  }

  /** The post-text section of `score_reddit_result`. */
  method SelftextScore(selftext: Option<string>, intent: IntentKeywords) returns (score: real)
    ensures score == SelftextTerm(selftext, intent)
  {
    score := 0.0;
    if Truthy(selftext) {
      var text := selftext.value;
      var relevance := CalculateSemanticRelevance(text, intent);
      score := score + relevance * 10.0;
      var bonus := PhraseBonusScore(text, intent, 20.0);
      score := score + bonus;
    }
  }

  /** `score_reddit_result`; `keywords` is accepted and not used. */
  method ScoreRedditResult(result: RedditResult, query: string, keywords: seq<string>, now: real, log10: real -> real)
    returns (score: real)
    ensures score == RedditKey(IntentKeywordsOf(query), now, log10)(result)
  {
    score := 0.0;
    var intent := ExtractIntentKeywords(query);
    var title := TitleScore(result.title, intent);
    score := score + title;
    var selftext := SelftextScore(result.selftext, intent);
    score := score + selftext;
    var comments, commentsText := CommentsScore(result, intent);
    score := score + comments;
    assert score == RedditContent(result, intent);

    var allContentLower := Lower(result.title + " " + OrEmpty(result.selftext) + " "
                                 + (if result.topComments != [] then commentsText else ""));
    assert allContentLower == RedditAllContent(result);
    score := ApplyHolistic3(score, intent, allContentLower);
    score := ApplyVotes(score, result.score, log10);
    score := ApplyCommentCount(score, result.numComments, log10);
    assert score == RedditPopular(result, intent, log10);
    score := ApplyRedditTail(score, result, AgeDays(result.createdUtc, now));
  }

  // ---------------------------------------------------------------------
  // rank_github_results / rank_huggingface_results / rank_reddit_results
  // ---------------------------------------------------------------------

  /** The loop of `rank_github_results`: every result paired with its score. */
  method ScoreGitHubResults(results: seq<GitHubResult>, query: string, keywords: seq<string>,
                            parse: string -> Option<int>, now: int, log10: real -> real)
    returns (scoredResults: seq<(real, GitHubResult)>)
    ensures scoredResults == Keyed(results, GitHubKey(IntentKeywordsOf(query), parse, now, log10))
  {
    ghost var key := GitHubKey(IntentKeywordsOf(query), parse, now, log10);
    scoredResults := [];
    for i := 0 to |results|
      invariant scoredResults == Keyed(results[..i], key)
    {
      var score := ScoreGitHubResult(results[i], query, keywords, parse, now, log10);
      KeyedSnoc(results, i, key, scoredResults, score);
      scoredResults := scoredResults + [(score, results[i])];
    }
    assert results[..|results|] == results;
  }

  /**
   * `rank_github_results`: the results sorted by descending score.  The
   * result is a permutation of the input, ordered by non-increasing score,
   * and results with equal scores keep their input order.
   */
  method RankGitHubResults(results: seq<GitHubResult>, query: string,
                           parse: string -> Option<int>, now: int, log10: real -> real)
    returns (ranked: seq<GitHubResult>)
    ensures ranked == SortDesc(results, GitHubKey(IntentKeywordsOf(query), parse, now, log10))
    ensures multiset(ranked) == multiset(results)
    ensures SortedDesc(ranked, GitHubKey(IntentKeywordsOf(query), parse, now, log10))
    ensures forall k :: WithKey(ranked, GitHubKey(IntentKeywordsOf(query), parse, now, log10), k)
                        == WithKey(results, GitHubKey(IntentKeywordsOf(query), parse, now, log10), k)
  {
    ghost var key := GitHubKey(IntentKeywordsOf(query), parse, now, log10);
    RankedProperties(results, key);
    if results == [] {
      return results;
    }
    var keywords := ExtractKeywords(query);
    var scoredResults := ScoreGitHubResults(results, query, keywords, parse, now, log10);
    ranked := Seconds(SortDesc(scoredResults, PairKey));
  }

  /** The loop of `rank_huggingface_results`: every result paired with its score. */
  method ScoreHuggingFaceResults(results: seq<HuggingFaceResult>, query: string, keywords: seq<string>,
                                 log10: real -> real)
    returns (scoredResults: seq<(real, HuggingFaceResult)>)
    ensures scoredResults == Keyed(results, HuggingFaceKey(IntentKeywordsOf(query), log10))
  {
    ghost var key := HuggingFaceKey(IntentKeywordsOf(query), log10);
    scoredResults := [];
    for i := 0 to |results|
      invariant scoredResults == Keyed(results[..i], key)
    {
      var score := ScoreHuggingFaceResult(results[i], query, keywords, log10);
      KeyedSnoc(results, i, key, scoredResults, score);
      scoredResults := scoredResults + [(score, results[i])];
    }
    assert results[..|results|] == results;
  }

  /** `rank_huggingface_results`, with the same guarantees as `RankGitHubResults`. */
  method RankHuggingFaceResults(results: seq<HuggingFaceResult>, query: string, log10: real -> real)
    returns (ranked: seq<HuggingFaceResult>)
    ensures ranked == SortDesc(results, HuggingFaceKey(IntentKeywordsOf(query), log10))
    ensures multiset(ranked) == multiset(results)
    ensures SortedDesc(ranked, HuggingFaceKey(IntentKeywordsOf(query), log10))
    ensures forall k :: WithKey(ranked, HuggingFaceKey(IntentKeywordsOf(query), log10), k)
                        == WithKey(results, HuggingFaceKey(IntentKeywordsOf(query), log10), k)
  {
    ghost var key := HuggingFaceKey(IntentKeywordsOf(query), log10);
    RankedProperties(results, key);
    if results == [] {
      return results;
    }
    var keywords := ExtractKeywords(query);
    var scoredResults := ScoreHuggingFaceResults(results, query, keywords, log10);
    ranked := Seconds(SortDesc(scoredResults, PairKey));
  }

  /** The loop of `rank_reddit_results`: every result paired with its score. */
  method ScoreRedditResults(results: seq<RedditResult>, query: string, keywords: seq<string>,
                            now: real, log10: real -> real)
    returns (scoredResults: seq<(real, RedditResult)>)
    ensures scoredResults == Keyed(results, RedditKey(IntentKeywordsOf(query), now, log10))
  {
    ghost var key := RedditKey(IntentKeywordsOf(query), now, log10);
    scoredResults := [];
    for i := 0 to |results|
      invariant scoredResults == Keyed(results[..i], key)
    {
      var score := ScoreRedditResult(results[i], query, keywords, now, log10);
      KeyedSnoc(results, i, key, scoredResults, score);
      scoredResults := scoredResults + [(score, results[i])];
    }
    assert results[..|results|] == results;
  }

  /** `rank_reddit_results`, with the same guarantees as `RankGitHubResults`. */
  method RankRedditResults(results: seq<RedditResult>, query: string, now: real, log10: real -> real)
    returns (ranked: seq<RedditResult>)
    ensures ranked == SortDesc(results, RedditKey(IntentKeywordsOf(query), now, log10))
    ensures multiset(ranked) == multiset(results)
    ensures SortedDesc(ranked, RedditKey(IntentKeywordsOf(query), now, log10))
    ensures forall k :: WithKey(ranked, RedditKey(IntentKeywordsOf(query), now, log10), k)
                        == WithKey(results, RedditKey(IntentKeywordsOf(query), now, log10), k)
  {
    ghost var key := RedditKey(IntentKeywordsOf(query), now, log10);
    RankedProperties(results, key);
    if results == [] {
      return results;
    }
    var keywords := ExtractKeywords(query);
    var scoredResults := ScoreRedditResults(results, query, keywords, now, log10);
    ranked := Seconds(SortDesc(scoredResults, PairKey));
  }

  /** What the three rank functions share: sorting the scored pairs is sorting by the score. */
  lemma RankedProperties<T>(results: seq<T>, key: T -> real)
    ensures Seconds(SortDesc(Keyed(results, key), PairKey)) == SortDesc(results, key)
    ensures SortedDesc(SortDesc(results, key), key)
    ensures forall k :: WithKey(SortDesc(results, key), key, k) == WithKey(results, key, k)
  {
    SortKeyed(results, key);
    SortDescSorted(results, key);
    forall k {
      SortDescStable(results, key, k);
    }
  }
}
