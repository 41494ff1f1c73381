# A verified model of a multi-source developer search backend

The backend answers one developer query in several steps:

- It asks a language model (Groq first, then Gemini) to rewrite the query for each source. When neither answers, it falls back to rules.
- It searches GitHub, Hugging Face and Reddit through a web search engine, filters the hits and enriches each one by fetching its page.
- It scores every result for relevance, ranks each source's results, and merges the three ranked lists with intent-dependent source weights.
- It summarises the results, again by language model or by a fallback.

Around these steps are a per-client rate limiter, an input screen for request bodies, validation and sanitisation of API keys and queries, and a Redis cache with expiring entries.

This project models that core in Dafny 4.11 and proves properties about the model.

| module | file | models |
|---|---|---|
| `Wrappers`, `Text`, `Patterns` | `wrappers.dfy`, `text.dfy`, `patterns.dfy` | `Option`, ASCII strings, and word-bounded regular-expression alternations |
| `Models` | `models.dfy` | the records and enumerations of `backend/models.py`, and `GeneratedQueries` both as the rest of the backend uses it (with intent and source weights) and as `backend/models.py` declares it (`DeclaredQueries`, four fields) |
| `Keywords`, `Ranking`, `StableSort` | `keywords.dfy`, `ranking.dfy`, `stable_sort.dfy` | `backend/ranking.py`: keyword and intent extraction, semantic relevance, the three per-source scorers, and the three rankers |
| `Intent`, `Fusion`, `Failover` | `intent.dfy`, `fusion.dfy`, `failover.dfy` | `backend/ai_logic.py`: intent classification, the weighted merge, query generation and synthesis with provider failover, and the rule-based fallbacks |
| `SearchLogic`, `Enrichment` | `search_logic.dfy`, `enrichment.dfy` | `backend/search_logic.py`: hit filtering, sentiment analysis, project status, the enrichment of each source's results, and the parallel search |
| `Security`, `RateLimit` | `security.dfy`, `rate_limit.dfy` | `backend/security.py`: key validation, query sanitisation, the input screen, and the rate limiter |
| `Cache` | `cache.dfy` | `backend/cache.py`: the cache manager over a key-value store with expiry, and the singleton |

## How the model is built

**Imperative code stays imperative.** Where the Python code builds a result with a loop, the model is a `method` with a `while` loop. Its `ensures` ties the result to a specification function, and the properties are proved about that function as lemmas. Examples are the scoring functions, the hit filters, the comment collection and the sentiment counters.

**Objects whose fields change are classes.**

- The rate-limit middleware is `RateLimit.RateLimiter`. Its `request_counts` dictionary is a `map` field.
- The cache manager is `Cache.CacheManager`, bound to a `Cache.Store`.
- The module-level singleton is `Cache.CacheRegistry`.

**The outside world becomes parameters.**

| outside dependency | parameter in the model |
|---|---|
| the search engine | `search` function |
| HTTP fetches | `readme`, `page` and `fetch` functions returning `Fetched` |
| the clock | `now`, `cleanupTime` |
| `math.log10` | a `log10` function constrained by `LogLike` |
| `datetime.fromisoformat` | a `parse` function |
| MD5 | a `digest` function |
| `json.loads` | a `Decoder` |
| language model replies | `Option<string>` values |

**Python's `list.sort(key=..., reverse=True)` is modelled as a stable descending insertion sort on sequences** (`StableSort.SortDesc`). It is proved sorted, a permutation, and order-preserving among equal keys, which are the guarantees Python's sort gives.

**In these places the model keeps the code's own behaviour:**

- Intent classification breaks ties by the insertion order of the `scores` dictionary (`ai_logic.py:102-116`). The first intent with the maximum score wins.
- The per-intent source weights are the table in `ai_logic.py:119-129`.
- In `score_github_result` (`ranking.py:275-278`) and `score_reddit_result` (`ranking.py:491-494`), the branch for ages above 1095 days comes after the branch for ages above 730 days, so it can never run. The model keeps the code's order. `Ranking.GitHubRecencyStage` and `Ranking.RedditRecencyStage` state that ages over 1095 days get the 730-day factor.
- `score_reddit_result` tests `'programming'` before `'learnprogramming'` (`ranking.py:503-517`). "learnprogramming" therefore gets the 1.5 multiplier; `Ranking.LearnProgrammingMultiplier` proves this.

## Model

| member | source | states |
|---|---|---|
| Keywords.KeptTokens | backend/ranking.py:13-26 | every kept token is a non-stopword of at least three characters taken from the query words, and every such word is kept |
| Keywords.Bigrams | backend/ranking.py:29-32 | one bigram per adjacent pair of keywords: `n - 1` bigrams for `n > 0` keywords |
| Keywords.BigramAt | backend/ranking.py:29-32 | bigram `i` is keyword `i`, a space, and keyword `i + 1` |
| Keywords.ExtractKeywords | backend/ranking.py:10-34 | the result is the kept keywords of the lower-cased query followed by their bigrams |
| Keywords.AppendBigrams | backend/ranking.py:29-34 | the bigram loop appends exactly the bigrams after the keywords |
| Keywords.PhrasesUpToLength | backend/ranking.py:45-51 | after `i` steps the phrase loop has produced `min(i, n-2)` three-word and `min(i, n-1)` two-word phrases |
| Keywords.PhrasesLength | backend/ranking.py:45-51 | `n` words give `max(0, n-2) + max(0, n-1)` phrases |
| Keywords.PhrasesUpToPrefix | backend/ranking.py:45-51 | later iterations only append phrases |
| Keywords.PhrasePositions | backend/ranking.py:45-51 | phrase `2i` is words `i..i+3` and phrase `2i+1` is words `i..i+2`; at the last pair only the two-word phrase exists |
| Keywords.Detected | backend/ranking.py:54-67 | the detected entries are exactly the list entries that occur in the query, in list order |
| Keywords.CleanedWords | backend/ranking.py:70 | the cleaned words are exactly the query words that are neither four-digit tokens nor `latest`, `new` or `recent` |
| Keywords.IntentKeywordsOf | backend/ranking.py:37-80 | what `extract_intent_keywords` returns; `Keywords.ExtractIntentKeywords` and `Keywords.CleanedWordsDropYears` state its parts |
| Keywords.ExtractIntentKeywords | backend/ranking.py:37-80 | the result is the intent-keyword record of the query, with `max(0, n-2) + max(0, n-1)` phrases |
| Keywords.DetectedInner | backend/ranking.py:55 | a detected entry's listed substrings are detected as well |
| Keywords.JavaWithJavascript | backend/ranking.py:54-55 | a query that mentions "javascript" is also detected as mentioning "java" |
| Keywords.CleanedWordsDropYears | backend/ranking.py:70 | "2024" and every recency word are never among the cleaned words |
| Intent.CountMatching | backend/ai_logic.py:102-109 | an intent's score counts its matching patterns: 0 when none match, the pattern count when all match |
| Intent.FirstMaxIndex | backend/ai_logic.py:112-116 | the chosen index holds the maximum score, and every earlier index is strictly smaller |
| Intent.Priority | backend/ai_logic.py:102-109 | an intent's position in the scoring order; `General` is not scored |
| Intent.WeightsFor | backend/ai_logic.py:119-129 | every weight table is non-negative and sums to 1 |
| Intent.PickIntent | backend/ai_logic.py:112-116 | `General` exactly when every score is 0; otherwise the first intent with the maximum positive score |
| Intent.IntentScore | backend/ai_logic.py:102-109 | the number of an intent's patterns found in the lower-cased query; `Intent.ClassifyQueryIntent` picks by it |
| Intent.ClassifyQueryIntent | backend/ai_logic.py:56-133 | the chosen intent has a maximal positive score with no earlier intent tied, or is `General` exactly when no pattern matches; the weights are that intent's table |
| Intent.PickedByScore | backend/ai_logic.py:111-116 | picking over a score list equals picking by the score function it lists |
| Patterns.FirstAltAt | backend/ai_logic.py:67-99 | an alternative is found at index `i` exactly when some alternative matches there as a whole word |
| Patterns.FirstWordMatch | backend/search_logic.py:339-343 | a match is found exactly when some alternative occurs as a whole word, and the match occurs in the text |
| Patterns.FirstWordMatchFinds | backend/search_logic.py:339-343 | the scan finds a match exactly when the alternation pattern matches |
| Ranking.Hits | backend/ranking.py:102-118 | the number of list entries found in the text: 0 exactly when none occurs, the list length exactly when all occur |
| Ranking.LongHits | backend/ranking.py:126-127 | 0 exactly when no word longer than three characters occurs in the text |
| Ranking.PhraseTerm | backend/ranking.py:95-99 | a phrase contributes exactly when it occurs in the text and has words |
| Ranking.PhraseScore | backend/ranking.py:95-99 | the phrase score is non-negative, and 0 exactly when no phrase contributes |
| Ranking.TechTerm | backend/ranking.py:102-108 | a technology found in the text contributes at least 12, one not found contributes nothing |
| Ranking.TechScore | backend/ranking.py:102-108 | at least 12 per technology found |
| Ranking.RelevanceSum | backend/ranking.py:95-127 | the sum of the relevance terms is non-negative |
| Ranking.SemanticRelevance | backend/ranking.py:83-144 | relevance is non-negative, and 0 for empty text |
| Ranking.RelevancePositive | backend/ranking.py:102-123 | non-empty text that mentions one language, task, action or technology scores at least 5 |
| Ranking.DensityRaises | backend/ranking.py:131-142 | the density factor never lowers the sum; three or more hits multiply it by 1.5, fewer than two leave it |
| Ranking.CalculateSemanticRelevance | backend/ranking.py:83-144 | the loops compute exactly the semantic relevance |
| Ranking.SumPhraseScores | backend/ranking.py:95-99 | the phrase loop computes the phrase score |
| Ranking.SumTechScores | backend/ranking.py:102-108 | the technology loop computes the technology score |
| Ranking.CountHits | backend/ranking.py:111-123 | the counting loops compute the hit count |
| Ranking.TitleTerm | backend/ranking.py:157-163 | the title term is non-negative |
| Ranking.Unique3 | backend/ranking.py:207-214 | the count of distinct categories matched (at most 3): 0 exactly when none matches, 3 exactly when all three do |
| Ranking.Holistic3Stage | backend/ranking.py:203-220 | the holistic boost never lowers a non-negative score, and leaves it when fewer than two categories match |
| Ranking.TitleScore | backend/ranking.py:157-163 | the title section computes the title term |
| Ranking.PhraseBonusScore | backend/ranking.py:165-173 | the phrase bonus loop computes the phrase bonus |
| Ranking.ApplyHolistic3 | backend/ranking.py:203-220 | the holistic section computes the holistic stage |
| Ranking.DescriptionTerm | backend/ranking.py:165-173 | non-negative, and 0 for a missing or empty description |
| Ranking.ReadmeTerm | backend/ranking.py:175-183 | non-negative, and 0 for a missing or empty readme preview |
| Ranking.TopicHits | backend/ranking.py:185-194 | the number of intent terms found in some topic, equal to the term count exactly when all are found |
| Ranking.TopicsTerm | backend/ranking.py:185-194 | non-negative, and 0 without topics |
| Ranking.LanguageBonus | backend/ranking.py:196-199 | 15 exactly when the repository's lower-cased language is a detected language, else 0 |
| Ranking.GitHubContent | backend/ranking.py:157-199 | the content score is non-negative |
| Ranking.StarStage | backend/ranking.py:224-238 | a missing or non-positive star count leaves the score unchanged |
| Ranking.StarStageGrows | backend/ranking.py:224-238 | for a logarithm-like `log10`, stars never lower a non-negative score |
| Ranking.StatusMultiplier | backend/ranking.py:240-248 | every status multiplier is positive |
| Ranking.StatusMultiplierOrder | backend/ranking.py:240-248 | active > maintained > unknown > stale > abandoned |
| Ranking.StatusStage | backend/ranking.py:240-248 | a non-negative score stays non-negative |
| Ranking.StatusStageScales | backend/ranking.py:240-248 | the stage multiplies the score by the status multiplier |
| Ranking.StatusStageOrder | backend/ranking.py:240-248 | a positive score is ranked higher under the status with the larger multiplier |
| Ranking.DaysOld | backend/ranking.py:250-258 | no age exactly when the date is missing or empty, or does not parse after `Z` is replaced by `+00:00` |
| Ranking.GitHubRecencyStage | backend/ranking.py:250-280 | no age or 365-730 days leaves the score; over 730 days (and so over 1095) multiplies it by 0.3; under 365 days raises a positive score |
| Ranking.GitHubRecencyStageStrict | backend/ranking.py:250-280 | the recency stage preserves strict order |
| Ranking.GitHubBareStage | backend/ranking.py:282-291 | the second language bonus and the bare-result penalty keep a score non-negative |
| Ranking.GitHubScoreOf | backend/ranking.py:147-293 | what `score_github_result` returns; `Ranking.GitHubScoreNonNegative` and `Ranking.StatusOrdersScores` state it is non-negative and ordered by status |
| Ranking.GitHubScoreNonNegative | backend/ranking.py:147-293 | a GitHub score is never negative |
| Ranking.StatusOrdersScores | backend/ranking.py:240-293 | between two otherwise equal repositories with a positive score before the status stage, the one whose status has the larger multiplier scores strictly higher |
| Ranking.TopicsScore | backend/ranking.py:185-194 | the topics section computes the topics term |
| Ranking.AddPerTopicHit | backend/ranking.py:191-194 | the topic loop adds 20 per intent term found in a topic |
| Ranking.ApplyStars | backend/ranking.py:224-238 | the star section computes the star stage |
| Ranking.ApplyGitHubRecency | backend/ranking.py:250-280 | the recency section computes the recency stage |
| Ranking.ApplyStatus | backend/ranking.py:240-248 | the status section computes the status stage |
| Ranking.ApplyGitHubTail | backend/ranking.py:240-291 | the sections after the stars compute the score tail |
| Ranking.DescriptionScore | backend/ranking.py:165-173 | the description section computes the description term |
| Ranking.ReadmeScore | backend/ranking.py:175-183 | the readme section computes the readme term |
| Ranking.ScoreGitHubResult | backend/ranking.py:147-293 | the score is the GitHub ranking key of the query's intent keywords |
| Ranking.ModelDescriptionTerm | backend/ranking.py:312-320 | non-negative, and 0 for a missing or empty description |
| Ranking.PipelineTerm | backend/ranking.py:322-330 | non-negative, and 0 for a missing or empty pipeline tag |
| Ranking.HuggingFaceContent | backend/ranking.py:305-330 | the content score is non-negative |
| Ranking.Holistic2Stage | backend/ranking.py:332-344 | a task together with a technology multiplies the score by 1.8; otherwise it is unchanged |
| Ranking.DownloadStage | backend/ranking.py:346-359 | missing or non-positive downloads leave the score |
| Ranking.LikeStage | backend/ranking.py:361-370 | missing or non-positive likes leave the score |
| Ranking.DownloadStageGrows | backend/ranking.py:346-359 | downloads never lower a non-negative score |
| Ranking.LikeStageGrows | backend/ranking.py:361-370 | likes never lower a non-negative score |
| Ranking.HuggingFaceScoreOf | backend/ranking.py:296-380 | what `score_huggingface_result` returns; `Ranking.HuggingFaceScoreNonNegative` and `Ranking.SpacesBoost` state it is non-negative and raised by 1.5 with a Space |
| Ranking.HuggingFaceScoreNonNegative | backend/ranking.py:296-380 | a Hugging Face score is never negative |
| Ranking.SpacesBoost | backend/ranking.py:372-374 | adding a Spaces link multiplies the score by exactly 1.5 |
| Ranking.PipelineScore | backend/ranking.py:322-330 | the pipeline section computes the pipeline term |
| Ranking.AddTaskBonus | backend/ranking.py:327-329 | the task loop adds 30 per task found in the tag |
| Ranking.ApplyDownloads | backend/ranking.py:346-359 | the downloads section computes the download stage |
| Ranking.ApplyLikes | backend/ranking.py:361-370 | the likes section computes the like stage |
| Ranking.ApplyHolistic2 | backend/ranking.py:332-344 | the holistic section computes the holistic stage |
| Ranking.ApplyHuggingFaceTail | backend/ranking.py:372-378 | the Spaces bonus and the no-description penalty compute the score tail |
| Ranking.SpacesStage | backend/ranking.py:373-374 | ×1.5 for a result with a Spaces URL; `Ranking.ApplyHuggingFaceTail` applies it |
| Ranking.ModelDescriptionScore | backend/ranking.py:312-320 | the description section computes the description term |
| Ranking.ScoreHuggingFaceResult | backend/ranking.py:296-380 | the score is the Hugging Face ranking key of the query's intent keywords |
| Ranking.SelftextTerm | backend/ranking.py:400-408 | non-negative, and 0 for a missing or empty post body |
| Ranking.CommentsTerm | backend/ranking.py:410-421 | non-negative, and 0 without top comments |
| Ranking.RedditContent | backend/ranking.py:393-421 | the content score is non-negative |
| Ranking.VoteStage | backend/ranking.py:441-454 | non-positive votes leave the score |
| Ranking.CommentCountStage | backend/ranking.py:456-465 | a non-positive comment count leaves the score |
| Ranking.VoteStageGrows | backend/ranking.py:441-454 | votes never lower a non-negative score |
| Ranking.CommentCountStageGrows | backend/ranking.py:456-465 | comments never lower a non-negative score |
| Ranking.AgeDays | backend/ranking.py:467-472 | no age exactly when the creation time is missing or 0 |
| Ranking.RedditRecencyStage | backend/ranking.py:467-496 | no age or 365-730 days leaves the score; over 730 days (and so over 1095) multiplies it by 0.2; under 365 days raises a positive score |
| Ranking.FirstSubMatch | backend/ranking.py:503-517 | the multiplier of the first listed subreddit fragment found in the name, or none exactly when none is found |
| Ranking.SubStageIsFirstMatch | backend/ranking.py:503-517 | the if/elif chain multiplies by the first matching multiplier, or by 1 |
| Ranking.SubStage | backend/ranking.py:502-517 | the subreddit loop; `Ranking.SubStageIsFirstMatch`, `Ranking.SubStageScales` and `Ranking.SubStageNonNegative` state its properties |
| Ranking.WarningStage | backend/ranking.py:499-500 | ×0.4 for a warned thread; `Ranking.RedditTailNonNegative` states the tail stays non-negative |
| Ranking.SubStageScales | backend/ranking.py:503-517 | the subreddit stage is linear in the score |
| Ranking.TechSubsBoost | backend/ranking.py:503-517 | every listed subreddit multiplier is at least 1.2 |
| Ranking.SubredditMultiplier | backend/ranking.py:503-517 | at least 1, and exactly 1 for a subreddit that matches no fragment |
| Ranking.LearnProgrammingMultiplier | backend/ranking.py:503-517 | "learnprogramming" gets 1.5, because "programming" is checked first |
| Ranking.RedditPopularNonNegative | backend/ranking.py:393-465 | the score before the recency stage is non-negative |
| Ranking.RedditTailNonNegative | backend/ranking.py:467-521 | the later stages keep a score non-negative |
| Ranking.RedditScoreOf | backend/ranking.py:383-523 | what `score_reddit_result` returns; `Ranking.RedditScoreNonNegative` and `Ranking.WarningPenalty` state it is non-negative and cut to 0.4 by a warning |
| Ranking.RedditScoreNonNegative | backend/ranking.py:383-523 | a Reddit score is never negative |
| Ranking.SubStageNonNegative | backend/ranking.py:503-517 | non-negative multipliers keep a score non-negative |
| Ranking.RedditPopularIgnoresWarning | backend/ranking.py:393-465 | the stages before the warning do not depend on the warning flag |
| Ranking.WarningTail | backend/ranking.py:498-521 | a warning multiplies the score tail by exactly 0.4 |
| Ranking.WarningPenalty | backend/ranking.py:498-500 | a warned post scores exactly 0.4 times the same post without a warning |
| Ranking.CommentsScore | backend/ranking.py:410-421 | the comments section computes the comments term and the joined comment text |
| Ranking.ApplyVotes | backend/ranking.py:441-454 | the votes section computes the vote stage |
| Ranking.ApplyCommentCount | backend/ranking.py:456-465 | the comment count section computes its stage |
| Ranking.ApplyRedditRecency | backend/ranking.py:467-496 | the recency section computes the recency stage |
| Ranking.ApplySubreddit | backend/ranking.py:503-517 | the subreddit chain computes the subreddit stage |
| Ranking.ApplyRedditTail | backend/ranking.py:467-521 | the sections after the comment count compute the score tail |
| Ranking.SelftextScore | backend/ranking.py:400-408 | the post body section computes the body term |
| Ranking.ScoreRedditResult | backend/ranking.py:383-523 | the score is the Reddit ranking key of the query's intent keywords at `now` |
| Ranking.ScoreGitHubResults | backend/ranking.py:534-537 | the scoring loop pairs every result with its score, in order |
| Ranking.RankGitHubResults | backend/ranking.py:526-542 | the ranked list is a permutation of the results, sorted by descending score, with equal scores kept in input order |
| Ranking.ScoreHuggingFaceResults | backend/ranking.py:552-555 | the scoring loop pairs every result with its score, in order |
| Ranking.RankHuggingFaceResults | backend/ranking.py:545-559 | the ranked list is a permutation of the results, sorted by descending score, with equal scores kept in input order |
| Ranking.ScoreRedditResults | backend/ranking.py:569-572 | the scoring loop pairs every result with its score, in order |
| Ranking.RankRedditResults | backend/ranking.py:562-576 | the ranked list is a permutation of the results, sorted by descending score, with equal scores kept in input order |
| Ranking.RankedProperties | backend/ranking.py:540-542 | sorting the (score, result) pairs and dropping the scores equals sorting the results by score, and that sort is ordered and stable |
| StableSort.InsertDesc | backend/ranking.py:540 | insertion adds exactly the one element |
| StableSort.SortDesc | backend/ranking.py:540 | the sort is a permutation of its input |
| StableSort.InsertDescSorted | backend/ranking.py:540 | inserting into a sorted list keeps it sorted |
| StableSort.SortDescSorted | backend/ranking.py:540 | the result is sorted by descending key |
| StableSort.InsertDescWithKey | backend/ranking.py:540 | insertion keeps the order of the elements that share a key |
| StableSort.SortDescStable | backend/ranking.py:540 | the elements with any given key keep their input order |
| StableSort.InsertDescTies | backend/ai_logic.py:241 | inserting an element that precedes all others keeps equal-key elements in order |
| StableSort.SortDescTiesInOrder | backend/ai_logic.py:241 | an input in some order stays in that order among equal keys |
| StableSort.SortDescOfSorted | backend/ranking.py:540 | an already sorted list is left unchanged |
| StableSort.InsertPair | backend/ranking.py:540 | inserting a coherent pair by its score mirrors inserting its result by key |
| StableSort.SortKeyed | backend/ranking.py:534-542 | sorting the scored pairs and projecting equals sorting the results by key |
| Fusion.Min | backend/ai_logic.py:161-163 | `min`: no larger than either argument and equal to one of them |
| Fusion.CappedBoost | backend/ai_logic.py:161-163 | at most the cap; 0 for a missing or zero count; positive for positive counts, negative for negative ones |
| Fusion.StatusBoost | backend/ai_logic.py:166-172 | one of 15, 10, -5, -15 or 0, positive exactly for active and maintained projects |
| Fusion.SentimentBoost | backend/ai_logic.py:224-228 | one of 10, -10 or 0: positive exactly for positive sentiment, negative exactly for negative |
| Fusion.Prioritized | backend/ai_logic.py:136-249 | the merged list; `Fusion.PrioritizedIsPermutation`, `Fusion.PrioritizedSorted`, `Fusion.PrioritizedRanks` and `Fusion.PrioritizedTiesInInsertionOrder` state that it is a ranked, stably sorted permutation |
| Fusion.MergeAndPrioritize | backend/ai_logic.py:136-249 | the merge returns the prioritised list: one entry per input result, ranked 1, 2, ... |
| Fusion.UnnumberedNumbered | backend/ai_logic.py:244-245 | numbering the sorted entries changes only their ranks, which become 1, 2, ... |
| Fusion.AddGitHub | backend/ai_logic.py:157-182 | the GitHub loop appends exactly the GitHub entries |
| Fusion.AddHuggingFace | backend/ai_logic.py:185-205 | the Hugging Face loop appends exactly the Hugging Face entries |
| Fusion.AddReddit | backend/ai_logic.py:208-238 | the Reddit loop appends exactly the Reddit entries |
| Fusion.NumberRanks | backend/ai_logic.py:244-245 | the ranking loop numbers the sorted entries |
| Fusion.TaggedUnnumbered | backend/ai_logic.py:154-238 | entries carry no rank before numbering |
| Fusion.PrioritizedIsPermutation | backend/ai_logic.py:154-245 | the merged list, with ranks cleared, is a permutation of all source entries |
| Fusion.PrioritizedRanks | backend/ai_logic.py:244-245 | entry `i` of the merged list has rank `i + 1` |
| Fusion.PrioritizedSorted | backend/ai_logic.py:241 | the merged list is in descending score order |
| Fusion.TaggedInOrder | backend/ai_logic.py:154-238 | the entries are in insertion order: GitHub, then Hugging Face, then Reddit, each by original rank |
| Fusion.PrioritizedTiesInInsertionOrder | backend/ai_logic.py:241 | entries with equal scores keep their insertion order |
| Fusion.TaggedComesFrom | backend/ai_logic.py:154-238 | every entry is built from one input result |
| Fusion.PrioritizedProvenance | backend/ai_logic.py:154-245 | every merged entry comes from one input result with the score the formula gives it |
| Fusion.GitHubScore | backend/ai_logic.py:157-175 | the merged base score of a GitHub result; `Fusion.ScoreCaps` and `Fusion.PositionPenaltyStep` bound it and fix its position cost |
| Fusion.HuggingFaceScore | backend/ai_logic.py:185-198 | the merged base score of a Hugging Face result; bounded by `Fusion.ScoreCaps` |
| Fusion.RedditScore | backend/ai_logic.py:208-231 | the merged base score of a Reddit result; bounded by `Fusion.ScoreCaps` |
| Fusion.PositionPenaltyStep | backend/ai_logic.py:175 | each later original position costs exactly 2 points, in every source (also lines 198 and 231) |
| Fusion.ScoreCaps | backend/ai_logic.py:158-231 | a merged score is at most 100 times the source weight, plus that source's maximum boost, minus twice the index |
| Fusion.ScoresCanBeNegative | backend/ai_logic.py:158-175 | an abandoned repository without stars at index 10 gets a negative score under the model-search weights |
| Failover.NextBrace | backend/ai_logic.py:289 | the first `{` or `}` at or after `i`, or the end |
| Failover.FirstObject | backend/ai_logic.py:289 | `re.search(r'\{[^{}]*\}')`: none exactly when no brace-free object starts anywhere; otherwise the leftmost one |
| Failover.ExtractObject | backend/ai_logic.py:289 | the match starts with `{`, ends with `}`, holds no brace inside, and occurs in the reply; none exactly when there is no such object |
| Failover.ObjectShape | backend/ai_logic.py:289 | any object found there has that shape and occurs in the reply |
| Failover.QueriesFromData | backend/ai_logic.py:292-299 | the record is built exactly when each query present is a string and `reasoning` is a string or `null`; otherwise validation raises; either way it carries the intent and weights |
| Failover.MissingKeysDefault | backend/ai_logic.py:292-299 | in a valid object a missing query defaults to the user's query and a missing reason to the tier's reason |
| Failover.PresentValuesKept | backend/ai_logic.py:292-299 | in a valid object the strings present are kept, and a `null` reason gives no reason (`Optional[str]`, models.py:95) |
| Failover.NonStringQueryRejected | backend/ai_logic.py:292-299 | a `null` or other non-string query makes the object fail validation |
| Failover.NullReasoningValidates | backend/ai_logic.py:292-299 | the object `{"github_query": "x", "reasoning": null}` validates, with query "x", the user's query elsewhere and no reason |
| Failover.NullReasoningAnswersAtGroq | backend/ai_logic.py:286-299 | Groq's `{"github_query": "x", "reasoning": null}` answers at the Groq tier with query "x", the user's query elsewhere, and no reason |
| Failover.ProviderQueries | backend/ai_logic.py:286-299 | a provider yields queries exactly when its reply holds an object that decodes and validates |
| Failover.LanguageKeywords | backend/ai_logic.py:509-513 | only fallback languages that occur among the words |
| Failover.FirstLanguage | backend/ai_logic.py:509-516 | the first recognised language word, or nothing; `Failover.FallbackLanguageNeverCpp` states it is never "c++" |
| Failover.FallbackQueries | backend/ai_logic.py:506-525 | `_generate_fallback_queries`; `Failover.FallbackQueriesContainYear` states every query contains the year |
| Failover.FallbackQueriesContainYear | backend/ai_logic.py:506-525 | all three fallback queries contain the current year |
| Failover.FallbackLanguageNeverCpp | backend/ai_logic.py:509-516 | the detected language is a listed one or empty, and never "c++" (the word pattern cannot match it) |
| Failover.AnsweringTier | backend/ai_logic.py:269-333 | Groq answers exactly when its reply yields an object that decodes and validates; Gemini exactly when Groq does not and Gemini does; the rules exactly when neither does |
| Failover.TryProvider | backend/ai_logic.py:286-299 | a provider attempt returns that provider's validated queries, and returns some only when the stripped reply holds an object |
| Failover.GenerateSearchQueries | backend/ai_logic.py:252-333 | the corrected chain: on every tier the queries carry the classified intent and weights (as `backend/main.py:128-129` reads them), and they come from the first provider tier that answers |
| Failover.GenerateAsWritten | backend/ai_logic.py:286-333 | the chain as written against the four declared fields: a provider tier yields its validated queries without intent or weights (pydantic ignores the extra arguments at lines 297-298 and 323-324), and the rule-based tier raises (`None`), because assigning the undeclared `intent` at line 331 raises |
| Failover.NoProviderReachesRuleBased | backend/ai_logic.py:269-333 | with no reply from either provider the rule-based tier answers, so `Failover.GenerateAsWritten` raises |
| Failover.ReplyData | backend/ai_logic.py:286-291 | the object a reply yields: the stripped reply's first brace-free object, decoded; `Failover.ReplyWithoutObjectIgnored` states a reply without `{` yields none |
| Failover.Validates | backend/ai_logic.py:292-299 | the test pydantic applies (each query present a string, `reasoning` a string or null); `Failover.MissingKeysDefault`, `Failover.PresentValuesKept` and `Failover.NullReasoningValidates` state what a validated object gives |
| Failover.QueriesOfTier | backend/ai_logic.py:269-333 | the queries of the answering tier, with intent and weights carried; `Failover.GenerateWith` and `Failover.GenerateSearchQueries` return queries that satisfy it |
| Failover.GenerateWith | backend/ai_logic.py:269-333 | with the intent and weights given, the queries are those of the first provider whose object validates, else the rule-based ones |
| Failover.ReplyWithoutObjectIgnored | backend/ai_logic.py:289-291 | a reply without `{` yields no object and never answers |
| Failover.CountActive | backend/ai_logic.py:537 | the number of active repositories: 0 exactly when none is active |
| Failover.CountWarnings | backend/ai_logic.py:547 | the number of warned posts: 0 exactly when none is warned |
| Failover.GitHubPart | backend/ai_logic.py:536-541 | one summary part exactly when there are GitHub results |
| Failover.HuggingFacePart | backend/ai_logic.py:543-544 | one summary part exactly when there are Hugging Face results |
| Failover.RedditPart | backend/ai_logic.py:546-551 | one summary part exactly when there are Reddit results |
| Failover.FallbackSynthesis | backend/ai_logic.py:528-556 | the "no results" text exactly when all three lists are empty; otherwise the joined parts between the fixed prefix and suffix |
| Failover.SummaryNotEmptyText | backend/ai_logic.py:553-556 | a summary can never equal the "no results" text |
| Failover.SynthesizeResults | backend/ai_logic.py:336-393 | Groq's stripped reply, else Gemini's, else the fallback: the "no results" text exactly when there are no results, otherwise `Search complete: ` followed by the summary parts joined with `, ` and the fixed suffix |
| SearchLogic.ProjectStatusOf | backend/search_logic.py:196-208 | active under 30 days, maintained under 180, stale under 365, abandoned from 365 on; never unknown |
| SearchLogic.ProjectStatusMonotone | backend/search_logic.py:196-208 | an older repository never gets a fresher status |
| SearchLogic.MatchCount | backend/search_logic.py:339-347 | at most one match per pattern |
| SearchLogic.MatchedTexts | backend/search_logic.py:339-347 | every match occurs in the text |
| SearchLogic.MatchedTextsCount | backend/search_logic.py:339-347 | one match per matching pattern |
| SearchLogic.SentimentOf | backend/search_logic.py:332-356 | the label and warning of `analyze_sentiment`; `SearchLogic.SentimentClassification` states when each label is given |
| SearchLogic.SentimentClassification | backend/search_logic.py:349-356 | negative exactly with two or more negative matches; mixed exactly with one negative and no positive; positive and neutral by the positive count otherwise; a reason exactly for negative and mixed |
| SearchLogic.CollectMatches | backend/search_logic.py:339-347 | the loops collect exactly the matches |
| SearchLogic.CountMatches | backend/search_logic.py:339-347 | the loops count exactly the matching patterns |
| SearchLogic.AnalyzeSentiment | backend/search_logic.py:332-356 | the verdict and reason of the sentiment classification |
| SearchLogic.KeptProperties | backend/search_logic.py:74-98 | the kept hits are accepted, in order, with distinct keys, at most the cap; below the cap every accepted key is kept |
| SearchLogic.KeptFrom | backend/search_logic.py:74-98 | the indexes a filter loop keeps from a position on, given the keys seen and the count so far; `SearchLogic.KeptFromComplete`, `SearchLogic.KeptFromBound` and `SearchLogic.KeptFromValid` state its properties (also lines 237-291 and 376-398) |
| SearchLogic.Kept | backend/search_logic.py:74-98 | the indexes a filter loop keeps from the start with nothing seen; `SearchLogic.KeptProperties` states its properties |
| SearchLogic.OwnerRepoTail | backend/search_logic.py:73 | a match is two non-empty segments without `/`, followed by nothing, by one `/`, or by `/` and a final newline (where `$` also matches) |
| SearchLogic.OwnerRepoTailAccepts | backend/search_logic.py:73 | every such tail matches, with the two segments as the groups |
| SearchLogic.ContainsNone | backend/search_logic.py:80-87 | true exactly when no excluded fragment occurs |
| SearchLogic.KeepDistinct | backend/search_logic.py:77-98 | the filter loop returns the filtered hits |
| SearchLogic.FilterGitHubHits | backend/search_logic.py:72-98 | the loop returns the filtered repository hits |
| SearchLogic.BaseUrl | backend/search_logic.py:389 | the URL cut before `?` and `#`: a prefix without either |
| SearchLogic.FilterRedditHits | backend/search_logic.py:376-398 | the loop returns the filtered post hits |
| SearchLogic.FirstTagFirst | backend/search_logic.py:272-276 | the first tag that fits the description or URL, or none exactly when no tag fits |
| SearchLogic.DetectPipelineTag | backend/search_logic.py:272-276 | the tag loop finds the first fitting tag |
| SearchLogic.ModelTitle | backend/search_logic.py:246 | a model title is never empty |
| SearchLogic.ShortDescription | backend/search_logic.py:281 | none exactly for a missing or empty body; otherwise the prefix of length `min(len(body), 300)`, that is `body[:300]` (also line 133) |
| SearchLogic.ModelRecordFields | backend/search_logic.py:246-285 | a record keeps the URL, has a title, links Spaces exactly for `/spaces/` URLs, carries the first fitting tag and the short description, and leaves downloads, likes and model type unset |
| SearchLogic.BuildModelRecord | backend/search_logic.py:246-285 | the built record is the model record |
| SearchLogic.ModelRecord | backend/search_logic.py:246-285 | the record the loop builds; `SearchLogic.ModelRecordFields` states its fields |
| SearchLogic.CollectModelRecords | backend/search_logic.py:232-288 | the loop builds one record per kept model hit |
| SearchLogic.SearchHuggingFaceHits | backend/search_logic.py:229-293 | the result is the records of the kept hits, cut to twice the maximum |
| SearchLogic.FilteredDistinct | backend/search_logic.py:74-98 | filtered results have pairwise distinct keys |
| SearchLogic.FilteredBound | backend/search_logic.py:97-98 | at most the cap are kept (one when the cap is not positive) |
| SearchLogic.FilteredComplete | backend/search_logic.py:74-98 | below the cap, every accepted key appears in the output |
| SearchLogic.IsRepoPage | backend/search_logic.py:73-87 | the GitHub page test: the pattern matches and no excluded path occurs; used by `SearchLogic.GitHubFilteredProperties` |
| SearchLogic.RepoId | backend/search_logic.py:90-92 | the lower-cased `owner/repo`; `SearchLogic.GitHubFilteredProperties` states kept hits have distinct ones |
| SearchLogic.GitHubFiltered | backend/search_logic.py:72-98 | the hits the GitHub loop keeps; `SearchLogic.GitHubFilteredProperties` states which |
| SearchLogic.GitHubFilteredProperties | backend/search_logic.py:72-98 | kept hits are repository pages from the input with distinct repository ids, at most twice the maximum; below that bound every repository page's id is kept |
| SearchLogic.IsPostPage | backend/search_logic.py:381-388 | a Reddit post that is not a user page; used by `SearchLogic.RedditFilteredProperties` |
| SearchLogic.RedditFiltered | backend/search_logic.py:376-398 | the hits the Reddit loop keeps, with base URLs; `SearchLogic.RedditFilteredProperties` states which |
| SearchLogic.RedditFilteredProperties | backend/search_logic.py:376-398 | each kept hit is an input post with its base URL; URLs hold no `?` or `#` and are distinct, at most twice the maximum |
| SearchLogic.IsModelPage | backend/search_logic.py:231-240 | the Hugging Face page test; `SearchLogic.HuggingFaceFoundProperties` states every record comes from such a page |
| SearchLogic.HuggingFaceFoundProperties | backend/search_logic.py:229-293 | at most twice the maximum, each one the record of an input model page |
| SearchLogic.HuggingFaceFoundUrls | backend/search_logic.py:232-244 | the URLs of the records found are pairwise distinct |
| SearchLogic.HuggingFaceFoundWith | backend/search_logic.py:229-293 | `search_huggingface` for a given tag list: the records of the kept model hits, cut to twice the maximum; `SearchLogic.HuggingFaceFoundProperties` and `SearchLogic.HuggingFaceFoundUrls` state its properties |
| SearchLogic.HuggingFaceFound | backend/search_logic.py:229-293 | the same with the fixed pipeline tag list (lines 272-276) |
| Enrichment.LeftmostTail | backend/search_logic.py:125 | the leftmost index whose tail matches, with no earlier match, or none exactly when none matches (also line 424-425) |
| Enrichment.CutGitHubSuffix | backend/search_logic.py:125 | the title unchanged exactly when no tail `\s*[-·]\s*GitHub.*` matches; otherwise the text before the leftmost matching tail, keeping a final newline of the title that `.*` and `$` leave; a title that is only the tail becomes empty or `\n` |
| Enrichment.CutGitHubSuffixOf | backend/search_logic.py:125 | a text without `-`, `·` or a final space, followed by a `- GitHub` tail, is cut back to that text (plus the tail's final newline, if any) |
| Enrichment.CutSuffix | backend/search_logic.py:125 | the result is a prefix, cut at the leftmost matching tail and nowhere earlier |
| Enrichment.RStripChar | backend/search_logic.py:132 | `rstrip(c)`: a prefix not ending in `c`, followed in the input only by `c` |
| Enrichment.OwnerRepoFrom | backend/search_logic.py:121-122 | none exactly when no `github.com/` from the position on is followed by two non-empty segments; otherwise the segments are non-empty, without `/`, and `github.com/owner/repo` occurs in the URL |
| Enrichment.OwnerRepoFromAt | backend/search_logic.py:121-122 | the groups are taken at the leftmost `github.com/` that is followed by two segments |
| Enrichment.OwnerRepoAt | backend/search_logic.py:121-122 | owner and repository without `/` start the path, each greedy: the repository runs to the end or to the next `/` |
| Enrichment.OwnerRepoAtAccepts | backend/search_logic.py:121-122 | every path `owner/repo` with non-empty slash-free parts, ending there or at a `/`, gives exactly those groups |
| Enrichment.GitHubTitle | backend/search_logic.py:117-127 | the stripped, cut title when it is not empty; otherwise `owner/repo` when the URL yields them, else `Unknown` |
| Enrichment.ReadmeText | backend/search_logic.py:138-147 | a readme exactly when the `main` URL answers 200, or it answers 404 and `master` answers 200 |
| Enrichment.StripAll | backend/search_logic.py:178 | every topic stripped, in order |
| Enrichment.WithPage | backend/search_logic.py:156-188 | stars replaced when the page shows them; the language stripped when present; the first 5 topics, each stripped; date and status set exactly when the date is readable; every other field unchanged |
| Enrichment.StampReadable | backend/search_logic.py:180-188 | the page has a non-empty update time whose age can be computed; it decides whether `Enrichment.WithPage` sets date and status |
| Enrichment.WithReadme | backend/search_logic.py:147-152 | only the readme preview changes |
| Enrichment.CollapseNoTriple | backend/search_logic.py:151 | collapsing newline runs leaves no three newlines in a row and keeps a non-newline first character |
| Enrichment.CollapseNoTripleChar | backend/search_logic.py:151 | the same for text starting with a non-newline, which is kept first |
| Enrichment.CollapseNoTripleRun | backend/search_logic.py:151 | the same for text starting with a newline run |
| Enrichment.CollapseKeepsText | backend/search_logic.py:151 | collapsing changes only newlines |
| Enrichment.CollapseChars | backend/search_logic.py:151 | collapsing introduces no new character besides newlines |
| Enrichment.CollapseNewlines | backend/search_logic.py:151 | `re.sub(r'\n{3,}', '\n\n', …)`: every run of three or more newlines becomes two; `Enrichment.CollapseNoTriple`, `Enrichment.CollapseKeepsText` and `Enrichment.CollapseChars` state its properties |
| Enrichment.ReadmePreview | backend/search_logic.py:148-152 | the first 1500 characters, without Markdown markup, newline runs collapsed, cut to 500; `Enrichment.ReadmePreviewProperties` and `Enrichment.GitHubRecordReadme` state its properties |
| Enrichment.ReadmePreviewProperties | backend/search_logic.py:148-152 | a preview has at most 500 characters, no Markdown markup characters, no triple newline, and is a prefix of the cleaned text |
| Enrichment.GitHubRecord | backend/search_logic.py:114-193 | the record `enrich_github_result` returns; `Enrichment.GitHubRecordFields`, `Enrichment.GitHubRecordReadme` and `Enrichment.GitHubRecordStatus` state each field |
| Enrichment.GitHubRecordFields | backend/search_logic.py:114-135 | title, URL, description and clone command come from the hit; without owner and repository nothing is fetched |
| Enrichment.GitHubRecordReadme | backend/search_logic.py:137-154 | the preview exists exactly when a readme was fetched, and is its cleaned preview |
| Enrichment.GitHubRecordStatus | backend/search_logic.py:180-188 | the status is known exactly when the page answered 200 with a parsable date, and is then the status of that age |
| Enrichment.EnrichGitHubResult | backend/search_logic.py:114-193 | the enriched record is the GitHub record of the hit |
| Enrichment.ApplyReadme | backend/search_logic.py:138-154 | the readme step applies the fetched readme |
| Enrichment.ApplyPage | backend/search_logic.py:161-188 | the page step applies the page |
| Enrichment.GitHubFoundProperties | backend/search_logic.py:100-106 | one enriched record per filtered hit, in order, at most twice the maximum |
| Enrichment.GitHubFound | backend/search_logic.py:100-106 | the enriched records of the filtered hits, cut to twice the maximum; `Enrichment.GitHubFoundProperties` states its properties |
| Enrichment.SearchGitHub | backend/search_logic.py:57-111 | the results are the records found for five times the maximum search hits of the `site:github.com` query |
| Enrichment.SubredditFrom | backend/search_logic.py:420-421 | none exactly when no `reddit.com/r/` from the position on is followed by a name and `/`; otherwise the name is non-empty, has no `/`, and `reddit.com/r/name/` occurs in the URL |
| Enrichment.SubredditFromAt | backend/search_logic.py:420-421 | the name is taken at the leftmost `reddit.com/r/` followed by a name and `/`, and runs to that `/` |
| Enrichment.SubredditOf | backend/search_logic.py:420-421 | never empty; `unknown` when no match exists; otherwise a name with `reddit.com/r/name/` in the URL |
| Enrichment.SubredditOfAt | backend/search_logic.py:420-421 | the subreddit is the name at the leftmost match |
| Enrichment.SubredditOfPost | backend/search_logic.py:374 | a post URL always yields its subreddit, via its `/comments/` match (lines 420-421) |
| Enrichment.PostAtSubreddit | backend/search_logic.py:374 | where a post URL matches, the subreddit pattern matches too (lines 420-421) |
| Enrichment.AnalyzerFacts | backend/search_logic.py:332-356 | sentiment analysis gives a reason exactly for negative and mixed verdicts |
| Enrichment.CollectComments | backend/search_logic.py:458-483 | the loop collects exactly the top comments and all comment bodies |
| Enrichment.WithPost | backend/search_logic.py:446-452 | a post changes only score, comment count, creation time and body; a body has 1 to 500 characters |
| Enrichment.WithComments | backend/search_logic.py:455-492 | comments change only the top comments, sentiment and warning; the top comments are those of the listing |
| Enrichment.FetchRedditThread | backend/search_logic.py:414-500 | the fetched record is the thread record of the hit |
| Enrichment.ApplyPost | backend/search_logic.py:446-452 | the post step applies the post |
| Enrichment.ApplyComments | backend/search_logic.py:455-492 | the comment step applies the comments |
| Enrichment.ThreadRecord | backend/search_logic.py:414-504 | the record `fetch_reddit_thread` returns; `Enrichment.ThreadRecordWarning`, `Enrichment.ThreadRecordIdentity`, `Enrichment.ThreadRecordBounds` and `Enrichment.ThreadRecordPreview` state its fields |
| Enrichment.ThreadRecordWarning | backend/search_logic.py:485-492 | a thread is warned exactly when its overall sentiment is negative or mixed, and then has a reason |
| Enrichment.WithThreadWarning | backend/search_logic.py:485-492 | applying a fetched thread to a fresh record sets the warning exactly for negative or mixed sentiment |
| Enrichment.WithCommentsWarning | backend/search_logic.py:485-492 | applying comments to a fresh record sets the warning exactly for negative or mixed sentiment |
| Enrichment.ThreadRecordIdentity | backend/search_logic.py:416-431 | title, URL and subreddit come from the hit |
| Enrichment.RedditTitle | backend/search_logic.py:417-425 | the hit's title (default `Reddit Discussion`) without a trailing `: r/name` and then without a trailing `- Reddit`; `Enrichment.ThreadRecordIdentity` states the record keeps it |
| Enrichment.JsonUrl | backend/search_logic.py:436-437 | the URL before any `?`, trailing slashes removed, with `.json` appended; every `Enrichment.ThreadRecord` lemma fetches this address |
| Enrichment.WithThread | backend/search_logic.py:441-498 | the fetched thread applied to a record; `Enrichment.WithThreadBounds`, `Enrichment.WithThreadIdentity` and `Enrichment.WithThreadWarning` state its properties |
| Enrichment.WithThreadIdentity | backend/search_logic.py:433-500 | fetching never changes title, URL or subreddit |
| Enrichment.ThreadRecordBounds | backend/search_logic.py:452 | a body has 1 to 500 characters and there are at most 3 top comments (lines 475-481) |
| Enrichment.WithThreadBounds | backend/search_logic.py:452 | the same bounds for any fresh record (lines 475-481) |
| Enrichment.ThreadRecordPreview | backend/search_logic.py:441-498 | the preview is unavailable exactly when the fetch fails or is unreadable, and the record is then the bare one |
| Enrichment.CandidatesElements | backend/search_logic.py:461-481 | every candidate comes from a counted, positively scored comment among the first ten |
| Enrichment.TopComments | backend/search_logic.py:461-483 | the first three usable comments among the first ten; `Enrichment.TopCommentsProperties` states which |
| Enrichment.TopCommentsProperties | backend/search_logic.py:461-483 | at most 3 top comments, each the digest of a counted, positively scored comment among the first ten |
| Enrichment.RedditFoundProperties | backend/search_logic.py:400-406 | one thread record per filtered hit, in order, at most twice the maximum |
| Enrichment.RedditFoundUrls | backend/search_logic.py:389-406 | the URLs found hold no `?` or `#` and are pairwise distinct |
| Enrichment.RedditFoundUrlsOf | backend/search_logic.py:389-406 | each found URL is the URL of the filtered hit at the same position |
| Enrichment.RedditFound | backend/search_logic.py:400-406 | the thread records of the filtered hits, cut to twice the maximum; `Enrichment.RedditFoundProperties` and `Enrichment.RedditFoundUrls` state its properties |
| Enrichment.SearchReddit | backend/search_logic.py:359-411 | the results are the thread records for four times the maximum search hits of the `site:reddit.com` query |
| Enrichment.SearchHuggingFace | backend/search_logic.py:215-293 | the results are the model records for three times the maximum search hits of the `site:huggingface.co` query |
| Enrichment.ExecuteParallelSearch | backend/search_logic.py:507-541 | each source delivers its results or nothing, and the errors are the failures |
| Enrichment.Failures | backend/search_logic.py:528-539 | the error lines of the parallel search; `Enrichment.FailuresProperties` states one per failed source |
| Enrichment.FailuresProperties | backend/search_logic.py:528-539 | one error line per failed source, and each source's error line is present exactly when it failed |
| Security.WholeRunMeaning | backend/security.py:208 | `^...+$` under `re.match` accepts a non-empty run, or such a run followed by one newline |
| Security.ValidateGroqKey | backend/security.py:194-211 | `validate_groq_key` as written; `Security.GroqKeyAccepted` states which keys it accepts, `Security.GroqKeyTrailingNewline` that `$` lets one final newline through |
| Security.GroqKeyAccepted | backend/security.py:194-211 | a Groq key is accepted exactly when it starts with `gsk_`, has at least 20 characters, and is word characters with at most one trailing newline |
| Security.ValidateGeminiKey | backend/security.py:214-226 | `validate_gemini_key` as written; `Security.GeminiKeyAccepted` states which keys it accepts, `Security.GeminiKeyTrailingNewline` that one final newline passes |
| Security.GeminiKeyAccepted | backend/security.py:214-226 | a Gemini key is accepted exactly when it has at least 20 characters and is key characters with at most one trailing newline |
| Security.GroqKeyTrailingNewline | backend/security.py:208 | a Groq key ending in a newline is accepted as written and rejected by the strict check |
| Security.GeminiKeyTrailingNewline | backend/security.py:223 | a Gemini key ending in a newline is accepted as written and rejected by the strict check |
| Security.GroqKeyStrictAgrees | backend/security.py:194-211 | the strict check accepts less, agrees on keys without a trailing newline, and never accepts a newline |
| Security.GeminiKeyStrictAgrees | backend/security.py:214-226 | the strict check accepts less, agrees on keys without a trailing newline, and never accepts a newline |
| Security.SanitizeKey | backend/security.py:229-232 | the result is no longer than the key and holds only key characters |
| Security.SanitizeKeyProperties | backend/security.py:229-232 | a clean key is unchanged, sanitising is idempotent, and it keeps exactly the key characters of the input |
| Security.SanitizedGeminiKey | backend/security.py:214-232 | a sanitised key passes the Gemini check, as written and strictly, exactly when it still has at least 20 characters |
| Security.TagFree | backend/security.py:254 | no `<…>` tag is left in the result; text without a tag is unchanged; the result is never longer and adds no character |
| Security.DeleteTerm | backend/security.py:257-259 | text with no bounded occurrence of the term is unchanged; a match at the scan position shortens the result by at least the term's length; it never lengthens text or adds characters |
| Security.DeleteTerms | backend/security.py:257-259 | text with no bounded occurrence of any term is unchanged; removing the terms in turn never lengthens text or adds characters |
| Security.DeleteTermLeavesNoTerm | backend/security.py:257-259 | one pass of `re.sub(rf'\b{term}\b', '', …)` leaves no bounded occurrence of the term, when the term is all word characters or all other characters: a match covers a whole run of its class, and deleting a run cannot join two others |
| Security.Uniform | backend/security.py:257 | a term made entirely of word characters or entirely of other characters; `Security.DangerousSqlUniform` states every SQL term is one |
| Security.DangerousSqlUniform | backend/security.py:257 | each of `DROP`, `DELETE`, `INSERT`, `UPDATE`, `EXEC`, `UNION`, `SELECT`, `--` and `;--` is all word characters or all other characters |
| Security.SanitizedQuery | backend/security.py:239-264 | what `sanitize_query` returns; `Security.SanitizedQueryProperties` states it is no longer than the query or the limit, has no null byte, no command character and no outer whitespace |
| Security.ValidQueryLength | backend/security.py:267-269 | `min_length <= len(query) <= max_length`; `Security.SanitizedLengthValid` states when a sanitised query passes it |
| Security.SanitizeQuery | backend/security.py:239-264 | the method returns the sanitised query |
| Security.SanitizeQueryWith | backend/security.py:239-264 | the method returns the query sanitised with the given terms |
| Security.JoinRunsLength | backend/security.py:251 | joining the non-space runs with single spaces never lengthens text |
| Security.JoinRunsChars | backend/security.py:251 | joining adds no character except spaces |
| Security.CollapseProperties | backend/security.py:251 | whitespace collapse never lengthens text and adds only spaces |
| Security.StripChars | backend/security.py:264 | stripping adds no character |
| Security.SanitizedWithProperties | backend/security.py:239-264 | empty stays empty; the result is no longer than the query or the maximum, with no NUL, no command character and no surrounding whitespace |
| Security.SanitizedWith | backend/security.py:239-264 | `sanitize_query` for a given SQL term list: cut, NUL removed, whitespace collapsed, tags and terms removed, command characters removed, stripped; `Security.SanitizedWithProperties` states its properties |
| Security.SanitizedQueryProperties | backend/security.py:239-264 | the same for the fixed SQL term list |
| Security.SanitizedLengthValid | backend/security.py:239-269 | a sanitised query passes the length check exactly when it has at least the minimum length |
| Security.DangerousPatterns | backend/security.py:147-158 | the pattern list in its order, each a case-insensitive search; `Security.InputVerdictProperties` states that one of them catches `;`, `|` and `&` |
| Security.InputVerdict | backend/security.py:161-187 | the verdict of the input screen; `Security.InputVerdictProperties` states that only POST, PUT and PATCH bodies are rejected |
| Security.ScreenRequest | backend/security.py:161-187 | the screen returns the verdict for the fixed pattern list |
| Security.ScreenWith | backend/security.py:161-187 | a request is rejected exactly when it is a POST, PUT or PATCH whose readable body matches some pattern |
| Security.InputVerdictProperties | backend/security.py:147-187 | only bodies of POST, PUT and PATCH requests are rejected, and any body with `;`, `|` or `&` is |
| Security.SanitizedHasNoSeparator | backend/security.py:158 | a sanitised query never holds a command separator of the screen (line 262 removes them) |
| RateLimit.After | backend/security.py:92-95 | keeping the entries newer than the cutoff never adds entries (also lines 113-116) |
| RateLimit.TruncInt | backend/security.py:138 | `int()` truncates toward zero |
| RateLimit.RateLimiter.constructor | backend/security.py:79-84 | an empty table, a 60-second cleanup interval and the last cleanup at `now` |
| RateLimit.RateLimiter.CleanupOldEntries | backend/security.py:86-98 | after the interval, every client's old entries are swept and empty clients removed, and the cleanup time advances; otherwise nothing changes |
| RateLimit.RateLimiter.Dispatch | backend/security.py:100-140 | after the sweep, a client at the limit within the last minute is throttled with retry-after 60; otherwise the request is recorded and the headers carry the limit, the remaining count and the reset time |
| RateLimit.RateLimiter.Record | backend/security.py:107-138 | the throttle decision and recording without the sweep |
| RateLimit.SweepStep | backend/security.py:91-97 | one sweep step filters one client and drops it when empty |
| RateLimit.SweptPartDone | backend/security.py:91-97 | sweeping every client yields the cleaned table |
| RateLimit.CleanedSingle | backend/security.py:91-97 | cleaning keeps every entry a single request |
| RateLimit.EntriesOfCleaned | backend/security.py:91-97 | a client's cleaned entries are its entries after the cutoff |
| RateLimit.Total | backend/security.py:117 | the sum of the counts; `RateLimit.TotalSnoc`, `RateLimit.TotalOfSingles` and `RateLimit.ThrottledByCount` state how it grows and that it is the number of requests |
| RateLimit.Cleaned | backend/security.py:91-97 | the table after a sweep; `RateLimit.CleanedProperties` and `RateLimit.EntriesOfCleaned` state what it keeps |
| RateLimit.Swept | backend/security.py:86-97 | the table after `_cleanup_old_entries`; `RateLimit.SweepKeepsWindow` states that a sweep never changes a client's last-minute window |
| RateLimit.CleanedProperties | backend/security.py:91-97 | cleaning removes clients, keeps no empty list, and keeps exactly the entries after the cutoff |
| RateLimit.SweepKeepsWindow | backend/security.py:88-116 | a sweep before `now` never changes a client's last-minute window |
| RateLimit.AdmittedWindow | backend/security.py:113-137 | an admitted request joins its window, and the remaining count stays non-negative |
| RateLimit.AfterIdempotent | backend/security.py:113-116 | filtering by the same cutoff twice is filtering once |
| RateLimit.ThrottledByCount | backend/security.py:117-120 | with single-request entries, the limit check counts requests |
| RateLimit.TotalOfSingles | backend/security.py:117 | the total of single-request entries is their number (line 131 records one each) |
| Cache.Store.Get | backend/cache.py:55 | `GET` answers the lookup |
| Cache.Store.SetEx | backend/cache.py:92 | `SETEX` succeeds exactly for a positive time to live, storing the value with its expiry and touching nothing else |
| Cache.Store.Delete | backend/cache.py:117 | `DEL` removes the key and only it |
| Cache.TtlFor | backend/cache.py:86 | the time to live is positive exactly when none, zero or a positive value is given: only a negative explicit value makes the write fail |
| Cache.CacheManager.constructor | backend/cache.py:15-32 | enabled exactly with both credentials and a client, and bound to the store exactly when enabled |
| Cache.CacheManager.Get | backend/cache.py:39-66 | when enabled and reachable, the store's non-empty unexpired value for the key; otherwise a miss |
| Cache.CacheManager.Set | backend/cache.py:68-99 | succeeds exactly when enabled, reachable and the time to live is positive, and then stores the data under the key with its expiry; otherwise the store is unchanged |
| Cache.CacheManager.Delete | backend/cache.py:101-123 | succeeds exactly when enabled and reachable, and then removes the key; otherwise the store is unchanged |
| Cache.CacheRegistry.GetCache | backend/cache.py:127-135 | the first call builds a valid manager; every later call returns the same one |
| Cache.CacheKey | backend/cache.py:34-37 | the prefix, a colon and the digest of the lower-cased query; `Cache.KeyIgnoresCase` and `Cache.KeyDeterminesPrefix` state what the key depends on |
| Cache.KeyIgnoresCase | backend/cache.py:34-37 | queries that differ only in ASCII case share a key |
| Cache.KeyDeterminesPrefix | backend/cache.py:34-37 | with colon-free prefixes, equal keys mean equal prefixes and equal digests |
| Cache.SetThenLookup | backend/cache.py:92 | a stored value is found until it expires, and other keys are untouched |
| Cache.DeleteThenLookup | backend/cache.py:117 | a deleted key is a miss, and other keys are untouched |
| Cache.SetThenGet | backend/cache.py:68-99 | `get` after `set` within the time to live returns the non-empty data |
| Models.NewSearchRequest | backend/models.py:8-10 | a request exists exactly when the query has 3 to 1000 characters, and it keeps the query |
| Models.Declared | backend/models.py:90-95 | the four declared fields (the three queries and the reasoning) are kept; `intent` and `source_weights` passed as extra keyword arguments are dropped |
| Models.AllStatuses | backend/models.py:20-26 | the five project statuses, each once, in declaration order |
| Models.AllSentiments | backend/models.py:29-34 | the four sentiments, each once, in declaration order |
| Models.ValuesDistinct | backend/models.py:13-34 | the string values of each enumeration are distinct |
| Models.NewGitHubResult | backend/models.py:37-49 | a new GitHub result has the given title and URL and every optional field at its default |
| Models.NewHuggingFaceResult | backend/models.py:52-62 | a new Hugging Face result has the given title and URL and every optional field at its default |
| Models.NewRedditComment | backend/models.py:65-70 | a new comment keeps its author, score and body, with neutral sentiment |
| Models.NewRedditResult | backend/models.py:73-87 | a new Reddit result has the given title, URL and subreddit and every other field at its default |
| Models.NewSearchResults | backend/models.py:98-106 | new search results are empty, with no queries, no synthesis and zero duration |

## Left out

- HTML and JSON parsing are not modelled. The enrichment steps receive their inputs already taken apart: a search hit as `Hit`, a repository page as `RepoPage`, a thread listing as `ThreadJson`, and a failed or unreadable fetch as a `Fetched` value.
- Regular expressions and case handling cover ASCII only. `\w`, `\d`, `\s`, `\b` and `lower()` are modelled for ASCII characters (`\d{4}` at `backend/ranking.py:70` sees only ASCII digits); Unicode word characters, digits and case folding are not modelled. `str.split()` and `str.strip()` split and strip at Latin-1 whitespace only, whereas Python also treats other Unicode spaces as whitespace.
- The network, the search engine, the clock, `math.log10`, `datetime.fromisoformat`, MD5 and `json.loads` are parameters. `log10` is constrained only by `LogLike`: non-negative from 1 on, and monotone.
- The language model calls are not modelled; their replies are parameters. This includes `_build_query_prompt`, `_build_synthesis_prompt`, `get_groq_client` and `get_gemini_model`. A missing client, a raised call and a missing reply are all `None`.
- `get_headers`, the user-agent rotation and `run_ddg_search` are not modelled: they are I/O.
- Logging and `print` calls are not modelled.
- Python's `list.sort` is not modelled directly. Its place is taken by the verified stable insertion sort `StableSort.SortDesc`, which gives the same order.
- asyncio concurrency is not modelled. `asyncio.gather(..., return_exceptions=True)` is modelled sequentially, with each task's outcome given as an `Outcome`: delivered results or `Raised`.
- Exceptions raised midway through an enrichment are not modelled. The outer `try/except` around the record still returns the record. The model covers the fetch outcomes the code tests (status codes, an unreadable body); a record half-updated before an exception is not modelled.
- `SecurityHeadersMiddleware`, the `secure` headers, `setup_security_middleware`, the trusted-host setup, the FastAPI objects and `HealthResponse` are not modelled: they configure the web framework.
- The settings are not modelled. `Settings` is a pydantic `BaseSettings` (`config.py:7-34`), so `cache_ttl_seconds` can be overridden by the `CACHE_TTL_SECONDS` environment variable or the `.env` file; the model uses the default of 600 seconds (`config.py:20`).
- JSON values are modelled only as far as `GeneratedQueries` validation looks at them: a string, `null`, or any other value (`Failover.JsonValue`). Any other value in a query or `reasoning` field fails validation, as pydantic does for a `str` field given a number, a boolean or an array.
- Cache data is held as its JSON text, so the `json.dumps`/`json.loads` round trip is the identity in the model.
- RateLimit.RateLimiter.Dispatch: it uses exact real arithmetic, so does not model floating-point rounding of `time.time()` sums.
- Cache.CacheKey: the digest is a parameter, so the model proves nothing about MD5 collisions.
- Floating-point arithmetic is modelled as exact `real`: the scores of `Ranking` and `Fusion` and the weights of `Intent` are exact. Rounding that could reorder two nearly equal scores in `StableSort.SortDesc` is not modelled, and `Ranking.WarningPenalty` and `Ranking.SpacesBoost` hold exactly only over the reals.
- DeleteTerm: that no bounded occurrence of the term is left is proved (`Security.DeleteTermLeavesNoTerm`) only for a term made entirely of word characters or entirely of other characters; every term of the SQL list is of that kind (`Security.DangerousSqlUniform`), and terms that mix the two are not covered.
- DeleteTerms: does not promise that the result holds no bounded occurrence of any term, because deleting a later term can join text into an earlier one: `--` is removed after `DROP`, so `DR--OP` becomes `DROP`; and `Security.SanitizedWith` removes `;` after all terms, so `DR;OP` becomes `DROP` as well.

## Findings

| source | as written | input that shows it | evidently intended | confidence | as-written member | corrected member |
|---|---|---|---|---|---|---|
| backend/security.py:208 | `re.match(r'^[a-zA-Z0-9_]+$', api_key)` accepts a key with one trailing newline, because `$` also matches before a final `\n` | `"gsk_"` followed by 16 letters and `"\n"` (`Security.NewlineGroqKey`) | only keys made of word characters pass | not executed | Security.GroqKeyTrailingNewline | Security.GroqKeyStrictAgrees |
| backend/security.py:223 | `re.match(r'^[a-zA-Z0-9_-]+$', api_key)` accepts a key with one trailing newline | the same 21-character key ending in `"\n"` | only keys made of key characters pass | not executed | Security.GeminiKeyTrailingNewline | Security.GeminiKeyStrictAgrees |
| backend/ai_logic.py:330-331 | `GeneratedQueries` (`backend/models.py:90-95`) declares four fields, so the `intent` and `source_weights` arguments at lines 297-298 and 323-324 are dropped, and `fallback.intent = intent` raises `ValueError` | neither provider replies (no API keys): `Failover.NoProviderReachesRuleBased` | every tier returns queries carrying the intent and weights, which `backend/main.py:128-129` reads | not executed | Failover.GenerateAsWritten | Failover.GenerateSearchQueries |
