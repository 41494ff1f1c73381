/**
 * What the search layer does with the data it fetches: the project status of
 * a repository from the age of its last update, the keyword sentiment of
 * Reddit text, the URL filters that pick repository, post and model pages
 * out of the web-search hits, the records built from a hit and the fetched
 * pages, and the error list of the parallel search.
 *
 * The web search, the page fetches and the HTML scraping are not modelled:
 * their outcomes are parameters.
 */
module SearchLogic {
  import opened Wrappers
  import opened Text
  import opened Patterns
  import opened Models

  // ---------------------------------------------------------------------
  // determine_project_status
  // ---------------------------------------------------------------------

  const Day: real := 86400.0

  /** The status for a repository last updated `age` seconds ago. */
  function ProjectStatusOf(age: real): (r: ProjectStatus)
    ensures r != Unknown
    ensures r == Active <==> age < 30.0 * Day
    ensures r == Maintained <==> 30.0 * Day <= age < 180.0 * Day
    ensures r == Stale <==> 180.0 * Day <= age < 365.0 * Day
    ensures r == Abandoned <==> 365.0 * Day <= age
  {
    if age < 30.0 * Day then Active
    else if age < 180.0 * Day then Maintained
    else if age < 365.0 * Day then Stale
    else Abandoned
  }

  /** An older repository never gets a better status. */
  lemma ProjectStatusMonotone(a: real, b: real)
    requires a <= b
    ensures ProjectStatusOf(a).Ordinal() <= ProjectStatusOf(b).Ordinal()
  {
  }

  // ---------------------------------------------------------------------
  // analyze_sentiment
  // ---------------------------------------------------------------------

  /**
   * The negative patterns, each as its alternatives in the order the regular
   * expression tries them: `\bdoesn'?t work\b` is "doesn't work" then
   * "doesnt work", `\bbug(?:gy|s)\b` is "buggy" then "bugs".
   */
  const NegativePatterns: seq<seq<string>> := [
    ["doesn't work", "doesnt work"], ["broken"], ["deprecated"], ["abandoned"],
    ["don't use", "dont use"], ["waste of time"], ["terrible"], ["horrible"],
    ["garbage"], ["useless"], ["scam"], ["buggy", "bugs"], ["not maintained"],
    ["no longer works"], ["dead project"]]

  const PositivePatterns: seq<seq<string>> := [
    ["works great"], ["highly recommend"], ["amazing"], ["excellent"], ["perfect"],
    ["awesome"], ["love it", "love this"], ["best"], ["fantastic"]]

  /** How many of the patterns match `s`. */
  function MatchCount(patterns: seq<seq<string>>, s: string): (n: nat)
    ensures n <= |patterns|
  {
    if patterns == [] then 0
    else
      MatchCount(patterns[..|patterns| - 1], s)
      + (if Matches(WordPattern(patterns[|patterns| - 1]), s) then 1 else 0)
  }

  /** The text each matching pattern reports with `group()`, in pattern order. */
  function MatchedTexts(patterns: seq<seq<string>>, s: string): (r: seq<string>)
    ensures forall k :: 0 <= k < |r| ==> Contains(s, r[k])
  {
    if patterns == [] then []
    else
      MatchedTexts(patterns[..|patterns| - 1], s)
      + match FirstWordMatch(patterns[|patterns| - 1], s, 0)
        case Some(w) => [w]
        case None => []
  }

  /** One reported text per matching pattern. */
  lemma {:induction false} MatchedTextsCount(patterns: seq<seq<string>>, s: string)
    ensures |MatchedTexts(patterns, s)| == MatchCount(patterns, s)
  {
    if patterns != [] {
      MatchedTextsCount(patterns[..|patterns| - 1], s);
      FirstWordMatchFinds(patterns[|patterns| - 1], s);
    }
  }

  /** The label and warning text `analyze_sentiment` gives `text`. */
  function SentimentOf(text: string): (SentimentType, Option<string>) {
    var lowered := Lower(text);
    var negative := MatchedTexts(NegativePatterns, lowered);
    var positive := MatchCount(PositivePatterns, lowered);
    if |negative| >= 2 then (Negative, Some("Community concerns: " + Join(", ", Take(negative, 3))))
    else if |negative| > 0 && positive == 0 then (Mixed, Some("Mixed feedback: " + negative[0]))
    else if positive >= 2 then (Positive, None)
    else (Neutral, None)
  }

  /**
   * The classification by counts of matching patterns: two or more negative
   * patterns give NEGATIVE whatever the positive ones say; exactly one and no
   * positive gives MIXED; otherwise two or more positive give POSITIVE.  Only
   * NEGATIVE and MIXED carry a reason; NEGATIVE's lists at most three texts.
   */
  lemma SentimentClassification(text: string)
    ensures var neg, pos := MatchCount(NegativePatterns, Lower(text)), MatchCount(PositivePatterns, Lower(text));
      && (SentimentOf(text).0 == Negative <==> neg >= 2)
      && (SentimentOf(text).0 == Mixed <==> neg == 1 && pos == 0)
      && (SentimentOf(text).0 == Positive <==> neg <= 1 && (neg == 0 || pos > 0) && pos >= 2)
      && (SentimentOf(text).0 == Neutral <==> neg <= 1 && (neg == 0 || pos > 0) && pos < 2)
    ensures SentimentOf(text).1.None? <==> SentimentOf(text).0 in {Positive, Neutral}
    ensures SentimentOf(text).0 == Negative ==>
      SentimentOf(text).1 == Some("Community concerns: " + Join(", ", Take(MatchedTexts(NegativePatterns, Lower(text)), 3)))
  {
    MatchedTextsCount(NegativePatterns, Lower(text));
  }

  /** The loop over the negative patterns, collecting the reported texts. */
  method CollectMatches(patterns: seq<seq<string>>, s: string) returns (matches: seq<string>)
    ensures matches == MatchedTexts(patterns, s)
  {
    matches := [];
    for i := 0 to |patterns|
      invariant matches == MatchedTexts(patterns[..i], s)
    {
      var m := FirstWordMatch(patterns[i], s, 0);
      if m.Some? {
        matches := matches + [m.value];
      }
      assert patterns[..i + 1][..i] == patterns[..i];
    }
    assert patterns[..|patterns|] == patterns;
  }

  /** The loop over the positive patterns, counting the ones that match. */
  method CountMatches(patterns: seq<seq<string>>, s: string) returns (count: nat)
    ensures count == MatchCount(patterns, s)
  {
    count := 0;
    for i := 0 to |patterns|
      invariant count == MatchCount(patterns[..i], s)
    {
      FirstWordMatchFinds(patterns[i], s);
      if FirstWordMatch(patterns[i], s, 0).Some? {
        count := count + 1;
      }
      assert patterns[..i + 1][..i] == patterns[..i];
    }
    assert patterns[..|patterns|] == patterns;
  }

  /** `analyze_sentiment`. */
  method AnalyzeSentiment(text: string) returns (sentiment: SentimentType, reason: Option<string>)
    ensures (sentiment, reason) == SentimentOf(text)
  {
    var textLower := Lower(text);
    var negativeMatches := CollectMatches(NegativePatterns, textLower);
    var positiveCount := CountMatches(PositivePatterns, textLower);
    if |negativeMatches| >= 2 {
      sentiment, reason := Negative, Some("Community concerns: " + Join(", ", Take(negativeMatches, 3)));
    } else if |negativeMatches| > 0 && positiveCount == 0 {
      sentiment, reason := Mixed, Some("Mixed feedback: " + negativeMatches[0]);
    } else if positiveCount >= 2 {
      sentiment, reason := Positive, None;
    } else {
      sentiment, reason := Neutral, None;
    }
  }

  // ---------------------------------------------------------------------
  // The URL filter loops of search_github / search_reddit / search_huggingface
  // ---------------------------------------------------------------------

  /** One web-search hit: its `href`, `title` and `body` entries, when present. */
  datatype Hit = Hit(href: Option<string>, title: Option<string>, body: Option<string>)

  /** `r.get("href", "")`. */
  function Url(h: Hit): string {
    h.href.GetOr("")
  }

  /**
   * The indexes, from `i` on, that a filter loop keeps: a hit is kept when it
   * is accepted and its key has not been seen; the loop stops right after the
   * append that brings the count to `cap`.
   */
  function KeptFrom(hits: seq<Hit>, accept: Hit -> bool, key: Hit -> string,
                    seen: set<string>, count: nat, cap: int, i: nat): seq<nat>
    requires i <= |hits|
    decreases |hits| - i
  {
    if i == |hits| then []
    else if accept(hits[i]) && key(hits[i]) !in seen then
      if count + 1 >= cap then [i]
      else [i] + KeptFrom(hits, accept, key, seen + {key(hits[i])}, count + 1, cap, i + 1)
    else KeptFrom(hits, accept, key, seen, count, cap, i + 1)
  }

  function Kept(hits: seq<Hit>, accept: Hit -> bool, key: Hit -> string, cap: int): seq<nat> {
    KeptFrom(hits, accept, key, {}, 0, cap, 0)
  }

  /** The keys of the hits at `idx`. */
  function KeysAt(hits: seq<Hit>, key: Hit -> string, idx: seq<nat>): set<string> {
    set k | k in idx && k < |hits| :: key(hits[k])
  }

  /** What the kept hits become, in order. */
  function Pick<U>(hits: seq<Hit>, idx: seq<nat>, make: Hit -> U): seq<U>
    requires forall j :: 0 <= j < |idx| ==> idx[j] < |hits|
  {
    if idx == [] then [] else Pick(hits, idx[..|idx| - 1], make) + [make(hits[idx[|idx| - 1]])]
  }

  /** One record per index, built from the hit at that index. */
  lemma {:induction false} PickElements<U>(hits: seq<Hit>, idx: seq<nat>, make: Hit -> U)
    requires forall j :: 0 <= j < |idx| ==> idx[j] < |hits|
    ensures |Pick(hits, idx, make)| == |idx|
    ensures forall j :: 0 <= j < |idx| ==> Pick(hits, idx, make)[j] == make(hits[idx[j]])
  {
    if idx != [] {
      PickElements(hits, idx[..|idx| - 1], make);
    }
  }

  /** Indexes from `i` on, in input order, each accepted, with keys outside `seen` and pairwise distinct. */
  predicate ValidKept(hits: seq<Hit>, accept: Hit -> bool, key: Hit -> string, seen: set<string>, i: nat, r: seq<nat>) {
    && (forall j :: 0 <= j < |r| ==> i <= r[j] < |hits| && accept(hits[r[j]]) && key(hits[r[j]]) !in seen)
    && (forall j, l :: 0 <= j < l < |r| ==> r[j] < r[l] && key(hits[r[j]]) != key(hits[r[l]]))
  }

  /**
   * The kept indexes are in input order, each accepted, with a key seen
   * neither before nor at another kept index.
   */
  lemma {:induction false} KeptFromValid(hits: seq<Hit>, accept: Hit -> bool, key: Hit -> string,
                                         seen: set<string>, count: nat, cap: int, i: nat)
    requires i <= |hits|
    ensures ValidKept(hits, accept, key, seen, i, KeptFrom(hits, accept, key, seen, count, cap, i))
    decreases |hits| - i
  {
    if i < |hits| {
      var r := KeptFrom(hits, accept, key, seen, count, cap, i);
      if accept(hits[i]) && key(hits[i]) !in seen {
        if count + 1 < cap {
          var rest := KeptFrom(hits, accept, key, seen + {key(hits[i])}, count + 1, cap, i + 1);
          KeptFromValid(hits, accept, key, seen + {key(hits[i])}, count + 1, cap, i + 1);
          assert r == [i] + rest;
          forall j | 0 <= j < |r|
            ensures i <= r[j] < |hits| && accept(hits[r[j]]) && key(hits[r[j]]) !in seen
          {
            if j > 0 {
              assert r[j] == rest[j - 1];
            }
          }
          forall j, l | 0 <= j < l < |r|
            ensures r[j] < r[l] && key(hits[r[j]]) != key(hits[r[l]])
          {
            assert r[l] == rest[l - 1];
            if j > 0 {
              assert r[j] == rest[j - 1];
            }
          }
        } else {
          assert r == [i];
        }
      } else {
        KeptFromValid(hits, accept, key, seen, count, cap, i + 1);
        assert r == KeptFrom(hits, accept, key, seen, count, cap, i + 1);
      }
    }
  }

  /** The loop keeps at most `cap - count` hits, and one when `count` already reaches `cap`. */
  lemma {:induction false} KeptFromBound(hits: seq<Hit>, accept: Hit -> bool, key: Hit -> string,
                                         seen: set<string>, count: nat, cap: int, i: nat)
    requires i <= |hits|
    ensures count < cap ==> |KeptFrom(hits, accept, key, seen, count, cap, i)| <= cap - count
    ensures |KeptFrom(hits, accept, key, seen, count, cap, i)| <= 1 || count + 1 < cap
    decreases |hits| - i
  {
    if i < |hits| {
      if accept(hits[i]) && key(hits[i]) !in seen {
        if count + 1 < cap {
          KeptFromBound(hits, accept, key, seen + {key(hits[i])}, count + 1, cap, i + 1);
        }
      } else {
        KeptFromBound(hits, accept, key, seen, count, cap, i + 1);
      }
    }
  }

  /**
   * Nothing accepted is lost unless the cap cut the loop short: when fewer
   * than `cap - count` hits are kept, every accepted hit from `i` on has a
   * key that was seen already or is the key of a kept hit.
   */
  lemma {:induction false} KeptFromComplete(hits: seq<Hit>, accept: Hit -> bool, key: Hit -> string,
                                            seen: set<string>, count: nat, cap: int, i: nat)
    requires i <= |hits|
    requires count + |KeptFrom(hits, accept, key, seen, count, cap, i)| < cap
    ensures forall j :: i <= j < |hits| && accept(hits[j]) ==>
      key(hits[j]) in seen || key(hits[j]) in KeysAt(hits, key, KeptFrom(hits, accept, key, seen, count, cap, i))
    decreases |hits| - i
  {
    if i < |hits| {
      var r := KeptFrom(hits, accept, key, seen, count, cap, i);
      if accept(hits[i]) && key(hits[i]) !in seen {
        var seen' := seen + {key(hits[i])};
        var rest := KeptFrom(hits, accept, key, seen', count + 1, cap, i + 1);
        assert r == [i] + rest;
        KeptFromComplete(hits, accept, key, seen', count + 1, cap, i + 1);
        forall j | i <= j < |hits| && accept(hits[j])
          ensures key(hits[j]) in seen || key(hits[j]) in KeysAt(hits, key, r)
        {
          if j > i && key(hits[j]) !in seen' {
            var k :| k in rest && k < |hits| && key(hits[k]) == key(hits[j]);
            assert k in r;
          }
        }
      } else {
        KeptFromComplete(hits, accept, key, seen, count, cap, i + 1);
      }
    }
  }

  /** The properties of a whole filter loop, started with nothing seen and nothing kept. */
  lemma KeptProperties(hits: seq<Hit>, accept: Hit -> bool, key: Hit -> string, cap: int)
    ensures var r := Kept(hits, accept, key, cap);
      && (forall j :: 0 <= j < |r| ==> r[j] < |hits| && accept(hits[r[j]]))
      && (forall j, l :: 0 <= j < l < |r| ==> r[j] < r[l] && key(hits[r[j]]) != key(hits[r[l]]))
      && (cap >= 1 ==> |r| <= cap)
      && |r| <= (if cap >= 1 then cap else 1)
      && (|r| < cap ==> forall j :: 0 <= j < |hits| && accept(hits[j]) ==> key(hits[j]) in KeysAt(hits, key, r))
  {
    KeptFromValid(hits, accept, key, {}, 0, cap, 0);
    KeptFromBound(hits, accept, key, {}, 0, cap, 0);
    if |Kept(hits, accept, key, cap)| < cap {
      KeptFromComplete(hits, accept, key, {}, 0, cap, 0);
    }
  }

  /** One step of a filter loop, where hit `i` is examined. */
  lemma KeptStep(hits: seq<Hit>, accept: Hit -> bool, key: Hit -> string, seen: set<string>,
                 count: nat, cap: int, i: nat)
    requires i < |hits|
    ensures accept(hits[i]) && key(hits[i]) !in seen && count + 1 >= cap ==>
      KeptFrom(hits, accept, key, seen, count, cap, i) == [i]
    ensures accept(hits[i]) && key(hits[i]) !in seen && count + 1 < cap ==>
      KeptFrom(hits, accept, key, seen, count, cap, i)
      == [i] + KeptFrom(hits, accept, key, seen + {key(hits[i])}, count + 1, cap, i + 1)
    ensures !(accept(hits[i]) && key(hits[i]) !in seen) ==>
      KeptFrom(hits, accept, key, seen, count, cap, i) == KeptFrom(hits, accept, key, seen, count, cap, i + 1)
  {
  }

  /**
   * The state of a filter loop before hit `i`: the indexes `kept` so far,
   * their records `out`, and what the rest of the scan keeps from `seen`.
   */
  ghost predicate OnTrack<U>(hits: seq<Hit>, accept: Hit -> bool, key: Hit -> string, make: Hit -> U, cap: int,
                       seen: set<string>, kept: seq<nat>, i: nat, out: seq<U>) {
    && i <= |hits|
    && (forall j :: 0 <= j < |kept| ==> kept[j] < |hits|)
    && Kept(hits, accept, key, cap) == kept + KeptFrom(hits, accept, key, seen, |kept|, cap, i)
    && out == Pick(hits, kept, make)
  }

  lemma OnTrackStart<U>(hits: seq<Hit>, accept: Hit -> bool, key: Hit -> string, make: Hit -> U, cap: int)
    ensures OnTrack(hits, accept, key, make, cap, {}, [], 0, [])
  {
  }

  /** At the end of the scan the records are the filter's result. */
  lemma OnTrackDone<U>(hits: seq<Hit>, accept: Hit -> bool, key: Hit -> string, make: Hit -> U, cap: int,
                       seen: set<string>, kept: seq<nat>, out: seq<U>)
    requires OnTrack(hits, accept, key, make, cap, seen, kept, |hits|, out)
    ensures out == Filtered(hits, accept, key, make, cap)
  {
    assert kept + [] == kept;
  }

  /** Keeping hit `i` appends its record; once `cap` records are kept they are the filter's result. */
  lemma KeepNext<U>(hits: seq<Hit>, accept: Hit -> bool, key: Hit -> string, make: Hit -> U, cap: int,
                    seen: set<string>, kept: seq<nat>, i: nat, out: seq<U>)
    requires OnTrack(hits, accept, key, make, cap, seen, kept, i, out)
    requires i < |hits| && accept(hits[i]) && key(hits[i]) !in seen
    ensures |out + [make(hits[i])]| == |kept| + 1
    ensures |kept| + 1 >= cap ==> out + [make(hits[i])] == Filtered(hits, accept, key, make, cap)
    ensures |kept| + 1 < cap ==>
      OnTrack(hits, accept, key, make, cap, seen + {key(hits[i])}, kept + [i], i + 1, out + [make(hits[i])])
  {
    KeptStep(hits, accept, key, seen, |kept|, cap, i);
    PickSnoc(hits, kept, i, make);
    PickElements(hits, kept, make);
    ConcatAssoc(kept, [i], KeptFrom(hits, accept, key, seen + {key(hits[i])}, |kept| + 1, cap, i + 1));
  }

  /** Skipping hit `i`, because it is not accepted or its key was seen, changes nothing else. */
  lemma SkipNext<U>(hits: seq<Hit>, accept: Hit -> bool, key: Hit -> string, make: Hit -> U, cap: int,
                    seen: set<string>, kept: seq<nat>, i: nat, out: seq<U>)
    requires OnTrack(hits, accept, key, make, cap, seen, kept, i, out)
    requires i < |hits| && !(accept(hits[i]) && key(hits[i]) !in seen)
    ensures OnTrack(hits, accept, key, make, cap, seen, kept, i + 1, out)
  {
    KeptStep(hits, accept, key, seen, |kept|, cap, i);
  }

  // GitHub repository pages: `github\.com/([^/]+)/([^/]+)/?$`

  /**
   * `([^/]+)/([^/]+)/?$` against the text after `github.com/`: two segments
   * without `/`, then an optional `/`; `$` also matches before a final newline.
   */
  function OwnerRepoTail(rest: string): (r: Option<(string, string)>)
    ensures r.Some? ==> |r.value.0| > 0 && |r.value.1| > 0 && '/' !in r.value.0 && '/' !in r.value.1
    ensures r.Some? ==> || rest == r.value.0 + "/" + r.value.1
                        || rest == r.value.0 + "/" + r.value.1 + "/"
                        || rest == r.value.0 + "/" + r.value.1 + "/\n"
  {
    var owner := CutAt(rest, '/');
    if |owner| == 0 || |owner| == |rest| then None
    else
      var after := rest[|owner| + 1..];
      var repo := CutAt(after, '/');
      if |repo| == 0 then None
      else if |repo| == |after| then Some((owner, repo))
      else if after[|repo|..] == "/" || after[|repo|..] == "/\n" then
        assert rest == owner + "/" + repo + after[|repo|..] by {
          assert rest == owner + "/" + after;
          assert after == repo + after[|repo|..];
        }
        Some((owner, repo))
      else None
  }

  /**
   * Every such tail matches, with its two segments as the groups; a newline
   * directly after the repository belongs to the second group.
   */
  lemma OwnerRepoTailAccepts(owner: string, repo: string, end: string)
    requires |owner| > 0 && |repo| > 0 && '/' !in owner && '/' !in repo
    requires end in {"", "/", "/\n"}
    ensures OwnerRepoTail(owner + "/" + repo + end) == Some((owner, repo))
  {
    var rest := owner + "/" + repo + end;
    CutAtPrefix(owner, '/', repo + end);
    assert rest == owner + ['/'] + (repo + end);
    var after := rest[|owner| + 1..];
    assert after == repo + end;
    if end == "" {
      assert after == repo;
    } else {
      assert after == repo + ['/'] + end[1..];
      CutAtPrefix(repo, '/', end[1..]);
    }
  }

  /** The groups of the leftmost match of the repository pattern, scanning from `i`. */
  function RepoMatchFrom(url: string, i: nat): Option<(string, string)>
    decreases |url| - i
  {
    if i + 11 > |url| then None
    else if OccursAt(url, "github.com/", i) && OwnerRepoTail(url[i + 11..]).Some? then OwnerRepoTail(url[i + 11..])
    else RepoMatchFrom(url, i + 1)
  }

  function RepoMatch(url: string): Option<(string, string)> {
    RepoMatchFrom(url, 0)
  }

  const ExcludedGitHubPaths: seq<string> :=
    ["/blob/", "/tree/", "/issues/", "/pull/", "/wiki/", "/discussions/", "/actions/"]

  /** A repository front page: the pattern matches and none of the excluded paths occurs. */
  predicate IsRepoPage(h: Hit) {
    RepoMatch(Url(h)).Some? && ContainsNone(Url(h), ExcludedGitHubPaths)
  }

  /** None of `subs` occurs in `s`. */
  predicate ContainsNone(s: string, subs: seq<string>)
    ensures ContainsNone(s, subs) <==> forall k :: 0 <= k < |subs| ==> !Contains(s, subs[k])
  {
    subs == [] || (!Contains(s, subs[0]) && ContainsNone(s, subs[1..]))
  }

  /** The lower-cased `owner/repo`. */
  function RepoId(h: Hit): string {
    match RepoMatch(Url(h))
    case Some((owner, repo)) => Lower(owner + "/" + repo)
    case None => ""
  }

  function IsRepoPageFn(): Hit -> bool { (h: Hit) => IsRepoPage(h) }
  function RepoIdFn(): Hit -> string { (h: Hit) => RepoId(h) }
  function SameHit(): Hit -> Hit { (h: Hit) => h }

  /** What a filter loop returns: the kept hits, each turned into a result by `make`. */
  function Filtered<U>(hits: seq<Hit>, accept: Hit -> bool, key: Hit -> string, make: Hit -> U, cap: int): seq<U> {
    KeptFromValid(hits, accept, key, {}, 0, cap, 0);
    Pick(hits, Kept(hits, accept, key, cap), make)
  }

  lemma ConcatAssoc<T>(a: seq<T>, b: seq<T>, c: seq<T>)
    ensures (a + b) + c == a + (b + c)
  {
  }

  /** Appending the result for one more kept hit. */
  lemma PickSnoc<U>(hits: seq<Hit>, idx: seq<nat>, i: nat, make: Hit -> U)
    requires forall j :: 0 <= j < |idx| ==> idx[j] < |hits|
    requires i < |hits|
    ensures Pick(hits, idx + [i], make) == Pick(hits, idx, make) + [make(hits[i])]
  {
    assert (idx + [i])[..|idx|] == idx;
  }

  /** The hits the GitHub loop keeps for `max_results`. */
  function GitHubFiltered(hits: seq<Hit>, maxResults: int): seq<Hit> {
    Filtered(hits, IsRepoPageFn(), RepoIdFn(), SameHit(), maxResults * 2)
  }

  /**
   * The filter loop of `search_github`, for the page test `accept` and the
   * repository identifier `key`: the first hit of every accepted key, in
   * order, stopping once `cap` are kept.
   */
  method KeepDistinct(searchResults: seq<Hit>, accept: Hit -> bool, key: Hit -> string, cap: int)
    returns (filtered: seq<Hit>)
    ensures filtered == Filtered(searchResults, accept, key, SameHit(), cap)
  {
    ghost var make := SameHit();
    filtered := [];
    var seenRepos: set<string> := {};
    ghost var kept: seq<nat> := [];
    OnTrackStart(searchResults, accept, key, make, cap);
    var i: nat := 0;
    while i < |searchResults|
      invariant OnTrack(searchResults, accept, key, make, cap, seenRepos, kept, i, filtered)
    {
      var r := searchResults[i];
      if accept(r) && key(r) !in seenRepos {
        var repoId := key(r);
        KeepNext(searchResults, accept, key, make, cap, seenRepos, kept, i, filtered);
        assert make(searchResults[i]) == r;
        seenRepos := seenRepos + {repoId};
        filtered := filtered + [r];
        kept := kept + [i];
        if |filtered| >= cap {
          break;
        }
      } else {
        SkipNext(searchResults, accept, key, make, cap, seenRepos, kept, i, filtered);
      }
      i := i + 1;
    }
    if i == |searchResults| {
      OnTrackDone(searchResults, accept, key, make, cap, seenRepos, kept, filtered);
    }
  }

  /** `search_github`'s filter: repository front pages, one per lower-cased `owner/repo`, at most `2 * max_results`. */
  method FilterGitHubHits(searchResults: seq<Hit>, maxResults: int) returns (filtered: seq<Hit>)
    ensures filtered == GitHubFiltered(searchResults, maxResults)
  {
    filtered := KeepDistinct(searchResults, IsRepoPageFn(), RepoIdFn(), maxResults * 2);
  }

  // Reddit post pages: `reddit\.com/r/([^/]+)/comments/([^/]+)`

  /** The post pattern matches at index `i`. */
  predicate PostAt(url: string, i: nat) {
    && OccursAt(url, "reddit.com/r/", i)
    && var rest := url[i + 13..];
       var sub := CutAt(rest, '/');
       && |sub| > 0
       && OccursAt(rest, "/comments/", |sub|)
       && |sub| + 10 < |rest|
       && rest[|sub| + 10] != '/'
  }

  predicate IsPostUrl(url: string) {
    exists i | 0 <= i <= |url| :: PostAt(url, i)
  }

  /** Not a user page, and a post of some subreddit. */
  predicate IsPostPage(h: Hit) {
    !Contains(Url(h), "/user/") && !Contains(Url(h), "/u/") && IsPostUrl(Url(h))
  }

  /** `url.split("#")[0].split("?")[0]`. */
  function BaseUrl(h: Hit): (r: string)
    ensures '#' !in r && '?' !in r && r <= Url(h)
  {
    CutAt(CutAt(Url(h), '#'), '?')
  }

  /** The hit with `href` replaced by its base URL. */
  function WithBaseUrl(h: Hit): Hit {
    h.(href := Some(BaseUrl(h)))
  }

  function IsPostPageFn(): Hit -> bool { (h: Hit) => IsPostPage(h) }
  function BaseUrlFn(): Hit -> string { (h: Hit) => BaseUrl(h) }
  function WithBaseUrlFn(): Hit -> Hit { (h: Hit) => WithBaseUrl(h) }

  /** The hits the Reddit loop keeps for `max_results`, with their base URLs. */
  function RedditFiltered(hits: seq<Hit>, maxResults: int): seq<Hit> {
    Filtered(hits, IsPostPageFn(), BaseUrlFn(), WithBaseUrlFn(), maxResults * 2)
  }

  /** The filter loop of `search_reddit`. */
  method FilterRedditHits(searchResults: seq<Hit>, maxResults: int) returns (filtered: seq<Hit>)
    ensures filtered == RedditFiltered(searchResults, maxResults)
  {
    var accept, key, make, cap := IsPostPageFn(), BaseUrlFn(), WithBaseUrlFn(), maxResults * 2;
    filtered := [];
    var seenUrls: set<string> := {};
    ghost var kept: seq<nat> := [];
    OnTrackStart(searchResults, accept, key, make, cap);
    var i: nat := 0;
    while i < |searchResults|
      invariant OnTrack(searchResults, accept, key, make, cap, seenUrls, kept, i, filtered)
    {
      var r := searchResults[i];
      var url := Url(r);
      if Contains(url, "/user/") || Contains(url, "/u/") {
        SkipNext(searchResults, accept, key, make, cap, seenUrls, kept, i, filtered);
        i := i + 1;
        continue;
      }
      var baseUrl := CutAt(CutAt(url, '#'), '?');
      assert accept(r) == IsPostUrl(url) && key(r) == baseUrl;
      if IsPostUrl(url) && baseUrl !in seenUrls {
        KeepNext(searchResults, accept, key, make, cap, seenUrls, kept, i, filtered);
        seenUrls := seenUrls + {baseUrl};
        var rCopy := r.(href := Some(baseUrl));
        filtered := filtered + [rCopy];
        kept := kept + [i];
        if |filtered| >= maxResults * 2 {
          break;
        }
      } else {
        SkipNext(searchResults, accept, key, make, cap, seenUrls, kept, i, filtered);
      }
      i := i + 1;
    }
    if i == |searchResults| {
      OnTrackDone(searchResults, accept, key, make, cap, seenUrls, kept, filtered);
    }
  }

  // Hugging Face model and Space pages: `huggingface\.co/([^/]+/[^/]+|spaces/[^/]+/[^/]+)/?$`

  predicate HfTail(rest: string) {
    OwnerRepoTail(rest).Some? || (StartsWith(rest, "spaces/") && OwnerRepoTail(rest[7..]).Some?)
  }

  predicate IsModelUrl(url: string) {
    exists i | 0 <= i <= |url| :: OccursAt(url, "huggingface.co/", i) && HfTail(url[i + 15..])
  }

  /**
   * The hits the loop skips without the pattern check passing: blog, docs
   * and posts pages, and pages outside datasets, models and Spaces.
   */
  predicate NeedsModelPattern(url: string) {
    || Contains(url, "/blog") || Contains(url, "/docs") || Contains(url, "/posts")
    || (!Contains(url, "/datasets") && !Contains(url, "/models") && !Contains(url, "/spaces"))
  }

  predicate IsModelPage(h: Hit) {
    !NeedsModelPattern(Url(h)) || IsModelUrl(Url(h))
  }

  const PipelineTags: seq<string> := [
    "text-generation", "text2text-generation", "text-classification",
    "token-classification", "question-answering", "summarization",
    "translation", "conversational",
    "image-classification", "image-segmentation", "object-detection",
    "image-to-text", "text-to-image", "image-to-image",
    "audio-classification", "audio-to-audio", "automatic-speech-recognition",
    "text-to-speech", "voice-activity-detection",
    "zero-shot-classification", "feature-extraction"]

  /** A tag names the page when its spaced form is in the description or the tag itself is in the URL. */
  predicate TagFits(tag: string, descLower: string, urlLower: string) {
    Contains(descLower, ReplaceAll(tag, "-", " ")) || Contains(urlLower, tag)
  }

  /** The first tag, in list order, that fits. */
  function FirstTag(tags: seq<string>, descLower: string, urlLower: string): Option<string> {
    if tags == [] then None
    else if TagFits(tags[0], descLower, urlLower) then Some(tags[0])
    else FirstTag(tags[1..], descLower, urlLower)
  }

  /** No tag fits exactly when there is none; otherwise the result fits and no earlier tag does. */
  lemma {:induction false} FirstTagFirst(tags: seq<string>, descLower: string, urlLower: string)
    ensures FirstTag(tags, descLower, urlLower).None? <==> forall k :: 0 <= k < |tags| ==> !TagFits(tags[k], descLower, urlLower)
    ensures FirstTag(tags, descLower, urlLower).Some? ==>
      exists k :: 0 <= k < |tags| && FirstTag(tags, descLower, urlLower).value == tags[k]
                  && TagFits(tags[k], descLower, urlLower)
                  && forall j :: 0 <= j < k ==> !TagFits(tags[j], descLower, urlLower)
  {
    if tags != [] && !TagFits(tags[0], descLower, urlLower) {
      FirstTagFirst(tags[1..], descLower, urlLower);
      assert forall k :: 0 <= k < |tags[1..]| ==> tags[1..][k] == tags[k + 1];
      if FirstTag(tags, descLower, urlLower).Some? {
        var k :| 0 <= k < |tags[1..]| && FirstTag(tags, descLower, urlLower).value == tags[1..][k]
                 && TagFits(tags[1..][k], descLower, urlLower)
                 && forall j :: 0 <= j < k ==> !TagFits(tags[1..][j], descLower, urlLower);
        assert forall j :: 0 <= j < k + 1 ==> !TagFits(tags[j], descLower, urlLower) by {
          forall j | 0 <= j < k + 1 ensures !TagFits(tags[j], descLower, urlLower) {
            if j > 0 { assert tags[j] == tags[1..][j - 1]; }
          }
        }
      }
    }
  }

  /** The loop over the tag list, stopping at the first that fits. */
  method DetectPipelineTag(tags: seq<string>, descLower: string, urlLower: string) returns (pipelineTag: Option<string>)
    ensures pipelineTag == FirstTag(tags, descLower, urlLower)
  {
    pipelineTag := None;
    var i: nat := 0;
    while i < |tags|
      invariant 0 <= i <= |tags|
      invariant FirstTag(tags[i..], descLower, urlLower) == FirstTag(tags, descLower, urlLower)
    {
      var tag := tags[i];
      var tagSearch := ReplaceAll(tag, "-", " ");
      if Contains(descLower, tagSearch) || Contains(urlLower, tag) {
        pipelineTag := Some(tag);
        return;
      }
      assert tags[i..][1..] == tags[i + 1..];
      i := i + 1;
    }
  }

  /** The title without the " | Hugging Face" and " - Hugging Face" suffixes, or "Unknown Model". */
  function ModelTitle(h: Hit): (r: string)
    ensures r != ""
  {
    var t := Strip(ReplaceAll(ReplaceAll(h.title.GetOr(""), " | Hugging Face", ""), " - Hugging Face", ""));
    if t == "" then "Unknown Model" else t
  }

  /** `description[:300] if description else None`. */
  function ShortDescription(body: Option<string>): (r: Option<string>)
    ensures r.None? <==> body.None? || body.value == ""
    ensures r.Some? ==> |r.value| <= 300 && r.value <= body.value
    ensures r.Some? ==> |r.value| == (if |body.value| < 300 then |body.value| else 300)
  {
    if body.Some? && body.value != "" then Some(Take(body.value, 300)) else None
  }

  /** The record the Hugging Face loop builds from a hit. */
  function ModelRecord(h: Hit, tags: seq<string>): HuggingFaceResult {
    var url := Url(h);
    var description := h.body.GetOr("");
    var spacesUrl := if Contains(Lower(url), "/spaces/") then Some(url) else None;
    NewHuggingFaceResult(ModelTitle(h), url).(
      description := ShortDescription(h.body),
      pipelineTag := FirstTag(tags, Lower(description), Lower(url)),
      spacesUrl := spacesUrl)
  }

  /**
   * The record keeps the page URL and has a title; it links the Space exactly
   * when the URL is a Space's; its pipeline tag is the first fitting one; and
   * the counts the search page does not show stay unset.
   */
  lemma ModelRecordFields(h: Hit, tags: seq<string>)
    ensures ModelRecord(h, tags).url == Url(h) && ModelRecord(h, tags).title != ""
    ensures ModelRecord(h, tags).spacesUrl.Some? <==> Contains(Lower(Url(h)), "/spaces/")
    ensures ModelRecord(h, tags).spacesUrl.Some? ==> ModelRecord(h, tags).spacesUrl.value == Url(h)
    ensures ModelRecord(h, tags).pipelineTag == FirstTag(tags, Lower(h.body.GetOr("")), Lower(Url(h)))
    ensures ModelRecord(h, tags).description == ShortDescription(h.body)
    ensures ModelRecord(h, tags).downloads.None? && ModelRecord(h, tags).likes.None? && ModelRecord(h, tags).modelType.None?
  {
  }

  function IsModelPageFn(): Hit -> bool { (h: Hit) => IsModelPage(h) }
  function UrlFn(): Hit -> string { (h: Hit) => Url(h) }

  /** `[f(x) for x in xs]`. */
  function Map<T, U>(xs: seq<T>, f: T -> U): (r: seq<U>)
    ensures |r| == |xs|
  {
    if xs == [] then [] else Map(xs[..|xs| - 1], f) + [f(xs[|xs| - 1])]
  }

  lemma MapSnoc<T, U>(xs: seq<T>, x: T, f: T -> U)
    ensures Map(xs + [x], f) == Map(xs, f) + [f(x)]
  {
    assert (xs + [x])[..|xs|] == xs;
  }

  lemma {:induction false} MapElements<T, U>(xs: seq<T>, f: T -> U)
    ensures |Map(xs, f)| == |xs|
    ensures forall j :: 0 <= j < |xs| ==> Map(xs, f)[j] == f(xs[j])
  {
    if xs != [] {
      MapElements(xs[..|xs| - 1], f);
    }
  }

  function RecordFn(tags: seq<string>): Hit -> HuggingFaceResult { (h: Hit) => ModelRecord(h, tags) }

  /** The hits `search_huggingface` keeps: model or Space pages, one per URL. */
  function ModelHits(hits: seq<Hit>, maxResults: int): seq<Hit> {
    Filtered(hits, IsModelPageFn(), UrlFn(), SameHit(), maxResults * 2)
  }

  /** What `search_huggingface` returns for the search hits, cut to `2 * max_results`. */
  function HuggingFaceFound(hits: seq<Hit>, maxResults: int): seq<HuggingFaceResult> {
    HuggingFaceFoundWith(hits, maxResults, PipelineTags)
  }

  /** The loop body's record construction. */
  method BuildModelRecord(r: Hit, tags: seq<string>) returns (record: HuggingFaceResult)
    ensures record == ModelRecord(r, tags)
  {
    var url := Url(r);
    var title := Strip(ReplaceAll(ReplaceAll(r.title.GetOr(""), " | Hugging Face", ""), " - Hugging Face", ""));
    var description := r.body.GetOr("");
    var isSpace := Contains(Lower(url), "/spaces/");
    var spacesUrl := if isSpace then Some(url) else None;
    var descLower := Lower(description);
    var urlLower := Lower(url);
    var pipelineTag := DetectPipelineTag(tags, descLower, urlLower);
    record := NewHuggingFaceResult(if title == "" then "Unknown Model" else title, url).(
      description := if description != "" then Some(Take(description, 300)) else None,
      pipelineTag := pipelineTag,
      spacesUrl := spacesUrl);
  }

  /** The filter loop of `search_huggingface`, over the tag list `tags`. */
  method CollectModelRecords(searchResults: seq<Hit>, maxResults: int, tags: seq<string>) returns (results: seq<HuggingFaceResult>)
    ensures results == Map(ModelHits(searchResults, maxResults), RecordFn(tags))
  {
    var accept, key, cap := IsModelPageFn(), UrlFn(), maxResults * 2;
    results := [];
    var seenUrls: set<string> := {};
    ghost var kept: seq<nat> := [];
    ghost var keptHits: seq<Hit> := [];
    OnTrackStart(searchResults, accept, key, SameHit(), cap);
    var i: nat := 0;
    while i < |searchResults|
      invariant OnTrack(searchResults, accept, key, SameHit(), cap, seenUrls, kept, i, keptHits)
      invariant results == Map(keptHits, RecordFn(tags))
    {
      var r := searchResults[i];
      var url := Url(r);
      var skip := NeedsModelPattern(url) && !IsModelUrl(url);
      assert skip == !accept(r);
      if skip {
        SkipNext(searchResults, accept, key, SameHit(), cap, seenUrls, kept, i, keptHits);
        i := i + 1;
        continue;
      }
      if url !in seenUrls {
        KeepNext(searchResults, accept, key, SameHit(), cap, seenUrls, kept, i, keptHits);
        seenUrls := seenUrls + {url};
        var record := BuildModelRecord(r, tags);
        MapSnoc(keptHits, r, RecordFn(tags));
        results := results + [record];
        kept := kept + [i];
        keptHits := keptHits + [r];
        if |results| >= maxResults * 2 {
          break;
        }
      } else {
        SkipNext(searchResults, accept, key, SameHit(), cap, seenUrls, kept, i, keptHits);
      }
      i := i + 1;
    }
    if i == |searchResults| {
      OnTrackDone(searchResults, accept, key, SameHit(), cap, seenUrls, kept, keptHits);
    }
  }

  /** `search_huggingface` from its search hits: the loop, then the cut to `2 * max_results`. */
  method SearchHuggingFaceHits(searchResults: seq<Hit>, maxResults: int) returns (results: seq<HuggingFaceResult>)
    ensures results == HuggingFaceFound(searchResults, maxResults)
  {
    results := CollectModelRecords(searchResults, maxResults, PipelineTags);
    results := Prefix(results, maxResults * 2);
  }

  // What each filter keeps

  /** The records are those of the kept indexes, in order. */
  lemma FilteredElements<U>(hits: seq<Hit>, accept: Hit -> bool, key: Hit -> string, make: Hit -> U, cap: int)
    ensures |Filtered(hits, accept, key, make, cap)| == |Kept(hits, accept, key, cap)|
    ensures forall j :: 0 <= j < |Kept(hits, accept, key, cap)| ==>
      && Kept(hits, accept, key, cap)[j] < |hits|
      && accept(hits[Kept(hits, accept, key, cap)[j]])
      && Filtered(hits, accept, key, make, cap)[j] == make(hits[Kept(hits, accept, key, cap)[j]])
  {
    KeptProperties(hits, accept, key, cap);
    PickElements(hits, Kept(hits, accept, key, cap), make);
  }

  /** No two records share a key, read back from a record by `keyOut`. */
  lemma FilteredDistinct<U>(hits: seq<Hit>, accept: Hit -> bool, key: Hit -> string, make: Hit -> U,
                            keyOut: U -> string, cap: int)
    requires forall x :: keyOut(make(x)) == key(x)
    ensures forall j, l :: 0 <= j < l < |Filtered(hits, accept, key, make, cap)| ==>
      keyOut(Filtered(hits, accept, key, make, cap)[j]) != keyOut(Filtered(hits, accept, key, make, cap)[l])
  {
    var idx := Kept(hits, accept, key, cap);
    var f := Filtered(hits, accept, key, make, cap);
    FilteredElements(hits, accept, key, make, cap);
    KeptProperties(hits, accept, key, cap);
    forall j, l | 0 <= j < l < |f|
      ensures keyOut(f[j]) != keyOut(f[l])
    {
      assert keyOut(f[j]) == key(hits[idx[j]]) && keyOut(f[l]) == key(hits[idx[l]]);
    }
  }

  /** There are at most `cap` records, or one when `cap` is below one. */
  lemma FilteredBound<U>(hits: seq<Hit>, accept: Hit -> bool, key: Hit -> string, make: Hit -> U, cap: int)
    ensures |Filtered(hits, accept, key, make, cap)| <= if cap >= 1 then cap else 1
  {
    FilteredElements(hits, accept, key, make, cap);
    KeptProperties(hits, accept, key, cap);
  }

  /** Short of `cap` records, every accepted hit's key is among them. */
  lemma FilteredComplete<U>(hits: seq<Hit>, accept: Hit -> bool, key: Hit -> string, make: Hit -> U,
                            keyOut: U -> string, cap: int)
    requires forall x :: keyOut(make(x)) == key(x)
    ensures |Filtered(hits, accept, key, make, cap)| < cap ==>
      forall k :: 0 <= k < |hits| && accept(hits[k]) ==>
        exists j :: 0 <= j < |Filtered(hits, accept, key, make, cap)| && keyOut(Filtered(hits, accept, key, make, cap)[j]) == key(hits[k])
  {
    var idx := Kept(hits, accept, key, cap);
    var f := Filtered(hits, accept, key, make, cap);
    FilteredElements(hits, accept, key, make, cap);
    KeptProperties(hits, accept, key, cap);
    if |f| < cap {
      forall k | 0 <= k < |hits| && accept(hits[k])
        ensures exists j :: 0 <= j < |f| && keyOut(f[j]) == key(hits[k])
      {
        assert key(hits[k]) in KeysAt(hits, key, idx);
        var k' :| k' in idx && k' < |hits| && key(hits[k']) == key(hits[k]);
        var j :| 0 <= j < |idx| && idx[j] == k';
        assert keyOut(f[j]) == key(hits[k]);
      }
    }
  }

  /**
   * `search_github` keeps repository pages, one per repository, at most
   * `2 * max_results` of them. Short of that limit, no repository among the
   * hits is missing.
   */
  lemma GitHubFilteredProperties(hits: seq<Hit>, maxResults: int)
    ensures forall j :: 0 <= j < |GitHubFiltered(hits, maxResults)| ==>
      GitHubFiltered(hits, maxResults)[j] in hits && IsRepoPage(GitHubFiltered(hits, maxResults)[j])
    ensures forall j, l :: 0 <= j < l < |GitHubFiltered(hits, maxResults)| ==>
      RepoId(GitHubFiltered(hits, maxResults)[j]) != RepoId(GitHubFiltered(hits, maxResults)[l])
    ensures maxResults >= 1 ==> |GitHubFiltered(hits, maxResults)| <= 2 * maxResults
    ensures |GitHubFiltered(hits, maxResults)| < 2 * maxResults ==>
      forall h :: h in hits && IsRepoPage(h) ==>
        exists j :: 0 <= j < |GitHubFiltered(hits, maxResults)| && RepoId(GitHubFiltered(hits, maxResults)[j]) == RepoId(h)
  {
    var accept, key, cap := IsRepoPageFn(), RepoIdFn(), maxResults * 2;
    FilteredElements(hits, accept, key, SameHit(), cap);
    FilteredDistinct(hits, accept, key, SameHit(), key, cap);
    FilteredBound(hits, accept, key, SameHit(), cap);
    FilteredComplete(hits, accept, key, SameHit(), key, cap);
    var f := GitHubFiltered(hits, maxResults);
    var idx := Kept(hits, accept, key, cap);
    forall j | 0 <= j < |f|
      ensures f[j] in hits && IsRepoPage(f[j])
    {
      assert f[j] == hits[idx[j]];
    }
    if |f| < cap {
      forall h | h in hits && IsRepoPage(h)
        ensures exists j :: 0 <= j < |f| && RepoId(f[j]) == RepoId(h)
      {
        var k :| 0 <= k < |hits| && hits[k] == h;
        assert accept(hits[k]);
        var j :| 0 <= j < |f| && key(f[j]) == key(hits[k]);
      }
    }
  }

  /**
   * `search_reddit` keeps post pages that are not user pages. Each comes
   * with its URL cut to the base URL, one per base URL, at most
   * `2 * max_results` of them.
   */
  lemma RedditFilteredProperties(hits: seq<Hit>, maxResults: int)
    ensures forall j :: 0 <= j < |RedditFiltered(hits, maxResults)| ==>
      exists k :: 0 <= k < |hits| && IsPostPage(hits[k]) && RedditFiltered(hits, maxResults)[j] == WithBaseUrl(hits[k])
    ensures forall j :: 0 <= j < |RedditFiltered(hits, maxResults)| ==>
      '#' !in Url(RedditFiltered(hits, maxResults)[j]) && '?' !in Url(RedditFiltered(hits, maxResults)[j])
    ensures forall j, l :: 0 <= j < l < |RedditFiltered(hits, maxResults)| ==>
      Url(RedditFiltered(hits, maxResults)[j]) != Url(RedditFiltered(hits, maxResults)[l])
    ensures maxResults >= 1 ==> |RedditFiltered(hits, maxResults)| <= 2 * maxResults
  {
    var accept, key, cap := IsPostPageFn(), BaseUrlFn(), maxResults * 2;
    FilteredElements(hits, accept, key, WithBaseUrlFn(), cap);
    FilteredDistinct(hits, accept, key, WithBaseUrlFn(), UrlFn(), cap);
    FilteredBound(hits, accept, key, WithBaseUrlFn(), cap);
    var f := RedditFiltered(hits, maxResults);
    var idx := Kept(hits, accept, key, cap);
    forall j | 0 <= j < |f|
      ensures exists k :: 0 <= k < |hits| && IsPostPage(hits[k]) && f[j] == WithBaseUrl(hits[k])
      ensures '#' !in Url(f[j]) && '?' !in Url(f[j])
    {
      var k := idx[j];
      assert accept(hits[k]) && f[j] == WithBaseUrl(hits[k]);
      assert Url(WithBaseUrl(hits[k])) == BaseUrl(hits[k]);
    }
  }

  /**
   * `[f(x) for x in xs][:max_results * 2]` over a filter result of at most
   * `2 * max_results` hits (one when that is below one): at most
   * `2 * max_results` results, none when `max_results` is below one, each the
   * image of the hit at its place.
   */
  lemma CappedMap<T, U>(xs: seq<T>, f: T -> U, maxResults: int)
    requires |xs| <= if maxResults * 2 >= 1 then maxResults * 2 else 1
    ensures |Prefix(Map(xs, f), maxResults * 2)| <= if maxResults >= 1 then 2 * maxResults else 0
    ensures |Prefix(Map(xs, f), maxResults * 2)| <= |xs|
    ensures forall j :: 0 <= j < |Prefix(Map(xs, f), maxResults * 2)| ==>
      Prefix(Map(xs, f), maxResults * 2)[j] == f(xs[j])
  {
    MapElements(xs, f);
    var m := Map(xs, f);
    var r := Prefix(m, maxResults * 2);
    assert r == m[..|r|];
  }

  /** `search_huggingface` with the tag list `tags`. */
  function HuggingFaceFoundWith(hits: seq<Hit>, maxResults: int, tags: seq<string>): seq<HuggingFaceResult> {
    Prefix(Map(ModelHits(hits, maxResults), RecordFn(tags)), maxResults * 2)
  }

  /**
   * `search_huggingface` returns at most `2 * max_results` records, each
   * built from an accepted hit.
   */
  lemma HuggingFaceFoundProperties(hits: seq<Hit>, maxResults: int, tags: seq<string>)
    ensures |HuggingFaceFoundWith(hits, maxResults, tags)| <= if maxResults >= 1 then 2 * maxResults else 0
    ensures forall j :: 0 <= j < |HuggingFaceFoundWith(hits, maxResults, tags)| ==>
      exists k :: 0 <= k < |hits| && IsModelPage(hits[k]) && HuggingFaceFoundWith(hits, maxResults, tags)[j] == ModelRecord(hits[k], tags)
  {
    var accept, key, cap := IsModelPageFn(), UrlFn(), maxResults * 2;
    var f := ModelHits(hits, maxResults);
    FilteredElements(hits, accept, key, SameHit(), cap);
    FilteredBound(hits, accept, key, SameHit(), cap);
    var idx := Kept(hits, accept, key, cap);
    CappedMap(f, RecordFn(tags), maxResults);
    var r := HuggingFaceFoundWith(hits, maxResults, tags);
    forall j | 0 <= j < |r|
      ensures exists k :: 0 <= k < |hits| && IsModelPage(hits[k]) && r[j] == ModelRecord(hits[k], tags)
    {
      assert r[j] == ModelRecord(f[j], tags);
      assert f[j] == hits[idx[j]] && accept(hits[idx[j]]);
    }
  }

  /** No two records of `search_huggingface` are for the same URL. */
  lemma HuggingFaceFoundUrls(hits: seq<Hit>, maxResults: int, tags: seq<string>)
    ensures forall j, l :: 0 <= j < l < |HuggingFaceFoundWith(hits, maxResults, tags)| ==>
      HuggingFaceFoundWith(hits, maxResults, tags)[j].url != HuggingFaceFoundWith(hits, maxResults, tags)[l].url
  {
    var accept, key, cap := IsModelPageFn(), UrlFn(), maxResults * 2;
    var f := ModelHits(hits, maxResults);
    FilteredDistinct(hits, accept, key, SameHit(), key, cap);
    FilteredBound(hits, accept, key, SameHit(), cap);
    CappedMap(f, RecordFn(tags), maxResults);
    var r := HuggingFaceFoundWith(hits, maxResults, tags);
    forall j | 0 <= j < |r|
      ensures r[j].url == Url(f[j])
    {
      assert r[j] == ModelRecord(f[j], tags);
    }
  }
}
