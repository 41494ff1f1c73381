/**
 * Result fusion (`merge_and_prioritize_results`): every result of every
 * source gets a base score from the intent's source weight, capped quality
 * boosts and a penalty of two points per position in its own list; the three
 * lists are concatenated (GitHub, Hugging Face, Reddit), sorted stably by
 * descending score, and numbered 1..n in the final order.
 */
module Fusion {
  import opened Wrappers
  import opened Models
  import opened Intent
  import opened StableSort

  /** The record a merged entry carries (the source's `model_dump()`). */
  datatype Payload =
    | GitHubPayload(github: GitHubResult)
    | HuggingFacePayload(huggingface: HuggingFaceResult)
    | RedditPayload(reddit: RedditResult)

  /** One merged entry; `rank` is absent until the final numbering. */
  datatype MergedItem = MergedItem(
    source: SourceType,
    data: Payload,
    score: real,
    originalRank: nat,
    rank: Option<nat>)

  function Min(a: real, b: real): (m: real)
    ensures m <= a && m <= b && (m == a || m == b)
  {
    if a <= b then a else b
  }

  /** `min(count / divisor, cap)` when `count` is present and non-zero, otherwise nothing. */
  function CappedBoost(count: Option<int>, divisor: real, cap: real): (b: real)
    requires divisor > 0.0 && cap > 0.0
    ensures b <= cap
    ensures count.None? || count.value == 0 ==> b == 0.0
    ensures count.Some? && count.value > 0 ==> b > 0.0
    ensures count.Some? && count.value < 0 ==> b < 0.0
  {
    if count.Some? && count.value != 0 then Min(count.value as real / divisor, cap) else 0.0
  }

  /** The status boosts of lines 166-172; `unknown` falls to the default 0. */
  function StatusBoost(status: ProjectStatus): (b: real)
    ensures b in {15.0, 10.0, -5.0, -15.0, 0.0}
    ensures b > 0.0 <==> status == Active || status == Maintained
  {
    match status
    case Active => 15.0
    case Maintained => 10.0
    case Stale => -5.0
    case Abandoned => -15.0
    case Unknown => 0.0
  }

  function SentimentBoost(sentiment: SentimentType): (b: real)
    ensures b in {10.0, -10.0, 0.0}
    ensures b > 0.0 <==> sentiment == Positive
    ensures b < 0.0 <==> sentiment == Negative
  {
    match sentiment
    case Positive => 10.0
    case Negative => -10.0
    case _ => 0.0
  }

  function PositionPenalty(idx: nat): real {
    (idx * 2) as real
  }

  /** The base score of the GitHub result at position `idx` of its list. */
  function GitHubScore(g: GitHubResult, idx: nat, w: SourceWeights): real {
    w.github * 100.0 + CappedBoost(g.stars, 1000.0, 20.0) + StatusBoost(g.status) - PositionPenalty(idx)
  }

  function HuggingFaceScore(h: HuggingFaceResult, idx: nat, w: SourceWeights): real {
    w.huggingface * 100.0 + CappedBoost(h.likes, 100.0, 15.0) + CappedBoost(h.downloads, 10000.0, 15.0)
      - PositionPenalty(idx)
  }

  function RedditScore(r: RedditResult, idx: nat, w: SourceWeights): real {
    w.reddit * 100.0 + CappedBoost(Some(r.score), 100.0, 15.0) + CappedBoost(Some(r.numComments), 50.0, 10.0)
      - (if r.hasWarning then 20.0 else 0.0) + SentimentBoost(r.communitySentiment) - PositionPenalty(idx)
  }

  /** The entries appended for each source list, before sorting. */
  function GitHubEntries(gs: seq<GitHubResult>, w: SourceWeights): (r: seq<MergedItem>)
    ensures |r| == |gs|
    ensures forall i :: 0 <= i < |gs| ==>
      r[i] == MergedItem(GitHub, GitHubPayload(gs[i]), GitHubScore(gs[i], i, w), i + 1, None)
  {
    seq(|gs|, i requires 0 <= i < |gs| => MergedItem(GitHub, GitHubPayload(gs[i]), GitHubScore(gs[i], i, w), i + 1, None))
  }

  function HuggingFaceEntries(hs: seq<HuggingFaceResult>, w: SourceWeights): (r: seq<MergedItem>)
    ensures |r| == |hs|
    ensures forall i :: 0 <= i < |hs| ==>
      r[i] == MergedItem(HuggingFace, HuggingFacePayload(hs[i]), HuggingFaceScore(hs[i], i, w), i + 1, None)
  {
    seq(|hs|, i requires 0 <= i < |hs| =>
      MergedItem(HuggingFace, HuggingFacePayload(hs[i]), HuggingFaceScore(hs[i], i, w), i + 1, None))
  }

  function RedditEntries(rs: seq<RedditResult>, w: SourceWeights): (r: seq<MergedItem>)
    ensures |r| == |rs|
    ensures forall i :: 0 <= i < |rs| ==>
      r[i] == MergedItem(Reddit, RedditPayload(rs[i]), RedditScore(rs[i], i, w), i + 1, None)
  {
    seq(|rs|, i requires 0 <= i < |rs| => MergedItem(Reddit, RedditPayload(rs[i]), RedditScore(rs[i], i, w), i + 1, None))
  }

  /** All tagged entries in insertion order. */
  function Tagged(gs: seq<GitHubResult>, hs: seq<HuggingFaceResult>, rs: seq<RedditResult>, w: SourceWeights): seq<MergedItem> {
    GitHubEntries(gs, w) + HuggingFaceEntries(hs, w) + RedditEntries(rs, w)
  }

  function Score(m: MergedItem): real {
    m.score
  }

  /** Insertion order: by source (GitHub, Hugging Face, Reddit), then by position within the source. */
  predicate InsertedBefore(a: MergedItem, b: MergedItem) {
    a.source.Ordinal() < b.source.Ordinal() || (a.source == b.source && a.originalRank < b.originalRank)
  }

  /** The final numbering: the entry at index `i` gets rank `i + 1`. */
  function Numbered(s: seq<MergedItem>): (r: seq<MergedItem>)
    ensures |r| == |s|
    ensures forall i :: 0 <= i < |s| ==> r[i] == s[i].(rank := Some(i + 1))
  {
    seq(|s|, i requires 0 <= i < |s| => s[i].(rank := Some(i + 1)))
  }

  /** What `merge_and_prioritize_results` returns. */
  function Prioritized(gs: seq<GitHubResult>, hs: seq<HuggingFaceResult>, rs: seq<RedditResult>, w: SourceWeights): seq<MergedItem> {
    Numbered(SortDesc(Tagged(gs, hs, rs, w), Score))
  }

  /** `merge_and_prioritize_results`, step by step as the source builds its list. */
  method MergeAndPrioritize(gs: seq<GitHubResult>, hs: seq<HuggingFaceResult>, rs: seq<RedditResult>, w: SourceWeights)
    returns (merged: seq<MergedItem>)
    ensures merged == Prioritized(gs, hs, rs, w)
    ensures |merged| == |gs| + |hs| + |rs|
    ensures forall i :: 0 <= i < |merged| ==> merged[i].rank == Some(i + 1)
  {
    merged := AddGitHub([], gs, w);
    merged := AddHuggingFace(merged, hs, w);
    merged := AddReddit(merged, rs, w);
    assert merged == Tagged(gs, hs, rs, w);
    merged := SortDesc(merged, Score);
    merged := NumberRanks(merged);
  }

  /** The GitHub loop: one entry per result, in order. */
  method AddGitHub(merged0: seq<MergedItem>, gs: seq<GitHubResult>, w: SourceWeights) returns (merged: seq<MergedItem>)
    ensures merged == merged0 + GitHubEntries(gs, w)
  {
    merged := merged0;
    for idx := 0 to |gs|
      invariant merged == merged0 + GitHubEntries(gs[..idx], w)
    {
      var g := gs[idx];
      var base := w.github * 100.0;
      if g.stars.Some? && g.stars.value != 0 {
        base := base + Min(g.stars.value as real / 1000.0, 20.0);
      }
      base := base + StatusBoost(g.status);
      base := base - (idx * 2) as real;
      assert base == GitHubScore(g, idx, w);
      assert GitHubEntries(gs[..idx + 1], w) == GitHubEntries(gs[..idx], w) + [MergedItem(GitHub, GitHubPayload(g), base, idx + 1, None)];
      merged := merged + [MergedItem(GitHub, GitHubPayload(g), base, idx + 1, None)];
    }
    assert gs[..|gs|] == gs;
  }

  /** The Hugging Face loop. */
  method AddHuggingFace(merged0: seq<MergedItem>, hs: seq<HuggingFaceResult>, w: SourceWeights) returns (merged: seq<MergedItem>)
    ensures merged == merged0 + HuggingFaceEntries(hs, w)
  {
    merged := merged0;
    for idx := 0 to |hs|
      invariant merged == merged0 + HuggingFaceEntries(hs[..idx], w)
    {
      var h := hs[idx];
      var base := w.huggingface * 100.0;
      if h.likes.Some? && h.likes.value != 0 {
        base := base + Min(h.likes.value as real / 100.0, 15.0);
      }
      if h.downloads.Some? && h.downloads.value != 0 {
        base := base + Min(h.downloads.value as real / 10000.0, 15.0);
      }
      base := base - (idx * 2) as real;
      assert base == HuggingFaceScore(h, idx, w);
      assert HuggingFaceEntries(hs[..idx + 1], w)
          == HuggingFaceEntries(hs[..idx], w) + [MergedItem(HuggingFace, HuggingFacePayload(h), base, idx + 1, None)];
      merged := merged + [MergedItem(HuggingFace, HuggingFacePayload(h), base, idx + 1, None)];
    }
    assert hs[..|hs|] == hs;
  }

  /** The Reddit loop. */
  method AddReddit(merged0: seq<MergedItem>, rs: seq<RedditResult>, w: SourceWeights) returns (merged: seq<MergedItem>)
    ensures merged == merged0 + RedditEntries(rs, w)
  {
    merged := merged0;
    for idx := 0 to |rs|
      invariant merged == merged0 + RedditEntries(rs[..idx], w)
    {
      var r := rs[idx];
      var base := w.reddit * 100.0;
      if r.score != 0 {
        base := base + Min(r.score as real / 100.0, 15.0);
      }
      if r.numComments != 0 {
        base := base + Min(r.numComments as real / 50.0, 10.0);
      }
      if r.hasWarning {
        base := base - 20.0;
      }
      if r.communitySentiment == Positive {
        base := base + 10.0;
      } else if r.communitySentiment == Negative {
        base := base - 10.0;
      }
      base := base - (idx * 2) as real;
      assert base == RedditScore(r, idx, w);
      assert RedditEntries(rs[..idx + 1], w) == RedditEntries(rs[..idx], w) + [MergedItem(Reddit, RedditPayload(r), base, idx + 1, None)];
      merged := merged + [MergedItem(Reddit, RedditPayload(r), base, idx + 1, None)];
    }
    assert rs[..|rs|] == rs;
  }

  /** The final loop: `rank` is the position in the sorted list plus one. */
  method NumberRanks(sorted: seq<MergedItem>) returns (merged: seq<MergedItem>)
    ensures merged == Numbered(sorted)
  {
    merged := sorted;
    for idx := 0 to |merged|
      invariant |merged| == |sorted|
      invariant forall i :: 0 <= i < idx ==> merged[i] == sorted[i].(rank := Some(i + 1))
      invariant forall i :: idx <= i < |merged| ==> merged[i] == sorted[i]
    {
      merged := merged[idx := merged[idx].(rank := Some(idx + 1))];
    }
  }

  /** The entries are a permutation of the tagged inputs once the ranks are removed. */
  function Unnumbered(s: seq<MergedItem>): (r: seq<MergedItem>)
    ensures |r| == |s|
    ensures forall i :: 0 <= i < |s| ==> r[i] == s[i].(rank := None)
  {
    seq(|s|, i requires 0 <= i < |s| => s[i].(rank := None))
  }

  /** Numbering only sets the ranks: removing them again gives the entries without ranks. */
  lemma UnnumberedNumbered(s: seq<MergedItem>)
    ensures Unnumbered(Numbered(s)) == Unnumbered(s)
    ensures forall i :: 0 <= i < |s| ==> Numbered(s)[i].rank == Some(i + 1)
  {
  }

  lemma TaggedUnnumbered(gs: seq<GitHubResult>, hs: seq<HuggingFaceResult>, rs: seq<RedditResult>, w: SourceWeights)
    ensures forall m: MergedItem :: m in multiset(Tagged(gs, hs, rs, w)) ==> m.rank == None
  {
    var a, b, c := GitHubEntries(gs, w), HuggingFaceEntries(hs, w), RedditEntries(rs, w);
    forall m: MergedItem | m in multiset(Tagged(gs, hs, rs, w)) ensures m.rank == None {
      assert m in a + b + c;
      if m in a {
        var i :| 0 <= i < |a| && a[i] == m;
      } else if m in b {
        var i :| 0 <= i < |b| && b[i] == m;
      } else {
        var i :| 0 <= i < |c| && c[i] == m;
      }
    }
  }

  /** The output has one entry per input and, ranks aside, is a reordering of the tagged inputs. */
  lemma {:induction false} PrioritizedIsPermutation(gs: seq<GitHubResult>, hs: seq<HuggingFaceResult>, rs: seq<RedditResult>, w: SourceWeights)
    ensures |Prioritized(gs, hs, rs, w)| == |gs| + |hs| + |rs|
    ensures multiset(Unnumbered(Prioritized(gs, hs, rs, w))) == multiset(Tagged(gs, hs, rs, w))
  {
    var t := Tagged(gs, hs, rs, w);
    var s := SortDesc(t, Score);
    TaggedUnnumbered(gs, hs, rs, w);
    forall i | 0 <= i < |s| ensures s[i].rank == None {
      assert s[i] in multiset(s);
    }
    assert Unnumbered(Numbered(s)) == s;
  }

  /** Ranks are dense: the entry at index `i` has rank `i + 1`. */
  lemma PrioritizedRanks(gs: seq<GitHubResult>, hs: seq<HuggingFaceResult>, rs: seq<RedditResult>, w: SourceWeights)
    ensures forall i :: 0 <= i < |Prioritized(gs, hs, rs, w)| ==> Prioritized(gs, hs, rs, w)[i].rank == Some(i + 1)
  {
  }

  /** The merged list is ordered by non-increasing score. */
  lemma PrioritizedSorted(gs: seq<GitHubResult>, hs: seq<HuggingFaceResult>, rs: seq<RedditResult>, w: SourceWeights)
    ensures forall i, j :: 0 <= i < j < |Prioritized(gs, hs, rs, w)| ==>
      Prioritized(gs, hs, rs, w)[i].score >= Prioritized(gs, hs, rs, w)[j].score
  {
    var s := SortDesc(Tagged(gs, hs, rs, w), Score);
    SortDescSorted(Tagged(gs, hs, rs, w), Score);
    var p := Prioritized(gs, hs, rs, w);
    forall i, j | 0 <= i < j < |p| ensures p[i].score >= p[j].score {
      assert Score(s[i]) >= Score(s[j]);
    }
  }

  lemma TaggedInOrder(gs: seq<GitHubResult>, hs: seq<HuggingFaceResult>, rs: seq<RedditResult>, w: SourceWeights)
    ensures InOrder(Tagged(gs, hs, rs, w), InsertedBefore)
  {
    var t := Tagged(gs, hs, rs, w);
    var a, b, c := GitHubEntries(gs, w), HuggingFaceEntries(hs, w), RedditEntries(rs, w);
    forall i, j | 0 <= i < j < |t| ensures InsertedBefore(t[i], t[j]) {
      if j < |gs| {
        assert t[i] == a[i] && t[j] == a[j];
      } else if j < |gs| + |hs| {
        assert t[j] == b[j - |gs|];
        if i < |gs| { assert t[i] == a[i]; } else { assert t[i] == b[i - |gs|]; }
      } else {
        assert t[j] == c[j - |gs| - |hs|];
        if i < |gs| {
          assert t[i] == a[i];
        } else if i < |gs| + |hs| {
          assert t[i] == b[i - |gs|];
        } else {
          assert t[i] == c[i - |gs| - |hs|];
        }
      }
    }
  }

  /**
   * Ties keep insertion order: of two entries with the same score, the earlier
   * one comes from an earlier source, or from the same source at an earlier
   * position.
   */
  lemma PrioritizedTiesInInsertionOrder(gs: seq<GitHubResult>, hs: seq<HuggingFaceResult>, rs: seq<RedditResult>, w: SourceWeights)
    ensures var p := Prioritized(gs, hs, rs, w);
      forall i, j :: 0 <= i < j < |p| && p[i].score == p[j].score ==> InsertedBefore(p[i], p[j])
  {
    var t := Tagged(gs, hs, rs, w);
    TaggedInOrder(gs, hs, rs, w);
    SortDescTiesInOrder(t, Score, InsertedBefore);
    var s := SortDesc(t, Score);
    var p := Prioritized(gs, hs, rs, w);
    forall i, j | 0 <= i < j < |p| && p[i].score == p[j].score ensures InsertedBefore(p[i], p[j]) {
      assert Score(s[i]) == Score(s[j]);
      assert InsertedBefore(s[i], s[j]);
    }
  }

  /** `m` is the entry made for the result at position `m.originalRank - 1` of its own source list. */
  predicate ComesFrom(m: MergedItem, gs: seq<GitHubResult>, hs: seq<HuggingFaceResult>, rs: seq<RedditResult>, w: SourceWeights) {
    var k := m.originalRank - 1;
    && 1 <= m.originalRank
    && (m.source == GitHub ==>
          k < |gs| && m.data == GitHubPayload(gs[k]) && m.score == GitHubScore(gs[k], k, w))
    && (m.source == HuggingFace ==>
          k < |hs| && m.data == HuggingFacePayload(hs[k]) && m.score == HuggingFaceScore(hs[k], k, w))
    && (m.source == Reddit ==>
          k < |rs| && m.data == RedditPayload(rs[k]) && m.score == RedditScore(rs[k], k, w))
  }

  /**
   * `original_rank` is the position in the entry's own source list plus one,
   * and the entry carries that result and its base score.
   */
  lemma TaggedComesFrom(gs: seq<GitHubResult>, hs: seq<HuggingFaceResult>, rs: seq<RedditResult>, w: SourceWeights, k: nat)
    requires k < |Tagged(gs, hs, rs, w)|
    ensures ComesFrom(Tagged(gs, hs, rs, w)[k], gs, hs, rs, w)
  {
    var t := Tagged(gs, hs, rs, w);
    if k < |gs| {
      assert t[k] == GitHubEntries(gs, w)[k];
    } else if k < |gs| + |hs| {
      assert t[k] == HuggingFaceEntries(hs, w)[k - |gs|];
    } else {
      assert t[k] == RedditEntries(rs, w)[k - |gs| - |hs|];
    }
  }

  lemma PrioritizedProvenance(gs: seq<GitHubResult>, hs: seq<HuggingFaceResult>, rs: seq<RedditResult>, w: SourceWeights, i: nat)
    requires i < |Prioritized(gs, hs, rs, w)|
    ensures ComesFrom(Prioritized(gs, hs, rs, w)[i], gs, hs, rs, w)
  {
    var t := Tagged(gs, hs, rs, w);
    var s := SortDesc(t, Score);
    assert s[i] in multiset(s);
    assert s[i] in multiset(t);
    var k :| 0 <= k < |t| && t[k] == s[i];
    TaggedComesFrom(gs, hs, rs, w, k);
    var p := Prioritized(gs, hs, rs, w);
    assert p[i] == s[i].(rank := Some(i + 1));
  }

  /** One position further down a source list costs exactly two points. */
  lemma PositionPenaltyStep(g: GitHubResult, h: HuggingFaceResult, r: RedditResult, idx: nat, w: SourceWeights)
    ensures GitHubScore(g, idx + 1, w) == GitHubScore(g, idx, w) - 2.0
    ensures HuggingFaceScore(h, idx + 1, w) == HuggingFaceScore(h, idx, w) - 2.0
    ensures RedditScore(r, idx + 1, w) == RedditScore(r, idx, w) - 2.0
  {
  }

  /**
   * Bounds of the base scores: all boosts are capped, so a GitHub score is at
   * most weight·100 + 35, a Hugging Face one at most weight·100 + 30 and a
   * Reddit one at most weight·100 + 35, each minus the position penalty.
   * Nothing clamps the score from below.
   */
  lemma ScoreCaps(g: GitHubResult, h: HuggingFaceResult, r: RedditResult, idx: nat, w: SourceWeights)
    ensures GitHubScore(g, idx, w) <= w.github * 100.0 + 35.0 - (idx * 2) as real
    ensures HuggingFaceScore(h, idx, w) <= w.huggingface * 100.0 + 30.0 - (idx * 2) as real
    ensures RedditScore(r, idx, w) <= w.reddit * 100.0 + 35.0 - (idx * 2) as real
  {
  }

  /** A concrete case where the score goes below zero: an abandoned repository far down the list. */
  lemma ScoresCanBeNegative(g: GitHubResult, w: SourceWeights)
    requires g.status == Abandoned && g.stars == None && w == WeightsFor(ModelSearch)
    ensures GitHubScore(g, 10, w) < 0.0
  {
  }
}
