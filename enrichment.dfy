/**
 * The records the search layer builds from fetched pages: the GitHub record
 * of `enrich_github_result` (title clean-up, owner and repository, clone
 * command, README preview and the fields scraped from the repository page)
 * and the Reddit record of `fetch_reddit_thread` (subreddit, title clean-up,
 * the post fields and the comment digest of the thread's JSON), then the three
 * `search_*` entry points and the error list of `execute_parallel_search`.
 *
 * Every fetch is a parameter: a function from the URL to what the fetch
 * yields. The web search is a parameter from the query string and the
 * requested count to the hits. The HTML selectors and the JSON decoding are
 * not modelled: the page and the thread arrive already taken apart.
 */
module Enrichment {
  import opened Wrappers
  import opened Text
  import opened Models
  import opened SearchLogic

  /** What a fetch yields: an exception (timeout, refused connection, bad body) or a status and a body. */
  datatype Fetched<T> = Failed | Answer(status: int, body: T)

  // ---------------------------------------------------------------------
  // Substitutions of a pattern anchored at the end: re.sub(p + "$", "", s)
  // ---------------------------------------------------------------------

  /** The leftmost index from `from` on where `tail` holds of the rest of `s`. */
  function LeftmostTail(s: string, tail: string -> bool, from: nat): (r: Option<nat>)
    ensures r.Some? ==> from <= r.value <= |s| && tail(s[r.value..])
    ensures r.Some? ==> forall j :: from <= j < r.value ==> !tail(s[j..])
    ensures r.None? ==> forall j :: from <= j <= |s| ==> !tail(s[j..])
    decreases |s| + 1 - from
  {
    if from > |s| then None
    else if tail(s[from..]) then Some(from)
    else LeftmostTail(s, tail, from + 1)
  }

  /** The least index in `[from, n)` where `p` holds: the position `re.search` reports. */
  function FirstIndex(n: nat, p: nat -> bool, from: nat): (r: Option<nat>)
    ensures r.Some? ==> from <= r.value < n && p(r.value)
    ensures r.Some? ==> forall j :: from <= j < r.value ==> !p(j)
    ensures r.None? ==> forall j :: from <= j < n ==> !p(j)
    decreases n - from
  {
    if from >= n then None
    else if p(from) then Some(from)
    else FirstIndex(n, p, from + 1)
  }

  /** An index where `p` holds, with none before it from `from` on, is the first one. */
  lemma FirstIndexAt(n: nat, p: nat -> bool, from: nat, j: nat)
    requires from <= j < n && p(j)
    requires forall k :: from <= k < j ==> !p(k)
    ensures FirstIndex(n, p, from) == Some(j)
  {
  }

  predicate AllSpace(t: string) {
    forall k :: 0 <= k < |t| ==> IsSpace(t[k])
  }

  /** `\s*[marks]\s*` at the start of `t`: what follows it, when it is there. */
  function AfterMark(t: string, marks: set<char>): (r: Option<string>)
    ensures r.Some? ==> |t| > 0 && |r.value| < |t| && r.value == t[|t| - |r.value|..]
  {
    var n := RunLength(t, IsSpace);
    if n < |t| && t[n] in marks then
      var u := t[n + 1..];
      Some(u[RunLength(u, IsSpace)..])
    else None
  }

  /** `\s*[-·]\s*GitHub.*$`: the `.` stops at a newline, and `$` also matches before a final newline. */
  predicate GitHubTitleTail(t: string) {
    match AfterMark(t, {'-', '·'})
    case Some(u) =>
      "GitHub" <= u && forall k :: 6 <= k < |u| - 1 ==> u[k] != '\n'
    case None => false
  }

  /** `\s*:\s*r/\w+\s*$`. */
  predicate SubredditTitleTail(t: string) {
    match AfterMark(t, {':'})
    case Some(u) =>
      "r/" <= u && var w := RunLength(u[2..], IsWordChar); w > 0 && AllSpace(u[2 + w..])
    case None => false
  }

  /** `\s*[-–]\s*Reddit\s*$`. */
  predicate RedditTitleTail(t: string) {
    match AfterMark(t, {'-', '–'})
    case Some(u) => "Reddit" <= u && AllSpace(u[6..])
    case None => false
  }

  function GitHubTitleTailFn(): string -> bool { (t: string) => GitHubTitleTail(t) }
  function SubredditTitleTailFn(): string -> bool { (t: string) => SubredditTitleTail(t) }
  function RedditTitleTailFn(): string -> bool { (t: string) => RedditTitleTail(t) }

  /**
   * `re.sub(r"\s*[-·]\s*GitHub.*$", "", s)`: the text before the leftmost
   * match. A final newline the match stopped in front of stays.
   */
  function CutGitHubSuffix(s: string): (r: string)
    ensures GitHubTitleTail(s) ==> r == "" || r == "\n"
    ensures r == s <==> NoGitHubTailBefore(s, |s| + 1)
    ensures r != s ==> exists i :: (0 <= i < |s| && GitHubTitleTail(s[i..]) && NoGitHubTailBefore(s, i)
      && r == s[..i] + FinalNewline(s))
  {
    LeftmostGitHubTail(s);
    match LeftmostTail(s, GitHubTitleTailFn(), 0)
    case Some(i) => s[..i] + FinalNewline(s)
    case None => s
  }

  /** The leftmost GitHub title suffix, in terms of the suffix predicate itself. */
  lemma LeftmostGitHubTail(s: string)
    ensures var m := LeftmostTail(s, GitHubTitleTailFn(), 0);
      && (m.Some? ==> m.value + 7 <= |s| && GitHubTitleTail(s[m.value..]) && NoGitHubTailBefore(s, m.value))
      && (m.None? ==> NoGitHubTailBefore(s, |s| + 1))
      && (GitHubTitleTail(s) ==> m == Some(0))
  {
    var m := LeftmostTail(s, GitHubTitleTailFn(), 0);
    assert s[0..] == s;
    if m.Some? {
      assert GitHubTitleTail(s[m.value..]);
      GitHubTitleTailLength(s[m.value..]);
    }
  }

  /** The newline `$` stops in front of, when `s` ends with one. */
  function FinalNewline(s: string): (r: string)
    ensures r == "" || r == "\n"
  {
    if |s| > 0 && s[|s| - 1] == '\n' then "\n" else ""
  }

  /** No GitHub title suffix starts before index `n`. */
  predicate NoGitHubTailBefore(s: string, n: int) {
    forall j :: 0 <= j < n && j <= |s| ==> !GitHubTitleTail(s[j..])
  }

  /** A GitHub title suffix is at least as long as "-GitHub". */
  lemma GitHubTitleTailLength(t: string)
    requires GitHubTitleTail(t)
    ensures |t| >= 7
  {
    var u := AfterMark(t, {'-', '·'}).value;
    assert "GitHub" <= u;
  }

  /**
   * A title made of text ending in a non-space character without dashes or
   * middle dots, followed by a GitHub suffix, keeps exactly that text (and a
   * final newline the suffix ends with).
   */
  lemma CutGitHubSuffixOf(text: string, suffix: string)
    requires GitHubTitleTail(suffix)
    requires '-' !in text && '·' !in text && (text == [] || !IsSpace(text[|text| - 1]))
    ensures CutGitHubSuffix(text + suffix) == text + FinalNewline(suffix)
  {
    GitHubTitleTailLength(suffix);
    ConcatParts(text, suffix);
    NoTailBefore(text, suffix);
    CutGitHubSuffixAt(text + suffix, |text|);
  }

  /** How `text + suffix` splits back into its parts. */
  lemma ConcatParts(text: string, suffix: string)
    requires |suffix| > 0
    ensures (text + suffix)[..|text|] == text && (text + suffix)[|text|..] == suffix
    ensures FinalNewline(text + suffix) == FinalNewline(suffix)
  {
    assert (text + suffix)[|text + suffix| - 1] == suffix[|suffix| - 1];
  }

  /** The cut at the leftmost suffix position `p`. */
  lemma CutGitHubSuffixAt(s: string, p: nat)
    requires p < |s| && GitHubTitleTail(s[p..])
    requires forall j :: 0 <= j < p ==> !GitHubTitleTail(s[j..])
    ensures CutGitHubSuffix(s) == s[..p] + FinalNewline(s)
  {
    var tail := GitHubTitleTailFn();
    assert forall j :: 0 <= j < p ==> !tail(s[j..]);
    LeftmostTailAt(s, tail, p);
  }

  lemma NoTailBefore(text: string, suffix: string)
    requires '-' !in text && '·' !in text && (text == [] || !IsSpace(text[|text| - 1]))
    ensures forall j :: 0 <= j < |text| ==> !GitHubTitleTail((text + suffix)[j..])
  {
    forall j | 0 <= j < |text|
      ensures !GitHubTitleTail((text + suffix)[j..])
    {
      NoTailInText(text, suffix, j);
    }
  }

  /** A position where the tail holds, with none before it, is the leftmost one. */
  lemma LeftmostTailAt(s: string, tail: string -> bool, p: nat)
    requires p <= |s| && tail(s[p..])
    requires forall j :: 0 <= j < p ==> !tail(s[j..])
    ensures LeftmostTail(s, tail, 0) == Some(p)
  {
  }

  /** No GitHub suffix starts inside text that ends in a non-space and holds no mark. */
  lemma NoTailInText(text: string, suffix: string, j: nat)
    requires '-' !in text && '·' !in text && (text == [] || !IsSpace(text[|text| - 1]))
    requires j < |text|
    ensures !GitHubTitleTail((text + suffix)[j..])
  {
    var t := (text + suffix)[j..];
    var n := RunLength(t, IsSpace);
    assert t[|text| - 1 - j] == text[|text| - 1];
    assert j + n < |text|;
    assert t[n] == text[j + n] && text[j + n] in text;
  }

  /** `re.sub(p, "", s)` for a pattern `p` whose every match runs to the end of `s`. */
  function CutSuffix(s: string, tail: string -> bool): (r: string)
    ensures r <= s
    ensures |r| < |s| ==> tail(s[|r|..])
    ensures forall j :: 0 <= j < |r| ==> !tail(s[j..])
  {
    match LeftmostTail(s, tail, 0)
    case Some(i) => s[..i]
    case None => s
  }

  /** `s.rstrip(c)`. */
  function RStripChar(s: string, c: char): (r: string)
    ensures r <= s
    ensures r == [] || r[|r| - 1] != c
    ensures forall i :: |r| <= i < |s| ==> s[i] == c
  {
    if |s| > 0 && s[|s| - 1] == c then RStripChar(s[..|s| - 1], c) else s
  }

  // ---------------------------------------------------------------------
  // enrich_github_result
  // ---------------------------------------------------------------------

  /**
   * The groups of the leftmost match of `github\.com/([^/]+)/([^/]+)`,
   * scanning from `i`; not anchored, so the repository part stops at the
   * next `/` whatever follows it.
   */
  function OwnerRepoFrom(url: string, i: nat): (r: Option<(string, string)>)
    ensures r.Some? ==> |r.value.0| > 0 && |r.value.1| > 0 && '/' !in r.value.0 && '/' !in r.value.1
    ensures r.Some? ==> Contains(url, "github.com/" + r.value.0 + "/" + r.value.1)
    ensures r.None? <==> forall j: nat :: i <= j ==> !GitHubAt(url, j)
  {
    match FirstIndex(|url|, GitHubAtFn(url), i)
    case Some(j) =>
      assert GitHubAt(url, j);
      var r := OwnerRepoAt(url[j + 11..]);
      OwnerRepoOccurs(url, j, r.value.0, r.value.1);
      r
    case None =>
      assert forall j: nat :: i <= j ==> !GitHubAt(url, j) by {
        forall j: nat | i <= j
          ensures !GitHubAt(url, j)
        {
          if j < |url| {
            assert !GitHubAtFn(url)(j);
          }
        }
      }
      None
  }

  /** `github\.com/([^/]+)/([^/]+)` matches at `j`. */
  predicate GitHubAt(url: string, j: nat) {
    OccursAt(url, "github.com/", j) && OwnerRepoAt(url[j + 11..]).Some?
  }

  function GitHubAtFn(url: string): nat -> bool { (j: nat) => GitHubAt(url, j) }

  /** When the leftmost match from `i` on is at `j`, the groups are those of that match. */
  lemma OwnerRepoFromAt(url: string, i: nat, j: nat)
    requires i <= j && GitHubAt(url, j)
    requires forall k: nat :: i <= k < j ==> !GitHubAt(url, k)
    ensures OwnerRepoFrom(url, i) == OwnerRepoAt(url[j + 11..])
  {
    FirstIndexAt(|url|, GitHubAtFn(url), i, j);
  }

  /** A match of `owner/repo` just after `github.com/` at `i` is a match of the whole text at `i`. */
  lemma OwnerRepoOccurs(url: string, i: nat, owner: string, repo: string)
    requires OccursAt(url, "github.com/", i) && i + 11 <= |url| && owner + "/" + repo <= url[i + 11..]
    ensures OccursAt(url, "github.com/" + owner + "/" + repo, i)
    ensures Contains(url, "github.com/" + owner + "/" + repo)
  {
    var path := owner + "/" + repo;
    var n := 11 + |path|;
    assert url[i + 11..][..n - 11] == path;
    assert url[i..i + n] == url[i..i + 11] + url[i + 11..][..n - 11];
    assert "github.com/" + owner + "/" + repo == "github.com/" + path;
    assert OccursAt(url, "github.com/" + owner + "/" + repo, i);
  }

  /** `([^/]+)/([^/]+)` at the start of `rest`, each group as long as it goes. */
  function OwnerRepoAt(rest: string): (r: Option<(string, string)>)
    ensures r.Some? ==> |r.value.0| > 0 && |r.value.1| > 0 && '/' !in r.value.0 && '/' !in r.value.1
    ensures r.Some? ==> r.value.0 + "/" + r.value.1 <= rest
    ensures r.Some? ==> var n := |r.value.0| + 1 + |r.value.1|; n == |rest| || rest[n] == '/'
  {
    var owner := CutAt(rest, '/');
    if |owner| == 0 || |owner| == |rest| then None
    else
      var repo := CutAt(rest[|owner| + 1..], '/');
      if |repo| == 0 then None
      else
        assert rest[..|owner| + 1 + |repo|] == owner + "/" + repo by {
          assert rest[..|owner|] == owner && rest[|owner|] == '/';
          assert rest[|owner| + 1..][..|repo|] == repo;
        }
        Some((owner, repo))
  }

  /** Every text of the form owner/repo, then the end or a slash, matches with those groups. */
  lemma OwnerRepoAtAccepts(owner: string, repo: string, tail: string)
    requires |owner| > 0 && |repo| > 0 && '/' !in owner && '/' !in repo
    requires tail == [] || tail[0] == '/'
    ensures OwnerRepoAt(owner + "/" + repo + tail) == Some((owner, repo))
  {
    var rest := owner + "/" + repo + tail;
    CutAtPrefix(owner, '/', repo + tail);
    assert rest == owner + ['/'] + (repo + tail);
    assert rest[|owner| + 1..] == repo + tail;
    if tail == [] {
      assert CutAt(repo + tail, '/') == repo by { assert repo + tail == repo; }
    } else {
      CutAtPrefix(repo, '/', tail[1..]);
      assert repo + tail == repo + ['/'] + tail[1..];
    }
  }

  function OwnerRepo(url: string): Option<(string, string)> {
    OwnerRepoFrom(url, 0)
  }

  /** The title: the cleaned search title, else `owner/repo`, else "Unknown". */
  function GitHubTitle(h: Hit): (r: string)
    ensures r != ""
    ensures var t := Strip(CutGitHubSuffix(h.title.GetOr("Unknown Repository")));
      && (t != "" ==> r == t)
      && (t == "" && OwnerRepo(Url(h)).Some? ==> r == OwnerRepo(Url(h)).value.0 + "/" + OwnerRepo(Url(h)).value.1)
      && (t == "" && OwnerRepo(Url(h)).None? ==> r == "Unknown")
  {
    var t := Strip(CutGitHubSuffix(h.title.GetOr("Unknown Repository")));
    if t != "" then t
    else match OwnerRepo(Url(h))
      case Some((owner, repo)) => owner + "/" + repo
      case None => "Unknown"
  }

  function CloneCommand(owner: string, repo: string): string {
    "git clone https://github.com/" + owner + "/" + repo + ".git"
  }

  function ReadmeUrl(owner: string, repo: string, branch: string): string {
    "https://raw.githubusercontent.com/" + owner + "/" + repo + "/" + branch + "/README.md"
  }

  /** The README text: the `main` branch's, or the `master` branch's when `main` answers 404. */
  function ReadmeText(owner: string, repo: string, readme: string -> Fetched<string>): (r: Option<string>)
    ensures r.Some? <==>
      || readme(ReadmeUrl(owner, repo, "main")) == Answer(200, r.GetOr(""))
      || (readme(ReadmeUrl(owner, repo, "main")).Answer? && readme(ReadmeUrl(owner, repo, "main")).status == 404
          && readme(ReadmeUrl(owner, repo, "master")) == Answer(200, r.GetOr("")))
  {
    var first := readme(ReadmeUrl(owner, repo, "main"));
    var response := if first.Answer? && first.status == 404 then readme(ReadmeUrl(owner, repo, "master")) else first;
    if response.Answer? && response.status == 200 then Some(response.body) else None
  }

  const MarkdownChars: set<char> := {'#', '*', '`', '[', ']'}

  /** `re.sub(r"\n{3,}", "\n\n", s)`: each run of three or more newlines becomes two. */
  function CollapseNewlines(s: string): (r: string)
    decreases |s|
  {
    if s == [] then []
    else if s[0] != '\n' then [s[0]] + CollapseNewlines(s[1..])
    else
      var n := RunLength(s, IsNewline);
      (if n >= 3 then "\n\n" else s[..n]) + CollapseNewlines(s[n..])
  }

  predicate IsNewline(c: char) {
    c == '\n'
  }

  /** No three newlines in a row. */
  predicate NoTripleNewline(s: string) {
    forall i :: 0 <= i < |s| - 2 ==> !(s[i] == '\n' && s[i + 1] == '\n' && s[i + 2] == '\n')
  }

  /** The preview: 1500 characters, the markdown characters removed, newline runs collapsed, 500 characters. */
  function ReadmePreview(text: string): string {
    Take(CollapseNewlines(RemoveChars(Take(text, 1500), MarkdownChars)), 500)
  }

  /** What the scraped repository page shows; each absent field is `None`. */
  datatype RepoPage = RepoPage(
    stars: Option<int>,          // the star counter, when present and readable as a number
    language: Option<string>,    // the text of the language link
    topics: seq<string>,         // the texts of the topic links, in page order
    updated: Option<Timestamp>)  // the `relative-time` element

  /**
   * The `datetime` attribute of the `relative-time` element, and the age in
   * seconds it gives at the moment of the call (`None` when it is not an ISO
   * time stamp).
   */
  datatype Timestamp = Timestamp(text: string, age: Option<real>)

  /** `[t.strip() for t in topics]`. */
  function StripAll(topics: seq<string>): (r: seq<string>)
    ensures |r| == |topics|
    ensures forall k :: 0 <= k < |r| ==> r[k] == Strip(topics[k])
  {
    if topics == [] then [] else StripAll(topics[..|topics| - 1]) + [Strip(topics[|topics| - 1])]
  }

  /** The page carries a non-empty `datetime` that parses as an ISO time stamp. */
  predicate StampReadable(page: RepoPage) {
    page.updated.Some? && page.updated.value.text != "" && page.updated.value.age.Some?
  }

  /** The fields the page scrape sets; the others stay as they were. */
  function WithPage(g: GitHubResult, page: RepoPage): (r: GitHubResult)
    ensures r.(stars := g.stars, language := g.language, topics := g.topics,
               lastUpdated := g.lastUpdated, status := g.status) == g
    ensures r.stars == if page.stars.Some? then page.stars else g.stars
    ensures page.language.Some? ==> r.language == Some(Strip(page.language.value))
    ensures page.language.None? ==> r.language == g.language
    ensures |r.topics| <= 5 && |r.topics| == (if |page.topics| < 5 then |page.topics| else 5)
    ensures forall k :: 0 <= k < |r.topics| ==> r.topics[k] == Strip(page.topics[k])
    ensures StampReadable(page) ==>
      r.lastUpdated == Some(page.updated.value.text) && r.status == ProjectStatusOf(page.updated.value.age.value)
    ensures !StampReadable(page) ==> r.lastUpdated == g.lastUpdated && r.status == g.status
  {
    var g1 := g.(stars := if page.stars.Some? then page.stars else g.stars,
                 language := if page.language.Some? then Some(Strip(page.language.value)) else g.language,
                 topics := StripAll(Take(page.topics, 5)));
    match page.updated
    case Some(Timestamp(text, Some(age))) =>
      if text != "" then g1.(lastUpdated := Some(text), status := ProjectStatusOf(age)) else g1
    case _ => g1
  }

  /** The record before any fetch: title, URL without trailing slashes, description and clone command. */
  function GitHubBase(h: Hit): GitHubResult {
    var owner := OwnerRepo(Url(h));
    NewGitHubResult(GitHubTitle(h), RStripChar(Url(h), '/')).(
      description := ShortDescription(h.body),
      cloneCommand := if owner.Some? then Some(CloneCommand(owner.value.0, owner.value.1)) else None)
  }

  /** The README step: the preview of the README, when one was fetched. */
  function WithReadme(g: GitHubResult, text: Option<string>): (r: GitHubResult)
    ensures r == g.(readmePreview := r.readmePreview)
  {
    if text.Some? then g.(readmePreview := Some(ReadmePreview(text.value))) else g
  }

  /** The page step: the scraped fields, when the page answered 200. */
  function WithFetchedPage(g: GitHubResult, response: Fetched<RepoPage>): (r: GitHubResult)
    ensures response.Answer? && response.status == 200 ==> r == WithPage(g, response.body)
    ensures !(response.Answer? && response.status == 200) ==> r == g
  {
    if response.Answer? && response.status == 200 then WithPage(g, response.body) else g
  }

  /**
   * The record `enrich_github_result` returns for a hit, given what the
   * README fetches and the page fetch yield. Nothing is fetched when the URL
   * names no owner and repository.
   */
  function GitHubRecord(h: Hit, readme: string -> Fetched<string>, page: string -> Fetched<RepoPage>): GitHubResult {
    var owner := OwnerRepo(Url(h));
    if owner.None? then GitHubBase(h)
    else WithFetchedPage(WithReadme(GitHubBase(h), ReadmeText(owner.value.0, owner.value.1, readme)), page(Url(h)))
  }

  /** `RemoveChars` works piecewise. */
  lemma {:induction false} RemoveCharsConcat(a: string, b: string, bad: set<char>)
    ensures RemoveChars(a + b, bad) == RemoveChars(a, bad) + RemoveChars(b, bad)
  {
    if a != [] {
      assert (a + b)[1..] == a[1..] + b;
      RemoveCharsConcat(a[1..], b, bad);
    } else {
      assert a + b == b;
    }
  }

  /** A run made of removed characters leaves nothing. */
  lemma {:induction false} RemoveCharsAll(s: string, bad: set<char>)
    requires forall i :: 0 <= i < |s| ==> s[i] in bad
    ensures RemoveChars(s, bad) == []
  {
    if s != [] {
      RemoveCharsAll(s[1..], bad);
    }
  }

  /**
   * Collapsing leaves no three newlines in a row, and a text that starts
   * with another character still starts with it.
   */
  lemma {:induction false} CollapseNoTriple(s: string)
    ensures NoTripleNewline(CollapseNewlines(s))
    ensures s != [] && s[0] != '\n' ==> CollapseNewlines(s) != [] && CollapseNewlines(s)[0] == s[0]
    decreases |s|, 1
  {
    if s == [] {
    } else if s[0] != '\n' {
      CollapseNoTripleChar(s);
    } else {
      CollapseNoTripleRun(s);
    }
  }

  /** `CollapseNoTriple` for a text that starts with another character than a newline. */
  lemma {:induction false} CollapseNoTripleChar(s: string)
    requires s != [] && s[0] != '\n'
    ensures NoTripleNewline(CollapseNewlines(s))
    ensures CollapseNewlines(s) != [] && CollapseNewlines(s)[0] == s[0]
    decreases |s|, 0
  {
    CollapseNoTriple(s[1..]);
    var q := CollapseNewlines(s[1..]);
    var r := [s[0]] + q;
    assert CollapseNewlines(s) == r;
    forall i | 0 <= i < |r| - 2
      ensures !(r[i] == '\n' && r[i + 1] == '\n' && r[i + 2] == '\n')
    {
      if i > 0 {
        assert r[i] == q[i - 1] && r[i + 1] == q[i] && r[i + 2] == q[i + 1];
      }
    }
  }

  /** `CollapseNoTriple` for a text that starts with a run of newlines. */
  lemma {:induction false} CollapseNoTripleRun(s: string)
    requires s != [] && s[0] == '\n'
    ensures NoTripleNewline(CollapseNewlines(s))
    decreases |s|, 0
  {
    var n := RunLength(s, IsNewline);
    CollapseNoTriple(s[n..]);
    var p := if n >= 3 then "\n\n" else s[..n];
    var q := CollapseNewlines(s[n..]);
    var r := p + q;
    assert CollapseNewlines(s) == r;
    assert |p| <= 2;
    assert q != [] ==> q[0] != '\n';
    forall i | 0 <= i < |r| - 2
      ensures !(r[i] == '\n' && r[i + 1] == '\n' && r[i + 2] == '\n')
    {
      if i >= |p| {
        assert r[i] == q[i - |p|] && r[i + 1] == q[i - |p| + 1] && r[i + 2] == q[i - |p| + 2];
      } else if i + 1 == |p| {
        assert r[i + 1] == q[0];
      } else {
        assert r[i + 2] == q[0];
      }
    }
  }

  /** Collapsing only drops newlines: the other characters stay, in order. */
  lemma {:induction false} CollapseKeepsText(s: string)
    ensures RemoveChars(CollapseNewlines(s), {'\n'}) == RemoveChars(s, {'\n'})
    decreases |s|, 1
  {
    if s == [] {
    } else if s[0] != '\n' {
      CollapseKeepsText(s[1..]);
      RemoveCharsConcat([s[0]], CollapseNewlines(s[1..]), {'\n'});
      RemoveCharsConcat([s[0]], s[1..], {'\n'});
      assert [s[0]] + s[1..] == s;
    } else {
      CollapseRunKeepsText(s);
    }
  }

  /** `CollapseKeepsText` for a text that starts with a run of newlines. */
  lemma {:induction false} CollapseRunKeepsText(s: string)
    requires s != [] && s[0] == '\n'
    ensures RemoveChars(CollapseNewlines(s), {'\n'}) == RemoveChars(s, {'\n'})
    decreases |s|, 0
  {
    var n := RunLength(s, IsNewline);
    var p := if n >= 3 then "\n\n" else s[..n];
    var rest := CollapseNewlines(s[n..]);
    CollapseKeepsText(s[n..]);
    assert CollapseNewlines(s) == p + rest;
    DropNewlines(p, rest);
    DropLeadingNewlines(s, n);
  }

  lemma DropLeadingNewlines(s: string, n: nat)
    requires n <= |s| && forall i :: 0 <= i < n ==> s[i] == '\n'
    ensures RemoveChars(s, {'\n'}) == RemoveChars(s[n..], {'\n'})
  {
    assert s[..n] + s[n..] == s;
    DropNewlines(s[..n], s[n..]);
  }

  lemma DropNewlines(p: string, rest: string)
    requires forall i :: 0 <= i < |p| ==> p[i] == '\n'
    ensures RemoveChars(p + rest, {'\n'}) == RemoveChars(rest, {'\n'})
  {
    RemoveCharsConcat(p, rest, {'\n'});
    RemoveCharsAll(p, {'\n'});
  }

  /** Collapsing adds no character but newlines. */
  lemma {:induction false} CollapseChars(s: string)
    ensures forall c :: c in CollapseNewlines(s) ==> c in s || c == '\n'
    decreases |s|
  {
    if s == [] {
    } else if s[0] != '\n' {
      CollapseChars(s[1..]);
      assert forall c :: c in s[1..] ==> c in s;
    } else {
      var n := RunLength(s, IsNewline);
      CollapseChars(s[n..]);
      var p := if n >= 3 then "\n\n" else s[..n];
      assert forall c :: c in p ==> c == '\n';
      assert forall c :: c in s[n..] ==> c in s;
    }
  }

  /**
   * The preview has at most 500 characters, none of `#*`[]`, and no three
   * newlines in a row. Its other characters are those of the README, in order.
   */
  lemma ReadmePreviewProperties(text: string)
    ensures |ReadmePreview(text)| <= 500
    ensures forall c :: c in ReadmePreview(text) ==> c !in MarkdownChars && (c in text || c == '\n')
    ensures NoTripleNewline(ReadmePreview(text))
    ensures ReadmePreview(text) <= CollapseNewlines(RemoveChars(Take(text, 1500), MarkdownChars))
  {
    var cleaned := RemoveChars(Take(text, 1500), MarkdownChars);
    CollapseNoTriple(cleaned);
    CollapseKeepsText(cleaned);
    CollapseChars(cleaned);
    var c := CollapseNewlines(cleaned);
    var p := ReadmePreview(text);
    assert p == c[..|p|];
    forall i | 0 <= i < |p| - 2
      ensures !(p[i] == '\n' && p[i + 1] == '\n' && p[i + 2] == '\n')
    {
      assert p[i] == c[i] && p[i + 1] == c[i + 1] && p[i + 2] == c[i + 2];
    }
    forall ch | ch in p
      ensures ch !in MarkdownChars && (ch in text || ch == '\n')
    {
      assert ch in c;
      if ch != '\n' {
        assert ch in cleaned;
        assert ch in Take(text, 1500);
      }
    }
  }

  /**
   * The fields of the GitHub record that the fetches do not touch: the title,
   * the URL without its trailing slashes, the description cut to 300
   * characters, and a clone command exactly when the URL names an owner and
   * a repository. Without them nothing is fetched and the fetched fields
   * keep their defaults.
   */
  lemma GitHubRecordFields(h: Hit, readme: string -> Fetched<string>, page: string -> Fetched<RepoPage>)
    ensures var g := GitHubRecord(h, readme, page);
      && g.title == GitHubTitle(h)
      && g.url == RStripChar(Url(h), '/')
      && g.description == ShortDescription(h.body)
      && (g.cloneCommand.Some? <==> OwnerRepo(Url(h)).Some?)
      && (OwnerRepo(Url(h)).Some? ==>
            g.cloneCommand == Some(CloneCommand(OwnerRepo(Url(h)).value.0, OwnerRepo(Url(h)).value.1)))
      && |g.topics| <= 5
    ensures var g := GitHubRecord(h, readme, page);
      OwnerRepo(Url(h)).None? ==>
        && g.readmePreview.None? && g.stars.None? && g.language.None? && g.lastUpdated.None?
        && g.status == Unknown && g.topics == []
  {
    var owner := OwnerRepo(Url(h));
    var base := GitHubBase(h);
    if owner.Some? {
      var w := WithReadme(base, ReadmeText(owner.value.0, owner.value.1, readme));
      var g := WithFetchedPage(w, page(Url(h)));
      assert GitHubRecord(h, readme, page) == g;
      assert w.title == base.title && w.url == base.url && w.description == base.description && w.cloneCommand == base.cloneCommand;
      assert g.title == w.title && g.url == w.url && g.description == w.description && g.cloneCommand == w.cloneCommand;
    }
  }

  /** The README preview is there exactly when a README answered 200, and is that README's preview. */
  lemma GitHubRecordReadme(h: Hit, readme: string -> Fetched<string>, page: string -> Fetched<RepoPage>)
    requires OwnerRepo(Url(h)).Some?
    ensures var g := GitHubRecord(h, readme, page);
      var text := ReadmeText(OwnerRepo(Url(h)).value.0, OwnerRepo(Url(h)).value.1, readme);
      && (g.readmePreview.Some? <==> text.Some?)
      && (g.readmePreview.Some? ==> g.readmePreview.value == ReadmePreview(text.value))
  {
  }

  /**
   * The status is known exactly when the repository page answered 200 with
   * a readable, non-empty time stamp; it is then the status for that age,
   * and the time stamp is the record's last update.
   */
  lemma GitHubRecordStatus(h: Hit, readme: string -> Fetched<string>, page: string -> Fetched<RepoPage>)
    ensures var g := GitHubRecord(h, readme, page);
      g.status != Unknown <==>
        && OwnerRepo(Url(h)).Some? && page(Url(h)).Answer? && page(Url(h)).status == 200
        && page(Url(h)).body.updated.Some? && page(Url(h)).body.updated.value.text != ""
        && page(Url(h)).body.updated.value.age.Some?
    ensures var g := GitHubRecord(h, readme, page);
      g.status != Unknown ==>
        && g.status == ProjectStatusOf(page(Url(h)).body.updated.value.age.value)
        && g.lastUpdated == Some(page(Url(h)).body.updated.value.text)
  {
    var owner := OwnerRepo(Url(h));
    var base := GitHubBase(h);
    assert base.status == Unknown;
    if owner.Some? {
      var w := WithReadme(base, ReadmeText(owner.value.0, owner.value.1, readme));
      assert w.status == Unknown;
      var response := page(Url(h));
      assert GitHubRecord(h, readme, page) == WithFetchedPage(w, response);
      if response.Answer? && response.status == 200 {
        assert WithFetchedPage(w, response) == WithPage(w, response.body);
      }
    }
  }

  /** `enrich_github_result`, setting the record's fields one step at a time. */
  method EnrichGitHubResult(h: Hit, readme: string -> Fetched<string>, page: string -> Fetched<RepoPage>)
    returns (g: GitHubResult)
    ensures g == GitHubRecord(h, readme, page)
  {
    var url := Url(h);
    var owner := OwnerRepo(url);
    g := GitHubBase(h);
    if owner.Some? {
      g := ApplyReadme(g, owner.value.0, owner.value.1, readme);
      var pageResponse := page(url);
      if pageResponse.Answer? && pageResponse.status == 200 {
        g := ApplyPage(g, pageResponse.body);
      }
    }
  }

  /** The README step of `enrich_github_result`: `main` first, `master` after a 404, a preview after a 200. */
  method ApplyReadme(g0: GitHubResult, owner: string, repo: string, readme: string -> Fetched<string>)
    returns (g: GitHubResult)
    ensures g == WithReadme(g0, ReadmeText(owner, repo, readme))
  {
    g := g0;
    var response := readme(ReadmeUrl(owner, repo, "main"));
    if response.Answer? && response.status == 404 {
      response := readme(ReadmeUrl(owner, repo, "master"));
    }
    if response.Answer? && response.status == 200 {
      g := g.(readmePreview := Some(ReadmePreview(response.body)));
    }
  }

  /** The page step of `enrich_github_result`: each scraped field that is there replaces the default. */
  method ApplyPage(g0: GitHubResult, p: RepoPage) returns (g: GitHubResult)
    ensures g == WithPage(g0, p)
  {
    g := g0;
    if p.stars.Some? {
      g := g.(stars := p.stars);
    }
    if p.language.Some? {
      g := g.(language := Some(Strip(p.language.value)));
    }
    g := g.(topics := StripAll(Take(p.topics, 5)));
    if p.updated.Some? && p.updated.value.text != "" && p.updated.value.age.Some? {
      g := g.(lastUpdated := Some(p.updated.value.text), status := ProjectStatusOf(p.updated.value.age.value));
    }
  }

  // ---------------------------------------------------------------------
  // The search_* entry points
  // ---------------------------------------------------------------------

  function GitHubRecordFn(readme: string -> Fetched<string>, page: string -> Fetched<RepoPage>): Hit -> GitHubResult {
    (h: Hit) => GitHubRecord(h, readme, page)
  }

  /** What `search_github` returns for the hits of its web search. */
  function GitHubFound(hits: seq<Hit>, maxResults: int, readme: string -> Fetched<string>,
                       page: string -> Fetched<RepoPage>): seq<GitHubResult> {
    Prefix(Map(GitHubFiltered(hits, maxResults), GitHubRecordFn(readme, page)), maxResults * 2)
  }

  /**
   * `search_github`: at most `2 * max_results` records (none when
   * `max_results` is below one), the `j`-th built from the `j`-th kept hit.
   */
  lemma GitHubFoundProperties(hits: seq<Hit>, maxResults: int, readme: string -> Fetched<string>,
                              page: string -> Fetched<RepoPage>)
    ensures |GitHubFound(hits, maxResults, readme, page)| <= if maxResults >= 1 then 2 * maxResults else 0
    ensures |GitHubFound(hits, maxResults, readme, page)| <= |GitHubFiltered(hits, maxResults)|
    ensures forall j :: 0 <= j < |GitHubFound(hits, maxResults, readme, page)| ==>
      GitHubFound(hits, maxResults, readme, page)[j] == GitHubRecord(GitHubFiltered(hits, maxResults)[j], readme, page)
  {
    var f := GitHubFiltered(hits, maxResults);
    FilteredBound(hits, IsRepoPageFn(), RepoIdFn(), SameHit(), maxResults * 2);
    CappedMap(f, GitHubRecordFn(readme, page), maxResults);
  }

  /**
   * `search_github`: the web search for `site:github.com <query>` asks for
   * five times the results; the kept hits are enriched one by one.
   */
  method SearchGitHub(query: string, maxResults: int, search: (string, int) -> seq<Hit>,
                      readme: string -> Fetched<string>, page: string -> Fetched<RepoPage>)
    returns (results: seq<GitHubResult>)
    ensures results == GitHubFound(search("site:github.com " + query, maxResults * 5), maxResults, readme, page)
  {
    var searchResults := search("site:github.com " + query, maxResults * 5);
    var filtered := FilterGitHubHits(searchResults, maxResults);
    results := Prefix(Map(filtered, GitHubRecordFn(readme, page)), maxResults * 2);
  }

  // ---------------------------------------------------------------------
  // fetch_reddit_thread
  // ---------------------------------------------------------------------

  /**
   * The post of a thread's JSON, with the defaults `.get` supplies for a
   * missing entry (score 0, no comments, empty text).
   */
  datatype PostData = PostData(score: int, numComments: int, createdUtc: Option<real>, selftext: string)

  /**
   * One child of the comment listing, with the defaults `.get` supplies for
   * a missing entry: no kind, empty body, score 0, author "[deleted]".
   */
  datatype CommentChild = CommentChild(kind: Option<string>, body: string, score: int, author: string)

  /**
   * A thread's JSON as the code reads it. `Unreadable`: not JSON, or parts
   * of the wrong shape, so that reading them raises. `NotListing`: not a
   * non-empty list. `Listing`: the first post of the first element, when
   * there is one, and the comment children of the second element, when the
   * list has one.
   */
  datatype ThreadJson =
    | Unreadable
    | NotListing
    | Listing(post: Option<PostData>, comments: Option<seq<CommentChild>>)

  /** The first `reddit\.com/r/([^/]+)/` match from `i` on: its group. */
  function SubredditFrom(url: string, i: nat): (r: Option<string>)
    ensures r.Some? ==> |r.value| > 0 && '/' !in r.value
    ensures r.Some? ==> Contains(url, "reddit.com/r/" + r.value + "/")
    ensures r.None? <==> forall j: nat :: i <= j ==> !SubredditAt(url, j)
  {
    match FirstIndex(|url|, SubredditAtFn(url), i)
    case Some(j) =>
      assert SubredditAt(url, j);
      SubredditOccurs(url, j);
      Some(CutAt(url[j + 13..], '/'))
    case None =>
      assert forall j: nat :: i <= j ==> !SubredditAt(url, j) by {
        forall j: nat | i <= j
          ensures !SubredditAt(url, j)
        {
          if j < |url| {
            assert !SubredditAtFn(url)(j);
          }
        }
      }
      None
  }

  function SubredditAtFn(url: string): nat -> bool { (j: nat) => SubredditAt(url, j) }

  /** When the leftmost match from `i` on is at `j`, the group is that match's. */
  lemma SubredditFromAt(url: string, i: nat, j: nat)
    requires i <= j && SubredditAt(url, j)
    requires forall k: nat :: i <= k < j ==> !SubredditAt(url, k)
    ensures SubredditFrom(url, i) == Some(CutAt(url[j + 13..], '/'))
  {
    FirstIndexAt(|url|, SubredditAtFn(url), i, j);
  }

  /** `reddit\.com/r/([^/]+)/` matches at `j`. */
  predicate SubredditAt(url: string, j: nat) {
    OccursAt(url, "reddit.com/r/", j) && 0 < |CutAt(url[j + 13..], '/')| < |url| - j - 13
  }

  /** A match at `j` is an occurrence of the prefix, the group and the slash. */
  lemma SubredditOccurs(url: string, j: nat)
    requires SubredditAt(url, j)
    ensures OccursAt(url, "reddit.com/r/" + CutAt(url[j + 13..], '/') + "/", j)
    ensures Contains(url, "reddit.com/r/" + CutAt(url[j + 13..], '/') + "/")
  {
    var rest := url[j + 13..];
    var name := CutAt(rest, '/');
    var n := 13 + |name| + 1;
    assert rest[..|name| + 1] == name + "/" by {
      assert rest[..|name|] == name && rest[|name|] == '/';
    }
    assert url[j..j + n] == url[j..j + 13] + rest[..|name| + 1];
    assert "reddit.com/r/" + name + "/" == "reddit.com/r/" + (name + "/");
    assert OccursAt(url, "reddit.com/r/" + name + "/", j);
  }

  /** The subreddit named in the URL, or "unknown" when the pattern does not match. */
  function SubredditOf(url: string): (r: string)
    ensures r != ""
    ensures (forall j: nat :: !SubredditAt(url, j)) ==> r == "unknown"
    ensures (exists j: nat :: SubredditAt(url, j)) ==> Contains(url, "reddit.com/r/" + r + "/")
  {
    SubredditFrom(url, 0).GetOr("unknown")
  }

  /** When the leftmost match is at `j`, the subreddit is its group. */
  lemma SubredditOfAt(url: string, j: nat)
    requires SubredditAt(url, j)
    requires forall k: nat :: k < j ==> !SubredditAt(url, k)
    ensures SubredditOf(url) == CutAt(url[j + 13..], '/')
  {
    SubredditFromAt(url, 0, j);
  }

  /** The search title without its ": r/<name>" and then its " - Reddit" suffix, or "Reddit Discussion". */
  function RedditTitle(h: Hit): string {
    CutSuffix(CutSuffix(h.title.GetOr("Reddit Discussion"), SubredditTitleTailFn()), RedditTitleTailFn())
  }

  /** The thread's JSON address: the URL before any `?`, without trailing slashes, and ".json". */
  function JsonUrl(url: string): string {
    RStripChar(CutAt(url, '?'), '/') + ".json"
  }

  /** A comment whose text counts: of kind `t1`, with a body that is neither empty nor deleted nor removed. */
  predicate Counted(c: CommentChild) {
    c.kind == Some("t1") && c.body != "" && c.body != "[deleted]" && c.body != "[removed]"
  }

  /** The bodies of the counted comments, in order. */
  function Bodies(xs: seq<CommentChild>): seq<string> {
    if xs == [] then []
    else Bodies(xs[..|xs| - 1]) + (if Counted(xs[|xs| - 1]) then [xs[|xs| - 1].body] else [])
  }

  /** The analysis `fetch_reddit_thread` applies to texts: `analyze_sentiment`. */
  function Analyzer(): string -> (SentimentType, Option<string>) {
    (t: string) => SentimentOf(t)
  }

  /** `analyze` applied to `t`; the term that lets `IsSentimentAnalysis` be used one text at a time. */
  ghost function Analysis(analyze: string -> (SentimentType, Option<string>), t: string): (SentimentType, Option<string>) {
    analyze(t)
  }

  /** `analyze` is `analyze_sentiment`. */
  ghost predicate IsSentimentAnalysis(analyze: string -> (SentimentType, Option<string>)) {
    forall t {:trigger Analysis(analyze, t)} :: Analysis(analyze, t) == SentimentOf(t)
  }

  /** `analyze` gives a reason exactly for the negative and mixed verdicts. */
  ghost predicate ReasonsForWarnings(analyze: string -> (SentimentType, Option<string>)) {
    forall t :: analyze(t).1.Some? <==> analyze(t).0 == Negative || analyze(t).0 == Mixed
  }

  /** The source's analysis has a reason exactly for the verdicts that warn. */
  lemma AnalyzerFacts()
    ensures IsSentimentAnalysis(Analyzer())
    ensures ReasonsForWarnings(Analyzer())
  {
    forall t ensures Analyzer()(t).1.Some? <==> Analyzer()(t).0 == Negative || Analyzer()(t).0 == Mixed {
      SentimentClassification(t);
    }
  }

  /** The comment `fetch_reddit_thread` keeps for a counted comment. */
  function Digest(c: CommentChild, analyze: string -> (SentimentType, Option<string>)): RedditComment {
    RedditComment(c.author, c.score, Take(c.body, 300), analyze(c.body).0)
  }

  /** The counted comments with a positive score, as digests, in order. */
  function Candidates(xs: seq<CommentChild>, analyze: string -> (SentimentType, Option<string>)): seq<RedditComment> {
    if xs == [] then []
    else
      Candidates(xs[..|xs| - 1], analyze)
      + (if Counted(xs[|xs| - 1]) && xs[|xs| - 1].score > 0 then [Digest(xs[|xs| - 1], analyze)] else [])
  }

  /** The top comments: the first three candidates among the first ten children. */
  function TopComments(children: seq<CommentChild>, analyze: string -> (SentimentType, Option<string>)): seq<RedditComment> {
    Take(Candidates(Take(children, 10), analyze), 3)
  }

  /** The counted bodies among the first ten children. */
  function CommentBodies(children: seq<CommentChild>): seq<string> {
    Bodies(Take(children, 10))
  }

  lemma TakeSnoc<T>(xs: seq<T>, x: T, n: nat)
    ensures Take(xs + [x], n) == if |Take(xs, n)| < n then Take(xs, n) + [x] else Take(xs, n)
  {
    if |xs| < n {
      assert Take(xs, n) == xs;
    } else {
      assert (xs + [x])[..n] == xs[..n];
    }
  }

  /** The comment loop has seen the first `i` children. */
  ghost predicate CommentsOnTrack(xs: seq<CommentChild>, analyze: string -> (SentimentType, Option<string>), i: nat,
                                  topComments: seq<RedditComment>, allCommentText: seq<string>) {
    && i <= |xs|
    && allCommentText == Bodies(xs[..i])
    && topComments == Take(Candidates(xs[..i], analyze), 3)
  }

  lemma CommentSkip(xs: seq<CommentChild>, analyze: string -> (SentimentType, Option<string>), i: nat,
                    topComments: seq<RedditComment>, allCommentText: seq<string>)
    requires CommentsOnTrack(xs, analyze, i, topComments, allCommentText) && i < |xs| && !Counted(xs[i])
    ensures CommentsOnTrack(xs, analyze, i + 1, topComments, allCommentText)
  {
    assert xs[..i + 1][..i] == xs[..i];
  }

  lemma CommentKeep(xs: seq<CommentChild>, analyze: string -> (SentimentType, Option<string>), i: nat,
                    topComments: seq<RedditComment>, allCommentText: seq<string>)
    requires CommentsOnTrack(xs, analyze, i, topComments, allCommentText) && i < |xs| && Counted(xs[i])
    ensures CommentsOnTrack(xs, analyze, i + 1,
      if |topComments| < 3 && xs[i].score > 0 then topComments + [Digest(xs[i], analyze)] else topComments,
      allCommentText + [xs[i].body])
  {
    assert xs[..i + 1][..i] == xs[..i];
    TakeSnoc(Candidates(xs[..i], analyze), Digest(xs[i], analyze), 3);
  }

  /** The comment loop of `fetch_reddit_thread` over the first ten children. */
  method CollectComments(children: seq<CommentChild>, ghost analyze: string -> (SentimentType, Option<string>))
    returns (topComments: seq<RedditComment>, allCommentText: seq<string>)
    requires IsSentimentAnalysis(analyze)
    ensures topComments == TopComments(children, analyze)
    ensures allCommentText == CommentBodies(children)
  {
    var xs := Take(children, 10);
    topComments, allCommentText := [], [];
    for i := 0 to |xs|
      invariant CommentsOnTrack(xs, analyze, i, topComments, allCommentText)
    {
      var comment := xs[i];
      if comment.kind != Some("t1") {
        CommentSkip(xs, analyze, i, topComments, allCommentText);
        continue;
      }
      var body, score, author := comment.body, comment.score, comment.author;
      if body != "" && body != "[deleted]" && body != "[removed]" {
        var sentiment, _ := AnalyzeSentiment(body);
        assert Analysis(analyze, body) == SentimentOf(body);
        CommentKeep(xs, analyze, i, topComments, allCommentText);
        allCommentText := allCommentText + [body];
        if |topComments| < 3 && score > 0 {
          topComments := topComments + [RedditComment(author, score, Take(body, 300), sentiment)];
        }
      } else {
        CommentSkip(xs, analyze, i, topComments, allCommentText);
      }
    }
    assert xs[..|xs|] == xs;
  }

  /** The post step: score, comment count, creation time, and the text's first 500 characters unless empty. */
  function WithPost(r: RedditResult, post: Option<PostData>): (r': RedditResult)
    ensures r'.(score := r.score, numComments := r.numComments, createdUtc := r.createdUtc, selftext := r.selftext) == r
    ensures r'.selftext.Some? ==> 0 < |r'.selftext.value| <= 500 || r'.selftext == r.selftext
  {
    match post
    case None => r
    case Some(p) =>
      r.(score := p.score, numComments := p.numComments, createdUtc := p.createdUtc,
         selftext := if Take(p.selftext, 500) == "" then None else Some(Take(p.selftext, 500)))
  }

  /**
   * The comment step: the top comments, the sentiment of all counted bodies
   * joined by spaces, and a warning with its reason when that sentiment is
   * negative or mixed.
   */
  function WithComments(r: RedditResult, comments: Option<seq<CommentChild>>,
                        analyze: string -> (SentimentType, Option<string>)): (r': RedditResult)
    ensures r'.(topComments := r.topComments, communitySentiment := r.communitySentiment,
                hasWarning := r.hasWarning, warningReason := r.warningReason) == r
    ensures comments.Some? ==> r'.topComments == TopComments(comments.value, analyze)
  {
    match comments
    case None => r
    case Some(children) =>
      var verdict := analyze(Join(" ", CommentBodies(children)));
      var r1 := r.(topComments := TopComments(children, analyze), communitySentiment := verdict.0);
      if verdict.0 == Negative || verdict.0 == Mixed then r1.(hasWarning := true, warningReason := verdict.1) else r1
  }

  /** The record before the fetch: title, URL and subreddit. */
  function RedditBase(h: Hit): RedditResult {
    NewRedditResult(RedditTitle(h), Url(h), SubredditOf(Url(h)))
  }

  /** The record after the thread fetch answered `response`. */
  function WithThread(r: RedditResult, response: Fetched<ThreadJson>,
                      analyze: string -> (SentimentType, Option<string>)): RedditResult {
    if !(response.Answer? && response.status == 200) then r.(previewAvailable := false)
    else match response.body
      case Unreadable => r.(previewAvailable := false)
      case NotListing => r
      case Listing(post, comments) => WithComments(WithPost(r, post), comments, analyze)
  }

  /** The record `fetch_reddit_thread` returns for a hit, given what the JSON fetch yields and how texts are analysed. */
  function ThreadRecord(h: Hit, fetch: string -> Fetched<ThreadJson>,
                        analyze: string -> (SentimentType, Option<string>)): RedditResult {
    WithThread(RedditBase(h), fetch(JsonUrl(Url(h))), analyze)
  }

  /** `fetch_reddit_thread`, setting the record's fields one step at a time. */
  method FetchRedditThread(h: Hit, fetch: string -> Fetched<ThreadJson>,
                           ghost analyze: string -> (SentimentType, Option<string>)) returns (result: RedditResult)
    requires IsSentimentAnalysis(analyze)
    ensures result == ThreadRecord(h, fetch, analyze)
  {
    var url := Url(h);
    result := RedditBase(h);
    var response := fetch(JsonUrl(url));
    if response.Answer? && response.status == 200 {
      match response.body
      case Unreadable =>
        result := result.(previewAvailable := false);
      case NotListing =>
      case Listing(post, comments) =>
        result := ApplyPost(result, post);
        result := ApplyComments(result, comments, analyze);
    } else {
      result := result.(previewAvailable := false);
    }
  }

  /** The post step of `fetch_reddit_thread`. */
  method ApplyPost(r0: RedditResult, post: Option<PostData>) returns (r: RedditResult)
    ensures r == WithPost(r0, post)
  {
    r := r0;
    if post.Some? {
      var p := post.value;
      r := r.(score := p.score, numComments := p.numComments, createdUtc := p.createdUtc);
      var text := Take(p.selftext, 500);
      r := r.(selftext := if text == "" then None else Some(text));
    }
  }

  /** The comment step of `fetch_reddit_thread`. */
  method ApplyComments(r0: RedditResult, comments: Option<seq<CommentChild>>,
                       ghost analyze: string -> (SentimentType, Option<string>)) returns (r: RedditResult)
    requires IsSentimentAnalysis(analyze)
    ensures r == WithComments(r0, comments, analyze)
  {
    r := r0;
    if comments.Some? {
      var topComments, allCommentText := CollectComments(comments.value, analyze);
      r := r.(topComments := topComments);
      var overall, warningReason := AnalyzeSentiment(Join(" ", allCommentText));
      assert Analysis(analyze, Join(" ", allCommentText)) == SentimentOf(Join(" ", allCommentText));
      r := r.(communitySentiment := overall);
      if overall == Negative || overall == Mixed {
        r := r.(hasWarning := true, warningReason := warningReason);
      }
    }
  }

  /**
   * A thread carries a warning exactly when its community sentiment is
   * negative or mixed, and it has a warning reason exactly when it carries
   * a warning, for an analysis that gives reasons for those verdicts only
   * (as `analyze_sentiment` does, by `AnalyzerFacts`).
   */
  lemma ThreadRecordWarning(h: Hit, fetch: string -> Fetched<ThreadJson>, analyze: string -> (SentimentType, Option<string>))
    requires ReasonsForWarnings(analyze)
    ensures var r := ThreadRecord(h, fetch, analyze);
      && (r.hasWarning <==> r.communitySentiment == Negative || r.communitySentiment == Mixed)
      && (r.warningReason.Some? <==> r.hasWarning)
  {
    WithThreadWarning(RedditBase(h), fetch(JsonUrl(Url(h))), analyze);
  }

  /** From a record without a warning, the thread fetch keeps the warning tied to the sentiment. */
  lemma WithThreadWarning(r: RedditResult, response: Fetched<ThreadJson>,
                          analyze: string -> (SentimentType, Option<string>))
    requires ReasonsForWarnings(analyze)
    requires !r.hasWarning && r.warningReason.None? && r.communitySentiment == Neutral
    ensures var r' := WithThread(r, response, analyze);
      && (r'.hasWarning <==> r'.communitySentiment == Negative || r'.communitySentiment == Mixed)
      && (r'.warningReason.Some? <==> r'.hasWarning)
  {
    if response.Answer? && response.status == 200 && response.body.Listing? {
      var withPost := WithPost(r, response.body.post);
      assert !withPost.hasWarning && withPost.warningReason.None? && withPost.communitySentiment == Neutral;
      WithCommentsWarning(withPost, response.body.comments, analyze);
    }
  }

  /** The comment step, from a record without a warning, keeps the warning tied to the sentiment. */
  lemma WithCommentsWarning(r: RedditResult, comments: Option<seq<CommentChild>>, analyze: string -> (SentimentType, Option<string>))
    requires ReasonsForWarnings(analyze)
    requires !r.hasWarning && r.warningReason.None? && r.communitySentiment == Neutral
    ensures var r' := WithComments(r, comments, analyze);
      && (r'.hasWarning <==> r'.communitySentiment == Negative || r'.communitySentiment == Mixed)
      && (r'.warningReason.Some? <==> r'.hasWarning)
  {
    if comments.Some? {
      var verdict := analyze(Join(" ", CommentBodies(comments.value)));
      assert verdict.1.Some? <==> verdict.0 == Negative || verdict.0 == Mixed;
    }
  }

  /** Title, URL and subreddit come from the hit: the fetch does not touch them. */
  lemma ThreadRecordIdentity(h: Hit, fetch: string -> Fetched<ThreadJson>, analyze: string -> (SentimentType, Option<string>))
    ensures var r := ThreadRecord(h, fetch, analyze);
      r.title == RedditTitle(h) && r.url == Url(h) && r.subreddit == SubredditOf(Url(h))
  {
    WithThreadIdentity(RedditBase(h), fetch(JsonUrl(Url(h))), analyze);
  }

  /** The thread fetch never changes the title, the URL or the subreddit. */
  lemma WithThreadIdentity(r: RedditResult, response: Fetched<ThreadJson>,
                           analyze: string -> (SentimentType, Option<string>))
    ensures var r' := WithThread(r, response, analyze);
      r'.title == r.title && r'.url == r.url && r'.subreddit == r.subreddit
  {
    if response.Answer? && response.status == 200 && response.body.Listing? {
      var withPost := WithPost(r, response.body.post);
      var r' := WithComments(withPost, response.body.comments, analyze);
      assert r'.title == withPost.title == r.title;
      assert r'.url == withPost.url == r.url;
      assert r'.subreddit == withPost.subreddit == r.subreddit;
    }
  }

  /** The post text is at most 500 characters and never empty; at most three comments are kept. */
  lemma ThreadRecordBounds(h: Hit, fetch: string -> Fetched<ThreadJson>, analyze: string -> (SentimentType, Option<string>))
    ensures var r := ThreadRecord(h, fetch, analyze);
      && (r.selftext.Some? ==> 0 < |r.selftext.value| <= 500)
      && |r.topComments| <= 3
  {
    WithThreadBounds(RedditBase(h), fetch(JsonUrl(Url(h))), analyze);
  }

  /** From a record without text or comments, the thread fetch keeps the text and the comments within their bounds. */
  lemma WithThreadBounds(r: RedditResult, response: Fetched<ThreadJson>,
                         analyze: string -> (SentimentType, Option<string>))
    requires r.selftext.None? && r.topComments == []
    ensures var r' := WithThread(r, response, analyze);
      && (r'.selftext.Some? ==> 0 < |r'.selftext.value| <= 500)
      && |r'.topComments| <= 3
  {
    if response.Answer? && response.status == 200 && response.body.Listing? {
      var withPost := WithPost(r, response.body.post);
      var r' := WithComments(withPost, response.body.comments, analyze);
      assert r'.selftext == withPost.selftext;
      if response.body.comments.Some? {
        TopCommentsProperties(response.body.comments.value, analyze);
      }
    }
  }

  /**
   * The preview is unavailable exactly when the fetch failed, did not answer
   * 200, or gave a body that could not be read; then nothing else comes from
   * the fetch.
   */
  lemma ThreadRecordPreview(h: Hit, fetch: string -> Fetched<ThreadJson>, analyze: string -> (SentimentType, Option<string>))
    ensures var r := ThreadRecord(h, fetch, analyze);
      var response := fetch(JsonUrl(Url(h)));
      !r.previewAvailable <==> !(response.Answer? && response.status == 200) || response.body.Unreadable?
    ensures var r := ThreadRecord(h, fetch, analyze);
      !r.previewAvailable ==> r == RedditBase(h).(previewAvailable := false)
  {
    var base := RedditBase(h);
    var response := fetch(JsonUrl(Url(h)));
    if response.Answer? && response.status == 200 && response.body.Listing? {
      var withPost := WithPost(base, response.body.post);
      var r := WithComments(withPost, response.body.comments, analyze);
      assert r.previewAvailable == withPost.previewAvailable == base.previewAvailable;
    }
  }

  /** Each candidate is the digest of a counted comment with a positive score. */
  lemma {:induction false} CandidatesElements(xs: seq<CommentChild>, analyze: string -> (SentimentType, Option<string>))
    ensures |Candidates(xs, analyze)| <= |xs|
    ensures forall j :: 0 <= j < |Candidates(xs, analyze)| ==>
      exists k :: 0 <= k < |xs| && Counted(xs[k]) && xs[k].score > 0 && Candidates(xs, analyze)[j] == Digest(xs[k], analyze)
  {
    if xs != [] {
      var init := xs[..|xs| - 1];
      CandidatesElements(init, analyze);
      var c := Candidates(xs, analyze);
      forall j | 0 <= j < |c|
        ensures exists k :: 0 <= k < |xs| && Counted(xs[k]) && xs[k].score > 0 && c[j] == Digest(xs[k], analyze)
      {
        if j < |Candidates(init, analyze)| {
          var k :| 0 <= k < |init| && Counted(init[k]) && init[k].score > 0 && Candidates(init, analyze)[j] == Digest(init[k], analyze);
          assert xs[k] == init[k];
        } else {
          assert c[j] == Digest(xs[|xs| - 1], analyze);
        }
      }
    }
  }

  /**
   * At most three top comments, each the digest of a counted comment with a
   * positive score among the first ten children: its author and score, its
   * first 300 characters, and the class of its whole body.
   */
  lemma TopCommentsProperties(children: seq<CommentChild>, analyze: string -> (SentimentType, Option<string>))
    ensures |TopComments(children, analyze)| <= 3
    ensures forall j :: 0 <= j < |TopComments(children, analyze)| ==>
      exists k :: 0 <= k < |children| && k < 10 && Counted(children[k]) && children[k].score > 0 && TopComments(children, analyze)[j] == Digest(children[k], analyze)
  {
    var xs := Take(children, 10);
    CandidatesElements(xs, analyze);
    var c := Candidates(xs, analyze);
    var t := TopComments(children, analyze);
    assert t == c[..|t|];
    forall j | 0 <= j < |t|
      ensures exists k :: 0 <= k < |children| && k < 10 && Counted(children[k]) && children[k].score > 0 && t[j] == Digest(children[k], analyze)
    {
      assert t[j] == c[j];
      var k :| 0 <= k < |xs| && Counted(xs[k]) && xs[k].score > 0 && c[j] == Digest(xs[k], analyze);
      assert xs[k] == children[k];
    }
  }

  /** A post URL's match of the post pattern is a match of the subreddit pattern. */
  lemma PostAtSubreddit(url: string, j: nat)
    requires PostAt(url, j)
    ensures SubredditAt(url, j)
  {
    var rest := url[j + 13..];
    var sub := CutAt(rest, '/');
    assert rest[|sub|] == '/' by {
      assert rest[|sub|..|sub| + 10] == "/comments/";
    }
  }

  /** A post URL always names its subreddit: the record never falls back to "unknown" for it. */
  lemma SubredditOfPost(url: string)
    requires IsPostUrl(url)
    ensures SubredditFrom(url, 0).Some? && SubredditOf(url) == SubredditFrom(url, 0).value
  {
    var j :| 0 <= j <= |url| && PostAt(url, j);
    PostAtSubreddit(url, j);
  }

  // ---------------------------------------------------------------------
  // search_reddit and search_huggingface
  // ---------------------------------------------------------------------

  function ThreadRecordFn(fetch: string -> Fetched<ThreadJson>, analyze: string -> (SentimentType, Option<string>)): Hit -> RedditResult {
    (h: Hit) => ThreadRecord(h, fetch, analyze)
  }

  /** What `search_reddit` returns for the hits of its web search. */
  function RedditFound(hits: seq<Hit>, maxResults: int, fetch: string -> Fetched<ThreadJson>,
                       analyze: string -> (SentimentType, Option<string>)): seq<RedditResult> {
    Prefix(Map(RedditFiltered(hits, maxResults), ThreadRecordFn(fetch, analyze)), maxResults * 2)
  }

  /**
   * `search_reddit`: at most `2 * max_results` records (none when
   * `max_results` is below one), the `j`-th fetched for the `j`-th kept post.
   */
  lemma RedditFoundProperties(hits: seq<Hit>, maxResults: int, fetch: string -> Fetched<ThreadJson>,
                              analyze: string -> (SentimentType, Option<string>))
    ensures |RedditFound(hits, maxResults, fetch, analyze)| <= if maxResults >= 1 then 2 * maxResults else 0
    ensures |RedditFound(hits, maxResults, fetch, analyze)| <= |RedditFiltered(hits, maxResults)|
    ensures forall j :: 0 <= j < |RedditFound(hits, maxResults, fetch, analyze)| ==>
      RedditFound(hits, maxResults, fetch, analyze)[j] == ThreadRecord(RedditFiltered(hits, maxResults)[j], fetch, analyze)
  {
    var f := RedditFiltered(hits, maxResults);
    FilteredBound(hits, IsPostPageFn(), BaseUrlFn(), WithBaseUrlFn(), maxResults * 2);
    CappedMap(f, ThreadRecordFn(fetch, analyze), maxResults);
  }

  /** The records of `search_reddit` have distinct URLs, none with a fragment or a query. */
  lemma RedditFoundUrls(hits: seq<Hit>, maxResults: int, fetch: string -> Fetched<ThreadJson>,
                        analyze: string -> (SentimentType, Option<string>))
    ensures forall j :: 0 <= j < |RedditFound(hits, maxResults, fetch, analyze)| ==>
      '#' !in RedditFound(hits, maxResults, fetch, analyze)[j].url && '?' !in RedditFound(hits, maxResults, fetch, analyze)[j].url
    ensures forall j, l :: 0 <= j < l < |RedditFound(hits, maxResults, fetch, analyze)| ==>
      RedditFound(hits, maxResults, fetch, analyze)[j].url != RedditFound(hits, maxResults, fetch, analyze)[l].url
  {
    RedditFoundUrlsOf(hits, maxResults, fetch, analyze);
    RedditFilteredProperties(hits, maxResults);
  }

  /** The `j`-th record of `search_reddit` carries the URL of the `j`-th kept post. */
  lemma RedditFoundUrlsOf(hits: seq<Hit>, maxResults: int, fetch: string -> Fetched<ThreadJson>,
                          analyze: string -> (SentimentType, Option<string>))
    ensures |RedditFound(hits, maxResults, fetch, analyze)| <= |RedditFiltered(hits, maxResults)|
    ensures forall j :: 0 <= j < |RedditFound(hits, maxResults, fetch, analyze)| ==>
      RedditFound(hits, maxResults, fetch, analyze)[j].url == Url(RedditFiltered(hits, maxResults)[j])
  {
    var f := RedditFiltered(hits, maxResults);
    var found := RedditFound(hits, maxResults, fetch, analyze);
    RedditFoundProperties(hits, maxResults, fetch, analyze);
    forall j | 0 <= j < |found|
      ensures found[j].url == Url(f[j])
    {
      ThreadRecordIdentity(f[j], fetch, analyze);
    }
  }

  /**
   * `search_reddit`: the web search for `site:reddit.com <query>` asks for
   * four times the results; the kept posts are fetched one by one and their
   * comments analysed by `analyze_sentiment`.
   */
  method SearchReddit(query: string, maxResults: int, search: (string, int) -> seq<Hit>,
                      fetch: string -> Fetched<ThreadJson>) returns (results: seq<RedditResult>)
    ensures results == RedditFound(search("site:reddit.com " + query, maxResults * 4), maxResults, fetch, Analyzer())
  {
    var searchResults := search("site:reddit.com " + query, maxResults * 4);
    var filtered := FilterRedditHits(searchResults, maxResults);
    results := Prefix(Map(filtered, ThreadRecordFn(fetch, Analyzer())), maxResults * 2);
  }

  /**
   * `search_huggingface`: the web search for `site:huggingface.co <query>`
   * asks for three times the results.
   */
  method SearchHuggingFace(query: string, maxResults: int, search: (string, int) -> seq<Hit>)
    returns (results: seq<HuggingFaceResult>)
    ensures results == HuggingFaceFound(search("site:huggingface.co " + query, maxResults * 3), maxResults)
  {
    var searchResults := search("site:huggingface.co " + query, maxResults * 3);
    results := SearchHuggingFaceHits(searchResults, maxResults);
  }

  // ---------------------------------------------------------------------
  // execute_parallel_search
  // ---------------------------------------------------------------------

  /** How one of the three concurrent searches ended: its records, or the message of what it raised. */
  datatype Outcome<T> = Done(value: seq<T>) | Raised(message: string)

  /** The records a search contributes: none when it raised. */
  function Delivered<T>(o: Outcome<T>): seq<T> {
    if o.Done? then o.value else []
  }

  /** The error line a search that raised contributes: `prefix` and the exception's text. */
  function ErrorLine<T>(prefix: string, o: Outcome<T>): seq<string> {
    if o.Raised? then [prefix + o.message] else []
  }

  /** The errors `execute_parallel_search` reports, in the order GitHub, Hugging Face, Reddit. */
  function Failures(github: Outcome<GitHubResult>, huggingface: Outcome<HuggingFaceResult>,
                    reddit: Outcome<RedditResult>): seq<string> {
    ErrorLine("GitHub search failed: ", github)
    + ErrorLine("HuggingFace search failed: ", huggingface)
    + ErrorLine("Reddit search failed: ", reddit)
  }

  /** Some reported error begins with `prefix`. */
  predicate Reported(errors: seq<string>, prefix: string) {
    exists e :: e in errors && StartsWith(e, prefix)
  }

  lemma ReportedConcat(a: seq<string>, b: seq<string>, prefix: string)
    ensures Reported(a + b, prefix) <==> Reported(a, prefix) || Reported(b, prefix)
  {
    if Reported(a + b, prefix) {
      var e :| e in a + b && StartsWith(e, prefix);
      assert e in a || e in b;
    }
    if Reported(a, prefix) {
      var e :| e in a && StartsWith(e, prefix);
      assert e in a + b;
    }
    if Reported(b, prefix) {
      var e :| e in b && StartsWith(e, prefix);
      assert e in a + b;
    }
  }

  /** A search's own error line is reported under its prefix exactly when it raised. */
  lemma ReportedOwn<T>(prefix: string, o: Outcome<T>)
    ensures Reported(ErrorLine(prefix, o), prefix) <==> o.Raised?
  {
    if o.Raised? {
      assert StartsWith(prefix + o.message, prefix);
      assert prefix + o.message in ErrorLine(prefix, o);
    }
  }

  /** Another search's error line never begins with a prefix whose first letter differs. */
  lemma NotReportedBy<T>(line: string, o: Outcome<T>, prefix: string)
    requires |line| > 0 && |prefix| > 0 && line[0] != prefix[0]
    ensures !Reported(ErrorLine(line, o), prefix)
  {
    if o.Raised? {
      forall e | e in ErrorLine(line, o)
        ensures !StartsWith(e, prefix)
      {
        assert e[0] == line[0];
      }
    }
  }

  /**
   * `execute_parallel_search`, given how the three searches ended: a search
   * that raised contributes no records and one error line.
   */
  method ExecuteParallelSearch(github: Outcome<GitHubResult>, huggingface: Outcome<HuggingFaceResult>,
                               reddit: Outcome<RedditResult>)
    returns (githubResults: seq<GitHubResult>, huggingfaceResults: seq<HuggingFaceResult>,
             redditResults: seq<RedditResult>, errors: seq<string>)
    ensures githubResults == Delivered(github)
    ensures huggingfaceResults == Delivered(huggingface)
    ensures redditResults == Delivered(reddit)
    ensures errors == Failures(github, huggingface, reddit)
  {
    errors := [];
    if github.Raised? {
      errors := errors + ["GitHub search failed: " + github.message];
      githubResults := [];
    } else {
      githubResults := github.value;
    }
    if huggingface.Raised? {
      errors := errors + ["HuggingFace search failed: " + huggingface.message];
      huggingfaceResults := [];
    } else {
      huggingfaceResults := huggingface.value;
    }
    if reddit.Raised? {
      errors := errors + ["Reddit search failed: " + reddit.message];
      redditResults := [];
    } else {
      redditResults := reddit.value;
    }
  }

  /**
   * One error per search that raised and none for the others: an error
   * line for a search is reported exactly when that search raised.
   */
  lemma FailuresProperties(github: Outcome<GitHubResult>, huggingface: Outcome<HuggingFaceResult>,
                           reddit: Outcome<RedditResult>)
    ensures |Failures(github, huggingface, reddit)|
      == (if github.Raised? then 1 else 0) + (if huggingface.Raised? then 1 else 0) + (if reddit.Raised? then 1 else 0)
    ensures Reported(Failures(github, huggingface, reddit), "GitHub search failed: ") <==> github.Raised?
    ensures Reported(Failures(github, huggingface, reddit), "HuggingFace search failed: ") <==> huggingface.Raised?
    ensures Reported(Failures(github, huggingface, reddit), "Reddit search failed: ") <==> reddit.Raised?
  {
    var g, h, r := "GitHub search failed: ", "HuggingFace search failed: ", "Reddit search failed: ";
    var eg, eh, er := ErrorLine(g, github), ErrorLine(h, huggingface), ErrorLine(r, reddit);
    assert Failures(github, huggingface, reddit) == eg + eh + er;
    ReportedConcat(eg + eh, er, g);
    ReportedConcat(eg, eh, g);
    ReportedOwn(g, github);
    NotReportedBy(h, huggingface, g);
    NotReportedBy(r, reddit, g);
    ReportedConcat(eg + eh, er, h);
    ReportedConcat(eg, eh, h);
    ReportedOwn(h, huggingface);
    NotReportedBy(g, github, h);
    NotReportedBy(r, reddit, h);
    ReportedConcat(eg + eh, er, r);
    ReportedConcat(eg, eh, r);
    ReportedOwn(r, reddit);
    NotReportedBy(g, github, r);
    NotReportedBy(h, huggingface, r);
  }
}
