/**
 * The records and enumerations exchanged by the search backend: the three
 * result kinds (GitHub repositories, Hugging Face models and spaces, Reddit
 * threads), their status and sentiment labels, the generated per-platform
 * queries and the combined response.  Every `New…` function builds a record
 * the way the pydantic model does when only its required fields are given.
 */
module Models {
  import opened Wrappers
  import opened Intent

  datatype SourceType = GitHub | HuggingFace | Reddit {
    /** The enum's string value. */
    function Value(): string {
      match this
      case GitHub => "github"
      case HuggingFace => "huggingface"
      case Reddit => "reddit"
    }

    /** The position of the source in declaration order. */
    function Ordinal(): nat {
      match this
      case GitHub => 0
      case HuggingFace => 1
      case Reddit => 2
    }
  }

  datatype ProjectStatus = Active | Maintained | Stale | Abandoned | Unknown {
    function Value(): string {
      match this
      case Active => "active"
      case Maintained => "maintained"
      case Stale => "stale"
      case Abandoned => "abandoned"
      case Unknown => "unknown"
    }

    function Ordinal(): nat {
      match this
      case Active => 0
      case Maintained => 1
      case Stale => 2
      case Abandoned => 3
      case Unknown => 4
    }
  }

  datatype SentimentType = Positive | Mixed | Negative | Neutral {
    function Value(): string {
      match this
      case Positive => "positive"
      case Mixed => "mixed"
      case Negative => "negative"
      case Neutral => "neutral"
    }

    function Ordinal(): nat {
      match this
      case Positive => 0
      case Mixed => 1
      case Negative => 2
      case Neutral => 3
    }
  }

  /** Every project status, each exactly once. */
  function AllStatuses(): (r: seq<ProjectStatus>)
    ensures |r| == 5
    ensures forall s: ProjectStatus :: s.Ordinal() < |r| && r[s.Ordinal()] == s
    ensures forall i, j :: 0 <= i < j < |r| ==> r[i] != r[j]
  {
    [Active, Maintained, Stale, Abandoned, Unknown]
  }

  /** Every sentiment label, each exactly once. */
  function AllSentiments(): (r: seq<SentimentType>)
    ensures |r| == 4
    ensures forall s: SentimentType :: s.Ordinal() < |r| && r[s.Ordinal()] == s
    ensures forall i, j :: 0 <= i < j < |r| ==> r[i] != r[j]
  {
    [Positive, Mixed, Negative, Neutral]
  }

  /** Distinct labels serialise to distinct strings. */
  lemma ValuesDistinct()
    ensures forall a: ProjectStatus, b: ProjectStatus :: a.Value() == b.Value() ==> a == b
    ensures forall a: SentimentType, b: SentimentType :: a.Value() == b.Value() ==> a == b
    ensures forall a: SourceType, b: SourceType :: a.Value() == b.Value() ==> a == b
  {
    forall a: ProjectStatus, b: ProjectStatus | a.Value() == b.Value() ensures a == b {
      assert a.Value()[0] == b.Value()[0];
      if a.Value()[0] == 'a' { assert a.Value()[1] == b.Value()[1]; }
    }
    forall a: SentimentType, b: SentimentType | a.Value() == b.Value() ensures a == b {
      assert a.Value()[0] == b.Value()[0];
      if a.Value()[0] == 'n' { assert a.Value()[2] == b.Value()[2]; }
    }
    forall a: SourceType, b: SourceType | a.Value() == b.Value() ensures a == b {
      assert a.Value()[0] == b.Value()[0];
    }
  }

  /** A search request: the query must have between 3 and 1000 characters. */
  datatype SearchRequest = SearchRequest(query: string)

  function NewSearchRequest(query: string): (r: Option<SearchRequest>)
    ensures r.Some? <==> 3 <= |query| <= 1000
    ensures r.Some? ==> r.value.query == query
  {
    if 3 <= |query| <= 1000 then Some(SearchRequest(query)) else None
  }

  datatype GitHubResult = GitHubResult(
    title: string,
    url: string,
    description: Option<string>,
    stars: Option<int>,
    language: Option<string>,
    lastUpdated: Option<string>,
    status: ProjectStatus,
    cloneCommand: Option<string>,
    readmePreview: Option<string>,
    topics: seq<string>)
  {
    function Source(): SourceType { GitHub }
  }

  function NewGitHubResult(title: string, url: string): (r: GitHubResult)
    ensures r.title == title && r.url == url
    ensures r.status == Unknown && r.topics == []
    ensures r.description == None && r.stars == None && r.language == None && r.lastUpdated == None
    ensures r.cloneCommand == None && r.readmePreview == None
  {
    GitHubResult(title, url, None, None, None, None, Unknown, None, None, [])
  }

  datatype HuggingFaceResult = HuggingFaceResult(
    title: string,
    url: string,
    description: Option<string>,
    modelType: Option<string>,
    downloads: Option<int>,
    likes: Option<int>,
    spacesUrl: Option<string>,
    pipelineTag: Option<string>)
  {
    function Source(): SourceType { HuggingFace }
  }

  function NewHuggingFaceResult(title: string, url: string): (r: HuggingFaceResult)
    ensures r.title == title && r.url == url
    ensures r.description == None && r.modelType == None && r.downloads == None
    ensures r.likes == None && r.spacesUrl == None && r.pipelineTag == None
  {
    HuggingFaceResult(title, url, None, None, None, None, None, None)
  }

  datatype RedditComment = RedditComment(author: string, score: int, body: string, sentiment: SentimentType)

  function NewRedditComment(author: string, score: int, body: string): (r: RedditComment)
    ensures r.author == author && r.score == score && r.body == body && r.sentiment == Neutral
  {
    RedditComment(author, score, body, Neutral)
  }

  datatype RedditResult = RedditResult(
    title: string,
    url: string,
    subreddit: string,
    score: int,
    numComments: int,
    createdUtc: Option<real>,
    selftext: Option<string>,
    topComments: seq<RedditComment>,
    communitySentiment: SentimentType,
    hasWarning: bool,
    warningReason: Option<string>,
    previewAvailable: bool)
  {
    function Source(): SourceType { Reddit }
  }

  function NewRedditResult(title: string, url: string, subreddit: string): (r: RedditResult)
    ensures r.title == title && r.url == url && r.subreddit == subreddit
    ensures r.score == 0 && r.numComments == 0 && r.createdUtc == None && r.selftext == None
    ensures r.topComments == [] && r.communitySentiment == Neutral
    ensures !r.hasWarning && r.warningReason == None && r.previewAvailable
  {
    RedditResult(title, url, subreddit, 0, 0, None, None, [], Neutral, false, None, true)
  }

  /**
   * The generated per-platform queries, with the two attributes the query
   * generator attaches to the record and the search pipeline reads back:
   * `intent` and `sourceWeights`.  The declared pydantic class has only the
   * first four fields; `DeclaredQueries` is that class.
   */
  datatype GeneratedQueries = GeneratedQueries(
    githubQuery: string,
    huggingfaceQuery: string,
    redditQuery: string,
    reasoning: Option<string>,
    intent: Option<QueryIntent>,
    sourceWeights: Option<SourceWeights>)

  /** The record as the class declares it: the three queries and the reasoning. */
  datatype DeclaredQueries = DeclaredQueries(
    githubQuery: string,
    huggingfaceQuery: string,
    redditQuery: string,
    reasoning: Option<string>)

  /** What the declared class keeps of a record built with extra keyword arguments: they are ignored. */
  function Declared(q: GeneratedQueries): (r: DeclaredQueries)
    ensures r.githubQuery == q.githubQuery && r.huggingfaceQuery == q.huggingfaceQuery
    ensures r.redditQuery == q.redditQuery && r.reasoning == q.reasoning
  {
    DeclaredQueries(q.githubQuery, q.huggingfaceQuery, q.redditQuery, q.reasoning)
  }

  datatype SearchResults = SearchResults(
    github: seq<GitHubResult>,
    huggingface: seq<HuggingFaceResult>,
    reddit: seq<RedditResult>,
    generatedQueries: Option<GeneratedQueries>,
    synthesis: Option<string>,
    searchDurationMs: int,
    errors: seq<string>)

  function NewSearchResults(): (r: SearchResults)
    ensures r.github == [] && r.huggingface == [] && r.reddit == [] && r.errors == []
    ensures r.generatedQueries == None && r.synthesis == None && r.searchDurationMs == 0
  {
    SearchResults([], [], [], None, None, 0, [])
  }
}
