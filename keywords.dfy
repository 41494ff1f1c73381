/**
 * Query analysis for relevance ranking: the keyword list of `extract_keywords`
 * (tokens that are not stopwords, followed by the bigrams of adjacent kept
 * tokens) and the categorised intent of `extract_intent_keywords` (2- and
 * 3-word phrases, detected languages, technologies, tasks and actions, the
 * words without years and recency words, and the lower-cased query).
 */
module Keywords {
  import opened Text

  const Stopwords: set<string> := {
    "the", "a", "an", "and", "or", "but", "in", "on", "at", "to", "for",
    "of", "with", "by", "from", "as", "is", "was", "are", "were", "been",
    "be", "have", "has", "had", "do", "does", "did", "will", "would",
    "could", "should", "may", "might", "must", "can", "this", "that",
    "these", "those", "i", "you", "he", "she", "it", "we", "they",
    "using", "use", "make", "build", "create", "app", "application", "tool"
  }

  /** The tokens that are kept as keywords: not a stopword and longer than two characters. */
  predicate IsKeyword(w: string) {
    w !in Stopwords && |w| > 2
  }

  function KeptTokens(words: seq<string>): (r: seq<string>)
    ensures forall k :: 0 <= k < |r| ==> IsKeyword(r[k]) && r[k] in words
    ensures forall w :: w in words && IsKeyword(w) ==> w in r
  {
    if words == [] then []
    else (if IsKeyword(words[0]) then [words[0]] else []) + KeptTokens(words[1..])
  }

  /** One bigram per adjacent pair of keywords. */
  function Bigrams(kws: seq<string>): (r: seq<string>)
    ensures |r| == if |kws| == 0 then 0 else |kws| - 1
  {
    if |kws| <= 1 then [] else [kws[0] + " " + kws[1]] + Bigrams(kws[1..])
  }

  lemma {:induction false} BigramAt(kws: seq<string>, i: nat)
    requires i + 1 < |kws|
    ensures Bigrams(kws)[i] == kws[i] + " " + kws[i + 1]
  {
    if i > 0 {
      BigramAt(kws[1..], i - 1);
      assert kws[1..][i - 1] == kws[i] && kws[1..][i] == kws[i + 1];
    }
  }

  /** The keywords list followed by its bigrams. */
  predicate KeywordsThenBigrams(r: seq<string>, kws: seq<string>) {
    && |r| == |kws| + (if |kws| == 0 then 0 else |kws| - 1)
    && r[..|kws|] == kws
    && forall i :: 0 <= i < |kws| - 1 ==> r[|kws| + i] == kws[i] + " " + kws[i + 1]
  }

  /** `extract_keywords`: the kept tokens, then a bigram for each adjacent kept pair. */
  method ExtractKeywords(query: string) returns (r: seq<string>)
    ensures KeywordsThenBigrams(r, KeptTokens(Words(Lower(query))))
  {
    var keywords := KeptTokens(Words(Lower(query)));
    r := AppendBigrams(keywords);
  }

  method AppendBigrams(keywords: seq<string>) returns (r: seq<string>)
    ensures KeywordsThenBigrams(r, keywords)
  {
    var bigrams: seq<string> := [];
    var i := 0;
    while i < |keywords| - 1
      invariant 0 <= i <= if |keywords| == 0 then 0 else |keywords| - 1
      invariant |bigrams| == i
      invariant forall k :: 0 <= k < i ==> bigrams[k] == keywords[k] + " " + keywords[k + 1]
    {
      bigrams := bigrams + [keywords[i] + " " + keywords[i + 1]];
      i := i + 1;
    }
    r := keywords + bigrams;
    assert r[..|keywords|] == keywords;
  }

  /** The result of `extract_intent_keywords`. */
  datatype IntentKeywords = IntentKeywords(
    phrases: seq<string>,
    languages: seq<string>,
    technologies: seq<string>,
    tasks: seq<string>,
    actions: seq<string>,
    allWords: seq<string>,
    original: string)

  const Languages: seq<string> :=
    ["python", "javascript", "typescript", "java", "c++", "cpp", "rust", "go", "ruby", "php", "swift", "kotlin"]
  const Technologies: seq<string> :=
    ["react", "vue", "angular", "django", "flask", "fastapi", "express", "nextjs", "tensorflow", "pytorch", "opencv", "numpy"]
  const Tasks: seq<string> :=
    ["classification", "detection", "generation", "segmentation", "translation", "recognition", "prediction", "analysis", "optimization"]
  const Actions: seq<string> :=
    ["build", "create", "make", "implement", "develop", "train", "deploy", "optimize", "convert", "transform", "process", "analyze"]
  const RecencyWords: seq<string> := ["latest", "new", "recent"]

  /** The phrases contributed by word index `i`: the 3-word phrase if there is one, then the 2-word phrase. */
  function PhrasesAt(words: seq<string>, i: nat): seq<string>
    requires i < |words|
  {
    (if i + 2 < |words| then [Join(" ", words[i..i + 3])] else [])
    + (if i + 1 < |words| then [Join(" ", words[i..i + 2])] else [])
  }

  /** The phrases contributed by the first `i` word indexes, in order. */
  function PhrasesUpTo(words: seq<string>, i: nat): seq<string>
    requires i <= |words|
  {
    if i == 0 then [] else PhrasesUpTo(words, i - 1) + PhrasesAt(words, i - 1)
  }

  function Phrases(words: seq<string>): seq<string> {
    PhrasesUpTo(words, |words|)
  }

  function Min(a: int, b: int): int {
    if a <= b then a else b
  }

  function Max0(a: int): nat {
    if a <= 0 then 0 else a
  }

  lemma {:induction false} PhrasesUpToLength(words: seq<string>, i: nat)
    requires i <= |words|
    ensures |PhrasesUpTo(words, i)| == Min(i, Max0(|words| - 2)) + Min(i, Max0(|words| - 1))
  {
    if i > 0 {
      PhrasesUpToLength(words, i - 1);
    }
  }

  /** `n` words give `max(n-2, 0)` three-word phrases and `max(n-1, 0)` two-word phrases. */
  lemma PhrasesLength(words: seq<string>)
    ensures |Phrases(words)| == Max0(|words| - 2) + Max0(|words| - 1)
  {
    PhrasesUpToLength(words, |words|);
  }

  lemma {:induction false} PhrasesUpToPrefix(words: seq<string>, i: nat, j: nat)
    requires i <= j <= |words|
    ensures PhrasesUpTo(words, i) <= PhrasesUpTo(words, j)
    decreases j - i
  {
    if i < j {
      PhrasesUpToPrefix(words, i, j - 1);
    }
  }

  /**
   * Where each phrase sits: for a word index `i` with two more words after it,
   * its 3-word phrase is at position `2i` and its 2-word phrase right after
   * it; the last pair of words gives the final phrase.
   */
  lemma PhrasePositions(words: seq<string>, i: nat)
    requires i + 1 < |words|
    ensures i + 2 < |words| ==>
      && 2 * i + 1 < |Phrases(words)|
      && Phrases(words)[2 * i] == Join(" ", words[i..i + 3])
      && Phrases(words)[2 * i + 1] == Join(" ", words[i..i + 2])
    ensures i + 2 == |words| ==>
      2 * i < |Phrases(words)| && Phrases(words)[2 * i] == Join(" ", words[i..i + 2])
  {
    PhrasesUpToLength(words, i);
    PhrasesUpToPrefix(words, i + 1, |words|);
    assert PhrasesUpTo(words, i + 1) == PhrasesUpTo(words, i) + PhrasesAt(words, i);
  }

  /** The items of `list` that occur in `text`, in the order of `list`. */
  function Detected(list: seq<string>, text: string): (r: seq<string>)
    ensures forall k :: 0 <= k < |r| ==> r[k] in list && Contains(text, r[k])
    ensures forall x :: x in list && Contains(text, x) ==> x in r
    ensures |r| <= |list|
  {
    if list == [] then []
    else (if Contains(text, list[0]) then [list[0]] else []) + Detected(list[1..], text)
  }

  /** A four-digit token, such as a year (`^\d{4}$`). */
  predicate IsYear(w: string) {
    |w| == 4 && forall i :: 0 <= i < 4 ==> IsDigit(w[i])
  }

  predicate KeepsForIntent(w: string) {
    !IsYear(w) && w !in RecencyWords
  }

  /** The words without years and recency words, in order. */
  function CleanedWords(words: seq<string>): (r: seq<string>)
    ensures forall k :: 0 <= k < |r| ==> KeepsForIntent(r[k]) && r[k] in words
    ensures forall w :: w in words && KeepsForIntent(w) ==> w in r
  {
    if words == [] then []
    else (if KeepsForIntent(words[0]) then [words[0]] else []) + CleanedWords(words[1..])
  }

  /** What `extract_intent_keywords` returns for `query`. */
  function IntentKeywordsOf(query: string): IntentKeywords {
    var ql := Lower(query);
    var words := Split(ql);
    IntentKeywords(Phrases(words), Detected(Languages, ql), Detected(Technologies, ql),
                   Detected(Tasks, ql), Detected(Actions, ql), CleanedWords(words), ql)
  }

  /** `extract_intent_keywords`, collecting the phrases in a loop over the word indexes. */
  method ExtractIntentKeywords(query: string) returns (r: IntentKeywords)
    ensures r == IntentKeywordsOf(query)
    ensures |r.phrases| == Max0(|Split(Lower(query))| - 2) + Max0(|Split(Lower(query))| - 1)
  {
    var ql := Lower(query);
    var words := Split(ql);
    var phrases: seq<string> := [];
    for i := 0 to |words|
      invariant phrases == PhrasesUpTo(words, i)
    {
      if i + 2 < |words| {
        phrases := phrases + [Join(" ", words[i..i + 3])];
      }
      if i + 1 < |words| {
        phrases := phrases + [Join(" ", words[i..i + 2])];
      }
    }
    PhrasesLength(words);
    r := IntentKeywords(phrases, Detected(Languages, ql), Detected(Technologies, ql),
                        Detected(Tasks, ql), Detected(Actions, ql), CleanedWords(words), ql);
  }

  /** Detection is substring containment: an item inside a detected item is detected too. */
  lemma DetectedInner(list: seq<string>, text: string, a: string, m: string, b: string)
    requires a + m + b in Detected(list, text) && m in list
    ensures m in Detected(list, text)
  {
    ContainsInner(text, a, m, b);
  }

  /** So "java" is detected whenever "javascript" is. */
  lemma JavaWithJavascript(text: string)
    ensures "javascript" in Detected(Languages, text) ==> "java" in Detected(Languages, text)
  {
    if "javascript" in Detected(Languages, text) {
      assert "javascript" == "" + "java" + "script";
      assert Languages[3] == "java";
      DetectedInner(Languages, text, "", "java", "script");
    }
  }

  /** Years and recency words never reach `all_words`. */
  lemma CleanedWordsDropYears(query: string)
    ensures "2024" !in IntentKeywordsOf(query).allWords
    ensures forall w :: w in RecencyWords ==> w !in IntentKeywordsOf(query).allWords
  {
    assert IsYear("2024");
  }
}
