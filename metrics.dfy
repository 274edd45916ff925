/** The live text analysis shared by the engine's tracker and the
    conversation component's tracker, and the feedback record both of them
    keep. The two places that compute the analysis hold the same function
    text, so one definition serves both. */
module Analysis {
  import opened Text

  /** The alternatives of `/\b(um|uh|like|you know|basically|actually|well|so|right)\b/g`. */
  const LiveFillers: Vocabulary :=
    ["um", "uh", "like", "you know", "basically", "actually", "well", "so", "right"]

  datatype TextAnalysis = TextAnalysis(
    wordCount: nat,
    sentenceCount: nat,
    fillerCount: nat,
    questionCount: nat,
    avgWordsPerSentence: real)

  /** `text.split(/[.!?]+/).filter(s => s.trim().length > 0)`. */
  function Sentences(text: string): seq<string> {
    NonBlank(SplitRuns(text, IsSentenceEnd))
  }

  /** `performTextAnalysis(text)`. The word count is that of the white-space
      separated words of the text, zero exactly for blank text; there are no
      sentences exactly when the text holds only white space and `.!?`, and
      then the average is 0, otherwise it is words per sentence; fillers are
      counted on the lower-cased text and are present exactly when the pattern
      occurs; questions are the `?` characters. */
  function PerformTextAnalysis(text: string): (a: TextAnalysis)
    ensures a.wordCount == |Words(text)|
    ensures a.wordCount == 0 <==> IsBlank(text)
    ensures a.sentenceCount == |Sentences(text)|
    ensures a.sentenceCount == 0 <==> SpaceOrSentenceEnd(text)
    ensures a.sentenceCount == 0 ==> a.avgWordsPerSentence == 0.0
    ensures a.sentenceCount > 0 ==>
              a.avgWordsPerSentence == a.wordCount as real / a.sentenceCount as real
    ensures a.fillerCount == CountMatches(ToLower(text), LiveFillers)
    ensures a.fillerCount > 0 <==> Test(ToLower(text), LiveFillers)
    ensures a.questionCount == CountChar(text, '?')
  {
    var words := NonEmpty(SplitRuns(Trim(text), IsSpace));
    var sentences := Sentences(text);
    SplitRunsWords(Trim(text), 0);
    WordsOfTrim(text);
    WordsEmptyIffBlank(text);
    NoSentencesIff(text);
    CountPositiveIffTest(ToLower(text), LiveFillers);
    TextAnalysis(
      |words|,
      |sentences|,
      CountMatches(ToLower(text), LiveFillers),
      CountChar(text, '?'),
      if |sentences| > 0 then |words| as real / |sentences| as real else 0.0)
  }

  /** The `metrics` sub-record of the live feedback. */
  datatype LiveMetrics = LiveMetrics(words: nat, sentences: nat, fillers: nat, questions: nat)

  /** The live feedback record: tags, a confidence score and the last metrics.
      Each tracker pushes tags from fixed lists of texts; `S` names the
      strength texts and `A` the improvement texts. */
  datatype LiveFeedback<S, A> = LiveFeedback(
    strengths: seq<S>,
    areasToImprove: seq<A>,
    confidence: int,
    metrics: LiveMetrics)

  const ZeroMetrics := LiveMetrics(0, 0, 0, 0)

  /** The metrics of an analysis as the trackers store them. */
  function MetricsOf(a: TextAnalysis): LiveMetrics {
    LiveMetrics(a.wordCount, a.sentenceCount, a.fillerCount, a.questionCount)
  }

  lemma QuotientTimesDivisor(w: nat, s: nat)
    ensures s > 0 ==> (w as real / s as real) * s as real == w as real
  {
  }

  lemma ScaleStrict(x: real, y: real, k: real)
    requires k > 0.0
    ensures x < y <==> x * k < y * k
  {
    if x < y {
      assert (y - x) * k > 0.0;
    }
    if x * k < y * k {
      assert (y - x) * k > 0.0;
    }
  }

  /** `avg > lo && avg < hi` for an average `w / s` with `s > 0`, in integers. */
  lemma AverageBetween(w: nat, s: nat, avg: real, lo: int, hi: int)
    requires s > 0 && avg == w as real / s as real
    ensures (lo as real < avg < hi as real) <==> (lo * s < w < hi * s)
  {
    var k := s as real;
    QuotientTimesDivisor(w, s);
    assert avg * k == w as real;
    ScaleStrict(lo as real, avg, k);
    ScaleStrict(avg, hi as real, k);
    assert lo as real * k == (lo * s) as real;
    assert hi as real * k == (hi * s) as real;
  }

  lemma ScaleWeak(x: real, y: real, k: real)
    requires k > 0.0
    ensures x <= y <==> x * k <= y * k
  {
    ScaleStrict(y, x, k);
  }

  /** `avg >= lo && avg <= hi` for an average `w / s` with `s > 0`, in integers. */
  lemma AverageWithin(w: nat, s: nat, avg: real, lo: int, hi: int)
    requires s > 0 && avg == w as real / s as real
    ensures (lo as real <= avg <= hi as real) <==> (lo * s <= w <= hi * s)
  {
    var k := s as real;
    QuotientTimesDivisor(w, s);
    assert avg * k == w as real;
    ScaleWeak(lo as real, avg, k);
    ScaleWeak(avg, hi as real, k);
    assert lo as real * k == (lo * s) as real;
    assert hi as real * k == (hi * s) as real;
  }
}
