/** The turn analyzer `FeedbackAnalyzer`: it scores one user response for
    confidence, sorts fixed remarks into strengths and suggestions, adds the
    remarks of the scenario, and folds everything into an overall score.
    Every regular expression it uses carries the `i` flag and is modelled as
    a phrase test on the ASCII lower-cased text, with lower-cased
    alternatives. */
module Analyzer {
  import opened Setting
  import opened Text
  import opened Collections
  import opened Numeric
  import opened Analysis

  // ---------------------------------------------------------------------
  // Vocabularies
  // ---------------------------------------------------------------------

  const CertainWords: Vocabulary :=
    ["definitely", "certainly", "confident", "sure", "absolutely", "clearly"]
  const HedgeWords: Vocabulary := ["maybe", "perhaps", "might", "possibly", "i think", "i guess"]
  const ConfidenceFillers: Vocabulary := ["um", "uh", "like", "you know", "sort of", "kind of"]
  const SelfStatements: Vocabulary := ["i will", "i can", "i have", "i am", "i know"]
  const ApologyWords: Vocabulary := ["sorry", "apologize"]
  const DoubtWords: Vocabulary := ["i don't know", "not sure", "uncertain", "no idea"]

  /** The filler pattern of `hasFillerWords` and `countFillerWords`. */
  const Fillers: Vocabulary :=
    ["um", "uh", "like", "you know", "sort of", "kind of", "actually", "basically", "literally"]

  const AssertiveWords: Vocabulary :=
    ["i will", "i can", "i have", "i am", "definitely", "certainly", "i believe", "i know"]
  const TentativeWords: Vocabulary :=
    ["maybe", "perhaps", "i think", "possibly", "might", "i guess", "probably"]

  /** The plain-phrase alternatives of the specificity pattern; `\d+`,
      `at \w+` and `last \w+` are matched by `SpecificAt`. */
  const SpecificPhrases: Vocabulary :=
    ["when i", "for example", "specifically", "in particular", "during"]
  const ExamplePhrases: Vocabulary := ["for instance", "such as", "like when", "one time"]

  const PositiveWords: Vocabulary :=
    ["great", "excellent", "wonderful", "love", "enjoy", "excited", "passionate",
     "amazing", "fantastic", "good", "happy"]
  const NegativeWords: Vocabulary :=
    ["hate", "terrible", "awful", "boring", "difficult", "problem", "issue", "struggle", "hard", "bad"]

  const Transitions: Vocabulary :=
    ["first", "second", "also", "however", "therefore", "because", "since", "although"]

  const ProfessionalWords: Vocabulary := ["team", "collaboration", "leadership", "results", "achievement"]
  const ExperienceWords: Vocabulary := ["experience", "skill", "achievement", "result"]
  const ReciprocalPhrases: Vocabulary := ["what about you", "how about", "tell me about"]
  const ResolutionWords: Vocabulary := ["understand", "perspective", "solution", "resolve"]
  const AccusingPhrases: Vocabulary := ["you always", "you never", "your fault"]
  const ServiceWords: Vocabulary := ["understand", "apologize", "help", "solve", "resolution"]
  const EmpathyWords: Vocabulary := ["understand", "help", "apologize"]
  const EvidencePhrases: Vocabulary := ["research shows", "studies indicate", "data suggests"]

  // ---------------------------------------------------------------------
  // Remarks
  // ---------------------------------------------------------------------

  /** The fixed texts the analyzer pushes as strengths. */
  datatype Strength =
    | ClearSpeech | AssertiveTone | GoodLength | SpecificDetails | PositiveTone | WellStructured
    | ProfessionalKeywords | Reciprocal | ResolveIssues | ServiceLanguage | EvidenceUse

  /** The fixed texts the analyzer pushes as suggestions. */
  datatype Suggestion =
    | ReduceFillers | SoundConfident | Elaborate | BeConcise | IncludeSpecifics | Organize
    | HighlightExperience | MoreDetailed | AskQuestions | AvoidAccusations | ShowEmpathy
    | MoreSubstance

  function StrengthText(r: Strength): string {
    match r
    case ClearSpeech => "Clear speech with minimal filler words"
    case AssertiveTone => "Confident and assertive tone"
    case GoodLength => "Good response length"
    case SpecificDetails => "Good use of specific examples and details"
    case PositiveTone => "Positive and enthusiastic tone"
    case WellStructured => "Clear and well-structured response"
    case ProfessionalKeywords => "Good use of professional keywords"
    case Reciprocal => "Good reciprocal conversation skills"
    case ResolveIssues => "Shows willingness to understand and resolve issues"
    case ServiceLanguage => "Professional customer service language"
    case EvidenceUse => "Good use of evidence and data"
  }

  function SuggestionText(r: Suggestion): string {
    match r
    case ReduceFillers => "Try to reduce filler words like 'um', 'uh', 'like'"
    case SoundConfident => "Try to sound more confident - avoid phrases like 'I think maybe'"
    case Elaborate => "Try to elaborate more on your answers"
    case BeConcise => "Try to be more concise in your responses"
    case IncludeSpecifics => "Try to include specific examples or details"
    case Organize => "Try to organize your thoughts more clearly"
    case HighlightExperience => "Try to highlight your relevant experience and achievements"
    case MoreDetailed => "Interview answers should be more detailed"
    case AskQuestions => "Try asking questions to keep the conversation flowing"
    case AvoidAccusations => "Avoid accusatory language - use 'I' statements instead"
    case ShowEmpathy => "Show empathy and willingness to help"
    case MoreSubstance => "Provide more substantial responses with supporting details"
  }

  // ---------------------------------------------------------------------
  // Confidence
  // ---------------------------------------------------------------------

  /** What `calculateConfidence` looks for in a text. */
  datatype ConfidenceMarkers = ConfidenceMarkers(
    certain: bool,
    hedged: bool,
    fillers: bool,
    selfStatement: bool,
    apology: bool,
    doubt: bool,
    questions: nat,
    pieces: nat)

  /** The markers of a text; `pieces` is `text.split(' ').length`, one more
      than the number of spaces. */
  function ConfidenceMarkersOf(text: string): (m: ConfidenceMarkers)
    ensures m.pieces == CountChar(text, ' ') + 1
  {
    var lower := ToLower(text);
    SplitOnCharLength(text, ' ');
    ConfidenceMarkers(
      Test(lower, CertainWords),
      Test(lower, HedgeWords),
      Test(lower, ConfidenceFillers),
      Test(lower, SelfStatements),
      Test(lower, ApologyWords),
      Test(lower, DoubtWords),
      CountChar(text, '?'),
      |SplitOnChar(text, ' ')|)
  }

  /** Base 50 plus the fixed adjustments, before the clamp. */
  function RawConfidence(m: ConfidenceMarkers): int {
    50 + (if m.certain then 20 else 0) + (if !m.hedged then 15 else 0)
    + (if !m.fillers then 10 else 0) + (if m.selfStatement then 10 else 0)
    - (if m.apology then 10 else 0) - (if m.doubt then 15 else 0)
    - (if m.questions > 2 then 10 else 0) - (if m.pieces < 5 then 10 else 0)
  }

  /** The adjustments can take the score below 100 or above it, but never
      below 5, so the lower clamp never binds. */
  lemma RawConfidenceRange(m: ConfidenceMarkers)
    ensures 5 <= RawConfidence(m) <= 105
    ensures RawConfidence(m) == 5 <==> !m.certain && m.hedged && m.fillers && !m.selfStatement
                                       && m.apology && m.doubt && m.questions > 2 && m.pieces < 5
  {
  }

  /** `calculateConfidence(text)`: the markers are found first, then the
      adjustments are applied to them. */
  method CalculateConfidence(text: string) returns (score: int)
    ensures score == Clamp(0, 100, RawConfidence(ConfidenceMarkersOf(text)))
    ensures 5 <= score <= 100
  {
    score := AdjustConfidence(ConfidenceMarkersOf(text));
  }

  /** The body of `calculateConfidence` once its tests are decided: base 50,
      the adjustments one by one in the source's order, then the clamp. */
  method AdjustConfidence(m: ConfidenceMarkers) returns (score: int)
    ensures score == Clamp(0, 100, RawConfidence(m))
    ensures 5 <= score <= 100
  {
    score := 50;
    if m.certain {
      score := score + 20;
    }
    if !m.hedged {
      score := score + 15;
    }
    if !m.fillers {
      score := score + 10;
    }
    if m.selfStatement {
      score := score + 10;
    }
    if m.apology {
      score := score - 10;
    }
    if m.doubt {
      score := score - 15;
    }
    if m.questions > 2 {
      score := score - 10;
    }
    if m.pieces < 5 {
      score := score - 10;
    }
    assert score == RawConfidence(m);
    RawConfidenceRange(m);
    score := Clamp(0, 100, score);
  }

  /** A text with none of the analyzer's fillers has none of the fillers the
      confidence score penalises, so it earns that bonus. */
  lemma FillerFreeBonus(text: string)
    requires CountFillerWords(text) == 0
    ensures !ConfidenceMarkersOf(text).fillers
  {
    TestWithin(ToLower(text), ConfidenceFillers, Fillers);
  }

  // ---------------------------------------------------------------------
  // Metrics and the text predicates
  // ---------------------------------------------------------------------

  /** `text.split(' ').filter(word => word.length > 0)`. */
  function SpaceWords(text: string): seq<string> {
    NonEmpty(SplitOnChar(text, ' '))
  }

  datatype TurnMetrics = TurnMetrics(
    wordCount: nat,
    sentenceCount: nat,
    averageWordsPerSentence: int,
    fillerWordCount: nat,
    questionsAsked: nat,
    exclamationCount: nat)

  /** `calculateMetrics(text)`: the space-separated words, the non-blank
      sentences, their rounded average (0 without sentences), the fillers and
      the `?` and `!` characters. */
  function CalculateMetrics(text: string): (m: TurnMetrics)
    ensures m.wordCount == |SpaceWords(text)|
    ensures m.sentenceCount == |Sentences(text)|
    ensures m.questionsAsked == CountChar(text, '?')
    ensures m.exclamationCount == CountChar(text, '!')
    ensures m.sentenceCount == 0 ==> m.averageWordsPerSentence == 0
    ensures m.sentenceCount > 0 ==>
              m.averageWordsPerSentence == HalfUpQuotient(m.wordCount, m.sentenceCount)
    ensures m.fillerWordCount > 0 <==> Test(ToLower(text), Fillers)
  {
    var words := SpaceWords(text);
    var sentences := Sentences(text);
    TurnMetrics(
      |words|,
      |sentences|,
      AverageWords(|words|, |sentences|),
      CountFillerWords(text),
      CountChar(text, '?'),
      CountChar(text, '!'))
  }

  /** `sentences > 0 ? Math.round(words / sentences) : 0`. */
  function AverageWords(words: nat, sentences: nat): (r: int)
    ensures sentences == 0 ==> r == 0
    ensures sentences > 0 ==> r == HalfUpQuotient(words, sentences)
  {
    RoundedAverage(words, sentences);
    if sentences > 0 then Round(words as real / sentences as real) else 0
  }

  /** Words are separated by single spaces only, so there are never more of
      them than spaces plus one; there are no sentences exactly when the
      text holds only white space and `.!?`. */
  lemma MetricsCounts(text: string)
    ensures CalculateMetrics(text).wordCount <= CountChar(text, ' ') + 1
    ensures CalculateMetrics(text).sentenceCount == 0 <==> SpaceOrSentenceEnd(text)
  {
    SplitOnCharLength(text, ' ');
    NoSentencesIff(text);
  }

  /** `countFillerWords(text)`: positive exactly when a filler occurs. */
  function CountFillerWords(text: string): (n: nat)
    ensures n > 0 <==> Test(ToLower(text), Fillers)
  {
    CountPositiveIffTest(ToLower(text), Fillers);
    CountMatches(ToLower(text), Fillers)
  }

  /** `hasFillerWords(text)`: more than one filler per twenty space-separated
      pieces, empty pieces included. */
  predicate HasFillerWords(text: string) {
    var m := CountFillerWords(text);
    var n := |SplitOnChar(text, ' ')|;
    m > 0 && m as real / n as real > 0.05
  }

  /** The five-percent test in integers. */
  lemma HasFillerWordsIff(text: string)
    ensures HasFillerWords(text) <==>
              CountFillerWords(text) > 0 && 20 * CountFillerWords(text) > |SplitOnChar(text, ' ')|
    ensures HasFillerWords(text) ==> CountFillerWords(text) > 0
  {
    OverOneTwentieth(CountFillerWords(text), |SplitOnChar(text, ' ')|);
  }

  lemma OverOneTwentieth(m: nat, n: nat)
    requires n > 0
    ensures m as real / n as real > 0.05 <==> 20 * m > n
  {
    var q := m as real / n as real;
    QuotientTimesDivisor(m, n);
    ScaleStrict(0.05, q, n as real);
    assert q * n as real == m as real;
    assert 0.05 * n as real < m as real <==> n < 20 * m;
  }

  /** `isAssertive(text)`. */
  predicate IsAssertive(text: string) {
    Test(ToLower(text), AssertiveWords) && !Test(ToLower(text), TentativeWords)
  }

  /** Every hedge the confidence score penalises is also tentative, so a
      hedged text is never assertive. */
  lemma HedgedNotAssertive(text: string)
    requires ConfidenceMarkersOf(text).hedged
    ensures !IsAssertive(text)
  {
    TestWithin(ToLower(text), HedgeWords, TentativeWords);
  }

  /** A run of digits from `i` to `j` with a word boundary at both ends: `\b\d+\b`. */
  predicate DigitRun(s: string, i: nat, j: nat)
    requires i < j <= |s|
  {
    (forall k | i <= k < j :: IsDigit(s[k])) && Boundary(s, i) && Boundary(s, j)
  }

  /** `\bp\w+\b` from `i` to `j`, for a prefix `p` such as `at ` or `last `. */
  predicate WordAfter(s: string, i: nat, p: string, j: nat)
    requires i + |p| < j <= |s|
  {
    s[i..i + |p|] == p && (forall k | i + |p| <= k < j :: IsWordChar(s[k]))
    && Boundary(s, i) && Boundary(s, j)
  }

  /** The specificity pattern matches at `i` of the lower-cased text. */
  predicate SpecificAt(s: string, i: nat)
    requires i < |s|
  {
    || MatchAt(s, i, SpecificPhrases)
    || (exists j | i < j <= |s| :: DigitRun(s, i, j))
    || (exists j | i + 3 < j <= |s| :: WordAfter(s, i, "at ", j))
    || (exists j | i + 5 < j <= |s| :: WordAfter(s, i, "last ", j))
  }

  /** `isSpecific(text)`. */
  predicate IsSpecific(text: string) {
    var lower := ToLower(text);
    (exists i | 0 <= i < |lower| :: SpecificAt(lower, i)) || Test(lower, ExamplePhrases)
  }

  /** The text is specific exactly when one of the indicator alternatives
      occurs: a listed phrase, an example phrase, a whole number, or a word
      after "at " or "last ". */
  lemma SpecificCases(text: string)
    ensures IsSpecific(text) <==>
              Test(ToLower(text), SpecificPhrases) || Test(ToLower(text), ExamplePhrases)
              || (exists i, j | 0 <= i < j <= |ToLower(text)| :: DigitRun(ToLower(text), i, j))
              || (exists i, j | 0 <= i && i + 3 < j <= |ToLower(text)| :: WordAfter(ToLower(text), i, "at ", j))
              || (exists i, j | 0 <= i && i + 5 < j <= |ToLower(text)| :: WordAfter(ToLower(text), i, "last ", j))
  {
    var lower := ToLower(text);
    if IsSpecific(text) && !Test(lower, ExamplePhrases) {
      var i :| 0 <= i < |lower| && SpecificAt(lower, i);
      if MatchAt(lower, i, SpecificPhrases) {
        assert Test(lower, SpecificPhrases);
      }
    }
    if Test(lower, SpecificPhrases) {
      var i :| 0 <= i < |lower| && MatchAt(lower, i, SpecificPhrases);
      assert SpecificAt(lower, i);
    }
    if exists i, j | 0 <= i < j <= |lower| :: DigitRun(lower, i, j) {
      var i, j :| 0 <= i < j <= |lower| && DigitRun(lower, i, j);
      assert SpecificAt(lower, i);
    }
    if exists i, j | 0 <= i && i + 3 < j <= |lower| :: WordAfter(lower, i, "at ", j) {
      var i, j :| 0 <= i && i + 3 < j <= |lower| && WordAfter(lower, i, "at ", j);
      assert SpecificAt(lower, i);
    }
    if exists i, j | 0 <= i && i + 5 < j <= |lower| :: WordAfter(lower, i, "last ", j) {
      var i, j :| 0 <= i && i + 5 < j <= |lower| && WordAfter(lower, i, "last ", j);
      assert SpecificAt(lower, i);
    }
  }

  /** `(text.match(re) || []).length` for a pattern without the `g` flag and
      with one group: the whole match and the group, or nothing. */
  function MatchLength(found: bool): nat {
    if found then 2 else 0
  }

  /** `isPositive(text)`: the two lengths compared are 0 or 2, so the text
      is positive exactly when a positive word occurs and no negative one. */
  predicate IsPositive(text: string) {
    MatchLength(Test(ToLower(text), PositiveWords)) > MatchLength(Test(ToLower(text), NegativeWords))
  }

  lemma IsPositiveIff(text: string)
    ensures IsPositive(text) <==> Test(ToLower(text), PositiveWords) && !Test(ToLower(text), NegativeWords)
  {
  }

  /** `isClear(text)`. Without sentences the quotient is infinite or not a
      number, and both comparisons fail. */
  predicate IsClear(text: string) {
    var w := |SpaceWords(text)|;
    var s := |Sentences(text)|;
    s > 0 && 5.0 <= w as real / s as real <= 25.0 && Test(ToLower(text), Transitions)
  }

  /** Clarity in integers: between five and twenty-five words per sentence,
      and a transition word. */
  lemma IsClearIff(text: string)
    ensures IsClear(text) <==>
              var w := |SpaceWords(text)|;
              var s := |Sentences(text)|;
              s > 0 && 5 * s <= w <= 25 * s && Test(ToLower(text), Transitions)
    ensures SpaceOrSentenceEnd(text) ==> !IsClear(text)
  {
    var w := |SpaceWords(text)|;
    var s := |Sentences(text)|;
    NoSentencesIff(text);
    if s > 0 {
      AverageWithin(w, s, w as real / s as real, 5, 25);
    }
  }

  // ---------------------------------------------------------------------
  // The generic section of `analyzeResponse`
  // ---------------------------------------------------------------------

  /** The outcomes of the generic checks of `analyzeResponse`; `pieces`
      is `userText.split(' ').length`. */
  datatype Checks = Checks(
    fillers: bool,
    assertive: bool,
    pieces: nat,
    specific: bool,
    positive: bool,
    clear: bool)

  function ChecksOf(text: string): Checks {
    Checks(HasFillerWords(text), IsAssertive(text), |SplitOnChar(text, ' ')|,
           IsSpecific(text), IsPositive(text), IsClear(text))
  }

  /** The order of the strength pushes of the generic checks. */
  const StrengthOrder: seq<Strength> :=
    [ClearSpeech, AssertiveTone, GoodLength, SpecificDetails, PositiveTone, WellStructured]

  /** The order of the suggestion pushes of the generic checks. */
  const SuggestionOrder: seq<Suggestion> :=
    [ReduceFillers, SoundConfident, Elaborate, BeConcise, IncludeSpecifics, Organize]

  /** The condition under which a generic check pushes a strength. */
  predicate StrengthEarned(r: Strength, c: Checks) {
    match r
    case ClearSpeech => !c.fillers
    case AssertiveTone => c.assertive
    case GoodLength => 10 <= c.pieces <= 100
    case SpecificDetails => c.specific
    case PositiveTone => c.positive
    case WellStructured => c.clear
    case _ => false
  }

  /** The condition under which a generic check pushes a suggestion. */
  predicate SuggestionEarned(r: Suggestion, c: Checks) {
    match r
    case ReduceFillers => c.fillers
    case SoundConfident => !c.assertive
    case Elaborate => c.pieces < 10
    case BeConcise => !(c.pieces < 10) && c.pieces > 100
    case IncludeSpecifics => !c.specific
    case Organize => !c.clear
    case _ => false
  }

  /** The entries of the two orders, one by one. */
  lemma OrderEntries()
    ensures |StrengthOrder| == 6 && |SuggestionOrder| == 6
    ensures StrengthOrder[0] == ClearSpeech && StrengthOrder[1] == AssertiveTone
    ensures StrengthOrder[2] == GoodLength && StrengthOrder[3] == SpecificDetails
    ensures StrengthOrder[4] == PositiveTone && StrengthOrder[5] == WellStructured
    ensures SuggestionOrder[0] == ReduceFillers && SuggestionOrder[1] == SoundConfident
    ensures SuggestionOrder[2] == Elaborate && SuggestionOrder[3] == BeConcise
    ensures SuggestionOrder[4] == IncludeSpecifics && SuggestionOrder[5] == Organize
  {
  }

  function StrengthBy(c: Checks): Strength -> bool {
    r => StrengthEarned(r, c)
  }

  function SuggestionBy(c: Checks): Suggestion -> bool {
    r => SuggestionEarned(r, c)
  }

  /** The strengths after the first `k` strength pushes. */
  function StrengthsUpTo(c: Checks, k: nat): seq<Strength>
    requires k <= |StrengthOrder|
  {
    if k == 0 then []
    else PushIf(StrengthsUpTo(c, k - 1), StrengthEarned(StrengthOrder[k - 1], c), StrengthOrder[k - 1])
  }

  /** The suggestions after the first `k` suggestion pushes. */
  function SuggestionsUpTo(c: Checks, k: nat): seq<Suggestion>
    requires k <= |SuggestionOrder|
  {
    if k == 0 then []
    else PushIf(SuggestionsUpTo(c, k - 1), SuggestionEarned(SuggestionOrder[k - 1], c), SuggestionOrder[k - 1])
  }

  /** The strengths the generic checks push. */
  function GenericStrengths(c: Checks): seq<Strength> {
    StrengthsUpTo(c, |StrengthOrder|)
  }

  /** The suggestions the generic checks push. */
  function GenericSuggestions(c: Checks): seq<Suggestion> {
    SuggestionsUpTo(c, |SuggestionOrder|)
  }

  lemma {:induction false} StrengthsFiltered(c: Checks, k: nat)
    requires k <= |StrengthOrder|
    ensures StrengthsUpTo(c, k) == Filter(StrengthOrder[..k], StrengthBy(c))
  {
    if k > 0 {
      StrengthsFiltered(c, k - 1);
      FilterPrefixStep(StrengthOrder, k - 1, StrengthBy(c));
    }
  }

  lemma {:induction false} SuggestionsFiltered(c: Checks, k: nat)
    requires k <= |SuggestionOrder|
    ensures SuggestionsUpTo(c, k) == Filter(SuggestionOrder[..k], SuggestionBy(c))
  {
    if k > 0 {
      SuggestionsFiltered(c, k - 1);
      FilterPrefixStep(SuggestionOrder, k - 1, SuggestionBy(c));
    }
  }

  /** The generic remarks are listed once each. */
  lemma OrdersDistinct()
    ensures NoDup(StrengthOrder) && NoDup(SuggestionOrder)
  {
  }

  /** A strength is among the generic strengths exactly when it is one of
      the six generic strengths and its condition holds; none appears twice,
      and they come in the order of the checks. */
  lemma StrengthMembers(c: Checks)
    ensures forall r :: r in GenericStrengths(c) <==> r in StrengthOrder && StrengthEarned(r, c)
    ensures NoDup(GenericStrengths(c))
    ensures IsSubsequence(GenericStrengths(c), StrengthOrder)
  {
    var p := StrengthBy(c);
    StrengthsFiltered(c, |StrengthOrder|);
    assert StrengthOrder[..|StrengthOrder|] == StrengthOrder;
    OrdersDistinct();
    FilterProperties(StrengthOrder, p);
    forall r
      ensures r in GenericStrengths(c) <==> r in StrengthOrder && StrengthEarned(r, c)
    {
      assert p(r) == StrengthEarned(r, c);
    }
  }

  /** The same for the generic suggestions. */
  lemma SuggestionMembers(c: Checks)
    ensures forall r :: r in GenericSuggestions(c) <==> r in SuggestionOrder && SuggestionEarned(r, c)
    ensures NoDup(GenericSuggestions(c))
    ensures IsSubsequence(GenericSuggestions(c), SuggestionOrder)
  {
    var p := SuggestionBy(c);
    SuggestionsFiltered(c, |SuggestionOrder|);
    assert SuggestionOrder[..|SuggestionOrder|] == SuggestionOrder;
    OrdersDistinct();
    FilterProperties(SuggestionOrder, p);
    forall r
      ensures r in GenericSuggestions(c) <==> r in SuggestionOrder && SuggestionEarned(r, c)
    {
      assert p(r) == SuggestionEarned(r, c);
    }
  }

  /** One push adds one strength when its condition holds and none otherwise. */
  lemma StrengthStep(c: Checks, k: nat)
    requires k < |StrengthOrder|
    ensures |StrengthsUpTo(c, k + 1)| == |StrengthsUpTo(c, k)| + B(StrengthEarned(StrengthOrder[k], c))
  {
  }

  /** One push adds one suggestion when its condition holds and none otherwise. */
  lemma SuggestionStep(c: Checks, k: nat)
    requires k < |SuggestionOrder|
    ensures |SuggestionsUpTo(c, k + 1)| == |SuggestionsUpTo(c, k)| + B(SuggestionEarned(SuggestionOrder[k], c))
  {
  }

  /** Each strength check adds one strength exactly when it passes. */
  lemma StrengthCount(c: Checks)
    ensures |GenericStrengths(c)| == B(!c.fillers) + B(c.assertive) + B(10 <= c.pieces <= 100)
                                    + B(c.specific) + B(c.positive) + B(c.clear)
  {
    StrengthStep(c, 0); StrengthStep(c, 1); StrengthStep(c, 2);
    StrengthStep(c, 3); StrengthStep(c, 4); StrengthStep(c, 5);
  }

  /** Each suggestion check adds one suggestion exactly when it fails. */
  lemma SuggestionCount(c: Checks)
    ensures |GenericSuggestions(c)| == B(c.fillers) + B(!c.assertive) + B(c.pieces < 10)
                                      + B(!(c.pieces < 10) && c.pieces > 100)
                                      + B(!c.specific) + B(!c.clear)
  {
    SuggestionStep(c, 0); SuggestionStep(c, 1); SuggestionStep(c, 2);
    SuggestionStep(c, 3); SuggestionStep(c, 4); SuggestionStep(c, 5);
  }

  /** Each of the filler, assertiveness, length, specificity and clarity
      checks contributes exactly one remark, and positivity at most one. */
  lemma GenericCount(c: Checks)
    ensures |GenericStrengths(c)| + |GenericSuggestions(c)| == 5 + B(c.positive)
  {
    StrengthCount(c);
    SuggestionCount(c);
  }

  // ---------------------------------------------------------------------
  // Scenario overlays
  // ---------------------------------------------------------------------

  /** What `getScenarioSpecificFeedback` looks for in a text; `length` is
      `text.length`. */
  datatype ScenarioChecks = ScenarioChecks(
    professional: bool,
    experience: bool,
    reciprocal: bool,
    asksQuestion: bool,
    resolution: bool,
    accusing: bool,
    service: bool,
    empathy: bool,
    evidence: bool,
    length: nat)

  function ScenarioChecksOf(text: string): ScenarioChecks {
    var lower := ToLower(text);
    ScenarioChecks(
      Test(lower, ProfessionalWords), Test(lower, ExperienceWords),
      Test(lower, ReciprocalPhrases), CountChar(text, '?') > 0,
      Test(lower, ResolutionWords), Test(lower, AccusingPhrases),
      Test(lower, ServiceWords), Test(lower, EmpathyWords),
      Test(lower, EvidencePhrases), |text|)
  }

  /** The strengths `getScenarioSpecificFeedback` pushes for a scenario kind. */
  function ScenarioStrengths(t: ScenarioChecks, k: Kind): seq<Strength> {
    match k
    case JobInterview => PushIf([], t.professional, ProfessionalKeywords)
    case Networking => PushIf([], t.reciprocal, Reciprocal)
    case Conflict => PushIf([], t.resolution, ResolveIssues)
    case CustomerService => PushIf([], t.service, ServiceLanguage)
    case PublicSpeaking => PushIf([], t.evidence, EvidenceUse)
    case OtherKind => []
  }

  /** The suggestions `getScenarioSpecificFeedback` pushes for a scenario kind. */
  function ScenarioSuggestions(t: ScenarioChecks, k: Kind): seq<Suggestion> {
    match k
    case JobInterview =>
      PushIf(PushIf([], !t.experience, HighlightExperience), t.length < 50, MoreDetailed)
    case Networking => PushIf([], !t.asksQuestion, AskQuestions)
    case Conflict => PushIf([], t.accusing, AvoidAccusations)
    case CustomerService => PushIf([], !t.empathy, ShowEmpathy)
    case PublicSpeaking => PushIf([], t.length < 30, MoreSubstance)
    case OtherKind => []
  }

  /** `getScenarioSpecificFeedback(text, scenario)`. */
  method GetScenarioSpecificFeedback(text: string, scenario: Scenario)
    returns (suggestions: seq<Suggestion>, strengths: seq<Strength>)
    ensures suggestions == ScenarioSuggestions(ScenarioChecksOf(text), KindOf(Some(scenario)))
    ensures strengths == ScenarioStrengths(ScenarioChecksOf(text), KindOf(Some(scenario)))
  {
    var t := ScenarioChecksOf(text);
    suggestions := [];
    strengths := [];
    if scenario.key == "jobInterview" {
      if t.professional {
        strengths := strengths + [ProfessionalKeywords];
      }
      if !t.experience {
        suggestions := suggestions + [HighlightExperience];
      }
      if t.length < 50 {
        suggestions := suggestions + [MoreDetailed];
      }
    } else if scenario.key == "networking" {
      if t.reciprocal {
        strengths := strengths + [Reciprocal];
      }
      if !t.asksQuestion {
        suggestions := suggestions + [AskQuestions];
      }
    } else if scenario.key == "conflict" {
      if t.resolution {
        strengths := strengths + [ResolveIssues];
      }
      if t.accusing {
        suggestions := suggestions + [AvoidAccusations];
      }
    } else if scenario.key == "customerService" {
      if t.service {
        strengths := strengths + [ServiceLanguage];
      }
      if !t.empathy {
        suggestions := suggestions + [ShowEmpathy];
      }
    } else if scenario.key == "publicSpeaking" {
      if t.evidence {
        strengths := strengths + [EvidenceUse];
      }
      if t.length < 30 {
        suggestions := suggestions + [MoreSubstance];
      }
    }
  }

  /** Scenario remarks are never generic ones, there is at most one scenario
      strength and at most two scenario suggestions, and a key outside the
      five yields nothing. */
  lemma ScenarioShape(t: ScenarioChecks, k: Kind)
    ensures forall r :: r in ScenarioStrengths(t, k) ==> r !in StrengthOrder
    ensures forall r :: r in ScenarioSuggestions(t, k) ==> r !in SuggestionOrder
    ensures |ScenarioStrengths(t, k)| <= 1 && |ScenarioSuggestions(t, k)| <= 2
    ensures k == OtherKind ==> ScenarioStrengths(t, k) == [] && ScenarioSuggestions(t, k) == []
  {
  }

  /** A conflict answer that blames ("you always", "you never", "your
      fault") is told to use "I" statements. */
  lemma AccusationFlagged(text: string)
    requires Test(ToLower(text), AccusingPhrases)
    ensures AvoidAccusations in ScenarioSuggestions(ScenarioChecksOf(text), Conflict)
  {
  }

  /** Every empathy word is also a service word, so a customer-service
      answer that is not asked for empathy is credited with service
      language. */
  lemma EmpathyImpliesService(text: string)
    requires ShowEmpathy !in ScenarioSuggestions(ScenarioChecksOf(text), CustomerService)
    ensures ServiceLanguage in ScenarioStrengths(ScenarioChecksOf(text), CustomerService)
  {
    TestWithin(ToLower(text), EmpathyWords, ServiceWords);
  }

  // ---------------------------------------------------------------------
  // `analyzeResponse` and the overall score
  // ---------------------------------------------------------------------

  /** The record `analyzeResponse` returns. */
  datatype TurnFeedback = TurnFeedback(
    confidence: int,
    wordCount: nat,
    suggestions: seq<Suggestion>,
    strengths: seq<Strength>,
    metrics: TurnMetrics,
    overallScore: int)

  /** The overall score before the clamp: two fifths of the confidence,
      rounded, ten points per strength, minus five per suggestion, and ten
      each for a length of 20 to 80 words and for no fillers. */
  function OverallFormula(confidence: int, strengths: nat, suggestions: nat,
                          wordCount: nat, fillerWordCount: nat): int
  {
    (4 * confidence + 5) / 10 + 10 * strengths - 5 * suggestions
    + 10 * B(20 <= wordCount <= 80) + 10 * B(fillerWordCount == 0)
  }

  /** `calculateOverallScore(feedback)`, computed as the source does, on
      exact reals, then rounded and clamped. */
  method CalculateOverallScore(f: TurnFeedback) returns (score: int)
    ensures score == Clamp(0, 100, OverallFormula(f.confidence, |f.strengths|, |f.suggestions|,
                                                  f.metrics.wordCount, f.metrics.fillerWordCount))
  {
    var s: real := f.confidence as real * 0.4;
    s := s + (|f.strengths| * 10) as real;
    s := s - (|f.suggestions| * 5) as real;
    if f.metrics.wordCount >= 20 && f.metrics.wordCount <= 80 {
      s := s + 10.0;
    }
    if f.metrics.fillerWordCount == 0 {
      s := s + 10.0;
    }
    var k := 10 * |f.strengths| - 5 * |f.suggestions|
             + 10 * B(20 <= f.metrics.wordCount <= 80) + 10 * B(f.metrics.fillerWordCount == 0);
    assert s == 0.4 * f.confidence as real + k as real;
    RoundShift(0.4 * f.confidence as real, k);
    RoundTwoFifths(f.confidence);
    score := Clamp(0, 100, Round(s));
  }

  /** `analyzeResponse(userText, scenario)`; the personality argument is
      not read. The checks are evaluated first; the remarks are then pushed
      in the source's order, the generic ones first, then those of the
      scenario when one is given. */
  method AnalyzeResponse(userText: string, scenario: Option<Scenario>) returns (f: TurnFeedback)
    ensures f.confidence == Clamp(0, 100, RawConfidence(ConfidenceMarkersOf(userText)))
    ensures f.metrics == CalculateMetrics(userText)
    ensures f.wordCount == f.metrics.wordCount
    ensures f.strengths ==
              GenericStrengths(ChecksOf(userText)) + ScenarioStrengths(ScenarioChecksOf(userText), KindOf(scenario))
    ensures f.suggestions ==
              GenericSuggestions(ChecksOf(userText)) + ScenarioSuggestions(ScenarioChecksOf(userText), KindOf(scenario))
    ensures f.overallScore == Clamp(0, 100, OverallFormula(f.confidence, |f.strengths|, |f.suggestions|,
                                                           f.wordCount, f.metrics.fillerWordCount))
  {
    var confidence := CalculateConfidence(userText);
    var c := ChecksOf(userText);
    var strengths, suggestions := GenericFeedback(c);
    match scenario {
      case Some(sc) =>
        var more, extra := GetScenarioSpecificFeedback(userText, sc);
        suggestions := suggestions + more;
        strengths := strengths + extra;
      case None =>
    }
    var metrics := CalculateMetrics(userText);
    f := TurnFeedback(confidence, metrics.wordCount, suggestions, strengths, metrics, 0);
    var overall := CalculateOverallScore(f);
    f := f.(overallScore := overall);
  }

  /** The generic checks of `analyzeResponse`, pushed in the source's order. */
  method GenericFeedback(c: Checks) returns (strengths: seq<Strength>, suggestions: seq<Suggestion>)
    ensures strengths == GenericStrengths(c)
    ensures suggestions == GenericSuggestions(c)
  {
    OrderEntries();
    strengths := [];
    suggestions := [];
    if c.fillers {
      suggestions := suggestions + [ReduceFillers];
    } else {
      strengths := strengths + [ClearSpeech];
    }
    assert strengths == StrengthsUpTo(c, 1);
    assert suggestions == SuggestionsUpTo(c, 1);
    if c.assertive {
      strengths := strengths + [AssertiveTone];
    } else {
      suggestions := suggestions + [SoundConfident];
    }
    assert strengths == StrengthsUpTo(c, 2);
    assert suggestions == SuggestionsUpTo(c, 2);
    if c.pieces < 10 {
      suggestions := suggestions + [Elaborate];
    } else if c.pieces > 100 {
      suggestions := suggestions + [BeConcise];
    } else {
      strengths := strengths + [GoodLength];
    }
    assert strengths == StrengthsUpTo(c, 3);
    assert suggestions == SuggestionsUpTo(c, 4);
    if c.specific {
      strengths := strengths + [SpecificDetails];
    } else {
      suggestions := suggestions + [IncludeSpecifics];
    }
    assert strengths == StrengthsUpTo(c, 4);
    assert suggestions == SuggestionsUpTo(c, 5);
    if c.positive {
      strengths := strengths + [PositiveTone];
    }
    assert strengths == StrengthsUpTo(c, 5);
    if c.clear {
      strengths := strengths + [WellStructured];
    } else {
      suggestions := suggestions + [Organize];
    }
  }

  /** A generic remark is in the final lists exactly when its check put it
      in the generic section; the scenario never adds or hides one. */
  lemma GenericDecided(c: Checks, t: ScenarioChecks, k: Kind)
    ensures forall r :: r in StrengthOrder ==>
              (r in GenericStrengths(c) + ScenarioStrengths(t, k) <==> r in GenericStrengths(c))
    ensures forall r :: r in SuggestionOrder ==>
              (r in GenericSuggestions(c) + ScenarioSuggestions(t, k) <==> r in GenericSuggestions(c))
  {
    ScenarioShape(t, k);
  }

  // ---------------------------------------------------------------------
  // Encouragement
  // ---------------------------------------------------------------------

  /** The band `generateEncouragement` picks: 3 from 80, 2 from 60, 1 from
      40, else 0. */
  function EncouragementLevel(overallScore: int): (n: nat)
    ensures n <= 3
    ensures n >= 1 <==> overallScore >= 40
    ensures n >= 2 <==> overallScore >= 60
    ensures n >= 3 <==> overallScore >= 80
  {
    if overallScore >= 80 then 3
    else if overallScore >= 60 then 2
    else if overallScore >= 40 then 1
    else 0
  }

  lemma EncouragementMonotone(a: int, b: int)
    requires a <= b
    ensures EncouragementLevel(a) <= EncouragementLevel(b)
  {
  }

  /** `generateEncouragement(feedback)`. */
  function GenerateEncouragement(f: TurnFeedback): string {
    match EncouragementLevel(f.overallScore)
    case 3 => "Excellent! You're communicating with confidence and clarity."
    case 2 => "Good job! You're on the right track with some room for improvement."
    case 1 => "You're making progress! Focus on the suggestions to improve further."
    case _ => "Keep practicing! Every conversation is a chance to improve."
  }
}
