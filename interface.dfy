/** The conversation component's own helpers: its live-feedback tracker (a
    second rule table, separate from the engine's), the state it installs
    when a conversation starts, the greeting and fallback lines, the session
    clock text and the score bands of its display. */
module Interface {
  import opened Text
  import opened Collections
  import opened Numeric
  import opened Analysis
  import opened Setting
  import opened Responder

  // ---------------------------------------------------------------------
  // Cues found in the lower-cased input
  // ---------------------------------------------------------------------

  /** The alternatives of `/\b(confident|sure|certain|believe|strong)\b/g`. */
  const ConfidenceCues: Vocabulary := ["confident", "sure", "certain", "believe", "strong"]

  /** The alternatives of `/\b(maybe|perhaps|might|not sure|i think)\b/g`. */
  const UncertainCues: Vocabulary := ["maybe", "perhaps", "might", "not sure", "i think"]

  /** The pattern counts and substring tests of `updateRealtimeFeedback`. */
  datatype Cues = Cues(confidenceWords: nat, uncertainWords: nat, forExample: bool, suchAs: bool)

  function CuesOf(input: string): (c: Cues)
    ensures c.confidenceWords > 0 <==> Test(ToLower(input), ConfidenceCues)
    ensures c.uncertainWords > 0 <==> Test(ToLower(input), UncertainCues)
    ensures c.forExample <==> Contains(ToLower(input), "for example")
    ensures c.suchAs <==> Contains(ToLower(input), "such as")
  {
    var lower := ToLower(input);
    CountPositiveIffTest(lower, ConfidenceCues);
    CountPositiveIffTest(lower, UncertainCues);
    Cues(
      CountMatches(lower, ConfidenceCues),
      CountMatches(lower, UncertainCues),
      Contains(lower, "for example"),
      Contains(lower, "such as"))
  }

  // ---------------------------------------------------------------------
  // The rule table
  // ---------------------------------------------------------------------

  /** The strengths the component stores; `StrengthText` gives their texts. */
  datatype Strength =
    | Ready | Detailed | GoodLength | NoFiller | Structured | Questions | Confidence | Examples

  /** The improvement items the component stores; `AreaText` gives their texts. */
  datatype Area =
    | Expand | ReduceFillers | MinimizeFillers | BreakDown | ShowConfidence | IncludeExamples
    | Variety | Anecdotes
    | Introduce | SpeakClearly | UseExamples | AskQuestions | EyeContact

  function StrengthText(t: Strength): string {
    match t
    case Ready => "Ready to practice!"
    case Detailed => "Providing detailed responses"
    case GoodLength => "Good response length"
    case NoFiller => "Clear speech without filler words"
    case Structured => "Well-structured sentences"
    case Questions => "Asking engaging questions"
    case Confidence => "Expressing confidence"
    case Examples => "Supporting points with examples"
  }

  function AreaText(t: Area): string {
    match t
    case Expand => "Expand answers with more detail"
    case ReduceFillers => "Reduce filler words (um, uh, like)"
    case MinimizeFillers => "Try to minimize filler words"
    case BreakDown => "Break down complex sentences"
    case ShowConfidence => "Show more confidence in responses"
    case IncludeExamples => "Include specific examples"
    case Variety => "Practice speaking with more variety"
    case Anecdotes => "Consider adding personal anecdotes"
    case Introduce => "Start by introducing yourself"
    case SpeakClearly => "Speak clearly and confidently"
    case UseExamples => "Use specific examples when possible"
    case AskQuestions => "Ask engaging questions"
    case EyeContact => "Maintain good eye contact"
  }

  /** Whether `updateRealtimeFeedback` pushes strength `t`: the condition of
      its push, with the negated earlier branches of its `else if` chain
      folded in. */
  predicate StrengthPushed(t: Strength, a: TextAnalysis, c: Cues) {
    match t
    case Detailed => a.wordCount >= 15
    case GoodLength => 8 <= a.wordCount < 15
    case NoFiller => a.fillerCount == 0 && a.wordCount > 5
    case Structured => 8.0 < a.avgWordsPerSentence < 20.0
    case Questions => a.questionCount > 0
    case Confidence => c.confidenceWords > 0
    case Examples => c.forExample || c.suchAs
    case Ready => false
  }

  /** Whether `updateRealtimeFeedback` pushes improvement item `t` by a rule
      (the floor aside). */
  predicate AreaPushed(t: Area, a: TextAnalysis, c: Cues) {
    match t
    case Expand => 0 < a.wordCount < 5
    case ReduceFillers => a.fillerCount > 2
    case MinimizeFillers => 0 < a.fillerCount <= 2
    case BreakDown => a.avgWordsPerSentence > 25.0
    case ShowConfidence => c.uncertainWords > 1
    case IncludeExamples => !(c.forExample || c.suchAs) && a.wordCount > 15
    case _ => false
  }

  /** The strength pushes in source order. */
  const StrengthOrder: seq<Strength> :=
    [Detailed, GoodLength, NoFiller, Structured, Questions, Confidence, Examples]

  /** The improvement pushes in source order, before the floor. */
  const AreaOrder: seq<Area> :=
    [Expand, ReduceFillers, MinimizeFillers, BreakDown, ShowConfidence, IncludeExamples]

  /** The two items pushed when no improvement rule fired. */
  const Floor: seq<Area> := [Variety, Anecdotes]

  lemma OrderEntries()
    ensures |StrengthOrder| == 7 && |AreaOrder| == 6
    ensures StrengthOrder[0] == Detailed && StrengthOrder[1] == GoodLength
    ensures StrengthOrder[2] == NoFiller && StrengthOrder[3] == Structured
    ensures StrengthOrder[4] == Questions && StrengthOrder[5] == Confidence
    ensures StrengthOrder[6] == Examples
    ensures AreaOrder[0] == Expand && AreaOrder[1] == ReduceFillers
    ensures AreaOrder[2] == MinimizeFillers && AreaOrder[3] == BreakDown
    ensures AreaOrder[4] == ShowConfidence && AreaOrder[5] == IncludeExamples
  {
  }

  lemma OrdersDistinct()
    ensures NoDup(StrengthOrder) && NoDup(AreaOrder) && NoDup(Floor)
    ensures forall t :: t in Floor ==> t !in AreaOrder
  {
  }

  function StrengthBy(a: TextAnalysis, c: Cues): Strength -> bool {
    t => StrengthPushed(t, a, c)
  }

  function AreaBy(a: TextAnalysis, c: Cues): Area -> bool {
    t => AreaPushed(t, a, c)
  }

  /** `newStrengths` after the first `k` strength pushes. */
  function StrengthsUpTo(a: TextAnalysis, c: Cues, k: nat): seq<Strength>
    requires k <= |StrengthOrder|
  {
    if k == 0 then []
    else PushIf(StrengthsUpTo(a, c, k - 1), StrengthPushed(StrengthOrder[k - 1], a, c), StrengthOrder[k - 1])
  }

  /** `newAreasToImprove` after the first `k` improvement pushes. */
  function AreasUpTo(a: TextAnalysis, c: Cues, k: nat): seq<Area>
    requires k <= |AreaOrder|
  {
    if k == 0 then []
    else PushIf(AreasUpTo(a, c, k - 1), AreaPushed(AreaOrder[k - 1], a, c), AreaOrder[k - 1])
  }

  /** The strengths one input pushes. */
  function NewStrengths(a: TextAnalysis, c: Cues): seq<Strength> {
    StrengthsUpTo(a, c, |StrengthOrder|)
  }

  /** The improvement items the rules push for one input. */
  function FiredAreas(a: TextAnalysis, c: Cues): seq<Area> {
    AreasUpTo(a, c, |AreaOrder|)
  }

  /** The improvement items after the floor. */
  function NewAreas(a: TextAnalysis, c: Cues): seq<Area> {
    if FiredAreas(a, c) == [] then Floor else FiredAreas(a, c)
  }

  lemma {:induction false} StrengthsFiltered(a: TextAnalysis, c: Cues, k: nat)
    requires k <= |StrengthOrder|
    ensures StrengthsUpTo(a, c, k) == Filter(StrengthOrder[..k], StrengthBy(a, c))
  {
    if k > 0 {
      StrengthsFiltered(a, c, k - 1);
      FilterPrefixStep(StrengthOrder, k - 1, StrengthBy(a, c));
    }
  }

  lemma {:induction false} AreasFiltered(a: TextAnalysis, c: Cues, k: nat)
    requires k <= |AreaOrder|
    ensures AreasUpTo(a, c, k) == Filter(AreaOrder[..k], AreaBy(a, c))
  {
    if k > 0 {
      AreasFiltered(a, c, k - 1);
      FilterPrefixStep(AreaOrder, k - 1, AreaBy(a, c));
    }
  }

  /** A strength is among the new strengths exactly when its condition
      holds; none appears twice; source order is kept. */
  lemma NewStrengthMembers(a: TextAnalysis, c: Cues)
    ensures forall t :: t in NewStrengths(a, c) <==> t in StrengthOrder && StrengthPushed(t, a, c)
    ensures NoDup(NewStrengths(a, c)) && IsSubsequence(NewStrengths(a, c), StrengthOrder)
  {
    var p := StrengthBy(a, c);
    StrengthsFiltered(a, c, |StrengthOrder|);
    assert StrengthOrder[..|StrengthOrder|] == StrengthOrder;
    OrdersDistinct();
    FilterProperties(StrengthOrder, p);
    forall t
      ensures t in NewStrengths(a, c) <==> t in StrengthOrder && StrengthPushed(t, a, c)
    {
      assert p(t) == StrengthPushed(t, a, c);
    }
  }

  /** An item is pushed by a rule exactly when its condition holds; none
      twice; source order is kept. */
  lemma FiredAreaMembers(a: TextAnalysis, c: Cues)
    ensures forall t :: t in FiredAreas(a, c) <==> t in AreaOrder && AreaPushed(t, a, c)
    ensures NoDup(FiredAreas(a, c)) && IsSubsequence(FiredAreas(a, c), AreaOrder)
  {
    var p := AreaBy(a, c);
    AreasFiltered(a, c, |AreaOrder|);
    assert AreaOrder[..|AreaOrder|] == AreaOrder;
    OrdersDistinct();
    FilterProperties(AreaOrder, p);
    forall t
      ensures t in FiredAreas(a, c) <==> t in AreaOrder && AreaPushed(t, a, c)
    {
      assert p(t) == AreaPushed(t, a, c);
    }
  }

  /** The improvement items of one input are never empty and never repeat;
      they are the floor exactly when no rule fired. */
  lemma NewAreasNeverEmpty(a: TextAnalysis, c: Cues)
    ensures NewAreas(a, c) != [] && NoDup(NewAreas(a, c))
    ensures NewAreas(a, c) == Floor <==> forall t :: t in AreaOrder ==> !AreaPushed(t, a, c)
  {
    FiredAreaMembers(a, c);
    OrdersDistinct();
    var fired := FiredAreas(a, c);
    if fired != [] {
      assert fired[0] in fired;
      assert Variety in Floor;
      if fired == Floor {
        assert false;
      }
    }
  }

  /** The confidence terms of one input; there is no cap on their sum. */
  function RawAdjustment(a: TextAnalysis, c: Cues): int {
    var w := a.wordCount;
    var f := a.fillerCount;
    (if f == 0 && w > 5 then 3 else 0) + (if w >= 10 then 2 else 0)
    + (if c.confidenceWords > 0 then 4 else 0) + (if a.questionCount > 0 then 2 else 0)
    - (if f > 2 then 5 else 0) - (if w < 5 then 3 else 0) - (if c.uncertainWords > 1 then 3 else 0)
  }

  /** The adjustment lies in [-11, 11], and both ends are reached. */
  lemma RawAdjustmentRange(a: TextAnalysis, c: Cues)
    ensures -11 <= RawAdjustment(a, c) <= 11
    ensures RawAdjustment(a, c) == 11 <==>
              a.fillerCount == 0 && a.wordCount >= 10 && c.confidenceWords > 0
              && a.questionCount > 0 && c.uncertainWords <= 1
    ensures RawAdjustment(a, c) == -11 <==>
              a.fillerCount > 2 && a.wordCount < 5 && c.confidenceWords == 0
              && a.questionCount == 0 && c.uncertainWords > 1
  {
  }

  const TagCap := 5

  // ---------------------------------------------------------------------
  // The feedback record
  // ---------------------------------------------------------------------

  type Feedback = LiveFeedback<Strength, Area>

  /** The state `initializeConversation` installs. */
  const Seed: Feedback :=
    LiveFeedback([Ready], [Introduce, SpeakClearly, UseExamples, AskQuestions, EyeContact], 65, ZeroMetrics)

  predicate ValidFeedback(f: Feedback) {
    0 <= f.confidence <= 100
    && NoDup(f.strengths) && |f.strengths| <= TagCap
    && NoDup(f.areasToImprove) && |f.areasToImprove| <= TagCap
  }

  /** The seed holds one strength, a full improvement list and 65. */
  lemma SeedShape()
    ensures ValidFeedback(Seed)
    ensures |Seed.strengths| == 1 && |Seed.areasToImprove| == TagCap && Seed.confidence == 65
  {
  }

  /** `updateRealtimeFeedback` on the record. */
  function Merged(f: Feedback, a: TextAnalysis, c: Cues): Feedback {
    LiveFeedback(
      Merge(f.strengths, NewStrengths(a, c), TagCap),
      Merge(f.areasToImprove, NewAreas(a, c), TagCap),
      Clamp(0, 100, f.confidence + RawAdjustment(a, c)),
      f.metrics)
  }

  /** `analyzeCurrentInput` on a non-blank input: a new record with the
      metrics replaced, then updated. */
  function Updated(f: Feedback, input: string): Feedback {
    var a := PerformTextAnalysis(input);
    Merged(f.(metrics := MetricsOf(a)), a, CuesOf(input))
  }

  /** `analyzeCurrentInput` on any input: a blank one changes nothing. */
  function Step(f: Feedback, input: string): Feedback {
    if IsBlank(input) then f else Updated(f, input)
  }

  function Session(f: Feedback, inputs: seq<string>): Feedback
    decreases |inputs|
  {
    if inputs == [] then f else Session(Step(f, inputs[0]), inputs[1..])
  }

  /** One update keeps the invariant; old tags stay in front, a full list is
      left alone, the improvement list is never empty afterwards, and the
      confidence moves by the whole adjustment unless a bound stops it. */
  lemma MergedProperties(f: Feedback, a: TextAnalysis, c: Cues)
    requires ValidFeedback(f)
    ensures ValidFeedback(Merged(f, a, c))
    ensures IsPrefix(f.strengths, Merged(f, a, c).strengths)
    ensures IsPrefix(f.areasToImprove, Merged(f, a, c).areasToImprove)
    ensures |f.strengths| == TagCap ==> Merged(f, a, c).strengths == f.strengths
    ensures |f.areasToImprove| == TagCap ==> Merged(f, a, c).areasToImprove == f.areasToImprove
    ensures Merged(f, a, c).areasToImprove != []
    ensures 0 <= f.confidence + RawAdjustment(a, c) <= 100 ==>
              Merged(f, a, c).confidence == f.confidence + RawAdjustment(a, c)
    ensures -11 <= Merged(f, a, c).confidence - f.confidence <= 11
  {
    NewAreasNeverEmpty(a, c);
    RawAdjustmentRange(a, c);
    MergeProperties(f.strengths, NewStrengths(a, c), TagCap);
    MergeProperties(f.areasToImprove, NewAreas(a, c), TagCap);
    var m := Merge(f.areasToImprove, NewAreas(a, c), TagCap);
    if f.areasToImprove == [] {
      var d := Dedup(f.areasToImprove + NewAreas(a, c));
      DedupProperties(f.areasToImprove + NewAreas(a, c));
      assert NewAreas(a, c)[0] in f.areasToImprove + NewAreas(a, c);
      assert |d| > 0;
      assert m == d[..Min(TagCap, |d|)];
    } else {
      assert IsPrefix(f.areasToImprove, m);
    }
  }

  /** A tag enters a list only when this input pushed it. */
  lemma NewTagsFromRules(f: Feedback, a: TextAnalysis, c: Cues, s: Strength, t: Area)
    ensures s in Merged(f, a, c).strengths && s !in f.strengths ==> s in NewStrengths(a, c)
    ensures t in Merged(f, a, c).areasToImprove && t !in f.areasToImprove ==> t in NewAreas(a, c)
  {
    MergeProperties(f.strengths, NewStrengths(a, c), TagCap);
    MergeProperties(f.areasToImprove, NewAreas(a, c), TagCap);
  }

  /** From the seed, any sequence of inputs keeps the invariant and never
      changes the improvement list, which starts full. */
  lemma {:induction false} SessionProperties(f: Feedback, inputs: seq<string>)
    requires ValidFeedback(f)
    ensures ValidFeedback(Session(f, inputs))
    ensures |f.areasToImprove| == TagCap ==> Session(f, inputs).areasToImprove == f.areasToImprove
    ensures |f.strengths| == TagCap ==> Session(f, inputs).strengths == f.strengths
    decreases |inputs|
  {
    if inputs != [] {
      if !IsBlank(inputs[0]) {
        var a := PerformTextAnalysis(inputs[0]);
        MergedProperties(f.(metrics := MetricsOf(a)), a, CuesOf(inputs[0]));
      }
      SessionProperties(Step(f, inputs[0]), inputs[1..]);
    }
  }

  lemma SeedAreasFixed(inputs: seq<string>)
    ensures Session(Seed, inputs).areasToImprove == Seed.areasToImprove
    ensures ValidFeedback(Session(Seed, inputs))
  {
    SeedShape();
    SessionProperties(Seed, inputs);
  }

  // ---------------------------------------------------------------------
  // The objects
  // ---------------------------------------------------------------------

  /** The `newFeedback` object `updateRealtimeFeedback` writes into. */
  class FeedbackObject {
    var strengths: seq<Strength>
    var areasToImprove: seq<Area>
    var confidence: int
    var metrics: LiveMetrics

    function Value(): Feedback
      reads this
    {
      LiveFeedback(strengths, areasToImprove, confidence, metrics)
    }

    constructor (f: Feedback)
      ensures Value() == f
    {
      strengths := f.strengths;
      areasToImprove := f.areasToImprove;
      confidence := f.confidence;
      metrics := f.metrics;
    }

    /** `updateRealtimeFeedback(input, this, analysis)`. */
    method UpdateRealtimeFeedback(input: string, analysis: TextAnalysis)
      modifies this
      ensures Value() == Merged(old(Value()), analysis, CuesOf(input))
    {
      var cues := CuesOf(input);
      var newStrengths, newAreasToImprove := NewTags(analysis, cues);
      strengths := Merge(strengths, newStrengths, TagCap);
      areasToImprove := Merge(areasToImprove, newAreasToImprove, TagCap);
      var adjustment := ConfidenceAdjustment(analysis, cues);
      confidence := Max(0, Min(100, confidence + adjustment));
    }
  }

  /** Each strength push spelled out with its tag and its condition. */
  lemma StrengthSteps(a: TextAnalysis, c: Cues)
    ensures StrengthsUpTo(a, c, 1) == PushIf([], a.wordCount >= 15, Detailed)
    ensures StrengthsUpTo(a, c, 2) == PushIf(StrengthsUpTo(a, c, 1), 8 <= a.wordCount < 15, GoodLength)
    ensures StrengthsUpTo(a, c, 3)
         == PushIf(StrengthsUpTo(a, c, 2), a.fillerCount == 0 && a.wordCount > 5, NoFiller)
    ensures StrengthsUpTo(a, c, 4)
         == PushIf(StrengthsUpTo(a, c, 3), 8.0 < a.avgWordsPerSentence < 20.0, Structured)
    ensures StrengthsUpTo(a, c, 5) == PushIf(StrengthsUpTo(a, c, 4), a.questionCount > 0, Questions)
    ensures StrengthsUpTo(a, c, 6) == PushIf(StrengthsUpTo(a, c, 5), c.confidenceWords > 0, Confidence)
    ensures StrengthsUpTo(a, c, 7) == PushIf(StrengthsUpTo(a, c, 6), c.forExample || c.suchAs, Examples)
  {
    OrderEntries();
  }

  /** Each improvement push spelled out with its item and its condition. */
  lemma AreaSteps(a: TextAnalysis, c: Cues)
    ensures AreasUpTo(a, c, 1) == PushIf([], 0 < a.wordCount < 5, Expand)
    ensures AreasUpTo(a, c, 2) == PushIf(AreasUpTo(a, c, 1), a.fillerCount > 2, ReduceFillers)
    ensures AreasUpTo(a, c, 3) == PushIf(AreasUpTo(a, c, 2), 0 < a.fillerCount <= 2, MinimizeFillers)
    ensures AreasUpTo(a, c, 4) == PushIf(AreasUpTo(a, c, 3), a.avgWordsPerSentence > 25.0, BreakDown)
    ensures AreasUpTo(a, c, 5) == PushIf(AreasUpTo(a, c, 4), c.uncertainWords > 1, ShowConfidence)
    ensures AreasUpTo(a, c, 6)
         == PushIf(AreasUpTo(a, c, 5), !(c.forExample || c.suchAs) && a.wordCount > 15, IncludeExamples)
  {
    OrderEntries();
  }

  /** The word-count rule: a strength for a long or medium answer, an
      improvement item for a very short one. */
  method LengthRule(a: TextAnalysis, strengths: seq<Strength>, areas: seq<Area>)
    returns (newStrengths: seq<Strength>, newAreasToImprove: seq<Area>)
    ensures newStrengths == PushIf(PushIf(strengths, a.wordCount >= 15, Detailed), 8 <= a.wordCount < 15, GoodLength)
    ensures newAreasToImprove == PushIf(areas, 0 < a.wordCount < 5, Expand)
  {
    newStrengths, newAreasToImprove := strengths, areas;
    if a.wordCount >= 15 {
      newStrengths := newStrengths + [Detailed];
    } else if a.wordCount >= 8 {
      newStrengths := newStrengths + [GoodLength];
    } else if a.wordCount > 0 && a.wordCount < 5 {
      newAreasToImprove := newAreasToImprove + [Expand];
    }
  }

  /** The filler rule: a strength for none in a longer answer, one of two
      improvement items otherwise. */
  method FillerRule(a: TextAnalysis, strengths: seq<Strength>, areas: seq<Area>)
    returns (newStrengths: seq<Strength>, newAreasToImprove: seq<Area>)
    ensures newStrengths == PushIf(strengths, a.fillerCount == 0 && a.wordCount > 5, NoFiller)
    ensures newAreasToImprove
         == PushIf(PushIf(areas, a.fillerCount > 2, ReduceFillers), 0 < a.fillerCount <= 2, MinimizeFillers)
  {
    newStrengths, newAreasToImprove := strengths, areas;
    if a.fillerCount == 0 && a.wordCount > 5 {
      newStrengths := newStrengths + [NoFiller];
    } else if a.fillerCount > 2 {
      newAreasToImprove := newAreasToImprove + [ReduceFillers];
    } else if a.fillerCount > 0 {
      newAreasToImprove := newAreasToImprove + [MinimizeFillers];
    }
  }

  /** The sentence-length rule. */
  method SentenceRule(a: TextAnalysis, strengths: seq<Strength>, areas: seq<Area>)
    returns (newStrengths: seq<Strength>, newAreasToImprove: seq<Area>)
    ensures newStrengths == PushIf(strengths, 8.0 < a.avgWordsPerSentence < 20.0, Structured)
    ensures newAreasToImprove == PushIf(areas, a.avgWordsPerSentence > 25.0, BreakDown)
  {
    newStrengths, newAreasToImprove := strengths, areas;
    if 8.0 < a.avgWordsPerSentence < 20.0 {
      newStrengths := newStrengths + [Structured];
    } else if a.avgWordsPerSentence > 25.0 {
      newAreasToImprove := newAreasToImprove + [BreakDown];
    }
  }

  /** The engagement, confidence and example rules. */
  method CueRules(a: TextAnalysis, c: Cues, strengths: seq<Strength>, areas: seq<Area>)
    returns (newStrengths: seq<Strength>, newAreasToImprove: seq<Area>)
    ensures newStrengths
         == PushIf(PushIf(PushIf(strengths, a.questionCount > 0, Questions), c.confidenceWords > 0, Confidence),
                   c.forExample || c.suchAs, Examples)
    ensures newAreasToImprove
         == PushIf(PushIf(areas, c.uncertainWords > 1, ShowConfidence),
                   !(c.forExample || c.suchAs) && a.wordCount > 15, IncludeExamples)
  {
    newStrengths, newAreasToImprove := strengths, areas;
    if a.questionCount > 0 {
      newStrengths := newStrengths + [Questions];
    }
    if c.confidenceWords > 0 {
      newStrengths := newStrengths + [Confidence];
    }
    if c.uncertainWords > 1 {
      newAreasToImprove := newAreasToImprove + [ShowConfidence];
    }
    if c.forExample || c.suchAs {
      newStrengths := newStrengths + [Examples];
    } else if a.wordCount > 15 {
      newAreasToImprove := newAreasToImprove + [IncludeExamples];
    }
  }

  /** The rules of `updateRealtimeFeedback` in the source's order, then the
      floor when none of them pushed an improvement item. */
  method NewTags(a: TextAnalysis, c: Cues) returns (newStrengths: seq<Strength>, newAreasToImprove: seq<Area>)
    ensures newStrengths == NewStrengths(a, c)
    ensures newAreasToImprove == NewAreas(a, c)
  {
    OrderEntries();
    StrengthSteps(a, c);
    AreaSteps(a, c);
    newStrengths, newAreasToImprove := LengthRule(a, [], []);
    newStrengths, newAreasToImprove := FillerRule(a, newStrengths, newAreasToImprove);
    newStrengths, newAreasToImprove := SentenceRule(a, newStrengths, newAreasToImprove);
    newStrengths, newAreasToImprove := CueRules(a, c, newStrengths, newAreasToImprove);
    assert newAreasToImprove == FiredAreas(a, c);
    if |newAreasToImprove| == 0 {
      newAreasToImprove := newAreasToImprove + [Variety];
      newAreasToImprove := newAreasToImprove + [Anecdotes];
      assert newAreasToImprove == Floor;
    }
  }

  /** The step-by-step sum of `confidenceAdjustment`. */
  method ConfidenceAdjustment(a: TextAnalysis, c: Cues) returns (adjustment: int)
    ensures adjustment == RawAdjustment(a, c)
    ensures -11 <= adjustment <= 11
  {
    adjustment := 0;
    if a.fillerCount == 0 && a.wordCount > 5 { adjustment := adjustment + 3; }
    if a.wordCount >= 10 { adjustment := adjustment + 2; }
    if c.confidenceWords > 0 { adjustment := adjustment + 4; }
    if a.questionCount > 0 { adjustment := adjustment + 2; }
    if a.fillerCount > 2 { adjustment := adjustment - 5; }
    if a.wordCount < 5 { adjustment := adjustment - 3; }
    if c.uncertainWords > 1 { adjustment := adjustment - 3; }
    RawAdjustmentRange(a, c);
  }

  /** The component's state that its helpers read and write. */
  class Conversation {
    var realtimeFeedback: Feedback
    var messages: seq<Entry>

    /** `initializeConversation`: the seed feedback and the greeting alone
        in the history, stamped with the clock reading `now`. */
    constructor (personality: string, now: int)
      ensures realtimeFeedback == Seed
      ensures messages == [Entry(AiSender, Greeting(personality), now)]
    {
      realtimeFeedback := Seed;
      messages := [Entry(AiSender, Greeting(personality), now)];
    }

    /** `analyzeCurrentInput(input)`: blank input leaves the state as it is;
        otherwise a fresh object is built from the state, updated and stored. */
    method AnalyzeCurrentInput(input: string)
      modifies this
      ensures realtimeFeedback == Step(old(realtimeFeedback), input)
      ensures messages == old(messages)
    {
      if IsBlank(input) {
        return;
      }
      var analysis := PerformTextAnalysis(input);
      var newFeedback := new FeedbackObject(realtimeFeedback.(metrics := MetricsOf(analysis)));
      newFeedback.UpdateRealtimeFeedback(input, analysis);
      realtimeFeedback := newFeedback.Value();
    }

    /** The history part of `handleSendMessage`, corrected: the trimmed input
        joins the history, and the responder is handed the history as it stood
        before the message. As written the component hands on the history with
        the new message already appended (`SentHistory`). Blank input is
        ignored. */
    method SendMessage(currentInput: string, now: int) returns (history: seq<Entry>)
      modifies this
      ensures history == old(messages)
      ensures IsBlank(currentInput) ==> messages == old(messages)
      ensures !IsBlank(currentInput) ==>
                messages == old(messages) + [Entry(UserSender, Trim(currentInput), now)]
      ensures realtimeFeedback == old(realtimeFeedback)
    {
      history := messages;
      if !IsBlank(currentInput) {
        messages := messages + [Entry(UserSender, Trim(currentInput), now)];
      }
    }
  }

  // ---------------------------------------------------------------------
  // The history handed to the responder
  // ---------------------------------------------------------------------

  /** The history `handleSendMessage` passes as written: the messages with
      the new user message already appended. */
  function SentHistory(messages: seq<Entry>, userMessage: Entry): seq<Entry> {
    messages + [userMessage]
  }

  /** As written, the responder counts the new message among the earlier
      ones, so its fallback never opens the conversation, even on the first
      user message. */
  lemma SentHistoryNeverOpens(messages: seq<Entry>, input: string, now: int)
    requires input != ""
    ensures Choose(input, SentHistory(messages, Entry(UserSender, Trim(input), now))) != OpenConversation
  {
    var e := Entry(UserSender, Trim(input), now);
    FilterAppend(messages, [e], IsFromUser);
    assert Filter([e], IsFromUser) == [e] + Filter([], IsFromUser);
  }

  /** As written, the chat sent to the model ends with the user's text twice. */
  lemma SentHistoryRepeatsInput(systemPrompt: string, messages: seq<Entry>, input: string, now: int)
    requires !IsBlank(input)
    ensures var m := Messages(systemPrompt, input, SentHistory(messages, Entry(UserSender, Trim(input), now)));
            |m| >= 3 && m[|m| - 2] == ChatMessage(UserRole, Trim(input)) && m[|m| - 1] == ChatMessage(UserRole, input)
  {
    var e := Entry(UserSender, Trim(input), now);
    var h := SentHistory(messages, e);
    var r := Recent(h);
    assert r[|r| - 1] == e;
    assert ChatOf(r) == ChatOf(r[..|r| - 1]) + [ChatMessage(UserRole, Trim(input))];
  }

  /** With the history as it stood before the message, the first user
      message gets the opening line and later ones a reply. */
  lemma PriorHistoryOpensOnce(messages: seq<Entry>, input: string)
    requires input != ""
    ensures Choose(input, messages) == OpenConversation <==> |UserMessages(messages)| == 0
  {
  }

  // ---------------------------------------------------------------------
  // Greeting and fallback
  // ---------------------------------------------------------------------

  function GreetingText(p: Persona): string {
    match p
    case Tough => "Alright, let's get started. I don't have all day, so make this count. Tell me what you've got."
    case Friendly => "Hello! I'm so excited to chat with you today. How are you feeling? Ready to have a great conversation?"
    case Neutral => "Good day. Please take a moment to collect your thoughts, and we'll begin when you're ready."
    case Skeptical => "Hmm, so you think you're ready for this? I'll be the judge of that. Go ahead, impress me."
    case Supportive => "Welcome! I'm here to help you practice and improve. Don't worry about making mistakes - that's how we learn!"
    case Intimidating => "So you want to practice with me? This won't be easy. I expect excellence. Let's see what you're made of."
    case Chatty => "Oh hi there! This is so exciting! I love meeting new people and having conversations. Tell me everything!"
    case Empathetic => "Hello, I can sense you might be a bit nervous, and that's completely okay. Take your time and speak from the heart."
  }

  function FallbackText(p: Persona): string {
    match p
    case Tough => "That's interesting. Give me more details and show me some real substance."
    case Friendly => "That's great! Can you tell me more about that? I'd love to hear your thoughts!"
    case Neutral => "Please elaborate on that point and provide additional context."
    case Skeptical => "I'm not entirely convinced. Can you provide more evidence for that claim?"
    case Supportive => "You're doing well! Can you expand on that and share more of your experience?"
    case Intimidating => "Acceptable, but I need more. Show me depth and real insight."
    case Chatty => "Oh wow, that's fascinating! Tell me everything - I want to hear all the details!"
    case Empathetic => "I can hear that's important to you. Please feel comfortable sharing more."
  }

  /** `getGreeting()` for the component's `personality`. */
  function Greeting(personality: string): string {
    GreetingText(PersonaOr(personality))
  }

  /** `getFallbackResponse(userInput, p)`: the input is not read. */
  function ComponentFallback(userInput: string, p: string): string {
    FallbackText(PersonaOr(p))
  }

  /** Each personality's own key selects its greeting. */
  lemma GreetingKnown(p: Persona)
    ensures Greeting(PersonaName(p)) == GreetingText(p)
  {
    PersonaRoundTrip(p);
  }

  /** Each personality's own key selects its fallback line, whatever the input. */
  lemma FallbackKnown(p: Persona, userInput: string)
    ensures ComponentFallback(userInput, PersonaName(p)) == FallbackText(p)
  {
    PersonaRoundTrip(p);
  }

  /** A name outside the table gets the neutral lines. */
  lemma UnknownNameNeutral(name: string, userInput: string)
    requires PersonaOf(name) == None
    ensures Greeting(name) == GreetingText(Neutral)
    ensures ComponentFallback(userInput, name) == FallbackText(Neutral)
  {
  }

  // ---------------------------------------------------------------------
  // Session clock
  // ---------------------------------------------------------------------

  function DigitChar(d: nat): char
    requires d < 10
  {
    ('0' as int + d) as char
  }

  function DigitValue(c: char): nat {
    if IsDigit(c) then c as int - '0' as int else 0
  }

  lemma DigitRoundTrip(d: nat)
    requires d < 10
    ensures IsDigit(DigitChar(d)) && DigitValue(DigitChar(d)) == d
  {
  }

  /** `n.toString()` for a natural number. */
  function Decimal(n: nat): (s: string)
    ensures |s| > 0 && forall i :: 0 <= i < |s| ==> IsDigit(s[i])
    decreases n
  {
    (if n < 10 then [] else Decimal(n / 10)) + [DigitChar(n % 10)]
  }

  /** The value of a string of decimal digits. */
  function DecimalValue(s: string): nat
    decreases |s|
  {
    if s == [] then 0 else DecimalValue(s[..|s| - 1]) * 10 + DigitValue(s[|s| - 1])
  }

  lemma {:induction false} DecimalRoundTrip(n: nat)
    ensures DecimalValue(Decimal(n)) == n
    ensures n > 0 ==> Decimal(n)[0] != '0'
    decreases n
  {
    var s := Decimal(n);
    DigitRoundTrip(n % 10);
    assert s[|s| - 1] == DigitChar(n % 10);
    if n >= 10 {
      DecimalRoundTrip(n / 10);
      assert s[..|s| - 1] == Decimal(n / 10);
    } else {
      assert s[..|s| - 1] == [];
    }
  }

  /** `padStart(2, '0')`. */
  function PadTwo(s: string): string {
    if |s| < 2 then ['0'] + s else s
  }

  /** `getSessionDuration()` for an elapsed `duration` in milliseconds. */
  function SessionDuration(duration: nat): string {
    Decimal(duration / 60000) + ":" + PadTwo(Decimal(duration % 60000 / 1000))
  }

  /** The value of a two-character digit string. */
  lemma PairValue(x: char, y: char)
    ensures DecimalValue([x, y]) == DigitValue(x) * 10 + DigitValue(y)
  {
    assert [x, y][..1] == [x];
    assert [x][..0] == [];
    assert DecimalValue([x]) == DigitValue(x);
  }

  /** A number below 100 is written with one or two digits. */
  lemma ShortDecimal(n: nat)
    requires n < 100
    ensures n < 10 ==> Decimal(n) == [DigitChar(n)]
    ensures n >= 10 ==> Decimal(n) == [DigitChar(n / 10), DigitChar(n % 10)]
  {
    if n >= 10 {
      assert Decimal(n / 10) == [DigitChar(n / 10)];
    }
  }

  /** A number below 100, padded, is two digits that read back as it. */
  lemma TwoDigits(n: nat)
    requires n < 100
    ensures var p := PadTwo(Decimal(n));
            |p| == 2 && IsDigit(p[0]) && IsDigit(p[1]) && DecimalValue(p) == n
  {
    ShortDecimal(n);
    if n < 10 {
      DigitRoundTrip(n);
      PairValue('0', DigitChar(n));
      assert PadTwo(Decimal(n)) == ['0', DigitChar(n)];
    } else {
      DigitRoundTrip(n / 10);
      DigitRoundTrip(n % 10);
      PairValue(DigitChar(n / 10), DigitChar(n % 10));
    }
  }

  /** The text reads back as the whole minutes, then a colon, then the
      seconds within the minute as exactly two digits. */
  lemma SessionDurationParts(duration: nat)
    ensures var t := SessionDuration(duration);
            var k := |t| - 3;
            0 <= k && t[k] == ':'
            && DecimalValue(t[..k]) == duration / 60000
            && IsDigit(t[k + 1]) && IsDigit(t[k + 2])
            && DecimalValue(t[k + 1..]) == duration % 60000 / 1000
            && duration % 60000 / 1000 < 60
  {
    var minutes := Decimal(duration / 60000);
    var secs := duration % 60000 / 1000;
    assert secs < 60;
    DecimalRoundTrip(duration / 60000);
    TwoDigits(secs);
    var p := PadTwo(Decimal(secs));
    var t := SessionDuration(duration);
    assert t == minutes + ":" + p;
    var k := |t| - 3;
    assert k == |minutes|;
    assert t[..k] == minutes;
    assert t[k + 1..] == p;
  }

  // ---------------------------------------------------------------------
  // Display bands
  // ---------------------------------------------------------------------

  datatype Band = High | Medium | NeedsWork

  /** The band a score falls in: from 80, from 60, below. */
  function BandOf(score: int): (b: Band)
    ensures b == High <==> score >= 80
    ensures b == NeedsWork <==> score < 60
  {
    if score >= 80 then High else if score >= 60 then Medium else NeedsWork
  }

  function BandRank(b: Band): nat {
    match b
    case NeedsWork => 0
    case Medium => 1
    case High => 2
  }

  /** A higher score never falls in a lower band. */
  lemma BandMonotone(x: int, y: int)
    requires x <= y
    ensures BandRank(BandOf(x)) <= BandRank(BandOf(y))
  {
  }

  /** `getScoreColor(score)`. */
  function ScoreColor(score: int): (color: string)
    ensures color == "#4CAF50" <==> score >= 80
    ensures color == "#FF9800" <==> 60 <= score < 80
    ensures color == "#F44336" <==> score < 60
  {
    match BandOf(score)
    case High => "#4CAF50"
    case Medium => "#FF9800"
    case NeedsWork => "#F44336"
  }

  /** `getConfidenceLevel(confidence)`. */
  function ConfidenceLevel(confidence: int): (level: string)
    ensures level == "High" <==> confidence >= 80
    ensures level == "Medium" <==> 60 <= confidence < 80
    ensures level == "Needs Work" <==> confidence < 60
  {
    match BandOf(confidence)
    case High => "High"
    case Medium => "Medium"
    case NeedsWork => "Needs Work"
  }

  /** The colour and the level name agree: green is "High", orange is
      "Medium", red is "Needs Work". */
  lemma ColorMatchesLevel(score: int)
    ensures ScoreColor(score) == "#4CAF50" <==> ConfidenceLevel(score) == "High"
    ensures ScoreColor(score) == "#F44336" <==> ConfidenceLevel(score) == "Needs Work"
    ensures ConfidenceLevel(score) == "High" <==> score >= 80
    ensures ConfidenceLevel(score) == "Needs Work" <==> score < 60
  {
  }
}
