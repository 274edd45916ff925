/** The live feedback tracker of the conversation engine: the rule table
    that turns one user message into strength and improvement tags and a
    bounded confidence change, and the engine object that keeps the
    current feedback, its subscribers and the model name. */
module Engine {
  import opened Text
  import opened Collections
  import opened Numeric
  import opened Analysis

  // ---------------------------------------------------------------------
  // Cues found in the lower-cased message
  // ---------------------------------------------------------------------

  const ConfidenceCues: Vocabulary :=
    ["confident", "sure", "certain", "believe", "strong", "definitely", "absolutely", "clearly"]
  const UncertainCues: Vocabulary :=
    ["maybe", "perhaps", "might", "not sure", "i think", "i guess", "probably"]
  const PersonalCues: Vocabulary :=
    ["when i", "i remember", "last time", "recently", "yesterday", "during"]
  const ActionCues: Vocabulary :=
    ["achieved", "implemented", "developed", "managed", "led", "improved", "increased"]
  const OrganizationCues: Vocabulary :=
    ["first", "second", "third", "finally", "in conclusion", "to summarize"]

  /** The pattern counts and substring tests the rules look at. A global
      `match` gives `null` or a non-empty array, so "truthy" is a count above 0. */
  datatype Cues = Cues(
    confidenceWords: nat,
    uncertainWords: nat,
    forExample: bool,
    suchAs: bool,
    forInstance: bool,
    personal: bool,
    action: bool,
    organization: bool)

  /** The cue counts and phrase tests of `updateFeedback`, all on the
      lower-cased input. */
  function CuesOf(input: string): (c: Cues)
    ensures c.confidenceWords > 0 <==> Test(ToLower(input), ConfidenceCues)
    ensures c.uncertainWords > 0 <==> Test(ToLower(input), UncertainCues)
    ensures c.forExample <==> Contains(ToLower(input), "for example")
    ensures c.suchAs <==> Contains(ToLower(input), "such as")
    ensures c.forInstance <==> Contains(ToLower(input), "for instance")
    ensures c.personal <==> Test(ToLower(input), PersonalCues)
    ensures c.action <==> Test(ToLower(input), ActionCues)
    ensures c.organization <==> Test(ToLower(input), OrganizationCues)
  {
    var lower := ToLower(input);
    CountPositiveIffTest(lower, ConfidenceCues);
    CountPositiveIffTest(lower, UncertainCues);
    CountPositiveIffTest(lower, PersonalCues);
    CountPositiveIffTest(lower, ActionCues);
    CountPositiveIffTest(lower, OrganizationCues);
    Cues(
      CountMatches(lower, ConfidenceCues),
      CountMatches(lower, UncertainCues),
      Contains(lower, "for example"),
      Contains(lower, "such as"),
      Contains(lower, "for instance"),
      CountMatches(lower, PersonalCues) > 0,
      CountMatches(lower, ActionCues) > 0,
      CountMatches(lower, OrganizationCues) > 0)
  }

  // ---------------------------------------------------------------------
  // The rule table
  // ---------------------------------------------------------------------

  /** The tags the engine pushes; `TagText` gives the text the program
      stores. The sixteen texts are pairwise different, so lists of tags and
      lists of their texts have the same duplicates. */
  datatype Tag =
    | Comprehensive
    | GoodLength
    | NoFiller
    | Structured
    | Questions
    | Confidence
    | Examples
    | Personal
    | Action
    | Organized
    | Expand
    | ReduceFillers
    | MinimizeFillers
    | BreakDown
    | ShowConfidence
    | IncludeExamples

  function TagText(t: Tag): string {
    match t
    case Comprehensive => "Providing comprehensive responses"
    case GoodLength => "Good response length"
    case NoFiller => "Clear speech without filler words"
    case Structured => "Well-structured sentence length"
    case Questions => "Asking engaging questions"
    case Confidence => "Expressing confidence in responses"
    case Examples => "Supporting points with examples"
    case Personal => "Using personal experiences effectively"
    case Action => "Using professional action words"
    case Organized => "Well-organized response structure"
    case Expand => "Expand on your answers with more detail"
    case ReduceFillers => "Reduce filler words (um, uh, like, you know)"
    case MinimizeFillers => "Try to minimize filler words"
    case BreakDown => "Break down complex sentences for clarity"
    case ShowConfidence => "Show more confidence in your responses"
    case IncludeExamples => "Include specific examples to support your points"
  }

  /** Whether `updateFeedback` pushes tag `t` for this message: the whole
      condition of its push, an `else if` carrying the negation of the
      branches before it. */
  predicate Pushes(t: Tag, a: TextAnalysis, c: Cues) {
    var w := a.wordCount;
    var f := a.fillerCount;
    var hasExample := c.forExample || c.suchAs || c.forInstance;
    match t
    case Comprehensive => w >= 20
    case GoodLength => 10 <= w < 20
    case NoFiller => f == 0 && w > 10
    case Structured => 8.0 < a.avgWordsPerSentence < 20.0
    case Questions => a.questionCount > 0
    case Confidence => c.confidenceWords > 0
    case Examples => hasExample
    case Personal => c.personal
    case Action => c.action
    case Organized => c.organization
    case Expand => 0 < w < 5
    case ReduceFillers => f > 3
    case MinimizeFillers => 1 < f <= 3
    case BreakDown => a.avgWordsPerSentence > 25.0
    case ShowConfidence => c.uncertainWords > 2
    case IncludeExamples => !hasExample && w > 25
  }

  /** The order in which the strength pushes stand in the source. */
  const StrengthOrder: seq<Tag> :=
    [Comprehensive, GoodLength, NoFiller, Structured, Questions,
     Confidence, Examples, Personal, Action, Organized]

  /** The order in which the improvement pushes stand in the source. */
  const AreaOrder: seq<Tag> :=
    [Expand, ReduceFillers, MinimizeFillers, BreakDown, ShowConfidence, IncludeExamples]

  lemma OrdersNoDup()
    ensures NoDup(StrengthOrder) && NoDup(AreaOrder)
  {
  }

  /** `newStrengths` after the pushes: each strength tag at most once, in
      source order, when its condition holds. */
  function NewStrengths(a: TextAnalysis, c: Cues): seq<Tag> {
    Filter(StrengthOrder, t => Pushes(t, a, c))
  }

  /** `newAreasToImprove` after the pushes. */
  function NewAreas(a: TextAnalysis, c: Cues): seq<Tag> {
    Filter(AreaOrder, t => Pushes(t, a, c))
  }

  /** The confidence bonus terms of one message. */
  function Bonus(a: TextAnalysis, c: Cues): int {
    3 * B(a.fillerCount == 0 && a.wordCount > 5) + 2 * B(a.wordCount >= 15)
    + 4 * B(c.confidenceWords > 0) + 2 * B(a.questionCount > 0) + 3 * B(c.forExample)
  }

  /** The confidence penalty terms of one message; more than three fillers
      count against both filler terms. */
  function Penalty(a: TextAnalysis, c: Cues): int {
    8 * B(a.fillerCount > 3) + 3 * B(a.fillerCount > 1) + 5 * B(a.wordCount < 5)
    + 4 * B(c.uncertainWords > 2)
  }

  function RawAdjustment(a: TextAnalysis, c: Cues): int {
    Bonus(a, c) - Penalty(a, c)
  }

  const MaxChange := 5
  const TagCap := 6

  /** The adjustment lies in [-20, 14] before the cap; a message with more
      than three fillers can only lower the confidence or leave it. */
  lemma RawAdjustmentRange(a: TextAnalysis, c: Cues)
    ensures -20 <= RawAdjustment(a, c) <= 14
    ensures a.fillerCount > 3 ==> Penalty(a, c) >= 11 && RawAdjustment(a, c) <= 0
  {
  }

  /** One confidence step: `clamp(0, 100, old + clamp(-5, 5, raw))`. */
  function NextConfidence(confidence: int, raw: int): int {
    Clamp(0, 100, confidence + Clamp(-MaxChange, MaxChange, raw))
  }

  /** A step from a score in [0, 100] stays in [0, 100], moves by at most
      5 and in the direction of the raw adjustment. */
  lemma NextConfidenceBounded(confidence: int, raw: int)
    requires 0 <= confidence <= 100
    ensures 0 <= NextConfidence(confidence, raw) <= 100
    ensures -MaxChange <= NextConfidence(confidence, raw) - confidence <= MaxChange
    ensures raw >= 0 ==> NextConfidence(confidence, raw) >= confidence
    ensures raw <= 0 ==> NextConfidence(confidence, raw) <= confidence
  {
  }

  // ---------------------------------------------------------------------
  // The feedback record and one update
  // ---------------------------------------------------------------------

  /** The engine's feedback record. */
  type Feedback = LiveFeedback<Tag, Tag>

  /** The state the constructor and `resetFeedback` install. */
  const Seed: Feedback := LiveFeedback([], [], 85, ZeroMetrics)

  /** Confidence in [0, 100]; both tag lists without duplicates and capped. */
  predicate ValidFeedback(f: Feedback) {
    0 <= f.confidence <= 100
    && NoDup(f.strengths) && |f.strengths| <= TagCap
    && NoDup(f.areasToImprove) && |f.areasToImprove| <= TagCap
  }

  /** `updateFeedback` on the record: the pushed tags merged into the lists,
      the confidence moved by the capped adjustment, the metrics kept. */
  function Merged(f: Feedback, a: TextAnalysis, c: Cues): Feedback {
    LiveFeedback(
      Merge(f.strengths, NewStrengths(a, c), TagCap),
      Merge(f.areasToImprove, NewAreas(a, c), TagCap),
      NextConfidence(f.confidence, RawAdjustment(a, c)),
      f.metrics)
  }

  /** The state after a non-blank message: metrics replaced, then merged. */
  function Updated(f: Feedback, input: string): Feedback {
    var a := PerformTextAnalysis(input);
    Merged(f.(metrics := MetricsOf(a)), a, CuesOf(input))
  }

  /** Merging the tags of any message and taking its confidence step keeps the invariant. */
  lemma MergedValid(f: Feedback, a: TextAnalysis, c: Cues)
    requires ValidFeedback(f)
    ensures ValidFeedback(Merged(f, a, c))
  {
    MergeProperties(f.strengths, NewStrengths(a, c), TagCap);
    MergeProperties(f.areasToImprove, NewAreas(a, c), TagCap);
    NextConfidenceBounded(f.confidence, RawAdjustment(a, c));
  }

  /** What one analysed message does to the live feedback: the invariant is
      kept, the confidence moves by at most 5, old tags stay in front and a
      full tag list does not change. */
  lemma UpdatedProperties(f: Feedback, input: string)
    requires ValidFeedback(f)
    ensures ValidFeedback(Updated(f, input))
    ensures -MaxChange <= Updated(f, input).confidence - f.confidence <= MaxChange
    ensures IsPrefix(f.strengths, Updated(f, input).strengths)
    ensures IsPrefix(f.areasToImprove, Updated(f, input).areasToImprove)
    ensures |f.strengths| == TagCap ==> Updated(f, input).strengths == f.strengths
    ensures |f.areasToImprove| == TagCap ==> Updated(f, input).areasToImprove == f.areasToImprove
    ensures Updated(f, input).metrics == MetricsOf(PerformTextAnalysis(input))
  {
    var a := PerformTextAnalysis(input);
    var c := CuesOf(input);
    MergeProperties(f.strengths, NewStrengths(a, c), TagCap);
    MergeProperties(f.areasToImprove, NewAreas(a, c), TagCap);
    NextConfidenceBounded(f.confidence, RawAdjustment(a, c));
  }

  /** A tag enters a list only when this message pushed it. */
  lemma NewTagsFromRules(f: Feedback, a: TextAnalysis, c: Cues, tag: Tag)
    ensures tag in Merged(f, a, c).strengths && tag !in f.strengths ==> tag in NewStrengths(a, c)
    ensures tag in Merged(f, a, c).areasToImprove && tag !in f.areasToImprove ==> tag in NewAreas(a, c)
  {
    MergeProperties(f.strengths, NewStrengths(a, c), TagCap);
    MergeProperties(f.areasToImprove, NewAreas(a, c), TagCap);
  }

  /** One message pushes no tag twice, only strength tags onto the strength
      list and only improvement tags onto the other, in source order. */
  lemma NewTagsOrdered(a: TextAnalysis, c: Cues)
    ensures NoDup(NewStrengths(a, c)) && IsSubsequence(NewStrengths(a, c), StrengthOrder)
    ensures NoDup(NewAreas(a, c)) && IsSubsequence(NewAreas(a, c), AreaOrder)
  {
    OrdersNoDup();
    FilterProperties(StrengthOrder, t => Pushes(t, a, c));
    FilterProperties(AreaOrder, t => Pushes(t, a, c));
  }

  /** The strength tags: the first ten of the enumeration. */
  predicate IsStrength(t: Tag) {
    t.Comprehensive? || t.GoodLength? || t.NoFiller? || t.Structured? || t.Questions?
    || t.Confidence? || t.Examples? || t.Personal? || t.Action? || t.Organized?
  }

  lemma OrdersCover(t: Tag)
    ensures t in StrengthOrder <==> IsStrength(t)
    ensures t in AreaOrder <==> !IsStrength(t)
  {
  }

  /** A tag is pushed onto the strength list exactly when it is a strength
      tag whose condition holds, and onto the improvement list exactly when
      it is an improvement tag whose condition holds. */
  lemma NewTagsMembers(a: TextAnalysis, c: Cues, t: Tag)
    ensures t in NewStrengths(a, c) <==> IsStrength(t) && Pushes(t, a, c)
    ensures t in NewAreas(a, c) <==> !IsStrength(t) && Pushes(t, a, c)
  {
    OrdersCover(t);
    StrengthMembers(a, c, t);
    AreaMembers(a, c, t);
  }

  lemma StrengthMembers(a: TextAnalysis, c: Cues, t: Tag)
    ensures t in NewStrengths(a, c) <==> t in StrengthOrder && Pushes(t, a, c)
  {
    FilterProperties(StrengthOrder, t => Pushes(t, a, c));
  }

  lemma AreaMembers(a: TextAnalysis, c: Cues, t: Tag)
    ensures t in NewAreas(a, c) <==> t in AreaOrder && Pushes(t, a, c)
  {
    FilterProperties(AreaOrder, t => Pushes(t, a, c));
  }

  /** Each aspect of a message earns praise or advice, never both: length,
      fillers, sentence length and examples; of the two filler warnings at
      most one applies. With `NewTagsMembers` this holds for the pushed lists. */
  lemma PushesExclusive(a: TextAnalysis, c: Cues)
    ensures Pushes(Comprehensive, a, c) || Pushes(GoodLength, a, c) ==> !Pushes(Expand, a, c)
    ensures !(Pushes(Comprehensive, a, c) && Pushes(GoodLength, a, c))
    ensures Pushes(NoFiller, a, c) ==> !Pushes(ReduceFillers, a, c) && !Pushes(MinimizeFillers, a, c)
    ensures !(Pushes(ReduceFillers, a, c) && Pushes(MinimizeFillers, a, c))
    ensures Pushes(Structured, a, c) ==> !Pushes(BreakDown, a, c)
    ensures Pushes(Examples, a, c) <==> !Pushes(IncludeExamples, a, c) && (c.forExample || c.suchAs || c.forInstance)
  {
  }


  /** The step-by-step sum of `confidenceAdjustment` before the cap. */
  method ConfidenceAdjustment(analysis: TextAnalysis, cues: Cues) returns (adjustment: int)
    ensures adjustment == RawAdjustment(analysis, cues)
    ensures -20 <= adjustment <= 14
  {
    var w := analysis.wordCount;
    var f := analysis.fillerCount;
    adjustment := 0;
    if f == 0 && w > 5 { adjustment := adjustment + 3; }
    if w >= 15 { adjustment := adjustment + 2; }
    if cues.confidenceWords > 0 { adjustment := adjustment + 4; }
    if analysis.questionCount > 0 { adjustment := adjustment + 2; }
    if cues.forExample { adjustment := adjustment + 3; }
    assert adjustment == Bonus(analysis, cues);
    ghost var bonus := adjustment;
    if f > 3 { adjustment := adjustment - 8; }
    if f > 1 { adjustment := adjustment - 3; }
    if w < 5 { adjustment := adjustment - 5; }
    if cues.uncertainWords > 2 { adjustment := adjustment - 4; }
    assert adjustment == bonus - Penalty(analysis, cues);
    RawAdjustmentRange(analysis, cues);
  }

  // ---------------------------------------------------------------------
  // The engine object
  // ---------------------------------------------------------------------

  /** A registered callback, by identity: `filter(cb => cb !== callback)`
      compares functions by reference. */
  type Callback = nat

  /** One callback invocation during a notification: its argument, a copy of
      the current feedback, and whether the callback threw (and was caught). */
  datatype Delivery = Delivery(callback: Callback, snapshot: Feedback, threw: bool)

  /** The deliveries of one notification round, in registration order. */
  function Deliveries(callbacks: seq<Callback>, f: Feedback, throwing: set<Callback>): (r: seq<Delivery>)
    ensures |r| == |callbacks|
    ensures forall i :: 0 <= i < |r| ==> r[i].callback == callbacks[i] && r[i].snapshot == f
  {
    seq(|callbacks|, i requires 0 <= i < |callbacks| => Delivery(callbacks[i], f, callbacks[i] in throwing))
  }

  const DefaultModel := "llama3-70b-8192"

  class FeedbackEngine {
    var model: string
    var callbacks: seq<Callback>
    var feedback: Feedback

    ghost predicate Valid()
      reads this
    {
      ValidFeedback(feedback)
    }

    /** The model comes from the environment, with a default when unset or empty. */
    constructor (envModel: string)
      ensures Valid()
      ensures feedback == Seed && callbacks == []
      ensures model == if envModel == "" then DefaultModel else envModel
    {
      model := if envModel == "" then DefaultModel else envModel;
      callbacks := [];
      feedback := Seed;
    }

    method OnFeedbackUpdate(cb: Callback)
      modifies this
      ensures callbacks == old(callbacks) + [cb]
      ensures feedback == old(feedback) && model == old(model)
    {
      callbacks := callbacks + [cb];
    }

    method RemoveFeedbackCallback(cb: Callback)
      modifies this
      ensures callbacks == Remove(old(callbacks), cb)
      ensures cb !in callbacks
      ensures multiset(callbacks) == multiset(old(callbacks))[cb := 0]
      ensures IsSubsequence(callbacks, old(callbacks))
      ensures feedback == old(feedback) && model == old(model)
    {
      RemoveProperties(callbacks, cb);
      callbacks := Remove(callbacks, cb);
    }

    /** Every registered callback is called once, in order, with a copy of the
        current feedback; one that throws does not stop the others. */
    method NotifyFeedbackUpdate(throwing: set<Callback>) returns (log: seq<Delivery>)
      ensures |log| == |callbacks|
      ensures forall i :: 0 <= i < |log| ==>
                log[i] == Delivery(callbacks[i], feedback, callbacks[i] in throwing)
    {
      log := [];
      var i := 0;
      while i < |callbacks|
        invariant 0 <= i <= |callbacks|
        invariant |log| == i
        invariant forall k :: 0 <= k < i ==>
                    log[k] == Delivery(callbacks[k], feedback, callbacks[k] in throwing)
      {
        var cb := callbacks[i];
        var threw := cb in throwing;
        log := log + [Delivery(cb, feedback, threw)];
        i := i + 1;
      }
    }

    /** `analyzeUserInput`: blank input changes nothing and notifies nobody;
        otherwise the metrics are replaced, the feedback updated and every
        subscriber notified with the new state. */
    method AnalyzeUserInput(userInput: string, throwing: set<Callback>) returns (log: seq<Delivery>)
      requires Valid()
      modifies this
      ensures Valid()
      ensures callbacks == old(callbacks) && model == old(model)
      ensures IsBlank(userInput) ==> feedback == old(feedback) && log == []
      ensures !IsBlank(userInput) ==>
                feedback == Updated(old(feedback), userInput)
                && log == Deliveries(callbacks, feedback, throwing)
    {
      if IsBlank(userInput) {
        return [];
      }
      var analysis := PerformTextAnalysis(userInput);
      feedback := feedback.(metrics := MetricsOf(analysis));
      UpdateFeedback(userInput, analysis);
      UpdatedProperties(old(feedback), userInput);
      log := NotifyFeedbackUpdate(throwing);
    }

    /** `updateFeedback`: pushes the fired tags, merges them into the lists,
        and adds up the capped confidence adjustment. */
    method UpdateFeedback(userInput: string, analysis: TextAnalysis)
      requires Valid()
      modifies this
      ensures Valid()
      ensures feedback == Merged(old(feedback), analysis, CuesOf(userInput))
      ensures callbacks == old(callbacks) && model == old(model)
    {
      var cues := CuesOf(userInput);
      var adjustment := ConfidenceAdjustment(analysis, cues);
      MergedValid(feedback, analysis, cues);
      feedback := LiveFeedback(
        Merge(feedback.strengths, NewStrengths(analysis, cues), TagCap),
        Merge(feedback.areasToImprove, NewAreas(analysis, cues), TagCap),
        Clamp(0, 100, feedback.confidence + Clamp(-MaxChange, MaxChange, adjustment)),
        feedback.metrics);
    }

    /** A copy of the current feedback. The engine replaces its lists rather
        than changing them, so the copy keeps its contents. */
    method GetCurrentFeedback() returns (f: Feedback)
      ensures f == feedback
    {
      f := feedback;
    }

    /** `resetFeedback`: the constructor's seed again, then a notification. */
    method ResetFeedback(throwing: set<Callback>) returns (log: seq<Delivery>)
      modifies this
      ensures Valid()
      ensures feedback == Seed
      ensures callbacks == old(callbacks) && model == old(model)
      ensures log == Deliveries(callbacks, Seed, throwing)
    {
      feedback := Seed;
      log := NotifyFeedbackUpdate(throwing);
    }

    /** `updateModel`: a blank name is ignored, any other is stored trimmed. */
    method UpdateModel(newModel: string)
      modifies this
      ensures model == if IsBlank(newModel) then old(model) else Trim(newModel)
      ensures !IsBlank(newModel) ==> model != [] && !IsSpace(model[0]) && !IsSpace(model[|model| - 1])
      ensures feedback == old(feedback) && callbacks == old(callbacks)
    {
      if !IsBlank(newModel) {
        model := Trim(newModel);
      }
    }
  }

  /** A sequence of analysed messages keeps the invariant, never moves the
      confidence by more than 5 per message, and leaves a full list alone. */
  lemma {:induction false} SessionProperties(f: Feedback, inputs: seq<string>)
    requires ValidFeedback(f)
    ensures ValidFeedback(Session(f, inputs))
    ensures |f.strengths| == TagCap ==> Session(f, inputs).strengths == f.strengths
    ensures |f.areasToImprove| == TagCap ==> Session(f, inputs).areasToImprove == f.areasToImprove
    ensures -MaxChange * |inputs| <= Session(f, inputs).confidence - f.confidence <= MaxChange * |inputs|
    decreases |inputs|
  {
    if inputs != [] {
      var g := Step(f, inputs[0]);
      if !IsBlank(inputs[0]) {
        UpdatedProperties(f, inputs[0]);
      }
      SessionProperties(g, inputs[1..]);
    }
  }

  /** `analyzeUserInput` on the feedback value. */
  function Step(f: Feedback, input: string): Feedback {
    if IsBlank(input) then f else Updated(f, input)
  }

  /** The feedback after a sequence of `analyzeUserInput` calls. */
  function Session(f: Feedback, inputs: seq<string>): Feedback
    decreases |inputs|
  {
    if inputs == [] then f else Session(Step(f, inputs[0]), inputs[1..])
  }
}
