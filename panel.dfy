// The feedback panel: the blended score, the enriched improvement list and
// the thresholds of the score and confidence displays.

module Panel {
  import opened Text
  import opened Collections
  import opened Numeric
  import opened Setting
  import Analyzer

  /** What the conversation screen hands the panel: the analyzer's record
      for the last answer with the answer's text attached. */
  datatype PanelFeedback = PanelFeedback(analysis: Analyzer.TurnFeedback, rawText: string)

  // ---------------------------------------------------------------------
  // `blendedScore`
  // ---------------------------------------------------------------------

  function OrElse(x: Option<int>, d: int): int {
    if x.Some? then x.value else d
  }

  /** `Math.round(0.6 * conf + 0.4 * analyzer)`, where both are clamped to
      0..100, a missing confidence counts as 0 and a missing overall score
      falls back to the clamped confidence. */
  function Blend(confidence: Option<int>, overallScore: Option<int>): (score: int)
    ensures 0 <= score <= 100
  {
    var conf := Clamp(0, 100, OrElse(confidence, 0));
    var analyzer := Clamp(0, 100, OrElse(overallScore, conf));
    RoundBlend(conf, analyzer);
    Round(0.6 * conf as real + 0.4 * analyzer as real)
  }

  /** The score the panel shows for `feedback`, or for no feedback at all. */
  function BlendedScore(feedback: Option<PanelFeedback>): (score: int)
    ensures 0 <= score <= 100
    ensures feedback.None? ==> score == 0
  {
    if feedback.None? then Blend(None, None)
    else Blend(Some(feedback.value.analysis.confidence), Some(feedback.value.analysis.overallScore))
  }

  /** The blend in integers: six tenths of the clamped confidence plus four
      tenths of the clamped overall score, rounded half up. */
  lemma BlendFormula(confidence: int, overallScore: int)
    ensures Blend(Some(confidence), Some(overallScore))
         == (6 * Clamp(0, 100, confidence) + 4 * Clamp(0, 100, overallScore) + 5) / 10
  {
    RoundBlend(Clamp(0, 100, confidence), Clamp(0, 100, overallScore));
  }

  /** The blend lies between its two clamped inputs. */
  lemma BlendBetween(confidence: int, overallScore: int)
    ensures Min(Clamp(0, 100, confidence), Clamp(0, 100, overallScore))
         <= Blend(Some(confidence), Some(overallScore))
         <= Max(Clamp(0, 100, confidence), Clamp(0, 100, overallScore))
  {
    BlendFormula(confidence, overallScore);
  }

  /** Without an overall score the blend is the clamped confidence; without
      either it is 0. */
  lemma BlendFallback(confidence: int)
    ensures Blend(Some(confidence), None) == Clamp(0, 100, confidence)
    ensures Blend(None, None) == 0
  {
    var c := Clamp(0, 100, confidence);
    RoundBlend(c, c);
    RoundBlend(0, 0);
  }

  /** Raising either input never lowers the blend. */
  lemma BlendMonotone(c1: int, a1: int, c2: int, a2: int)
    requires c1 <= c2 && a1 <= a2
    ensures Blend(Some(c1), Some(a1)) <= Blend(Some(c2), Some(a2))
  {
    BlendFormula(c1, a1);
    BlendFormula(c2, a2);
    ClampContracts(0, 100, c1, c2);
    ClampContracts(0, 100, a1, a2);
  }

  /** A confidence of 80 and an overall score of 60 blend to 72. */
  lemma BlendExample()
    ensures Blend(Some(80), Some(60)) == 72
  {
    BlendFormula(80, 60);
  }

  // ---------------------------------------------------------------------
  // `enrichedSuggestions`
  // ---------------------------------------------------------------------

  /** The tips the panel may add to the analyzer's suggestions. */
  datatype Tip =
    | AddDetail | BeConcise | Signposts | SupportClaim | AskQuestion | PauseFillers
    | SplitSentences | ConfidentPhrasing
    | StarFormat | MirrorVolley | IStatements | Headline

  function TipText(x: Tip): string {
    match x
    case AddDetail => "Add more detail \U{2014} aim for 3\U{2013}5 sentences with one concrete example."
    case BeConcise => "Be more concise \U{2014} summarize your main point in 1\U{2013}2 sentences."
    case Signposts =>
      "Use signposts (e.g., \U{201C}first\U{2026}\U{201D}, \U{201C}because\U{2026}\U{201D}, "
      + "\U{201C}for example\U{2026}\U{201D}) to improve structure."
    case SupportClaim => "Support a claim with a quick example or number (impact, timeline, metric)."
    case AskQuestion => "Ask at least one question to keep the conversation two\U{2011}way."
    case PauseFillers => "Pause briefly instead of saying fillers like \U{201C}um/uh/like\U{201D}."
    case SplitSentences => "Split long sentences \U{2014} one idea per sentence improves clarity."
    case ConfidentPhrasing =>
      "Use confident phrasing (e.g., \U{201C}I can\U{2026}\U{201D}, \U{201C}I\U{2019}m confident that\U{2026}\U{201D})."
    case StarFormat => "Use the STAR format (Situation, Task, Action, Result) for interview answers."
    case MirrorVolley => "Mirror & volley: share a point, then ask a related question back."
    case IStatements => "Use \U{201C}I\U{201D} statements and propose one clear next step to resolve."
    case Headline => "Lead with a headline sentence, then give one supporting fact."
  }

  /** The phrases of the three text tests, matched case-insensitively. */
  const SignpostWords: Vocabulary :=
    ["first", "second", "also", "because", "therefore", "however", "finally", "in conclusion", "to summarize"]
  const ExampleWords: Vocabulary :=
    ["for example", "for instance", "such as", "when i", "i once", "one time", "specifically"]
  const AssuredWords: Vocabulary :=
    ["i will", "i can", "i have", "i am", "definitely", "certainly", "confident", "sure"]

  /** What the generic tips look at: the metrics (0 when absent) and
      whether the raw text signposts, gives an example and sounds sure. */
  datatype TipChecks = TipChecks(
    words: int, questions: int, fillers: int, average: int,
    signposted: bool, exemplified: bool, assured: bool)

  function TipChecksOf(feedback: Option<PanelFeedback>): (t: TipChecks)
    ensures feedback.None? ==> t == TipChecks(0, 0, 0, 0, false, false, false)
  {
    if feedback.None? then TipChecks(0, 0, 0, 0, false, false, false)
    else
      var m := feedback.value.analysis.metrics;
      var raw := ToLower(feedback.value.rawText);
      TipChecks(m.wordCount, m.questionsAsked, m.fillerWordCount, m.averageWordsPerSentence,
                Test(raw, SignpostWords), Test(raw, ExampleWords), Test(raw, AssuredWords))
  }

  /** The condition under which the panel adds a generic tip. */
  predicate Due(x: Tip, t: TipChecks) {
    match x
    case AddDetail => t.words < 20
    case BeConcise => t.words > 120
    case Signposts => !t.signposted
    case SupportClaim => !t.exemplified
    case AskQuestion => t.questions == 0
    case PauseFillers => t.fillers > 1
    case SplitSentences => t.average > 24
    case ConfidentPhrasing => !t.assured
    case _ => false
  }

  /** The generic tips in the order the panel checks them. */
  const GenericOrder: seq<Tip> :=
    [AddDetail, BeConcise, Signposts, SupportClaim, AskQuestion, PauseFillers, SplitSentences, ConfidentPhrasing]

  // The adding steps take the table of tip texts as a parameter `text`;
  // the panel passes `TipText`.

  /** `if (c) tips.add(text(x))`. */
  function PushText(s: seq<string>, c: bool, x: Tip, text: Tip -> string): seq<string> {
    if c then Add(s, text(x)) else s
  }

  lemma PushTextProperties(s: seq<string>, c: bool, x: Tip, text: Tip -> string)
    ensures IsPrefix(s, PushText(s, c, x, text))
    ensures NoDup(s) ==> NoDup(PushText(s, c, x, text))
    ensures forall y :: y in PushText(s, c, x, text) <==> y in s || (c && y == text(x))
  {
    AddProperties(s, text(x));
  }

  /** The set after the eight generic checks, in the order the panel makes
      them: the four about length, signposts and examples, then the four
      about questions, fillers, sentence length and phrasing. */
  function WithGenericTips(s: seq<string>, t: TipChecks, text: Tip -> string): seq<string> {
    LateTips(EarlyTips(s, t, text), t, text)
  }

  function EarlyTips(s: seq<string>, t: TipChecks, text: Tip -> string): seq<string> {
    var s1 := PushText(s, Due(AddDetail, t), AddDetail, text);
    var s2 := PushText(s1, Due(BeConcise, t), BeConcise, text);
    var s3 := PushText(s2, Due(Signposts, t), Signposts, text);
    PushText(s3, Due(SupportClaim, t), SupportClaim, text)
  }

  function LateTips(s: seq<string>, t: TipChecks, text: Tip -> string): seq<string> {
    var s1 := PushText(s, Due(AskQuestion, t), AskQuestion, text);
    var s2 := PushText(s1, Due(PauseFillers, t), PauseFillers, text);
    var s3 := PushText(s2, Due(SplitSentences, t), SplitSentences, text);
    PushText(s3, Due(ConfidentPhrasing, t), ConfidentPhrasing, text)
  }

  /** `y` is the text of one of the first four tips, and that tip is due. */
  predicate EarlyDueText(y: string, t: TipChecks, text: Tip -> string) {
    (Due(AddDetail, t) && y == text(AddDetail)) || (Due(BeConcise, t) && y == text(BeConcise))
    || (Due(Signposts, t) && y == text(Signposts)) || (Due(SupportClaim, t) && y == text(SupportClaim))
  }

  /** `y` is the text of one of the last four tips, and that tip is due. */
  predicate LateDueText(y: string, t: TipChecks, text: Tip -> string) {
    (Due(AskQuestion, t) && y == text(AskQuestion)) || (Due(PauseFillers, t) && y == text(PauseFillers))
    || (Due(SplitSentences, t) && y == text(SplitSentences))
    || (Due(ConfidentPhrasing, t) && y == text(ConfidentPhrasing))
  }

  /** The tip a scenario adds: one for four of the keys, none for customer
      service or any other key. */
  function ScenarioTip(k: Kind): (tip: Option<Tip>)
    ensures tip.Some? <==> k in {JobInterview, Networking, Conflict, PublicSpeaking}
  {
    match k
    case JobInterview => Some(StarFormat)
    case Networking => Some(MirrorVolley)
    case Conflict => Some(IStatements)
    case PublicSpeaking => Some(Headline)
    case _ => None
  }

  function WithScenarioTip(s: seq<string>, k: Kind, text: Tip -> string): seq<string> {
    if ScenarioTip(k).Some? then Add(s, text(ScenarioTip(k).value)) else s
  }

  /** The analyzer's suggestions as the panel receives them; none without
      feedback. */
  function GivenSuggestions(feedback: Option<PanelFeedback>): (given: seq<string>)
    ensures feedback.None? ==> given == []
    ensures feedback.Some? ==> |given| == |feedback.value.analysis.suggestions|
    ensures feedback.Some? ==>
              forall i | 0 <= i < |given| :: given[i] == Analyzer.SuggestionText(feedback.value.analysis.suggestions[i])
  {
    if feedback.None? then []
    else
      var s := feedback.value.analysis.suggestions;
      seq(|s|, i requires 0 <= i < |s| => Analyzer.SuggestionText(s[i]))
  }

  /** `Array.from(tips)` at the end of `enrichedSuggestions`, with `text`
      the table of tip texts. */
  function Enriched(given: seq<string>, t: TipChecks, k: Kind, text: Tip -> string): seq<string> {
    WithScenarioTip(WithGenericTips(Dedup(given), t, text), k, text)
  }

  /** The eight generic tips of `enrichedSuggestions`, each added when its
      condition holds. */
  method AddGenericTips(tips: seq<string>, t: TipChecks, text: Tip -> string) returns (r: seq<string>)
    ensures r == WithGenericTips(tips, t, text)
  {
    r := tips;
    if t.words < 20 {
      r := Add(r, text(AddDetail));
    }
    if t.words > 120 {
      r := Add(r, text(BeConcise));
    }
    if !t.signposted {
      r := Add(r, text(Signposts));
    }
    if !t.exemplified {
      r := Add(r, text(SupportClaim));
    }
    if t.questions == 0 {
      r := Add(r, text(AskQuestion));
    }
    if t.fillers > 1 {
      r := Add(r, text(PauseFillers));
    }
    if t.average > 24 {
      r := Add(r, text(SplitSentences));
    }
    if !t.assured {
      r := Add(r, text(ConfidentPhrasing));
    }
  }

  /** The scenario tips of `enrichedSuggestions`: one check per key. */
  method AddScenarioTip(tips: seq<string>, scenario: Option<Scenario>, text: Tip -> string)
    returns (r: seq<string>)
    ensures r == WithScenarioTip(tips, KindOf(scenario), text)
  {
    r := tips;
    if scenario.Some? && scenario.value.key == "jobInterview" {
      r := Add(r, text(StarFormat));
    }
    if scenario.Some? && scenario.value.key == "networking" {
      r := Add(r, text(MirrorVolley));
    }
    if scenario.Some? && scenario.value.key == "conflict" {
      r := Add(r, text(IStatements));
    }
    if scenario.Some? && scenario.value.key == "publicSpeaking" {
      r := Add(r, text(Headline));
    }
  }

  /** `enrichedSuggestions`: the analyzer's suggestions go into a set, then
      the generic tips and the scenario tip are added in order. */
  method EnrichedSuggestions(feedback: Option<PanelFeedback>, scenario: Option<Scenario>)
    returns (tips: seq<string>)
    ensures tips == Enriched(GivenSuggestions(feedback), TipChecksOf(feedback), KindOf(scenario), TipText)
  {
    var given := GivenSuggestions(feedback);
    tips := [];
    for i := 0 to |given|
      invariant tips == Dedup(given[..i])
    {
      assert given[..i + 1][..i] == given[..i];
      tips := Add(tips, given[i]);
    }
    assert given[..|given|] == given;
    tips := AddGenericTips(tips, TipChecksOf(feedback), TipText);
    tips := AddScenarioTip(tips, scenario, TipText);
  }

  /** The first four checks keep what was there, in its order, add no
      duplicate, and add exactly the texts of the due tips among them. */
  lemma EarlyTipsProperties(s: seq<string>, t: TipChecks, text: Tip -> string)
    ensures IsPrefix(s, EarlyTips(s, t, text))
    ensures NoDup(s) ==> NoDup(EarlyTips(s, t, text))
    ensures forall y :: y in EarlyTips(s, t, text) <==> y in s || EarlyDueText(y, t, text)
  {
    var s1 := PushText(s, Due(AddDetail, t), AddDetail, text);
    var s2 := PushText(s1, Due(BeConcise, t), BeConcise, text);
    var s3 := PushText(s2, Due(Signposts, t), Signposts, text);
    PushTextProperties(s, Due(AddDetail, t), AddDetail, text);
    PushTextProperties(s1, Due(BeConcise, t), BeConcise, text);
    PushTextProperties(s2, Due(Signposts, t), Signposts, text);
    PushTextProperties(s3, Due(SupportClaim, t), SupportClaim, text);
    PrefixTrans(s, s1, s2);
    PrefixTrans(s, s2, s3);
    PrefixTrans(s, s3, EarlyTips(s, t, text));
  }

  /** The same for the last four checks. */
  lemma LateTipsProperties(s: seq<string>, t: TipChecks, text: Tip -> string)
    ensures IsPrefix(s, LateTips(s, t, text))
    ensures NoDup(s) ==> NoDup(LateTips(s, t, text))
    ensures forall y :: y in LateTips(s, t, text) <==> y in s || LateDueText(y, t, text)
  {
    var s1 := PushText(s, Due(AskQuestion, t), AskQuestion, text);
    var s2 := PushText(s1, Due(PauseFillers, t), PauseFillers, text);
    var s3 := PushText(s2, Due(SplitSentences, t), SplitSentences, text);
    PushTextProperties(s, Due(AskQuestion, t), AskQuestion, text);
    PushTextProperties(s1, Due(PauseFillers, t), PauseFillers, text);
    PushTextProperties(s2, Due(SplitSentences, t), SplitSentences, text);
    PushTextProperties(s3, Due(ConfidentPhrasing, t), ConfidentPhrasing, text);
    PrefixTrans(s, s1, s2);
    PrefixTrans(s, s2, s3);
    PrefixTrans(s, s3, LateTips(s, t, text));
  }

  /** The generic checks keep what was there first, in its order, and add
      no duplicate. */
  lemma GenericTipsKeep(s: seq<string>, t: TipChecks, text: Tip -> string)
    ensures IsPrefix(s, WithGenericTips(s, t, text))
    ensures NoDup(s) ==> NoDup(WithGenericTips(s, t, text))
  {
    var e := EarlyTips(s, t, text);
    EarlyTipsProperties(s, t, text);
    LateTipsProperties(e, t, text);
    PrefixTrans(s, e, WithGenericTips(s, t, text));
  }

  /** The text of every due tip is added. */
  lemma GenericTipsDue(s: seq<string>, t: TipChecks, text: Tip -> string, x: Tip)
    requires Due(x, t)
    ensures text(x) in WithGenericTips(s, t, text)
  {
    var e := EarlyTips(s, t, text);
    EarlyTipsProperties(s, t, text);
    LateTipsProperties(e, t, text);
    if x in {AddDetail, BeConcise, Signposts, SupportClaim} {
      assert EarlyDueText(text(x), t, text);
      assert text(x) in e;
    } else {
      assert LateDueText(text(x), t, text);
    }
  }

  /** Nothing but the texts of due tips is added. */
  lemma GenericTipsOnly(s: seq<string>, t: TipChecks, text: Tip -> string, y: string)
    requires y in WithGenericTips(s, t, text)
    ensures y in s || exists x :: Due(x, t) && y == text(x)
  {
    var e := EarlyTips(s, t, text);
    EarlyTipsProperties(s, t, text);
    LateTipsProperties(e, t, text);
    if y !in s {
      assert EarlyDueText(y, t, text) || LateDueText(y, t, text);
      var x :| x in GenericOrder && Due(x, t) && y == text(x);
    }
  }

  /** Prefixes compose. */
  lemma PrefixTrans(a: seq<string>, b: seq<string>, c: seq<string>)
    requires IsPrefix(a, b) && IsPrefix(b, c)
    ensures IsPrefix(a, c)
  {
    assert c[..|a|] == c[..|b|][..|a|];
  }

  /** The list shows the analyzer's suggestions first, deduplicated and in
      their order, and never shows an entry twice. */
  lemma EnrichedKeepsGiven(given: seq<string>, t: TipChecks, k: Kind, text: Tip -> string)
    ensures IsPrefix(Dedup(given), Enriched(given, t, k, text))
    ensures NoDup(Enriched(given, t, k, text))
    ensures forall s :: s in given ==> s in Enriched(given, t, k, text)
  {
    var d := Dedup(given);
    var g := WithGenericTips(d, t, text);
    DedupProperties(given);
    GenericTipsKeep(d, t, text);
    if ScenarioTip(k).Some? {
      AddProperties(g, text(ScenarioTip(k).value));
      PrefixTrans(d, g, Enriched(given, t, k, text));
    }
    forall s | s in given
      ensures s in Enriched(given, t, k, text)
    {
      assert s in d;
      assert s in g;
    }
  }

  /** The list shows the text of every due tip and of the scenario's tip,
      and nothing else besides the analyzer's suggestions. */
  lemma EnrichedTips(given: seq<string>, t: TipChecks, k: Kind, text: Tip -> string)
    ensures forall x :: Due(x, t) ==> text(x) in Enriched(given, t, k, text)
    ensures ScenarioTip(k).Some? ==> text(ScenarioTip(k).value) in Enriched(given, t, k, text)
    ensures forall y :: y in Enriched(given, t, k, text) ==>
              y in given || (exists x :: Due(x, t) && y == text(x))
              || (ScenarioTip(k).Some? && y == text(ScenarioTip(k).value))
  {
    var d := Dedup(given);
    var g := WithGenericTips(d, t, text);
    var e := Enriched(given, t, k, text);
    DedupProperties(given);
    if ScenarioTip(k).Some? {
      AddProperties(g, text(ScenarioTip(k).value));
    }
    forall x | Due(x, t)
      ensures text(x) in e
    {
      GenericTipsDue(d, t, text, x);
    }
    forall y | y in e
      ensures y in given || (exists x :: Due(x, t) && y == text(x))
              || (ScenarioTip(k).Some? && y == text(ScenarioTip(k).value))
    {
      if y in g {
        GenericTipsOnly(d, t, text, y);
      }
    }
  }

  /** Only the eight generic tips have conditions; the scenario tips are not
      among them. */
  lemma DueIsGeneric(x: Tip, t: TipChecks)
    requires Due(x, t)
    ensures x in GenericOrder
  {
  }

  // ---------------------------------------------------------------------
  // Score and confidence displays
  // ---------------------------------------------------------------------

  /** The four score bands the displays share, split at 90, 70 and 50. */
  datatype Tier = Excellent | Good | Fair | Starting

  function TierOf(score: int): Tier {
    if score >= 90 then Excellent else if score >= 70 then Good else if score >= 50 then Fair else Starting
  }

  function TierRank(t: Tier): nat {
    match t
    case Starting => 0
    case Fair => 1
    case Good => 2
    case Excellent => 3
  }

  /** A higher score never falls into a lower band. */
  lemma TierMonotone(x: int, y: int)
    requires x <= y
    ensures TierRank(TierOf(x)) <= TierRank(TierOf(y))
  {
  }

  /** `getScoreClass(score)`. */
  function ScoreClass(score: int): (c: string)
    ensures c == "excellent" <==> score >= 90
    ensures c == "good" <==> 70 <= score < 90
    ensures c == "fair" <==> 50 <= score < 70
    ensures c == "needs-improvement" <==> score < 50
  {
    if score >= 90 then "excellent"
    else if score >= 70 then "good"
    else if score >= 50 then "fair"
    else "needs-improvement"
  }

  /** The encouragement icon: a star from 90, a thumb from 70, a flexed arm
      from 50, a rocket below. */
  function EncouragementIcon(score: int): (icon: string)
    ensures icon == "\U{1F31F}" <==> score >= 90
    ensures icon == "\U{1F44D}" <==> 70 <= score < 90
    ensures icon == "\U{1F4AA}" <==> 50 <= score < 70
    ensures icon == "\U{1F680}" <==> score < 50
  {
    if score >= 90 then "\U{1F31F}" else if score >= 70 then "\U{1F44D}" else if score >= 50 then "\U{1F4AA}"
    else "\U{1F680}"
  }

  /** `getDefaultEncouragement(score)`. */
  function Encouragement(score: int): string {
    if score >= 90 then "Outstanding! You\U{2019}re ready to raise the difficulty or try a new scenario."
    else if score >= 70 then
      "Great job! You\U{2019}re close \U{2014} a little polish and you\U{2019}ll be at mastery."
    else if score >= 50 then "Good progress! Focus on the improvement tips and try again."
    else "You're just getting started! Every practice boosts your confidence \U{2014} give it another go."
  }

  /** The call to action under the feedback. */
  datatype Cta = RetryScenario | NextScenario

  function CtaOf(score: int): (c: Cta)
    ensures c == RetryScenario <==> score < 90
  {
    if score < 90 then RetryScenario else NextScenario
  }

  /** The button caption: the retry caption exactly for the retry. */
  function CtaButton(c: Cta): (caption: string)
    ensures caption == "\U{21BB} Retry this scenario" <==> c == RetryScenario
    ensures caption == "\U{2705} Try another scenario / harder level" <==> c == NextScenario
  {
    match c
    case RetryScenario => "\U{21BB} Retry this scenario"
    case NextScenario => "\U{2705} Try another scenario / harder level"
  }

  /** The hint under the button: the 90+ target for the retry. */
  function CtaHint(c: Cta): string {
    match c
    case RetryScenario => "Aim for 90+ before moving on. Use the tips above on your next try."
    case NextScenario => "Nice work! Level up the challenge or switch scenarios."
  }

  /** The score class changes exactly at the band edges. */
  lemma ScoreClassByTier(x: int, y: int)
    ensures ScoreClass(x) == ScoreClass(y) <==> TierOf(x) == TierOf(y)
  {
  }

  /** So does the encouragement icon. */
  lemma IconByTier(x: int, y: int)
    ensures EncouragementIcon(x) == EncouragementIcon(y) <==> TierOf(x) == TierOf(y)
  {
  }

  /** So does the encouragement text. */
  lemma EncouragementByTier(x: int, y: int)
    ensures Encouragement(x) == Encouragement(y) <==> TierOf(x) == TierOf(y)
  {
    TopEncouragementDistinct();
    MiddleEncouragementsDistinct();
    LowEncouragementsDistinct();
  }

  /** The panel offers the next scenario exactly in the top band. */
  lemma CtaByTier(x: int)
    ensures CtaOf(x) == NextScenario <==> TierOf(x) == Excellent
  {
  }

  lemma TopEncouragementDistinct()
    ensures Encouragement(90) != Encouragement(70) && Encouragement(90) != Encouragement(50)
  {
  }

  lemma MiddleEncouragementsDistinct()
    ensures Encouragement(90) != Encouragement(0) && Encouragement(70) != Encouragement(50)
  {
  }

  lemma LowEncouragementsDistinct()
    ensures Encouragement(70) != Encouragement(0) && Encouragement(50) != Encouragement(0)
  {
  }

  /** `getConfidenceColor(confidence)`: green from 80, amber from 60,
      orange from 40, red below. */
  function ConfidenceColor(confidence: int): (color: string)
    ensures color == "#2ed573" <==> confidence >= 80
    ensures color == "#ffa502" <==> 60 <= confidence < 80
    ensures color == "#ff6b35" <==> 40 <= confidence < 60
    ensures color == "#ff4757" <==> confidence < 40
  {
    if confidence >= 80 then "#2ed573"
    else if confidence >= 60 then "#ffa502"
    else if confidence >= 40 then "#ff6b35"
    else "#ff4757"
  }
}
