# Conversation practice: the feedback and scoring layer

A Dafny model of the feedback and scoring layer of the conversation-practice
application. A user types answers to an AI conversation partner. The
application scores each answer and gives advice in three places:

- **The conversation engine** (`aiEngine.js`) keeps a live feedback record.
  It holds strength and improvement tags, a confidence score and the last text
  metrics. It notifies subscribers after each message. The engine also builds
  the chat messages sent to the model, has a keyword-driven fallback
  responder, and computes conversation statistics and recommendations.
- **The conversation component** (`ConversationInterface.js`) keeps its own
  live feedback record. Its rule table is separate from the engine's, with
  different thresholds, a cap of 5 instead of 6, and no limit on how far the
  confidence can move in one step. It also has greetings, fallback lines, a
  session clock and display bands.
- **The turn analyzer** (`feedbackAnalyzer.js`) scores one answer. It computes
  a confidence score and metrics, then runs generic checks, then adds remarks
  for the scenario when one is given, then computes an overall score.
- **The feedback panel** (`FeedbackPanel.js`) blends the analyzer's confidence
  and overall score into one displayed score. It extends the analyzer's
  suggestions with tips, in insertion order and without repeats, and picks
  the score class, icon, encouragement and call to action.

Files and modules:

| file | module | contents |
|---|---|---|
| `text.dfy` | `Text` | white space, `trim`, `split` on runs of separators and on one character, ASCII lower-casing, `\b(…)\b` phrase patterns (`test` and `/g` match counts), `includes` |
| `collections.dfy` | `Collections` | a JavaScript `Set` as an insertion-ordered sequence (`Add`, `Dedup`), the capped tag merge, `filter`, conditional pushes |
| `numeric.dfy` | `Numeric` | clamps and `Math.round`, with the integer forms of the roundings the program does |
| `metrics.dfy` | `Analysis` | `performTextAnalysis` (the engine's and the component's copies are one function) and the live feedback record |
| `setting.dfy` | `Setting` | personalities and scenario keys, with the `table[key] \|\| table.neutral` lookups |
| `engine.dfy` | `Engine` | the engine's rule table and the class `FeedbackEngine` (feedback, subscribers, model name) |
| `responder.dfy` | `Responder` | the system prompt, `buildMessages`, the fallback responder, conversation statistics and recommendations |
| `analyzer.dfy` | `Analyzer` | the whole `FeedbackAnalyzer` |
| `interface.dfy` | `Interface` | the component's reducer (classes `FeedbackObject` and `Conversation`), greeting, fallback, session clock, display bands |
| `panel.dfy` | `Panel` | the blended score, the enriched suggestions and the score displays |

Modelling conventions:

- Text is `seq<char>`. Letter case is folded on ASCII letters only. `\s` is the
  JavaScript white-space set. `\w` and `\b` are ASCII.
- A case-insensitive regex test is a test on the lower-cased text. A `/g`
  count is a leftmost, non-overlapping count in which the first alternative
  that matches at a position wins.
- The averages and weights that JavaScript computes in floating point are exact
  values in Dafny's `real` type. `0.4`, `0.6` and quotients of counts are
  exact reals. Each such average or weight is proved equal to an integer
  formula (`Numeric.RoundQuotient`, `Numeric.RoundBlend`,
  `Analysis.AverageBetween`).
- `Math.random()` in the response pickers becomes an index argument. `Date.now()`
  becomes a clock argument `now`.
- Where a method pushes onto arrays step by step, it is proved equal to a
  specification function. That function is characterised by lemmas: the
  filter over the fixed order of the pushes, membership if and only if the
  condition held, no duplicates, and counts.

Three behaviours of the code that are easy to miss:

- The engine's uncertainty rule fires when more than two hedging words match
  (`src/utils/aiEngine.js:148-153`, `201`). The component's rule fires when
  more than one matches (`src/components/ConversationInterface.js:179-182`,
  `213`).
- In the engine, more than three fillers apply both the −8 and the −3 term,
  because the two tests are separate `if` statements
  (`src/utils/aiEngine.js:198-199`).
- The panel blends the analyzer record's own `confidence`. The live
  tracker's value is not used, because the component stores the analyzer's
  result with `rawText` attached
  (`src/components/ConversationInterface.js:288-290`).

## Model

| member | source | states |
|---|---|---|
| Text.Trim | src/utils/aiEngine.js:90 | the trimmed text is a slice of the input with only white space cut off before and after it, and it is empty or starts and ends with a non-white-space character |
| Text.BlankIffAllSpace | src/utils/aiEngine.js:74 | `!s.trim()` holds exactly when every character is white space |
| Text.SplitRuns | src/utils/aiEngine.js:91 | a split on runs of separators always yields at least one piece |
| Text.SplitOnCharLength | src/utils/feedbackAnalyzer.js:27 | `split(' ')` yields one more piece than there are spaces |
| Text.WordsShape | src/utils/aiEngine.js:90 | every word is non-empty and holds no white space |
| Text.WordsOfTrim | src/utils/aiEngine.js:90 | trimming a text does not change its words |
| Text.SplitRunsWords | src/utils/aiEngine.js:90 | the non-empty pieces of a split on white-space runs are exactly the words, in order |
| Text.TrimmedSplitIsWords | src/utils/aiEngine.js:661 | `trim().split(/\s+/)` of a non-blank text is its list of words |
| Text.WordsEmptyIffBlank | src/utils/aiEngine.js:90 | a text has no words exactly when it is blank |
| Text.NoSentencesIff | src/utils/aiEngine.js:91 | a text has no non-blank sentence exactly when it holds only white space and `.`, `!`, `?` |
| Text.CountCharAppend | src/utils/aiEngine.js:95 | the count of a character in a concatenation is the sum of the counts of the parts |
| Text.FirstMatch | src/utils/aiEngine.js:93 | the alternative chosen at a position matches there and no earlier alternative does |
| Text.CountPositiveIffTest | src/utils/aiEngine.js:141-146 | a `/g` match count is positive exactly when the pattern occurs |
| Text.TestWithin | src/utils/feedbackAnalyzer.js:115-116 | a pattern whose alternatives all belong to a second pattern matches only where the second one does |
| Text.ToLower | src/utils/aiEngine.js:347 | `toLowerCase()` maps every ASCII capital to its small letter and leaves every other character as it is (proved in `Text.ToLowerProperties`) |
| Text.ToLowerProperties | src/utils/aiEngine.js:347 | lower-casing keeps the length, leaves no capital, changes no other character and is idempotent |
| Text.SplitOnChar | src/utils/feedbackAnalyzer.js:86 | `split(' ')` always yields at least one piece; `Text.SplitOnCharLength` counts them |
| Text.Words | src/utils/aiEngine.js:90 | the white-space-separated words of a text; `Text.WordsShape`, `Text.WordsOfTrim`, `Text.SplitRunsWords` and `Text.WordsEmptyIffBlank` characterise them |
| Text.Test | src/utils/feedbackAnalyzer.js:115-119 | `/\b(...)\b/i.test(s)`: some alternative matches at a word boundary; `Text.CountPositiveIffTest` ties it to the match count |
| Text.CountMatches | src/utils/aiEngine.js:141-146 | `(s.match(/\b(...)\b/g) \|\| []).length`: the number of non-overlapping matches, scanning left to right; positive exactly when `Text.Test` holds (`Text.CountPositiveIffTest`) |
| Collections.AddProperties | src/components/FeedbackPanel.js:35-40 | `set.add` keeps the earlier elements as a prefix, adds no duplicate, and adds exactly the new element |
| Collections.AddPresent | src/components/FeedbackPanel.js:35-40 | adding an element already present changes nothing |
| Collections.DedupProperties | src/components/FeedbackPanel.js:35 | `new Set(xs)` has no duplicate and holds exactly the elements of `xs` |
| Collections.DedupOfNoDup | src/utils/aiEngine.js:182-184 | a list without duplicates is its own set |
| Collections.DedupAppendPrefix | src/utils/aiEngine.js:182-184 | the set built from a list is a prefix of the set built from any extension of it |
| Collections.DedupAppendPresent | src/utils/aiEngine.js:182-184 | appending elements already present leaves the set as it is |
| Collections.MergeProperties | src/utils/aiEngine.js:181-188 | the capped merge has no duplicates, at most `cap` entries and only old or new entries; it keeps a valid old list as a prefix and leaves a full list unchanged |
| Collections.MergeUncut | src/utils/aiEngine.js:181-188 | when the union fits under the cap, nothing is cut |
| Collections.MergeFull | src/utils/aiEngine.js:181-188 | merging into a full list leaves it as it is |
| Collections.RemoveProperties | src/utils/aiEngine.js:59-61 | `filter(cb => cb !== x)` removes every occurrence of `x`, keeps every other element exactly as often and in order |
| Collections.FilterProperties | src/utils/aiEngine.js:692-712 | a filter keeps exactly the elements meeting the condition, in their order, and keeps a list duplicate-free |
| Collections.FilterAppend | src/utils/aiEngine.js:692-712 | filtering a concatenation filters each part |
| Numeric.Clamp | src/utils/aiEngine.js:204 | `Math.max(lo, Math.min(hi, x))` lies in `[lo, hi]` and is `x` inside it, `lo` below and `hi` above |
| Numeric.ClampContracts | src/utils/aiEngine.js:206-209 | clamping is monotone and never moves two values further apart |
| Numeric.RoundNearest | src/components/FeedbackPanel.js:21 | `Math.round(x)` lies in `(x - 0.5, x + 0.5]` |
| Numeric.RoundShift | src/components/FeedbackPanel.js:21 | rounding commutes with adding an integer |
| Numeric.RoundMonotone | src/components/FeedbackPanel.js:21 | rounding is monotone |
| Numeric.RoundQuotient | src/utils/feedbackAnalyzer.js:92 | `Math.round(w / s)` equals `(2w + s) / (2s)` in integer division |
| Numeric.RoundedAverage | src/utils/aiEngine.js:664-670 | the rounded average of a count over a positive count is `(2t + c) / (2c)` |
| Numeric.RoundTwoFifths | src/utils/feedbackAnalyzer.js:210 | `Math.round(0.4c)` equals `(4c + 5) / 10` |
| Numeric.RoundBlend | src/components/FeedbackPanel.js:21 | `Math.round(0.6c + 0.4a)` equals `(6c + 4a + 5) / 10` |
| Analysis.PerformTextAnalysis | src/utils/aiEngine.js:89-104 | the word count is the number of white-space-separated words and 0 exactly for blank text; the sentence count is the number of non-blank pieces between runs of `.`, `!`, `?`, and 0 exactly for text of white space and those delimiters, with average 0 then; otherwise the average is words over sentences; the filler count is the number of `/g` filler matches in the lower-cased text, positive exactly when a filler phrase occurs; questions count the `?` characters. The component's copy (src/components/ConversationInterface.js:125-139) is the same function |
| Analysis.AverageBetween | src/utils/aiEngine.js:129 | `lo < w/s < hi` holds exactly when `lo·s < w < hi·s` |
| Analysis.AverageWithin | src/utils/feedbackAnalyzer.js:150 | `lo ≤ w/s ≤ hi` holds exactly when `lo·s ≤ w ≤ hi·s` |
| Setting.PersonaOf | src/utils/aiEngine.js:292-316 | a name found in the personality table is that personality's key |
| Setting.PersonaRoundTrip | src/utils/aiEngine.js:292-316 | looking a personality up by its own key finds it |
| Setting.PersonaOr | src/utils/aiEngine.js:315-316 | `table[name] \|\| table.neutral` is the personality named, or neutral for an unknown name |
| Setting.ResponseGroup | src/utils/aiEngine.js:434 | a name in the personality table whose personality has one of the four own groups gets that group; any other name gets neutral |
| Setting.KindOf | src/components/FeedbackPanel.js:68-79 | a branch is selected only by a scenario carrying that branch's key |
| Setting.KindRoundTrip | src/utils/feedbackAnalyzer.js:156 | a scenario carrying a branch's key selects that branch |
| Responder.BuildSystemPrompt | src/utils/aiEngine.js:291-319 | the prompt is the personality's description (neutral's for an unknown name), a space, the scenario sentence ("You are in a <title> scenario. <description>", empty without a scenario), a space and the fixed closing |
| Responder.ScenarioContext | src/utils/aiEngine.js:311-313 | empty exactly without a scenario; with one, "You are in a <title> scenario. <description>" |
| Responder.SystemPromptDefault | src/utils/aiEngine.js:315-316 | an unknown personality gets exactly the neutral prompt |
| Responder.Recent | src/utils/aiEngine.js:325 | `slice(-12)` is the last `min(n, 12)` entries |
| Responder.Turn | src/utils/aiEngine.js:327-331 | a user entry becomes one user message, an ai entry one assistant message, any other sender none |
| Responder.ChatOf | src/utils/aiEngine.js:326-332 | the loop over the history, one message per user or ai entry in order; `Responder.ChatOfAppend` and `Responder.ChatOfShape` characterise it |
| Responder.Messages | src/utils/aiEngine.js:321-339 | the system message, the chat of the last twelve entries and the input when it is not blank; `Responder.MessagesProperties` and `Responder.RecentMessages` characterise it |
| Responder.BuildMessages | src/utils/aiEngine.js:321-339 | the loop builds the system message, the chat of the recent history and the closing user input when it is not blank |
| Responder.ChatOfAppend | src/utils/aiEngine.js:326-332 | the messages of a concatenated history are those of its parts, in order |
| Responder.ChatOfShape | src/utils/aiEngine.js:326-332 | at most one message per entry and none in the system role |
| Responder.MessagesProperties | src/utils/aiEngine.js:321-339 | at most 14 messages; the system message first and only there; a non-blank input last; a blank input adds nothing |
| Responder.RecentMessages | src/utils/aiEngine.js:325 | the history messages sent are the tail of the whole history's messages, and all of them for a history of at most 12 entries |
| Responder.Rank | src/utils/aiEngine.js:354-373 | each topic has one place in the order of the keyword groups; general comes after all six |
| Responder.Keywords | src/utils/aiEngine.js:354-371 | the five keywords of each of the six topics, in the order the checks test them; the general topic has none |
| Responder.HasKeywords | src/utils/aiEngine.js:376-378 | `keywords.some(k => input.includes(k))`: some keyword occurs in the input |
| Responder.FirstKeyed | src/utils/aiEngine.js:354-373 | the group chosen has a keyword in the input and no earlier group has one |
| Responder.Choose | src/utils/aiEngine.js:346-374 | the opening is chosen exactly for the first user message or an empty input; otherwise the first keyword group that matches, in the fixed order, else general |
| Responder.PickResponse | src/utils/aiEngine.js:444-631 | each topic's picker returns one of the two lines of the personality group's options, chosen by the random draw (an even index picks the first, an odd one the second) |
| Responder.OpenerOf | src/utils/aiEngine.js:436-441 | a keyed opening is chosen exactly for the job-interview, networking and conflict keys |
| Responder.OpeningDefaults | src/utils/aiEngine.js:434-441 | an unknown personality opens like the neutral one, and an unkeyed scenario opens with the default line |
| Responder.OpeningResponse | src/utils/aiEngine.js:380-442 | the opening line of the personality's group for the scenario's opener; `Responder.OpeningDefaults` gives the defaults |
| Responder.FallbackResponse | src/utils/aiEngine.js:346-374 | the reply is the opening response when the branch is the opening, and otherwise one of the options of the chosen topic for the personality group |
| Responder.MessageWords | src/utils/aiEngine.js:661 | an empty text counts 0 words, a non-empty blank text 1, any other text its number of words |
| Responder.TrimmedSplitLength | src/utils/aiEngine.js:661 | `trim().split(/\s+/).length` is 1 for blank text and the number of words otherwise |
| Responder.TotalWords | src/utils/aiEngine.js:660-662 | the sum of `trim().split(/\s+/).length` over the messages; `Responder.TotalWordsAppend` and `Responder.TotalWordsAtLeast` characterise it |
| Responder.TotalWordsAppend | src/utils/aiEngine.js:660-662 | the word total of a concatenation is the sum of the totals |
| Responder.TotalWordsAtLeast | src/utils/aiEngine.js:660-662 | every message with a non-empty text adds at least one word |
| Responder.ConversationStats | src/utils/aiEngine.js:658-676 | counts the user messages and their words; the average is rounded half up and 0 without messages; the duration is 0 for an empty history and measured from the first entry otherwise |
| Responder.GenerateRecommendations | src/utils/aiEngine.js:692-712 | the pushes produce exactly the specification list of recommendations |
| Responder.Recommendations | src/utils/aiEngine.js:692-712 | the advice items whose conditions hold, in source order; `Responder.RecommendationsProperties` characterises it |
| Responder.RecommendationsFiltered | src/utils/aiEngine.js:692-712 | after `k` pushes, the list is the filter of the first `k` advice items by their conditions |
| Responder.RecommendationsProperties | src/utils/aiEngine.js:692-712 | each recommendation appears exactly when its condition holds, at most once, in source order; at most five |
| Engine.RawAdjustmentRange | src/utils/aiEngine.js:190-201 | the raw adjustment lies in `[-20, 14]`; more than three fillers cost at least 11 and leave it at most 0 |
| Engine.CuesOf | src/utils/aiEngine.js:140-179 | the confidence and uncertainty counts and the personal, action and organisation cues are positive or true exactly when their phrases occur in the lower-cased input; the `for example`, `such as` and `for instance` flags hold exactly when those phrases are substrings of it |
| Engine.RawAdjustment | src/utils/aiEngine.js:190-201 | the bonuses minus the penalties of one message; bounded by `Engine.RawAdjustmentRange` |
| Engine.NextConfidence | src/utils/aiEngine.js:203-209 | the step capped at ±5, added, then clamped to `[0, 100]`; bounded by `Engine.NextConfidenceBounded` |
| Engine.NextConfidenceBounded | src/utils/aiEngine.js:203-209 | from a score in `[0, 100]` the next one stays in `[0, 100]`, moves by at most 5, and moves in the direction of the raw adjustment |
| Engine.MergedValid | src/utils/aiEngine.js:181-209 | merging a message's tags and taking its confidence step keeps the record valid |
| Engine.Merged | src/utils/aiEngine.js:181-209 | the capped merge of the pushed tags into both lists and the confidence step; `Engine.MergedValid` and `Engine.UpdatedProperties` characterise it |
| Engine.Updated | src/utils/aiEngine.js:73-87 | one non-blank message: its metrics stored, then merged; `Engine.UpdatedProperties` characterises it |
| Engine.UpdatedProperties | src/utils/aiEngine.js:78-209 | one analysed message keeps the record valid, moves the confidence by at most 5, keeps both lists as prefixes, leaves a full list unchanged and stores the message's metrics |
| Engine.NewTagsFromRules | src/utils/aiEngine.js:181-188 | a tag that enters a list was pushed by this message |
| Engine.NewTagsOrdered | src/utils/aiEngine.js:106-179 | one message pushes no tag twice, in source order |
| Engine.NewTagsMembers | src/utils/aiEngine.js:106-179 | a tag is pushed onto the strength list exactly when it is a strength whose condition holds, and likewise for improvement tags |
| Engine.StrengthMembers | src/utils/aiEngine.js:110-179 | a strength is pushed exactly when it is in the strength order and its condition holds |
| Engine.AreaMembers | src/utils/aiEngine.js:110-164 | an improvement tag is pushed exactly when it is in the improvement order and its condition holds |
| Engine.PushesExclusive | src/utils/aiEngine.js:110-164 | length, fillers, sentence length and examples each earn praise or advice, never both; examples are praised exactly when a cue phrase occurs |
| Engine.ConfidenceAdjustment | src/utils/aiEngine.js:191-201 | the step-by-step sum equals the raw adjustment, which lies in `[-20, 14]` |
| Engine.Deliveries | src/utils/aiEngine.js:63-71 | one delivery per callback, in registration order, each with the same snapshot |
| Engine.FeedbackEngine.constructor | src/utils/aiEngine.js:13-44 | the seed record (confidence 85, empty lists, zero metrics), no callbacks, and the model from the environment or the default |
| Engine.FeedbackEngine.OnFeedbackUpdate | src/utils/aiEngine.js:55-57 | appends the callback, duplicates allowed; nothing else changes |
| Engine.FeedbackEngine.RemoveFeedbackCallback | src/utils/aiEngine.js:59-61 | every occurrence goes, the others stay in order and as often; nothing else changes |
| Engine.FeedbackEngine.NotifyFeedbackUpdate | src/utils/aiEngine.js:63-71 | every callback is called once, in order, with the current record, whether or not an earlier one threw |
| Engine.FeedbackEngine.AnalyzeUserInput | src/utils/aiEngine.js:73-87 | blank input changes nothing and notifies nobody; otherwise the record is the updated one and every subscriber receives it |
| Engine.FeedbackEngine.UpdateFeedback | src/utils/aiEngine.js:106-210 | the record becomes the merge of the pushed tags and the capped confidence step, and stays valid |
| Engine.FeedbackEngine.GetCurrentFeedback | src/utils/aiEngine.js:212-214 | returns the current record |
| Engine.FeedbackEngine.ResetFeedback | src/utils/aiEngine.js:216-229 | restores exactly the constructor's seed, then notifies every subscriber with it |
| Engine.FeedbackEngine.UpdateModel | src/utils/aiEngine.js:651-656 | a blank name is ignored; any other is stored trimmed, with no white space at either end |
| Engine.SessionProperties | src/utils/aiEngine.js:181-209 | any sequence of messages keeps the record valid, never changes a full list, and moves the confidence by at most 5 per message |
| Analyzer.ConfidenceMarkersOf | src/utils/feedbackAnalyzer.js:71-80 | the piece count is `split(' ').length`, one more than the number of spaces |
| Analyzer.RawConfidence | src/utils/feedbackAnalyzer.js:67-83 | base 50 plus and minus the fixed adjustments; `Analyzer.RawConfidenceRange` bounds it |
| Analyzer.RawConfidenceRange | src/utils/feedbackAnalyzer.js:67-82 | base 50 plus the adjustments lies in `[5, 105]`, and reaches 5 exactly for the worst combination of markers |
| Analyzer.CalculateConfidence | src/utils/feedbackAnalyzer.js:67-83 | the score is the clamp of base 50 plus the fixed adjustments, and lies in `[5, 100]` |
| Analyzer.AdjustConfidence | src/utils/feedbackAnalyzer.js:68-82 | the step-by-step adjustments equal the clamped formula |
| Analyzer.FillerFreeBonus | src/utils/feedbackAnalyzer.js:73 | a text without the analyzer's fillers earns the no-filler bonus of the confidence score |
| Analyzer.CalculateMetrics | src/utils/feedbackAnalyzer.js:85-97 | the word count is the number of non-empty pieces of `split(' ')`, the sentence count the number of non-blank pieces between runs of `.`, `!`, `?`, the questions and exclamations the counts of `?` and `!`; the average is the quotient rounded half up and 0 without sentences; the filler count is positive exactly when a filler occurs |
| Analyzer.AverageWords | src/utils/feedbackAnalyzer.js:92 | 0 without sentences, else the words per sentence rounded half up |
| Analyzer.MetricsCounts | src/utils/feedbackAnalyzer.js:85-97 | there are never more words than space-separated pieces; no sentences exactly for text of spaces and delimiters |
| Analyzer.CountFillerWords | src/utils/feedbackAnalyzer.js:108-112 | the count is positive exactly when a filler occurs |
| Analyzer.HasFillerWords | src/utils/feedbackAnalyzer.js:99-106 | fillers make up more than five percent of the `split(' ')` pieces; `Analyzer.HasFillerWordsIff` characterises it |
| Analyzer.HasFillerWordsIff | src/utils/feedbackAnalyzer.js:99-106 | the five-percent test holds exactly when there is a filler and twenty times the fillers exceed the unfiltered piece count; it implies a positive filler count |
| Analyzer.OverOneTwentieth | src/utils/feedbackAnalyzer.js:105 | `m / n > 0.05` exactly when `20m > n` |
| Analyzer.IsAssertive | src/utils/feedbackAnalyzer.js:114-122 | an assertive phrase and no tentative one; `Analyzer.HedgedNotAssertive` relates it to the confidence hedges |
| Analyzer.IsSpecific | src/utils/feedbackAnalyzer.js:124-130 | a specific indicator or an example phrase occurs; `Analyzer.SpecificCases` lists the alternatives |
| Analyzer.SpecificCases | src/utils/feedbackAnalyzer.js:124-130 | a text is specific exactly when, in its lower-cased form, one of the fixed indicator phrases, an example phrase, a run of digits, `at <word>` or `last <word>` occurs between word boundaries |
| Analyzer.IsPositive | src/utils/feedbackAnalyzer.js:132-140 | the two `match` lengths compared are 0 or 2 (the whole match and its group), so the comparison is a positive word without a negative one; `Analyzer.IsPositiveIff` proves this |
| Analyzer.HedgedNotAssertive | src/utils/feedbackAnalyzer.js:114-122 | a text with a hedge the confidence score penalises is never assertive |
| Analyzer.IsPositiveIff | src/utils/feedbackAnalyzer.js:132-140 | positive exactly when a positive word occurs and no negative word does |
| Analyzer.IsClearIff | src/utils/feedbackAnalyzer.js:142-151 | clear exactly when there are sentences, 5 to 25 words per sentence and a transition word; never clear without sentences |
| Analyzer.IsClear | src/utils/feedbackAnalyzer.js:142-151 | 5 to 25 words per sentence and a transition word; `Analyzer.IsClearIff` characterises it |
| Analyzer.StrengthsFiltered | src/utils/feedbackAnalyzer.js:12-52 | after `k` strength pushes, the strengths are the filter of the first `k` of the order |
| Analyzer.SuggestionsFiltered | src/utils/feedbackAnalyzer.js:12-52 | the same for the suggestions |
| Analyzer.StrengthMembers | src/utils/feedbackAnalyzer.js:12-52 | a generic strength is present exactly when its check earned it; none twice; in order |
| Analyzer.SuggestionMembers | src/utils/feedbackAnalyzer.js:12-52 | a generic suggestion is present exactly when its check called for it; none twice; in order |
| Analyzer.StrengthCount | src/utils/feedbackAnalyzer.js:12-52 | the number of generic strengths is the number of checks passed |
| Analyzer.SuggestionCount | src/utils/feedbackAnalyzer.js:12-52 | the number of generic suggestions is the number of checks failed |
| Analyzer.GenericCount | src/utils/feedbackAnalyzer.js:12-52 | filler, assertiveness, length, specificity and clarity give one remark each, and positivity at most one more |
| Analyzer.GenericFeedback | src/utils/feedbackAnalyzer.js:12-52 | the pushes produce exactly the specification lists of generic remarks |
| Analyzer.GetScenarioSpecificFeedback | src/utils/feedbackAnalyzer.js:153-207 | the pushes produce exactly the scenario remarks of the key's branch |
| Analyzer.ScenarioShape | src/utils/feedbackAnalyzer.js:153-207 | scenario remarks are never generic ones; at most one strength and two suggestions; none for any other key |
| Analyzer.AccusationFlagged | src/utils/feedbackAnalyzer.js:182-184 | a conflict answer with accusing phrases gets the "I statements" suggestion |
| Analyzer.EmpathyImpliesService | src/utils/feedbackAnalyzer.js:187-193 | a customer-service answer that is not told to show empathy is praised for service language |
| Analyzer.CalculateOverallScore | src/utils/feedbackAnalyzer.js:209-228 | the score is the clamp of the rounded weighted formula with its two bonuses |
| Analyzer.OverallFormula | src/utils/feedbackAnalyzer.js:209-228 | the score before the clamp: two fifths of the confidence rounded, 10 per strength, minus 5 per suggestion, 10 each for 20 to 80 words and for no fillers; `Analyzer.CalculateOverallScore` proves the source's real-valued sum rounds to it |
| Analyzer.AnalyzeResponse | src/utils/feedbackAnalyzer.js:2-65 | confidence and metrics as computed; the generic remarks first and the scenario remarks after them; the overall score from the final lists |
| Analyzer.GenericDecided | src/utils/feedbackAnalyzer.js:54-59 | a generic remark is in the final lists exactly when the generic checks put it there |
| Analyzer.EncouragementLevel | src/utils/feedbackAnalyzer.js:230-240 | the band switches at 80, 60 and 40 |
| Analyzer.EncouragementMonotone | src/utils/feedbackAnalyzer.js:230-240 | a higher score never gets a lower band |
| Analyzer.GenerateEncouragement | src/utils/feedbackAnalyzer.js:230-240 | the message of the score's band; `Analyzer.EncouragementLevel` fixes the bands |
| Interface.CuesOf | src/components/ConversationInterface.js:174-186 | the confidence and uncertainty counts are positive exactly when the phrases occur; the `for example` and `such as` flags hold exactly when those phrases are substrings of the lower-cased input |
| Interface.StrengthsFiltered | src/components/ConversationInterface.js:146-189 | after `k` strength pushes, the strengths are the filter of the first `k` of the order |
| Interface.AreasFiltered | src/components/ConversationInterface.js:146-189 | the same for the improvement items |
| Interface.NewStrengthMembers | src/components/ConversationInterface.js:146-189 | a strength is pushed exactly when its condition holds; none twice; in order |
| Interface.FiredAreaMembers | src/components/ConversationInterface.js:146-189 | an improvement item is pushed by a rule exactly when its condition holds; none twice; in order |
| Interface.NewAreasNeverEmpty | src/components/ConversationInterface.js:191-195 | the improvement items of an input are never empty and never repeat; they are the floor exactly when no rule fired |
| Interface.RawAdjustmentRange | src/components/ConversationInterface.js:205-213 | the adjustment lies in `[-11, 11]` and reaches each end for exactly one combination of conditions |
| Interface.SeedShape | src/components/ConversationInterface.js:220-236 | the seed is valid, with one strength, five improvement items and confidence 65 |
| Interface.MergedProperties | src/components/ConversationInterface.js:197-215 | one update keeps the record valid, keeps both lists as prefixes, leaves a full list unchanged, never empties the improvements, applies the raw adjustment uncapped when it stays in range, and moves the confidence by at most 11 |
| Interface.Merged | src/components/ConversationInterface.js:197-215 | the capped merge of the pushed tags and the clamped confidence step; `Interface.MergedProperties` characterises it |
| Interface.Updated | src/components/ConversationInterface.js:105-215 | a new record with the metrics replaced, then merged; `Interface.SessionProperties` and `Interface.SeedAreasFixed` characterise sequences of it |
| Interface.NewTagsFromRules | src/components/ConversationInterface.js:197-202 | a tag that enters a list was pushed by this input |
| Interface.SessionProperties | src/components/ConversationInterface.js:197-215 | any sequence of inputs keeps the record valid and never changes a full list |
| Interface.SeedAreasFixed | src/components/ConversationInterface.js:198-236 | from the seed, the improvement list never changes |
| Interface.FeedbackObject.constructor | src/components/ConversationInterface.js:110-118 | the fresh object holds the given record |
| Interface.FeedbackObject.UpdateRealtimeFeedback | src/components/ConversationInterface.js:141-216 | the object's fields become the merge of the pushed tags and the confidence step |
| Interface.StrengthSteps | src/components/ConversationInterface.js:146-189 | each strength push, with its tag and the condition the if/else chain gives it |
| Interface.AreaSteps | src/components/ConversationInterface.js:146-189 | each improvement push, with its item and its condition |
| Interface.LengthRule | src/components/ConversationInterface.js:146-152 | 15 words or more earn one strength, 8 to 14 the other, 1 to 4 an improvement item |
| Interface.FillerRule | src/components/ConversationInterface.js:154-160 | no filler in more than five words earns a strength; otherwise more than two fillers, or one or two, give one of two items |
| Interface.SentenceRule | src/components/ConversationInterface.js:162-166 | an average strictly between 8 and 20 earns a strength, above 25 an item |
| Interface.CueRules | src/components/ConversationInterface.js:168-189 | questions, confidence words and examples earn strengths; uncertainty and a long answer without examples give items |
| Interface.NewTags | src/components/ConversationInterface.js:142-195 | the rules in order, then the floor, produce exactly the specification lists |
| Interface.ConfidenceAdjustment | src/components/ConversationInterface.js:205-213 | the step-by-step sum equals the raw adjustment, which lies in `[-11, 11]` |
| Interface.Conversation.constructor | src/components/ConversationInterface.js:218-246 | the seed record and a history holding only the greeting |
| Interface.Conversation.AnalyzeCurrentInput | src/components/ConversationInterface.js:105-123 | blank input changes nothing; otherwise a new record from the old one with its metrics replaced, then updated; the history is unchanged |
| Interface.Conversation.SendMessage | src/components/ConversationInterface.js:276-313 | corrected variant (see Findings): a non-blank input is appended trimmed to the history, and the responder is handed the history as it stood before the message; blank input is ignored; the feedback is untouched |
| Interface.SentHistoryNeverOpens | src/components/ConversationInterface.js:308-313 | as written, the fallback responder never opens the conversation, even for the first user message |
| Interface.SentHistoryRepeatsInput | src/components/ConversationInterface.js:308-313 | as written, the chat sent to the model ends with the user's text twice, trimmed and then as typed |
| Interface.PriorHistoryOpensOnce | src/components/ConversationInterface.js:308-313 | with the history from before the message, the opening is chosen exactly when no user message came earlier |
| Interface.GreetingKnown | src/components/ConversationInterface.js:256-273 | each personality's key selects its greeting |
| Interface.FallbackKnown | src/components/ConversationInterface.js:350-362 | each personality's key selects its fallback line, whatever the input |
| Interface.UnknownNameNeutral | src/components/ConversationInterface.js:256-362 | an unknown name gets the neutral greeting and the neutral fallback line |
| Interface.Greeting | src/components/ConversationInterface.js:256-273 | the greeting of the named personality, neutral's for an unknown name; `Interface.GreetingKnown` and `Interface.UnknownNameNeutral` characterise it |
| Interface.ComponentFallback | src/components/ConversationInterface.js:350-362 | the fallback line of the named personality, whatever the input; `Interface.FallbackKnown` characterises it |
| Interface.Decimal | src/components/ConversationInterface.js:450 | `toString()` of a natural number is a non-empty string of digits |
| Interface.DecimalRoundTrip | src/components/ConversationInterface.js:450 | the digits read back as the number, with no leading zero |
| Interface.ShortDecimal | src/components/ConversationInterface.js:450 | a number below 100 is written with one or two digits |
| Interface.TwoDigits | src/components/ConversationInterface.js:450 | a number below 100, padded, is two digits that read back as it |
| Interface.SessionDurationParts | src/components/ConversationInterface.js:446-451 | the text reads back as the whole minutes, a colon, then the seconds within the minute as exactly two digits |
| Interface.SessionDuration | src/components/ConversationInterface.js:446-451 | minutes, a colon and the seconds padded to two digits; `Interface.SessionDurationParts` reads it back |
| Interface.BandOf | src/components/ConversationInterface.js:453-463 | the band switches at 80 and 60 |
| Interface.BandMonotone | src/components/ConversationInterface.js:453-463 | a higher score never falls in a lower band |
| Interface.ScoreColor | src/components/ConversationInterface.js:453-457 | green exactly from 80, orange exactly from 60 to 79, red exactly below 60 |
| Interface.ConfidenceLevel | src/components/ConversationInterface.js:459-463 | "High" exactly from 80, "Medium" exactly from 60 to 79, "Needs Work" exactly below 60 |
| Interface.ColorMatchesLevel | src/components/ConversationInterface.js:453-463 | the colour and the level name agree, and both switch at 80 and 60 |
| Panel.Blend | src/components/FeedbackPanel.js:17-22 | the blended score lies in `[0, 100]` for any inputs |
| Panel.BlendedScore | src/components/FeedbackPanel.js:17-22 | the displayed score lies in `[0, 100]` and is 0 without feedback |
| Panel.BlendFormula | src/components/FeedbackPanel.js:21 | the blend equals `(6c + 4a + 5) / 10` on the clamped inputs |
| Panel.BlendBetween | src/components/FeedbackPanel.js:18-21 | the blend lies between the two clamped inputs |
| Panel.BlendFallback | src/components/FeedbackPanel.js:18-19 | a missing overall score falls back to the confidence, so the blend is the clamped confidence; with neither it is 0 |
| Panel.BlendMonotone | src/components/FeedbackPanel.js:21 | the blend never decreases when either input grows |
| Panel.BlendExample | src/components/FeedbackPanel.js:21 | confidence 80 and overall score 60 blend to 72 |
| Panel.TipChecksOf | src/components/FeedbackPanel.js:26-37 | without feedback every count is 0 and every phrase test is false |
| Panel.ScenarioTip | src/components/FeedbackPanel.js:68-79 | a scenario tip exists exactly for the job-interview, networking, conflict and public-speaking keys |
| Panel.GivenSuggestions | src/components/FeedbackPanel.js:35 | no feedback gives no suggestions; otherwise entry `i` is the text of the analyzer's suggestion `i`, one per suggestion |
| Panel.PushTextProperties | src/components/FeedbackPanel.js:39-66 | one conditional `add` keeps what was there as a prefix, adds no duplicate, and adds exactly the tip's text when its condition holds |
| Panel.AddGenericTips | src/components/FeedbackPanel.js:39-66 | the eight conditional adds produce exactly the specification set |
| Panel.AddScenarioTip | src/components/FeedbackPanel.js:68-79 | the four key checks produce exactly the set with the scenario's tip added |
| Panel.EnrichedSuggestions | src/components/FeedbackPanel.js:25-82 | the list is the analyzer's suggestions as a set, then the generic tips, then the scenario tip |
| Panel.Enriched | src/components/FeedbackPanel.js:25-82 | the analyzer's suggestions as a set, the due generic tips, then the scenario tip; `Panel.EnrichedKeepsGiven` and `Panel.EnrichedTips` characterise it |
| Panel.EarlyTipsProperties | src/components/FeedbackPanel.js:39-54 | the first four checks keep what was there, add no duplicate, and add exactly the texts of their due tips |
| Panel.LateTipsProperties | src/components/FeedbackPanel.js:55-66 | the same for the last four checks |
| Panel.GenericTipsKeep | src/components/FeedbackPanel.js:39-66 | the generic checks keep what was there as a prefix and add no duplicate |
| Panel.GenericTipsDue | src/components/FeedbackPanel.js:39-66 | the text of every tip whose condition holds is in the set |
| Panel.GenericTipsOnly | src/components/FeedbackPanel.js:39-66 | anything added is the text of a tip whose condition holds |
| Panel.EnrichedKeepsGiven | src/components/FeedbackPanel.js:35-81 | the analyzer's suggestions come first, deduplicated and in order; no entry appears twice; every suggestion is shown |
| Panel.EnrichedTips | src/components/FeedbackPanel.js:35-81 | every due tip and the scenario's tip are shown, and nothing else besides the analyzer's suggestions |
| Panel.DueIsGeneric | src/components/FeedbackPanel.js:39-79 | only the eight generic tips have conditions; the scenario tips are not among them |
| Panel.TierMonotone | src/components/FeedbackPanel.js:97-102 | a higher score never falls in a lower band |
| Panel.ScoreClass | src/components/FeedbackPanel.js:97-102 | each class name is chosen exactly on its band: 90, 70 and 50 |
| Panel.ScoreClassByTier | src/components/FeedbackPanel.js:97-102 | two scores get the same class exactly when they fall in the same band |
| Panel.IconByTier | src/components/FeedbackPanel.js:218 | two scores get the same icon exactly when they fall in the same band |
| Panel.EncouragementIcon | src/components/FeedbackPanel.js:218 | the star exactly from 90, the thumb from 70 to 89, the flexed arm from 50 to 69, the rocket below 50 |
| Panel.EncouragementByTier | src/components/FeedbackPanel.js:243-248 | two scores get the same encouragement exactly when they fall in the same band |
| Panel.Encouragement | src/components/FeedbackPanel.js:243-248 | the text of the score's band, with edges at 90, 70 and 50; `Panel.EncouragementByTier` shows the four texts differ |
| Panel.TopEncouragementDistinct | src/components/FeedbackPanel.js:243-248 | the top band's text differs from the next two bands' |
| Panel.MiddleEncouragementsDistinct | src/components/FeedbackPanel.js:243-248 | the top band's text differs from the lowest band's, and the second from the third |
| Panel.LowEncouragementsDistinct | src/components/FeedbackPanel.js:243-248 | the second and third bands' texts differ from the lowest band's |
| Panel.CtaOf | src/components/FeedbackPanel.js:226-236 | the call to action is the retry exactly below 90 |
| Panel.CtaByTier | src/components/FeedbackPanel.js:226-236 | the next-scenario action is offered exactly in the top band |
| Panel.CtaButton | src/components/FeedbackPanel.js:228-233 | the retry caption exactly for the retry, the next-scenario caption exactly for the next scenario |
| Panel.CtaHint | src/components/FeedbackPanel.js:229-234 | a two-case table of the literal hints of lines 229 and 234, with no contract of its own: the 90+ target for the retry, the level-up hint for the next scenario |
| Panel.ConfidenceColor | src/components/FeedbackPanel.js:90-95 | each colour is chosen exactly on its band: 80, 60 and 40 |

## Left out

- Network and model calls are not modelled, because they are I/O. This covers `callProxyAPI`, the await and fallback wiring of `generateResponse`, `initialize`, and the serverless proxy.
- Speech input and output are not modelled, because they wrap browser APIs.
- React rendering, hooks, effects, keyboard handlers and `setTimeout` deferrals are not modelled. This includes the follow-up question, the panel's `isVisible` early return (`src/components/FeedbackPanel.js:85`) and the metric check marks it renders.
- The interleaving between the engine subscription and the component's own reducer is not modelled. Each state machine is modelled separately.
- The rest of `handleSendMessage` is not modelled: loading flags, session statistics and the AI reply. Only the history it builds and hands on is modelled.
- `Date.now()` is a parameter (`now`), and `Math.random()` is an index parameter of the pickers.
- `exportConversationData`, `generateConversationSummary`, `getStatus`, `isReady` and `debugLog` are not modelled. They are serialisation, record assembly and logging.
- The running-average confidence of the session statistics is not modelled, because it is floating-point averaging.
- Floating point in general is not modelled. Averages, `0.4`, `0.6` and `0.05` are exact reals, so no rounding error of binary floating point is modelled.
- Unicode case folding and the non-ASCII parts of `\w` and `\b` are not modelled. Lower-casing changes ASCII letters only.
- Null or undefined strings and histories are not modelled. The empty string takes the same branch in every guard.
- Lookups of names that are `Object.prototype` keys (such as `constructor`) are not modelled. They are treated as unknown names.
- String lengths are counted in characters, not in UTF-16 code units. This matters for `text.length < 50` in the scenario checks when the text holds astral characters.
- The personality argument of `analyzeResponse` is not modelled, because the function never reads it.
- A negative session duration is not modelled. The clock difference is taken as a natural number.
- The text tests of each rule table are computed into a record first (`Cues`, `Checks`, `ScenarioChecks`, `TipChecks`), and the rules then decide on that record. The regex scanning is modelled in `Text`, and its properties are proved there.
- Panel.EnrichedTips: stated without proving the tip texts pairwise distinct. The "nothing else" direction therefore says that each added entry is the text of some due tip, not of one particular tip. The tip text table is a parameter `text` of the adding functions, and the panel passes `TipText`.
- Panel.TipChecksOf: states only the case without feedback. With feedback, the record is read field by field from the analyzer's metrics and the raw text.

## Findings

| source | as written | input that shows it | evidently intended | confidence | as-written member | corrected member |
|---|---|---|---|---|---|---|
| src/components/ConversationInterface.js:308-313 | the responder is handed `[...messages, userMessage]`, the history with the new user message already appended, and the comment on line 312 shows this is deliberate; the engine counts the new message itself (`filter(...).length + 1`, src/utils/aiEngine.js:348) and appends the input on its own (src/utils/aiEngine.js:334-336) | the first user message of a conversation: the fallback counts it twice, so it never gives the opening line; the model's chat ends with the same user text twice | hand over the history as it stood before the message, which is what the engine's counting and its final push expect | medium, not executed | Interface.SentHistoryNeverOpens | Interface.Conversation.SendMessage, Interface.PriorHistoryOpensOnce |
