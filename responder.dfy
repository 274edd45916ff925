/** The engine's text side: the system prompt and the chat messages it sends
    to the model, the keyword-driven fallback replies it gives when the model
    cannot be reached, the statistics of a conversation and the
    recommendations drawn from them. */
module Responder {
  import opened Setting
  import opened Text
  import opened Collections
  import opened Numeric
  import Engine

  // ---------------------------------------------------------------------
  // System prompt
  // ---------------------------------------------------------------------

  function PersonaPrompt(p: Persona): string {
    match p
    case Tough =>
      "You are a tough, demanding interviewer. Be critical, skeptical, and hard to impress. Ask challenging follow-up questions. Keep responses under 60 words."
    case Friendly =>
      "You are warm, friendly, and encouraging. Show genuine interest and be supportive. Ask engaging questions. Keep responses under 60 words."
    case Neutral =>
      "You are professional and business-focused. Be direct, formal, and stick to relevant topics. Keep responses under 60 words."
    case Skeptical =>
      "You are skeptical and questioning. Challenge what people say and ask for evidence. Be doubtful but not rude. Keep responses under 60 words."
    case Supportive =>
      "You are a supportive mentor. Provide encouragement and helpful suggestions. Be understanding and positive. Keep responses under 60 words."
    case Intimidating =>
      "You are stern and authoritative. Expect high standards and don't accept mediocrity. Be formal and demanding. Keep responses under 60 words."
    case Chatty =>
      "You are talkative and enthusiastic. Ask lots of questions and show great interest. Be energetic and social. Keep responses under 60 words."
    case Empathetic =>
      "You are understanding and emotionally aware. Show empathy and validate feelings. Be compassionate and caring. Keep responses under 60 words."
  }

  const PromptClosing :=
    "Respond naturally and conversationally. Focus on helping the person practice their communication skills."

  /** The scenario sentence; empty without a scenario. */
  function ScenarioContext(scenario: Option<Scenario>): (c: string)
    ensures scenario.None? <==> c == ""
    ensures scenario.Some? ==>
              c == "You are in a " + scenario.value.title + " scenario. " + scenario.value.description
  {
    match scenario
    case None => ""
    case Some(s) => "You are in a " + s.title + " scenario. " + s.description
  }

  /** `buildSystemPrompt`: the personality's description (neutral's for an
      unknown name), the scenario sentence and the fixed closing, joined by
      single spaces, so that without a scenario two spaces separate the
      description from the closing. */
  function BuildSystemPrompt(personality: string, scenario: Option<Scenario>): (r: string)
    ensures PersonaPrompt(PersonaOr(personality)) <= r
    ensures EndsWith(r, PromptClosing)
    ensures scenario.None? ==> r == PersonaPrompt(PersonaOr(personality)) + "  " + PromptClosing
    ensures scenario.Some? ==>
              r == PersonaPrompt(PersonaOr(personality)) + " " + ScenarioContext(scenario) + " " + PromptClosing
  {
    Join(PersonaPrompt(PersonaOr(personality)), ScenarioContext(scenario), PromptClosing)
  }

  function Join(d: string, c: string, t: string): (r: string)
    ensures d <= r
    ensures EndsWith(r, t)
    ensures c == "" ==> r == d + "  " + t
  {
    Joined(d, c, t);
    d + " " + c + " " + t
  }

  predicate EndsWith(r: string, t: string) {
    |t| <= |r| && r[|r| - |t|..] == t
  }

  /** Three parts joined by spaces start with the first and end with the last. */
  lemma Joined(d: string, c: string, t: string)
    ensures d <= d + " " + c + " " + t
    ensures EndsWith(d + " " + c + " " + t, t)
  {
    var r := d + " " + c + " " + t;
    assert r == (d + " " + c + " ") + t;
  }

  /** An unknown personality gets the neutral prompt. */
  lemma SystemPromptDefault(personality: string, scenario: Option<Scenario>)
    requires PersonaOf(personality).None?
    ensures BuildSystemPrompt(personality, scenario) == BuildSystemPrompt("neutral", scenario)
  {
    assert PersonaOr("neutral") == Neutral;
  }

  // ---------------------------------------------------------------------
  // Chat messages
  // ---------------------------------------------------------------------

  datatype Role = SystemRole | UserRole | AssistantRole

  datatype ChatMessage = ChatMessage(role: Role, content: string)

  /** `msg.sender`: `'user'`, `'ai'` or anything else. */
  datatype Sender = UserSender | AiSender | OtherSender

  /** An entry of the conversation history. */
  datatype Entry = Entry(sender: Sender, text: string, timestamp: int)

  const RecentTurns := 12

  /** `history.slice(-12)`: the last twelve entries, or all of a shorter history. */
  function Recent(history: seq<Entry>): (r: seq<Entry>)
    ensures |r| == Min(|history|, RecentTurns)
    ensures r == history[|history| - |r|..]
  {
    if |history| <= RecentTurns then history else history[|history| - RecentTurns..]
  }

  /** The chat message an entry becomes: user and ai entries keep their text
      under the user and assistant roles, other entries are dropped. */
  function Turn(e: Entry): (r: seq<ChatMessage>)
    ensures |r| <= 1
    ensures e.sender == UserSender <==> r == [ChatMessage(UserRole, e.text)]
    ensures e.sender == AiSender <==> r == [ChatMessage(AssistantRole, e.text)]
  {
    match e.sender
    case UserSender => [ChatMessage(UserRole, e.text)]
    case AiSender => [ChatMessage(AssistantRole, e.text)]
    case OtherSender => []
  }

  /** The chat messages of a history, entry by entry in order. */
  function ChatOf(history: seq<Entry>): seq<ChatMessage>
    decreases |history|
  {
    if history == [] then [] else ChatOf(history[..|history| - 1]) + Turn(history[|history| - 1])
  }

  /** The closing user message: the input itself unless it is blank. */
  function FinalTurn(userInput: string): seq<ChatMessage> {
    if IsBlank(userInput) then [] else [ChatMessage(UserRole, userInput)]
  }

  /** The messages `buildMessages` returns. */
  function Messages(systemPrompt: string, userInput: string, history: seq<Entry>): seq<ChatMessage> {
    [ChatMessage(SystemRole, systemPrompt)] + ChatOf(Recent(history)) + FinalTurn(userInput)
  }

  method BuildMessages(systemPrompt: string, userInput: string, history: seq<Entry>)
    returns (messages: seq<ChatMessage>)
    ensures messages == Messages(systemPrompt, userInput, history)
  {
    messages := [ChatMessage(SystemRole, systemPrompt)];
    var recent := Recent(history);
    for i := 0 to |recent|
      invariant messages == [ChatMessage(SystemRole, systemPrompt)] + ChatOf(recent[..i])
    {
      var msg := recent[i];
      ChatOfStep(recent, i);
      AppendAssoc([ChatMessage(SystemRole, systemPrompt)], ChatOf(recent[..i]), Turn(msg));
      if msg.sender == UserSender {
        messages := messages + [ChatMessage(UserRole, msg.text)];
      } else if msg.sender == AiSender {
        messages := messages + [ChatMessage(AssistantRole, msg.text)];
      } else {
        assert Turn(msg) == [];
      }
    }
    assert recent[..|recent|] == recent;
    if !IsBlank(userInput) {
      messages := messages + [ChatMessage(UserRole, userInput)];
    }
  }

  lemma AppendAssoc<T>(a: seq<T>, b: seq<T>, c: seq<T>)
    ensures (a + b) + c == a + (b + c)
  {
  }

  lemma ChatOfStep(h: seq<Entry>, i: nat)
    requires i < |h|
    ensures ChatOf(h[..i + 1]) == ChatOf(h[..i]) + Turn(h[i])
  {
    assert h[..i + 1][..i] == h[..i];
  }

  /** The messages of a concatenation are those of its parts, in order. */
  lemma {:induction false} ChatOfAppend(a: seq<Entry>, b: seq<Entry>)
    ensures ChatOf(a + b) == ChatOf(a) + ChatOf(b)
    decreases |b|
  {
    if b == [] {
      assert a + b == a;
    } else {
      var c := b[..|b| - 1];
      assert (a + b)[..|a + b| - 1] == a + c;
      assert (a + b)[|a + b| - 1] == b[|b| - 1];
      ChatOfAppend(a, c);
    }
  }

  /** At most one message per entry, and none in the system role. */
  lemma {:induction false} ChatOfShape(history: seq<Entry>)
    ensures |ChatOf(history)| <= |history|
    ensures forall k :: 0 <= k < |ChatOf(history)| ==> ChatOf(history)[k].role != SystemRole
    decreases |history|
  {
    if history != [] {
      ChatOfShape(history[..|history| - 1]);
    }
  }

  /** The system message comes first and only there, at most twelve history
      messages follow, and a non-blank input closes the list. */
  lemma MessagesProperties(systemPrompt: string, userInput: string, history: seq<Entry>)
    ensures |Messages(systemPrompt, userInput, history)| <= 2 + RecentTurns
    ensures Messages(systemPrompt, userInput, history)[0] == ChatMessage(SystemRole, systemPrompt)
    ensures forall k :: 1 <= k < |Messages(systemPrompt, userInput, history)| ==>
              Messages(systemPrompt, userInput, history)[k].role != SystemRole
    ensures !IsBlank(userInput) ==>
              Messages(systemPrompt, userInput, history)[|Messages(systemPrompt, userInput, history)| - 1]
              == ChatMessage(UserRole, userInput)
    ensures IsBlank(userInput) ==>
              Messages(systemPrompt, userInput, history)
              == [ChatMessage(SystemRole, systemPrompt)] + ChatOf(Recent(history))
  {
    ChatOfShape(Recent(history));
  }

  /** The history messages sent are the tail of the whole history's
      messages, and all of them for a history of at most twelve entries. */
  lemma RecentMessages(history: seq<Entry>)
    ensures |history| <= RecentTurns ==> ChatOf(Recent(history)) == ChatOf(history)
    ensures ChatOf(history) == ChatOf(history[..|history| - |Recent(history)|]) + ChatOf(Recent(history))
  {
    var recent := Recent(history);
    assert history == history[..|history| - |recent|] + recent;
    ChatOfAppend(history[..|history| - |recent|], recent);
  }

  // ---------------------------------------------------------------------
  // Fallback replies
  // ---------------------------------------------------------------------

  /** What a fallback reply talks about. */
  datatype Topic = Experience | Strength | Weakness | Team | Why | Goal | General

  /** The number of keyword groups. */
  const KeyedCount := 6

  /** The keyword groups, in the order they are tried; `General` after them. */
  function TopicAt(k: nat): Topic {
    if k == 0 then Experience
    else if k == 1 then Strength
    else if k == 2 then Weakness
    else if k == 3 then Team
    else if k == 4 then Why
    else if k == 5 then Goal
    else General
  }

  function Keywords(t: Topic): seq<string> {
    match t
    case Experience => ["experience", "worked", "job", "career", "background"]
    case Strength => ["strength", "good at", "skills", "best", "excel"]
    case Weakness => ["weakness", "improve", "challenge", "difficult", "struggle"]
    case Team => ["team", "people", "colleague", "group", "collaboration"]
    case Why => ["why", "because", "reason", "motivated", "interest"]
    case Goal => ["goal", "future", "plan", "aspiration", "vision"]
    case General => []
  }

  /** The position of a topic among the groups tried; `General` comes after all. */
  function Rank(t: Topic): (n: nat)
    ensures n <= KeyedCount
    ensures n < KeyedCount <==> t != General
    ensures TopicAt(n) == t
  {
    match t
    case Experience => 0
    case Strength => 1
    case Weakness => 2
    case Team => 3
    case Why => 4
    case Goal => 5
    case General => 6
  }

  /** `hasKeywords`: some keyword occurs in the input as a substring. */
  predicate HasKeywords(input: string, keywords: seq<string>) {
    exists k | 0 <= k < |keywords| :: Contains(input, keywords[k])
  }

  /** The first group from `i` on whose keywords occur, or `KeyedCount`. */
  function FirstKeyed(input: string, i: nat): (j: nat)
    requires i <= KeyedCount
    ensures i <= j <= KeyedCount
    ensures j < KeyedCount ==> HasKeywords(input, Keywords(TopicAt(j)))
    ensures forall k :: i <= k < j ==> !HasKeywords(input, Keywords(TopicAt(k)))
    decreases KeyedCount - i
  {
    if i == KeyedCount then i
    else if HasKeywords(input, Keywords(TopicAt(i))) then i
    else FirstKeyed(input, i + 1)
  }

  function IsFromUser(e: Entry): bool {
    e.sender == UserSender
  }

  /** `history.filter(m => m.sender === 'user')`. */
  function UserMessages(history: seq<Entry>): seq<Entry> {
    Filter(history, IsFromUser)
  }

  /** The branch `getFallbackResponse` takes. */
  datatype Choice = OpenConversation | Reply(topic: Topic)

  /** The opening line when the history holds no user message yet or the
      input is empty; otherwise the first keyword group, in the fixed order,
      that occurs in the lower-cased input, and the general reply when none
      does. */
  function Choose(userInput: string, history: seq<Entry>): (c: Choice)
    ensures c == OpenConversation <==> |UserMessages(history)| == 0 || userInput == ""
    ensures c.Reply? && c.topic != General ==> HasKeywords(ToLower(userInput), Keywords(c.topic))
    ensures c.Reply? ==> forall k :: 0 <= k < Rank(c.topic) ==>
                           !HasKeywords(ToLower(userInput), Keywords(TopicAt(k)))
  {
    var input := ToLower(userInput);
    var messageCount := |UserMessages(history)| + 1;
    if messageCount == 1 || userInput == "" then OpenConversation
    else
      Reply(TopicAt(FirstKeyed(input, 0)))
  }

  /** The two lines of a picker's option list. */
  datatype Options = Options(first: string, second: string)

  predicate IsOption(r: string, o: Options) {
    r == o.first || r == o.second
  }

  /** The lines of each `get*Response` picker. */
  function ResponseOptions(t: Topic, p: Persona): Options {
    match t
    case Experience => (
      match p
      case Tough => Options(
        "That’s what everyone says. Give me specific numbers and measurable outcomes.",
        "Experience means nothing without results. What did you actually achieve?")
      case Friendly => Options(
        "That sounds valuable! What was the most rewarding part, and what did you learn?",
        "How exciting! Which skills did you develop, and how will you use them next?")
      case Skeptical => Options(
        "Anyone can claim experience. What proof do you have of performance?",
        "That sounds embellished. What were the measurable outcomes?")
      case Supportive => Options(
        "It sounds like you gained valuable insights from that experience.",
        "You’re clearly dedicated to growth. How did that shape your perspective?")
      case _ => Options(
        "Can you quantify the impact you made in that role?",
        "What were your key responsibilities and how did you measure success?"))
    case Strength => (
      match p
      case Tough => Options(
        "Everyone thinks they have strengths. Prove it with a specific example.",
        "Show me how that strength delivered business value.")
      case Friendly => Options(
        "That’s wonderful! How do you use that strength to help others?",
        "Great! Can you share a specific example of it in action?")
      case Skeptical => Options(
        "Self‑proclaimed strengths can hide weaknesses. Convince me.",
        "I’m skeptical of overconfidence. What’s the evidence?")
      case Supportive => Options(
        "That’s a great strength to have. You should be confident in it!",
        "It’s great that you recognize your strengths. How will you grow them further?")
      case _ => Options(
        "How have you leveraged that strength to achieve goals?",
        "Can you provide a specific example with measurable outcomes?"))
    case Weakness => (
      match p
      case Tough => Options(
        "At least you’re honest. How are you fixing it, and on what timeline?",
        "Weaknesses are liabilities. What’s your concrete plan to improve?")
      case Friendly => Options(
        "Thanks for being honest. How are you working on that area?",
        "It takes courage to acknowledge weaknesses. What’s your plan?")
      case Skeptical => Options(
        "Sounds like a strength in disguise. What’s your real weakness?",
        "I doubt that’s the biggest one. What else should I know?")
      case Supportive => Options(
        "Recognizing weaknesses is the first step to growth.",
        "We all have areas to improve — you’re on the right track.")
      case _ => Options(
        "What specific actions are you taking to address that?",
        "How has it impacted you, and how are you mitigating it?"))
    case Team => (
      match p
      case Tough => Options(
        "Teamwork is expected. What did YOU specifically contribute?",
        "I don’t care about the team’s success — what was your impact?")
      case Friendly => Options(
        "Collaboration is so important! What do you enjoy about team work?",
        "Teams do amazing things. How do you help them succeed?")
      case Skeptical => Options(
        "Team success often hides individual failures. What went wrong?",
        "Easy to claim team results — what was your contribution?")
      case Supportive => Options(
        "Collaboration skills are valuable. Well done!",
        "You clearly understand how to work with others effectively.")
      case _ => Options(
        "What role did you play in that team?",
        "How do you contribute to team success and resolve conflict?"))
    case Why => (
      match p
      case Tough => Options(
        "That’s a weak reason. What’s the deeper motivation?",
        "I’ve heard that before. What’s really driving you?")
      case Friendly => Options(
        "That’s thoughtful! What sparked that interest?",
        "I can hear the passion — how did it start?")
      case Skeptical => Options(
        "Sounds like what you think I want to hear. What’s the truth?",
        "I’m not convinced. Explain the real reason.")
      case Supportive => Options(
        "That shows real reflection. Nice!",
        "You’ve clearly considered this carefully.")
      case _ => Options(
        "What factors led to that decision?",
        "What research informed that perspective?"))
    case Goal => (
      match p
      case Tough => Options(
        "Goals are worthless without execution. What’s your track record?",
        "Everyone has goals. What makes you think you’ll hit yours?")
      case Friendly => Options(
        "That’s exciting! What steps are you taking?",
        "Great aspiration! How can I support you?")
      case Skeptical => Options(
        "Popular goal — what makes your approach different?",
        "I’ve heard that a lot. How will you avoid common pitfalls?")
      case Supportive => Options(
        "Meaningful goal — you should be proud!",
        "You seem determined; what’s the next step?")
      case _ => Options(
        "What’s your timeline and key milestones?",
        "What obstacles do you anticipate and how will you handle them?"))
    case General => (
      match p
      case Tough => Options(
        "Not enough. Give me something more substantial.",
        "I need results, not just effort. What did you accomplish?")
      case Friendly => Options(
        "That’s interesting! Can you share more?",
        "I love your perspective. What else would you add?")
      case Skeptical => Options(
        "Hard to believe — what’s the evidence?",
        "That contradicts the norm. What’s different here?")
      case Supportive => Options(
        "You’re handling this well — thoughtful!",
        "You’ve clearly considered this. Nicely done!")
      case _ => Options(
        "Can you elaborate with concrete examples?",
        "What factors led you to that conclusion?"))
  }

  /** A `get*Response` picker: `options[Math.floor(Math.random() * options.length)]`
      with the random draw given as an index, reduced to the list. */
  function PickResponse(t: Topic, personality: string, index: nat): (r: string)
    ensures index % 2 == 0 ==> r == ResponseOptions(t, ResponseGroup(personality)).first
    ensures index % 2 == 1 ==> r == ResponseOptions(t, ResponseGroup(personality)).second
  {
    var options := ResponseOptions(t, ResponseGroup(personality));
    var list := [options.first, options.second];
    list[index % |list|]
  }

  /** The four opening lines of a personality group. */
  datatype Opener = OpenJob | OpenNetworking | OpenConflict | OpenDefault

  function OpeningText(p: Persona, o: Opener): string {
    match p
    case Tough => (
      match o
      case OpenJob => "Let's cut to the chase. Tell me why you think you're qualified for this position, and don't give me generic answers."
      case OpenNetworking => "I don't have much time. What exactly do you do, and why should I care?"
      case OpenConflict => "We have a serious issue to address. What is your explanation for this situation?"
      case OpenDefault => "I expect direct, honest answers. What do you have to show me that's actually impressive?")
    case Friendly => (
      match o
      case OpenJob => "Welcome! I’m excited to learn about you. How are you feeling about this opportunity, and what drew you here?"
      case OpenNetworking => "Hi there! What a wonderful event. I'd love to hear about your work — what's been exciting you lately?"
      case OpenConflict => "Thanks for sitting down with me. I believe we can work through this together. What’s your perspective?"
      case OpenDefault => "Hello! This is going to be a great conversation. Tell me what’s been on your mind lately!")
    case Skeptical => (
      match o
      case OpenJob => "I've seen many candidates today. What makes you different from everyone else?"
      case OpenNetworking => "Everyone here claims to be successful. What results can you point me to?"
      case OpenConflict => "I'm hearing conflicting stories. Why should I believe your version over others?"
      case OpenDefault => "I'm naturally skeptical of claims. What evidence can you provide to support your position?")
    case Supportive => (
      match o
      case OpenJob => "I want you to feel comfortable sharing your story. What drew you to this role, and how can I help you shine?"
      case OpenNetworking => "You seem like someone with interesting experiences. I’d love to hear your journey — take your time."
      case OpenConflict => "I can see this might be difficult to discuss. Share what happened from your perspective; we’ll work through it."
      case OpenDefault => "I’m here to listen and help. What would you like to share, and how can I support you?")
    case _ => (
      match o
      case OpenJob => "Thank you for coming in. Please walk me through your background and explain your interest in this role."
      case OpenNetworking => "Good to meet you. What line of work are you in, and what brings you to this event?"
      case OpenConflict => "Let’s discuss the situation objectively. What’s your perspective on what happened?"
      case OpenDefault => "Let’s begin. Please share your thoughts on this topic and provide some context.")
  }

  /** The keyed opening a scenario selects: only the three keys the groups
      hold have one of their own. */
  function OpenerOf(scenario: Option<Scenario>): (o: Opener)
    ensures o == OpenJob <==> KindOf(scenario) == JobInterview
    ensures o == OpenNetworking <==> KindOf(scenario) == Networking
    ensures o == OpenConflict <==> KindOf(scenario) == Conflict
  {
    match KindOf(scenario)
    case JobInterview => OpenJob
    case Networking => OpenNetworking
    case Conflict => OpenConflict
    case _ => OpenDefault
  }

  /** `getOpeningResponse`. */
  function OpeningResponse(personality: string, scenario: Option<Scenario>): string {
    OpeningText(ResponseGroup(personality), OpenerOf(scenario))
  }

  /** A personality outside the five groups opens like the neutral one, and
      a scenario outside the three keyed ones opens with the default line. */
  lemma OpeningDefaults(personality: string, scenario: Option<Scenario>)
    ensures ResponseGroup(personality) == Neutral ==>
              OpeningResponse(personality, scenario) == OpeningResponse("neutral", scenario)
    ensures KindOf(scenario) !in {JobInterview, Networking, Conflict} ==>
              OpeningResponse(personality, scenario) == OpeningResponse(personality, None)
  {
    assert ResponseGroup("neutral") == Neutral;
    assert OpenerOf(None) == OpenDefault;
  }

  /** `getFallbackResponse`, with the picker's random draw as `index`. */
  function FallbackResponse(userInput: string, personality: string, scenario: Option<Scenario>,
                            history: seq<Entry>, index: nat): (r: string)
    ensures Choose(userInput, history) == OpenConversation ==> r == OpeningResponse(personality, scenario)
    ensures Choose(userInput, history).Reply? ==>
              IsOption(r, ResponseOptions(Choose(userInput, history).topic, ResponseGroup(personality)))
  {
    match Choose(userInput, history)
    case OpenConversation => OpeningResponse(personality, scenario)
    case Reply(t) => PickResponse(t, personality, index)
  }

  // ---------------------------------------------------------------------
  // Conversation statistics and recommendations
  // ---------------------------------------------------------------------

  datatype Stats = Stats(
    totalMessages: nat,
    totalWords: nat,
    averageWordsPerMessage: int,
    conversationDuration: int)

  /** `msg.text ? msg.text.trim().split(/\s+/).length : 0`: an empty text
      counts 0, any other blank text 1 (the one empty piece), and a text with
      words the number of its words. */
  function MessageWords(text: string): (n: nat)
    ensures text == "" ==> n == 0
    ensures text != "" && IsBlank(text) ==> n == 1
    ensures !IsBlank(text) ==> n == |Words(text)| && n > 0
  {
    TrimmedSplitLength(text);
    if text == "" then 0 else |SplitRuns(Trim(text), IsSpace)|
  }

  lemma TrimmedSplitLength(text: string)
    ensures IsBlank(text) ==> |SplitRuns(Trim(text), IsSpace)| == 1
    ensures !IsBlank(text) ==> |SplitRuns(Trim(text), IsSpace)| == |Words(text)| > 0
  {
    if !IsBlank(text) {
      TrimmedSplitIsWords(text);
      WordsEmptyIffBlank(text);
    }
  }

  /** The `reduce` over the user messages. */
  function TotalWords(messages: seq<Entry>): nat
    decreases |messages|
  {
    if messages == [] then 0 else MessageWords(messages[0].text) + TotalWords(messages[1..])
  }

  /** The sum is taken message by message. */
  lemma {:induction false} TotalWordsAppend(messages: seq<Entry>, more: seq<Entry>)
    ensures TotalWords(messages + more) == TotalWords(messages) + TotalWords(more)
    decreases |messages|
  {
    if messages == [] {
      assert messages + more == more;
    } else {
      assert (messages + more)[0] == messages[0];
      assert (messages + more)[1..] == messages[1..] + more;
      TotalWordsAppend(messages[1..], more);
    }
  }

  /** Every message with a non-empty text adds at least one word. */
  lemma {:induction false} TotalWordsAtLeast(messages: seq<Entry>)
    requires forall k :: 0 <= k < |messages| ==> messages[k].text != ""
    ensures TotalWords(messages) >= |messages|
    decreases |messages|
  {
    if messages != [] {
      assert messages[0].text != "";
      TotalWordsAtLeast(messages[1..]);
    }
  }

  /** `getConversationStats`, with the clock reading `now` for `Date.now()`:
      totals over the user messages, the average rounded half up (0 without
      user messages) and the time since the first entry. */
  function ConversationStats(history: seq<Entry>, now: int): (s: Stats)
    ensures s.totalMessages == |UserMessages(history)|
    ensures s.totalWords == TotalWords(UserMessages(history))
    ensures s.totalMessages == 0 ==> s.totalWords == 0 && s.averageWordsPerMessage == 0
    ensures s.totalMessages > 0 ==>
              s.averageWordsPerMessage == (2 * s.totalWords + s.totalMessages) / (2 * s.totalMessages)
    ensures history == [] ==> s.conversationDuration == 0
    ensures history != [] ==> s.conversationDuration == now - history[0].timestamp
  {
    var users := UserMessages(history);
    var total := TotalWords(users);
    var avg := if |users| > 0 then total as real / |users| as real else 0.0;
    RoundedAverage(total, |users|);
    Stats(
      |users|,
      total,
      Round(avg),
      if |history| > 0 then now - history[0].timestamp else 0)
  }

  datatype Advice = MoreConviction | MoreDetail | FewerFillers | BalanceGrowth | LongerSessions

  function AdviceText(a: Advice): string {
    match a
    case MoreConviction => "Practice expressing your ideas with more confidence and conviction."
    case MoreDetail => "Provide more detailed responses with specific examples."
    case FewerFillers => "Reduce filler words by pausing instead of saying 'um' or 'uh'."
    case BalanceGrowth => "Balance growth: build your strengths while addressing key gaps."
    case LongerSessions => "Aim for longer practice sessions to build flow and comfort."
  }

  /** The order of the pushes in `generateRecommendations`. */
  const AdviceOrder: seq<Advice> := [MoreConviction, MoreDetail, FewerFillers, BalanceGrowth, LongerSessions]

  /** The condition under which each recommendation is pushed. */
  predicate Advises(a: Advice, f: Engine.Feedback, s: Stats) {
    match a
    case MoreConviction => f.confidence < 70
    case MoreDetail => s.averageWordsPerMessage < 10
    case FewerFillers => f.metrics.fillers > 0
    case BalanceGrowth => |f.areasToImprove| > |f.strengths|
    case LongerSessions => s.totalMessages < 5
  }

  function Picked(f: Engine.Feedback, s: Stats): Advice -> bool {
    a => Advises(a, f, s)
  }

  /** The recommendations after the first `k` pushes. */
  function RecommendationsUpTo(f: Engine.Feedback, s: Stats, k: nat): seq<Advice>
    requires k <= |AdviceOrder|
    decreases k
  {
    if k == 0 then []
    else
      RecommendationsUpTo(f, s, k - 1)
      + (if Advises(AdviceOrder[k - 1], f, s) then [AdviceOrder[k - 1]] else [])
  }

  function Recommendations(f: Engine.Feedback, s: Stats): seq<Advice> {
    RecommendationsUpTo(f, s, |AdviceOrder|)
  }

  method GenerateRecommendations(f: Engine.Feedback, s: Stats) returns (recs: seq<Advice>)
    ensures recs == Recommendations(f, s)
  {
    recs := [];
    if f.confidence < 70 {
      recs := recs + [MoreConviction];
    }
    assert recs == RecommendationsUpTo(f, s, 1);
    if s.averageWordsPerMessage < 10 {
      recs := recs + [MoreDetail];
    }
    assert recs == RecommendationsUpTo(f, s, 2);
    if f.metrics.fillers > 0 {
      recs := recs + [FewerFillers];
    }
    assert recs == RecommendationsUpTo(f, s, 3);
    if |f.areasToImprove| > |f.strengths| {
      recs := recs + [BalanceGrowth];
    }
    assert recs == RecommendationsUpTo(f, s, 4);
    if s.totalMessages < 5 {
      recs := recs + [LongerSessions];
    }
  }

  /** The pushes keep the advice of the first `k` conditions that hold, in order. */
  lemma {:induction false} RecommendationsFiltered(f: Engine.Feedback, s: Stats, k: nat)
    requires k <= |AdviceOrder|
    ensures RecommendationsUpTo(f, s, k) == Filter(AdviceOrder[..k], Picked(f, s))
    decreases k
  {
    if k > 0 {
      RecommendationsFiltered(f, s, k - 1);
      FilterPrefixStep(AdviceOrder, k - 1, Picked(f, s));
    }
  }

  /** Each recommendation appears exactly when its condition holds, at most
      once, in the order of the pushes. */
  lemma RecommendationsProperties(f: Engine.Feedback, s: Stats)
    ensures forall a :: a in Recommendations(f, s) <==> Advises(a, f, s)
    ensures NoDup(Recommendations(f, s))
    ensures IsSubsequence(Recommendations(f, s), AdviceOrder)
    ensures |Recommendations(f, s)| <= 5
  {
    assert NoDup(AdviceOrder);
    RecommendationsFiltered(f, s, |AdviceOrder|);
    assert AdviceOrder[..|AdviceOrder|] == AdviceOrder;
    FilterProperties(AdviceOrder, Picked(f, s));
    forall a: Advice
      ensures a in Recommendations(f, s) <==> Advises(a, f, s)
    {
      AdviceCovered(a);
    }
  }

  lemma AdviceCovered(a: Advice)
    ensures a in AdviceOrder
  {
  }
}
