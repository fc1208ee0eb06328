/** The scripted assistant "Echo": the opening message chosen from the
    analysis results, the keyword rule table that picks a canned reply, and
    the message list the chat window keeps. Canned texts are represented by
    which text was chosen, not by their wording. */
module Chat {
  import opened Wrappers
  import opened Text
  import opened Health

  /** The opening messages; those that quote the confidence carry it. */
  datatype Opening =
    | Greeting                              // "Hey there! I'm Echo, your friendly ..."
    | GreatNews(confidence: Confidence)     // normal, high confidence
    | ModerateConfidence(confidence: Confidence)
    | WarningNotice(confidence: Confidence)
    | BuddyIntro                            // "Hi! I'm Echo, your Sonara health buddy! ..."

  const ConfidenceThreshold: real := 85.0

  /** `getInitialAIMessage`. Health is lower-cased first, so it is compared
      without regard to case; a missing health or a confidence that is not a
      number falls through to the buddy introduction. */
  function InitialMessage(results: Option<AnalysisResults>): Opening {
    match results
    case None => Greeting
    case Some(r) =>
      var health := match r.overallHealth case Some(h) => Some(ToLower(h)) case None => None;
      if health == Some("normal") && AtLeast(r.confidence, ConfidenceThreshold) then GreatNews(r.confidence)
      else if health == Some("normal") && Below(r.confidence, ConfidenceThreshold) then ModerateConfidence(r.confidence)
      else if health == Some("warning") then WarningNotice(r.confidence)
      else BuddyIntro
  }

  /** Without results the chat opens with the generic greeting. */
  lemma GreetingWithoutResults()
    ensures InitialMessage(None) == Greeting
    ensures forall r: AnalysisResults :: InitialMessage(Some(r)) != Greeting
  {
  }

  /** The threshold: a numeric confidence of 85 or more gives the great-news
      opening for a normal result, anything lower the moderate one, whatever
      the case of "normal". */
  lemma NormalOpeningThreshold(health: string, v: real, anomalies: seq<string>, recs: Option<seq<string>>)
    requires ToLower(health) == "normal"
    ensures var o := InitialMessage(Some(AnalysisResults(Some(health), Percent(v), anomalies, recs)));
            (v >= 85.0 ==> o == GreatNews(Percent(v))) && (v < 85.0 ==> o == ModerateConfidence(Percent(v)))
  {
  }

  /** A warning selects the warning opening whatever the confidence. */
  lemma WarningOpening(health: string, c: Confidence, anomalies: seq<string>, recs: Option<seq<string>>)
    requires ToLower(health) == "warning"
    ensures InitialMessage(Some(AnalysisResults(Some(health), c, anomalies, recs))) == WarningNotice(c)
  {
  }

  /** Every other result gets the buddy introduction: a health that is
      neither normal nor warning (such as "abnormal"), a missing health, or a
      normal health whose confidence is not a number. */
  lemma FallbackOpening(r: AnalysisResults)
    requires r.overallHealth.None?
          || (ToLower(r.overallHealth.value) != "normal" && ToLower(r.overallHealth.value) != "warning")
          || (ToLower(r.overallHealth.value) == "normal" && r.confidence.NotANumber?)
    ensures InitialMessage(Some(r)) == BuddyIntro
  {
  }

  /** The canned replies of `generateAIResponse`. */
  datatype Reply =
    | Introduction        // who Echo is
    | EmergencyGuidance   // no emergency indicated, when to seek help
    | DoctorAdvice        // when to see a doctor, what to bring
    | HealthyTips         // normal results are encouraging
    | Reassurance         // health anxiety
    | AccuracyNote        // how reliable the screening is
    | Menu                // the default list of topics

  /** `generateAIResponse`. The input is lower-cased and tested against the
      keyword groups in a fixed order; the results argument is never read. */
  function GenerateReply(userInput: string, results: Option<AnalysisResults>): Reply {
    var input := ToLower(userInput);
    if Contains(input, "echo") || Contains(input, "who are you") || Contains(input, "what are you") then Introduction
    else if Contains(input, "urgent") || Contains(input, "emergency") || Contains(input, "serious") then EmergencyGuidance
    else if Contains(input, "doctor") || Contains(input, "medical") || Contains(input, "physician") then DoctorAdvice
    else if Contains(input, "normal") || Contains(input, "good") || Contains(input, "healthy") then HealthyTips
    else if Contains(input, "worry") || Contains(input, "scared") || Contains(input, "anxious") then Reassurance
    else if Contains(input, "accuracy") || Contains(input, "reliable") || Contains(input, "trust") then AccuracyNote
    else Menu
  }

  /** One row of the reply table: any of the keywords selects the reply. */
  datatype Rule = Rule(keywords: seq<string>, reply: Reply)

  /** The reply table, in priority order. */
  const Rules: seq<Rule> := [
    Rule(["echo", "who are you", "what are you"], Introduction),
    Rule(["urgent", "emergency", "serious"], EmergencyGuidance),
    Rule(["doctor", "medical", "physician"], DoctorAdvice),
    Rule(["normal", "good", "healthy"], HealthyTips),
    Rule(["worry", "scared", "anxious"], Reassurance),
    Rule(["accuracy", "reliable", "trust"], AccuracyNote)
  ]

  predicate RuleMatches(rule: Rule, input: string) {
    exists k | k in rule.keywords :: Contains(input, k)
  }

  /** First-match-wins over a rule table, with `Menu` when nothing matches. */
  function FirstMatch(rules: seq<Rule>, input: string): Reply {
    if rules == [] then Menu
    else if RuleMatches(rules[0], input) then rules[0].reply
    else FirstMatch(rules[1..], input)
  }

  /** Rule `k` matches and no earlier rule does. */
  predicate LowestMatch(rules: seq<Rule>, input: string, k: int) {
    0 <= k < |rules| && RuleMatches(rules[k], input)
    && forall j :: 0 <= j < k ==> !RuleMatches(rules[j], input)
  }

  predicate NoRuleMatches(rules: seq<Rule>, input: string) {
    forall j :: 0 <= j < |rules| ==> !RuleMatches(rules[j], input)
  }

  /** First match wins: the reply is that of the lowest-numbered matching
      rule, or `Menu` when no rule matches. */
  lemma {:induction false} FirstMatchIsLowest(rules: seq<Rule>, input: string)
    ensures (NoRuleMatches(rules, input) && FirstMatch(rules, input) == Menu)
         || (exists k :: LowestMatch(rules, input, k) && FirstMatch(rules, input) == rules[k].reply)
  {
    if rules != [] {
      if RuleMatches(rules[0], input) {
        assert LowestMatch(rules, input, 0);
      } else {
        var tail := rules[1..];
        FirstMatchIsLowest(tail, input);
        if NoRuleMatches(tail, input) && FirstMatch(tail, input) == Menu {
          forall j | 0 <= j < |rules| ensures !RuleMatches(rules[j], input) {
            if j > 0 { assert rules[j] == tail[j - 1]; }
          }
        } else {
          var k :| LowestMatch(tail, input, k) && FirstMatch(tail, input) == tail[k].reply;
          forall j | 0 <= j < k + 1 ensures !RuleMatches(rules[j], input) {
            if j > 0 { assert rules[j] == tail[j - 1]; }
          }
          assert rules[k + 1] == tail[k];
          assert LowestMatch(rules, input, k + 1);
        }
      }
    }
  }

  lemma RuleOfThree(a: string, b: string, c: string, reply: Reply, input: string)
    ensures RuleMatches(Rule([a, b, c], reply), input) <==> Contains(input, a) || Contains(input, b) || Contains(input, c)
  {
    var keywords := [a, b, c];
    if Contains(input, a) { assert a in keywords; }
    if Contains(input, b) { assert b in keywords; }
    if Contains(input, c) { assert c in keywords; }
  }

  /** `generateAIResponse` is first-match-wins over the reply table applied
      to the lower-cased input. */
  lemma ReplyFollowsRules(userInput: string, results: Option<AnalysisResults>)
    ensures GenerateReply(userInput, results) == FirstMatch(Rules, ToLower(userInput))
  {
    var input := ToLower(userInput);
    RuleOfThree("echo", "who are you", "what are you", Introduction, input);
    RuleOfThree("urgent", "emergency", "serious", EmergencyGuidance, input);
    RuleOfThree("doctor", "medical", "physician", DoctorAdvice, input);
    RuleOfThree("normal", "good", "healthy", HealthyTips, input);
    RuleOfThree("worry", "scared", "anxious", Reassurance, input);
    RuleOfThree("accuracy", "reliable", "trust", AccuracyNote, input);
    RulesUnfold(input);
  }

  /** The reply table read as a chain of tests, rule by rule. */
  lemma RulesUnfold(input: string)
    ensures FirstMatch(Rules, input) ==
      if RuleMatches(Rules[0], input) then Introduction
      else if RuleMatches(Rules[1], input) then EmergencyGuidance
      else if RuleMatches(Rules[2], input) then DoctorAdvice
      else if RuleMatches(Rules[3], input) then HealthyTips
      else if RuleMatches(Rules[4], input) then Reassurance
      else if RuleMatches(Rules[5], input) then AccuracyNote
      else Menu
  {
    var r1, r2, r3, r4, r5 := Rules[1..], Rules[2..], Rules[3..], Rules[4..], Rules[5..];
    assert r1[1..] == r2 && r2[1..] == r3 && r3[1..] == r4 && r4[1..] == r5 && r5[1..] == [];
    assert FirstMatch(r5, input) == if RuleMatches(r5[0], input) then AccuracyNote else Menu;
    assert FirstMatch(r4, input) == if RuleMatches(r4[0], input) then Reassurance else FirstMatch(r5, input);
    assert FirstMatch(r3, input) == if RuleMatches(r3[0], input) then HealthyTips else FirstMatch(r4, input);
    assert FirstMatch(r2, input) == if RuleMatches(r2[0], input) then DoctorAdvice else FirstMatch(r3, input);
    assert FirstMatch(r1, input) == if RuleMatches(r1[0], input) then EmergencyGuidance else FirstMatch(r2, input);
  }

  /** Matching ignores case, and the results passed in make no difference. */
  lemma ReplyIgnoresCaseAndResults(userInput: string, r1: Option<AnalysisResults>, r2: Option<AnalysisResults>)
    ensures GenerateReply(userInput, r1) == GenerateReply(ToUpper(userInput), r2)
    ensures GenerateReply(userInput, r1) == GenerateReply(ToLower(userInput), r2)
  {
    ToLowerIdempotent(userInput);
  }

  /** Precedence on an input that names two topics: the identity question
      comes before the emergency keywords. */
  lemma IdentityBeatsEmergency()
    ensures GenerateReply("Echo, is this SERIOUS?", None) == Introduction
  {
    var input := ToLower("Echo, is this SERIOUS?");
    assert OccursAt(input, 0, "echo");
  }

  /** A chat message; the sender is the variant. Ids and timestamps are not
      modelled. */
  datatype Message = UserText(content: string) | AiOpening(opening: Opening) | AiReply(reply: Reply)

  /** The chat window's state. */
  class ChatWindow {
    var messages: seq<Message>
    var inputValue: string
    var isTyping: bool
    /** The `analysisResults` prop. */
    var analysisResults: Option<AnalysisResults>

    constructor (analysisResults: Option<AnalysisResults>)
      ensures messages == [] && inputValue == "" && !isTyping
      ensures this.analysisResults == analysisResults
    {
      messages, inputValue, isTyping := [], "", false;
      this.analysisResults := analysisResults;
    }

    /** The seeding effect: an opening message, only when there are results
        and the list is still empty. */
    method SeedOpening()
      modifies this`messages
      ensures messages == if analysisResults.Some? && old(messages) == []
                          then [AiOpening(InitialMessage(analysisResults))]
                          else old(messages)
    {
      if analysisResults.Some? && |messages| == 0 {
        messages := [AiOpening(InitialMessage(analysisResults))];
      }
    }

    /** Typing into the input box. */
    method TypeInput(text: string)
      modifies this`inputValue
      ensures inputValue == text
    {
      inputValue := text;
    }

    /** `handleSendMessage` up to its timer: white-space-only input changes
        nothing; otherwise the untrimmed input is appended as one user
        message, the box is cleared and the typing indicator shown. The
        returned text is what the pending reply will answer. */
    method SendMessage() returns (sent: Option<string>)
      modifies this`messages, this`inputValue, this`isTyping
      ensures Trim(old(inputValue)) == [] ==>
                sent == None && messages == old(messages) && inputValue == old(inputValue) && isTyping == old(isTyping)
      ensures Trim(old(inputValue)) != [] ==>
                sent == Some(old(inputValue)) && messages == old(messages) + [UserText(old(inputValue))]
                && inputValue == "" && isTyping
    {
      if Trim(inputValue) == [] {
        return None;
      }
      sent := Some(inputValue);
      messages := messages + [UserText(inputValue)];
      inputValue := "";
      isTyping := true;
    }

    /** The timer callback of `handleSendMessage`: the reply to the sent text
        goes after whatever the list holds by then. */
    method DeliverReply(sent: string)
      modifies this`messages, this`isTyping
      ensures messages == old(messages) + [AiReply(GenerateReply(sent, analysisResults))]
      ensures !isTyping
    {
      messages := messages + [AiReply(GenerateReply(sent, analysisResults))];
      isTyping := false;
    }
  }

  /** A complete exchange: a non-blank question is answered right after it. */
  method Exchange(chat: ChatWindow, question: string)
    requires Trim(question) != []
    modifies chat
    ensures chat.messages == old(chat.messages) + [UserText(question), AiReply(GenerateReply(question, chat.analysisResults))]
    ensures chat.inputValue == "" && !chat.isTyping
  {
    chat.TypeInput(question);
    var sent := chat.SendMessage();
    chat.DeliverReply(sent.value);
  }
}
