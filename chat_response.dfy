/** The rule-based turn classifier of the chat-response edge function
    (supabase/functions/chat-response/index.ts): message analysis, reply
    selection, the handoff predicate, the analytics rows and the request
    handler's decisions. The HTTP exchange and the database writes are not
    modelled; the handler returns the rows it would write. */
module ChatResponse {
  import opened Text
  import opened Types

  datatype Intent =
    | Greeting | Help | Refund | Billing | Account
    | Technical | Feedback | Farewell | GeneralInquiry

  function IntentName(i: Intent): string {
    match i
    case Greeting => "greeting"
    case Help => "help"
    case Refund => "refund"
    case Billing => "billing"
    case Account => "account"
    case Technical => "technical"
    case Feedback => "feedback"
    case Farewell => "farewell"
    case GeneralInquiry => "general_inquiry"
  }

  /** Distinct intents have distinct names, so the name the client and the
      analytics rows see identifies the intent. */
  lemma IntentNameInjective(i: Intent, j: Intent)
    requires IntentName(i) == IntentName(j)
    ensures i == j
  {
  }

  // ---------------------------------------------------------------------
  // The keyword tables. Every pattern but the greeting one is an unanchored
  // alternation of lower-case literals, tested against the lower-cased
  // message; the greeting pattern is anchored at the start.

  const GreetingWords: seq<string> := ["hi", "hello", "hey", "good morning", "good afternoon"]
  const HelpWords: seq<string> := ["help", "support", "assist", "need", "problem", "issue"]
  const RefundWords: seq<string> := ["refund", "money back", "return", "reimburse"]
  const BillingWords: seq<string> := ["bill", "invoice", "charge", "payment", "cost", "price"]
  const AccountWords: seq<string> := ["account", "login", "password", "access", "profile"]
  const TechnicalWords: seq<string> := ["not working", "broken", "error", "bug", "crash", "fix"]
  const FeedbackWords: seq<string> := ["feedback", "complaint", "suggestion", "review"]
  const FarewellWords: seq<string> := ["bye", "goodbye", "thanks", "thank you", "that's all"]

  const PositiveWords: seq<string> :=
    ["great", "good", "thanks", "thank", "excellent", "happy", "love", "appreciate"]
  const NegativeWords: seq<string> :=
    ["bad", "terrible", "awful", "hate", "angry", "frustrated", "disappointed", "poor", "worst"]
  const UrgentWords: seq<string> := ["urgent", "immediately", "asap", "emergency", "critical", "now"]
  const HumanWords: seq<string> := ["speak to", "talk to", "human", "agent", "person", "representative"]

  /** The intent table in the order the analyzer tries it. */
  const IntentOrder: seq<Intent> :=
    [Greeting, Help, Refund, Billing, Account, Technical, Feedback, Farewell]

  function Keywords(i: Intent): seq<string> {
    match i
    case Greeting => GreetingWords
    case Help => HelpWords
    case Refund => RefundWords
    case Billing => BillingWords
    case Account => AccountWords
    case Technical => TechnicalWords
    case Feedback => FeedbackWords
    case Farewell => FarewellWords
    case GeneralInquiry => []
  }

  /** `intents[i].test(lower)` */
  predicate Matches(i: Intent, lower: string) {
    if i == Greeting then StartsWithAny(lower, Keywords(i)) else ContainsAny(lower, Keywords(i))
  }

  /** The first intent of the table, from position `k` on, whose pattern
      matches; `GeneralInquiry` when none does. */
  function FirstMatchFrom(lower: string, k: nat): Intent
    requires k <= |IntentOrder|
    decreases |IntentOrder| - k
  {
    if k == |IntentOrder| then GeneralInquiry
    else if Matches(IntentOrder[k], lower) then IntentOrder[k]
    else FirstMatchFrom(lower, k + 1)
  }

  function DetectIntent(lower: string): Intent {
    FirstMatchFrom(lower, 0)
  }

  lemma {:induction false} FirstMatchFromNone(lower: string, k: nat)
    requires k <= |IntentOrder|
    ensures FirstMatchFrom(lower, k) == GeneralInquiry
            <==> forall j | k <= j < |IntentOrder| :: !Matches(IntentOrder[j], lower)
    decreases |IntentOrder| - k
  {
    if k < |IntentOrder| {
      FirstMatchFromNone(lower, k + 1);
    }
  }

  /** The search from position `k` never answers an entry before `k`. */
  lemma {:induction false} FirstMatchFromSkipsEarlier(lower: string, k: nat)
    requires k <= |IntentOrder|
    ensures FirstMatchFrom(lower, k) !in IntentOrder[..k]
    decreases |IntentOrder| - k
  {
    if k < |IntentOrder| && !Matches(IntentOrder[k], lower) {
      FirstMatchFromSkipsEarlier(lower, k + 1);
      assert IntentOrder[..k] <= IntentOrder[..k + 1];
    }
  }

  lemma {:induction false} FirstMatchFromAt(lower: string, k: nat, j: nat)
    requires k <= j < |IntentOrder|
    ensures FirstMatchFrom(lower, k) == IntentOrder[j]
            <==> Matches(IntentOrder[j], lower)
                 && forall i | k <= i < j :: !Matches(IntentOrder[i], lower)
    decreases |IntentOrder| - k
  {
    FirstMatchFromSkipsEarlier(lower, k + 1);
    if k < j {
      assert IntentOrder[k] != IntentOrder[j];
      FirstMatchFromAt(lower, k + 1, j);
      if Matches(IntentOrder[k], lower) {
        assert FirstMatchFrom(lower, k) == IntentOrder[k];
      } else {
        assert FirstMatchFrom(lower, k) == FirstMatchFrom(lower, k + 1);
        assert (forall i | k <= i < j :: !Matches(IntentOrder[i], lower))
               <==> (forall i | k + 1 <= i < j :: !Matches(IntentOrder[i], lower));
      }
    }
  }

  /** Intent selection is first-match-wins over the table order: the detected
      intent is the table entry whose pattern matches with no earlier entry
      matching, and `GeneralInquiry` exactly when no pattern matches. */
  lemma DetectIntentIsFirstMatch(lower: string)
    ensures DetectIntent(lower) == GeneralInquiry
            <==> forall j | 0 <= j < |IntentOrder| :: !Matches(IntentOrder[j], lower)
    ensures forall j | 0 <= j < |IntentOrder| ::
              DetectIntent(lower) == IntentOrder[j]
              <==> Matches(IntentOrder[j], lower)
                   && forall i | 0 <= i < j :: !Matches(IntentOrder[i], lower)
  {
    FirstMatchFromNone(lower, 0);
    forall j | 0 <= j < |IntentOrder|
      ensures DetectIntent(lower) == IntentOrder[j]
              <==> Matches(IntentOrder[j], lower)
                   && forall i | 0 <= i < j :: !Matches(IntentOrder[i], lower)
    {
      FirstMatchFromAt(lower, 0, j);
    }
  }

  /** The greeting pattern is anchored: a message is a greeting exactly when
      it starts with one of the greeting words; a greeting word later in the
      message does not make it one. */
  lemma GreetingIsAnchored(lower: string)
    ensures DetectIntent(lower) == Greeting <==> StartsWithAny(lower, GreetingWords)
  {
  }

  // ---------------------------------------------------------------------
  // Analysis.

  const HumanReason := "User requested human agent"
  const NegativeReason := "Negative sentiment detected"

  datatype Analysis = Analysis(
    intent: Intent,
    confidence: real,
    sentiment: real,
    isUrgent: bool,
    requestsHuman: bool,
    handoffReason: Option<string>)

  /** Sentiment: a negative word wins over any positive word. */
  function SentimentOf(lower: string): (s: real)
    ensures s == 0.2 <==> ContainsAny(lower, NegativeWords)
    ensures s == 0.8 <==> !ContainsAny(lower, NegativeWords) && ContainsAny(lower, PositiveWords)
    ensures s == 0.5 <==> !ContainsAny(lower, NegativeWords) && !ContainsAny(lower, PositiveWords)
  {
    if ContainsAny(lower, NegativeWords) then 0.2
    else if ContainsAny(lower, PositiveWords) then 0.8
    else 0.5
  }

  /** What `analyzeMessage` returns for `message`. */
  function Analyze(message: string): (a: Analysis)
    ensures a.confidence == 0.85 <==> a.intent != GeneralInquiry
    ensures a.confidence == 0.5 <==> a.intent == GeneralInquiry
    ensures a.sentiment == 0.2 || a.sentiment == 0.5 || a.sentiment == 0.8
    ensures a.handoffReason.Some? <==> a.requestsHuman || ContainsAny(Lower(message), NegativeWords)
    ensures a.handoffReason == Some(HumanReason) <==> a.requestsHuman
  {
    var lower := Lower(message);
    var intent := DetectIntent(lower);
    var sentiment := SentimentOf(lower);
    var requestsHuman := ContainsAny(lower, HumanWords);
    Analysis(
      intent,
      if intent == GeneralInquiry then 0.5 else 0.85,
      sentiment,
      ContainsAny(lower, UrgentWords),
      requestsHuman,
      if requestsHuman then Some(HumanReason)
      else if sentiment < 0.3 then Some(NegativeReason)
      else None)
  }

  /** `analyzeMessage(message, history)`: the history is accepted and not
      consulted. The intent loop leaves at the first matching entry. */
  method AnalyzeMessage(message: string, history: seq<Message>) returns (a: Analysis)
    ensures a == Analyze(message)
  {
    var lower := Lower(message);
    var detectedIntent := GeneralInquiry;
    var confidence := 0.5;
    for k := 0 to |IntentOrder|
      invariant FirstMatchFrom(lower, k) == DetectIntent(lower)
      invariant detectedIntent == GeneralInquiry && confidence == 0.5
    {
      if Matches(IntentOrder[k], lower) {
        detectedIntent := IntentOrder[k];
        confidence := 0.85;
        break;
      }
    }
    var sentiment := 0.5;
    if ContainsAny(lower, NegativeWords) {
      sentiment := 0.2;
    } else if ContainsAny(lower, PositiveWords) {
      sentiment := 0.8;
    }
    var isUrgent := ContainsAny(lower, UrgentWords);
    var requestsHuman := ContainsAny(lower, HumanWords);
    var reason := if requestsHuman then Some(HumanReason)
                  else if sentiment < 0.3 then Some(NegativeReason)
                  else None;
    a := Analysis(detectedIntent, confidence, sentiment, isUrgent, requestsHuman, reason);
  }

  // ---------------------------------------------------------------------
  // The handoff predicate.

  /** `shouldHandoff(analysis)` */
  predicate ShouldHandoff(a: Analysis) {
    a.requestsHuman || a.sentiment < 0.3 || a.confidence < 0.4 || a.isUrgent
  }

  /** On analyzer output the low-confidence clause never fires (confidence
      is 0.5 or 0.85), so handoff happens exactly on a human request, a
      negative word or an urgent word. */
  lemma HandoffOfAnalysis(message: string)
    ensures Analyze(message).confidence >= 0.4
    ensures ShouldHandoff(Analyze(message))
            <==> Analyze(message).requestsHuman
                 || ContainsAny(Lower(message), NegativeWords)
                 || Analyze(message).isUrgent
  {
  }

  /** A handoff reason is set only when a handoff happens; a handoff without
      a reason is one caused by urgency alone, which never sets a reason. */
  lemma HandoffReasonAgreesWithPredicate(message: string)
    ensures Analyze(message).handoffReason.Some? ==> ShouldHandoff(Analyze(message))
    ensures ShouldHandoff(Analyze(message)) && Analyze(message).handoffReason.None?
            <==> Analyze(message).isUrgent && Analyze(message).handoffReason.None?
  {
  }

  // ---------------------------------------------------------------------
  // Reply selection.

  datatype Template = Template(content: string, suggestions: seq<string>)

  datatype Reply = Reply(content: string, suggestions: seq<string>, contextSummary: string)

  /** The canned reply of each intent, as the source's reply table lists it. */
  function TemplateFor(i: Intent): Template {
    Template(TemplateText(i), TemplateSuggestions(i))
  }

  function TemplateText(i: Intent): string {
    match i
    case Greeting =>
      "Hello! I'm Echo, your AI customer support assistant. How can I help you today?"
    case Help =>
      "I'm here to help! I can assist with account issues, billing questions, technical problems, and general inquiries. What would you like help with?"
    case Refund =>
      "I understand you're inquiring about a refund. To help you best, I'll need some information. Could you please provide your order number or describe the issue you're experiencing?"
    case Billing =>
      "I can help with billing questions. What specific billing issue are you experiencing? This could include invoices, payment methods, charges, or subscription details."
    case Account =>
      "I can assist with account-related issues. Are you having trouble logging in, need to update your profile, or have questions about account settings?"
    case Technical =>
      "I'm sorry you're experiencing technical difficulties. Can you describe the problem in more detail? What were you trying to do when the issue occurred?"
    case Feedback =>
      "Thank you for sharing your feedback! Your input is valuable to us. Please tell me more about your experience so I can make sure your feedback reaches the right team."
    case Farewell =>
      "You're welcome! Is there anything else I can help you with today? If not, have a great day!"
    case GeneralInquiry =>
      "I'm here to help! Could you please provide more details about what you need assistance with? I can help with accounts, billing, technical issues, and general questions about our services."
  }

  function TemplateSuggestions(i: Intent): seq<string> {
    match i
    case Greeting => ["Account issues", "Billing questions", "Technical support", "General inquiry"]
    case Help => ["Account access", "Billing inquiry", "Technical issue", "Product information"]
    case Refund => ["Provide order number", "Describe the issue", "Speak to billing specialist"]
    case Billing => ["View invoice", "Update payment method", "Question about charges", "Cancel subscription"]
    case Account => ["Reset password", "Update email", "Account settings", "Delete account"]
    case Technical => ["Describe the problem", "Provide error message", "Connect with tech support"]
    case Feedback => ["Share positive feedback", "Report an issue", "Suggest improvement"]
    case Farewell => ["Ask another question", "No, I'm all set", "Speak to human agent"]
    case GeneralInquiry => ["Account help", "Billing question", "Technical support", "Product info"]
  }

  lemma OnlyFarewellOffersHuman(i: Intent)
    ensures SpeakToHuman in TemplateFor(i).suggestions <==> i == Farewell
  {
    if i == Farewell {
      assert TemplateSuggestions(Farewell)[2] == SpeakToHuman;
    } else {
      OtherTemplatesOfferNoHuman(i);
    }
  }

  lemma OtherTemplatesOfferNoHuman(i: Intent)
    requires i != Farewell
    ensures SpeakToHuman !in TemplateSuggestions(i)
  {
    var s := TemplateSuggestions(i);
    forall k | 0 <= k < |s|
      ensures s[k] != SpeakToHuman
    {
      NotTheHumanOffer(i, k);
    }
    NotInWhenNoEntryEquals(s, SpeakToHuman);
  }

  lemma NotInWhenNoEntryEquals(s: seq<string>, x: string)
    requires forall k | 0 <= k < |s| :: s[k] != x
    ensures x !in s
  {
  }

  /** A suggestion of another template differs from the offer in its length
      or its first letter. */
  lemma NotTheHumanOffer(i: Intent, k: nat)
    requires i != Farewell && k < |TemplateSuggestions(i)|
    ensures |TemplateSuggestions(i)[k]| != |SpeakToHuman|
            || TemplateSuggestions(i)[k][0] != SpeakToHuman[0]
  {
    var s := TemplateSuggestions(i);
    assert |SpeakToHuman| == 20 && SpeakToHuman[0] == 'S';
    match i
    case Greeting =>
    case Help =>
    case Refund =>
    case Billing =>
    case Account =>
    case Technical =>
    case Feedback =>
    case GeneralInquiry =>
  }

  const HandoffContent :=
    "I understand you'd like to speak with a human agent. I'm connecting you now with one of our customer support specialists who can provide personalized assistance. They'll have access to our conversation history."
  const HandoffSuggestions: seq<string> := ["Wait for agent", "Continue with AI", "Leave a message"]
  const ApologyPrefix :=
    "I sense you may be frustrated, and I sincerely apologize for any inconvenience. "
  const OfferSuffix :=
    " If you'd prefer, I can connect you with a human agent for more personalized support."
  const SpeakToHuman := "Speak to human agent"

  /** The label a history entry contributes to the summary: its intent, or
      "general" when the intent is absent or empty (both are falsy). */
  function HistoryLabel(m: Message): string {
    if m.intent.Some? && m.intent.value != "" then m.intent.value else "general"
  }

  function HistoryLabels(history: seq<Message>): seq<string> {
    seq(|history|, i requires 0 <= i < |history| => HistoryLabel(history[i]))
  }

  const NewConversationPrefix := "New conversation. User intent: "
  const DiscussedPrefix := "User has discussed: "
  const CurrentIntentInfix := ". Current intent: "

  /** The context summary stored with a handoff. */
  function ContextSummary(history: seq<Message>, intent: Intent): (s: string)
    ensures history == [] ==> s == NewConversationPrefix + IntentName(intent) + "."
    ensures history != [] ==> StartsWith(s, DiscussedPrefix)
    ensures history != [] ==>
              s[|DiscussedPrefix|..] == Join(HistoryLabels(history), ", ")
                                        + CurrentIntentInfix + IntentName(intent) + "."
  {
    if |history| > 0 then
      DiscussedPrefix + Join(HistoryLabels(history), ", ") + CurrentIntentInfix + IntentName(intent) + "."
    else
      NewConversationPrefix + IntentName(intent) + "."
  }

  /** One more turn of history adds its label, after a comma, at the end of
      the list of discussed intents; the earlier labels stay as they were. */
  lemma ContextSummaryGrows(history: seq<Message>, m: Message, intent: Intent)
    requires history != []
    ensures ContextSummary(history + [m], intent)
            == DiscussedPrefix + Join(HistoryLabels(history), ", ") + ", " + HistoryLabel(m)
               + CurrentIntentInfix + IntentName(intent) + "."
  {
    assert HistoryLabels(history + [m]) == HistoryLabels(history) + [HistoryLabel(m)];
    JoinSnoc(HistoryLabels(history), HistoryLabel(m), ", ");
  }

  /** What `generateResponse` returns. */
  function Respond(a: Analysis, history: seq<Message>): (r: Reply)
    ensures r.contextSummary == ContextSummary(history, a.intent)
    ensures a.requestsHuman ==> r.content == HandoffContent && r.suggestions == HandoffSuggestions
    ensures !a.requestsHuman && a.sentiment < 0.3 ==>
              && r.content == ApologyPrefix + TemplateFor(a.intent).content + OfferSuffix
              && r.suggestions == TemplateFor(a.intent).suggestions + [SpeakToHuman]
    ensures !a.requestsHuman && a.sentiment >= 0.3 ==>
              r.content == TemplateFor(a.intent).content
              && r.suggestions == TemplateFor(a.intent).suggestions
  {
    var t := TemplateFor(a.intent);
    var summary := ContextSummary(history, a.intent);
    if a.requestsHuman then Reply(HandoffContent, HandoffSuggestions, summary)
    else if a.sentiment < 0.3 then
      Reply(ApologyPrefix + t.content + OfferSuffix, t.suggestions + [SpeakToHuman], summary)
    else Reply(t.content, t.suggestions, summary)
  }

  /** `generateResponse(analysis, message, history)`: the template is copied
      and then adjusted in place; the message is accepted and not consulted. */
  method GenerateResponse(a: Analysis, message: string, history: seq<Message>) returns (r: Reply)
    ensures r == Respond(a, history)
  {
    var t := TemplateFor(a.intent);
    var content := t.content;
    var suggestions := t.suggestions;
    if a.requestsHuman {
      content := HandoffContent;
      suggestions := HandoffSuggestions;
    } else if a.sentiment < 0.3 {
      content := ApologyPrefix + content + OfferSuffix;
      suggestions := suggestions + [SpeakToHuman];
    }
    var contextSummary := if |history| > 0
      then DiscussedPrefix + Join(HistoryLabels(history), ", ") + CurrentIntentInfix + IntentName(a.intent) + "."
      else NewConversationPrefix + IntentName(a.intent) + ".";
    r := Reply(content, suggestions, contextSummary);
  }

  /** The farewell template already offers a human agent, so a negative
      farewell that does not ask for a human lists that suggestion twice. */
  lemma NegativeFarewellRepeatsHumanOffer(a: Analysis, history: seq<Message>)
    requires a.intent == Farewell && !a.requestsHuman && a.sentiment < 0.3
    ensures var s := Respond(a, history).suggestions;
            |s| == 4 && s[2] == SpeakToHuman && s[3] == SpeakToHuman
  {
  }

  // ---------------------------------------------------------------------
  // Analytics rows.

  datatype MetricValue = Number(n: real) | Label(text: string)

  datatype AnalyticsRow = AnalyticsRow(
    sessionId: string,
    metricName: string,
    metricValue: real,
    metadata: map<string, string>)

  function MetricRow(sessionId: string, name: string, value: MetricValue): AnalyticsRow {
    match value
    case Number(n) => AnalyticsRow(sessionId, name, n, map[])
    case Label(t) => AnalyticsRow(sessionId, name, 0.0, map["value" := t])
  }

  /** The rows `storeAnalytics` posts: one per metric, in order. A number is
      kept with empty metadata; anything else is stored as 0 with the value in
      the metadata. */
  function AnalyticsRows(sessionId: string, metrics: seq<(string, MetricValue)>): (rows: seq<AnalyticsRow>)
    ensures |rows| == |metrics|
    ensures forall i :: 0 <= i < |rows| ==>
              && rows[i].sessionId == sessionId
              && rows[i].metricName == metrics[i].0
              && (metrics[i].1.Number? ==> rows[i].metricValue == metrics[i].1.n && rows[i].metadata == map[])
              && (metrics[i].1.Label? ==> rows[i].metricValue == 0.0 && "value" in rows[i].metadata
                                          && rows[i].metadata["value"] == metrics[i].1.text)
  {
    seq(|metrics|, i requires 0 <= i < |metrics| => MetricRow(sessionId, metrics[i].0, metrics[i].1))
  }

  /** Reading a metric back from its row. */
  function RowMetric(row: AnalyticsRow): (string, MetricValue) {
    if "value" in row.metadata then (row.metricName, Label(row.metadata["value"]))
    else (row.metricName, Number(row.metricValue))
  }

  /** No metric is lost or altered: every metric can be read back from its
      row, in order. */
  lemma AnalyticsRowsRoundTrip(sessionId: string, metrics: seq<(string, MetricValue)>)
    ensures var rows := AnalyticsRows(sessionId, metrics);
            seq(|rows|, i requires 0 <= i < |rows| => RowMetric(rows[i])) == metrics
  {
    var rows := AnalyticsRows(sessionId, metrics);
    var back := seq(|rows|, i requires 0 <= i < |rows| => RowMetric(rows[i]));
    forall i | 0 <= i < |metrics|
      ensures back[i] == metrics[i]
    {
      assert rows[i] == MetricRow(sessionId, metrics[i].0, metrics[i].1);
    }
  }

  /** The metrics recorded for one turn, in the order the handler lists
      them. `now` is the wall-clock time in milliseconds. */
  function TurnMetrics(now: int, a: Analysis): seq<(string, MetricValue)> {
    [ ("response_time", Number(now as real)),
      ("intent_detected", Label(IntentName(a.intent))),
      ("confidence_score", Number(a.confidence)),
      ("sentiment_score", Number(a.sentiment)) ]
  }

  // ---------------------------------------------------------------------
  // The request handler.

  datatype TurnRequest = TurnRequest(
    message: Option<string>,
    sessionId: Option<string>,
    conversationHistory: Option<seq<Message>>)

  datatype MessageRow = MessageRow(
    sessionId: string,
    role: Role,
    content: string,
    intent: string,
    confidence: real,
    sentiment: real)

  datatype HandoffRow = HandoffRow(
    sessionId: string,
    reason: string,
    contextSummary: string,
    sentimentScore: real)

  /** What one successful turn answers and what it asks the database to
      store. */
  datatype Turn = Turn(
    data: ChatReply,
    userRow: MessageRow,
    assistantRow: MessageRow,
    analytics: seq<AnalyticsRow>,
    handoff: Option<HandoffRow>)

  datatype TurnResult = Answered(turn: Turn) | Failed(code: string, message: string)

  const FailureCode := "CHAT_RESPONSE_FAILED"
  const MissingFields := "Message and sessionId are required"
  const MissingConfig := "Supabase configuration missing"
  const DefaultHandoffReason := "Low confidence or negative sentiment"

  /** A request field is truthy: present and not the empty string. */
  predicate Given(s: Option<string>) {
    s.Some? && s.value != ""
  }

  /** One POST to the chat-response function. `configured` says whether the
      database URL and key are in the environment; `now` is `Date.now()`. */
  method HandleTurn(req: TurnRequest, configured: bool, now: int) returns (res: TurnResult)
    ensures !Given(req.message) || !Given(req.sessionId) ==> res == Failed(FailureCode, MissingFields)
    ensures Given(req.message) && Given(req.sessionId) && !configured ==>
              res == Failed(FailureCode, MissingConfig)
    ensures Given(req.message) && Given(req.sessionId) && configured ==>
              var message, sid := req.message.value, req.sessionId.value;
              var history := req.conversationHistory.GetOr([]);
              var a := Analyze(message);
              var reply := Respond(a, history);
              && res.Answered?
              && res.turn.data == ChatReply(reply.content, IntentName(a.intent), a.confidence,
                                            a.sentiment, ShouldHandoff(a), reply.suggestions)
              && res.turn.userRow == MessageRow(sid, User, message, IntentName(a.intent), a.confidence, a.sentiment)
              && res.turn.assistantRow == MessageRow(sid, Assistant, reply.content, "response", 1.0, 0.5)
              && res.turn.analytics == AnalyticsRows(sid, TurnMetrics(now, a))
              && (res.turn.handoff.Some? <==> ShouldHandoff(a))
              && (res.turn.handoff.Some? ==>
                    res.turn.handoff.value
                    == HandoffRow(sid, a.handoffReason.GetOr(DefaultHandoffReason), reply.contextSummary, a.sentiment))
  {
    if !Given(req.message) || !Given(req.sessionId) {
      return Failed(FailureCode, MissingFields);
    }
    if !configured {
      return Failed(FailureCode, MissingConfig);
    }
    var message, sid := req.message.value, req.sessionId.value;
    var history := req.conversationHistory.GetOr([]);
    var analysis := AnalyzeMessage(message, history);
    var aiResponse := GenerateResponse(analysis, message, history);
    var handoffNeeded := ShouldHandoff(analysis);
    var userRow := MessageRow(sid, User, message, IntentName(analysis.intent), analysis.confidence, analysis.sentiment);
    var assistantRow := MessageRow(sid, Assistant, aiResponse.content, "response", 1.0, 0.5);
    var analytics := AnalyticsRows(sid, TurnMetrics(now, analysis));
    var handoff := None;
    if handoffNeeded {
      handoff := Some(HandoffRow(sid, analysis.handoffReason.GetOr(DefaultHandoffReason),
                                 aiResponse.contextSummary, analysis.sentiment));
    }
    var data := ChatReply(aiResponse.content, IntentName(analysis.intent), analysis.confidence,
                          analysis.sentiment, handoffNeeded, aiResponse.suggestions);
    res := Answered(Turn(data, userRow, assistantRow, analytics, handoff));
  }

  /** The stored handoff reason names the firing clause except for urgency:
      a handoff filed under the default reason is one that only urgency
      triggered. */
  lemma DefaultReasonMeansUrgentOnly(message: string)
    requires ShouldHandoff(Analyze(message))
    ensures Analyze(message).handoffReason.GetOr(DefaultHandoffReason) == DefaultHandoffReason
            <==> Analyze(message).isUrgent
                 && !Analyze(message).requestsHuman
                 && !ContainsAny(Lower(message), NegativeWords)
  {
  }
}
