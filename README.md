# Echo voice support agent — a Dafny model of its decision logic

Echo is a voice customer-support assistant. The browser records speech and
streams it to a speech-to-text service, then sends each transcript to a
serverless `chat-response` function. That function classifies the message,
picks a canned reply, records the turn in the database and may escalate the
conversation to a human agent. An analytics dashboard summarises the stored
messages.

This project models the deterministic core of that system and proves what it
promises:

- **`ChatResponse`** (`chat_response.dfy`) models the chat-response function:
  - the analyzer: first-match intent detection over a fixed table, sentiment,
    urgency, the human request and the handoff reason;
  - the reply generator: templates, adjustment for handoff and negative
    sentiment, and the context summary;
  - the handoff predicate;
  - the analytics rows posted per turn;
  - the request handler: the field check, the configuration check, and the
    rows it asks the database to store.

  `AnalyzeMessage` and `GenerateResponse` are methods that keep the source's
  loop with `break` and its in-place adjustment. Each is proved equal to a
  specification function (`Analyze`, `Respond`). The lemmas about intent
  order, sentiment and handoff are stated on those functions.
- **`AnalyticsDashboard`** (`analytics_dashboard.dfy`) models the dashboard's
  derived data:
  - the intent histogram, as a method keeping the source's reduce over an
    accumulator map;
  - the intent-label formatter and the bar scale;
  - the three sentiment buckets and the average-sentiment label;
  - the ten-row live "recent activity" list.
- **`UseVoice`** (`use_voice.dfy`) models the voice hook:
  - the transcript buffer, in a `VoiceSession` class;
  - the connection retry counter, as a step function and a `Connector` class;
  - the error message shown when listening fails;
  - the microphone-availability check.
- **`UseConversation`** (`use_conversation.dfy`) models the conversation
  hook's message log, in a `Conversation` class. `sendMessage` is split at its
  one `await`. The outcome of the remote call is a parameter.
- **`VoiceInterface`** (`voice_interface.dfy`) models the microphone button:
  its state priority, the click target, the disabled flag, the icon, and the
  status and error text.
- **`Text`** (`text.dfy`) and **`Types`** (`types.dfy`) are shared helpers.
  `Text` holds substring and prefix tests, ASCII case mapping and joining.
  `Types` holds the message and reply records.

Regular expressions made of literal alternatives are modelled as keyword
lists. A pattern matches when the lower-cased message contains one of its
keywords. The greeting pattern is anchored at the start, so it matches only
when the message starts with a keyword. Confidence and sentiment are `real`
numbers. Identifiers, clocks, network answers, socket events and browser
errors are parameters.

Some behaviours of the source are proved here as they are:

- The low-confidence clause of the handoff predicate can never fire on
  analyzer output (`HandoffOfAnalysis`).
- A handoff caused by urgency alone is filed under the default reason
  (`DefaultReasonMeansUrgentOnly`).
- A negative farewell offers "Speak to human agent" twice
  (`NegativeFarewellRepeatsHumanOffer`).
- An average sentiment of exactly 0.4 is labelled "Negative", while the
  sentiment chart counts 0.4 as neutral (`AvgLabelAgreesWithBands`).

## Model

| member | source | states |
|---|---|---|
| ChatResponse.Matches | supabase/functions/chat-response/index.ts:107-118 | definition: a pattern matches when the lower-cased message contains one of its keywords; the greeting pattern only at the start |
| ChatResponse.FirstMatchFrom | supabase/functions/chat-response/index.ts:122-128 | definition of the scan over the pattern table from entry k; its lemmas follow |
| ChatResponse.DetectIntent | supabase/functions/chat-response/index.ts:120-128 | definition of the intent loop (`for ... if pattern.test ... break`); `DetectIntentIsFirstMatch` states what it returns |
| ChatResponse.IntentNameInjective | supabase/functions/chat-response/index.ts:107-118 | distinct intents have distinct names, so the stored intent string identifies the intent |
| ChatResponse.DetectIntentIsFirstMatch | supabase/functions/chat-response/index.ts:107-128 | the intent is the first table entry (greeting, help, refund, billing, account, technical, feedback, farewell) whose pattern matches with no earlier entry matching; `general_inquiry` exactly when none matches |
| ChatResponse.FirstMatchFromAt | supabase/functions/chat-response/index.ts:122-128 | scanning from entry k stops at entry j exactly when j matches and no entry in between does |
| ChatResponse.FirstMatchFromNone | supabase/functions/chat-response/index.ts:118-128 | a scan from entry k leaves `general_inquiry` exactly when no later entry matches |
| ChatResponse.FirstMatchFromSkipsEarlier | supabase/functions/chat-response/index.ts:122-128 | a scan from entry k never yields an entry before k |
| ChatResponse.GreetingIsAnchored | supabase/functions/chat-response/index.ts:108 | the intent is greeting exactly when the message starts with a greeting word |
| ChatResponse.SentimentOf | supabase/functions/chat-response/index.ts:131-139 | 0.2 iff a negative word occurs, whatever positive words occur; 0.8 iff no negative but a positive word; 0.5 iff neither |
| ChatResponse.Analyze | supabase/functions/chat-response/index.ts:103-158 | confidence is 0.85 iff an intent was detected and 0.5 iff not; sentiment is 0.2, 0.5 or 0.8; a handoff reason is set iff the user asks for a human or a negative word occurs; the reason is the human-request text iff the user asks for a human |
| ChatResponse.AnalyzeMessage | supabase/functions/chat-response/index.ts:103-158 | the loop with `break` and the reassigned sentiment compute exactly `Analyze(message)`; the history is not consulted |
| ChatResponse.ShouldHandoff | supabase/functions/chat-response/index.ts:225-230 | definition of `shouldHandoff`: a human request, sentiment below 0.3, confidence below 0.4 or urgency; `HandoffOfAnalysis` states what it means on analyzer output |
| ChatResponse.HandoffOfAnalysis | supabase/functions/chat-response/index.ts:225-230 | analyzer confidence is at least 0.4, so handoff happens iff a human is requested, a negative word occurs or an urgent word occurs |
| ChatResponse.HandoffReasonAgreesWithPredicate | supabase/functions/chat-response/index.ts:155-156 | a handoff reason implies a handoff; a handoff without a reason happens exactly when urgency is the only cause |
| ChatResponse.DefaultReasonMeansUrgentOnly | supabase/functions/chat-response/index.ts:66-68 | for a turn that hands off, the stored reason is the default text iff urgency alone triggered it |
| ChatResponse.ContextSummary | supabase/functions/chat-response/index.ts:213-215 | empty history gives "New conversation. User intent: X."; otherwise "User has discussed: " then each entry's intent, or "general" when missing, in order and joined by ", ", then ". Current intent: X." |
| ChatResponse.ContextSummaryGrows | supabase/functions/chat-response/index.ts:213-214 | one more history entry appends ", " and its label to the list of discussed intents and changes nothing else |
| ChatResponse.TemplateFor | supabase/functions/chat-response/index.ts:161-199 | definition of the template table: each intent's reply text and suggestions as written in the source |
| ChatResponse.OnlyFarewellOffersHuman | supabase/functions/chat-response/index.ts:161-199 | among the templates, only the farewell template offers "Speak to human agent" |
| ChatResponse.OtherTemplatesOfferNoHuman | supabase/functions/chat-response/index.ts:161-199 | no template other than farewell lists "Speak to human agent" among its suggestions |
| ChatResponse.NotTheHumanOffer | supabase/functions/chat-response/index.ts:161-199 | no suggestion of a template other than farewell is "Speak to human agent" |
| ChatResponse.Respond | supabase/functions/chat-response/index.ts:201-221 | a human request replaces the content and suggestions with the fixed handoff text and three suggestions; otherwise, below 0.3 sentiment, the content is the apology prefix, the template and the offer suffix, and exactly one "Speak to human agent" is appended to the suggestions; otherwise the intent's template is returned unchanged |
| ChatResponse.GenerateResponse | supabase/functions/chat-response/index.ts:161-222 | the in-place adjustment of the copied template computes exactly `Respond(analysis, history)` |
| ChatResponse.NegativeFarewellRepeatsHumanOffer | supabase/functions/chat-response/index.ts:191-209 | a negative farewell without a human request lists "Speak to human agent" twice, at the end |
| ChatResponse.TurnMetrics | supabase/functions/chat-response/index.ts:58-63 | definition of the four metrics posted per turn, in order: response time, detected intent, confidence and sentiment |
| ChatResponse.AnalyticsRows | supabase/functions/chat-response/index.ts:253-258 | one row per metric, in order, with the session id and metric name; a number is kept with empty metadata; a non-number becomes 0 with the value under "value" in the metadata |
| ChatResponse.AnalyticsRowsRoundTrip | supabase/functions/chat-response/index.ts:253-258 | every metric can be read back from its row, so the mapping loses nothing |
| ChatResponse.HandleTurn | supabase/functions/chat-response/index.ts:14-99 | a missing or empty message or session id fails with "Message and sessionId are required"; missing configuration fails next; otherwise the answer carries the reply, intent, confidence, sentiment, handoff flag and suggestions; the user row carries the analysis; the assistant row is tagged "response" with 1.0 and 0.5; the analytics rows hold the four turn metrics; a handoff row is written iff `shouldHandoff` holds, with the analysis reason or the default |
| AnalyticsDashboard.KeyOf | echo-voice-agent/src/components/AnalyticsDashboard.tsx:49 | definition: a missing or empty intent is counted under "unknown", any other intent under itself |
| AnalyticsDashboard.FirstIndex | echo-voice-agent/src/components/AnalyticsDashboard.tsx:48-52 | the position returned is the first row counted under the key, no earlier row is, and it is the number of rows when no row is |
| AnalyticsDashboard.FirstIndexSnoc | echo-voice-agent/src/components/AnalyticsDashboard.tsx:48-52 | one more row moves no key's first position, and a key not seen before gets the new row's position |
| AnalyticsDashboard.FirstSeenInOrder | echo-voice-agent/src/components/AnalyticsDashboard.tsx:48-52 | a key is in the first-seen list iff it occurs, and the list is ordered by first position |
| AnalyticsDashboard.OccurrencesSnoc | echo-voice-agent/src/components/AnalyticsDashboard.tsx:50 | one more row adds one to its own key's occurrences and leaves every other key's alone |
| AnalyticsDashboard.FirstSeenSnoc | echo-voice-agent/src/components/AnalyticsDashboard.tsx:48-52 | one more row appends its key to the first-seen list iff the key was not there |
| AnalyticsDashboard.CountedSnoc | echo-voice-agent/src/components/AnalyticsDashboard.tsx:49-50 | one reduce step (`acc[intent] = (acc[intent] || 0) + 1`) keeps the accumulator equal to the occurrence counts |
| AnalyticsDashboard.TallySeenKey | echo-voice-agent/src/components/AnalyticsDashboard.tsx:50 | a row with a key already in the accumulator keeps the key list, increments that key, and keeps the whole histogram right |
| AnalyticsDashboard.TallyNewKey | echo-voice-agent/src/components/AnalyticsDashboard.tsx:50 | a row with a new key lists it last with count 1 and keeps the whole histogram right |
| AnalyticsDashboard.ListedNewKey | echo-voice-agent/src/components/AnalyticsDashboard.tsx:50 | a new key appended to the key list keeps it duplicate-free and in first-seen order, and keeps the counts' total equal to the rows |
| AnalyticsDashboard.SumCountsIgnoresOthers | echo-voice-agent/src/components/AnalyticsDashboard.tsx:48-52 | changing the count of a key not yet seen leaves the total of the listed counts unchanged |
| AnalyticsDashboard.SumCountsIncrement | echo-voice-agent/src/components/AnalyticsDashboard.tsx:50 | incrementing a listed key's count raises the total by one |
| AnalyticsDashboard.IntentCounts | echo-voice-agent/src/components/AnalyticsDashboard.tsx:48-52 | a key is counted iff it occurs (an empty intent counts as "unknown"); each count equals the key's occurrences and is at least 1; the keys are listed once each, and a key listed earlier first occurs earlier (`FirstIndex`); the counts add up to the number of rows |
| AnalyticsDashboard.FormatLabel | echo-voice-agent/src/components/AnalyticsDashboard.tsx:54-55 | the label has the key's length, its first character upper-cased and every later underscore replaced by a space, so no underscore remains after the first character |
| AnalyticsDashboard.BarTotalOfIntentBars | echo-voice-agent/src/components/AnalyticsDashboard.tsx:54-57 | the bars' counts add up to the total of the listed keys' counts, so mapping the entries to bars loses no row |
| AnalyticsDashboard.IntentDistribution | echo-voice-agent/src/components/AnalyticsDashboard.tsx:48-58 | the intent chart data: one bar per occurring key, keys distinct and in first-seen order, each bar labelled with the formatted key and carrying its occurrence count (at least 1), and the bar counts adding up to the number of rows |
| AnalyticsDashboard.MaxCount | echo-voice-agent/src/components/AnalyticsDashboard.tsx:111 | the scale is at least 1 and at least every count, and it is either 1 or one of the counts |
| AnalyticsDashboard.BarWidthInUnitRange | echo-voice-agent/src/components/AnalyticsDashboard.tsx:231 | every bar's width ratio `count / maxIntentCount` lies in [0, 1] |
| AnalyticsDashboard.InBand | echo-voice-agent/src/components/AnalyticsDashboard.tsx:70-72 | definition of the three chart buckets: above 0.6, from 0.4 to 0.6 inclusive, below 0.4 |
| AnalyticsDashboard.Tally | echo-voice-agent/src/components/AnalyticsDashboard.tsx:70-72 | a bucket's count (`filter(...).length`) is at most the number of rows |
| AnalyticsDashboard.BandOf | echo-voice-agent/src/components/AnalyticsDashboard.tsx:70-72 | every sentiment lies in exactly one bucket: positive above 0.6, neutral from 0.4 to 0.6 inclusive, negative below 0.4 |
| AnalyticsDashboard.TalliesPartition | echo-voice-agent/src/components/AnalyticsDashboard.tsx:70-72 | the three bucket counts add up to the number of rows |
| AnalyticsDashboard.SentimentData | echo-voice-agent/src/components/AnalyticsDashboard.tsx:70-78 | three slices named Positive, Neutral and Negative, in that order, whose values are the counts of rows above 0.6, from 0.4 to 0.6, and below 0.4, and add up to the number of rows |
| AnalyticsDashboard.AvgSentimentLabel | echo-voice-agent/src/components/AnalyticsDashboard.tsx:188 | definition of the card's label: "Positive" above 0.6, "Neutral" above 0.4, "Negative" otherwise; `AvgLabelAgreesWithBands` relates it to the buckets |
| AnalyticsDashboard.AvgLabelAgreesWithBands | echo-voice-agent/src/components/AnalyticsDashboard.tsx:188 | the average-sentiment label names the average's bucket everywhere except at exactly 0.4 |
| AnalyticsDashboard.PushRecent | echo-voice-agent/src/components/AnalyticsDashboard.tsx:32 | an insert puts the new row first, keeps the previous rows after it in order, and cuts the list to at most ten |
| AnalyticsDashboard.PushOntoPrefix | echo-voice-agent/src/components/AnalyticsDashboard.tsx:32 | an insert into a prefix of a list is a prefix of that list with the new row in front |
| AnalyticsDashboard.PushAllNewestFirst | echo-voice-agent/src/components/AnalyticsDashboard.tsx:32-91 | after any run of inserts onto the fetched list, the list is the inserts newest first followed by the fetched rows, cut to ten |
| UseVoice.ListeningError | echo-voice-agent/src/hooks/useVoice.ts:366-387 | definition of the message chosen for a failure, in the order of the source's checks |
| UseVoice.ListeningErrorIsShown | echo-voice-agent/src/hooks/useVoice.ts:366-387 | every failure message is non-empty, so the interface's error paragraph shows it |
| UseVoice.ListeningErrorMessage | echo-voice-agent/src/hooks/useVoice.ts:366-387 | the catch block's reassignments compute exactly `ListeningError`: a non-Error keeps "Failed to access microphone"; for an Error the first applicable message is chosen: insecure context, NotFoundError, NotAllowedError, NotReadableError, a message containing "Permissions policy", else "Voice recognition error: " followed by the message |
| UseVoice.AudioInputs | echo-voice-agent/src/hooks/useVoice.ts:232 | the number of audio inputs is zero iff no device is an audio input |
| UseVoice.CheckMicrophone | echo-voice-agent/src/hooks/useVoice.ts:221-242 | available iff getUserMedia exists, the context is secure, the enumeration succeeds and an audio input exists; each failure gives its own fixed message in the order of the checks (no getUserMedia, insecure context, enumeration failure, no audio input), and success says "Microphone detected." |
| UseVoice.Next | echo-voice-agent/src/hooks/useVoice.ts:59-169 | definition of the retry step: what each report does to the counter and which action follows; its lemmas follow |
| UseVoice.NextCountsRetries | echo-voice-agent/src/hooks/useVoice.ts:56-163 | each report retries at most once; the counter grows by one exactly on a retry and never passes 3; a delayed retry waits 1000 ms per retry made so far; only the timeout retries without delay |
| UseVoice.RetriesExhausted | echo-voice-agent/src/hooks/useVoice.ts:72-160 | with 3 retries spent the error, missing-URL, timeout and socket-error reports reject and nothing retries; a close with code 1000 never retries |
| UseVoice.RunRetriesBounded | echo-voice-agent/src/hooks/useVoice.ts:54-177 | over any sequence of reports from a fresh start, the counter equals the number of retries made and at most 3 retries happen |
| UseVoice.Connector.Handle | echo-voice-agent/src/hooks/useVoice.ts:59-169 | handling one report updates the counter and picks the action as the step function says; the counter stays within 3 and grows by at most one |
| UseVoice.Kept | echo-voice-agent/src/hooks/useVoice.ts:134 | definition: a transcript is kept iff it is final and not blank after trimming |
| UseVoice.JoinOfNonBlankIsEmptyOnlyWhenNoParts | echo-voice-agent/src/hooks/useVoice.ts:134-135 | kept transcripts are never blank, so the buffer is empty exactly when nothing was kept |
| UseVoice.VoiceSession.OnTranscript | echo-voice-agent/src/hooks/useVoice.ts:130-136 | only a final, non-blank transcript is appended, after one space when the buffer is non-empty; the buffer is always the kept transcripts joined by single spaces |
| UseVoice.VoiceSession.StartListening | echo-voice-agent/src/hooks/useVoice.ts:244-387 | the callback is installed and the buffer emptied first; success sets listening and clears the error; a failure leaves listening as it was and sets the error to `ListeningError` of what was thrown |
| UseVoice.VoiceSession.OnAudioFrame | echo-voice-agent/src/hooks/useVoice.ts:325-342 | a frame is sent only while the socket is open |
| UseVoice.VoiceSession.StopListening | echo-voice-agent/src/hooks/useVoice.ts:391-420 | the buffer goes to the callback iff it is non-empty and a callback is set, and then it is the kept transcripts joined by spaces; listening stops; the buffer itself is not cleared |
| UseConversation.ReplyMessage | echo-voice-agent/src/hooks/useConversation.ts:44-52 | the assistant message carries the reply's content, intent, confidence and sentiment |
| UseConversation.ApologyMessage | echo-voice-agent/src/hooks/useConversation.ts:63-68 | the failure message is the fixed apology from the assistant, without intent, confidence or sentiment |
| UseConversation.Conversation.constructor | echo-voice-agent/src/hooks/useConversation.ts:5-8 | the log starts empty, not loading and without an error |
| UseConversation.Conversation.BeginSend | echo-voice-agent/src/hooks/useConversation.ts:10-31 | loading goes on, the error is cleared, the user message is appended, and the request carries the log as it was before that append |
| UseConversation.Conversation.FinishSend | echo-voice-agent/src/hooks/useConversation.ts:33-72 | exactly one assistant message is appended and loading goes off; a reply is recorded and returned; a function error or missing data appends the apology, sets the error and returns nothing |
| UseConversation.Conversation.SendMessage | echo-voice-agent/src/hooks/useConversation.ts:10-73 | the log grows by the user message and then one assistant message, with the earlier messages unchanged; loading ends off; the assistant message is the reply's message iff the call answered with data, and the apology otherwise; the reply returned is the call's data; without one the error is the function's error text or "No response from AI" |
| UseConversation.Conversation.ClearMessages | echo-voice-agent/src/hooks/useConversation.ts:75-78 | the log is emptied and the error cleared; loading is untouched |
| VoiceInterface.GetButtonState | echo-voice-agent/src/components/VoiceInterface.tsx:13-18 | processing wins over listening, which wins over speaking; the state is idle iff no flag is set |
| VoiceInterface.OnClick | echo-voice-agent/src/components/VoiceInterface.tsx:50 | a click stops iff listening or speaking, and otherwise starts the microphone |
| VoiceInterface.Disabled | echo-voice-agent/src/components/VoiceInterface.tsx:51 | definition: the button is disabled exactly while processing |
| VoiceInterface.EnabledClickFollowsButtonState | echo-voice-agent/src/components/VoiceInterface.tsx:50-51 | when the button is enabled (not processing), a click stops exactly when the state shows listening or speaking and starts exactly when it shows idle |
| VoiceInterface.ButtonStyle | echo-voice-agent/src/components/VoiceInterface.tsx:22-27 | definition of the style classes per button state |
| VoiceInterface.ButtonIcon | echo-voice-agent/src/components/VoiceInterface.tsx:57-63 | the spinner shows iff the state is processing, the crossed-out microphone iff it is listening or speaking, the microphone iff it is idle |
| VoiceInterface.StatusText | echo-voice-agent/src/components/VoiceInterface.tsx:29-34 | definition of the status line per button state |
| VoiceInterface.StatusTextDistinguishesStates | echo-voice-agent/src/components/VoiceInterface.tsx:29-34 | the status lookup is total and gives every state its own text |
| VoiceInterface.ShownError | echo-voice-agent/src/components/VoiceInterface.tsx:72-76 | the error paragraph shows the error iff it is set and not the empty string |

## Left out

- Network and storage I/O are not modelled. This covers the REST writes, the Supabase client calls, CORS and HTTP response building in the chat-response function. `HandleTurn` returns the rows it would write instead.
- Write failures are not modelled. A write answered with a non-ok status is only logged by `storeMessage`, `storeAnalytics` and `createHandoff`. A write whose request itself rejects propagates to the handler's catch, which answers 500 with `CHAT_RESPONSE_FAILED`. `HandleTurn` assumes every write's request settles.
- Request-body parsing is not modelled: a body that is not JSON fails with the parser's own message. Only the missing-field and missing-configuration failures are modelled.
- Case folding covers ASCII letters only: `Lower` and `UpperChar` map A-Z and a-z. Unicode case mapping in `toLowerCase` and `toUpperCase` is not modelled.
- `AnalyticsDashboard.IntentCounts` does not model JavaScript objects. Intent keys are map keys, so inherited prototype names such as "constructor" are not modelled. The key order is first-seen order. `Object.entries` would put integer-like keys first.
- The dashboard's queries, loading and error screens, and the donut geometry are not modelled. Their results are inputs, and the geometry is floating-point rendering.
- `AnalyticsDashboard.PushAllNewestFirst` requires the starting list to hold at most ten rows. This is what the fetch with `.limit(10)` gives.
- In `UseVoice`, audio capture, the recorder, and the float-to-16-bit sample conversion are not modelled. `OnAudioFrame` keeps only the rule that frames are sent while the socket is open.
- The permission probe (`checkPermissions`) and the stored audio recording are left out. They only log or decide which browser prompt appears.
- Timers and waits are not modelled: the ten-second timeout, the one-second waits and the readiness polling. Each socket or function report is an event given to `Next`. The model does not limit which reports can follow each other. In the source, one socket failure can trigger both an error retry and a close retry. Each of those counts as one retry, as modelled.
- `speak`, the browser speech fallback with its voice selection, `stopSpeaking` and `setProcessing` are left out. They drive the speech-synthesis APIs and only set the speaking and processing flags.
- `UseConversation.Conversation.BeginSend` sends the log current when `sendMessage` starts. In the source, a stale closure over `messages` could send an older log.
- Message ids and timestamps are parameters, not generated values.
- The button's animation and voice-activity bars are not modelled, since they are rendering only.
- The duplicate voice hooks, the WebSocket URL and speech functions, the analytics hook and the page components are not part of this model. They repeat logic modelled here, relay credentials, or only render.
