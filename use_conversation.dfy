/** The conversation log kept by the chat hook
    (echo-voice-agent/src/hooks/useConversation.ts). `sendMessage` is split
    at its one `await`: `BeginSend` runs up to the call of the chat-response
    function and returns the request it makes, `FinishSend` runs once the
    call has answered, with the answer as a parameter. Message identifiers
    and timestamps are parameters too. */
module UseConversation {
  import opened Text
  import opened Types

  const ApologyText :=
    "I apologize, but I encountered an error. Please try again or contact support if the problem persists."
  const NoResponseText := "No response from AI"

  /** The body posted to the chat-response function. */
  datatype ChatRequest = ChatRequest(message: string, sessionId: string, conversationHistory: seq<Message>)

  /** How the call to the chat-response function came back. */
  datatype InvokeOutcome =
    | FunctionError(message: string)  // the call reported an error
    | Answer(data: Option<ChatReply>) // the call answered, with or without `data`

  /** The assistant message that records a reply. */
  function ReplyMessage(reply: ChatReply, id: string, now: int): (m: Message)
    ensures m.role == Assistant && m.content == reply.response
    ensures m.intent == Some(reply.intent) && m.confidence == Some(reply.confidence)
            && m.sentiment == Some(reply.sentiment)
  {
    Message(id, Assistant, reply.response, Some(reply.intent), Some(reply.confidence), Some(reply.sentiment), now)
  }

  /** The assistant message shown when a send fails. */
  function ApologyMessage(id: string, now: int): (m: Message)
    ensures m.role == Assistant && m.content == ApologyText
    ensures m.intent.None? && m.confidence.None? && m.sentiment.None?
  {
    Message(id, Assistant, ApologyText, None, None, None, now)
  }

  /** The error a failed send reports. */
  function FailureText(outcome: InvokeOutcome): string
    requires !(outcome.Answer? && outcome.data.Some?)
  {
    if outcome.FunctionError? then outcome.message else NoResponseText
  }

  class Conversation {
    const sessionId: string
    var messages: seq<Message>
    var isLoading: bool
    var error: Option<string>

    constructor (sessionId: string)
      ensures this.sessionId == sessionId
      ensures messages == [] && !isLoading && error == None
    {
      this.sessionId := sessionId;
      messages := [];
      isLoading := false;
      error := None;
    }

    /** `sendMessage(content)` up to the remote call: loading is on, the
        error cleared, the user message appended, and the request carries the
        log as it was before that append. */
    method BeginSend(content: string, id: string, now: int) returns (request: ChatRequest)
      modifies this
      ensures isLoading && error == None
      ensures messages == old(messages) + [Message(id, User, content, None, None, None, now)]
      ensures request == ChatRequest(content, sessionId, old(messages))
    {
      isLoading := true;
      error := None;
      var userMessage := Message(id, User, content, None, None, None, now);
      var history := messages;
      messages := messages + [userMessage];
      request := ChatRequest(content, sessionId, history);
    }

    /** `sendMessage(content)` after the remote call: exactly one assistant
        message is appended and loading is off on both exits. A reply is
        recorded and returned; an error or a missing reply appends the
        apology, sets the error and returns nothing. */
    method FinishSend(outcome: InvokeOutcome, id: string, now: int) returns (r: Option<ChatReply>)
      modifies this
      ensures !isLoading
      ensures outcome.Answer? && outcome.data.Some? ==>
                && r == outcome.data
                && messages == old(messages) + [ReplyMessage(outcome.data.value, id, now)]
                && error == old(error)
      ensures !(outcome.Answer? && outcome.data.Some?) ==>
                && r.None?
                && messages == old(messages) + [ApologyMessage(id, now)]
                && error == Some(FailureText(outcome))
    {
      if outcome.FunctionError? {
        error := Some(outcome.message);
        isLoading := false;
        messages := messages + [ApologyMessage(id, now)];
        return None;
      }
      var response := outcome.data;
      if response.None? {
        error := Some(NoResponseText);
        isLoading := false;
        messages := messages + [ApologyMessage(id, now)];
        return None;
      }
      messages := messages + [ReplyMessage(response.value, id, now)];
      isLoading := false;
      r := response;
    }

    /** A whole `sendMessage`: the log grows by the user message and one
        assistant message, in that order, and nothing before them changes. */
    method SendMessage(content: string, userId: string, replyId: string, now: int, outcome: InvokeOutcome)
      returns (request: ChatRequest, r: Option<ChatReply>)
      modifies this
      ensures request == ChatRequest(content, sessionId, old(messages))
      ensures |messages| == |old(messages)| + 2 && messages[..|old(messages)|] == old(messages)
      ensures messages[|old(messages)|] == Message(userId, User, content, None, None, None, now)
      ensures messages[|old(messages)| + 1]
              == if outcome.Answer? && outcome.data.Some? then ReplyMessage(outcome.data.value, replyId, now)
                 else ApologyMessage(replyId, now)
      ensures !isLoading
      ensures r.Some? <==> outcome.Answer? && outcome.data.Some?
      ensures r.Some? ==> r == outcome.data
      ensures r.None? <==> error.Some?
      ensures r.None? ==> error == Some(FailureText(outcome))
    {
      request := BeginSend(content, userId, now);
      r := FinishSend(outcome, replyId, now);
    }

    /** `clearMessages()`: the log is emptied and the error cleared. */
    method ClearMessages()
      modifies this
      ensures messages == [] && error == None && isLoading == old(isLoading)
    {
      messages := [];
      error := None;
    }
  }
}
