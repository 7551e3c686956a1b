/** The decision logic of the voice hook (echo-voice-agent/src/hooks/useVoice.ts):
    the transcript buffer filled from recognition results and delivered on
    stop, the bounded connection-retry counter, the error message shown when
    listening fails, and the microphone-availability check. Sockets, audio
    capture, timers and browser APIs are not modelled: what they report
    arrives as parameters. */
module UseVoice {
  import opened Text

  // ---------------------------------------------------------------------
  // Listening errors.

  /** What `startListening` catches: an `Error` with its name and message,
      or some other thrown value. */
  datatype Thrown = ErrorObject(name: string, message: string) | NonError

  const DefaultMicError := "Failed to access microphone"
  const InsecureMsg := "Voice recognition requires a secure connection (HTTPS). Please use a secure URL."
  const NotFoundMsg := "No microphone found. Please check your microphone connection and browser permissions."
  const NotAllowedMsg := "Microphone access denied. Please click the microphone icon again to grant permissions."
  const NotReadableMsg := "Microphone is being used by another application. Please close other apps and try again."
  const PolicyMsg := "Microphone access is blocked by the website. Please check your browser settings or try refreshing the page."
  const GenericPrefix := "Voice recognition error: "

  /** The message shown for a failure: the default for a thrown non-error,
      the HTTPS notice outside a secure context, then by the error's name,
      then by its message. */
  function ListeningError(err: Thrown, isSecureContext: bool): string {
    match err
    case NonError => DefaultMicError
    case ErrorObject(name, message) =>
      if !isSecureContext then InsecureMsg
      else if name == "NotFoundError" then NotFoundMsg
      else if name == "NotAllowedError" then NotAllowedMsg
      else if name == "NotReadableError" then NotReadableMsg
      else if Contains(message, "Permissions policy") then PolicyMsg
      else GenericPrefix + message
  }

  /** Every failure leaves a message that is not empty, so the interface
      always shows it. */
  lemma ListeningErrorIsShown(err: Thrown, isSecureContext: bool)
    ensures ListeningError(err, isSecureContext) != ""
  {
  }

  /** The catch block of `startListening`: the message starts as the
      default and is overwritten by the first condition that holds, in the
      order the checks are made. */
  method ListeningErrorMessage(err: Thrown, isSecureContext: bool) returns (errorMessage: string)
    ensures errorMessage == ListeningError(err, isSecureContext)
    ensures err.NonError? ==> errorMessage == DefaultMicError
    ensures err.ErrorObject? && !isSecureContext ==> errorMessage == InsecureMsg
    ensures err.ErrorObject? && isSecureContext ==>
              if err.name == "NotFoundError" then errorMessage == NotFoundMsg
              else if err.name == "NotAllowedError" then errorMessage == NotAllowedMsg
              else if err.name == "NotReadableError" then errorMessage == NotReadableMsg
              else if Contains(err.message, "Permissions policy") then errorMessage == PolicyMsg
              else errorMessage == GenericPrefix + err.message
  {
    errorMessage := DefaultMicError;
    if err.ErrorObject? {
      if !isSecureContext {
        errorMessage := InsecureMsg;
      } else if err.name == "NotFoundError" {
        errorMessage := NotFoundMsg;
      } else if err.name == "NotAllowedError" {
        errorMessage := NotAllowedMsg;
      } else if err.name == "NotReadableError" {
        errorMessage := NotReadableMsg;
      } else if Contains(err.message, "Permissions policy") {
        errorMessage := PolicyMsg;
      } else {
        errorMessage := GenericPrefix + err.message;
      }
    }
  }

  // ---------------------------------------------------------------------
  // Microphone availability.

  datatype MicCheck = MicCheck(available: bool, message: string)

  /** How many of the enumerated devices are audio inputs. */
  function AudioInputs(kinds: seq<string>): (n: nat)
    ensures n <= |kinds|
    ensures n == 0 <==> forall i | 0 <= i < |kinds| :: kinds[i] != "audioinput"
  {
    if kinds == [] then 0
    else AudioInputs(kinds[..|kinds| - 1]) + (if kinds[|kinds| - 1] == "audioinput" then 1 else 0)
  }

  /** `checkMicrophoneAvailability`. `devices` holds the kinds of the
      enumerated devices, or `None` when the enumeration throws. */
  function CheckMicrophone(hasGetUserMedia: bool, isSecureContext: bool, devices: Option<seq<string>>): (r: MicCheck)
    ensures r.available <==> hasGetUserMedia && isSecureContext && devices.Some?
                             && exists i | 0 <= i < |devices.value| :: devices.value[i] == "audioinput"
    ensures !hasGetUserMedia ==> r.message == "Microphone access not supported in this browser."
    ensures hasGetUserMedia && !isSecureContext ==> r.message == "Microphone requires HTTPS (secure connection)."
    ensures hasGetUserMedia && isSecureContext && devices.None? ==>
              r.message == "Unable to check microphone availability."
    ensures hasGetUserMedia && isSecureContext && devices.Some? && !r.available ==>
              r.message == "No microphone found. Please connect a microphone and try again."
    ensures r.available ==> r.message == "Microphone detected."
  {
    if !hasGetUserMedia then
      MicCheck(false, "Microphone access not supported in this browser.")
    else if !isSecureContext then
      MicCheck(false, "Microphone requires HTTPS (secure connection).")
    else if devices.None? then
      MicCheck(false, "Unable to check microphone availability.")
    else if AudioInputs(devices.value) == 0 then
      MicCheck(false, "No microphone found. Please connect a microphone and try again.")
    else
      MicCheck(true, "Microphone detected.")
  }

  // ---------------------------------------------------------------------
  // Connection retries.

  const MaxRetries: nat := 3

  /** What the connection attempt reports. */
  datatype ConnEvent =
    | InvokeError(message: string)   // the URL function answered with an error
    | MissingUrl                     // it answered without a socket URL
    | Timeout                        // the socket did not open within ten seconds
    | SocketError                    // the socket reported an error
    | Closed(code: int)              // the socket closed with this code
    | Opened                         // the socket opened
    | InvokeRejected(reason: string) // the call to the URL function itself failed

  datatype ConnAction =
    | RetryAfter(delayMs: nat)
    | RetryNow
    | Reject(reason: string)
    | Resolve
    | Ignore

  predicate IsRetry(a: ConnAction) {
    a.RetryAfter? || a.RetryNow?
  }

  /** One step of `connectDeepgram`'s retry logic: the new retry count and
      what the handler does. */
  function Next(retryCount: nat, e: ConnEvent): (nat, ConnAction) {
    var canRetry := retryCount < MaxRetries;
    match e
    case InvokeError(m) =>
      if canRetry then (retryCount + 1, RetryAfter(1000 * (retryCount + 1)))
      else (retryCount, Reject("Edge function error: " + m))
    case MissingUrl =>
      if canRetry then (retryCount + 1, RetryAfter(1000 * (retryCount + 1)))
      else (retryCount, Reject("No WebSocket URL received from server"))
    case Timeout =>
      if canRetry then (retryCount + 1, RetryNow)
      else (retryCount, Reject("WebSocket connection timeout"))
    case SocketError =>
      if canRetry then (retryCount + 1, RetryAfter(1000 * (retryCount + 1)))
      else (retryCount, Reject("WebSocket connection failed after retries"))
    case Closed(code) =>
      if code != 1000 && canRetry then (retryCount + 1, RetryAfter(1000 * (retryCount + 1)))
      else (retryCount, Ignore)
    case Opened => (retryCount, Resolve)
    case InvokeRejected(r) => (retryCount, Reject(r))
  }

  /** Each step retries at most once, counts every retry, waits 1000 ms per
      retry made so far, and never takes the counter past the limit. */
  lemma NextCountsRetries(retryCount: nat, e: ConnEvent)
    requires retryCount <= MaxRetries
    ensures Next(retryCount, e).0 <= MaxRetries
    ensures Next(retryCount, e).0 == (if IsRetry(Next(retryCount, e).1) then retryCount + 1 else retryCount)
    ensures Next(retryCount, e).1.RetryAfter? ==> Next(retryCount, e).1.delayMs == 1000 * Next(retryCount, e).0
    ensures Next(retryCount, e).1.RetryNow? ==> e.Timeout?
  {
  }

  /** Once three retries are spent, the error, missing-URL, timeout and
      socket-error reports reject; a close never retries then, and a normal
      close (code 1000) never retries at all. */
  lemma RetriesExhausted(retryCount: nat, e: ConnEvent)
    ensures retryCount == MaxRetries && (e.InvokeError? || e.MissingUrl? || e.Timeout? || e.SocketError?)
            ==> Next(retryCount, e).1.Reject?
    ensures retryCount == MaxRetries ==> !IsRetry(Next(retryCount, e).1)
    ensures e == Closed(1000) ==> Next(retryCount, e) == (retryCount, Ignore)
  {
  }

  /** The counter and the actions after a whole run of reports. */
  function Run(retryCount: nat, events: seq<ConnEvent>): (nat, seq<ConnAction>) {
    if events == [] then (retryCount, [])
    else
      var (c, acts) := Run(retryCount, events[..|events| - 1]);
      var (c', a) := Next(c, events[|events| - 1]);
      (c', acts + [a])
  }

  function RetriesIn(actions: seq<ConnAction>): nat {
    if actions == [] then 0
    else RetriesIn(actions[..|actions| - 1]) + (if IsRetry(actions[|actions| - 1]) then 1 else 0)
  }

  /** Over any run of reports, starting from zero, the counter equals the
      number of retries made, so at most three retries ever happen and the
      connection is attempted at most four times. */
  lemma {:induction false} RunRetriesBounded(events: seq<ConnEvent>)
    ensures Run(0, events).0 == RetriesIn(Run(0, events).1)
    ensures RetriesIn(Run(0, events).1) <= MaxRetries
    ensures |Run(0, events).1| == |events|
  {
    if events != [] {
      var front := events[..|events| - 1];
      RunRetriesBounded(front);
      var (c, acts) := Run(0, front);
      NextCountsRetries(c, events[|events| - 1]);
      var (c', a) := Next(c, events[|events| - 1]);
      assert (acts + [a])[..|acts|] == acts;
    }
  }

  /** The retry counter of one `connectDeepgram` call. */
  class Connector {
    var retryCount: nat

    ghost predicate Valid()
      reads this
    {
      retryCount <= MaxRetries
    }

    constructor ()
      ensures Valid() && retryCount == 0
    {
      retryCount := 0;
    }

    /** Handle one report: update the counter and say what to do. */
    method Handle(e: ConnEvent) returns (action: ConnAction)
      requires Valid()
      modifies this
      ensures Valid()
      ensures (retryCount, action) == Next(old(retryCount), e)
      ensures retryCount == old(retryCount) || retryCount == old(retryCount) + 1
    {
      NextCountsRetries(retryCount, e);
      var step := Next(retryCount, e);
      retryCount := step.0;
      action := step.1;
    }
  }

  // ---------------------------------------------------------------------
  // The transcript buffer and the listening session.

  /** A recognition result is kept when it is final and not blank. */
  predicate Kept(transcript: string, isFinal: bool) {
    isFinal && !IsBlank(transcript)
  }

  /** Parts that are not blank join to a non-empty text. */
  lemma JoinOfNonBlankIsEmptyOnlyWhenNoParts(parts: seq<string>, sep: string)
    requires forall i | 0 <= i < |parts| :: !IsBlank(parts[i])
    ensures Join(parts, sep) == "" <==> parts == []
  {
    if parts != [] {
      JoinStartsWithFirst(parts, sep);
      assert parts[0] != "";
    }
  }

  /** The hook's listening state: the transcript buffer, the transcript
      callback, the voice state flags it sets, and the audio frames sent. */
  class VoiceSession {
    var transcriptBuffer: string
    var hasCallback: bool
    var delivered: seq<string>
    var isListening: bool
    var error: Option<string>
    var framesSent: nat

    /** The transcripts kept since listening started, in order. */
    ghost var Accepted: seq<string>

    ghost predicate Valid()
      reads this
    {
      && (forall i | 0 <= i < |Accepted| :: !IsBlank(Accepted[i]))
      && transcriptBuffer == Join(Accepted, " ")
    }

    constructor ()
      ensures Valid()
      ensures transcriptBuffer == "" && Accepted == [] && !hasCallback && delivered == []
      ensures !isListening && error == None && framesSent == 0
    {
      transcriptBuffer := "";
      hasCallback := false;
      delivered := [];
      isListening := false;
      error := None;
      framesSent := 0;
      Accepted := [];
    }

    /** A recognition result arrives: a final, non-blank transcript is
        appended, after a single space unless the buffer is empty. */
    method OnTranscript(transcript: string, isFinal: bool)
      requires Valid()
      modifies this
      ensures Valid()
      ensures Kept(transcript, isFinal) ==>
                Accepted == old(Accepted) + [transcript]
                && transcriptBuffer == old(transcriptBuffer) + (if old(transcriptBuffer) == "" then "" else " ") + transcript
      ensures !Kept(transcript, isFinal) ==> Accepted == old(Accepted) && transcriptBuffer == old(transcriptBuffer)
      ensures hasCallback == old(hasCallback) && delivered == old(delivered)
      ensures isListening == old(isListening) && error == old(error) && framesSent == old(framesSent)
    {
      if !IsBlank(transcript) && isFinal {
        JoinOfNonBlankIsEmptyOnlyWhenNoParts(Accepted, " ");
        if Accepted != [] {
          JoinSnoc(Accepted, transcript, " ");
        }
        transcriptBuffer := transcriptBuffer + (if transcriptBuffer != "" then " " else "") + transcript;
        Accepted := Accepted + [transcript];
      }
    }

    /** `startListening(onTranscript)`: the callback is installed and the
        buffer emptied before anything can fail; `failure` is what the setup
        threw, if anything. */
    method StartListening(failure: Option<Thrown>, isSecureContext: bool)
      requires Valid()
      modifies this
      ensures Valid()
      ensures hasCallback && transcriptBuffer == "" && Accepted == []
      ensures failure.None? ==> isListening && error == None
      ensures failure.Some? ==> isListening == old(isListening) && error.Some?
      ensures failure.Some? ==> error == Some(ListeningError(failure.value, isSecureContext))
      ensures failure == Some(NonError) ==> error == Some(DefaultMicError)
      ensures delivered == old(delivered) && framesSent == old(framesSent)
    {
      hasCallback := true;
      transcriptBuffer := "";
      Accepted := [];
      if failure.None? {
        isListening := true;
        error := None;
      } else {
        var msg := ListeningErrorMessage(failure.value, isSecureContext);
        error := Some(msg);
      }
    }

    /** The audio processor produced a frame: it is sent only while the
        socket is open. */
    method OnAudioFrame(socketOpen: bool)
      modifies this`framesSent
      ensures framesSent == old(framesSent) + (if socketOpen then 1 else 0)
    {
      if socketOpen {
        framesSent := framesSent + 1;
      }
    }

    /** `stopListening()`: the buffered transcript goes to the callback when
        there is one and the buffer is not empty; the buffer itself is left
        as it is. */
    method StopListening()
      requires Valid()
      modifies this
      ensures Valid()
      ensures delivered == if old(transcriptBuffer) != "" && old(hasCallback)
                           then old(delivered) + [old(transcriptBuffer)] else old(delivered)
      ensures old(Accepted) != [] && old(hasCallback) ==> delivered == old(delivered) + [Join(old(Accepted), " ")]
      ensures !isListening
      ensures transcriptBuffer == old(transcriptBuffer) && Accepted == old(Accepted)
      ensures hasCallback == old(hasCallback) && error == old(error) && framesSent == old(framesSent)
    {
      JoinOfNonBlankIsEmptyOnlyWhenNoParts(Accepted, " ");
      if transcriptBuffer != "" && hasCallback {
        delivered := delivered + [transcriptBuffer];
      }
      isListening := false;
    }
  }
}
