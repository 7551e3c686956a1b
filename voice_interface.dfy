/** The microphone button and status line
    (echo-voice-agent/src/components/VoiceInterface.tsx): which state the
    button shows, what a click does, when it is disabled, and what text is
    shown. */
module VoiceInterface {
  import opened Text

  datatype VoiceState = VoiceState(
    isListening: bool,
    isSpeaking: bool,
    isProcessing: bool,
    error: Option<string>)

  datatype ButtonState = Idle | Listening | Processing | Speaking

  /** `getButtonState()`: processing wins over listening, listening over
      speaking; the button is idle only when no flag is set. */
  function GetButtonState(v: VoiceState): (b: ButtonState)
    ensures b == Idle <==> !v.isProcessing && !v.isListening && !v.isSpeaking
    ensures b == Processing <==> v.isProcessing
    ensures b == Listening <==> !v.isProcessing && v.isListening
    ensures b == Speaking <==> !v.isProcessing && !v.isListening && v.isSpeaking
  {
    if v.isProcessing then Processing
    else if v.isListening then Listening
    else if v.isSpeaking then Speaking
    else Idle
  }

  datatype Click = StopClick | MicClick

  /** The click handler: stop while listening or speaking, otherwise start. */
  function OnClick(v: VoiceState): (c: Click)
    ensures c == StopClick <==> v.isListening || v.isSpeaking
  {
    if v.isListening || v.isSpeaking then StopClick else MicClick
  }

  /** The button is disabled exactly while a request is processed. */
  predicate Disabled(v: VoiceState) {
    v.isProcessing
  }

  /** An enabled button stops exactly when it shows listening or speaking,
      and starts exactly when it shows idle. */
  lemma EnabledClickFollowsButtonState(v: VoiceState)
    requires !Disabled(v)
    ensures OnClick(v) == StopClick <==> GetButtonState(v) in {Listening, Speaking}
    ensures OnClick(v) == MicClick <==> GetButtonState(v) == Idle
  {
  }

  /** The button's style classes per state. */
  function ButtonStyle(b: ButtonState): string {
    match b
    case Idle => "bg-slate-900 hover:bg-slate-800"
    case Listening => "bg-red-600 hover:bg-red-700 animate-pulse"
    case Processing => "bg-slate-700"
    case Speaking => "bg-green-600 hover:bg-green-700 animate-pulse"
  }

  datatype Icon = Spinner | MicOff | Mic

  /** The icon inside the button: a spinner while processing, the crossed-out
      microphone while listening or speaking, the microphone otherwise. */
  function ButtonIcon(v: VoiceState): (icon: Icon)
    ensures icon == Spinner <==> GetButtonState(v) == Processing
    ensures icon == MicOff <==> GetButtonState(v) in {Listening, Speaking}
    ensures icon == Mic <==> GetButtonState(v) == Idle
  {
    if v.isProcessing then Spinner
    else if v.isListening || v.isSpeaking then MicOff
    else Mic
  }

  function StatusText(b: ButtonState): string {
    match b
    case Idle => "Click to start conversation"
    case Listening => "Listening to your voice..."
    case Processing => "Processing your request..."
    case Speaking => "Echo is responding..."
  }

  /** The status line names every state differently. */
  lemma StatusTextDistinguishesStates(b: ButtonState, c: ButtonState)
    requires StatusText(b) == StatusText(c)
    ensures b == c
  {
  }

  /** The error paragraph is shown when the error is set and not empty (an
      empty string is falsy). */
  function ShownError(v: VoiceState): (shown: Option<string>)
    ensures shown.Some? <==> v.error.Some? && v.error.value != ""
    ensures shown.Some? ==> shown == v.error
  {
    if v.error.Some? && v.error.value != "" then v.error else None
  }
}
