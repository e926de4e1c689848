/**
 * The state of the voice/text chat widget and one transition per handler.
 * Each handler of the component runs as one atomic step on the current state;
 * a network call is split into the synchronous part that issues the request
 * and a later completion that receives its outcome.
 */
module ChatState {
  import opened Wrappers
  import opened JsString
  import opened SearchTypes
  import opened ChatErrors
  import opened Diagram

  /** Most recognition sessions one page lifetime may start. */
  const RecognitionLimit: nat := 75

  const MicUnavailableError: string := "Please select a search type first and ensure microphone is available."
  const LimitReachedError: string := "Speech recognition session limit reached. Please refresh."
  const SessionFailedError: string := "Failed to create session. Please try again."
  const NoAnswerText: string := "No answer received"

  datatype Role = User | Bot

  /** One entry of the conversation log; entries are never edited. */
  datatype Message = Message(role: Role, text: string)

  /**
   * The component's state. `silencePending` is true while the silence timer
   * held in `silenceTimeoutRef` has been set and has not fired.
   */
  datatype Chat = Chat(
    sessionId: Option<string>,
    searchType: string,
    messages: seq<Message>,
    inputText: string,
    transcript: string,
    isListening: bool,
    isProcessing: bool,
    recognitionCount: nat,
    error: Option<string>,
    silencePending: bool)

  /** The state on mount: no session, nothing selected, an empty log, the microphone off. */
  const Initial: Chat := Chat(None, "", [], "", "", false, false, 0, None, false)

  /** The bound that every transition keeps. */
  predicate Invariant(c: Chat) {
    c.recognitionCount <= RecognitionLimit
  }

  /** JavaScript truthiness of `sessionId`: neither null/undefined nor the empty string. */
  predicate HasSession(c: Chat) {
    c.sessionId.Some? && c.sessionId.value != ""
  }

  /** The first guard of `startListening`. */
  predicate CanListen(c: Chat, supported: bool, micAvailable: bool) {
    supported && micAvailable && HasSession(c) && !c.isProcessing
  }

  /** The guard of `sendMessage` (and of every caller that checks it first). */
  predicate CanSend(c: Chat, text: string) {
    !IsBlank(text) && HasSession(c) && !c.isProcessing
  }

  /** The body of the chat POST. */
  datatype ChatRequest = ChatRequest(sessionId: string, question: string)

  /** The session-creation POST; its body carries `selected.clientId`. */
  datatype SessionRequest = SessionRequest(selected: SearchType)

  /**
   * What a request came back with: an HTTP status and the one JSON field the
   * widget reads (`answer` for a chat request, `session_id` for a session
   * request), absent when missing or null; or the message of an error thrown
   * by `fetch` or by JSON parsing.
   */
  datatype Outcome = Responded(status: nat, field: Option<string>) | Threw(message: string)

  /** `response.ok`. */
  predicate IsOk(status: nat) {
    200 <= status <= 299
  }

  /** A state together with the chat request the step issued, if any. */
  datatype Sent = Sent(chat: Chat, request: Option<ChatRequest>)

  /** A state together with the session request the step issued, if any. */
  datatype Opened = Opened(chat: Chat, request: Option<SessionRequest>)

  // ---------------------------------------------------------------- listening

  /** `startListening`. */
  function StartListening(c: Chat, supported: bool, micAvailable: bool): (r: Chat)
    ensures !CanListen(c, supported, micAvailable) ==> r == c.(error := Some(MicUnavailableError))
    ensures CanListen(c, supported, micAvailable) && c.recognitionCount >= RecognitionLimit ==>
              r == c.(error := Some(LimitReachedError))
    ensures CanListen(c, supported, micAvailable) && c.recognitionCount < RecognitionLimit ==>
              r.isListening && r.recognitionCount == c.recognitionCount + 1
              && r.transcript == "" && r.inputText == ""
              && r.(isListening := c.isListening, recognitionCount := c.recognitionCount,
                    transcript := c.transcript, inputText := c.inputText) == c
    ensures r.messages == c.messages && r.isProcessing == c.isProcessing && r.sessionId == c.sessionId
    ensures Invariant(c) ==> Invariant(r)
  {
    if !CanListen(c, supported, micAvailable) then c.(error := Some(MicUnavailableError))
    else if c.recognitionCount >= RecognitionLimit then c.(error := Some(LimitReachedError))
    else c.(recognitionCount := c.recognitionCount + 1, isListening := true, transcript := "", inputText := "")
  }

  /** `stopListening`: leaves the transcript for the not-listening auto-send. */
  function StopListening(c: Chat): (r: Chat)
    ensures !r.isListening
    ensures r.(isListening := c.isListening) == c
  {
    if !c.isListening then c else c.(isListening := false)
  }

  /**
   * The transcript effect: while listening, a new non-empty transcript is
   * copied into the input and the silence timer is (re)started. The
   * recognition hook only transcribes while `isListening` holds.
   */
  function TranscriptChanged(c: Chat, t: string): (r: Chat)
    ensures !c.isListening ==> r == c
    ensures c.isListening && t == "" ==> r == c.(transcript := "")
    ensures c.isListening && t != "" ==>
              r == c.(transcript := t, inputText := t, silencePending := true)
  {
    if !c.isListening then c
    else if t == "" then c.(transcript := t)
    else c.(transcript := t, inputText := t, silencePending := true)
  }

  /** The input field's `onChange`. */
  function TypeInput(c: Chat, value: string): (r: Chat)
    ensures r.inputText == value && r.(inputText := c.inputText) == c
  {
    c.(inputText := value)
  }

  // ------------------------------------------------------------------ sending

  /** The catch block of `sendMessage`: the error text becomes the banner and one bot message. */
  function Fail(c: Chat, text: string): (r: Chat)
    ensures r.messages == c.messages + [Message(Bot, text)]
    ensures r.error == Some(text) && !r.isProcessing
    ensures r.(messages := c.messages, error := c.error, isProcessing := c.isProcessing) == c
  {
    c.(error := Some(text), messages := c.messages + [Message(Bot, text)], isProcessing := false)
  }

  /**
   * The synchronous part of `sendMessage(text)`, up to the `fetch`. An
   * accepted send logs the user message and marks the send in flight; when the
   * selected search type is unknown the error is thrown before any request,
   * so the send also fails within this step.
   */
  function BeginSend(c: Chat, text: string): (r: Sent)
    ensures !CanSend(c, text) ==> r == Sent(c, None)
    ensures CanSend(c, text) && Find(c.searchType).Some? ==>
              r.request == Some(ChatRequest(c.sessionId.value, text))
              && r.chat == c.(isProcessing := true, error := None,
                              messages := c.messages + [Message(User, text)], inputText := "")
    ensures CanSend(c, text) && Find(c.searchType).None? ==>
              r.request.None?
              && r.chat.messages == c.messages + [Message(User, text), Message(Bot, InvalidSearchTypeError)]
              && r.chat.error == Some(InvalidSearchTypeError)
              && !r.chat.isProcessing && r.chat.inputText == ""
    ensures c.messages <= r.chat.messages
    ensures r.request.Some? ==> !c.isProcessing && r.chat.isProcessing
    ensures r.request.None? ==> r.chat.isProcessing == c.isProcessing
    ensures r.chat.(messages := c.messages, isProcessing := c.isProcessing, error := c.error, inputText := c.inputText) == c
  {
    if !CanSend(c, text) then Sent(c, None)
    else
      var started := c.(isProcessing := true, error := None,
                        messages := c.messages + [Message(User, text)], inputText := "");
      match Find(c.searchType)
      case None =>
        // the thrown message classified by ErrorText, as InvalidSearchTypeText proves
        Sent(Fail(started, InvalidSearchTypeError), None)
      case Some(_) => Sent(started, Some(ChatRequest(c.sessionId.value, text)))
  }

  /** `data.answer || 'No answer received'`. */
  function AnswerText(answer: Option<string>): (r: string)
    ensures r != []
    ensures answer.Some? && answer.value != "" ==> r == answer.value
    ensures answer.None? || answer.value == "" ==> r == NoAnswerText
  {
    if answer.Some? && answer.value != "" then answer.value else NoAnswerText
  }

  /** What a send's outcome turns into: the bot's answer, or a failure text. */
  datatype Reply = Answer(text: string) | Failure(text: string)

  function ReplyTo(outcome: Outcome): (r: Reply)
    ensures outcome.Responded? && IsOk(outcome.status) ==> r == Answer(AnswerText(outcome.field))
    ensures outcome.Responded? && !IsOk(outcome.status) ==>
              r == Failure("Error: " + HttpErrorMessage(outcome.status))
    ensures outcome.Threw? ==> r == Failure(ErrorText(outcome.message))
    ensures r.Failure? ==> (r.text == NetworkErrorText <==> outcome.Threw? && Contains(outcome.message, "fetch"))
  {
    match outcome
    case Responded(status, answer) =>
      if IsOk(status) then Answer(AnswerText(answer))
      else
        HttpErrorNotNetwork(status);
        Failure(ErrorText(HttpErrorMessage(status)))
    case Threw(message) => Failure(ErrorText(message))
  }

  /**
   * The rest of `sendMessage`, once the request in flight settles: exactly one
   * bot message is appended, a failure also sets the banner, and the in-flight
   * flag is always cleared.
   */
  function CompleteSend(c: Chat, outcome: Outcome): (r: Chat)
    requires c.isProcessing
    ensures !r.isProcessing
    ensures r.messages == c.messages + [Message(Bot, ReplyTo(outcome).text)]
    ensures r.error == if ReplyTo(outcome).Failure? then Some(ReplyTo(outcome).text) else c.error
    ensures r.(messages := c.messages, error := c.error, isProcessing := c.isProcessing) == c
  {
    match ReplyTo(outcome)
    case Answer(text) => c.(messages := c.messages + [Message(Bot, text)], isProcessing := false)
    case Failure(text) => Fail(c, text)
  }

  /** `handleSendMessage`: sends the typed text and clears the input. */
  function HandleSendMessage(c: Chat): (r: Sent)
    ensures !CanSend(c, c.inputText) ==> r == Sent(c, None)
    ensures CanSend(c, c.inputText) ==> r == BeginSend(c.(inputText := ""), c.inputText)
    ensures CanSend(c, c.inputText) ==> r.chat.inputText == "" && |r.chat.messages| > |c.messages|
                                        && r.chat.messages[|c.messages|] == Message(User, c.inputText)
    ensures r.request.Some? ==> r.request.value.question == c.inputText
  {
    if !CanSend(c, c.inputText) then Sent(c, None)
    else BeginSend(c.(inputText := ""), c.inputText)
  }

  /** `handleKeyPress`: Enter without Shift, with a session, stops listening or sends. */
  function HandleKeyPress(c: Chat, key: string, shift: bool): (r: Sent)
    ensures !(key == "Enter" && !shift && HasSession(c)) ==> r == Sent(c, None)
    ensures key == "Enter" && !shift && HasSession(c) && c.isListening ==> r == Sent(StopListening(c), None)
    ensures key == "Enter" && !shift && HasSession(c) && !c.isListening ==> r == HandleSendMessage(c)
  {
    if key == "Enter" && !shift && HasSession(c) then
      if c.isListening then Sent(StopListening(c), None) else HandleSendMessage(c)
    else Sent(c, None)
  }

  /**
   * The silence timer firing: a non-blank transcript is sent exactly as
   * `sendMessage` would send it, the transcript and input are cleared and
   * listening stops.
   */
  function SilenceTimeout(c: Chat): (r: Sent)
    requires c.silencePending
    ensures !r.chat.silencePending
    ensures !CanSend(c, c.transcript) ==> r == Sent(c.(silencePending := false), None)
    ensures CanSend(c, c.transcript) ==>
              r.request == BeginSend(c, c.transcript).request
              && r.chat.messages == BeginSend(c, c.transcript).chat.messages
              && r.chat.isProcessing == BeginSend(c, c.transcript).chat.isProcessing
              && r.chat.transcript == "" && r.chat.inputText == "" && !r.chat.isListening
    ensures CanSend(c, c.transcript) ==>
              r.chat == BeginSend(c, c.transcript).chat.(transcript := "", isListening := false, silencePending := false)
    ensures r.chat.recognitionCount == c.recognitionCount && r.chat.sessionId == c.sessionId
  {
    var quiet := c.(silencePending := false);
    if !CanSend(c, c.transcript) then Sent(quiet, None)
    else
      var sent := BeginSend(quiet.(transcript := "", inputText := ""), c.transcript);
      Sent(StopListening(sent.chat), sent.request)
  }

  /** The not-listening effect: once listening has stopped, a non-blank transcript is sent. */
  function AutoSendAfterStop(c: Chat): (r: Sent)
    ensures !(!c.isListening && CanSend(c, c.transcript)) ==> r == Sent(c, None)
    ensures !c.isListening && CanSend(c, c.transcript) ==>
              r.request == BeginSend(c, c.transcript).request
              && r.chat.messages == BeginSend(c, c.transcript).chat.messages
              && r.chat.isProcessing == BeginSend(c, c.transcript).chat.isProcessing
              && r.chat.transcript == "" && r.chat.inputText == ""
    ensures !c.isListening && CanSend(c, c.transcript) ==>
              r.chat == BeginSend(c, c.transcript).chat.(transcript := "")
    ensures r.chat.recognitionCount == c.recognitionCount && r.chat.sessionId == c.sessionId
    ensures !r.chat.isListening <==> !c.isListening
  {
    if !c.isListening && CanSend(c, c.transcript) then
      BeginSend(c.(transcript := "", inputText := ""), c.transcript)
    else Sent(c, None)
  }

  // ----------------------------------------------------------------- sessions

  /** The welcome message that opens every session's log. */
  function WelcomeText(caption: string): (r: string)
    ensures OccursAt(r, caption, 20)
  {
    var r := "Session created for " + caption + ". You can now start asking questions.";
    assert r[20..20 + |caption|] == caption;
    r
  }

  /**
   * The synchronous part of `createSession(type)`: the log, the banner and the
   * input are cleared; an unknown type fails at once, a known one issues the
   * request. The session id is not touched.
   */
  function BeginCreateSession(c: Chat, value: string): (r: Opened)
    ensures r.chat.messages == [] && r.chat.inputText == "" && r.chat.sessionId == c.sessionId
    ensures Find(value).None? ==> r.chat.error == Some(SessionFailedError) && r.request.None?
    ensures Find(value).Some? ==> r.chat.error.None? && r.request == Some(SessionRequest(Find(value).value))
    ensures r.chat.(messages := c.messages, inputText := c.inputText, error := c.error) == c
  {
    var cleared := c.(messages := [], error := None, inputText := "");
    match Find(value)
    case None => Opened(cleared.(error := Some(SessionFailedError)), None)
    case Some(selected) => Opened(cleared, Some(SessionRequest(selected)))
  }

  /** `handleSearchTypeChange`: records the selection and starts a session for it. */
  function SelectSearchType(c: Chat, value: string): (r: Opened)
    ensures r.chat.searchType == value
    ensures r == BeginCreateSession(c.(searchType := value), value)
  {
    BeginCreateSession(c.(searchType := value), value)
  }

  /**
   * The rest of `createSession`, once its request settles: on a 2xx response
   * the returned id becomes the session and the log is exactly the welcome
   * message; any failure only sets the banner.
   */
  function CompleteCreateSession(c: Chat, req: SessionRequest, outcome: Outcome): (r: Chat)
    ensures outcome.Responded? && IsOk(outcome.status) ==>
              r.sessionId == outcome.field
              && r.messages == [Message(Bot, WelcomeText(req.selected.caption))]
              && r.(sessionId := c.sessionId, messages := c.messages) == c
    ensures !(outcome.Responded? && IsOk(outcome.status)) ==> r == c.(error := Some(SessionFailedError))
  {
    match outcome
    case Responded(status, sessionId) =>
      if IsOk(status) then
        c.(sessionId := sessionId, messages := [Message(Bot, WelcomeText(req.selected.caption))])
      else c.(error := Some(SessionFailedError))
    case Threw(_) => c.(error := Some(SessionFailedError))
  }

  // ----------------------------------------------------------------- speaking

  /** `messages.filter(m => m.type === 'bot').pop()?.text`: the text of the latest bot message. */
  function LastBotText(log: seq<Message>): (r: Option<string>)
    ensures r.None? <==> forall i :: 0 <= i < |log| ==> log[i].role != Bot
    ensures r.Some? ==> exists i :: 0 <= i < |log| && log[i] == Message(Bot, r.value)
                                    && forall j :: i < j < |log| ==> log[j].role != Bot
    decreases |log|
  {
    if log == [] then None
    else if log[|log| - 1].role == Bot then Some(log[|log| - 1].text)
    else
      var r := LastBotText(log[..|log| - 1]);
      assert forall i :: 0 <= i < |log| - 1 ==> log[..|log| - 1][i] == log[i];
      r
  }

  /**
   * What the speaker button of `handleVoiceClick` reads aloud when nothing is
   * being spoken: the spoken part of the latest bot message; nothing without one.
   */
  function VoiceClickText(c: Chat): (r: Option<string>)
    ensures r.None? <==> forall i :: 0 <= i < |c.messages| ==> c.messages[i].role != Bot
    ensures r.Some? ==> r.value == SpokenText(LastBotText(c.messages).value) && !Contains(r.value, Marker)
  {
    match LastBotText(c.messages)
    case None => None
    case Some(text) => Some(SpokenText(text))
  }
}
