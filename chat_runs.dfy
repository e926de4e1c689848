/**
 * Every event the widget reacts to, and what any sequence of them does.
 * The lemmas here are the widget's lasting promises: the recognition count
 * stays capped, at most one chat request is in flight, and between session
 * changes the log only grows at its end.
 */
module ChatRuns {
  import opened Wrappers
  import opened JsString
  import opened SearchTypes
  import opened Diagram
  import opened ChatState

  datatype Event =
    | MicOn(supported: bool, micAvailable: bool)   // the microphone button while not listening
    | MicOff                                       // the microphone button while listening, page hidden, window blurred
    | Typed(value: string)
    | KeyDown(key: string, shift: bool)
    | SendClicked
    | Heard(transcript: string)                    // the recognizer reports a new live transcript
    | SilenceElapsed                               // the 2-second silence timer fires
    | ListeningEnded                               // the effect that runs once `isListening` is false
    | SearchTypeChosen(value: string)
    | SessionSettled(req: SessionRequest, outcome: Outcome)
    | ChatSettled(outcome: Outcome)

  /** The two events that replace the log instead of appending to it. */
  predicate ResetsLog(e: Event) {
    e.SearchTypeChosen? || e.SessionSettled?
  }

  /** `e` is an accepted `startListening`. */
  predicate StartAccepted(c: Chat, e: Event) {
    e.MicOn? && CanListen(c, e.supported, e.micAvailable) && c.recognitionCount < RecognitionLimit
  }

  /** `e` settles the chat request in flight. */
  predicate SettlesSend(c: Chat, e: Event) {
    e.ChatSettled? && c.isProcessing
  }

  /**
   * One event. A timer that is not pending cannot fire and an answer with no
   * request in flight cannot arrive, so both leave the state as it is.
   */
  function Step(c: Chat, e: Event): (r: Sent)
    ensures Invariant(c) ==> Invariant(r.chat)
    ensures r.chat.recognitionCount == c.recognitionCount + (if StartAccepted(c, e) then 1 else 0)
    ensures r.request.Some? ==> !c.isProcessing && r.chat.isProcessing
    ensures !c.isProcessing && r.chat.isProcessing ==> r.request.Some?
    ensures c.isProcessing && !r.chat.isProcessing <==> SettlesSend(c, e)
    ensures !ResetsLog(e) ==> c.messages <= r.chat.messages
  {
    match e
    case MicOn(supported, micAvailable) => Sent(StartListening(c, supported, micAvailable), None)
    case MicOff => Sent(StopListening(c), None)
    case Typed(value) => Sent(TypeInput(c, value), None)
    case KeyDown(key, shift) => HandleKeyPress(c, key, shift)
    case SendClicked => HandleSendMessage(c)
    case Heard(t) => Sent(TranscriptChanged(c, t), None)
    case SilenceElapsed => if c.silencePending then SilenceTimeout(c) else Sent(c, None)
    case ListeningEnded => AutoSendAfterStop(c)
    case SearchTypeChosen(value) => Sent(SelectSearchType(c, value).chat, None)
    case SessionSettled(req, outcome) => Sent(CompleteCreateSession(c, req, outcome), None)
    case ChatSettled(outcome) => if c.isProcessing then Sent(CompleteSend(c, outcome), None) else Sent(c, None)
  }

  /** The state after a sequence of events. */
  function Final(c: Chat, es: seq<Event>): Chat
    decreases |es|
  {
    if es == [] then c else Final(Step(c, es[0]).chat, es[1..])
  }

  /** How many chat requests a sequence of events issues. */
  function Issued(c: Chat, es: seq<Event>): nat
    decreases |es|
  {
    if es == [] then 0
    else (if Step(c, es[0]).request.Some? then 1 else 0) + Issued(Step(c, es[0]).chat, es[1..])
  }

  /** How many chat requests a sequence of events settles. */
  function Settled(c: Chat, es: seq<Event>): nat
    decreases |es|
  {
    if es == [] then 0
    else (if SettlesSend(c, es[0]) then 1 else 0) + Settled(Step(c, es[0]).chat, es[1..])
  }

  /** How many accepted `startListening` calls a sequence of events contains. */
  function Starts(c: Chat, es: seq<Event>): nat
    decreases |es|
  {
    if es == [] then 0
    else (if StartAccepted(c, es[0]) then 1 else 0) + Starts(Step(c, es[0]).chat, es[1..])
  }

  /** Every accepted start adds exactly one to the count, and the count never passes the limit. */
  lemma {:induction false} RunKeepsLimit(c: Chat, es: seq<Event>)
    requires Invariant(c)
    ensures Final(c, es).recognitionCount == c.recognitionCount + Starts(c, es)
    ensures Invariant(Final(c, es))
    decreases |es|
  {
    if es != [] {
      RunKeepsLimit(Step(c, es[0]).chat, es[1..]);
    }
  }

  /** A page lifetime starts recognition at most 75 times. */
  lemma AtMostLimitStarts(es: seq<Event>)
    ensures Starts(Initial, es) <= RecognitionLimit
  {
    RunKeepsLimit(Initial, es);
  }

  /** Once the limit is reached, a press of the microphone button only sets an error. */
  lemma LimitReachedBlocks(c: Chat, supported: bool, micAvailable: bool)
    requires c.recognitionCount == RecognitionLimit
    ensures Step(c, MicOn(supported, micAvailable)).chat.(error := c.error) == c
    ensures Step(c, MicOn(supported, micAvailable)).chat.error.Some?
  {
  }

  /**
   * Requests issued and requests settled balance, up to the one send that may
   * be in flight at either end.
   */
  lemma {:induction false} RunBalancesSends(c: Chat, es: seq<Event>)
    ensures Issued(c, es) + (if c.isProcessing then 1 else 0)
            == Settled(c, es) + (if Final(c, es).isProcessing then 1 else 0)
    decreases |es|
  {
    if es != [] {
      RunBalancesSends(Step(c, es[0]).chat, es[1..]);
    }
  }

  /** From mount, at any point at most one chat request is outstanding. */
  lemma SingleSendInFlight(es: seq<Event>)
    ensures Settled(Initial, es) <= Issued(Initial, es) <= Settled(Initial, es) + 1
    ensures Issued(Initial, es) == Settled(Initial, es) + 1 <==> Final(Initial, es).isProcessing
  {
    RunBalancesSends(Initial, es);
  }

  /** Without a session change, earlier messages stay as they were and new ones only follow them. */
  lemma {:induction false} RunAppendsOnly(c: Chat, es: seq<Event>)
    requires forall i :: 0 <= i < |es| ==> !ResetsLog(es[i])
    ensures c.messages <= Final(c, es).messages
    decreases |es|
  {
    if es != [] {
      RunAppendsOnly(Step(c, es[0]).chat, es[1..]);
    }
  }

  lemma HelloNotBlank()
    ensures !IsBlank("hello")
  {
    assert !IsWhiteSpace("hello"[0]);
    assert CountLeading("hello") == 0;
  }

  /**
   * Typing a non-blank text and pressing Enter logs one user message and
   * issues one POST with the session id and that text; a 2xx reply with a
   * non-empty answer then logs one bot message with the answer and ends the send.
   */
  lemma TypeAndEnter(c: Chat, text: string, answer: string)
    requires HasSession(c) && !c.isProcessing && !c.isListening && Find(c.searchType).Some?
    requires !IsBlank(text) && answer != ""
    ensures HandleKeyPress(TypeInput(c, text), "Enter", false).request == Some(ChatRequest(c.sessionId.value, text))
    ensures CompleteSend(HandleKeyPress(TypeInput(c, text), "Enter", false).chat, Responded(200, Some(answer))).messages
            == c.messages + [Message(User, text), Message(Bot, answer)]
  {
    var typed := TypeInput(c, text);
    EnterSendsInput(typed);
    AnswerLogged(HandleKeyPress(typed, "Enter", false).chat, answer);
  }

  /** Enter on a non-blank input while not listening sends that input. */
  lemma EnterSendsInput(c: Chat)
    requires CanSend(c, c.inputText) && !c.isListening && Find(c.searchType).Some?
    ensures HandleKeyPress(c, "Enter", false).request == Some(ChatRequest(c.sessionId.value, c.inputText))
    ensures HandleKeyPress(c, "Enter", false).chat.messages == c.messages + [Message(User, c.inputText)]
    ensures HandleKeyPress(c, "Enter", false).chat.isProcessing
  {
    var cleared := c.(inputText := "");
    assert CanSend(cleared, c.inputText) && Find(cleared.searchType).Some?;
    assert HandleKeyPress(c, "Enter", false) == HandleSendMessage(c) == BeginSend(cleared, c.inputText);
  }

  /** A 2xx reply with a non-empty `answer` logs exactly that answer as the bot's message. */
  lemma AnswerLogged(c: Chat, answer: string)
    requires c.isProcessing && answer != ""
    ensures CompleteSend(c, Responded(200, Some(answer))).messages == c.messages + [Message(Bot, answer)]
    ensures !CompleteSend(c, Responded(200, Some(answer))).isProcessing
  {
    assert ReplyTo(Responded(200, Some(answer))) == Answer(answer);
  }

  /** The worked example: "hello" is sent and the answer "hi there" is logged. */
  lemma HelloExample(c: Chat)
    requires HasSession(c) && !c.isProcessing && !c.isListening && Find(c.searchType).Some?
    ensures HandleKeyPress(TypeInput(c, "hello"), "Enter", false).request == Some(ChatRequest(c.sessionId.value, "hello"))
    ensures CompleteSend(HandleKeyPress(TypeInput(c, "hello"), "Enter", false).chat, Responded(200, Some("hi there"))).messages
            == c.messages + [Message(User, "hello"), Message(Bot, "hi there")]
  {
    HelloNotBlank();
    TypeAndEnter(c, "hello", "hi there");
  }

  /** Choosing a known search type whose session request succeeds leaves exactly the welcome message. */
  lemma ChooseThenWelcome(c: Chat, value: string, id: string)
    requires Find(value).Some?
    ensures SelectSearchType(c, value).request == Some(SessionRequest(Find(value).value))
    ensures CompleteCreateSession(SelectSearchType(c, value).chat, SessionRequest(Find(value).value), Responded(200, Some(id))).messages
            == [Message(Bot, WelcomeText(Find(value).value.caption))]
    ensures CompleteCreateSession(SelectSearchType(c, value).chat, SessionRequest(Find(value).value), Responded(200, Some(id))).sessionId
            == Some(id)
  {
  }

  /** Once a send settles, the speaker button reads that reply (or failure text), up to its marker. */
  lemma SpeaksLatestReply(c: Chat, outcome: Outcome)
    requires c.isProcessing
    ensures VoiceClickText(CompleteSend(c, outcome)) == Some(SpokenText(ReplyTo(outcome).text))
  {
  }
}
