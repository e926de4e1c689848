/**
 * The chat widget as the component holds it: fields that its handlers update
 * step by step. Each method is proved to perform exactly the transition of
 * the same name in `ChatState`, so every lemma there is a statement about
 * these methods.
 */
module Widget {
  import opened Wrappers
  import opened SearchTypes
  import opened ChatErrors
  import opened ChatState

  class VoiceChat {
    var sessionId: Option<string>
    var searchType: string
    var messages: seq<Message>
    var inputText: string
    var transcript: string
    var isListening: bool
    var isProcessing: bool
    var recognitionCount: nat
    var error: Option<string>
    var silencePending: bool

    /** The fields, read as one value. */
    function State(): Chat
      reads this
    {
      Chat(sessionId, searchType, messages, inputText, transcript,
           isListening, isProcessing, recognitionCount, error, silencePending)
    }

    ghost predicate Valid()
      reads this
    {
      Invariant(State())
    }

    constructor ()
      ensures Valid() && State() == Initial
    {
      sessionId := None;
      searchType := "";
      messages := [];
      inputText := "";
      transcript := "";
      isListening := false;
      isProcessing := false;
      recognitionCount := 0;
      error := None;
      silencePending := false;
    }

    method StartListening(supported: bool, micAvailable: bool)
      requires Valid()
      modifies this
      ensures Valid() && State() == ChatState.StartListening(old(State()), supported, micAvailable)
    {
      if !CanListen(State(), supported, micAvailable) {
        error := Some(MicUnavailableError);
        return;
      }
      if recognitionCount >= RecognitionLimit {
        error := Some(LimitReachedError);
        return;
      }
      recognitionCount := recognitionCount + 1;
      isListening := true;
      transcript := "";
      inputText := "";
    }

    method StopListening()
      requires Valid()
      modifies this
      ensures Valid() && State() == ChatState.StopListening(old(State()))
    {
      if !isListening {
        return;
      }
      isListening := false;
    }

    method TranscriptChanged(t: string)
      requires Valid()
      modifies this
      ensures Valid() && State() == ChatState.TranscriptChanged(old(State()), t)
    {
      if !isListening {
        return;
      }
      transcript := t;
      if t != "" {
        inputText := t;
        silencePending := true;
      }
    }

    method TypeInput(value: string)
      requires Valid()
      modifies this
      ensures Valid() && State() == ChatState.TypeInput(old(State()), value)
    {
      inputText := value;
    }

    /** The synchronous part of `sendMessage`; `request` is the POST it issues, if any. */
    method BeginSend(text: string) returns (request: Option<ChatRequest>)
      requires Valid()
      modifies this
      ensures Valid() && Sent(State(), request) == ChatState.BeginSend(old(State()), text)
    {
      if !CanSend(State(), text) {
        return None;
      }
      isProcessing := true;
      error := None;
      messages := messages + [Message(User, text)];
      inputText := "";
      var selected := Find(searchType);
      if selected.None? {
        error := Some(InvalidSearchTypeError);
        messages := messages + [Message(Bot, InvalidSearchTypeError)];
        isProcessing := false;
        return None;
      }
      request := Some(ChatRequest(sessionId.value, text));
    }

    /** The rest of `sendMessage`, given how the request in flight settled. */
    method CompleteSend(outcome: Outcome)
      requires Valid() && isProcessing
      modifies this
      ensures Valid() && State() == ChatState.CompleteSend(old(State()), outcome)
    {
      var reply := ReplyTo(outcome);
      if reply.Failure? {
        error := Some(reply.text);
      }
      messages := messages + [Message(Bot, reply.text)];
      isProcessing := false;
    }

    method HandleSendMessage() returns (request: Option<ChatRequest>)
      requires Valid()
      modifies this
      ensures Valid() && Sent(State(), request) == ChatState.HandleSendMessage(old(State()))
    {
      if !CanSend(State(), inputText) {
        return None;
      }
      var textToSend := inputText;
      inputText := "";
      request := BeginSend(textToSend);
    }

    method HandleKeyPress(key: string, shift: bool) returns (request: Option<ChatRequest>)
      requires Valid()
      modifies this
      ensures Valid() && Sent(State(), request) == ChatState.HandleKeyPress(old(State()), key, shift)
    {
      request := None;
      if key == "Enter" && !shift && HasSession(State()) {
        if isListening {
          StopListening();
        } else {
          request := HandleSendMessage();
        }
      }
    }

    /** The silence timer firing. */
    method SilenceTimeout() returns (request: Option<ChatRequest>)
      requires Valid() && silencePending
      modifies this
      ensures Valid() && Sent(State(), request) == ChatState.SilenceTimeout(old(State()))
    {
      silencePending := false;
      if !CanSend(State(), transcript) {
        return None;
      }
      var textToSend := transcript;
      transcript := "";
      inputText := "";
      request := BeginSend(textToSend);
      StopListening();
    }

    /** The effect that sends the transcript once listening has stopped. */
    method AutoSendAfterStop() returns (request: Option<ChatRequest>)
      requires Valid()
      modifies this
      ensures Valid() && Sent(State(), request) == ChatState.AutoSendAfterStop(old(State()))
    {
      if isListening || !CanSend(State(), transcript) {
        return None;
      }
      var textToSend := transcript;
      transcript := "";
      inputText := "";
      request := BeginSend(textToSend);
    }

    /** The synchronous part of `createSession`; `request` is the POST it issues, if any. */
    method BeginCreateSession(value: string) returns (request: Option<SessionRequest>)
      requires Valid()
      modifies this
      ensures Valid() && Opened(State(), request) == ChatState.BeginCreateSession(old(State()), value)
    {
      messages := [];
      error := None;
      inputText := "";
      var selected := Find(value);
      if selected.None? {
        error := Some(SessionFailedError);
        return None;
      }
      request := Some(SessionRequest(selected.value));
    }

    method SelectSearchType(value: string) returns (request: Option<SessionRequest>)
      requires Valid()
      modifies this
      ensures Valid() && Opened(State(), request) == ChatState.SelectSearchType(old(State()), value)
    {
      searchType := value;
      request := BeginCreateSession(value);
    }

    /** The rest of `createSession`, given how its request settled. */
    method CompleteCreateSession(req: SessionRequest, outcome: Outcome)
      requires Valid()
      modifies this
      ensures Valid() && State() == ChatState.CompleteCreateSession(old(State()), req, outcome)
    {
      if outcome.Responded? && IsOk(outcome.status) {
        sessionId := outcome.field;
        messages := [Message(Bot, WelcomeText(req.selected.caption))];
      } else {
        error := Some(SessionFailedError);
      }
    }
  }
}
