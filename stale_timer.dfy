/**
 * The silence timer as the component writes it. The callback set at line 123
 * closes over the render that armed it, so its guard (line 124), the text it
 * sends and the `sendMessage` it calls all see that render's values. Only the
 * state setters act on the state at the moment the timer fires. Stopping the
 * microphone does not clear this timer.
 */
module StaleTimer {
  import opened Wrappers
  import opened SearchTypes
  import opened ChatErrors
  import opened ChatState

  /**
   * The timer firing in state `now`, having been armed in state `armed`.
   * `sendMessage`'s own guard and its search-type lookup also read `armed`;
   * its functional update of the log appends to the log of `now`.
   */
  function ClosureSilenceTimeout(armed: Chat, now: Chat): (r: Sent)
    ensures !CanSend(armed, armed.transcript) ==> r == Sent(now.(silencePending := false), None)
    ensures CanSend(armed, armed.transcript) ==>
              now.messages + [Message(User, armed.transcript)] <= r.chat.messages
              && r.chat.isProcessing == Find(armed.searchType).Some?
              && r.chat.transcript == "" && r.chat.inputText == "" && !r.chat.silencePending
              && r.chat.error == (if Find(armed.searchType).Some? then None else Some(InvalidSearchTypeError))
              && r.chat.isListening == (now.isListening && !armed.isListening)
              && r.chat.(messages := now.messages, isProcessing := now.isProcessing, transcript := now.transcript,
                         inputText := now.inputText, silencePending := now.silencePending, error := now.error,
                         isListening := now.isListening) == now
    ensures CanSend(armed, armed.transcript) && Find(armed.searchType).Some? ==>
              r.request == Some(ChatRequest(armed.sessionId.value, armed.transcript))
              && r.chat.messages == now.messages + [Message(User, armed.transcript)] && r.chat.isProcessing
    ensures CanSend(armed, armed.transcript) && Find(armed.searchType).None? ==>
              r.request.None?
              && r.chat.messages == now.messages + [Message(User, armed.transcript), Message(Bot, InvalidSearchTypeError)]
    ensures now == armed && armed.silencePending ==> r == SilenceTimeout(armed)
  {
    if !CanSend(armed, armed.transcript) then Sent(now.(silencePending := false), None)
    else
      var started := now.(silencePending := false, transcript := "", inputText := "",
                          isProcessing := true, error := None,
                          messages := now.messages + [Message(User, armed.transcript)],
                          isListening := now.isListening && !armed.isListening);
      match Find(armed.searchType)
      case None =>
        Sent(Fail(started, InvalidSearchTypeError), None)
      case Some(_) => Sent(started, Some(ChatRequest(armed.sessionId.value, armed.transcript)))
  }

  /** Enter while listening with a session only stops listening. */
  lemma EnterStops(c: Chat)
    requires c.isListening && HasSession(c)
    ensures HandleKeyPress(c, "Enter", false) == Sent(StopListening(c), None)
  {
  }

  /** Once a sendable transcript is no longer being listened to, the effect sends it. */
  lemma StopSends(armed: Chat)
    requires armed.isListening && armed.silencePending
    requires CanSend(armed, armed.transcript) && Find(armed.searchType).Some?
    ensures AutoSendAfterStop(StopListening(armed)).request == Some(ChatRequest(armed.sessionId.value, armed.transcript))
    ensures AutoSendAfterStop(StopListening(armed)).chat.messages == armed.messages + [Message(User, armed.transcript)]
    ensures AutoSendAfterStop(StopListening(armed)).chat.isProcessing
    ensures AutoSendAfterStop(StopListening(armed)).chat.silencePending
  {
    var stopped := StopListening(armed);
    assert CanSend(stopped, stopped.transcript);
  }

  /**
   * The timer's guard as written ignores a send that started after it was
   * armed: speak a non-blank transcript, press Enter before the 2 seconds are
   * up, and the stop's auto-send issues one request; the timer then issues a
   * second one for the same text while the first is in flight, and the text
   * is logged twice.
   */
  lemma StaleTimerSendsTwice(armed: Chat)
    requires armed.isListening && armed.silencePending
    requires CanSend(armed, armed.transcript) && Find(armed.searchType).Some?
    ensures var stopped := HandleKeyPress(armed, "Enter", false);
            var sent := AutoSendAfterStop(stopped.chat);
            var fired := ClosureSilenceTimeout(armed, sent.chat);
            stopped.request.None?
            && sent.request == Some(ChatRequest(armed.sessionId.value, armed.transcript))
            && sent.chat.isProcessing
            && fired.request == sent.request
            && fired.chat.messages
               == armed.messages + [Message(User, armed.transcript), Message(User, armed.transcript)]
  {
    EnterStops(armed);
    StopSends(armed);
    var m := Message(User, armed.transcript);
    var sent := AutoSendAfterStop(StopListening(armed)).chat;
    assert sent.messages + [m] == armed.messages + [m, m];
  }

  /**
   * The intended behaviour, as `ChatState.SilenceTimeout` models it: the guard
   * reads the state at the moment the timer fires, so a send in flight blocks
   * it, and the same run issues only the request of the stop's auto-send.
   */
  lemma CurrentTimerSendsOnce(armed: Chat)
    requires armed.isListening && armed.silencePending
    requires CanSend(armed, armed.transcript) && Find(armed.searchType).Some?
    ensures var sent := AutoSendAfterStop(HandleKeyPress(armed, "Enter", false).chat);
            sent.chat.silencePending
            && SilenceTimeout(sent.chat).request.None?
            && SilenceTimeout(sent.chat).chat.messages == armed.messages + [Message(User, armed.transcript)]
  {
    EnterStops(armed);
    StopSends(armed);
  }
}
