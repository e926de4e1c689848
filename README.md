# VoiceChat widget model

A Dafny model of the voice/text chat widget `VoiceChat` of the infra-chatBot
front end. The widget lets a user pick a search type, which opens a backend
session. The user then asks questions by typing or by speaking. Spoken input
is sent after 2 seconds of silence or once listening stops. Each answer is
shown and can be read aloud. An answer may carry an
`[Open Interactive Diagram](<target>)` link.

The model has these parts:

- `wrappers.dfy`: `Option`.
- `js_string.dfy` (`JsString`): the JavaScript string operations the widget
  relies on. These are `trim()` over the ECMAScript white-space and
  line-terminator set, `indexOf` and `includes`.
- `diagram.dfy` (`Diagram`): the diagram-marker convention of answers.
  - `split('[Open Interactive Diagram]')[0]`;
  - the link regex `\[Open Interactive Diagram\]\(([^)]+)\)` with its
    leftmost match and greedy capture;
  - how a bot message is rendered and what text is spoken.
- `search_types.dfy` (`SearchTypes`): the fixed table of four search types
  and `find` over it.
- `chat_errors.dfy` (`ChatErrors`): how a thrown error becomes the text shown
  to the user, and the decimal form of an HTTP status.
- `chat_state.dfy` (`ChatState`): the component state as one value (`Chat`)
  and one transition function per handler. Each function's contract states
  its guard and its whole effect. A network call is split into two steps:
  - the synchronous part, which returns the request it issues;
  - a completion, which takes the outcome of that request.
- `voice_chat.dfy` (`Widget`): the class `VoiceChat`, whose fields are the
  component's state variables. Each handler method updates the fields in
  place. Each method is proved to perform exactly the `ChatState` transition
  of the same name, so everything proved about the transitions holds for the
  methods.
- `chat_runs.dfy` (`ChatRuns`): an `Event` per thing the widget reacts to,
  `Step` for one event, and lemmas about any sequence of events:
  - the recognition count never passes 75;
  - at most one chat request is in flight;
  - without a session change, the log only grows at its end;
  - worked scenarios.

Each handler is modelled as one atomic step on the current state. The two
effects that React runs after a render are separate events that may occur at
any time:

- the silence timer firing (`SilenceElapsed`);
- the auto-send once listening has stopped (`ListeningEnded`).

The other events are the user's own actions and the settling of a request.

Three behaviours of the code are worth knowing:

- The text read aloud is trimmed even when the answer has no diagram marker
  (line 346).
- `stopListening` (lines 147-152) keeps the transcript, whether the stop
  comes from the button, the page becoming hidden or the window losing focus.
  The not-listening effect (lines 137-145) then sends that transcript.
- Choosing a search type clears the log at once. The welcome message is
  logged only when the session request gets a 2xx response; a failed request
  leaves the log empty (lines 60-91).

## Model

| member | source | states |
|---|---|---|
| JsString.CountLeading | src/components/VoiceChat.js:230 | the number of leading white-space characters: all of them are white space, and the next one is not |
| JsString.CountTrailing | src/components/VoiceChat.js:230 | the number of trailing white-space characters: all of them are white space, and the one before is not |
| JsString.Trim | src/components/VoiceChat.js:230 | `trim()` returns the slice after the leading white space; everything cut at either end is white space; the result neither starts nor ends with white space |
| JsString.IsBlank | src/components/VoiceChat.js:230 | `!text?.trim()`: the trimmed text is empty |
| JsString.BlankIffAllWhiteSpace | src/components/VoiceChat.js:230 | a text is falsy after `trim()` exactly when it consists only of white space |
| JsString.IndexFrom | src/components/VoiceChat.js:270 | the first occurrence of a pattern at or after a position; absent exactly when there is none |
| JsString.IndexOf | src/components/VoiceChat.js:270 | the leftmost occurrence of a pattern; `includes` holds exactly when it exists |
| JsString.Contains | src/components/VoiceChat.js:270 | `includes`: the pattern occurs somewhere, which is exactly when `IndexOf` finds it |
| JsString.AbsentLetterNotContained | src/components/VoiceChat.js:283 | a text lacking the pattern's first letter does not include the pattern |
| Diagram.BeforeMarker | src/components/VoiceChat.js:427 | `split(marker)[0]` is a prefix free of the marker, followed in the text by the first marker; it is the whole text when there is no marker |
| Diagram.SpokenText | src/components/VoiceChat.js:346 | the text read aloud is the text before the first marker, trimmed: it has no marker and no white space at its ends; without a marker it is the whole message trimmed |
| Diagram.ReplyTextContent | src/components/VoiceChat.js:269-275 | the `textContent` of a reply is its spoken text when the marker is present and the reply itself otherwise |
| Diagram.RunWithoutClose | src/components/VoiceChat.js:429 | the greedy `[^)]+` run: no `)` inside, and it stops at a `)` or at the end |
| Diagram.MatchAt | src/components/VoiceChat.js:429 | a regex match starting at one index: the capture returned is a valid link target there, and it is the only one |
| Diagram.TargetIsRun | src/components/VoiceChat.js:429 | any capture of a match is exactly the run of non-`)` characters after `[Open Interactive Diagram](` |
| Diagram.LinkIndexFrom | src/components/VoiceChat.js:429 | the leftmost index at or after a position where the regex matches; none before it |
| Diagram.LinkTarget | src/components/VoiceChat.js:429 | `match(...)?.[1]` is present exactly when the regex matches, is the capture of the leftmost match, and implies the marker is present |
| Diagram.RenderBot | src/components/VoiceChat.js:424-441 | a bot message renders as plain text exactly when it has no marker; otherwise it renders as `split(marker)[0]`, the text before the first marker, plus a link to the regex capture |
| Diagram.MarkerOpensOnce | src/components/VoiceChat.js:270 | `[` occurs in the marker only at its start, so two occurrences cannot overlap |
| Diagram.FirstMarkerAfter | src/components/VoiceChat.js:427 | in `p + marker + x` with no marker in `p`, the first marker starts right after `p` |
| Diagram.LinkAfterFirstMarker | src/components/VoiceChat.js:429 | a well-formed `(target)` right after the first marker is the link's target |
| Diagram.FirstMarkerSplits | src/components/VoiceChat.js:424-441 | for any `p + marker + x` with no marker in `p`, whatever `x` is: the shown text is `p`, the spoken text is `p` trimmed, and the view is `p` with the link |
| Diagram.MarkedAnswerSplits | src/components/VoiceChat.js:425-427 | every text with the marker is the text before its first marker, the marker, and the rest |
| Diagram.DiagramAnswer | src/components/VoiceChat.js:424-441 | for `p[Open Interactive Diagram](t)rest`: the link is `t`, the shown text is `p`, and the spoken text is `p` trimmed |
| SearchTypes.FindIn | src/components/VoiceChat.js:64 | `find` returns the first entry with the requested value: every entry before it has another value; absent exactly when no entry has it |
| SearchTypes.Find | src/components/VoiceChat.js:241 | the same for the widget's own table |
| SearchTypes.FindsEveryEntry | src/components/VoiceChat.js:38-43 | every entry of the table is found by its own value |
| SearchTypes.EmptyValueUnknown | src/components/VoiceChat.js:18 | the initial selection `''` names no search type |
| ChatErrors.ErrorText | src/components/VoiceChat.js:283-285 | a thrown message becomes the network-error text exactly when it includes `fetch`; otherwise it becomes `Error: ` followed by the message |
| ChatErrors.ErrorTextInjective | src/components/VoiceChat.js:283-285 | two messages without `fetch` never produce the same text |
| ChatErrors.Decimal | src/components/VoiceChat.js:265 | the decimal form of a status is non-empty, made of digits only, and has no leading zero (`0` is `"0"`) |
| ChatErrors.DigitCharValue | src/components/VoiceChat.js:265 | every digit character is read back as its own value |
| ChatErrors.DecimalRoundTrip | src/components/VoiceChat.js:265 | reading back the decimal form of a status gives the status |
| ChatErrors.HttpErrorMessage | src/components/VoiceChat.js:265 | the thrown message is `HTTP error! status: ` followed by the status's digits, without a leading zero, that read back as the status |
| ChatErrors.HttpErrorNotNetwork | src/components/VoiceChat.js:265-285 | an HTTP-status error never counts as a network error, and is shown as `Error: HTTP error! status: <n>` |
| ChatErrors.InvalidSearchTypeText | src/components/VoiceChat.js:241-244 | the invalid-search-type throw is shown as `Error: Invalid search type` |
| ChatState.HasSession | src/components/VoiceChat.js:156 | the truthiness of `sessionId`: neither null nor the empty string |
| ChatState.CanListen | src/components/VoiceChat.js:156 | the guard of `startListening`: support, microphone, a session and no send in flight |
| ChatState.CanSend | src/components/VoiceChat.js:230 | the guard of `sendMessage`, also checked at lines 124, 138 and 295: a non-blank text, a session and no send in flight |
| ChatState.IsOk | src/components/VoiceChat.js:265 | `response.ok`: a status from 200 to 299 |
| ChatState.StartListening | src/components/VoiceChat.js:154-172 | a missing guard condition only sets the microphone error; at the limit of 75 only the limit error is set; otherwise listening starts, the count rises by one, transcript and input are cleared, nothing else changes, and the bound is kept |
| ChatState.StopListening | src/components/VoiceChat.js:147-152 | listening is off afterwards, and nothing else changes |
| ChatState.TranscriptChanged | src/components/VoiceChat.js:114-123 | while listening, a non-empty transcript is copied into the input and arms the silence timer; not listening, nothing changes |
| ChatState.TypeInput | src/components/VoiceChat.js:473 | only the input changes, to the typed value |
| ChatState.Fail | src/components/VoiceChat.js:281-290 | a failure appends one bot message with its text, sets that text as the banner and ends processing; nothing else changes |
| ChatState.BeginSend | src/components/VoiceChat.js:228-251 | a blank text, a missing session or a send in flight changes nothing; otherwise the user message is logged, the banner and input are cleared, and a POST with the session id and the text is issued; an unknown search type instead fails at once with `Error: Invalid search type` |
| ChatState.AnswerText | src/components/VoiceChat.js:269 | a non-empty answer is kept; a missing or empty one becomes `No answer received` |
| ChatState.ReplyTo | src/components/VoiceChat.js:265-287 | a 2xx response gives the answer text; another status gives the HTTP error text; a throw gives its classified text; the network text occurs exactly for a thrown `fetch` error |
| ChatState.CompleteSend | src/components/VoiceChat.js:253-290 | a settled send appends exactly one bot message with the reply, sets the banner only on failure, and always ends processing |
| ChatState.HandleSendMessage | src/components/VoiceChat.js:293-302 | under the send guard, the typed input is cleared and sent as the user message; otherwise nothing changes |
| ChatState.HandleKeyPress | src/components/VoiceChat.js:174-183 | Enter without Shift, with a session, stops listening when listening and sends the input otherwise; any other key changes nothing |
| ChatState.SilenceTimeout | src/components/VoiceChat.js:123-132 | the timer is disarmed; a sendable transcript is sent as `sendMessage` would send it, and the whole new state is that send's state with transcript and input cleared and listening stopped; otherwise only the timer changes |
| ChatState.AutoSendAfterStop | src/components/VoiceChat.js:137-145 | once not listening, a sendable transcript is sent, and the whole new state is that send's state with transcript and input cleared; otherwise nothing changes |
| ChatState.WelcomeText | src/components/VoiceChat.js:88 | the welcome message names the chosen search type's caption |
| ChatState.BeginCreateSession | src/components/VoiceChat.js:56-67 | log, banner and input are cleared and the session id is kept; a known type issues a request carrying its table entry, and an unknown one sets the session-failure banner |
| ChatState.SelectSearchType | src/components/VoiceChat.js:95-100 | the selection is recorded and a session is started for it |
| ChatState.CompleteCreateSession | src/components/VoiceChat.js:69-92 | a 2xx response sets the returned session id, and the log becomes exactly the welcome message; any failure only sets the session-failure banner |
| ChatState.LastBotText | src/components/VoiceChat.js:344 | the text of the latest bot message in the log; absent exactly when the log has none |
| ChatState.VoiceClickText | src/components/VoiceChat.js:343-350 | the speaker button reads the spoken part of the latest bot message, which has no marker; it reads nothing when there is no bot message |
| ChatRuns.Step | src/components/VoiceChat.js:95-302 | one event: the recognition bound is kept; the count rises by one exactly on an accepted start; a request is issued exactly when processing starts; processing ends exactly when a send settles; the log only grows unless the session changes |
| ChatRuns.RunKeepsLimit | src/components/VoiceChat.js:161-167 | over any events, the count is the initial count plus the accepted starts, and the bound of 75 holds |
| ChatRuns.AtMostLimitStarts | src/components/VoiceChat.js:161-167 | from mount, recognition is started at most 75 times |
| ChatRuns.LimitReachedBlocks | src/components/VoiceChat.js:161-164 | at the limit, the microphone button only sets an error |
| ChatRuns.RunBalancesSends | src/components/VoiceChat.js:228-290 | the requests issued and the sends settled balance, up to the send in flight at each end |
| ChatRuns.SingleSendInFlight | src/components/VoiceChat.js:230-235 | from mount, at most one chat request is outstanding, and one is outstanding exactly while processing |
| ChatRuns.RunAppendsOnly | src/components/VoiceChat.js:237-287 | without a session change, earlier messages stay as they were |
| ChatRuns.HelloNotBlank | src/components/VoiceChat.js:295 | `hello` passes the trim guard |
| ChatRuns.EnterSendsInput | src/components/VoiceChat.js:174-183 | Enter on a sendable input while not listening issues that input as the question and logs it |
| ChatRuns.AnswerLogged | src/components/VoiceChat.js:269-280 | a 2xx reply with a non-empty answer logs exactly that answer and ends the send |
| ChatRuns.TypeAndEnter | src/components/VoiceChat.js:174-287 | typing a non-blank text and pressing Enter issues one POST with it; its answer then follows the user message in the log |
| ChatRuns.HelloExample | src/components/VoiceChat.js:174-287 | the same for `hello` answered by `hi there` |
| ChatRuns.ChooseThenWelcome | src/components/VoiceChat.js:56-100 | choosing a known type whose request succeeds leaves the returned session and exactly the welcome message |
| ChatRuns.SpeaksLatestReply | src/components/VoiceChat.js:277-350 | after a send settles, the speaker button reads that reply's spoken part |
| StaleTimer.ClosureSilenceTimeout | src/components/VoiceChat.js:123-132 | the timer callback as written: the guard and the text come from the render that armed it. A send appends to the current log, clears transcript, input and timer, sets the banner as `sendMessage` would, and stops listening only if the arming render was listening; every other field is the current one. With nothing changed since arming, it is exactly `ChatState.SilenceTimeout` |
| StaleTimer.StaleTimerSendsTwice | src/components/VoiceChat.js:123-145 | as written, a stop within 2 seconds of a transcript sends it once, and the timer then sends it again while the first request is in flight |
| StaleTimer.CurrentTimerSendsOnce | src/components/VoiceChat.js:123-145 | with the guard read when the timer fires, the same run sends the text once |
| Widget.VoiceChat.constructor | src/components/VoiceChat.js:11-23 | the fields start in the mount state, within the bound |
| Widget.VoiceChat.StartListening | src/components/VoiceChat.js:154-172 | updates the fields exactly as `ChatState.StartListening` and keeps the bound |
| Widget.VoiceChat.StopListening | src/components/VoiceChat.js:147-152 | updates the fields exactly as `ChatState.StopListening` |
| Widget.VoiceChat.TranscriptChanged | src/components/VoiceChat.js:114-123 | updates the fields exactly as `ChatState.TranscriptChanged` |
| Widget.VoiceChat.TypeInput | src/components/VoiceChat.js:473 | updates the fields exactly as `ChatState.TypeInput` |
| Widget.VoiceChat.BeginSend | src/components/VoiceChat.js:228-251 | updates the fields and returns the request exactly as `ChatState.BeginSend` |
| Widget.VoiceChat.CompleteSend | src/components/VoiceChat.js:253-290 | updates the fields exactly as `ChatState.CompleteSend` |
| Widget.VoiceChat.HandleSendMessage | src/components/VoiceChat.js:293-302 | updates the fields and returns the request exactly as `ChatState.HandleSendMessage` |
| Widget.VoiceChat.HandleKeyPress | src/components/VoiceChat.js:174-183 | updates the fields and returns the request exactly as `ChatState.HandleKeyPress` |
| Widget.VoiceChat.SilenceTimeout | src/components/VoiceChat.js:123-132 | updates the fields and returns the request exactly as `ChatState.SilenceTimeout` |
| Widget.VoiceChat.AutoSendAfterStop | src/components/VoiceChat.js:137-145 | updates the fields and returns the request exactly as `ChatState.AutoSendAfterStop` |
| Widget.VoiceChat.BeginCreateSession | src/components/VoiceChat.js:56-67 | updates the fields and returns the request exactly as `ChatState.BeginCreateSession` |
| Widget.VoiceChat.SelectSearchType | src/components/VoiceChat.js:95-100 | updates the fields and returns the request exactly as `ChatState.SelectSearchType` |
| Widget.VoiceChat.CompleteCreateSession | src/components/VoiceChat.js:69-92 | updates the fields exactly as `ChatState.CompleteCreateSession` |

## Left out

- The HTTP requests are not performed. A request is returned as a value, and
  its outcome is passed to the completion as an `Outcome`. The URLs, the
  headers, the `X-Request-ID` value (built from the clock and `Math.random`)
  and the body's `timestamp` are not modelled. JSON parsing is reduced to the
  one field read, or to a thrown message.
- The speech-recognition library is not modelled. Its support and microphone
  flags are parameters of `StartListening`; the transcript it reports is the
  `Heard` event; starting and stopping the recognizer are not modelled.
- Speech synthesis is not modelled: `speakText`, `stopSpeaking`, voice
  selection and `isSpeaking` are left out. What the speaker button would read
  is `VoiceClickText`.
- Timers are not modelled as time. The 2-second silence timer is a pending
  flag and the `SilenceElapsed` event; clearing and re-arming it is setting
  the flag again.
- React effects and stale closures are not modelled, except the silence
  timer's closure (`StaleTimer`). Every transition of `ChatState`, and so
  every event of `ChatRuns`, runs on the current state. A timer or effect in the component uses the values of
  the render that set it up, and this may differ: a timer armed before a stop
  can still send its transcript. Modelling the effects as events that may
  occur at any time also allows orders that React would not produce.
- ChatRuns.SingleSendInFlight: holds of the atomic model only. In the
  component, the stale silence timer can issue a second request while one is
  in flight; see the finding below and `StaleTimer.StaleTimerSendsTwice`.
- The visibility and blur listeners (lines 201-226) are the `MicOff` event,
  which is `StopListening`.
- The unmount cleanup (lines 186-198) is left out. It clears the timer and
  cancels speech. It does not call the component's `stopListening`, and its
  `isListening` is the mount render's `false`, so it never stops the
  recognizer either.
- The mount effect at lines 46-54 is left out. It sets the state the model
  already starts in.
- Rendering is left out: layout and styles, auto-scroll, the console logging,
  button enabling (lines 475-487) and the no-support fallback (lines 355-357).
  The bot message's rendering is kept as `RenderBot`.
- `ServiceFlowDiagram.js` and `App.js` are not part of this model.
- Strings are sequences of code points. JavaScript strings are UTF-16, and
  the difference does not matter to any operation modelled.
- An `answer` or `session_id` that is not a string, such as a number, is
  outside the model. A missing or null field is `None`.
- ChatState.CompleteCreateSession: takes the request together with its
  outcome, and does not check that it is the request still outstanding. The
  component does not check this either.

## Findings

| source | as written | input that shows it | evidently intended | confidence | as-written member | corrected member |
|---|---|---|---|---|---|---|
| src/components/VoiceChat.js:123-145 | the silence timer's callback checks `transcript`, `sessionId` and `isProcessing` as they were when it was armed, and `stopListening` does not clear it | speak "hello", then press Enter within 2 seconds: the not-listening effect sends "hello", and then the timer sends "hello" again while the first request is in flight | one send per utterance, and never a second request while one is in flight | not executed | StaleTimer.StaleTimerSendsTwice | StaleTimer.CurrentTimerSendsOnce |
