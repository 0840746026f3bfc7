# News-bot chat front end, modelled in Dafny

This project models the React front end of a news-answering chat bot: the
`ChatScreen` controller, the `Message` renderer, the two-click `ResetButton`
and the `MessageInput` box. The model covers these parts:

- `ChatScreen`:
  - the session id kept in the browser's local storage;
  - the message log and its normalisation when history is loaded;
  - the send turn, with its `isLoading`/`isTyping` flags and its delayed
    assistant reply;
  - the error reply;
  - session reset.
- `Message`:
  - how a bot message's text is split at bracketed citation markers such
    as `[2, 3]`, and how the first number of a marker is chosen;
  - citation numbering and the lookup of the anchor a marker scrolls to;
  - the time label.
- `ResetButton`: its confirm/idle state, and its timer, which is never
  cancelled.
- `MessageInput`: submit, Enter-to-send and the send button's enable rule.

Modules:

- `Wrappers`: `Option`.
- `JsText`: the JavaScript string built-ins the components rely on:
  - `trim`, with the ECMAScript white-space set;
  - `parseInt` on non-negative decimal prefixes;
  - decimal printing.
  - `indexOf`, used only to read a session id back in a proof.
- `ChatRecords`: the message record and the constant texts.
- `MessageComponent`, `ChatScreenComponent`, `ResetButtonComponent`,
  `MessageInputComponent`: one per component.

How the models are built:

- Each controller event is a pure transition on a `ChatState` value, such as
  `SendStep` or `ResetStep`. The `ChatScreen` class holds the component's
  state variables, and each of its methods is proved to update them exactly
  as the matching transition does.
- The two small components are classes whose methods update their state in
  place.
- A call to the back-end gateway is recorded in a `gatewayCalls` trace. Its
  outcome arrives as a parameter (`Succeeded(value)` or `Failed`).
- Randomness and clocks are also parameters: the random token and
  `Date.now()` for session ids, and a timestamp for new records.

## Model

| member | source | states |
|---|---|---|
| JsText.Trim | src/components/MessageInput.js:13-14 | `trim` leaves no white space at either end, and gives the empty string exactly when the input is all white space |
| JsText.TrimStartCuts | src/components/MessageInput.js:14 | removing leading white space takes a suffix whose first character is not white space, and only white space is cut |
| JsText.TrimEndCuts | src/components/MessageInput.js:14 | removing trailing white space takes a prefix whose last character is not white space, and only white space is cut |
| JsText.BlankConcat | src/components/ChatScreen.js:74 | a concatenation is blank exactly when both halves are |
| JsText.TrimSplits | src/components/MessageInput.js:14 | a trimmed string sits between a blank head and a blank tail of the original |
| JsText.TrimKeepsMiddle | src/components/MessageInput.js:14 | `trim` removes only white space: the input is the result with blank text before and after |
| JsText.TrimIdempotent | src/components/MessageInput.js:13-14 | trimming twice is the same as trimming once |
| JsText.DigitValue | src/components/Message.js:66 | a decimal digit denotes a value below ten |
| JsText.DigitChar | src/components/ChatScreen.js:40 | each value below ten has a digit character that denotes it |
| JsText.NatToDecimal | src/components/ChatScreen.js:40 | `Date.now()` is printed as a non-empty digit string without leading zeros that denotes the number |
| JsText.LeadingDigits | src/components/Message.js:66 | `parseInt` reads the longest prefix made of decimal digits: a digit-only prefix of the input, followed by the end or by a non-digit |
| JsText.ParseInt | src/components/Message.js:66 | `parseInt` gives NaN exactly when no digit follows the leading white space, and otherwise the value of the leading digit run |
| ChatScreenComponent.GenerateSessionId | src/components/ChatScreen.js:39-41 | a generated id starts with `session_` and is never empty (so it is truthy) |
| ChatScreenComponent.SessionIdRoundTrip | src/components/ChatScreen.js:40 | the random token and the millisecond clock can be read back from the id they built |
| ChatScreenComponent.UserMessage | src/components/ChatScreen.js:77-82 | the user's record carries the untrimmed text, the role `user`, the clock and the timestamp, no citations and no error flag; a non-empty one is unchanged by history normalisation |
| ChatScreenComponent.ReplyMessage | src/components/ChatScreen.js:95-101 | the assistant's record carries the gateway's reply, id clock + 1, and the gateway's citations, or an empty list when it gave none (`response.citations \|\| []`) |
| ChatScreenComponent.ErrorMessage | src/components/ChatScreen.js:112-118 | the error reply is an assistant record with the fixed apology text, `isError` set and no citations; it is unchanged by history normalisation |
| ChatScreenComponent.StoredSessionId | src/components/ChatScreen.js:20 | `localStorage.getItem` gives the value stored under `news-session-id`, or `null` when there is none |
| ChatScreenComponent.NormaliseRecord | src/components/ChatScreen.js:52-56 | a stored record gets a truthy timestamp (its own or now) and a truthy text, falling back from `text` to `content` to `message` to the placeholder; no other field changes |
| ChatScreenComponent.NormaliseHistory | src/components/ChatScreen.js:52-56 | the loaded log has one normalised record per stored record, in order |
| ChatScreenComponent.Mounted | src/components/ChatScreen.js:12-15 | the freshly mounted component is idle, has an empty log and no session, and satisfies the controller invariant |
| ChatScreenComponent.StartupStep | src/components/ChatScreen.js:19-31 | a truthy stored id is restored and its history requested; otherwise a new id is generated and persisted; either way the session id equals the stored one |
| ChatScreenComponent.HistoryLoadedStep | src/components/ChatScreen.js:44-64 | only a successful, non-empty history replaces the log, by its normalised records; a failure or an empty list changes nothing |
| ChatScreenComponent.SendStep | src/components/ChatScreen.js:72-92 | blank text or an unfinished send changes nothing; otherwise the user record is appended, both flags go up and one gateway request goes out with the current session id; the invariant is kept |
| ChatScreenComponent.GatewayRepliedStep | src/components/ChatScreen.js:91-94 | the gateway's answer is held until the delay timer fires, and nothing else changes |
| ChatScreenComponent.ReplyShownStep | src/components/ChatScreen.js:94-107 | when the delay ends the assistant record is appended and both flags go down |
| ChatScreenComponent.SendFailedStep | src/components/ChatScreen.js:109-123 | a failed send appends the error reply and lowers both flags, with no retry |
| ChatScreenComponent.ResetStep | src/components/ChatScreen.js:127-143 | without a truthy session nothing happens; otherwise a reset request goes out, and only a successful one clears the log and installs and persists a new id; a failed one changes nothing else |
| ChatScreenComponent.SendTurnAppendsExchange | src/components/ChatScreen.js:72-107 | an accepted send that the gateway answers turns the log L into L + [user, assistant] and leaves every other field as it was |
| ChatScreenComponent.FailedTurnAppendsError | src/components/ChatScreen.js:72-123 | an accepted send whose request fails turns L into L + [user, error reply] |
| ChatScreenComponent.SendIsNotReentrant | src/components/ChatScreen.js:74 | while a send is unfinished every further send is a no-op |
| ChatScreenComponent.SendKeepsEarlierRecords | src/components/ChatScreen.js:85 | a send only appends: earlier records are never rewritten |
| ChatScreenComponent.SubmittedTextIsSent | src/components/ChatScreen.js:167 | with the box disabled while loading, any text the box submits is accepted and logged trimmed |
| ChatScreenComponent.ResetAfterStartupCallsGateway | src/components/ChatScreen.js:128 | after the mount effect a reset always reaches the gateway |
| ChatScreenComponent.ChatScreen.constructor | src/components/ChatScreen.js:12-15 | the component starts in the mounted state |
| ChatScreenComponent.ChatScreen.Startup | src/components/ChatScreen.js:19-31 | the mount effect updates the state as `StartupStep` says, and reports whether history must be fetched |
| ChatScreenComponent.ChatScreen.LoadSessionHistory | src/components/ChatScreen.js:44-64 | updates the state as `HistoryLoadedStep` says and keeps the invariant |
| ChatScreenComponent.ChatScreen.HandleSendMessage | src/components/ChatScreen.js:72-92 | updates the state as `SendStep` says and keeps the invariant |
| ChatScreenComponent.ChatScreen.OnSendSucceeded | src/components/ChatScreen.js:91-94 | updates the state as `GatewayRepliedStep` says |
| ChatScreenComponent.ChatScreen.OnReplyDelayElapsed | src/components/ChatScreen.js:94-107 | updates the state as `ReplyShownStep` says |
| ChatScreenComponent.ChatScreen.OnSendFailed | src/components/ChatScreen.js:109-123 | updates the state as `SendFailedStep` says |
| ChatScreenComponent.ChatScreen.HandleResetSession | src/components/ChatScreen.js:127-143 | updates the state as `ResetStep` says and keeps the invariant |
| MessageComponent.MarkerRun | src/components/Message.js:57 | the greedy run of `[\d,\s]` characters from a position: all of them match the class, and the next character does not |
| MessageComponent.MatchAt | src/components/Message.js:57 | the regex matches at a position exactly when it returns an end, and no match starts there when it returns none |
| MessageComponent.MatchEndsAtRun | src/components/Message.js:57 | a match must consume the whole greedy run and end at `]` right after it |
| MessageComponent.SplitFrom | src/components/Message.js:59 | splitting yields an odd number of parts, and every odd part is a non-empty marker body |
| MessageComponent.SplitOnMarkers | src/components/Message.js:59 | the same for the whole text |
| MessageComponent.SplitFromRebuilds | src/components/Message.js:59 | putting brackets back around the odd parts rebuilds the text being split |
| MessageComponent.SplitOnMarkersRebuilds | src/components/Message.js:59 | splitting loses no text: parts with the markers' brackets give back the message |
| MessageComponent.MatchInSlice | src/components/Message.js:59 | a match inside a slice is a match in the whole text |
| MessageComponent.SplitFromTextHasNoMarker | src/components/Message.js:59 | no even part of the split contains a marker |
| MessageComponent.SplitOnMarkersTextHasNoMarker | src/components/Message.js:59 | every marker of the message was split out: no plain-text part contains one |
| MessageComponent.SplitOnComma | src/components/Message.js:66 | `split(',')` gives at least one piece and no piece contains a comma |
| MessageComponent.SplitOnCommaJoins | src/components/Message.js:66 | joining the pieces with commas gives back the marker body |
| MessageComponent.ParsedNumbers | src/components/Message.js:66 | keeping only the pieces that parse yields at most one number per piece |
| MessageComponent.MarkerTarget | src/components/Message.js:67 | `numbers[0]`: a marker has a target exactly when one of its pieces parsed, and the target is one of its numbers |
| MessageComponent.FirstParsedNumber | src/components/Message.js:66-67 | no number is kept exactly when no piece parses; otherwise the first kept number is the first piece that parses |
| MessageComponent.MarkerTargetIsFirstNumber | src/components/Message.js:66-67 | a marker scrolls to the first number that parses after trimming, and has no target when none does |
| MessageComponent.RenderPart | src/components/Message.js:64-81 | a part at an odd index becomes a clickable marker that keeps the part and targets its first number; a part at an even index stays plain text |
| MessageComponent.RenderParts | src/components/Message.js:62-81 | one segment per part: a marker targeting `MarkerTarget(part)` at odd indices, the part as plain text at even ones |
| MessageComponent.RenderMessageText | src/components/Message.js:49-83 | user text and empty text are shown as a single plain segment; other text is split at its citation markers, each rendered as a marker targeting its first number |
| MessageComponent.RenderPartsShowsRebuild | src/components/Message.js:62-81 | the rendered segments show `[part]` at odd indices and the part itself at even ones |
| MessageComponent.RenderShowsText | src/components/Message.js:49-83 | rendering never changes the visible text: markers are shown with their brackets |
| MessageComponent.MessageBody | src/components/Message.js:88-91 | a truthy text is shown through `renderMessageText`, with its markers for an assistant; otherwise the placeholder is shown as plain text; the visible characters are the text or the placeholder |
| MessageComponent.CitationNumber | src/components/Message.js:97-103 | a citation's number is its own when that is truthy, else its 1-based position, and never 0 |
| MessageComponent.FindSource | src/components/Message.js:34-35 | the first citation of a message with the wanted number, or none |
| MessageComponent.FindAnchor | src/components/Message.js:34-35 | the first anchor in document order with the wanted message id and number, or none |
| MessageComponent.ScrollToCitation | src/components/Message.js:32-46 | a click finds an anchor with the message id and number; it finds none exactly when the marker has no number or no such anchor exists |
| MessageComponent.ClickResolvesWithinMessage | src/components/Message.js:32-46 | with unique message ids, a marker's click lands on a source of the same message when that message lists the number |
| MessageComponent.FormatTime | src/components/Message.js:12-29 | "Just now" exactly when the timestamp is missing, empty or unparsable; otherwise the parsed instant |
| ResetButtonComponent.ResetNeedsTwoClicks | src/components/ResetButton.js:8-20 | a reset happens at a click exactly when the previous event was a click that did not reset |
| ResetButtonComponent.TwoClicksPerReset | src/components/ResetButton.js:8-20 | every reset costs two clicks of its own, and a pending confirmation one more |
| ResetButtonComponent.Label | src/components/ResetButton.js:41-55 | the button reads "Confirm Reset" exactly while confirming and "Reset" exactly while idle |
| ResetButtonComponent.Title | src/components/ResetButton.js:27 | the tooltip reads "Click again to confirm" exactly while confirming and "Reset conversation" exactly while idle |
| ResetButtonComponent.LabelShowsState | src/components/ResetButton.js:27-55 | the button's text and tooltip tell the two states apart |
| ResetButtonComponent.ResetButton.constructor | src/components/ResetButton.js:6 | the button starts idle with no timer armed |
| ResetButtonComponent.ResetButton.HandleClick | src/components/ResetButton.js:8-20 | a click while confirming calls `onReset` and goes idle; a click while idle starts confirming and arms one timer |
| ResetButtonComponent.ResetButton.OnTimeout | src/components/ResetButton.js:17-19 | any armed timer returns the button to idle |
| ResetButtonComponent.StaleTimerCancelsNewConfirmation | src/components/ResetButton.js:17-19 | the timer of an earlier first click, never cancelled, ends a later confirmation early |
| MessageInputComponent.SubmitResult | src/components/MessageInput.js:10-17 | a submit sends exactly when the text is not blank and input is enabled, and what it sends is the trimmed text, non-blank |
| MessageInputComponent.SendButtonDisabled | src/components/MessageInput.js:57 | the send button is disabled exactly when the text is blank or input is disabled |
| MessageInputComponent.SendButtonMatchesSubmit | src/components/MessageInput.js:57 | the send button is enabled exactly when a submit would send |
| MessageInputComponent.MessageInput.constructor | src/components/MessageInput.js:6 | the box starts empty |
| MessageInputComponent.MessageInput.HandleSubmit | src/components/MessageInput.js:10-17 | sends what `SubmitResult` says, and clears the buffer exactly when it sends |
| MessageInputComponent.MessageInput.HandleKeyPress | src/components/MessageInput.js:20-25 | Enter without Shift submits; any other key sends nothing and keeps the buffer |
| MessageInputComponent.MessageInput.HandleChange | src/components/MessageInput.js:28-30 | the buffer becomes the text box's value |

## Left out

- The gateway's HTTP and JSON layer (`src/services/api.js`) is not modelled. Each request is recorded, and its outcome is a parameter. A non-ok status and a network error are one `Failed` outcome, because both reach the component as an exception.
- `ChatScreenComponent.ResetStep`: a failed reset request leaves the log and the session id as they were. `resetSession` rethrows (src/services/api.js:61-64), and the catch in `handleResetSession` only logs (src/components/ChatScreen.js:140-142).
- `Math.random()` and `Date.now()` are parameters: a base-36 token of at most nine characters, and a millisecond count. Two generated ids are therefore not proved distinct.
- The reply delay (`1000 + Math.random() * 2000` ms, a random one to three seconds), the 3000 ms reset timer and `setTimeout` scheduling are not modelled as time. They are events: `OnReplyDelayElapsed`, and `OnTimeout` for each armed timer. Any order of such events is allowed. React's batching of state updates is not modelled.
- Events may arrive in any order their preconditions allow, and each is applied to the state current when it arrives. A reset while a send is pending, or a history load that completes after a reset, behaves as in the code. What is not modelled is a handler reading `isLoading` or `sessionId` from the render that created it (src/components/ChatScreen.js:74, 91, 128) after a later event has changed them. An example is two sends in the same render, which would both pass the guard.
- `ChatScreenComponent.ChatReply`: a successful send whose JSON body is `null` (src/services/api.js:24) cannot be represented. In the code the delayed callback then throws reading `response.reply` (src/components/ChatScreen.js:94-100), outside the `try`. No record is appended, and `isLoading` and `isTyping` stay up for good, so the turn never finishes. In the model every successful send ends in `ReplyShownStep`.
- `ChatScreenComponent.HistoryLoadedStep`: in `ChatRecords.Record`, `text`, `content`, `message` and `timestamp` are optional strings. `id` is always an integer, `role` is always a string, `isError` is a boolean and `citations` is an optional list. A history record with no `id` or `role`, with a non-integer `id`, or with a non-string value in a text field cannot be represented. One instant `now` stands for every `new Date().toISOString()` the normalisation evaluates, although the code evaluates it once per record whose timestamp is falsy (src/components/ChatScreen.js:54), so those records may get different instants.
- `JsText.ParseInt` reads a run of decimal digits after leading white space. It does not model a sign, a `0x` prefix, a radix, or precision limits on very long numbers. The citation regex only lets digits, commas and white space reach it, so a sign or `0x` cannot occur there.
- The anchor id `citation-<id>-<number>` is modelled as the pair (message id, number). For numeric ids two distinct pairs always give distinct strings. A clash that only non-numeric ids loaded from history could cause is not modelled. The first anchor in document order is found, as `getElementById` does.
- Scrolling, the two-second highlight and other DOM effects of `scrollToCitation` are left out. The model stops at the anchor that would be scrolled to.
- `MessageComponent.FormatTime`: `new Date(...)` parsing is a parameter function. `toLocaleTimeString` formatting is left out (the result is the parsed instant).
- The relevance score percentage, which is floating point, is not modelled. The other markup, such as the typing indicator, the list and the textarea auto-resize, is not modelled either.
- Console logging is not modelled.
