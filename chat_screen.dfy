/**
 * The conversation controller (src/components/ChatScreen.js): the message
 * log, the session id and its persistence, and the two busy flags, driven by
 * mount, history loading, sending, the gateway's answers and reset.
 *
 * Each event is a pure transition on `ChatState`, which carries the proved
 * properties; class `ChatScreen` updates its fields step by step as the
 * component does and is proved to perform exactly that transition. The
 * backend gateway, the clock and `Math.random` are inputs of the events.
 */
module ChatScreenComponent {

  import opened Wrappers
  import opened JsText
  import opened ChatRecords
  import MessageInputComponent

  /** The `localStorage` key of the session id. */
  const SessionKey: string := "news-session-id"

  /** The constant prefix of a generated session id. */
  const SessionPrefix: string := "session_"

  // ---------------------------------------------------------------------
  // generateSessionId
  // ---------------------------------------------------------------------

  predicate IsBase36Digit(c: char) {
    IsDigit(c) || 'a' <= c <= 'z'
  }

  /** What `Math.random().toString(36).substr(2, 9)` can produce: at most nine base-36 digits. */
  predicate IsRandomToken(token: string) {
    |token| <= 9 && forall i :: 0 <= i < |token| ==> IsBase36Digit(token[i])
  }

  /** `'session_' + token + '_' + Date.now()`. */
  function GenerateSessionId(token: string, nowMs: nat): (id: string)
    ensures SessionPrefix <= id
    ensures Truthy(Some(id))
  {
    SessionPrefix + token + "_" + NatToDecimal(nowMs)
  }

  /** Reads a generated session id back into its random token and creation time. */
  function ParseSessionId(id: string): Option<(string, nat)> {
    if |id| < |SessionPrefix| || id[..|SessionPrefix|] != SessionPrefix then None
    else
      var rest := id[|SessionPrefix|..];
      match IndexOf(rest, '_')
      case None => None
      case Some(i) =>
        var digits := rest[i + 1..];
        if digits != [] && AllDigits(digits) then Some((rest[..i], DecimalValue(digits))) else None
  }

  /** Round trip: a generated id determines the token and the time it was made from. */
  lemma SessionIdRoundTrip(token: string, nowMs: nat)
    requires IsRandomToken(token)
    ensures ParseSessionId(GenerateSessionId(token, nowMs)) == Some((token, nowMs))
  {
    var id := GenerateSessionId(token, nowMs);
    var digits := NatToDecimal(nowMs);
    var rest := id[|SessionPrefix|..];
    assert rest == token + "_" + digits;
    assert '_' !in token;
    assert rest[|token|] == '_';
    assert rest[..|token|] == token;
    assert IndexOf(rest, '_') == Some(|token|);
    assert rest[|token| + 1..] == digits;
  }

  // ---------------------------------------------------------------------
  // Records the controller creates
  // ---------------------------------------------------------------------

  /**
   * The optimistic record of the user's own message. A non-empty message
   * needs no normalisation: reloading it from history shows it unchanged.
   */
  function UserMessage(text: string, nowMs: int, now: IsoTimestamp): (m: Record)
    ensures m.id == nowMs && m.role == UserRole && m.text == Some(text) && m.timestamp == Some(now)
    ensures !m.isError && m.citations.None?
    ensures text != [] ==> forall later: IsoTimestamp :: NormaliseRecord(m, later) == m
  {
    Record(nowMs, UserRole, Some(text), None, None, Some(now), None, false)
  }

  /** What the gateway's send operation answers on success. */
  datatype ChatReply = ChatReply(reply: Option<string>, citations: Option<seq<Citation>>)

  /**
   * The assistant's reply, built from the gateway's answer: it always lists
   * citations, the gateway's or none.
   */
  function ReplyMessage(response: ChatReply, nowMs: int, now: IsoTimestamp): (m: Record)
    ensures m.id == nowMs + 1 && m.role == AssistantRole && m.text == response.reply && m.timestamp == Some(now)
    ensures !m.isError && m.citations.Some?
    ensures response.citations.Some? ==> m.citations == response.citations
    ensures response.citations.None? ==> m.citations == Some([])
  {
    Record(nowMs + 1, AssistantRole, response.reply, None, None, Some(now),
      Some(response.citations.GetOr([])), false)
  }

  /** The synthetic reply that reports a failed send; it is already normal. */
  function ErrorMessage(nowMs: int, now: IsoTimestamp): (m: Record)
    ensures m.id == nowMs + 1 && m.role == AssistantRole && m.timestamp == Some(now)
    ensures m.isError && m.text == Some(ErrorReply) && m.citations.None?
    ensures forall later: IsoTimestamp :: NormaliseRecord(m, later) == m
  {
    Record(nowMs + 1, AssistantRole, Some(ErrorReply), None, None, Some(now), None, true)
  }

  // ---------------------------------------------------------------------
  // loadSessionHistory's normalisation
  // ---------------------------------------------------------------------

  /** `a || b` on optional strings. */
  function Or(a: Option<string>, b: Option<string>): Option<string> {
    if Truthy(a) then a else b
  }

  /**
   * `{...message, timestamp: message.timestamp || now, text: message.text ||
   * message.content || message.message || placeholder}`.
   */
  function NormaliseRecord(m: Record, now: IsoTimestamp): (r: Record)
    ensures Truthy(r.timestamp) && Truthy(r.text)
    ensures Truthy(m.timestamp) ==> r.timestamp == m.timestamp
    ensures !Truthy(m.timestamp) ==> r.timestamp == Some(now)
    ensures Truthy(m.text) ==> r.text == m.text
    ensures !Truthy(m.text) && Truthy(m.content) ==> r.text == m.content
    ensures !Truthy(m.text) && !Truthy(m.content) && Truthy(m.message) ==> r.text == m.message
    ensures !Truthy(m.text) && !Truthy(m.content) && !Truthy(m.message) ==> r.text == Some(ContentPlaceholder)
    ensures r.(timestamp := m.timestamp, text := m.text) == m
  {
    m.(timestamp := Or(m.timestamp, Some(now)),
       text := Or(m.text, Or(m.content, Or(m.message, Some(ContentPlaceholder)))))
  }

  /** `history.messages.map(normalise)`. */
  function NormaliseHistory(ms: seq<Record>, now: IsoTimestamp): (rs: seq<Record>)
    ensures |rs| == |ms|
    ensures forall i :: 0 <= i < |ms| ==> rs[i] == NormaliseRecord(ms[i], now)
  {
    seq(|ms|, i requires 0 <= i < |ms| => NormaliseRecord(ms[i], now))
  }

  // ---------------------------------------------------------------------
  // The controller's state and its events
  // ---------------------------------------------------------------------

  /** A request the controller has made of the backend gateway. */
  datatype GatewayCall =
    | SendMessageCall(forSession: Option<string>, message: string)
    | HistoryCall(session: string)
    | ResetCall(session: string)

  /** How a gateway request ended: with the parsed response, or by throwing. */
  datatype GatewayResult<+T> = Succeeded(value: T) | Failed

  /** The body of a history response; `messages` may be absent. */
  datatype HistoryPayload = HistoryPayload(messages: Option<seq<Record>>)

  /**
   * Where an unfinished `handleSendMessage` stands: awaiting the gateway, or
   * holding its reply until the cosmetic delay's timer fires.
   */
  datatype Turn = NoTurn | AwaitingGateway | ReplyDelayed(response: ChatReply)

  /** The component's state, the browser's local storage, and the requests made so far. */
  datatype ChatState = ChatState(
    messages: seq<Record>,
    sessionId: Option<string>,
    isLoading: bool,
    isTyping: bool,
    storage: map<string, string>,
    gatewayCalls: seq<GatewayCall>,
    turn: Turn)

  /**
   * The controller's invariant: both flags are up exactly while a send is
   * unfinished, and a session id, once set, is the one persisted.
   */
  predicate Consistent(st: ChatState) {
    && st.isLoading == (st.turn != NoTurn)
    && st.isTyping == st.isLoading
    && (st.sessionId.Some? ==> SessionKey in st.storage && st.storage[SessionKey] == st.sessionId.value)
  }

  /** The state right after the component mounts, before its first effect runs. */
  function Mounted(storage: map<string, string>): (st: ChatState)
    ensures Consistent(st)
  {
    ChatState([], None, false, false, storage, [], NoTurn)
  }

  /** `localStorage.getItem(SessionKey)`: `null` is `None`. */
  function StoredSessionId(storage: map<string, string>): (stored: Option<string>)
    ensures stored.Some? <==> SessionKey in storage
    ensures stored.Some? ==> stored.value == storage[SessionKey]
  {
    if SessionKey in storage then Some(storage[SessionKey]) else None
  }

  /**
   * The mount effect: a truthy stored id is restored verbatim and its history
   * requested; otherwise a new id is generated and persisted.
   */
  function StartupStep(st: ChatState, token: string, nowMs: nat): (r: ChatState)
    ensures Consistent(st) ==> Consistent(r)
    ensures r.messages == st.messages && r.turn == st.turn
    ensures r.isLoading == st.isLoading && r.isTyping == st.isTyping
    ensures Truthy(r.sessionId) && SessionKey in r.storage && r.storage[SessionKey] == r.sessionId.value
    ensures Truthy(StoredSessionId(st.storage)) ==>
      && r.sessionId == StoredSessionId(st.storage) && r.storage == st.storage
      && r.gatewayCalls == st.gatewayCalls + [HistoryCall(r.sessionId.value)]
    ensures !Truthy(StoredSessionId(st.storage)) ==>
      && r.sessionId == Some(GenerateSessionId(token, nowMs))
      && r.storage == st.storage[SessionKey := r.sessionId.value]
      && r.gatewayCalls == st.gatewayCalls
  {
    var stored := StoredSessionId(st.storage);
    if Truthy(stored) then
      st.(sessionId := stored, gatewayCalls := st.gatewayCalls + [HistoryCall(stored.value)])
    else
      var id := GenerateSessionId(token, nowMs);
      st.(sessionId := Some(id), storage := st.storage[SessionKey := id])
  }

  /**
   * `loadSessionHistory` completing: a non-empty message list replaces the log
   * with its normalised records; an absent or empty list, or a failed
   * request, leaves everything as it was.
   */
  function HistoryLoadedStep(st: ChatState, result: GatewayResult<HistoryPayload>, now: IsoTimestamp): (r: ChatState)
    ensures Consistent(st) ==> Consistent(r)
    ensures r.(messages := st.messages) == st
    ensures result.Failed? || result.value.messages.None? || result.value.messages.value == [] ==> r == st
    ensures result.Succeeded? && result.value.messages.Some? && result.value.messages.value != [] ==>
      var history := result.value.messages.value;
      && |r.messages| == |history|
      && forall i :: 0 <= i < |history| ==> r.messages[i] == NormaliseRecord(history[i], now)
  {
    if result.Succeeded? && result.value.messages.Some? && |result.value.messages.value| > 0 then
      st.(messages := NormaliseHistory(result.value.messages.value, now))
    else st
  }

  /**
   * The synchronous part of `handleSendMessage`: unless the text is blank or
   * a send is unfinished, append the user's message, raise both flags and
   * ask the gateway.
   */
  function SendStep(st: ChatState, text: string, nowMs: int, now: IsoTimestamp): (r: ChatState)
    ensures Consistent(st) ==> Consistent(r)
    ensures IsBlank(text) || st.isLoading ==> r == st
    ensures !IsBlank(text) && !st.isLoading ==>
      && r.messages == st.messages + [UserMessage(text, nowMs, now)]
      && r.isLoading && r.isTyping && r.turn == AwaitingGateway
      && r.gatewayCalls == st.gatewayCalls + [SendMessageCall(st.sessionId, text)]
      && r.sessionId == st.sessionId && r.storage == st.storage
  {
    if Trim(text) == [] || st.isLoading then st
    else
      st.(messages := st.messages + [UserMessage(text, nowMs, now)],
          isLoading := true,
          isTyping := true,
          gatewayCalls := st.gatewayCalls + [SendMessageCall(st.sessionId, text)],
          turn := AwaitingGateway)
  }

  /** The gateway answered a send: the reply waits for the delay timer; nothing visible changes. */
  function GatewayRepliedStep(st: ChatState, response: ChatReply): (r: ChatState)
    requires st.turn == AwaitingGateway
    ensures Consistent(st) ==> Consistent(r)
    ensures r.turn == ReplyDelayed(response)
    ensures r.(turn := st.turn) == st
  {
    st.(turn := ReplyDelayed(response))
  }

  /** The delay timer fired: the assistant's reply is appended and both flags drop. */
  function ReplyShownStep(st: ChatState, nowMs: int, now: IsoTimestamp): (r: ChatState)
    requires st.turn.ReplyDelayed?
    ensures Consistent(st) ==> Consistent(r)
    ensures r.messages == st.messages + [ReplyMessage(st.turn.response, nowMs, now)]
    ensures !r.isLoading && !r.isTyping && r.turn == NoTurn
    ensures r.sessionId == st.sessionId && r.storage == st.storage && r.gatewayCalls == st.gatewayCalls
  {
    st.(messages := st.messages + [ReplyMessage(st.turn.response, nowMs, now)],
        isTyping := false,
        isLoading := false,
        turn := NoTurn)
  }

  /** The send request threw: the error reply is appended and both flags drop. No retry. */
  function SendFailedStep(st: ChatState, nowMs: int, now: IsoTimestamp): (r: ChatState)
    requires st.turn == AwaitingGateway
    ensures Consistent(st) ==> Consistent(r)
    ensures r.messages == st.messages + [ErrorMessage(nowMs, now)]
    ensures !r.isLoading && !r.isTyping && r.turn == NoTurn
    ensures r.sessionId == st.sessionId && r.storage == st.storage && r.gatewayCalls == st.gatewayCalls
  {
    st.(messages := st.messages + [ErrorMessage(nowMs, now)],
        isTyping := false,
        isLoading := false,
        turn := NoTurn)
  }

  /**
   * `handleResetSession`: without a session id nothing happens. Otherwise the
   * gateway is asked to reset; only if it succeeds is the log cleared and a
   * new id installed and persisted. A failed reset is only logged.
   */
  function ResetStep(st: ChatState, result: GatewayResult<()>, token: string, nowMs: nat): (r: ChatState)
    ensures Consistent(st) ==> Consistent(r)
    ensures !Truthy(st.sessionId) ==> r == st
    ensures Truthy(st.sessionId) ==> r.gatewayCalls == st.gatewayCalls + [ResetCall(st.sessionId.value)]
    ensures Truthy(st.sessionId) && result.Failed? ==> r == st.(gatewayCalls := r.gatewayCalls)
    ensures Truthy(st.sessionId) && result.Succeeded? ==>
      && r.messages == []
      && r.sessionId == Some(GenerateSessionId(token, nowMs))
      && r.storage == st.storage[SessionKey := r.sessionId.value]
      && r.isLoading == st.isLoading && r.isTyping == st.isTyping && r.turn == st.turn
  {
    if !Truthy(st.sessionId) then st
    else
      var called := st.(gatewayCalls := st.gatewayCalls + [ResetCall(st.sessionId.value)]);
      if result.Failed? then called
      else
        var id := GenerateSessionId(token, nowMs);
        called.(messages := [], sessionId := Some(id), storage := st.storage[SessionKey := id])
  }

  // ---------------------------------------------------------------------
  // Properties of whole turns
  // ---------------------------------------------------------------------

  /**
   * A send that the guard lets through and that the gateway answers turns the
   * log L into L + [user, assistant]; the flags are down again afterwards.
   */
  lemma SendTurnAppendsExchange(st: ChatState, text: string, response: ChatReply,
                                sentMs: int, sent: IsoTimestamp, shownMs: int, shown: IsoTimestamp)
    requires Consistent(st) && !st.isLoading && !IsBlank(text)
    ensures var r := ReplyShownStep(GatewayRepliedStep(SendStep(st, text, sentMs, sent), response), shownMs, shown);
      && r.messages == st.messages + [UserMessage(text, sentMs, sent), ReplyMessage(response, shownMs, shown)]
      && r.gatewayCalls == st.gatewayCalls + [SendMessageCall(st.sessionId, text)]
      && r == st.(messages := r.messages, gatewayCalls := r.gatewayCalls)
  {
    var s1 := SendStep(st, text, sentMs, sent);
    var r := ReplyShownStep(GatewayRepliedStep(s1, response), shownMs, shown);
    assert st.messages + [UserMessage(text, sentMs, sent)] + [ReplyMessage(response, shownMs, shown)]
        == st.messages + [UserMessage(text, sentMs, sent), ReplyMessage(response, shownMs, shown)];
  }

  /** The same for a send whose request fails: L becomes L + [user, error reply]. */
  lemma FailedTurnAppendsError(st: ChatState, text: string,
                               sentMs: int, sent: IsoTimestamp, failedMs: int, failed: IsoTimestamp)
    requires Consistent(st) && !st.isLoading && !IsBlank(text)
    ensures var r := SendFailedStep(SendStep(st, text, sentMs, sent), failedMs, failed);
      && r.messages == st.messages + [UserMessage(text, sentMs, sent), ErrorMessage(failedMs, failed)]
      && r == st.(messages := r.messages, gatewayCalls := st.gatewayCalls + [SendMessageCall(st.sessionId, text)])
  {
    var s1 := SendStep(st, text, sentMs, sent);
    assert st.messages + [UserMessage(text, sentMs, sent)] + [ErrorMessage(failedMs, failed)]
        == st.messages + [UserMessage(text, sentMs, sent), ErrorMessage(failedMs, failed)];
  }

  /**
   * While a send is unfinished, whether still awaiting the gateway or
   * holding its reply, every further send is a no-op: no second request
   * goes out.
   */
  lemma SendIsNotReentrant(st: ChatState, text: string, nowMs: int, now: IsoTimestamp)
    requires Consistent(st) && st.turn != NoTurn
    ensures SendStep(st, text, nowMs, now) == st
  {
  }

  /** A send appends to the log and never rewrites an earlier record. */
  lemma SendKeepsEarlierRecords(st: ChatState, text: string, nowMs: int, now: IsoTimestamp)
    ensures var r := SendStep(st, text, nowMs, now);
      |st.messages| <= |r.messages| && r.messages[..|st.messages|] == st.messages
  {
  }

  /**
   * The message box is wired with `disabled={isLoading}`: whatever a submit
   * passes on is accepted by `handleSendMessage`, and the user record shows
   * the trimmed text.
   */
  lemma SubmittedTextIsSent(st: ChatState, buffer: string, nowMs: int, now: IsoTimestamp)
    requires Consistent(st)
    requires MessageInputComponent.SubmitResult(buffer, st.isLoading).Some?
    ensures var text := MessageInputComponent.SubmitResult(buffer, st.isLoading).value;
      && text == Trim(buffer)
      && SendStep(st, text, nowMs, now).messages == st.messages + [UserMessage(Trim(buffer), nowMs, now)]
      && SendStep(st, text, nowMs, now).turn == AwaitingGateway
  {
  }

  /** Once the mount effect has run there is always a session id, so a reset always reaches the gateway. */
  lemma ResetAfterStartupCallsGateway(st: ChatState, token: string, nowMs: nat,
                                      result: GatewayResult<()>, token2: string, nowMs2: nat)
    ensures var s1 := StartupStep(st, token, nowMs);
      ResetStep(s1, result, token2, nowMs2).gatewayCalls == s1.gatewayCalls + [ResetCall(s1.sessionId.value)]
  {
  }

  // ---------------------------------------------------------------------
  // The component
  // ---------------------------------------------------------------------

  /** The `ChatScreen` component: its state variables, updated one event at a time. */
  class ChatScreen {
    var messages: seq<Record>
    var sessionId: Option<string>
    var isLoading: bool
    var isTyping: bool
    /** The browser's `localStorage`, as seen by this component. */
    var storage: map<string, string>
    /** The requests made of the backend gateway, in order. */
    var gatewayCalls: seq<GatewayCall>
    /** The continuation of an unfinished `handleSendMessage`. */
    var turn: Turn

    function State(): ChatState
      reads this
    {
      ChatState(messages, sessionId, isLoading, isTyping, storage, gatewayCalls, turn)
    }

    ghost predicate Valid()
      reads this
    {
      Consistent(State())
    }

    /** `useState` initial values. */
    constructor (storage: map<string, string>)
      ensures Valid() && State() == Mounted(storage)
    {
      messages := [];
      sessionId := None;
      isLoading := false;
      isTyping := false;
      this.storage := storage;
      gatewayCalls := [];
      turn := NoTurn;
    }

    /** The mount effect; `fetchHistory` says whether `loadSessionHistory` was started. */
    method Startup(token: string, nowMs: nat) returns (fetchHistory: bool)
      requires Valid()
      modifies this
      ensures Valid() && State() == StartupStep(old(State()), token, nowMs)
      ensures fetchHistory == Truthy(StoredSessionId(old(storage)))
    {
      var storedSessionId := StoredSessionId(storage);
      fetchHistory := Truthy(storedSessionId);
      if fetchHistory {
        sessionId := storedSessionId;
        gatewayCalls := gatewayCalls + [HistoryCall(storedSessionId.value)];
      } else {
        var newSessionId := GenerateSessionId(token, nowMs);
        sessionId := Some(newSessionId);
        storage := storage[SessionKey := newSessionId];
      }
    }

    /** The history request of `loadSessionHistory` has completed with `result`. */
    method LoadSessionHistory(result: GatewayResult<HistoryPayload>, now: IsoTimestamp)
      requires Valid()
      modifies this
      ensures Valid() && State() == HistoryLoadedStep(old(State()), result, now)
    {
      if result.Succeeded? && result.value.messages.Some? && |result.value.messages.value| > 0 {
        messages := NormaliseHistory(result.value.messages.value, now);
      }
    }

    /** `handleSendMessage(messageText)` up to its `await`. */
    method HandleSendMessage(messageText: string, nowMs: int, now: IsoTimestamp)
      requires Valid()
      modifies this
      ensures Valid() && State() == SendStep(old(State()), messageText, nowMs, now)
    {
      if Trim(messageText) == [] || isLoading {
        return;
      }
      var userMessage := UserMessage(messageText, nowMs, now);
      messages := messages + [userMessage];
      isLoading := true;
      isTyping := true;
      gatewayCalls := gatewayCalls + [SendMessageCall(sessionId, messageText)];
      turn := AwaitingGateway;
    }

    /** The send request resolved with `response`; the delay timer is armed. */
    method OnSendSucceeded(response: ChatReply)
      requires Valid() && turn == AwaitingGateway
      modifies this
      ensures Valid() && State() == GatewayRepliedStep(old(State()), response)
    {
      turn := ReplyDelayed(response);
    }

    /** The delay timer's callback. */
    method OnReplyDelayElapsed(nowMs: int, now: IsoTimestamp)
      requires Valid() && turn.ReplyDelayed?
      modifies this
      ensures Valid() && State() == ReplyShownStep(old(State()), nowMs, now)
    {
      var botMessage := ReplyMessage(turn.response, nowMs, now);
      messages := messages + [botMessage];
      isTyping := false;
      isLoading := false;
      turn := NoTurn;
    }

    /** The `catch` of `handleSendMessage`. */
    method OnSendFailed(nowMs: int, now: IsoTimestamp)
      requires Valid() && turn == AwaitingGateway
      modifies this
      ensures Valid() && State() == SendFailedStep(old(State()), nowMs, now)
    {
      var errorMessage := ErrorMessage(nowMs, now);
      messages := messages + [errorMessage];
      isTyping := false;
      isLoading := false;
      turn := NoTurn;
    }

    /** `handleResetSession`, with the outcome of its gateway request. */
    method HandleResetSession(result: GatewayResult<()>, token: string, nowMs: nat)
      requires Valid()
      modifies this
      ensures Valid() && State() == ResetStep(old(State()), result, token, nowMs)
    {
      if !Truthy(sessionId) {
        return;
      }
      gatewayCalls := gatewayCalls + [ResetCall(sessionId.value)];
      if result.Failed? {
        return;
      }
      messages := [];
      var newSessionId := GenerateSessionId(token, nowMs);
      sessionId := Some(newSessionId);
      storage := storage[SessionKey := newSessionId];
    }
  }
}
