/**
 * The webhook endpoint: `handle_message`, which routes one inbound WhatsApp
 * event into the booking bot, and `verify`, the subscription handshake.
 *
 * The inbound event is the `entry[0].changes[0].value` object, with only the
 * keys the handler reads. `from`, `type`, `interactive.type` and the
 * button reply's `id` and `title` are always present; the nested objects the
 * handler subscripts (`interactive`, `button_reply`, `text.body`) may be
 * missing, and then the lookup raises and the framework answers 500.
 * The external validator `is_valid_whatsapp_message` is an input flag and
 * `process_whatsapp_message` a recorded `Delegated` effect.
 */
module Webhook {
  import opened Wrappers
  import opened Calendar
  import opened Messages
  import opened Booking

  datatype ButtonReply = ButtonReply(id: string, title: string)

  datatype Interactive = Interactive(kind: string, buttonReply: Option<ButtonReply>)

  datatype Message = Message(sender: string, kind: string, interactive: Option<Interactive>,
                             textBody: Option<string>)

  datatype Value = Value(statuses: seq<string>, messages: seq<Message>)

  const InteractiveType := "interactive"
  const ButtonReplyType := "button_reply"
  const AckText := "You have selected to book an appointment. Processing your request..."

  const Ok := 200
  const NotFound := 404
  const ServerError := 500

  /** A message event (no status callback) whose first message is there to inspect. */
  predicate Pending(v: Value) {
    |v.statuses| == 0 && |v.messages| > 0
  }

  /** An interactive message whose interactive part is a complete button reply. */
  predicate IsButtonReply(m: Message) {
    && m.kind == InteractiveType
    && m.interactive.Some?
    && m.interactive.value.kind == ButtonReplyType
    && m.interactive.value.buttonReply.Some?
  }

  function ReplyOf(m: Message): ButtonReply
    requires IsButtonReply(m)
  {
    m.interactive.value.buttonReply.value
  }

  /** What the handler does with an event, given the numbers with a conversation. */
  datatype Route =
    | StatusUpdate
    | BookingTrigger(sender: string)
    | ButtonTurn(sender: string, title: string)
    | StrayButton
    | TextTurn(sender: string, body: string)
    | External
    | Malformed

  /**
   * The decisions of `handle_message`: a status callback short-circuits; a
   * button reply with the booking id starts (or resumes) booking; another
   * button reply is a turn only for a sender with a conversation; a
   * non-interactive message from such a sender is a turn with its text; a
   * button reply from any other sender is acknowledged and ignored; a message
   * missing a nested field is malformed (500); every other event (an
   * interactive message that is not a button reply, a non-interactive
   * message from a stranger) goes to the external validator.
   */
  function Classify(v: Value, active: set<string>): (r: Route)
    ensures r.StatusUpdate? <==> |v.statuses| > 0
    ensures r.Malformed? ==> |v.statuses| == 0
    ensures r.BookingTrigger? <==>
      Pending(v) && IsButtonReply(v.messages[0]) && ReplyOf(v.messages[0]).id == BookingTriggerId
    ensures r.ButtonTurn? <==>
      && Pending(v) && IsButtonReply(v.messages[0]) && ReplyOf(v.messages[0]).id != BookingTriggerId
      && v.messages[0].sender in active
    ensures r.StrayButton? <==>
      && Pending(v) && IsButtonReply(v.messages[0]) && ReplyOf(v.messages[0]).id != BookingTriggerId
      && v.messages[0].sender !in active
    ensures r.TextTurn? <==>
      && Pending(v) && v.messages[0].kind != InteractiveType
      && v.messages[0].sender in active && v.messages[0].textBody.Some?
    ensures r.External? <==>
      && Pending(v)
      && (if v.messages[0].kind == InteractiveType
          then v.messages[0].interactive.Some? && v.messages[0].interactive.value.kind != ButtonReplyType
          else v.messages[0].sender !in active)
    ensures r.BookingTrigger? || r.ButtonTurn? || r.TextTurn? ==> r.sender == v.messages[0].sender
    ensures r.ButtonTurn? ==> r.title == ReplyOf(v.messages[0]).title
    ensures r.TextTurn? ==> r.body == v.messages[0].textBody.value
  {
    if |v.statuses| > 0 then StatusUpdate
    else if |v.messages| == 0 then Malformed
    else
      var m := v.messages[0];
      if m.kind == InteractiveType then
        if m.interactive.None? then Malformed
        else if m.interactive.value.kind != ButtonReplyType then External
        else if m.interactive.value.buttonReply.None? then Malformed
        else
          var reply := m.interactive.value.buttonReply.value;
          if reply.id == BookingTriggerId then BookingTrigger(m.sender)
          else if m.sender in active then ButtonTurn(m.sender, reply.title)
          else StrayButton
      else if m.sender in active then
        if m.textBody.None? then Malformed else TextTurn(m.sender, m.textBody.value)
      else External
  }

  /** The HTTP status, the new conversations and the requests sent for one event. */
  datatype Outcome = Outcome(code: int, states: map<string, UserState>, effects: seq<Effect>)

  /** A turn of the bot followed by forwarding its reply with `send_message`. */
  function TurnOutcome(t: Turn, lead: seq<Effect>): Outcome {
    Outcome(Ok, t.states, lead + t.effects + [Forward(t.reply)])
  }

  /**
   * The specification of `handle_message`. Only the sender's entry can
   * change, every stored entry stays well formed, and the answer is 200, 404
   * or 500.
   */
  function Handle(v: Value, m: map<string, UserState>, today: Date, p: Provider, accepted: bool): (o: Outcome)
    requires ClockDay(today)
    ensures o.code == Ok || o.code == NotFound || o.code == ServerError
    ensures forall k :: k in m && !(Pending(v) && k == v.messages[0].sender) ==> k in o.states && o.states[k] == m[k]
    ensures forall k :: k in o.states ==> k in m || (Pending(v) && k == v.messages[0].sender)
    ensures AllWellFormed(m) ==> AllWellFormed(o.states)
  {
    Dispatch(Classify(v, m.Keys), m, today, p, accepted)
  }

  /**
   * What each route does to the dictionary, and what it answers and sends:
   * only the three turn routes touch the dictionary, and each of them answers
   * 200 and ends by forwarding the bot's reply; the booking trigger first
   * sends the acknowledgement.
   */
  function Dispatch(route: Route, m: map<string, UserState>, today: Date, p: Provider, accepted: bool): (o: Outcome)
    requires ClockDay(today)
    ensures !(route.BookingTrigger? || route.ButtonTurn? || route.TextTurn?) ==> o.states == m
    ensures o.code == ServerError <==> route.Malformed?
    ensures o.code == NotFound <==> route.External? && !accepted
    ensures route.BookingTrigger? || route.ButtonTurn? || route.TextTurn? ==>
      o.code == Ok && |o.effects| >= 1 && o.effects[|o.effects| - 1].Forward?
    ensures route.BookingTrigger? ==> o.effects[0] == Send(TextPrompt(route.sender, AckText))
    ensures o.effects == [Delegated] <==> route.External? && accepted
  {
    match route
    case StatusUpdate => Outcome(Ok, m, [])
    case BookingTrigger(s) =>
      var m0 := if s in m then m else m[s := Fresh];
      TurnOutcome(Advance(m0, s, None, today, p), [Send(TextPrompt(s, AckText))])
    case ButtonTurn(s, title) => TurnOutcome(Advance(m, s, Some(title), today, p), [])
    case StrayButton => Outcome(Ok, m, [])
    case TextTurn(s, body) => TurnOutcome(Advance(m, s, Some(body), today, p), [])
    case External => if accepted then Outcome(Ok, m, [Delegated]) else Outcome(NotFound, m, [])
    case Malformed => Outcome(ServerError, m, [])
  }

  /**
   * `handle_message` over the bot's dictionary: the route is decided once,
   * then the bot is driven and the requests are recorded.
   */
  method HandleMessage(bot: BookingBot, v: Value, today: Date, p: Provider, accepted: bool)
    returns (code: int, effects: seq<Effect>)
    requires bot.Valid() && ClockDay(today)
    modifies bot
    ensures bot.Valid()
    ensures var o := Handle(v, old(bot.userStates), today, p, accepted);
      code == o.code && bot.userStates == o.states && effects == o.effects
  {
    var route := Classify(v, bot.userStates.Keys);
    ghost var o := Dispatch(route, bot.userStates, today, p, accepted);
    assert o == Handle(v, bot.userStates, today, p, accepted);
    match route {
      case StatusUpdate =>
        code, effects := Ok, [];
      case BookingTrigger(sender) =>
        effects := StartBooking(bot, sender, today, p);
        code := Ok;
      case ButtonTurn(sender, title) =>
        effects := TakeTurn(bot, sender, title, today, p);
        code := Ok;
      case StrayButton =>
        code, effects := Ok, [];
      case TextTurn(sender, body) =>
        effects := TakeTurn(bot, sender, body, today, p);
        code := Ok;
      case External =>
        if accepted {
          code, effects := Ok, [Delegated];
        } else {
          code, effects := NotFound, [];
        }
      case Malformed =>
        code, effects := ServerError, [];
    }
  }

  /** One turn of a sender already in the dictionary, its reply forwarded. */
  method TakeTurn(bot: BookingBot, sender: string, response: string, today: Date, p: Provider)
    returns (effects: seq<Effect>)
    requires bot.Valid() && ClockDay(today)
    modifies bot
    ensures bot.Valid()
    ensures var o := TurnOutcome(Advance(old(bot.userStates), sender, Some(response), today, p), []);
      bot.userStates == o.states && effects == o.effects
  {
    var reply, sent := bot.GetNextMessage(sender, Some(response), today, p);
    effects := sent + [Forward(reply)];
  }

  /**
   * The booking button: initialise the sender only if absent, acknowledge,
   * then take one turn with no response and forward its reply.
   */
  method StartBooking(bot: BookingBot, sender: string, today: Date, p: Provider)
    returns (effects: seq<Effect>)
    requires bot.Valid() && ClockDay(today)
    modifies bot
    ensures bot.Valid()
    ensures var m := old(bot.userStates);
      var o := TurnOutcome(Advance(if sender in m then m else m[sender := Fresh], sender, None, today, p),
                           [Send(TextPrompt(sender, AckText))]);
      bot.userStates == o.states && effects == o.effects
  {
    if sender !in bot.userStates {
      bot.InitializeUser(sender);
    }
    var reply, sent := bot.GetNextMessage(sender, None, today, p);
    effects := [Send(TextPrompt(sender, AckText))] + sent + [Forward(reply)];
  }

  // ---------------------------------------------------------------------
  // Properties of the dispatch

  /** A status callback is acknowledged before any message is looked at, and changes nothing. */
  lemma StatusCallbackShortCircuits(v: Value, m: map<string, UserState>, today: Date, p: Provider, accepted: bool)
    requires ClockDay(today) && |v.statuses| > 0
    ensures Handle(v, m, today, p, accepted) == Outcome(Ok, m, [])
  {
  }

  /**
   * The booking button initialises only an absent sender, so a conversation
   * in progress is kept; either way the result is one `Advance` with no
   * response, after the acknowledgement text.
   */
  lemma BookingTriggerKeepsProgress(v: Value, m: map<string, UserState>, today: Date, p: Provider,
                                    accepted: bool, s: string)
    requires ClockDay(today) && Classify(v, m.Keys) == BookingTrigger(s)
    ensures var t := Advance(m, s, None, today, p);
      Handle(v, m, today, p, accepted) == TurnOutcome(t, [Send(TextPrompt(s, AckText))])
  {
    if s !in m {
      var m0 := m[s := Fresh];
      var a, b := Advance(m0, s, None, today, p), Advance(m, s, None, today, p);
      assert Current(m0, s) == Current(m, s);
      assert a.states == m0[s := Step(Fresh, None)];
      assert m0[s := Step(Fresh, None)] == m[s := Step(Fresh, None)];
    }
  }

  /**
   * Pressing the booking button in the middle of the dialogue consumes a turn
   * with no response: the detail being asked for is stored as `None`.
   */
  lemma BookingTriggerMidDialogueStoresNone(v: Value, m: map<string, UserState>, today: Date, p: Provider,
                                            accepted: bool, s: string)
    requires ClockDay(today) && Classify(v, m.Keys) == BookingTrigger(s)
    requires s in m && 1 <= m[s].step <= 2
    ensures var o := Handle(v, m, today, p, accepted);
      && s in o.states && o.states[s].step == m[s].step + 1
      && (m[s].step == 1 ==> o.states[s].details == m[s].details.(name := None))
      && (m[s].step == 2 ==> o.states[s].details == m[s].details.(date := None))
  {
    BookingTriggerKeepsProgress(v, m, today, p, accepted, s);
  }

  /** Any other button reply advances with its title for a sender in conversation, and is ignored otherwise. */
  lemma OtherButtonNeedsConversation(v: Value, m: map<string, UserState>, today: Date, p: Provider, accepted: bool)
    requires ClockDay(today) && Pending(v) && IsButtonReply(v.messages[0])
    requires ReplyOf(v.messages[0]).id != BookingTriggerId
    ensures var s := v.messages[0].sender;
      s in m ==>
        Handle(v, m, today, p, accepted) ==
        TurnOutcome(Advance(m, s, Some(ReplyOf(v.messages[0]).title), today, p), [])
    ensures v.messages[0].sender !in m ==> Handle(v, m, today, p, accepted) == Outcome(Ok, m, [])
  {
  }

  /**
   * A non-interactive message from a sender in conversation advances with its
   * text; from anyone else it goes to the validator, 200 or 404, and changes nothing.
   */
  lemma TextReplyRouting(v: Value, m: map<string, UserState>, today: Date, p: Provider, accepted: bool)
    requires ClockDay(today) && Pending(v) && v.messages[0].kind != InteractiveType
    ensures var s := v.messages[0].sender;
      s in m && v.messages[0].textBody.Some? ==>
        Handle(v, m, today, p, accepted) ==
        TurnOutcome(Advance(m, s, v.messages[0].textBody, today, p), [])
    ensures v.messages[0].sender !in m ==>
      Handle(v, m, today, p, accepted) == if accepted then Outcome(Ok, m, [Delegated]) else Outcome(NotFound, m, [])
  {
  }

  /** An interactive message that is not a button reply is never a dialogue turn. */
  lemma NonButtonInteractiveIsExternal(v: Value, m: map<string, UserState>, today: Date, p: Provider, accepted: bool)
    requires ClockDay(today) && Pending(v) && v.messages[0].kind == InteractiveType
    requires v.messages[0].interactive.Some? && v.messages[0].interactive.value.kind != ButtonReplyType
    ensures Handle(v, m, today, p, accepted).states == m
    ensures Handle(v, m, today, p, accepted).code == if accepted then Ok else NotFound
  {
  }

  /**
   * Tapping one of the offered date buttons while the date is being asked for
   * stores that date's rendering: a date button never reads as the booking trigger.
   */
  lemma DateButtonStoresDate(v: Value, m: map<string, UserState>, today: Date, p: Provider, accepted: bool, d: Date)
    requires ClockDay(today) && IsValid(d) && Pending(v)
    requires v.messages[0] == Message(v.messages[0].sender, InteractiveType,
      Some(Interactive(ButtonReplyType, Some(ButtonReply(Format(d), Format(d))))), None)
    requires v.messages[0].sender in m && m[v.messages[0].sender].step == 2
    ensures var s := v.messages[0].sender;
      var o := Handle(v, m, today, p, accepted);
      && s in o.states && o.states[s].step == 3
      && o.states[s].details == m[s].details.(date := Some(Format(d)))
      && o.effects == [Forward(Prompt(AskTime(s)))]
  {
    assert |Format(d)| != |BookingTriggerId|;
  }

  // ---------------------------------------------------------------------
  // Subscription handshake

  datatype Verification = Verified(challenge: Option<string>) | Forbidden | MissingParameters

  /**
   * The HTTP status `verify` ends with. `return challenge, 200` without a
   * `hub.challenge` hands the framework a `None` body, which it refuses, so
   * that request ends in 500.
   */
  function VerificationCode(r: Verification): (code: int)
    ensures code == 200 <==> r.Verified? && r.challenge.Some?
    ensures code == 500 <==> r == Verified(None)
    ensures code == 403 <==> r.Forbidden?
    ensures code == 400 <==> r.MissingParameters?
  {
    match r
    case Verified(challenge) => if challenge.Some? then 200 else 500
    case Forbidden => 403
    case MissingParameters => 400
  }

  /** Python truthiness of an optional query parameter. */
  predicate Truthy(o: Option<string>) {
    o.Some? && o.value != ""
  }

  /**
   * `verify`: echoes the challenge exactly when the mode is "subscribe" and a
   * non-empty token equals the configured one; answers 400 when the mode or
   * the token is missing or empty, and 403 otherwise.
   */
  function Verify(mode: Option<string>, token: Option<string>, challenge: Option<string>,
                  configured: Option<string>): (r: Verification)
    ensures r.Verified? <==> mode == Some("subscribe") && Truthy(token) && token == configured
    ensures r.Verified? ==> r.challenge == challenge
    ensures r.MissingParameters? <==> !Truthy(mode) || !Truthy(token)
    ensures r.Forbidden? <==> Truthy(mode) && Truthy(token) && !(mode == Some("subscribe") && token == configured)
  {
    if Truthy(mode) && Truthy(token) then
      if mode == Some("subscribe") && token == configured then Verified(challenge) else Forbidden
    else MissingParameters
  }

  /** The status of the handshake in terms of the request's parameters. */
  lemma VerifyStatus(mode: Option<string>, token: Option<string>, challenge: Option<string>,
                     configured: Option<string>)
    ensures var code := VerificationCode(Verify(mode, token, challenge, configured));
      var accepted := mode == Some("subscribe") && Truthy(token) && token == configured;
      && (code == 200 <==> accepted && challenge.Some?)
      && (code == 500 <==> accepted && challenge.None?)
      && (code == 400 <==> !Truthy(mode) || !Truthy(token))
      && (code == 403 <==> Truthy(mode) && Truthy(token) && !accepted)
  {
  }
}
