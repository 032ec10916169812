/**
 * The Telethon front end (telegram_client.py). Unlike the
 * python-telegram-bot one, a user's dialog state lives inside the user's
 * session dict under 'state', every handler creates a missing session, and
 * every new message is offered to each `NewMessage` handler in the order
 * they are registered, a pattern handler running when its pattern matches
 * the start of the text.
 */
module ClientDialog {
  import opened Common
  import opened Dialog

  /** A `user_sessions` entry: the 'state' key, if set, and the rest of the dict. */
  datatype ClientSession = ClientSession(state: Option<DialogState>, data: Session)

  /** The empty dict `{}`. */
  const Blank: ClientSession := ClientSession(None, EmptySession)

  /** `session.get('state', STATE_INITIAL)`. */
  function StateIn(c: ClientSession): DialogState
  {
    if c.state.Some? then c.state.value else Initial
  }

  /** The session holds what its state's step will read. */
  predicate SessionReady(c: ClientSession)
  {
    Ready(StateIn(c), c.data)
  }

  class TelegramClientBot {
    /** `user_sessions`. */
    var userSessions: map<int, ClientSession>
    /** The bot manager calls made so far, in order. */
    var calls: seq<Call>

    constructor()
      ensures userSessions == map[] && calls == []
    {
      userSessions, calls := map[], [];
    }

    /** The user's session, or `{}` for a user without one. */
    function SessionOf(user: int): ClientSession
      reads this
    {
      if user in userSessions then userSessions[user] else Blank
    }

    /** Every session is ready for its own state. */
    ghost predicate Valid()
      reads this
    {
      forall u :: u in userSessions ==> SessionReady(userSessions[u])
    }

    /** `/start`: an existing session is emptied, so its state reads as initial. */
    method Start(user: int)
      modifies this`userSessions
      ensures user in old(userSessions) ==> userSessions == old(userSessions)[user := Blank]
      ensures user !in old(userSessions) ==> userSessions == old(userSessions)
      ensures old(Valid()) ==> Valid()
    {
      if user in userSessions {
        userSessions := userSessions[user := Blank];
      }
    }

    /** `/login`: the session (created if missing) waits for the API id. */
    method LoginCommand(user: int)
      modifies this`userSessions
      ensures userSessions == old(userSessions)[user := old(SessionOf(user)).(state := Some(AwaitingApiId))]
      ensures old(Valid()) ==> Valid()
    {
      var c := SessionOf(user);
      userSessions := userSessions[user := c.(state := Some(AwaitingApiId))];
    }

    /**
     * `/logout`: a user without a session gets an empty one; with a phone,
     * the manager logs it out and the session is emptied, state included.
     */
    method LogoutCommand(user: int)
      modifies this`userSessions, this`calls
      ensures user !in old(userSessions) ==> userSessions == old(userSessions)[user := Blank] && calls == old(calls)
      ensures user in old(userSessions) && Truthy(old(userSessions)[user].data.phone) ==>
        userSessions == old(userSessions)[user := Blank]
        && calls == old(calls) + [Logout(old(userSessions)[user].data.phone.value)]
      ensures user in old(userSessions) && !Truthy(old(userSessions)[user].data.phone) ==>
        userSessions == old(userSessions) && calls == old(calls)
      ensures old(Valid()) ==> Valid()
    {
      if user !in userSessions {
        userSessions := userSessions[user := Blank];
        return;
      }
      var phone := userSessions[user].data.phone;
      if Truthy(phone) {
        calls := calls + [Logout(phone.value)];
        userSessions := userSessions[user := Blank];
      }
    }

    /** `/cancel` (the command handler): with a phone, the manager cancels the user's forwarding. */
    method CancelCommand(user: int)
      modifies this`userSessions, this`calls
      ensures userSessions == old(userSessions)[user := old(SessionOf(user))]
      ensures Truthy(SessionOf(user).data.phone) ==> calls == old(calls) + [CancelForwarding(SessionOf(user).data.phone.value)]
      ensures !Truthy(SessionOf(user).data.phone) ==> calls == old(calls)
      ensures old(Valid()) ==> Valid()
    {
      var c := SessionOf(user);
      userSessions := userSessions[user := c];
      if Truthy(c.data.phone) {
        calls := calls + [CancelForwarding(c.data.phone.value)];
      }
    }

    /**
     * `message_handler`: private chats only; a missing session starts as
     * `{'state': STATE_INITIAL}`; "/cancel" sends the state back to
     * initial; any other text takes its state's step, whose state, if it
     * writes one, goes into the session.
     */
    method MessageHandler(user: int, text: string, isPrivate: bool, answer: Answer) returns (o: Handled)
      modifies this`userSessions, this`calls
      ensures old(Valid()) ==> Valid()
      ensures !isPrivate ==> o == Done && userSessions == old(userSessions) && calls == old(calls)
      ensures isPrivate && text == "/cancel" ==>
        var c := if user in old(userSessions) then old(userSessions)[user] else ClientSession(Some(Initial), EmptySession);
        o == Done && userSessions == old(userSessions)[user := c.(state := Some(Initial))] && calls == old(calls)
      ensures isPrivate && text != "/cancel" ==>
        var c := if user in old(userSessions) then old(userSessions)[user] else ClientSession(Some(Initial), EmptySession);
        var r := MessageStep(StateIn(c), c.data, text, answer);
        && o == r.handled
        && userSessions == old(userSessions)[user := ClientSession(if r.next.Some? then r.next else c.state, r.session)]
        && calls == old(calls) + r.made
      ensures old(Valid()) && o == Raised ==>
        var st := StateIn(old(SessionOf(user)));
        (st == AwaitingSource || st == AwaitingDestination || st == AwaitingLastMessage) && old(SessionOf(user)).data.phone.None?
    {
      o := Done;
      if !isPrivate {
        return;
      }
      var c := if user in userSessions then userSessions[user] else ClientSession(Some(Initial), EmptySession);
      if text == "/cancel" {
        userSessions := userSessions[user := c.(state := Some(Initial))];
        return;
      }
      var state := StateIn(c);
      var r := MessageStep(state, c.data, text, answer);
      if Valid() {
        StepKeepsReady(state, c.data, text, answer);
        ReadyStepRaises(state, c.data, text, answer);
      }
      userSessions := userSessions[user := ClientSession(if r.next.Some? then r.next else c.state, r.session)];
      calls := calls + r.made;
      o := r.handled;
    }

    /** Login, Add Source and Add Destination: the session (created if missing) gets the button's state. */
    method SetStateButton(user: int, state: DialogState)
      modifies this`userSessions
      ensures userSessions == old(userSessions)[user := old(SessionOf(user)).(state := Some(state))]
      ensures old(Valid()) && Ready(state, EmptySession) ==> Valid()
    {
      var c := SessionOf(user);
      userSessions := userSessions[user := c.(state := Some(state))];
    }

    /** `select_source:<id>`: the id is stored and the dialog moves to selecting. */
    method SelectSource(user: int, data: string)
      modifies this`userSessions
      ensures userSessions == old(userSessions)[user :=
        ClientSession(Some(SelectingSource), old(SessionOf(user)).data.(selectedSource := Field(data, 1)))]
      ensures old(Valid()) ==> Valid()
    {
      var c := SessionOf(user);
      userSessions := userSessions[user := ClientSession(Some(SelectingSource), c.data.(selectedSource := Field(data, 1)))];
    }

    /**
     * `select_destination:<id>`: only in the selecting state, the Yes/No
     * offer for the stored source and this destination, or an error when
     * either is empty; nothing is written.
     */
    method SelectDestination(user: int, data: string) returns (offer: Offer)
      ensures var c := SessionOf(user);
        offer == if StateIn(c) != SelectingSource then NoOffer
                 else if Truthy(c.data.selectedSource) && Truthy(Field(data, 1))
                 then OfferPair(c.data.selectedSource.value, Field(data, 1).value)
                 else NotSelected
    {
      offer := NoOffer;
      var c := SessionOf(user);
      if StateIn(c) == SelectingSource {
        var destination := Field(data, 1);
        var source := c.data.selectedSource;
        if Truthy(source) && Truthy(destination) {
          offer := OfferPair(source.value, destination.value);
        } else {
          offer := NotSelected;
        }
      }
    }

    /**
     * `set_last_message:<s>:<d>`: both ids are stored and the dialog waits
     * for the last message link; a missing field raises.
     */
    method SetLastMessageButton(user: int, data: string) returns (o: Handled)
      modifies this`userSessions
      ensures Field(data, 2).None? ==> o == Raised && userSessions == old(userSessions)
      ensures Field(data, 2).Some? ==>
        o == Done
        && userSessions == old(userSessions)[user := ClientSession(Some(AwaitingLastMessage),
             old(SessionOf(user)).data.(selectedSource := Field(data, 1), selectedDestination := Field(data, 2)))]
      ensures old(Valid()) ==> Valid()
    {
      var source, destination := Field(data, 1), Field(data, 2);
      if destination.None? {
        return Raised;
      }
      var c := SessionOf(user);
      userSessions := userSessions[user := ClientSession(Some(AwaitingLastMessage),
        c.data.(selectedSource := source, selectedDestination := destination))];
      o := Done;
    }

    /** `forward_now:<s>:<d>`: with a phone, the manager starts forwarding from s to d; a missing field raises. */
    method ForwardNow(user: int, data: string) returns (o: Handled)
      modifies this`calls
      ensures Field(data, 2).None? ==> o == Raised && calls == old(calls)
      ensures Field(data, 2).Some? ==>
        o == Done
        && calls == old(calls) + (if Truthy(SessionOf(user).data.phone)
                                  then [StartForwarding(SessionOf(user).data.phone.value, Field(data, 1).value, Field(data, 2).value)]
                                  else [])
    {
      var source, destination := Field(data, 1), Field(data, 2);
      if destination.None? {
        return Raised;
      }
      var phone := SessionOf(user).data.phone;
      if Truthy(phone) {
        calls := calls + [StartForwarding(phone.value, source.value, destination.value)];
      }
      o := Done;
    }

    /** `delete_source:<id>` and `delete_destination:<id>`: with a phone, the manager deletes the channel. */
    method DeleteButton(user: int, data: string, isSource: bool)
      modifies this`calls
      requires Field(data, 1).Some?
      ensures var phone := SessionOf(user).data.phone;
        calls == old(calls) + (if !Truthy(phone) then []
                               else if isSource then [DeleteSource(phone.value, Field(data, 1).value)]
                               else [DeleteDestination(phone.value, Field(data, 1).value)])
    {
      var id := Field(data, 1).value;
      var phone := SessionOf(user).data.phone;
      if Truthy(phone) {
        calls := calls + [if isSource then DeleteSource(phone.value, id) else DeleteDestination(phone.value, id)];
      }
    }

    /**
     * `callback_handler`: the session is created if missing, then the
     * button's branch runs, as `PressOf` tells them apart. Only a missing
     * field raises, and every branch keeps `Valid`.
     */
    method CallbackHandler(user: int, data: string) returns (o: Handled, offer: Offer)
      modifies this`userSessions, this`calls
      ensures old(Valid()) ==> Valid()
      ensures user in userSessions
      ensures o == Raised ==>
        (PressOf(data) == SetLastMessagePress || PressOf(data) == ForwardNowPress) && Field(data, 2).None?
      ensures PressOf(data) != SelectDestinationPress ==> offer == NoOffer
      ensures PressOf(data) == OtherPress ==>
        userSessions == old(userSessions)[user := old(SessionOf(user))] && calls == old(calls)
    {
      o, offer := Done, NoOffer;
      var c := SessionOf(user);
      userSessions := userSessions[user := c];
      match PressOf(data) {
        case LoginPress => SetStateButton(user, AwaitingApiId);
        case AddSourcePress => SetStateButton(user, AwaitingSource);
        case AddDestinationPress => SetStateButton(user, AwaitingDestination);
        case CancelForwardingPress => CancelCommand(user);
        case LogoutPress => LogoutCommand(user);
        case DeleteSourcePress =>
          FieldAfterPrefix(data, "delete_source:");
          DeleteButton(user, data, true);
        case DeleteDestinationPress =>
          FieldAfterPrefix(data, "delete_destination:");
          DeleteButton(user, data, false);
        case SelectSourcePress => SelectSource(user, data);
        case SelectDestinationPress => offer := SelectDestination(user, data);
        case SetLastMessagePress => o := SetLastMessageButton(user, data);
        case ForwardNowPress => o := ForwardNow(user, data);
        case OtherPress =>
      }
    }

    /**
     * A new message, offered to the handlers in the order they are
     * registered: `/start`, then `message_handler` (every message), then
     * `/login`, `/logout` and `/cancel`, each pattern matched at the start
     * of the text. An exception in one handler does not stop the later
     * ones. So "/cancel" in a private chat both resets the state and asks
     * the manager to cancel, and the invariant holds after every message.
     */
    method OnNewMessage(user: int, text: string, isPrivate: bool, answer: Answer) returns (o: Handled)
      modifies this`userSessions, this`calls
      ensures old(Valid()) ==> Valid()
      ensures isPrivate && text == "/cancel" ==>
        user in userSessions && StateIn(userSessions[user]) == Initial
        && userSessions[user].data == old(SessionOf(user)).data
        && calls == old(calls) + (if Truthy(old(SessionOf(user)).data.phone)
                                  then [CancelForwarding(old(SessionOf(user)).data.phone.value)] else [])
      ensures StartsWith(text, "/login") && !StartsWith(text, "/logout") ==>
        user in userSessions && StateIn(userSessions[user]) == AwaitingApiId
    {
      if StartsWith(text, "/start") {
        Start(user);
      }
      o := MessageHandler(user, text, isPrivate, answer);
      if StartsWith(text, "/login") {
        LoginCommand(user);
      }
      if StartsWith(text, "/logout") {
        LogoutCommand(user);
      }
      if StartsWith(text, "/cancel") {
        CancelCommand(user);
      }
    }
  }
}
