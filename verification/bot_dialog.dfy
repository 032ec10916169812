/**
 * The python-telegram-bot front end (telegram_bot.py): `user_states` holds
 * each user's dialog state and `sessions` the data the dialog collects.
 * Text messages that are not commands go to `handle_message`, commands to
 * their command handlers, and buttons to `button_callback`. Every bot
 * manager call the front end makes is appended to `calls`; its answer is
 * an input.
 */
module BotDialog {
  import opened Common
  import opened Dialog

  /** A character Telegram accepts in a command name. */
  predicate CommandChar(c: char)
  {
    ('a' <= c <= 'z') || ('A' <= c <= 'Z') || ('0' <= c <= '9') || c == '_'
  }

  /** `filters.COMMAND`: the text opens with '/' and a command name. */
  predicate IsCommand(text: string): (r: bool)
    ensures r ==> |text| >= 2 && |CommandName(text[1..])| >= 1
  {
    |text| >= 2 && text[0] == '/' && CommandChar(text[1])
  }

  /** The command name: the run of command characters after the '/'. */
  function CommandName(s: string): (r: string)
    ensures |r| <= |s| && r == s[..|r|]
    ensures forall i :: 0 <= i < |r| ==> CommandChar(r[i])
    ensures |r| < |s| ==> !CommandChar(s[|r|])
  {
    if |s| == 0 || !CommandChar(s[0]) then ""
    else [s[0]] + CommandName(s[1..])
  }

  /** The command a text invokes, if it is one. */
  function CommandOf(text: string): Option<string>
  {
    if IsCommand(text) then Some(CommandName(text[1..])) else None
  }

  /** "/cancel" is a command, and the command it invokes is `cancel`. */
  lemma CancelIsCommand(text: string)
    requires text == "/cancel"
    ensures CommandOf(text) == Some("cancel")
  {
    assert text[1..] == "cancel";
    assert CommandName(text[1..]) == "cancel" by {
      var s := text[1..];
      assert forall i :: 0 <= i < |s| ==> CommandChar(s[i]);
      CommandNameAll(s);
    }
  }

  /** A string of command characters is its own command name. */
  lemma {:induction false} CommandNameAll(s: string)
    requires forall i :: 0 <= i < |s| ==> CommandChar(s[i])
    ensures CommandName(s) == s
    decreases |s|
  {
    if |s| > 0 {
      CommandNameAll(s[1..]);
    }
  }

  /** Every user with a state has a session (or the empty one) ready for it. */
  ghost predicate AllReady(states: map<int, DialogState>, sessions: map<int, Session>)
  {
    forall u :: u in states ==> Ready(states[u], if u in sessions then sessions[u] else EmptySession)
  }

  /** Writing one user's session, and perhaps state, keeps every session ready when the written pair is. */
  lemma AllReadyWrite(states: map<int, DialogState>, sessions: map<int, Session>, user: int, s: Session, next: Option<DialogState>)
    requires AllReady(states, sessions)
    requires Ready(if next.Some? then next.value else if user in states then states[user] else Initial, s)
    ensures AllReady(if next.Some? then states[user := next.value] else states, sessions[user := s])
  {
  }


  class TelegramBot {
    /** `user_states`. */
    var userStates: map<int, DialogState>
    /** `sessions`. */
    var sessions: map<int, Session>
    /** The bot manager calls made so far, in order. */
    var calls: seq<Call>

    constructor()
      ensures userStates == map[] && sessions == map[] && calls == []
    {
      userStates, sessions, calls := map[], map[], [];
    }

    /** `user_states.get(user_id, STATE_INITIAL)`. */
    function StateOf(user: int): DialogState
      reads this
    {
      if user in userStates then userStates[user] else Initial
    }

    /** The user's session, empty when there is none. */
    function SessionOf(user: int): Session
      reads this
    {
      if user in sessions then sessions[user] else EmptySession
    }

    /** Every user's session holds what the user's state will read. */
    ghost predicate Valid()
      reads this
    {
      AllReady(userStates, sessions)
    }

    /** `/start`: the state goes back to initial; the session stays. */
    method Start(user: int)
      modifies this`userStates
      ensures userStates == old(userStates)[user := Initial]
      ensures old(Valid()) ==> Valid()
    {
      userStates := userStates[user := Initial];
    }

    /** `/login` and the Login button: the dialog waits for the API id. */
    method Login(user: int)
      modifies this`userStates
      ensures userStates == old(userStates)[user := AwaitingApiId]
      ensures old(Valid()) ==> Valid()
    {
      userStates := userStates[user := AwaitingApiId];
    }

    /**
     * `/logout` and the Logout button: with a phone the manager logs it out
     * and the session is deleted, but `user_states` keeps the user's state,
     * so a user logged out half-way through a login is no longer `Valid`.
     */
    method LogoutCommand(user: int)
      modifies this`sessions, this`calls
      ensures Truthy(old(SessionOf(user)).phone) ==>
        calls == old(calls) + [Logout(old(SessionOf(user)).phone.value)] && sessions == old(sessions) - {user}
      ensures !Truthy(old(SessionOf(user)).phone) ==> calls == old(calls) && sessions == old(sessions)
      ensures user in userStates && Truthy(old(SessionOf(user)).phone) && StateOf(user) == AwaitingCode ==> !Valid()
    {
      var phone := SessionOf(user).phone;
      if Truthy(phone) {
        calls := calls + [Logout(phone.value)];
        sessions := sessions - {user};
        assert SessionOf(user) == EmptySession;
      }
    }

    /** `/cancel`: with a phone, the manager is asked to cancel; the dialog state is left as it is. */
    method CancelCommand(user: int)
      modifies this`calls
      ensures Truthy(SessionOf(user).phone) ==> calls == old(calls) + [CancelForwarding(SessionOf(user).phone.value)]
      ensures !Truthy(SessionOf(user).phone) ==> calls == old(calls)
    {
      var phone := SessionOf(user).phone;
      if Truthy(phone) {
        calls := calls + [CancelForwarding(phone.value)];
      }
    }

    /**
     * `handle_message`: the session is created if missing; "/cancel" sends
     * the state back to initial; any other text takes its state's step.
     */
    method HandleMessage(user: int, text: string, answer: Answer) returns (o: Handled)
      modifies this`userStates, this`sessions, this`calls
      ensures old(Valid()) ==> Valid()
      ensures text == "/cancel" ==>
        o == Done && userStates == old(userStates)[user := Initial]
        && sessions == old(sessions)[user := old(SessionOf(user))] && calls == old(calls)
      ensures text != "/cancel" ==>
        var r := MessageStep(old(StateOf(user)), old(SessionOf(user)), text, answer);
        && o == r.handled
        && userStates == (if r.next.Some? then old(userStates)[user := r.next.value] else old(userStates))
        && sessions == old(sessions)[user := r.session]
        && calls == old(calls) + r.made
    {
      var state := StateOf(user);
      // `sessions[user_id] = {}` when missing: the session, created or not.
      var s := SessionOf(user);
      o := Done;
      if text == "/cancel" {
        sessions := sessions[user := s];
        userStates := userStates[user := Initial];
        return;
      }
      // The state's step (the `if state == ...` chain), written back to the two dicts.
      var r := MessageStep(state, s, text, answer);
      if Valid() {
        StepKeepsReady(state, s, text, answer);
        AllReadyWrite(userStates, sessions, user, r.session, r.next);
      }
      sessions := sessions[user := r.session];
      calls := calls + r.made;
      if r.next.Some? {
        userStates := userStates[user := r.next.value];
      }
      o := r.handled;
    }

    /**
     * A text message, routed as the handlers are registered: commands to
     * their handlers, everything else to `handle_message`. So "/cancel"
     * never reaches the reset in `handle_message` and leaves the dialog
     * state where it was.
     */
    method OnText(user: int, text: string, answer: Answer) returns (o: Handled)
      modifies this`userStates, this`sessions, this`calls
      ensures old(Valid()) && CommandOf(text) != Some("logout") ==> Valid()
      ensures text == "/cancel" ==> userStates == old(userStates) && sessions == old(sessions) && o == Done
      ensures CommandOf(text) == Some("start") ==> userStates == old(userStates)[user := Initial]
      ensures CommandOf(text) == Some("login") ==> userStates == old(userStates)[user := AwaitingApiId]
    {
      o := Done;
      if text == "/cancel" {
        CancelIsCommand(text);
      }
      var command := CommandOf(text);
      if command.None? {
        o := HandleMessage(user, text, answer);
      } else if command.value == "start" {
        Start(user);
      } else if command.value == "login" {
        Login(user);
      } else if command.value == "logout" {
        LogoutCommand(user);
      } else if command.value == "cancel" {
        CancelCommand(user);
      }
    }

    /** The Add Source button: the dialog waits for a source link. */
    method AddSourceButton(user: int)
      modifies this`userStates
      ensures userStates == old(userStates)[user := AwaitingSource]
      ensures old(Valid()) ==> Valid()
    {
      userStates := userStates[user := AwaitingSource];
    }

    /** The Add Destination button: the dialog waits for a destination link. */
    method AddDestinationButton(user: int)
      modifies this`userStates
      ensures userStates == old(userStates)[user := AwaitingDestination]
      ensures old(Valid()) ==> Valid()
    {
      userStates := userStates[user := AwaitingDestination];
    }

    /**
     * `select_source:<id>`: the id is stored and the dialog moves to
     * selecting; a user without a session gets a KeyError.
     */
    method SelectSource(user: int, data: string) returns (o: Handled)
      modifies this`userStates, this`sessions
      ensures old(Valid()) ==> Valid()
      ensures user !in old(sessions) ==> o == Raised && userStates == old(userStates) && sessions == old(sessions)
      ensures user in old(sessions) ==>
        o == Done && userStates == old(userStates)[user := SelectingSource]
        && sessions == old(sessions)[user := old(sessions)[user].(selectedSource := Field(data, 1))]
    {
      var id := Field(data, 1);
      if user !in sessions {
        return Raised;
      }
      sessions := sessions[user := sessions[user].(selectedSource := id)];
      userStates := userStates[user := SelectingSource];
      o := Done;
    }

    /**
     * `select_destination:<id>`: only in the selecting state, the Yes/No
     * offer for the stored source and this destination, or an error when
     * either is empty; nothing is written.
     */
    method SelectDestination(user: int, data: string) returns (o: Handled, offer: Offer)
      ensures StateOf(user) != SelectingSource ==> o == Done && offer == NoOffer
      ensures StateOf(user) == SelectingSource && user !in sessions ==> o == Raised
      ensures StateOf(user) == SelectingSource && user in sessions ==>
        o == Done
        && offer == if Truthy(sessions[user].selectedSource) && Truthy(Field(data, 1))
                    then OfferPair(sessions[user].selectedSource.value, Field(data, 1).value)
                    else NotSelected
    {
      o, offer := Done, NoOffer;
      if StateOf(user) == SelectingSource {
        var destination := Field(data, 1);
        if user !in sessions {
          return Raised, offer;
        }
        var source := sessions[user].selectedSource;
        if Truthy(source) && Truthy(destination) {
          offer := OfferPair(source.value, destination.value);
        } else {
          offer := NotSelected;
        }
      }
    }

    /**
     * `set_last_message:<s>:<d>`: both ids are stored and the dialog waits
     * for the last message link; a missing field or session raises.
     */
    method SetLastMessageButton(user: int, data: string) returns (o: Handled)
      modifies this`userStates, this`sessions
      ensures old(Valid()) ==> Valid()
      ensures Field(data, 2).None? || user !in old(sessions) ==>
        o == Raised && userStates == old(userStates) && sessions == old(sessions)
      ensures Field(data, 2).Some? && user in old(sessions) ==>
        o == Done && userStates == old(userStates)[user := AwaitingLastMessage]
        && sessions == old(sessions)[user := old(sessions)[user].(selectedSource := Field(data, 1), selectedDestination := Field(data, 2))]
    {
      var source, destination := Field(data, 1), Field(data, 2);
      if destination.None? || user !in sessions {
        return Raised;
      }
      sessions := sessions[user := sessions[user].(selectedSource := source, selectedDestination := destination)];
      userStates := userStates[user := AwaitingLastMessage];
      o := Done;
    }

    /**
     * `forward_now:<s>:<d>`: with a phone, forwarding from s to d starts
     * (`async_forward_messages` is scheduled and calls the manager); a
     * missing field raises.
     */
    method ForwardNow(user: int, data: string) returns (o: Handled)
      modifies this`calls
      ensures Field(data, 2).None? ==> o == Raised && calls == old(calls)
      ensures Field(data, 2).Some? ==>
        o == Done
        && calls == old(calls) + (if Truthy(SessionOf(user).phone)
                                  then [StartForwarding(SessionOf(user).phone.value, Field(data, 1).value, Field(data, 2).value)]
                                  else [])
    {
      var source, destination := Field(data, 1), Field(data, 2);
      if destination.None? {
        return Raised;
      }
      var phone := SessionOf(user).phone;
      if Truthy(phone) {
        calls := calls + [StartForwarding(phone.value, source.value, destination.value)];
      }
      o := Done;
    }

    /** `delete_source:<id>` and `delete_destination:<id>`: with a phone, the manager deletes the channel. */
    method DeleteButton(user: int, data: string, isSource: bool)
      modifies this`calls
      requires Field(data, 1).Some?
      ensures calls == old(calls) + (if !Truthy(SessionOf(user).phone) then []
                                     else if isSource then [DeleteSource(SessionOf(user).phone.value, Field(data, 1).value)]
                                     else [DeleteDestination(SessionOf(user).phone.value, Field(data, 1).value)])
    {
      var id := Field(data, 1).value;
      var phone := SessionOf(user).phone;
      if Truthy(phone) {
        calls := calls + [if isSource then DeleteSource(phone.value, id) else DeleteDestination(phone.value, id)];
      }
    }

    /**
     * `button_callback`: each button's branch, as `PressOf` tells them
     * apart. Every branch but Logout keeps `Valid`; unknown data (and the
     * menu buttons) change nothing.
     */
    method ButtonCallback(user: int, data: string) returns (o: Handled, offer: Offer)
      modifies this`userStates, this`sessions, this`calls
      ensures PressOf(data) != LogoutPress && old(Valid()) ==> Valid()
      ensures PressOf(data) != SelectDestinationPress ==> offer == NoOffer
      ensures PressOf(data) == OtherPress ==>
        o == Done && userStates == old(userStates) && sessions == old(sessions) && calls == old(calls)
    {
      o, offer := Done, NoOffer;
      match PressOf(data) {
        case LoginPress => Login(user);
        case AddSourcePress => AddSourceButton(user);
        case AddDestinationPress => AddDestinationButton(user);
        case CancelForwardingPress => CancelCommand(user);
        case SelectSourcePress => o := SelectSource(user, data);
        case SelectDestinationPress => o, offer := SelectDestination(user, data);
        case SetLastMessagePress => o := SetLastMessageButton(user, data);
        case ForwardNowPress => o := ForwardNow(user, data);
        case DeleteSourcePress =>
          FieldAfterPrefix(data, "delete_source:");
          DeleteButton(user, data, true);
        case DeleteDestinationPress =>
          FieldAfterPrefix(data, "delete_destination:");
          DeleteButton(user, data, false);
        case LogoutPress => LogoutCommand(user);
        case OtherPress =>
      }
    }
  }
}
