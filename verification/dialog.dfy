/**
 * What the two Telethon-side chat front ends (telegram_bot.py and
 * telegram_client.py) share: the ten dialog states, the per-user session
 * record, the calls they make into the bot manager, and the answers those
 * calls come back with.
 */
module Dialog {
  import opened Common

  /** `STATE_INITIAL` (0) to `STATE_SELECTING_DESTINATION` (9). */
  datatype DialogState =
    | Initial
    | AwaitingApiId
    | AwaitingApiHash
    | AwaitingPhone
    | AwaitingCode
    | AwaitingSource
    | AwaitingDestination
    | AwaitingLastMessage
    | SelectingSource
    | SelectingDestination

  /** The number each state constant is defined as. */
  function StateNumber(s: DialogState): (n: nat)
    ensures n <= 9
    ensures s == Initial <==> n == 0
  {
    match s
    case Initial => 0
    case AwaitingApiId => 1
    case AwaitingApiHash => 2
    case AwaitingPhone => 3
    case AwaitingCode => 4
    case AwaitingSource => 5
    case AwaitingDestination => 6
    case AwaitingLastMessage => 7
    case SelectingSource => 8
    case SelectingDestination => 9
  }

  /** Distinct states have distinct numbers, so comparing numbers is comparing states. */
  lemma StateNumberInjective(s: DialogState, t: DialogState)
    ensures StateNumber(s) == StateNumber(t) <==> s == t
  {
  }

  /** The keys of a user's session dict; a missing key is None. */
  datatype Session = Session(
    apiId: Option<int>,
    apiHash: Option<string>,
    phone: Option<string>,
    selectedSource: Option<string>,
    selectedDestination: Option<string>)

  const EmptySession: Session := Session(None, None, None, None, None)

  /** Python truthiness of a string value that may be missing. */
  predicate Truthy(s: Option<string>) { s.Some? && |s.value| > 0 }

  /**
   * A session that can serve its state's step without a KeyError: the API
   * hash step has the id, the phone step has id and hash, the code step has
   * the phone, and the last-message step has both selected ids.
   */
  predicate Ready(state: DialogState, s: Session)
  {
    (state == AwaitingApiHash ==> s.apiId.Some?)
    && (state == AwaitingPhone ==> s.apiId.Some? && s.apiHash.Some?)
    && (state == AwaitingCode ==> s.phone.Some?)
    && (state == AwaitingLastMessage ==> s.selectedSource.Some? && s.selectedDestination.Some?)
  }

  /** A bot-manager call the front end makes, with its arguments. */
  datatype Call =
    | Initialize(phone: string, apiId: int, apiHash: string)
    | SubmitCode(phone: string, code: string)
    | AddSource(phone: string, link: string)
    | AddDestination(phone: string, link: string)
    | SetLastMessage(phone: string, sourceId: string, link: string)
    | StartForwarding(phone: string, sourceId: string, destinationId: string)
    | CancelForwarding(phone: string)
    | DeleteSource(phone: string, id: string)
    | DeleteDestination(phone: string, id: string)
    | Logout(phone: string)

  /**
   * What the call comes back with: a result dict, read through its
   * 'success' and 'needs_code' keys, or an exception.
   */
  datatype Answer = Returned(success: bool, needsCode: bool) | Threw

  /** What `select_destination:` answers: the Yes/No offer for a pair, an error, or nothing. */
  datatype Offer = NoOffer | OfferPair(sourceId: string, destinationId: string) | NotSelected

  /** How a handler ends: normally, or with an exception that escapes it (a KeyError or IndexError). */
  datatype Handled = Done | Raised

  /** `s.startswith(prefix)`. */
  predicate StartsWith(s: string, prefix: string)
  {
    |prefix| <= |s| && s[..|prefix|] == prefix
  }

  /** Two prefixes that differ at some position never both open the same string. */
  lemma PrefixesExclusive(data: string, p: string, q: string, k: nat)
    requires k < |p| && k < |q| && p[k] != q[k]
    ensures !(StartsWith(data, p) && StartsWith(data, q))
  {
  }

  /** Data opening with a prefix that holds a ':' has a field 1. */
  lemma FieldAfterPrefix(data: string, prefix: string)
    requires StartsWith(data, prefix) && ':' in prefix
    ensures Field(data, 1).Some?
  {
    var k :| 0 <= k < |prefix| && prefix[k] == ':';
    assert data[k] == ':';
    SplitHasTwo(data, ':');
  }

  /** `data.split(":")[i]`, None where the IndexError is raised. */
  function Field(data: string, i: nat): (r: Option<string>)
    ensures r.Some? ==> ':' !in r.value
    ensures r.Some? <==> i < |Split(data, ':')|
  {
    var parts := Split(data, ':');
    if i < |parts| then Some(parts[i]) else None
  }

  /** Callback data built as `prefix:a:b` gives `a` and `b` back as fields 1 and 2. */
  lemma FieldsOfButton(prefix: string, a: string, b: string)
    requires ':' !in prefix && ':' !in a && ':' !in b
    ensures Field(prefix + ":" + a + ":" + b, 1) == Some(a)
    ensures Field(prefix + ":" + a + ":" + b, 2) == Some(b)
  {
    var parts := [prefix, a, b];
    assert parts[1..] == [a, b] && parts[1..][1..] == [b];
    assert Join([b], ':') == b;
    assert Join([a, b], ':') == a + [':'] + b;
    assert Join(parts, ':') == prefix + [':'] + (a + [':'] + b);
    assert prefix + [':'] + (a + [':'] + b) == prefix + ":" + a + ":" + b;
    SplitJoin(parts, ':');
  }

  /**
   * The step a text that is not "/cancel" takes in the user's state: a
   * KeyError when the step reads a session key that is missing, otherwise
   * normal. `next` is the state written (None when the state is left as it
   * is), `session` the session after the step, `made` the manager calls.
   */
  datatype Step = Step(handled: Handled, next: Option<DialogState>, session: Session, made: seq<Call>)

  /** The state after a step. */
  function After(state: DialogState, r: Step): DialogState
  {
    if r.next.Some? then r.next.value else state
  }

  /** The session keys a state's step reads with `[...]` and that are missing. */
  predicate MissingKey(state: DialogState, s: Session)
  {
    (state == AwaitingPhone && (s.apiId.None? || s.apiHash.None?))
    || ((state == AwaitingCode || state == AwaitingSource || state == AwaitingDestination || state == AwaitingLastMessage)
        && s.phone.None?)
  }

  /**
   * `handle_message` (and the Telethon client's `message_handler`) from the
   * state test on: the API id when the text is a number, the API hash, the
   * phone and the login call (stored before the id and hash are read), the
   * code, a source or destination link, and the last message link followed
   * by the start of forwarding. The state moves on only when the call
   * answers with success (or, for the login, answers at all).
   */
  function MessageStep(state: DialogState, s: Session, text: string, answer: Answer): (r: Step)
    ensures |r.made| <= 2
    ensures |r.made| == 2 ==>
      state == AwaitingLastMessage && answer.Returned? && answer.success
      && r.made[0].SetLastMessage? && r.made[1].StartForwarding?
      && r.made[1].sourceId == r.made[0].sourceId && r.made[0].link == text
    ensures state == AwaitingApiId ==> r.made == [] && (r.next == Some(AwaitingApiHash) <==> ParseInt(text).Some?)
    ensures r.made != [] ==> Some(r.made[0].phone) == if state == AwaitingPhone then Some(text) else s.phone
  {
    var succeeded := answer.Returned? && answer.success;
    match state
    case AwaitingApiId =>
      var id := ParseInt(text);
      if id.Some? then Step(Done, Some(AwaitingApiHash), s.(apiId := id), [])
      else Step(Done, None, s, [])
    case AwaitingApiHash =>
      Step(Done, Some(AwaitingPhone), s.(apiHash := Some(text)), [])
    case AwaitingPhone =>
      var s' := s.(phone := Some(text));
      if s.apiId.None? || s.apiHash.None? then Step(Raised, None, s', [])
      else
        var next := if answer.Threw? then None else if answer.needsCode then Some(AwaitingCode) else Some(Initial);
        Step(Done, next, s', [Initialize(text, s.apiId.value, s.apiHash.value)])
    case AwaitingCode =>
      if s.phone.None? then Step(Raised, None, s, [])
      else Step(Done, if succeeded then Some(Initial) else None, s, [SubmitCode(s.phone.value, text)])
    case AwaitingSource =>
      if s.phone.None? then Step(Raised, None, s, [])
      else Step(Done, if succeeded then Some(Initial) else None, s, [AddSource(s.phone.value, text)])
    case AwaitingDestination =>
      if s.phone.None? then Step(Raised, None, s, [])
      else Step(Done, if succeeded then Some(Initial) else None, s, [AddDestination(s.phone.value, text)])
    case AwaitingLastMessage =>
      if s.phone.None? then Step(Raised, None, s, [])
      else if !Truthy(s.selectedSource) || !Truthy(s.selectedDestination) then Step(Done, None, s, [])
      else
        var setCall := SetLastMessage(s.phone.value, s.selectedSource.value, text);
        if succeeded then
          Step(Done, Some(Initial), s,
               [setCall, StartForwarding(s.phone.value, s.selectedSource.value, s.selectedDestination.value)])
        else Step(Done, None, s, [setCall])
    case _ => Step(Done, None, s, [])
  }

  /** A step raises exactly when it reads a missing key, and then it has made no call and kept the state. */
  lemma StepRaises(state: DialogState, s: Session, text: string, answer: Answer)
    ensures var r := MessageStep(state, s, text, answer);
      && (r.handled == Raised <==> MissingKey(state, s))
      && (r.handled == Raised ==> r.next.None? && r.made == [])
  {
  }

  /** A session ready for its state is ready for the state the step leaves. */
  lemma StepKeepsReady(state: DialogState, s: Session, text: string, answer: Answer)
    requires Ready(state, s)
    ensures Ready(After(state, MessageStep(state, s, text, answer)), MessageStep(state, s, text, answer).session)
  {
  }

  /**
   * From a ready session only the link steps can raise: the phone and code
   * steps find their keys.
   */
  lemma ReadyStepRaises(state: DialogState, s: Session, text: string, answer: Answer)
    requires Ready(state, s)
    ensures MessageStep(state, s, text, answer).handled == Raised ==>
      (state == AwaitingSource || state == AwaitingDestination || state == AwaitingLastMessage) && s.phone.None?
  {
  }

  /**
   * The dialog returns to initial only on a call that answered with
   * success, or a login that needed no code.
   */
  lemma StepEndsOnSuccess(state: DialogState, s: Session, text: string, answer: Answer)
    ensures MessageStep(state, s, text, answer).next == Some(Initial) ==>
      answer.Returned? && (answer.success || (state == AwaitingPhone && !answer.needsCode))
  {
  }

  /**
   * A step writes the API id only in its own state, likewise the hash and
   * the phone (which becomes the text), and never the selected ids.
   */
  lemma StepWritesOwnKey(state: DialogState, s: Session, text: string, answer: Answer)
    ensures var r := MessageStep(state, s, text, answer).session;
      && (r.apiId != s.apiId ==> state == AwaitingApiId)
      && (r.apiHash != s.apiHash ==> state == AwaitingApiHash)
      && (r.phone != s.phone ==> state == AwaitingPhone && r.phone == Some(text))
      && r.selectedSource == s.selectedSource && r.selectedDestination == s.selectedDestination
  {
  }

  /** The prefixed buttons the callback handlers test are told apart by their data. */
  lemma CallbackPrefixes(data: string)
    ensures !(StartsWith(data, "select_source:") && StartsWith(data, "select_destination:"))
    ensures !(StartsWith(data, "set_last_message:") && StartsWith(data, "select_source:"))
    ensures !(StartsWith(data, "set_last_message:") && StartsWith(data, "select_destination:"))
    ensures !(StartsWith(data, "forward_now:") && StartsWith(data, "select_source:"))
    ensures !(StartsWith(data, "forward_now:") && StartsWith(data, "select_destination:"))
    ensures !(StartsWith(data, "forward_now:") && StartsWith(data, "set_last_message:"))
    ensures forall p :: p in ["select_source:", "select_destination:", "set_last_message:", "forward_now:", "delete_destination:"] ==>
      !(StartsWith(data, "delete_source:") && StartsWith(data, p))
    ensures forall p :: p in ["select_source:", "select_destination:", "set_last_message:", "forward_now:"] ==>
      !(StartsWith(data, "delete_destination:") && StartsWith(data, p))
  {
    PrefixesExclusive(data, "select_source:", "select_destination:", 7);
    PrefixesExclusive(data, "set_last_message:", "select_source:", 2);
    PrefixesExclusive(data, "set_last_message:", "select_destination:", 2);
    PrefixesExclusive(data, "forward_now:", "select_source:", 0);
    PrefixesExclusive(data, "forward_now:", "select_destination:", 0);
    PrefixesExclusive(data, "forward_now:", "set_last_message:", 0);
    var others := ["select_source:", "select_destination:", "set_last_message:", "forward_now:"];
    forall p | p in others
      ensures !(StartsWith(data, "delete_source:") && StartsWith(data, p))
      ensures !(StartsWith(data, "delete_destination:") && StartsWith(data, p))
    {
      PrefixesExclusive(data, "delete_source:", p, 0);
      PrefixesExclusive(data, "delete_destination:", p, 0);
    }
    PrefixesExclusive(data, "delete_source:", "delete_destination:", 7);
  }

  /** The buttons whose callback touches the dialog or the manager, as the handlers tell them apart. */
  datatype Press =
    | LoginPress
    | AddSourcePress
    | AddDestinationPress
    | CancelForwardingPress
    | SelectSourcePress
    | SelectDestinationPress
    | SetLastMessagePress
    | ForwardNowPress
    | DeleteSourcePress
    | DeleteDestinationPress
    | LogoutPress
    | OtherPress

  /** Which button callback data belongs to: exact data, or a `prefix:` and its fields. */
  function PressOf(data: string): Press
  {
    if data == "login" then LoginPress
    else if data == "add_source" then AddSourcePress
    else if data == "add_destination" then AddDestinationPress
    else if data == "cancel_forwarding" then CancelForwardingPress
    else if data == "logout" then LogoutPress
    else if StartsWith(data, "select_source:") then SelectSourcePress
    else if StartsWith(data, "select_destination:") then SelectDestinationPress
    else if StartsWith(data, "set_last_message:") then SetLastMessagePress
    else if StartsWith(data, "forward_now:") then ForwardNowPress
    else if StartsWith(data, "delete_source:") then DeleteSourcePress
    else if StartsWith(data, "delete_destination:") then DeleteDestinationPress
    else OtherPress
  }
}
