/**
 * The registry of bot_manager.py: which phones have a Telegram client, which
 * have a forwarder, and the task each phone last started. The Telegram
 * client itself is not modelled: `clients` is the set of phones holding one,
 * and every answer a client call gives (authorisation, sign-in, resolving or
 * joining a chat) is a parameter. Fresh ids, which the source draws from
 * `uuid4`, are parameters too.
 */
module Manager {
  import opened Common
  import opened UserStore
  import Relay

  /** An entry of `active_tasks`. */
  datatype ActiveTask = ActiveTask(
    sourceId: string,
    destinationId: string,
    status: Relay.RunStatus,
    totalMessages: int,
    forwardedMessages: int,
    lastForwardedId: Option<int>,
    error: Option<string>)

  /** The task `start_forwarding` registers: running, nothing counted yet. */
  function FreshTask(sourceId: string, destinationId: string): ActiveTask
  {
    ActiveTask(sourceId, destinationId, Relay.Running, 0, 0, None, None)
  }

  /** The dicts the registry returns: `success: True` with the extra keys, or `success: False` with the error. */
  datatype Reply = Success(extra: map<string, Json>) | Failure(error: string)

  const NoClient := "Client not initialized"
  const NoForwarder := "Forwarder not initialized"
  const TwoFactor := "Two-factor authentication is enabled. Please use the official Telegram app for logging in."
  const SourceMissing := "Source not found"
  const DestinationMissing := "Destination not found"
  const SourceBusy := "Cannot delete a source that is being used in an active task"
  const DestinationBusy := "Cannot delete a destination that is being used in an active task"

  // ---------------------------------------------------------------------
  // Answers of the Telegram client
  // ---------------------------------------------------------------------

  /** What `initialize_bot` learns from the client: already authorised, a code sent, or an exception. */
  datatype Login = Authorized | CodeSent | LoginRaised

  /** What `sign_in` does: signs in, asks for the 2FA password, or raises another error. */
  datatype SignIn = SignedIn | PasswordNeeded | SignInFailed(text: string)

  /** A resolved chat: its id, and its title when it has one. */
  datatype Entity = Entity(id: int, title: Option<string>)

  /** The request made when `get_entity` fails. */
  datatype JoinRequest = ImportInvite(inviteHash: string) | JoinChannel(link: string)

  /** Private invite links carry their hash after the last '/'; anything else is joined as a public channel. */
  function FallbackRequest(link: string): (r: JoinRequest)
    ensures r.ImportInvite? <==> HasInfix(link, "joinchat")
    ensures r.JoinChannel? ==> r.link == link
  {
    if HasInfix(link, "joinchat") then
      var parts := Split(link, '/');
      ImportInvite(parts[|parts| - 1])
    else JoinChannel(link)
  }

  /** An invite link `…/joinchat/<hash>` imports exactly `<hash>`. */
  lemma InviteHashOfLink(prefix: string, hash: string)
    requires '/' !in hash
    ensures FallbackRequest(prefix + "joinchat/" + hash) == ImportInvite(hash)
  {
    var link := prefix + "joinchat/" + hash;
    assert link == (prefix + "joinchat") + ['/'] + hash;
    SplitLast(prefix + "joinchat", hash, '/');
    JoinchatInfix(prefix, "joinchat/" + hash);
    assert link == prefix + ("joinchat/" + hash);
    assert HasInfix(link, "joinchat");
    var parts := Split(link, '/');
    assert parts[|parts| - 1] == hash;
  }

  /** A string that has "joinchat" right after `prefix` holds it. */
  lemma {:induction false} JoinchatInfix(prefix: string, rest: string)
    requires |rest| >= 8 && rest[..8] == "joinchat"
    ensures HasInfix(prefix + rest, "joinchat")
    decreases |prefix|
  {
    if |prefix| > 0 {
      assert (prefix + rest)[1..] == prefix[1..] + rest;
      JoinchatInfix(prefix[1..], rest);
    } else {
      assert prefix + rest == rest;
    }
  }

  /**
   * The chat a link resolves to: what `get_entity` gave (`lookup`), else,
   * for an invite link, the first chat of the imported invite (`joined`,
   * None when the import raised). Joining a public channel answers an
   * updates object, which has no `id`: reading it raises, so that fallback
   * never resolves.
   */
  function Resolve(link: string, lookup: Option<Entity>, joined: Option<Entity>): (r: Option<Entity>)
    ensures r.None? <==> lookup.None? && (joined.None? || !HasInfix(link, "joinchat"))
    ensures lookup.Some? ==> r == lookup
    ensures lookup.None? && HasInfix(link, "joinchat") ==> r == joined
  {
    if lookup.Some? then lookup
    else if FallbackRequest(link).ImportInvite? then joined
    else None
  }

  /** `getattr(entity, 'title', link)`. */
  function TitleOf(e: Entity, link: string): string
  {
    match e.title case Some(t) => t case None => link
  }

  /** The source dict `add_source` stores and returns. */
  function SourceEntry(id: string, link: string, e: Entity): (j: Json)
    ensures j.JObj? && j.fields.Keys == {"id", "link", "title", "entity_id", "last_message_id"}
    ensures j.fields["id"] == JStr(id) && j.fields["entity_id"] == JInt(e.id) && j.fields["last_message_id"] == JNull
  {
    JObj(map["id" := JStr(id), "link" := JStr(link), "title" := JStr(TitleOf(e, link)),
             "entity_id" := JInt(e.id), "last_message_id" := JNull])
  }

  /** The destination dict `add_destination` stores and returns. */
  function DestinationEntry(id: string, link: string, e: Entity): (j: Json)
    ensures j.JObj? && j.fields.Keys == {"id", "link", "title", "entity_id"}
    ensures j.fields["id"] == JStr(id) && j.fields["entity_id"] == JInt(e.id)
  {
    JObj(map["id" := JStr(id), "link" := JStr(link), "title" := JStr(TitleOf(e, link)), "entity_id" := JInt(e.id)])
  }

  // ---------------------------------------------------------------------
  // set_last_message: the message id at the end of a link
  // ---------------------------------------------------------------------

  /** `link.rstrip('/').split('/')[-1]`. */
  function LinkTail(link: string): string
  {
    var parts := Split(RStrip(link, '/'), '/');
    parts[|parts| - 1]
  }

  /** `int(link.rstrip('/').split('/')[-1])`; None where `int` raises. */
  function LinkMessageId(link: string): Option<int>
  {
    ParseInt(LinkTail(link))
  }

  function Slashes(k: nat): (r: string)
    ensures |r| == k && forall i :: 0 <= i < k ==> r[i] == '/'
  {
    if k == 0 then "" else Slashes(k - 1) + "/"
  }

  /** Stripping trailing slashes from a text that does not end in one gives the text back. */
  lemma RStripSlashes(body: string, k: nat)
    requires |body| > 0 && body[|body| - 1] != '/'
    ensures RStrip(body + Slashes(k), '/') == body
  {
    var link := body + Slashes(k);
    var r := RStrip(link, '/');
    assert link[..|body|] == body;
    assert forall i :: |body| <= i < |link| ==> link[i] == '/';
    assert link[|body| - 1] != '/';
  }

  /** `str(n)` holds no slash. */
  lemma NumeralHasNoSlash(n: int)
    ensures '/' !in IntToString(n)
  {
    var tail := IntToString(n);
    if n >= 0 {
      assert tail == NatToString(n);
      assert AllDigits(tail);
    } else {
      assert tail == "-" + NatToString(-n);
      assert AllDigits(tail[1..]);
    }
  }

  /**
   * A link `…/<n>`, with any number of trailing slashes, names message `n`:
   * the parse inverts writing the id at the end of a link.
   */
  lemma LinkMessageIdOf(prefix: string, n: int, trailing: nat)
    ensures LinkMessageId(prefix + "/" + IntToString(n) + Slashes(trailing)) == Some(n)
  {
    NumeralHasNoSlash(n);
    LinkTailOf(prefix, IntToString(n), trailing);
    ParseIntOfIntToString(n);
  }

  /** The tail of `…/<tail>` followed by slashes is `<tail>`. */
  lemma LinkTailOf(prefix: string, tail: string, trailing: nat)
    requires |tail| > 0 && '/' !in tail
    ensures LinkTail(prefix + "/" + tail + Slashes(trailing)) == tail
  {
    var body := prefix + "/" + tail;
    assert body[|body| - 1] == tail[|tail| - 1];
    RStripSlashes(body, trailing);
    assert body == prefix + ['/'] + tail;
    SplitLast(prefix, tail, '/');
  }


  /**
   * Python's `key in x`: a dict tests its keys, a list its items, a string
   * its substrings; on anything else the test raises (None).
   */
  function MemberTest(x: Json, key: string): (r: Option<bool>)
    ensures r.None? <==> !(x.JObj? || x.JList? || x.JStr?)
    ensures x.JObj? ==> r == Some(key in x.fields)
  {
    match x
    case JObj(fields) => Some(key in fields)
    case JList(items) => Some(JStr(key) in items)
    case JStr(s) => Some(HasInfix(s, key))
    case _ => None
  }

  /**
   * What looking an id up in a field of the user record gives: no record
   * (reading it raises), a field the `in` test raises on, an id the test
   * does not find, an id found in a list or a string (subscripting it with
   * the id raises), an entry that is not a dict, or the updated record.
   */
  datatype SetOutcome = NoRecord | Untestable | Unknown | Unindexable | BadEntry | Updated(rec: UserRecord)

  /**
   * The user record after `sources[source_id]['last_message_id'] = n`.
   * "Source not found" is answered exactly when the `in` test is false; on
   * a dict, exactly when the id is not a key.
   */
  function WithLastMessage(data: Option<UserRecord>, sourceId: string, n: int): (o: SetOutcome)
    ensures o == NoRecord <==> data.None?
    ensures data.Some? ==>
      (o.Unknown? <==> MemberTest(GetOr(data.value, "sources", JObj(map[])), sourceId) == Some(false))
    ensures data.Some? && GetOr(data.value, "sources", JObj(map[])).JObj? ==>
      (o.Unknown? <==> sourceId !in GetOr(data.value, "sources", JObj(map[])).fields)
  {
    match data
    case None => NoRecord
    case Some(rec) =>
      var sources := GetOr(rec, "sources", JObj(map[]));
      match MemberTest(sources, sourceId)
      case None => Untestable
      case Some(found) =>
        if !found then Unknown
        else if !sources.JObj? then Unindexable
        else (match sources.fields[sourceId]
              case JObj(entry) =>
                Updated(rec["sources" := JObj(sources.fields[sourceId := JObj(entry["last_message_id" := JInt(n)])])])
              case _ => BadEntry)
  }

  function GetOr(rec: map<string, Json>, key: string, default: Json): Json
  {
    if key in rec then rec[key] else default
  }

  /**
   * Setting the last message changes only that source's `last_message_id`:
   * every other key of the record, every other source and every other key
   * of the entry stay.
   */
  lemma WithLastMessageUpdates(rec: UserRecord, sourceId: string, n: int)
    ensures var o := WithLastMessage(Some(rec), sourceId, n);
      o.Updated? ==>
        "sources" in rec && rec["sources"].JObj? && sourceId in rec["sources"].fields
        && o.rec.Keys == rec.Keys
        && (forall k :: k in rec && k != "sources" ==> o.rec[k] == rec[k])
        && o.rec["sources"].JObj? && o.rec["sources"].fields.Keys == rec["sources"].fields.Keys
        && (forall s :: s in rec["sources"].fields && s != sourceId ==> o.rec["sources"].fields[s] == rec["sources"].fields[s])
        && rec["sources"].fields[sourceId].JObj? && o.rec["sources"].fields[sourceId].JObj?
        && o.rec["sources"].fields[sourceId].fields == rec["sources"].fields[sourceId].fields["last_message_id" := JInt(n)]
  {
  }

  /** A list of sources, or a text, that holds the id answers as if the source existed but fails on the update. */
  lemma WithLastMessageOnList(id: string, n: int)
    ensures WithLastMessage(Some(map["sources" := JList([JStr(id)])]), id, n) == Unindexable
    ensures WithLastMessage(Some(map["sources" := JList([])]), id, n) == Unknown
    ensures WithLastMessage(Some(map["sources" := JInt(n)]), id, n) == Untestable
  {
  }

  // ---------------------------------------------------------------------
  // start_forwarding: what it finds in the user's record
  // ---------------------------------------------------------------------

  /**
   * The lookups `start_forwarding` makes before calling the forwarder:
   * the record is read (raising when missing); the source id, then the
   * destination id, is tested with `in` (a false test returns quietly, a
   * test on something other than a dict, list or string raises); both
   * entries are read by subscripting, which raises unless the field is a
   * dict; and both entries' `entity_id` is read, which raises after the
   * task was registered. A task is registered (Found or EntryRaised) only
   * when both fields are dicts holding the ids, and the forwarder is called
   * only when both entries have an `entity_id`.
   */
  datatype StartCheck = LookupRaised | Absent | EntryRaised | Found

  function StartLookup(data: Option<UserRecord>, sourceId: string, destinationId: string): (r: StartCheck)
    ensures data.None? ==> r == LookupRaised
    ensures r == Found || r == EntryRaised ==>
      var rec := data.value;
      "sources" in rec && rec["sources"].JObj? && sourceId in rec["sources"].fields
      && "destinations" in rec && rec["destinations"].JObj? && destinationId in rec["destinations"].fields
      && (r == Found <==> HasEntityId(rec["sources"].fields[sourceId]) && HasEntityId(rec["destinations"].fields[destinationId]))
  {
    match data
    case None => LookupRaised
    case Some(rec) =>
      var sources := GetOr(rec, "sources", JObj(map[]));
      var destinations := GetOr(rec, "destinations", JObj(map[]));
      match MemberTest(sources, sourceId)
      case None => LookupRaised
      case Some(false) => Absent
      case Some(true) =>
        match MemberTest(destinations, destinationId)
        case None => LookupRaised
        case Some(false) => Absent
        case Some(true) =>
          if !sources.JObj? || !destinations.JObj? then LookupRaised
          else if HasEntityId(sources.fields[sourceId]) && HasEntityId(destinations.fields[destinationId]) then Found
          else EntryRaised
  }

  predicate HasEntityId(entry: Json) { entry.JObj? && "entity_id" in entry.fields }

  /**
   * `start_forwarding` returns without recording anything exactly when an
   * `in` test is false: the source's first, then the destination's.
   */
  lemma StartLookupAbsent(rec: UserRecord, sourceId: string, destinationId: string)
    ensures var s := MemberTest(GetOr(rec, "sources", JObj(map[])), sourceId);
            var d := MemberTest(GetOr(rec, "destinations", JObj(map[])), destinationId);
      StartLookup(Some(rec), sourceId, destinationId) == Absent <==>
        s == Some(false) || (s == Some(true) && d == Some(false))
  {
  }

  /** A record whose sources are an empty dict returns quietly, whatever its destinations hold. */
  lemma StartLookupEmptySources(sourceId: string, destinationId: string, destinations: Json)
    ensures StartLookup(Some(map["sources" := JObj(map[]), "destinations" := destinations]), sourceId, destinationId) == Absent
  {
  }

  /** The entry that ends in `active_tasks` when `start_forwarding`'s `except` runs. */
  function MarkFailed(tasks: map<string, ActiveTask>, phone: string, err: string): (r: map<string, ActiveTask>)
    ensures r.Keys == tasks.Keys
    ensures forall p :: p in tasks && p != phone ==> r[p] == tasks[p]
    ensures phone in tasks ==> r[phone] == tasks[phone].(status := Relay.Failed, error := Some(err))
  {
    if phone in tasks then tasks[phone := tasks[phone].(status := Relay.Failed, error := Some(err))] else tasks
  }

  // ---------------------------------------------------------------------
  // get_forwarding_status
  // ---------------------------------------------------------------------

  /** The status dict: idle when the phone has no task, else the task's fields and its progress. */
  datatype StatusReport =
    | Idle
    | Report(active: bool, status: Relay.RunStatus, sourceId: string, destinationId: string,
             totalMessages: int, forwardedMessages: int, percentHundredths: int, error: Option<string>)

  /**
   * `forwarded / total * 100` in hundredths of a percent, truncated toward
   * zero as the integer stand-in for `round(…, 2)`; 0 when the total is not
   * positive.
   */
  function PercentHundredths(forwarded: int, total: int): (r: int)
    ensures total <= 0 ==> r == 0
    ensures total > 0 && 0 <= forwarded <= total ==> 0 <= r <= 10000
    ensures total > 0 && forwarded == total ==> r == 10000
  {
    if total <= 0 then 0
    else if forwarded >= 0 then forwarded * 10000 / total
    else -((-forwarded) * 10000 / total)
  }

  function StatusOf(tasks: map<string, ActiveTask>, phone: string): (r: StatusReport)
    ensures r.Idle? <==> phone !in tasks
    ensures r.Report? ==> (r.active <==> r.status == Relay.Running)
    ensures r.Report? ==> r.status == tasks[phone].status && r.error == tasks[phone].error
                          && r.sourceId == tasks[phone].sourceId && r.destinationId == tasks[phone].destinationId
    ensures r.Report? && tasks[phone].totalMessages == 0 ==> r.percentHundredths == 0
  {
    if phone !in tasks then Idle
    else
      var t := tasks[phone];
      Report(t.status == Relay.Running, t.status, t.sourceId, t.destinationId, t.totalMessages,
             t.forwardedMessages, PercentHundredths(t.forwardedMessages, t.totalMessages), t.error)
  }

  /** Nothing writes a task's counters after `start_forwarding` zeroes them. */
  predicate CountersZero(tasks: map<string, ActiveTask>)
  {
    forall p :: p in tasks ==> tasks[p].totalMessages == 0 && tasks[p].forwardedMessages == 0 && tasks[p].lastForwardedId.None?
  }

  /** Hence the reported progress is always 0, whatever the forwarder did. */
  lemma StatusProgressAlwaysZero(tasks: map<string, ActiveTask>, phone: string)
    requires CountersZero(tasks)
    ensures StatusOf(tasks, phone).Report? ==>
      StatusOf(tasks, phone).percentHundredths == 0 && StatusOf(tasks, phone).forwardedMessages == 0
  {
  }

  // ---------------------------------------------------------------------
  // The registry
  // ---------------------------------------------------------------------

  class BotManager {
    const storage: Storage
    /** The phones with a client in `clients`. */
    var clients: set<string>
    var forwarders: map<string, Relay.Forwarder>
    var activeTasks: map<string, ActiveTask>

    /** Every forwarder works on this registry's store, for its own phone; task counters stay zero. */
    ghost predicate Valid()
      reads this
    {
      (forall p :: p in forwarders ==> forwarders[p].storage == storage && forwarders[p].phone == p)
      && CountersZero(activeTasks)
    }

    constructor(storage: Storage)
      ensures this.storage == storage && clients == {} && forwarders == map[] && activeTasks == map[]
      ensures Valid()
    {
      this.storage := storage;
      clients := {};
      forwarders := map[];
      activeTasks := map[];
    }

    /**
     * `initialize_bot`. Authorised: the phone gets a client, a record when
     * it has none, and a new forwarder. Code sent: the client and the
     * record, no forwarder. An exception drops the phone's client and is
     * re-raised (`raised`).
     */
    method InitializeBot(phone: string, apiId: Json, apiHash: Json, login: Login) returns (raised: bool, needsCode: bool)
      requires Valid()
      modifies this, storage
      ensures Valid() && activeTasks == old(activeTasks)
      ensures raised <==> login == LoginRaised
      ensures needsCode <==> login == CodeSent
      ensures raised ==> clients == old(clients) - {phone} && forwarders == old(forwarders) && storage.files == old(storage.files)
      ensures !raised ==> clients == old(clients) + {phone}
                          && storage.files == if phone in old(storage.files) then old(storage.files)
                                              else old(storage.files)[phone := Parsed(NewUser(phone, apiId, apiHash))]
      ensures login == CodeSent ==> forwarders == old(forwarders)
      ensures login == Authorized ==> forwarders.Keys == old(forwarders).Keys + {phone}
                                      && (forall p :: p in old(forwarders) && p != phone ==> forwarders[p] == old(forwarders)[p])
                                      && fresh(forwarders[phone]) && !forwarders[phone].isRunning
    {
      needsCode := false;
      if login == LoginRaised {
        clients := clients - {phone};
        return true, false;
      }
      clients := clients + {phone};
      if !storage.UserExists(phone) {
        var _ := storage.CreateUser(phone, apiId, apiHash);
      }
      if login == Authorized {
        var f := new Relay.Forwarder(storage, phone);
        forwarders := forwarders[phone := f];
      } else {
        needsCode := true;
      }
      raised := false;
    }

    /** `submit_code`: a signed-in phone gets a new forwarder. */
    method SubmitCode(phone: string, code: string, answer: SignIn) returns (r: Reply)
      requires Valid()
      modifies this`forwarders
      ensures Valid()
      ensures phone !in clients ==> r == Failure(NoClient) && forwarders == old(forwarders)
      ensures phone in clients && answer == PasswordNeeded ==> r == Failure(TwoFactor) && forwarders == old(forwarders)
      ensures phone in clients && answer.SignInFailed? ==> r == Failure(answer.text) && forwarders == old(forwarders)
      ensures phone in clients && answer == SignedIn ==>
                r == Success(map[]) && forwarders.Keys == old(forwarders).Keys + {phone}
                && (forall p :: p in old(forwarders) && p != phone ==> forwarders[p] == old(forwarders)[p])
                && fresh(forwarders[phone])
    {
      if phone !in clients {
        return Failure(NoClient);
      }
      match answer {
        case SignedIn =>
          var f := new Relay.Forwarder(storage, phone);
          forwarders := forwarders[phone := f];
          r := Success(map[]);
        case PasswordNeeded =>
          r := Failure(TwoFactor);
        case SignInFailed(text) =>
          r := Failure(text);
      }
    }

    /**
     * `add_source`: the link resolved (or joined), the source stored under
     * the new id and returned. A store whose `sources` is not an object
     * raises on the insertion and the reply is the error; its other answer,
     * no user, is not looked at. `request` is the fallback request made, if
     * any.
     */
    method AddSource(phone: string, link: string, newId: string, lookup: Option<Entity>, joined: Option<Entity>, err: string)
      returns (r: Reply, request: Option<JoinRequest>)
      modifies storage
      ensures phone !in clients ==> r == Failure(NoClient) && request.None? && storage.files == old(storage.files)
      ensures phone in clients ==> request == (if lookup.None? then Some(FallbackRequest(link)) else None)
      ensures phone in clients && Resolve(link, lookup, joined).None? ==> r == Failure(err) && storage.files == old(storage.files)
      ensures phone in clients && Resolve(link, lookup, joined).Some? && AddRaises(old(storage.files), phone, "sources") ==>
                r == Failure(err) && storage.files == old(storage.files)
      ensures phone in clients && Resolve(link, lookup, joined).Some? && !AddRaises(old(storage.files), phone, "sources") ==>
                var entry := SourceEntry(newId, link, Resolve(link, lookup, joined).value);
                r == Success(map["source" := entry])
                && storage.files == AddedFiles(old(storage.files), phone, "sources", newId, entry)
    {
      request := None;
      if phone !in clients {
        return Failure(NoClient), None;
      }
      if lookup.None? {
        request := Some(FallbackRequest(link));
      }
      var entity := Resolve(link, lookup, joined);
      if entity.None? {
        return Failure(err), request;
      }
      var entry := SourceEntry(newId, link, entity.value);
      var added := storage.AddSource(phone, newId, entry);
      if added == AddRaised {
        return Failure(err), request;
      }
      r := Success(map["source" := entry]);
    }

    /** `add_destination`: as `add_source`, into `destinations`. */
    method AddDestination(phone: string, link: string, newId: string, lookup: Option<Entity>, joined: Option<Entity>, err: string)
      returns (r: Reply, request: Option<JoinRequest>)
      modifies storage
      ensures phone !in clients ==> r == Failure(NoClient) && request.None? && storage.files == old(storage.files)
      ensures phone in clients ==> request == (if lookup.None? then Some(FallbackRequest(link)) else None)
      ensures phone in clients && Resolve(link, lookup, joined).None? ==> r == Failure(err) && storage.files == old(storage.files)
      ensures phone in clients && Resolve(link, lookup, joined).Some? && AddRaises(old(storage.files), phone, "destinations") ==>
                r == Failure(err) && storage.files == old(storage.files)
      ensures phone in clients && Resolve(link, lookup, joined).Some? && !AddRaises(old(storage.files), phone, "destinations") ==>
                var entry := DestinationEntry(newId, link, Resolve(link, lookup, joined).value);
                r == Success(map["destination" := entry])
                && storage.files == AddedFiles(old(storage.files), phone, "destinations", newId, entry)
    {
      request := None;
      if phone !in clients {
        return Failure(NoClient), None;
      }
      if lookup.None? {
        request := Some(FallbackRequest(link));
      }
      var entity := Resolve(link, lookup, joined);
      if entity.None? {
        return Failure(err), request;
      }
      var entry := DestinationEntry(newId, link, entity.value);
      var added := storage.AddDestination(phone, newId, entry);
      if added == AddRaised {
        return Failure(err), request;
      }
      r := Success(map["destination" := entry]);
    }

    /**
     * `set_last_message`: the id parsed from the link written into the
     * source's entry. A tail that is not an integer, a missing record, a
     * `sources` the `in` test or the subscript raises on, or an entry that
     * is not a dict fail with the exception's text; an id the `in` test does
     * not find fails with "Source not found"; the store changes only on
     * success.
     */
    method SetLastMessage(phone: string, sourceId: string, link: string, err: string) returns (r: Reply)
      modifies storage
      ensures phone !in clients ==> r == Failure(NoClient)
      ensures phone in clients && LinkMessageId(link).None? ==> r == Failure(err)
      ensures phone in clients && LinkMessageId(link).Some? ==>
                var o := WithLastMessage(old(Lookup(storage.files, phone)), sourceId, LinkMessageId(link).value);
                (o.Unknown? ==> r == Failure(SourceMissing))
                && (o.NoRecord? || o.Untestable? || o.Unindexable? || o.BadEntry? ==> r == Failure(err))
                && (o.Updated? ==> r == Success(map["message_id" := JInt(LinkMessageId(link).value)]))
      ensures r.Failure? ==> storage.files == old(storage.files)
      ensures r.Success? ==> storage.files == old(storage.files)[phone := Parsed(
                WithLastMessage(old(Lookup(storage.files, phone)), sourceId, LinkMessageId(link).value).rec)]
    {
      if phone !in clients {
        return Failure(NoClient);
      }
      var messageId := LinkMessageId(link);
      if messageId.None? {
        return Failure(err);
      }
      var data := storage.GetUserData(phone);
      match WithLastMessage(data, sourceId, messageId.value) {
        case Unknown => r := Failure(SourceMissing);
        case Updated(rec) =>
          var _ := storage.UpdateUser(phone, [("sources", rec["sources"])]);
          assert data.value != map[];
          assert Overwrite(data.value, [("sources", rec["sources"])]) == rec;
          r := Success(map["message_id" := JInt(messageId.value)]);
        case _ => r := Failure(err);
      }
    }

    /**
     * `start_forwarding`: with a client and a forwarder, and both ids found
     * in the user's record, the task is registered as running with zero
     * counters and the forwarder runs. An exception, from the lookups after
     * registration or from the forwarder, marks the phone's task failed.
     * The entry is not updated from the run's outcome.
     */
    method StartForwarding(phone: string, sourceId: string, destinationId: string, entitiesOk: bool,
                           counted: seq<Relay.Page>, pages: seq<Relay.Page>, cancelAt: Option<nat>,
                           fault: Option<Relay.FetchFault>, err: string)
      requires Valid()
      modifies this`activeTasks, storage, forwarders.Values
      ensures Valid()
      ensures phone !in clients || phone !in old(forwarders) ==> activeTasks == old(activeTasks) && storage.files == old(storage.files)
      ensures phone in clients && phone in old(forwarders) ==>
        var check := StartLookup(old(Lookup(storage.files, phone)), sourceId, destinationId);
        (check == LookupRaised ==> activeTasks == MarkFailed(old(activeTasks), phone, err))
        && (check == Absent ==> activeTasks == old(activeTasks))
        && (check == EntryRaised ==> activeTasks == MarkFailed(old(activeTasks)[phone := FreshTask(sourceId, destinationId)], phone, err))
        && (check == Found ==>
              var raised := !old(forwarders[phone].isRunning)
                            && Relay.Raises(old(Lookup(storage.files, phone)), Relay.StartProgress(sourceId, destinationId));
              activeTasks == if raised then MarkFailed(old(activeTasks)[phone := FreshTask(sourceId, destinationId)], phone, err)
                             else old(activeTasks)[phone := FreshTask(sourceId, destinationId)])
    {
      if phone !in clients || phone !in forwarders {
        return;
      }
      var data := storage.GetUserData(phone);
      var check := StartLookup(data, sourceId, destinationId);
      if check == LookupRaised {
        activeTasks := MarkFailed(activeTasks, phone, err);
        return;
      }
      if check == Absent {
        return;
      }
      activeTasks := activeTasks[phone := FreshTask(sourceId, destinationId)];
      if check == EntryRaised {
        activeTasks := MarkFailed(activeTasks, phone, err);
        return;
      }
      var f := forwarders[phone];
      var raised, _ := f.ForwardMessages(sourceId, destinationId, entitiesOk, counted, pages, cancelAt, fault, err);
      if raised {
        activeTasks := MarkFailed(activeTasks, phone, err);
      }
    }

    /** `cancel_forwarding`: the forwarder's flag raised and the phone's task, if any, marked cancelled. */
    method CancelForwarding(phone: string) returns (r: Reply)
      requires Valid()
      modifies this`activeTasks, forwarders.Values
      ensures Valid()
      ensures phone !in forwarders ==> r == Failure(NoForwarder) && activeTasks == old(activeTasks)
      ensures phone in forwarders ==> r == Success(map[]) && forwarders[phone].shouldCancel
      ensures phone in forwarders ==> activeTasks == if phone in old(activeTasks)
                                                    then old(activeTasks)[phone := old(activeTasks)[phone].(status := Relay.Cancelled)]
                                                    else old(activeTasks)
    {
      if phone !in forwarders {
        return Failure(NoForwarder);
      }
      forwarders[phone].CancelForwarding();
      if phone in activeTasks {
        activeTasks := activeTasks[phone := activeTasks[phone].(status := Relay.Cancelled)];
      }
      r := Success(map[]);
    }

    /** `get_forwarding_status`. */
    function GetForwardingStatus(phone: string): (r: StatusReport)
      reads this
      ensures r.Idle? <==> phone !in activeTasks
      ensures r.Report? ==> (r.active <==> activeTasks[phone].status == Relay.Running)
    {
      StatusOf(activeTasks, phone)
    }

    /** `logout_user`: the phone's client, forwarder and task are gone; nothing else changes. */
    method LogoutUser(phone: string) returns (ok: bool)
      requires Valid()
      modifies this
      ensures Valid() && ok
      ensures clients == old(clients) - {phone}
      ensures forwarders == old(forwarders) - {phone}
      ensures activeTasks == old(activeTasks) - {phone}
    {
      clients := clients - {phone};
      forwarders := forwarders - {phone};
      activeTasks := activeTasks - {phone};
      ok := true;
    }

    /**
     * `delete_source`: refused for an id the `in` test does not find, then
     * for one the phone's task uses; an id found in a list or a text raises
     * on the deletion; else exactly that entry is removed.
     */
    method DeleteSource(phone: string, sourceId: string, err: string) returns (r: Reply)
      modifies storage
      ensures var o := WithoutEntry(old(Lookup(storage.files, phone)), "sources", sourceId);
        (o.NoRecord? || o.Untestable? ==> r == Failure(err) && storage.files == old(storage.files))
        && (o.Unknown? ==> r == Failure(SourceMissing) && storage.files == old(storage.files))
        && (o.Unindexable? && InUse(phone, true, sourceId) ==> r == Failure(SourceBusy) && storage.files == old(storage.files))
        && (o.Unindexable? && !InUse(phone, true, sourceId) ==> r == Failure(err) && storage.files == old(storage.files))
        && (o.Updated? && InUse(phone, true, sourceId) ==> r == Failure(SourceBusy) && storage.files == old(storage.files))
        && (o.Updated? && !InUse(phone, true, sourceId) ==>
              r == Success(map[]) && storage.files == old(storage.files)[phone := Parsed(o.rec)])
    {
      r := DeleteEntry(phone, "sources", sourceId, InUse(phone, true, sourceId), SourceMissing, SourceBusy, err);
    }

    /** `delete_destination`: as `delete_source`, on `destinations`. */
    method DeleteDestination(phone: string, destinationId: string, err: string) returns (r: Reply)
      modifies storage
      ensures var o := WithoutEntry(old(Lookup(storage.files, phone)), "destinations", destinationId);
        (o.NoRecord? || o.Untestable? ==> r == Failure(err) && storage.files == old(storage.files))
        && (o.Unknown? ==> r == Failure(DestinationMissing) && storage.files == old(storage.files))
        && (o.Unindexable? && InUse(phone, false, destinationId) ==> r == Failure(DestinationBusy) && storage.files == old(storage.files))
        && (o.Unindexable? && !InUse(phone, false, destinationId) ==> r == Failure(err) && storage.files == old(storage.files))
        && (o.Updated? && InUse(phone, false, destinationId) ==> r == Failure(DestinationBusy) && storage.files == old(storage.files))
        && (o.Updated? && !InUse(phone, false, destinationId) ==>
              r == Success(map[]) && storage.files == old(storage.files)[phone := Parsed(o.rec)])
    {
      r := DeleteEntry(phone, "destinations", destinationId, InUse(phone, false, destinationId),
                       DestinationMissing, DestinationBusy, err);
    }

    /** Whether the phone's task, whatever its status, uses the id as its source (or destination). */
    predicate InUse(phone: string, asSource: bool, id: string)
      reads this
    {
      phone in activeTasks && (if asSource then activeTasks[phone].sourceId else activeTasks[phone].destinationId) == id
    }

    /** The body both deletes share. */
    method DeleteEntry(phone: string, field: string, id: string, busy: bool, missing: string, busyText: string, err: string)
      returns (r: Reply)
      modifies storage
      ensures var o := WithoutEntry(old(Lookup(storage.files, phone)), field, id);
        (o.NoRecord? || o.Untestable? ==> r == Failure(err) && storage.files == old(storage.files))
        && (o.Unknown? ==> r == Failure(missing) && storage.files == old(storage.files))
        && (o.Unindexable? && busy ==> r == Failure(busyText) && storage.files == old(storage.files))
        && (o.Unindexable? && !busy ==> r == Failure(err) && storage.files == old(storage.files))
        && (o.Updated? && busy ==> r == Failure(busyText) && storage.files == old(storage.files))
        && (o.Updated? && !busy ==> r == Success(map[]) && storage.files == old(storage.files)[phone := Parsed(o.rec)])
    {
      var data := storage.GetUserData(phone);
      match WithoutEntry(data, field, id) {
        case Unknown => r := Failure(missing);
        case Unindexable =>
          r := if busy then Failure(busyText) else Failure(err);
        case Updated(rec) =>
          if busy {
            return Failure(busyText);
          }
          var _ := storage.UpdateUser(phone, [(field, rec[field])]);
          assert data.value != map[];
          assert Overwrite(data.value, [(field, rec[field])]) == rec;
          r := Success(map[]);
        case _ => r := Failure(err);
      }
    }
  }

  /**
   * Whether the store's insertion raises: the phone has a non-empty record
   * whose `field` holds something other than an object.
   */
  predicate AddRaises(files: map<string, UserFile>, phone: string, field: string)
  {
    match Lookup(files, phone)
    case None => false
    case Some(rec) => rec != map[] && field in rec && !rec[field].JObj?
  }

  /** The store after writing `entry` under `id` in `field`, as `add_source` / `add_destination` leave it. */
  function AddedFiles(files: map<string, UserFile>, phone: string, field: string, id: string, entry: Json): (r: map<string, UserFile>)
    ensures r.Keys == files.Keys
    ensures forall p :: p in files && p != phone ==> r[p] == files[p]
    ensures AddRaises(files, phone, field) || Lookup(files, phone).None? || Lookup(files, phone) == Some(map[]) ==> r == files
    ensures !AddRaises(files, phone, field) && Lookup(files, phone).Some? && Lookup(files, phone).value != map[] ==>
              var before := Lookup(files, phone).value;
              Lookup(r, phone).Some? && Lookup(r, phone).value.Keys == before.Keys + {field}
              && Lookup(r, phone).value[field].JObj? && Lookup(r, phone).value[field].fields[id := entry] == Lookup(r, phone).value[field].fields
              && (forall k :: k in before && k != field ==> Lookup(r, phone).value[k] == before[k])
  {
    match Lookup(files, phone)
    case None => files
    case Some(rec) =>
      if rec == map[] then files
      else
        WithEntryFacts(rec, field, id, entry);
        match WithEntry(rec, field, id, entry)
        case None => files
        case Some(next) => files[phone := Parsed(next)]
  }

  /**
   * The record with the entry `id` deleted from the object at `field`, or
   * where `delete_source` / `delete_destination` stop. A delete removes
   * exactly the entry: every other entry of the field, and every other key,
   * stay.
   */
  function WithoutEntry(data: Option<UserRecord>, field: string, id: string): (o: SetOutcome)
    ensures o == NoRecord <==> data.None?
    ensures !o.BadEntry?
    ensures data.Some? ==>
      var rec := data.value;
      var entries := GetOr(rec, field, JObj(map[]));
      (o.Unknown? <==> MemberTest(entries, id) == Some(false))
      && (entries.JObj? ==> (o.Unknown? <==> id !in entries.fields))
      && (o.Updated? || o.Unindexable? <==> MemberTest(entries, id) == Some(true))
      && (o.Updated? ==>
            field in rec && rec[field].JObj? && o.rec.Keys == rec.Keys
            && (forall k :: k in rec && k != field ==> o.rec[k] == rec[k])
            && o.rec[field].JObj? && o.rec[field].fields.Keys == rec[field].fields.Keys - {id}
            && (forall e :: e in o.rec[field].fields ==> o.rec[field].fields[e] == rec[field].fields[e]))
  {
    match data
    case None => NoRecord
    case Some(rec) =>
      var entries := GetOr(rec, field, JObj(map[]));
      match MemberTest(entries, id)
      case None => Untestable
      case Some(found) =>
        if !found then Unknown
        else if !entries.JObj? then Unindexable
        else Updated(rec[field := JObj(entries.fields - {id})])
  }
}
