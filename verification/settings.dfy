/**
 * The settings plugin of the Pyrogram bot (new_bot/plugins/settings.py):
 * the `settings_*` button router, the filter toggles, and the two-step
 * inputs (a bot token, a caption) that wait in `USER_STATE`.
 */
module Settings {
  import opened Common
  import opened Db

  // ---------------------------------------------------------------------
  // The router
  // ---------------------------------------------------------------------

  /** The branch of `settings_query` a button lands in. */
  datatype Route =
    | MainMenu
    | BotMenu
    | FilterMenu
    | CaptionMenu
    | Toggle(filter: string)
    | AddBot
    | RemoveBot
    | ConfirmRemoveBot
    | SetCaption
    | ClearCaption
    | CancelInput
    | NoAction

  /** The branch an action word selects, with the word after it for a toggle. */
  function Dispatch(action: string, arg: Option<string>): Route
  {
    if action == "bot" then BotMenu
    else if action == "filter" then FilterMenu
    else if action == "caption" then CaptionMenu
    else if action == "toggle" && arg.Some? then Toggle(arg.value)
    else if action == "add_bot" then AddBot
    else if action == "remove_bot" then RemoveBot
    else if action == "confirm_remove_bot" then ConfirmRemoveBot
    else if action == "set_caption" then SetCaption
    else if action == "clear_caption" then ClearCaption
    else if action == "cancel" then CancelInput
    else NoAction
  }

  /** The branches whose action word holds an underscore. */
  predicate MultiWord(r: Route)
  {
    r == AddBot || r == RemoveBot || r == ConfirmRemoveBot || r == SetCaption || r == ClearCaption
  }

  /** `settings_query` as written: it dispatches on field 1 of `data.split("_")`. */
  function RouteAsWritten(data: string): Route
  {
    var parts := Split(data, '_');
    if |parts| == 1 then MainMenu
    else Dispatch(parts[1], if |parts| > 2 then Some(parts[2]) else None)
  }

  /** A field of the split never holds '_', so no button reaches a multi-word branch. */
  lemma MultiWordUnreachable(data: string)
    ensures !MultiWord(RouteAsWritten(data))
  {
    var parts := Split(data, '_');
    if |parts| > 1 {
      assert '_' !in parts[1];
    }
  }

  /** The callback data of a settings button: the prefix, '_', and the action. */
  function ButtonData(action: string): string { "settings" + "_" + action }

  /** The corrected router: the multi-word actions are matched on everything after the first '_'. */
  function RouteOf(data: string): (r: Route)
    ensures !MultiWord(r) ==> r == RouteAsWritten(data)
  {
    var parts := Split(data, '_');
    if |parts| == 1 then MainMenu
    else
      var rest := Join(parts[1..], '_');
      var whole := Dispatch(rest, None);
      if MultiWord(whole) then whole
      else Dispatch(parts[1], if |parts| > 2 then Some(parts[2]) else None)
  }

  /** The fields of `prefix_action`: the prefix, then the fields of the action. */
  lemma SplitAfterPrefix(prefix: string, action: string)
    requires '_' !in prefix
    ensures Split(prefix + "_" + action, '_') == [prefix] + Split(action, '_')
  {
    assert prefix + "_" + action == prefix + ['_'] + action;
    SplitAtFirst(prefix, action, '_');
  }

  /** Both routers on `prefix_action`, stated on the fields of the action alone. */
  lemma RoutesAfterPrefix(prefix: string, action: string)
    requires '_' !in prefix
    ensures var fields := Split(action, '_');
      && RouteAsWritten(prefix + "_" + action) == Dispatch(fields[0], if |fields| > 1 then Some(fields[1]) else None)
      && RouteOf(prefix + "_" + action) ==
           (if MultiWord(Dispatch(action, None)) then Dispatch(action, None)
            else Dispatch(fields[0], if |fields| > 1 then Some(fields[1]) else None))
  {
    SplitAfterPrefix(prefix, action);
    var parts := Split(prefix + "_" + action, '_');
    assert parts[1..] == Split(action, '_');
  }

  /** Two separator-free words joined by '_' split back into those words. */
  lemma SplitTwo(a: string, b: string)
    requires '_' !in a && '_' !in b
    ensures Split(a + "_" + b, '_') == [a, b]
  {
    assert a + "_" + b == a + ['_'] + b;
    SplitAtFirst(a, b, '_');
    SplitNoSep(b, '_');
  }

  /** "settings_add_bot", the Add Bot and Change Bot button, lands nowhere as written. */
  lemma AddBotButtonIgnored(action: string)
    requires action == "add_bot"
    ensures RouteAsWritten(ButtonData(action)) == NoAction
  {
    assert action == "add" + "_" + "bot";
    SplitTwo("add", "bot");
    RoutesAfterPrefix("settings", action);
  }

  /** With the correction the same button reaches the Add Bot branch. */
  lemma AddBotButtonRouted(action: string)
    requires action == "add_bot"
    ensures RouteOf(ButtonData(action)) == AddBot
  {
    RoutesAfterPrefix("settings", action);
  }

  /** With the correction every multi-word button reaches its own branch. */
  lemma RouteMultiWord(action: string)
    requires MultiWord(Dispatch(action, None))
    ensures RouteOf(ButtonData(action)) == Dispatch(action, None)
  {
    RoutesAfterPrefix("settings", action);
  }

  /** A one-word action goes where it names, with or without the correction. */
  lemma RouteSingleWord(action: string)
    requires '_' !in action
    ensures RouteOf(ButtonData(action)) == Dispatch(action, None)
    ensures RouteAsWritten(ButtonData(action)) == Dispatch(action, None)
  {
    SplitNoSep(action, '_');
    RoutesAfterPrefix("settings", action);
  }

  /** The callback data of a filter's toggle button: "settings_toggle_<filter>". */
  function ToggleData(filter: string): string { ButtonData("toggle" + "_" + filter) }

  /** The toggle buttons toggle their filter as written. */
  lemma RouteToggleAsWritten(filter: string)
    requires '_' !in filter
    ensures RouteAsWritten(ToggleData(filter)) == Toggle(filter)
  {
    SplitTwo("toggle", filter);
    RoutesAfterPrefix("settings", "toggle" + "_" + filter);
  }

  /** A toggle action is none of the multi-word actions: it starts with 't'. */
  lemma ToggleIsOneWord(filter: string)
    ensures !MultiWord(Dispatch("toggle" + "_" + filter, None))
  {
    var action := "toggle" + "_" + filter;
    assert action[0] == 't';
    assert "add_bot"[0] == 'a' && "remove_bot"[0] == 'r' && "confirm_remove_bot"[0] == 'c';
    assert "set_caption"[0] == 's' && "clear_caption"[0] == 'c';
  }

  /** The toggle buttons toggle their filter under the correction too. */
  lemma RouteToggle(filter: string)
    requires '_' !in filter
    ensures RouteOf(ToggleData(filter)) == Toggle(filter)
  {
    ToggleIsOneWord(filter);
    SplitTwo("toggle", filter);
    RoutesAfterPrefix("settings", "toggle" + "_" + filter);
  }

  // ---------------------------------------------------------------------
  // Filters
  // ---------------------------------------------------------------------

  /** `user_filters[name] = not user_filters.get(name, True)`. */
  function ToggleFilter(f: map<string, bool>, name: string): (g: map<string, bool>)
    ensures g.Keys == f.Keys + {name}
    ensures g[name] == (name in f && !f[name])
    ensures forall n :: n in f && n != name ==> g[n] == f[n]
  {
    f[name := !(if name in f then f[name] else true)]
  }

  /** Toggling twice gives the filter back its value, a missing one coming back as on. */
  lemma ToggleTwice(f: map<string, bool>, name: string)
    ensures ToggleFilter(ToggleFilter(f, name), name) == f[name := if name in f then f[name] else true]
  {
  }

  /** `FILTERS`: the filter menu's rows, in order. */
  const FilterOrder: seq<string> :=
    ["text", "audio", "document", "photo", "video", "animation", "voice", "sticker", "poll"]

  /** One row of the filter menu: whether the filter shows as on, and the data the button sends. */
  datatype FilterButton = FilterButton(on: bool, data: string)

  /** `filters_buttons` without the Back row: a filter missing from the map shows as on. */
  function FilterButtons(f: map<string, bool>): (r: seq<FilterButton>)
    ensures |r| == |FilterOrder|
  {
    seq(|FilterOrder|, i requires 0 <= i < |FilterOrder| =>
      FilterButton(if FilterOrder[i] in f then f[FilterOrder[i]] else true, ToggleData(FilterOrder[i])))
  }

  /** The menu's rows are the filters the toggle branch accepts. */
  lemma FilterOrderIsFilterNames()
    ensures forall n :: n in FilterOrder <==> n in FilterNames
  {
  }

  /** Each filter has one row. */
  lemma FilterOrderDistinct()
    ensures forall i, j :: 0 <= i < j < |FilterOrder| ==> FilterOrder[i] != FilterOrder[j]
  {
  }

  /** No filter name holds the separator of the callback data. */
  lemma FilterNamesOneWord()
    ensures forall i :: 0 <= i < |FilterOrder| ==> '_' !in FilterOrder[i]
  {
  }

  /** Every row of the filter menu routes to the toggle of the filter it shows. */
  lemma FilterButtonsRoute(f: map<string, bool>, i: int)
    requires 0 <= i < |FilterOrder|
    ensures RouteOf(FilterButtons(f)[i].data) == Toggle(FilterOrder[i])
    ensures FilterOrder[i] in FilterNames
  {
    FilterOrderIsFilterNames();
    FilterNamesOneWord();
    RouteToggle(FilterOrder[i]);
  }

  /** Pressing a row flips what that row shows and leaves every other row as it was. */
  lemma ToggleFlipsOneRow(f: map<string, bool>, i: int, j: int)
    requires 0 <= i < |FilterOrder| && 0 <= j < |FilterOrder|
    ensures var g := ToggleFilter(f, FilterOrder[i]);
      && FilterButtons(g)[i].on == !FilterButtons(f)[i].on
      && (j != i ==> FilterButtons(g)[j] == FilterButtons(f)[j])
  {
    FilterOrderDistinct();
  }

  // ---------------------------------------------------------------------
  // The bot token
  // ---------------------------------------------------------------------

  /** `[\w-]` on ASCII text. */
  predicate IsTokenChar(c: char)
  {
    ('a' <= c <= 'z') || ('A' <= c <= 'Z') || ('0' <= c <= '9') || c == '_' || c == '-'
  }

  predicate AllTokenChars(s: string) { forall i :: 0 <= i < |s| ==> IsTokenChar(s[i]) }

  /** The position of the first `c` in `s`. */
  function IndexOf(s: string, c: char): (r: Option<nat>)
    ensures r.Some? ==> r.value < |s| && s[r.value] == c && forall j :: 0 <= j < r.value ==> s[j] != c
    ensures r.None? ==> c !in s
  {
    if |s| == 0 then None
    else if s[0] == c then Some(0)
    else match IndexOf(s[1..], c)
      case None => None
      case Some(i) =>
        Some(i + 1)
  }

  /**
   * `re.match(r'^\d+:[\w-]+$', token)`: digits up to the first ':' and at
   * least one, then at least one word character or '-' to the end.
   */
  predicate ValidToken(token: string)
  {
    match IndexOf(token, ':')
    case None => false
    case Some(i) => i >= 1 && AllDigits(token[..i]) && i + 1 < |token| && AllTokenChars(token[i + 1..])
  }

  /**
   * The token check is the pattern: a token is accepted exactly when it is
   * some non-empty run of digits, ':', and a non-empty run of word
   * characters and '-'.
   */
  lemma ValidTokenIff(digits: string, rest: string)
    ensures ValidToken(digits + ":" + rest) <==> |digits| >= 1 && AllDigits(digits) && |rest| >= 1 && AllTokenChars(rest)
  {
    var token := digits + ":" + rest;
    assert token[|digits|] == ':';
    var r := IndexOf(token, ':');
    assert r.Some? && r.value <= |digits|;
    if r.value == |digits| {
      assert token[..r.value] == digits;
      assert token[r.value + 1..] == rest;
    } else {
      assert digits[r.value] == ':';
      assert token[r.value + 1..][|digits| - r.value - 1] == ':';
    }
  }

  /** What a message to the settings input handler answers. */
  datatype InputReply = Ignored | InvalidToken | AddFailed | BotAdded | CaptionSaved | HandlerRaised

  /** The step an input waits for. */
  datatype InputState = WaitingBotToken | WaitingCaption

  /** What the temporary client learns from a token: the bot's id, name and username, or None when it raised. */
  datatype BotInfo = BotInfo(id: int, firstName: string, username: Option<string>)

  /** The row `add_bot` is given for a token. */
  function BotRowOf(user: int, token: string, info: BotInfo): BotRow
  {
    BotRow(user, Some(info.id), Some(info.firstName), info.username, Some(token), true)
  }

  // ---------------------------------------------------------------------
  // The handlers
  // ---------------------------------------------------------------------

  class SettingsPlugin {
    /** `USER_STATE`: the input each user's next message answers. */
    var userState: map<int, InputState>
    const db: Database

    constructor(db: Database)
      ensures this.db == db && userState == map[]
    {
      this.db := db;
      userState := map[];
    }

    /**
     * `settings_query`, routed as `RouteOf` says. Menus change nothing; a
     * toggle flips a known filter; Add Bot and Set Caption wait for input;
     * Confirm Remove deletes the user's bot; Clear Caption sets it to None;
     * Cancel drops the waiting input.
     */
    method SettingsQuery(user: int, data: string) returns (r: Route)
      requires db.Valid()
      modifies this, db
      ensures db.Valid() && r == RouteOf(data)
      ensures r.Toggle? && r.filter in FilterNames && user in old(db.users) ==>
                db.GetConfigs(user) == old(db.GetConfigs(user)).(filters := ToggleFilter(old(db.GetFilters(user)), r.filter))
      ensures r.Toggle? && (r.filter !in FilterNames || user !in old(db.users)) ==> db.users == old(db.users)
      ensures r == AddBot ==> userState == old(userState)[user := WaitingBotToken]
      ensures r == SetCaption ==> userState == old(userState)[user := WaitingCaption]
      ensures r == CancelInput ==> userState == old(userState) - {user}
      ensures r != AddBot && r != SetCaption && r != CancelInput ==> userState == old(userState)
      ensures r == ConfirmRemoveBot ==> db.bots == WithoutBotsOf(old(db.bots), user) && !db.IsBotExist(user)
      ensures r != ConfirmRemoveBot ==> db.bots == old(db.bots)
      ensures r == ClearCaption && user in old(db.users) ==> db.GetConfigs(user) == old(db.GetConfigs(user)).(caption := None)
      ensures r == ClearCaption && user !in old(db.users) ==> db.users == old(db.users)
      ensures !r.Toggle? && r != ClearCaption ==> db.users == old(db.users)
      ensures OnlyConfigsOf(old(db.users), db.users, user)
      ensures db.tasks == old(db.tasks) && db.channels == old(db.channels)
    {
      r := RouteOf(data);
      match r {
        case Toggle(filter) =>
          if filter in FilterNames {
            var f := db.GetFilters(user);
            db.UpdateFilter(user, ToggleFilter(f, filter));
          }
        case AddBot =>
          userState := userState[user := WaitingBotToken];
        case ConfirmRemoveBot =>
          db.RemoveBot(user);
        case SetCaption =>
          userState := userState[user := WaitingCaption];
        case ClearCaption =>
          var c := db.GetConfigs(user);
          db.UpdateConfigs(user, c.(caption := None));
        case CancelInput =>
          userState := userState - {user};
        case _ =>
      }
    }

    /**
     * `handle_settings_input`. Users with no waiting input are ignored. A
     * token is stripped and checked; an invalid one, or one the temporary
     * client cannot start with (`info` None), is answered and the input keeps
     * waiting; a good one is saved as the user's bot and the wait ends. A
     * caption (None for a message without text) is saved into the configs
     * and the wait ends. A message without text raises at the token step
     * before anything changes.
     */
    method HandleSettingsInput(user: int, text: Option<string>, info: Option<BotInfo>) returns (r: InputReply)
      requires db.Valid()
      modifies this, db
      ensures db.Valid() && db.tasks == old(db.tasks) && db.channels == old(db.channels)
      ensures OnlyConfigsOf(old(db.users), db.users, user)
      ensures user !in old(userState) ==> r == Ignored && userState == old(userState)
                                          && db.users == old(db.users) && db.bots == old(db.bots)
      ensures user in old(userState) && old(userState)[user] == WaitingBotToken ==>
        db.users == old(db.users)
        && (text.None? ==> r == HandlerRaised && userState == old(userState) && db.bots == old(db.bots))
        && (text.Some? && !ValidToken(Strip(text.value)) ==> r == InvalidToken && userState == old(userState) && db.bots == old(db.bots))
        && (text.Some? && ValidToken(Strip(text.value)) && info.None? ==>
              r == AddFailed && userState == old(userState) && db.bots == old(db.bots))
        && (text.Some? && ValidToken(Strip(text.value)) && info.Some? ==>
              r == BotAdded && userState == old(userState) - {user}
              && db.bots == BotsAfterAdd(old(db.bots), BotRowOf(user, Strip(text.value), info.value)))
      ensures user in old(userState) && old(userState)[user] == WaitingCaption ==>
        r == CaptionSaved && userState == old(userState) - {user} && db.bots == old(db.bots)
        && (user in old(db.users) ==> db.GetConfigs(user) == old(db.GetConfigs(user)).(caption := text))
        && (user !in old(db.users) ==> db.users == old(db.users))
    {
      if user !in userState {
        return Ignored;
      }
      match userState[user] {
        case WaitingBotToken =>
          if text.None? {
            return HandlerRaised;
          }
          var token := Strip(text.value);
          if !ValidToken(token) {
            return InvalidToken;
          }
          if info.None? {
            return AddFailed;
          }
          db.AddBot(BotRowOf(user, token, info.value));
          userState := userState - {user};
          r := BotAdded;
        case WaitingCaption =>
          var c := db.GetConfigs(user);
          db.UpdateConfigs(user, c.(caption := text));
          userState := userState - {user};
          r := CaptionSaved;
      }
    }
  }
}
