/**
 * The PostgreSQL tables of new_bot/database.py (`users`, `bots`, `channels`,
 * `tasks`) held in memory, with the operations the forwarding bot performs
 * on them. Each statement the source sends is a method of `Database`; the
 * table each one leaves behind is given by a function on table values, and
 * the lemmas are about those functions.
 */
module Db {
  import opened Common
  import Buttons

  // ---------------------------------------------------------------------
  // dict_to_json / json_to_dict
  // ---------------------------------------------------------------------

  /** `dict_to_json`: None stays None, anything else goes through `json.dumps`. */
  function DictToJson<D>(d: Option<D>, dumps: D -> string): (r: Option<string>)
    ensures r.None? <==> d.None?
  {
    match d
    case None => None
    case Some(v) => Some(dumps(v))
  }

  /**
   * `json_to_dict`: None stays None; `loads` answers None for text it cannot
   * parse, which is the swallowed exception.
   */
  function JsonToDict<D>(s: Option<string>, loads: string -> Option<D>): (r: Option<D>)
    ensures s.None? ==> r.None?
  {
    match s
    case None => None
    case Some(t) => loads(t)
  }

  /** Whenever `loads` reads back what `dumps` wrote, the two helpers are inverse. */
  lemma JsonRoundTrip<D>(d: Option<D>, dumps: D -> string, loads: string -> Option<D>)
    requires forall x :: loads(dumps(x)) == Some(x)
    ensures JsonToDict(DictToJson(d, dumps), loads) == d
  {
  }

  // ---------------------------------------------------------------------
  // Rows
  // ---------------------------------------------------------------------

  datatype BanStatus = BanStatus(isBanned: bool, reason: string)

  const NotBanned: BanStatus := BanStatus(false, "")

  /** The nine message kinds a user can filter, all on by default. */
  const FilterNames: set<string> :=
    {"poll", "text", "audio", "voice", "video", "photo", "document", "animation", "sticker"}

  /** The `configs` JSON of a user. JSON null of `protect` reads as false. */
  datatype Configs = Configs(
    caption: Option<string>,
    duplicate: bool,
    forwardTag: bool,
    fileSize: int,
    sizeLimit: Option<int>,
    extension: Option<string>,
    keywords: Option<string>,
    protect: bool,
    button: Option<string>,
    dbUri: Option<string>,
    filters: map<string, bool>)

  function DefaultFilters(): (f: map<string, bool>)
    ensures f.Keys == FilterNames
    ensures forall n :: n in f ==> f[n]
  {
    map n | n in FilterNames :: true
  }

  /** The default `configs` (the column default and the fallback of `get_configs`). */
  function DefaultConfigs(): (c: Configs)
    ensures c.duplicate && !c.forwardTag && c.fileSize == 0 && c.caption.None?
    ensures c.filters.Keys == FilterNames && forall n :: n in c.filters ==> c.filters[n]
  {
    Configs(None, true, false, 0, None, None, None, false, None, None, DefaultFilters())
  }

  datatype UserRow = UserRow(name: string, ban: BanStatus, configs: Configs)

  datatype BotRow = BotRow(
    userId: int,
    botId: Option<int>,
    name: Option<string>,
    username: Option<string>,
    token: Option<string>,
    isBot: bool)

  datatype ChannelRow = ChannelRow(
    userId: int, chId: int, title: Option<string>, kind: Option<string>, username: Option<string>)

  /** The fields `add_channel` reads; None is a key that is missing or not an integer. */
  datatype ChannelData = ChannelData(
    userId: Option<int>, chId: Option<int>, title: Option<string>, kind: Option<string>, username: Option<string>)

  datatype TaskStatus = Active | Paused | Failed | Cancelled | Completed

  /** `status IN ('active', 'paused', 'failed')`. */
  predicate Resumable(s: TaskStatus) { s == Active || s == Paused || s == Failed }

  /** The `configs` a forwarding task keeps for its resume. */
  datatype TaskConfigs = TaskConfigs(
    caption: Option<string>, forwardTag: bool, protect: bool, button: Option<Buttons.Markup>)

  /** A `configs` of `{}`: every `.get` falls back to its default. */
  const EmptyTaskConfigs: TaskConfigs := TaskConfigs(None, false, false, None)

  datatype TaskRow = TaskRow(
    taskId: string,
    userId: int,
    fromChat: string,
    toChat: string,
    botDetails: Option<BotRow>,
    lastForwardedMsgId: Option<int>,
    totalCount: int,
    offset: int,
    configs: TaskConfigs,
    status: TaskStatus,
    createdAt: int)

  /**
   * The `data` dict of `save_forwarding_task`. An outer None is a missing
   * key; `lastForwardedMsgId` can also be present and None.
   */
  datatype TaskData = TaskData(
    userId: int,
    fromChat: string,
    toChat: string,
    botDetails: Option<BotRow>,
    lastForwardedMsgId: Option<Option<int>>,
    totalCount: Option<int>,
    offset: Option<int>,
    configs: Option<TaskConfigs>,
    status: Option<TaskStatus>,
    createdAt: Option<int>)

  /** The row `save_forwarding_task` writes, with the `.get` defaults for missing keys. */
  function RowOf(taskId: string, d: TaskData): (r: TaskRow)
    ensures r.taskId == taskId && r.userId == d.userId && r.fromChat == d.fromChat && r.toChat == d.toChat
    ensures d.lastForwardedMsgId.None? ==> r.lastForwardedMsgId == Some(0)
    ensures d.lastForwardedMsgId.Some? ==> r.lastForwardedMsgId == d.lastForwardedMsgId.value
    ensures d.status.None? ==> r.status == Active
    ensures d.totalCount.None? ==> r.totalCount == 0
    ensures d.offset.None? ==> r.offset == 0
    ensures d.createdAt.None? ==> r.createdAt == 0
    ensures d.configs.None? ==> r.configs == EmptyTaskConfigs
  {
    TaskRow(
      taskId, d.userId, d.fromChat, d.toChat, d.botDetails,
      match d.lastForwardedMsgId case None => Some(0) case Some(v) => v,
      match d.totalCount case None => 0 case Some(v) => v,
      match d.offset case None => 0 case Some(v) => v,
      match d.configs case None => EmptyTaskConfigs case Some(v) => v,
      match d.status case None => Active case Some(v) => v,
      match d.createdAt case None => 0 case Some(v) => v)
  }

  // ---------------------------------------------------------------------
  // Table invariants (the UNIQUE constraint and the one-bot rule)
  // ---------------------------------------------------------------------

  predicate UniqueTaskIds(rows: seq<TaskRow>)
  {
    forall i, j :: 0 <= i < j < |rows| ==> rows[i].taskId != rows[j].taskId
  }

  predicate OneBotPerUser(bots: seq<BotRow>)
  {
    forall i, j :: 0 <= i < j < |bots| ==> bots[i].userId != bots[j].userId
  }

  predicate UniqueChannels(chs: seq<ChannelRow>)
  {
    forall i, j :: 0 <= i < j < |chs| ==> (chs[i].userId, chs[i].chId) != (chs[j].userId, chs[j].chId)
  }

  // ---------------------------------------------------------------------
  // Table functions
  // ---------------------------------------------------------------------

  /** `INSERT INTO users ... ON CONFLICT (id) DO NOTHING`. */
  function UsersAfterAdd(users: map<int, UserRow>, id: int, name: string): (r: map<int, UserRow>)
    ensures id in r && r.Keys == users.Keys + {id}
    ensures id in users ==> r == users
    ensures id !in users ==> r[id] == UserRow(name, NotBanned, DefaultConfigs())
  {
    if id in users then users else users[id := UserRow(name, NotBanned, DefaultConfigs())]
  }

  lemma AddUserIdempotent(users: map<int, UserRow>, id: int, name: string, name2: string)
    ensures UsersAfterAdd(UsersAfterAdd(users, id, name), id, name2) == UsersAfterAdd(users, id, name)
  {
  }

  /** `UPDATE users SET ... WHERE id = $1`: only an existing row changes. */
  function UpdateUser(users: map<int, UserRow>, id: int, f: UserRow -> UserRow): (r: map<int, UserRow>)
    ensures r.Keys == users.Keys
    ensures forall k :: k in users && k != id ==> r[k] == users[k]
  {
    if id in users then users[id := f(users[id])] else users
  }

  /** Only the configs of user `id` may differ: the same users, every other row, and this row's name and ban. */
  predicate OnlyConfigsOf(before: map<int, UserRow>, after: map<int, UserRow>, id: int)
  {
    after.Keys == before.Keys
    && (forall k :: k in before && k != id ==> after[k] == before[k])
    && (id in before ==> after[id].name == before[id].name && after[id].ban == before[id].ban)
  }

  /** `UPDATE tasks SET status = .., [last_forwarded_msg_id = ..] WHERE task_id = ..`. */
  function SetStatus(rows: seq<TaskRow>, taskId: string, status: TaskStatus, last: Option<int>): (r: seq<TaskRow>)
    ensures |r| == |rows|
    ensures forall i :: 0 <= i < |rows| ==>
      r[i] == if rows[i].taskId == taskId
              then rows[i].(status := status,
                            lastForwardedMsgId := if last.Some? then last else rows[i].lastForwardedMsgId)
              else rows[i]
  {
    seq(|rows|, i requires 0 <= i < |rows| =>
      if rows[i].taskId == taskId
      then rows[i].(status := status,
                    lastForwardedMsgId := if last.Some? then last else rows[i].lastForwardedMsgId)
      else rows[i])
  }

  /** A later status write to the same task overrides an earlier one, keeping the later checkpoint if any. */
  lemma SetStatusTwice(rows: seq<TaskRow>, id: string, s1: TaskStatus, l1: Option<int>, s2: TaskStatus, l2: Option<int>)
    ensures SetStatus(SetStatus(rows, id, s1, l1), id, s2, l2)
         == SetStatus(rows, id, s2, if l2.Some? then l2 else l1)
  {
  }

  /** Updating a status keeps the task ids, so the UNIQUE constraint still holds. */
  lemma SetStatusKeepsIds(rows: seq<TaskRow>, id: string, s: TaskStatus, l: Option<int>)
    ensures forall i :: 0 <= i < |rows| ==> SetStatus(rows, id, s, l)[i].taskId == rows[i].taskId
    ensures UniqueTaskIds(rows) ==> UniqueTaskIds(SetStatus(rows, id, s, l))
  {
  }

  predicate HasTask(rows: seq<TaskRow>, taskId: string)
  {
    exists i :: 0 <= i < |rows| && rows[i].taskId == taskId
  }

  /** `save_forwarding_task`: UPDATE the row with that id when it exists, INSERT otherwise. */
  function Upsert(rows: seq<TaskRow>, row: TaskRow): (r: seq<TaskRow>)
    ensures |r| == if HasTask(rows, row.taskId) then |rows| else |rows| + 1
    ensures forall i :: 0 <= i < |rows| && rows[i].taskId != row.taskId ==> r[i] == rows[i]
    ensures forall i :: 0 <= i < |r| && r[i].taskId == row.taskId ==> r[i] == row
  {
    if HasTask(rows, row.taskId)
    then seq(|rows|, i requires 0 <= i < |rows| => if rows[i].taskId == row.taskId then row else rows[i])
    else rows + [row]
  }

  /**
   * After the upsert exactly one row carries the id and it holds the new
   * fields; every other row is kept, and the ids stay unique.
   */
  lemma UpsertSingle(rows: seq<TaskRow>, row: TaskRow)
    requires UniqueTaskIds(rows)
    ensures var r := Upsert(rows, row);
      UniqueTaskIds(r)
      && (exists i :: 0 <= i < |r| && r[i] == row)
      && (forall i :: 0 <= i < |r| && r[i].taskId == row.taskId ==> r[i] == row)
      && (forall i :: 0 <= i < |rows| && rows[i].taskId != row.taskId ==> r[i] == rows[i])
  {
    var r := Upsert(rows, row);
    if HasTask(rows, row.taskId) {
      var k :| 0 <= k < |rows| && rows[k].taskId == row.taskId;
      assert r[k] == row;
    } else {
      assert r[|rows|] == row;
    }
  }

  /** `get_task`: the row with that id. */
  function FindTask(rows: seq<TaskRow>, taskId: string): (r: Option<TaskRow>)
    ensures r.None? <==> !HasTask(rows, taskId)
    ensures r.Some? ==> r.value in rows && r.value.taskId == taskId
  {
    if |rows| == 0 then None
    else if rows[0].taskId == taskId then Some(rows[0])
    else
      var r := FindTask(rows[1..], taskId);
      assert HasTask(rows[1..], taskId) ==> HasTask(rows, taskId) by {
        if HasTask(rows[1..], taskId) {
          var k :| 0 <= k < |rows[1..]| && rows[1..][k].taskId == taskId;
          assert rows[k + 1].taskId == taskId;
        }
      }
      assert HasTask(rows, taskId) ==> HasTask(rows[1..], taskId) by {
        if HasTask(rows, taskId) {
          var k :| 0 <= k < |rows| && rows[k].taskId == taskId;
          assert k > 0 && rows[1..][k - 1].taskId == taskId;
        }
      }
      r
  }

  /** The rows the active-task query selects: this user's resumable tasks, in table order. */
  predicate Chosen(t: TaskRow, userId: int) { t.userId == userId && Resumable(t.status) }

  function Selected(rows: seq<TaskRow>, userId: int): (r: seq<TaskRow>)
    ensures forall t :: t in r ==> t in rows && Chosen(t, userId)
  {
    if |rows| == 0 then []
    else
      var last := rows[|rows| - 1];
      Selected(rows[..|rows| - 1], userId) + (if Chosen(last, userId) then [last] else [])
  }

  lemma {:induction false} SelectedHasAll(rows: seq<TaskRow>, userId: int, i: int)
    requires 0 <= i < |rows| && Chosen(rows[i], userId)
    ensures rows[i] in Selected(rows, userId)
    decreases |rows|
  {
    if i < |rows| - 1 {
      SelectedHasAll(rows[..|rows| - 1], userId, i);
    }
  }

  /** `ORDER BY created_at DESC`. */
  predicate NewestFirst(s: seq<TaskRow>)
  {
    forall i, j :: 0 <= i < j < |s| ==> s[i].createdAt >= s[j].createdAt
  }

  /** Places `t` in a newest-first list after every row at least as new. */
  function InsertNewestFirst(s: seq<TaskRow>, t: TaskRow): (r: seq<TaskRow>)
    ensures multiset(r) == multiset(s) + multiset{t}
    ensures |r| == |s| + 1
    ensures r[0] == if |s| == 0 || t.createdAt >= s[0].createdAt then t else s[0]
    ensures NewestFirst(s) ==> NewestFirst(r)
  {
    if |s| == 0 then [t]
    else if t.createdAt >= s[0].createdAt then
      [t] + s
    else
      var rest := InsertNewestFirst(s[1..], t);
      assert s == [s[0]] + s[1..];
      assert NewestFirst(s) ==> NewestFirst([s[0]] + rest) by {
        if NewestFirst(s) {
          assert s[0].createdAt >= rest[0].createdAt;
        }
      }
      [s[0]] + rest
  }

  /** `DELETE FROM bots WHERE user_id = ..`. */
  function WithoutBotsOf(bots: seq<BotRow>, userId: int): (r: seq<BotRow>)
    ensures forall b :: b in r <==> b in bots && b.userId != userId
    ensures OneBotPerUser(bots) ==> OneBotPerUser(r)
  {
    if |bots| == 0 then []
    else
      var rest := WithoutBotsOf(bots[1..], userId);
      assert OneBotPerUser(bots) ==> forall b :: b in rest ==> b.userId != bots[0].userId by {
        if OneBotPerUser(bots) {
          forall b | b in rest ensures b.userId != bots[0].userId {
            var k :| 0 <= k < |bots[1..]| && bots[1..][k] == b;
            assert bots[k + 1] == b;
          }
        }
      }
      if bots[0].userId == userId then rest else [bots[0]] + rest
  }

  /** The first bot row of a user (`fetchrow` of `SELECT * FROM bots WHERE user_id = ..`). */
  function FindBot(bots: seq<BotRow>, userId: int): (r: Option<BotRow>)
    ensures r.Some? ==> r.value in bots && r.value.userId == userId
    ensures r.None? ==> forall b :: b in bots ==> b.userId != userId
  {
    if |bots| == 0 then None
    else if bots[0].userId == userId then Some(bots[0])
    else FindBot(bots[1..], userId)
  }

  /** `add_bot`: insert only for a user without a bot (the DELETE before it then finds nothing). */
  function BotsAfterAdd(bots: seq<BotRow>, row: BotRow): seq<BotRow>
  {
    if FindBot(bots, row.userId).Some? then bots else WithoutBotsOf(bots, row.userId) + [row]
  }

  /** A user never gets a second bot, an existing bot is never replaced, and a user without one gets `row`. */
  lemma BotsAfterAddFacts(bots: seq<BotRow>, row: BotRow)
    requires OneBotPerUser(bots)
    ensures OneBotPerUser(BotsAfterAdd(bots, row))
    ensures FindBot(bots, row.userId).Some? ==> BotsAfterAdd(bots, row) == bots
    ensures FindBot(bots, row.userId).None? ==> row in BotsAfterAdd(bots, row)
  {
    if FindBot(bots, row.userId).None? {
      var rest := WithoutBotsOf(bots, row.userId);
      var r := rest + [row];
      forall i, j | 0 <= i < j < |r| ensures r[i].userId != r[j].userId {
        if j == |rest| {
          assert r[i] in rest;
        } else {
          assert r[i] == rest[i] && r[j] == rest[j];
        }
      }
    }
  }
  predicate HasChannel(chs: seq<ChannelRow>, userId: int, chId: int)
  {
    exists i :: 0 <= i < |chs| && chs[i].userId == userId && chs[i].chId == chId
  }

  // ---------------------------------------------------------------------
  // The database object
  // ---------------------------------------------------------------------

  class Database {
    var users: map<int, UserRow>
    var bots: seq<BotRow>
    var channels: seq<ChannelRow>
    var tasks: seq<TaskRow>

    ghost predicate Valid()
      reads this
    {
      UniqueTaskIds(tasks) && OneBotPerUser(bots) && UniqueChannels(channels)
      && forall i :: 0 <= i < |tasks| ==> tasks[i].taskId != ""
    }

    constructor()
      ensures Valid()
      ensures users == map[] && bots == [] && channels == [] && tasks == []
    {
      users, bots, channels, tasks := map[], [], [], [];
    }

    /** `add_user` (ON CONFLICT DO NOTHING). */
    method AddUser(id: int, name: string)
      modifies this
      ensures users == UsersAfterAdd(old(users), id, name)
      ensures bots == old(bots) && channels == old(channels) && tasks == old(tasks)
    {
      users := UsersAfterAdd(users, id, name);
    }

    /** `get_ban_status`: the stored status, not banned for an unknown user. */
    function GetBanStatus(id: int): (b: BanStatus)
      reads this
      ensures id !in users ==> b == NotBanned
      ensures id in users ==> b == users[id].ban
    {
      if id in users then users[id].ban else NotBanned
    }

    /** `ban_user`: changes only an existing user's ban status. */
    method BanUser(id: int, reason: string)
      modifies this
      ensures users == UpdateUser(old(users), id, (u: UserRow) => u.(ban := BanStatus(true, reason)))
      ensures id in users ==> GetBanStatus(id) == BanStatus(true, reason)
      ensures bots == old(bots) && channels == old(channels) && tasks == old(tasks)
    {
      users := UpdateUser(users, id, (u: UserRow) => u.(ban := BanStatus(true, reason)));
    }

    /** `remove_ban`. */
    method RemoveBan(id: int)
      modifies this
      ensures users == UpdateUser(old(users), id, (u: UserRow) => u.(ban := NotBanned))
      ensures GetBanStatus(id) == NotBanned
      ensures bots == old(bots) && channels == old(channels) && tasks == old(tasks)
    {
      users := UpdateUser(users, id, (u: UserRow) => u.(ban := NotBanned));
    }

    /** `get_configs`: the stored configs, the default for an unknown user. */
    function GetConfigs(id: int): (c: Configs)
      reads this
      ensures id !in users ==> c == DefaultConfigs()
      ensures id in users ==> c == users[id].configs
    {
      if id in users then users[id].configs else DefaultConfigs()
    }

    /** `get_filters`. */
    function GetFilters(id: int): map<string, bool>
      reads this
    {
      GetConfigs(id).filters
    }

    /** `update_configs`: an UPDATE, so nothing happens for an unknown user. */
    method UpdateConfigs(id: int, c: Configs)
      modifies this
      ensures users == UpdateUser(old(users), id, (u: UserRow) => u.(configs := c))
      ensures id in users ==> GetConfigs(id) == c
      ensures OnlyConfigsOf(old(users), users, id)
      ensures bots == old(bots) && channels == old(channels) && tasks == old(tasks)
    {
      users := UpdateUser(users, id, (u: UserRow) => u.(configs := c));
    }

    /** `update_filter`: read the configs, replace the 'filters' key, write them back. */
    method UpdateFilter(id: int, f: map<string, bool>)
      modifies this
      ensures id in old(users) ==> GetConfigs(id) == old(GetConfigs(id)).(filters := f)
      ensures id !in old(users) ==> users == old(users)
      ensures users.Keys == old(users).Keys
      ensures forall k :: k in old(users) && k != id ==> users[k] == old(users)[k]
      ensures OnlyConfigsOf(old(users), users, id)
      ensures bots == old(bots) && channels == old(channels) && tasks == old(tasks)
    {
      var c := GetConfigs(id);
      UpdateConfigs(id, c.(filters := f));
    }

    /** `is_bot_exist`. */
    predicate IsBotExist(userId: int)
      reads this
    {
      FindBot(bots, userId).Some?
    }

    /** `get_bot`. */
    function GetBot(userId: int): (r: Option<BotRow>)
      reads this
      ensures r.Some? ==> r.value in bots && r.value.userId == userId
      ensures r.None? ==> forall b :: b in bots ==> b.userId != userId
    {
      FindBot(bots, userId)
    }

    /** `add_bot`. */
    method AddBot(row: BotRow)
      requires Valid()
      modifies this
      ensures Valid()
      ensures bots == BotsAfterAdd(old(bots), row)
      ensures old(IsBotExist(row.userId)) ==> bots == old(bots)
      ensures users == old(users) && channels == old(channels) && tasks == old(tasks)
    {
      BotsAfterAddFacts(bots, row);
      bots := BotsAfterAdd(bots, row);
    }

    /** `remove_bot`. */
    method RemoveBot(userId: int)
      requires Valid()
      modifies this
      ensures Valid()
      ensures bots == WithoutBotsOf(old(bots), userId)
      ensures !IsBotExist(userId)
      ensures users == old(users) && channels == old(channels) && tasks == old(tasks)
    {
      bots := WithoutBotsOf(bots, userId);
    }

    /**
     * `add_channel`: refuses a zero or missing user or channel id and an
     * existing (user, channel) pair; otherwise inserts one row.
     */
    method AddChannel(data: ChannelData) returns (ok: bool)
      requires Valid()
      modifies this
      ensures Valid()
      ensures ok <==> data.userId.Some? && data.userId.value != 0 && data.chId.Some? && data.chId.value != 0
                      && !HasChannel(old(channels), data.userId.value, data.chId.value)
      ensures ok ==> channels == old(channels)
                      + [ChannelRow(data.userId.value, data.chId.value, data.title, data.kind, data.username)]
      ensures !ok ==> channels == old(channels)
      ensures users == old(users) && bots == old(bots) && tasks == old(tasks)
    {
      if data.userId.None? || data.chId.None? || data.userId.value == 0 || data.chId.value == 0 {
        return false;
      }
      if HasChannel(channels, data.userId.value, data.chId.value) {
        return false;
      }
      var row := ChannelRow(data.userId.value, data.chId.value, data.title, data.kind, data.username);
      var old_channels := channels;
      channels := channels + [row];
      forall i, j | 0 <= i < j < |channels|
        ensures (channels[i].userId, channels[i].chId) != (channels[j].userId, channels[j].chId)
      {
        if j == |old_channels| {
          assert channels[i] == old_channels[i];
        }
      }
      ok := true;
    }

    /** `save_forwarding_task`. */
    method SaveForwardingTask(taskId: string, data: TaskData)
      requires Valid() && taskId != ""
      modifies this
      ensures Valid()
      ensures tasks == Upsert(old(tasks), RowOf(taskId, data))
      ensures FindTask(tasks, taskId) == Some(RowOf(taskId, data))
      ensures users == old(users) && bots == old(bots) && channels == old(channels)
    {
      var row := RowOf(taskId, data);
      UpsertSingle(tasks, row);
      tasks := Upsert(tasks, row);
      var f := FindTask(tasks, taskId);
      assert HasTask(tasks, taskId);
    }

    /** `get_task`. */
    function GetTask(taskId: string): (r: Option<TaskRow>)
      reads this
      ensures r.Some? ==> r.value in tasks && r.value.taskId == taskId
      ensures r.None? ==> forall t :: t in tasks ==> t.taskId != taskId
    {
      FindTask(tasks, taskId)
    }

    /** `update_task_status`. */
    method UpdateTaskStatus(taskId: string, status: TaskStatus, last: Option<int>)
      requires Valid()
      modifies this
      ensures Valid()
      ensures tasks == SetStatus(old(tasks), taskId, status, last)
      ensures users == old(users) && bots == old(bots) && channels == old(channels)
    {
      SetStatusKeepsIds(tasks, taskId, status, last);
      tasks := SetStatus(tasks, taskId, status, last);
    }

    /**
     * `get_user_active_tasks`: the query and the loop that copies its rows
     * into the result list. Exactly the user's tasks whose status is active,
     * paused or failed, newest `created_at` first.
     */
    method GetUserActiveTasks(userId: int) returns (result: seq<TaskRow>)
      ensures multiset(result) == multiset(Selected(tasks, userId))
      ensures NewestFirst(result)
      ensures forall t :: t in result <==> t in tasks && Chosen(t, userId)
    {
      result := [];
      var i := 0;
      while i < |tasks|
        invariant 0 <= i <= |tasks|
        invariant multiset(result) == multiset(Selected(tasks[..i], userId))
        invariant NewestFirst(result)
      {
        var t := tasks[i];
        assert tasks[..i + 1][..i] == tasks[..i];
        if Chosen(t, userId) {
          result := InsertNewestFirst(result, t);
        }
        i := i + 1;
      }
      assert tasks[..i] == tasks;
      forall t ensures t in result <==> t in tasks && Chosen(t, userId) {
        assert t in result <==> t in multiset(result);
        assert t in Selected(tasks, userId) <==> t in multiset(Selected(tasks, userId));
        if t in tasks && Chosen(t, userId) {
          var k :| 0 <= k < |tasks| && tasks[k] == t;
          SelectedHasAll(tasks, userId, k);
        }
      }
    }
  }
}
