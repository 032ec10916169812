/**
 * The progress records of new_bot/plugins/utils.py: the module-level
 * `STATUS` dict, shared by every `STS` object, maps a forwarding id to a
 * record of named values (chats, skip, limit and the counters the task
 * engine bumps). `StatusBoard` holds that dict; the methods of `STS` are
 * its members, each taking the id the `STS` object was built with.
 */
module Sts {
  import opened Common
  import opened Db
  import Buttons

  /** The values a record holds: numbers, text, Python's None, and the task data `load_from_task` copies. */
  datatype Value = Null | Num(n: int) | Text(s: string) | BotInfo(bot: Option<BotRow>) | TaskConf(configs: TaskConfigs)

  type Record = map<string, Value>

  /** Python truthiness of a value (a bot or configs dict counts as non-empty). */
  predicate Truthy(v: Value)
  {
    match v
    case Null => false
    case Num(n) => n != 0
    case Text(s) => |s| > 0
    case BotInfo(b) => b.Some?
    case TaskConf(_) => true
  }

  /** `str(v)`, as the tasks table stores a chat. */
  function ValueStr(v: Value): (s: string)
    ensures v.Text? ==> s == v.s
    ensures v.Num? ==> s == IntToString(v.n)
  {
    match v
    case Num(n) => IntToString(n)
    case Text(s) => s
    case Null => "None"
    case BotInfo(_) => "{...}"
    case TaskConf(_) => "{...}"
  }

  /** The counter keys `store` sets to 0. */
  const Counters: set<string> := {"total_files", "filtered", "deleted", "duplicate", "start"}

  /** The keys every record written by `store` has. */
  const StoreKeys: set<string> := Counters + {"FROM", "TO", "skip", "limit", "fetched", "total"}

  /** A record as `store` leaves it, possibly with more keys: the counters hold numbers. */
  predicate Stored(rec: Record)
  {
    StoreKeys <= rec.Keys && forall k :: k in Counters ==> rec[k].Num?
  }

  /** The record `store(From, to, skip, limit)` writes. */
  function FreshRecord(from: Value, to: Value, skip: Value, limit: Value): (r: Record)
    ensures r.Keys == StoreKeys && Stored(r)
    ensures r["fetched"] == skip && r["total"] == limit
    ensures r["skip"] == skip && r["limit"] == limit && r["FROM"] == from && r["TO"] == to
    ensures forall k :: k in Counters ==> r[k] == Num(0)
  {
    map["FROM" := from, "TO" := to, "total_files" := Num(0), "skip" := skip, "limit" := limit,
        "fetched" := skip, "filtered" := Num(0), "deleted" := Num(0), "duplicate" := Num(0),
        "total" := limit, "start" := Num(0)]
  }

  // ---------------------------------------------------------------------
  // add(key, value): the new dict, and when it raises
  // ---------------------------------------------------------------------

  /**
   * `add` raises KeyError when the id has no record (`self.data[self.id]`)
   * and TypeError when the key holds something that is not a number
   * (`self.get(key) + value`).
   */
  predicate AddRaises(status: map<string, Record>, id: string, key: string)
  {
    id !in status || (key in status[id] && !status[id][key].Num?)
  }

  /** The dict after a successful `add(key, value)`. */
  function Bumped(status: map<string, Record>, id: string, key: string, v: int): map<string, Record>
  {
    if id in status && key in status[id] && status[id][key].Num?
    then status[id := status[id][key := Num(status[id][key].n + v)]]
    else status
  }

  /**
   * `add` increases only `key` of the id's record, by exactly `v`; an
   * unknown key changes nothing; the records of other ids never change.
   */
  lemma BumpedFacts(status: map<string, Record>, id: string, key: string, v: int)
    requires !AddRaises(status, id, key)
    ensures var s := Bumped(status, id, key, v);
      s.Keys == status.Keys
      && (forall o :: o in status && o != id ==> s[o] == status[o])
      && s[id].Keys == status[id].Keys
      && (forall k :: k in status[id] && k != key ==> s[id][k] == status[id][k])
      && (key in status[id] ==> s[id][key] == Num(status[id][key].n + v))
      && (key !in status[id] ==> s == status)
  {
  }

  ghost predicate AllStored(status: map<string, Record>)
  {
    forall id :: id in status ==> Stored(status[id])
  }

  /** `add` keeps every record a stored one: counters stay numbers and no key disappears. */
  lemma BumpedKeepsStored(status: map<string, Record>, id: string, key: string, v: int)
    requires AllStored(status)
    ensures AllStored(Bumped(status, id, key, v))
  {
  }

  /** Two additions to the same key add up. */
  lemma BumpedTwice(status: map<string, Record>, id: string, key: string, a: int, b: int)
    requires !AddRaises(status, id, key)
    ensures !AddRaises(Bumped(status, id, key, a), id, key)
    ensures Bumped(Bumped(status, id, key, a), id, key, b) == Bumped(status, id, key, a + b)
  {
    if key in status[id] {
      var r := status[id];
      var n := r[key].n;
      assert r[key := Num(n + a)][key := Num(n + a + b)] == r[key := Num(n + (a + b))];
    }
  }

  /** `divide`'s divisor: a zero divisor is replaced by 1. */
  function Divisor(divisor: int): (d: int)
    ensures d != 0
    ensures divisor != 0 ==> d == divisor
    ensures divisor == 0 ==> d == 1
  {
    if divisor == 0 then 1 else divisor
  }

  /** An exact quotient, standing for the float `divide` returns. */
  datatype Ratio = Ratio(num: int, den: int)

  /** Python's `int(a / b)`: the quotient truncated toward zero. */
  function TruncDiv(a: int, b: int): (q: int)
    requires b != 0
    ensures a >= 0 && b > 0 ==> q == a / b
    ensures (a >= 0 && b > 0) || (a <= 0 && b < 0) ==> q >= 0
    ensures (a <= 0 && b > 0) || (a >= 0 && b < 0) ==> q <= 0
  {
    if b > 0 && a >= 0 then a / b
    else if b < 0 && a <= 0 then (-a) / (-b)
    else if b > 0 then -((-a) / b)
    else -(a / (-b))
  }

  /** The progress of a record: None is the TypeError of a missing or non-numeric count. */
  function ProgressOf(rec: Record): (r: Option<int>)
    ensures "total" !in rec || !Truthy(rec["total"]) ==> r == Some(0)
  {
    var total := if "total" in rec then rec["total"] else Null;
    var fetched := if "fetched" in rec then rec["fetched"] else Null;
    if !Truthy(total) then Some(0)
    else if total.Num? && fetched.Num? then Some(TruncDiv(fetched.n * 100, total.n))
    else None
  }

  /** For 0 <= fetched <= total the percentage lies in 0..100 and is the floor of fetched*100/total. */
  lemma ProgressBounds(rec: Record, fetched: int, total: int)
    requires "total" in rec && "fetched" in rec
    requires rec["total"] == Num(total) && rec["fetched"] == Num(fetched)
    requires 0 <= fetched <= total && total > 0
    ensures ProgressOf(rec).Some?
    ensures var p := ProgressOf(rec).value;
      0 <= p <= 100 && p * total <= fetched * 100 < (p + 1) * total
  {
    var p := ProgressOf(rec).value;
    assert p == (fetched * 100) / total;
    assert fetched * 100 == p * total + (fetched * 100) % total;
    assert (p + 1) * total == p * total + total;
    assert fetched * 100 <= total * 100;
    DivBelow(fetched * 100, total, 100);
  }

  lemma MulSign(x: int, b: int)
    requires b > 0
    ensures x <= 0 ==> x * b <= 0
  {
  }

  lemma DivBelow(a: int, b: int, c: int)
    requires 0 <= a <= b * c && b > 0
    ensures a / b <= c
  {
    var q, r := a / b, a % b;
    assert a == q * b + r && 0 <= r < b;
    assert (c - q + 1) * b == c * b - q * b + b;
    assert (c - q + 1) * b > 0;
    MulSign(c - q + 1, b);
  }

  /** The fields of the `data` dict that `get_data` builds. */
  datatype DataBlock = DataBlock(
    chatId: Value,
    limit: Value,
    offset: Value,
    filters: map<string, bool>,
    keywords: Option<string>,
    mediaSize: Option<(int, Option<int>)>,
    extensions: Option<string>,
    skipDuplicate: Option<(Option<string>, Value)>)

  /** The six values `get_data` returns; the `data` dict is None when it is `{}`. */
  datatype Setup = Setup(
    bot: Option<BotRow>,
    caption: Option<string>,
    forwardTag: bool,
    data: Option<DataBlock>,
    protect: bool,
    button: Option<Buttons.Markup>)

  /** The tuple of the `except` branch: `(None, None, False, {}, False, None)`. */
  const FallbackSetup: Setup := Setup(None, None, false, None, false, None)

  /** A key of the record, Python's None when it is missing (the `STS` attribute of that name). */
  function RecField(rec: Record, k: string): Value
  {
    if k in rec then rec[k] else Null
  }

  /**
   * `get_data` from the user's bot, filters and configs and the record's
   * chats, skip and limit. The keyboard comes from new_bot/plugins/test.py's
   * `parse_buttons` as the file has it, which never builds one.
   */
  function SetupOf(bot: Option<BotRow>, configs: Configs, rec: Record): (s: Setup)
    ensures s.data.Some?
    ensures s.data.value.chatId == RecField(rec, "FROM") && s.data.value.limit == RecField(rec, "limit")
    ensures s.data.value.offset == RecField(rec, "skip")
    ensures s.data.value.keywords == configs.keywords && s.data.value.extensions == configs.extension
    ensures s.button == None
    ensures s.data.value.skipDuplicate.Some? <==> configs.duplicate
    ensures configs.duplicate ==> s.data.value.skipDuplicate == Some((configs.dbUri, RecField(rec, "TO")))
    ensures s.data.value.mediaSize.Some? <==> configs.fileSize != 0
    ensures configs.fileSize != 0 ==> s.data.value.mediaSize.value == (configs.fileSize, configs.sizeLimit)
    ensures s.data.value.filters == configs.filters
    ensures s.bot == bot && s.caption == configs.caption && s.forwardTag == configs.forwardTag
    ensures s.protect == configs.protect
  {
    var text := match configs.button case Some(t) => t case None => "";
    Buttons.ParseButtonsAsWrittenIsNone(text, true);
    Setup(bot, configs.caption, configs.forwardTag,
          Some(DataBlock(RecField(rec, "FROM"), RecField(rec, "limit"), RecField(rec, "skip"), configs.filters, configs.keywords,
                         if configs.fileSize != 0 then Some((configs.fileSize, configs.sizeLimit)) else None,
                         configs.extension,
                         if configs.duplicate then Some((configs.dbUri, RecField(rec, "TO"))) else None)),
          configs.protect,
          Buttons.ParseButtonsAsWritten(text, true))
  }

  class StatusBoard {
    /** `STATUS`: forwarding id to record. */
    var status: map<string, Record>

    constructor()
      ensures Valid()
      ensures status == map[]
    {
      status := map[];
    }

    /** Every record was written by `store`: only `store` creates records, and `add` keeps numbers numbers (`BumpedKeepsStored`). */
    ghost predicate Valid()
      reads this
    {
      AllStored(status)
    }

    /** `verify`: the record, truthy iff present and non-empty. */
    predicate Verify(id: string)
      reads this
    {
      id in status && status[id] != map[]
    }

    /** `get(key)`: None when the record is absent or empty, or lacks the key. */
    function Get(id: string, key: string): (v: Value)
      reads this
      ensures !Verify(id) ==> v == Null
      ensures Verify(id) && key !in status[id] ==> v == Null
      ensures Verify(id) && key in status[id] ==> v == status[id][key]
    {
      if !Verify(id) then Null else if key in status[id] then status[id][key] else Null
    }

    /** `get(full=True)`: the whole record, or `{}` when there is none. */
    function GetFull(id: string): (r: Record)
      reads this
      ensures !Verify(id) ==> r == map[]
      ensures Verify(id) ==> r == status[id]
    {
      if Verify(id) then status[id] else map[]
    }

    /** `store`: a fresh record for the id, replacing any earlier one. */
    method Store(id: string, from: Value, to: Value, skip: Value, limit: Value)
      requires Valid()
      modifies this
      ensures Valid()
      ensures status == old(status)[id := FreshRecord(from, to, skip, limit)]
      ensures Verify(id)
    {
      status := status[id := FreshRecord(from, to, skip, limit)];
    }

    /** `add(key, value)`; `raised` is the KeyError or TypeError. */
    method Add(id: string, key: string, v: int) returns (raised: bool)
      modifies this
      ensures raised <==> AddRaises(old(status), id, key)
      ensures raised ==> status == old(status)
      ensures !raised ==> status == Bumped(old(status), id, key, v)
    {
      if id !in status {
        return true;
      }
      if key in status[id] {
        if !status[id][key].Num? {
          return true;
        }
        status := status[id := status[id][key := Num(status[id][key].n + v)]];
      }
      raised := false;
    }

    /** `add(time=True)`: only `start` changes; KeyError without a record. */
    method AddTime(id: string, now: int) returns (raised: bool)
      requires Valid()
      modifies this
      ensures Valid()
      ensures raised <==> id !in old(status)
      ensures raised ==> status == old(status)
      ensures !raised ==> status == old(status)[id := old(status)[id]["start" := Num(now)]]
    {
      if id !in status {
        return true;
      }
      status := status[id := status[id]["start" := Num(now)]];
      raised := false;
    }

    /** `update_last_message`: a no-op for an unknown id. */
    method UpdateLastMessage(id: string, msgId: Value)
      requires Valid()
      modifies this
      ensures Valid()
      ensures id !in old(status) ==> status == old(status)
      ensures id in old(status) ==> status == old(status)[id := old(status)[id]["last_message_id" := msgId]]
    {
      if id in status {
        status := status[id := status[id]["last_message_id" := msgId]];
      }
    }

    /** `divide(no, by)`: no / by, with a zero divisor read as 1. */
    function Divide(no: int, divisor: int): (r: Ratio)
      ensures r.den != 0 && r.num == no
      ensures divisor != 0 ==> r.den == divisor
    {
      Ratio(no, Divisor(divisor))
    }

    /** `get_progress`: 0 without a record or with a zero or missing total. */
    function GetProgress(id: string): (r: Option<int>)
      reads this
      ensures !Verify(id) ==> r == Some(0)
      ensures Verify(id) && !Truthy(Get(id, "total")) ==> r == Some(0)
    {
      if !Verify(id) then Some(0) else ProgressOf(status[id])
    }

    /** Replaces one record by another that `store` could have started. */
    method Put(id: string, rec: Record)
      requires Valid() && Stored(rec)
      modifies this
      ensures Valid()
      ensures status == old(status)[id := rec]
    {
      status := status[id := rec];
    }

    /**
     * `load_from_task`: False for a missing task (the `get_task` result is
     * None); otherwise the record `store` writes from the task's chats,
     * checkpoint and total, plus its id, bot and configs.
     */
    method LoadFromTask(id: string, taskId: string, task: Option<TaskRow>) returns (loaded: bool)
      requires Valid()
      modifies this
      ensures Valid()
      ensures loaded <==> task.Some?
      ensures !loaded ==> status == old(status)
      ensures loaded ==> status == old(status)[id := LoadedRecord(taskId, task.value)]
    {
      if task.None? {
        return false;
      }
      var t := task.value;
      var skip := match t.lastForwardedMsgId case None => Null case Some(k) => Num(k);
      Store(id, Text(t.fromChat), Text(t.toChat), skip, Num(t.totalCount));
      // the record just stored, with the task's id, bot and configs added
      ghost var before := old(status);
      ghost var stored := status;
      Put(id, LoadedRecord(taskId, t));
      PutTwice(before, id, stored[id], LoadedRecord(taskId, t));
      loaded := true;
    }

    /**
     * `get_data`: the bot, caption, tag flag, data dict, protect flag and
     * keyboard, or the fallback tuple when a database read raises
     * (`dbOk` false).
     */
    function GetData(db: Database, userId: int, id: string, dbOk: bool): (s: Setup)
      reads this, db
      ensures !dbOk ==> s == FallbackSetup
      ensures dbOk ==> s.data.Some? && s.bot == db.GetBot(userId)
      ensures dbOk ==> (s.data.value.skipDuplicate.Some? <==> db.GetConfigs(userId).duplicate)
      ensures dbOk ==> (s.data.value.mediaSize.Some? <==> db.GetConfigs(userId).fileSize != 0)
      ensures dbOk ==> s == SetupOf(db.GetBot(userId), db.GetConfigs(userId), GetFull(id))
    {
      if !dbOk then FallbackSetup else SetupOf(db.GetBot(userId), db.GetConfigs(userId), GetFull(id))
    }
  }

  lemma PutTwice(m: map<string, Record>, id: string, a: Record, b: Record)
    ensures m[id := a][id := b] == m[id := b]
  {
  }

  /** The record `load_from_task` leaves: None as a checkpoint stays None. */
  function LoadedRecord(taskId: string, t: TaskRow): (r: Record)
    ensures Stored(r)
  {
    var skip := match t.lastForwardedMsgId case None => Null case Some(k) => Num(k);
    FreshRecord(Text(t.fromChat), Text(t.toChat), skip, Num(t.totalCount))
      ["task_id" := Text(taskId)]["bot_details" := BotInfo(t.botDetails)]["configs" := TaskConf(t.configs)]
  }

  /** What the loaded record holds: the checkpoint as `fetched` and `skip`, the task's chats and total, zero counters. */
  lemma LoadedRecordFacts(taskId: string, t: TaskRow)
    ensures var r := LoadedRecord(taskId, t);
      r.Keys == StoreKeys + {"task_id", "bot_details", "configs"}
    ensures var r := LoadedRecord(taskId, t);
      r["fetched"] == r["skip"] == (if t.lastForwardedMsgId.Some? then Num(t.lastForwardedMsgId.value) else Null)
    ensures var r := LoadedRecord(taskId, t);
      r["FROM"] == Text(t.fromChat) && r["TO"] == Text(t.toChat) && r["total"] == Num(t.totalCount)
    ensures var r := LoadedRecord(taskId, t);
      r["task_id"] == Text(taskId) && r["bot_details"] == BotInfo(t.botDetails) && r["configs"] == TaskConf(t.configs)
    ensures var r := LoadedRecord(taskId, t);
      forall k :: k in Counters ==> r[k] == Num(0)
  {
    var skip := match t.lastForwardedMsgId case None => Null case Some(k) => Num(k);
    var f := FreshRecord(Text(t.fromChat), Text(t.toChat), skip, Num(t.totalCount));
    var extra := {"task_id", "bot_details", "configs"};
    assert extra !! StoreKeys;
    assert LoadedRecord(taskId, t) == f["task_id" := Text(taskId)]["bot_details" := BotInfo(t.botDetails)]["configs" := TaskConf(t.configs)];
  }
}
