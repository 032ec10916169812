/**
 * The Telethon forwarder of forwarder.py. One `Forwarder` per phone keeps
 * `is_running`, `should_cancel` and a `progress` record, and mirrors the
 * record into the user's file under the key "<source_id>_<destination_id>"
 * of `forwarding_progress`.
 *
 * A run has two passes over the source chat: the first counts the messages,
 * the second forwards them one by one. Each pass asks `get_messages` for
 * its own pages, so Telegram's answers are two inputs: `counted` is what
 * the counting pass receives page after page, `pages` what the forwarding
 * pass receives (the two agree when the chat does not change in between).
 * Each message carries the reply its forward gets, `entitiesOk` says whether both chats resolve, `fault`
 * names the `get_messages` call that raises, if one does, and `cancelAt`
 * says after how many forward attempts a `cancel_forwarding` call from the
 * manager's thread has landed, if one does.
 */
module Relay {
  import opened Common
  import opened UserStore

  /** The page size both passes ask for. */
  const Limit: nat := 100

  datatype RunStatus = Idle | Running | Completed | Cancelled | Failed

  function StatusName(s: RunStatus): string
  {
    match s
    case Idle => "idle"
    case Running => "running"
    case Completed => "completed"
    case Cancelled => "cancelled"
    case Failed => "failed"
  }

  /** The `progress` dict. The two ids are None until a run sets them. */
  datatype Progress = Progress(
    sourceId: Option<string>,
    destinationId: Option<string>,
    totalMessages: int,
    forwardedMessages: int,
    lastForwardedId: Option<int>,
    status: RunStatus,
    error: Option<string>)

  const InitialProgress := Progress(None, None, 0, 0, None, Idle, None)

  /** The answer to one forward request. */
  datatype Reply = Forwarded | FloodWait(seconds: int) | SendError(text: string)

  datatype Msg = Msg(id: int, reply: Reply)

  type Page = seq<Msg>

  // ---------------------------------------------------------------------
  // The progress record as JSON, and what update_progress writes
  // ---------------------------------------------------------------------

  function OptStr(v: Option<string>): Json { match v case None => JNull case Some(s) => JStr(s) }

  function OptInt(v: Option<int>): Json { match v case None => JNull case Some(i) => JInt(i) }

  /** `self.progress.copy()` as stored in the file. */
  function ProgressJson(p: Progress): (j: Json)
    ensures j.JObj? && "last_forwarded_id" in j.fields && "status" in j.fields
    ensures j.fields["last_forwarded_id"] == OptInt(p.lastForwardedId)
    ensures j.fields["status"] == JStr(StatusName(p.status))
  {
    JObj(map["source_id" := OptStr(p.sourceId), "destination_id" := OptStr(p.destinationId),
             "total_messages" := JInt(p.totalMessages), "forwarded_messages" := JInt(p.forwardedMessages),
             "last_forwarded_id" := OptInt(p.lastForwardedId), "status" := JStr(StatusName(p.status)),
             "error" := OptStr(p.error)])
  }

  /** Python truthiness of an id: None and "" are false. */
  predicate IdSet(v: Option<string>) { v.Some? && v.value != "" }

  /** The key of a source/destination pair. */
  function PairKey(source: string, destination: string): string { source + "_" + destination }

  /** `d.get(key, default)` on a record. */
  function GetOr(rec: map<string, Json>, key: string, default: Json): Json
  {
    if key in rec then rec[key] else default
  }

  /**
   * What `update_progress` does with the user's file after updating the
   * record in memory: reading it raises when there is no record; nothing is
   * written unless both ids are set; the item assignment raises when
   * `forwarding_progress` is not an object; otherwise the new
   * `forwarding_progress` object is written back.
   */
  datatype Persist = ReadRaised | NotKeyed | FieldRaised | Write(progressField: Json)

  function PersistOf(data: Option<UserRecord>, p: Progress): (r: Persist)
    ensures r.Write? ==> data.Some? && IdSet(p.sourceId) && IdSet(p.destinationId)
  {
    match data
    case None => ReadRaised
    case Some(rec) =>
      var field := GetOr(rec, "forwarding_progress", JObj(map[]));
      if !(IdSet(p.sourceId) && IdSet(p.destinationId)) then NotKeyed
      else match field
        case JObj(m) => Write(JObj(m[PairKey(p.sourceId.value, p.destinationId.value) := ProgressJson(p)]))
        case _ => FieldRaised
  }

  predicate Raises(data: Option<UserRecord>, p: Progress)
  {
    PersistOf(data, p).ReadRaised? || PersistOf(data, p).FieldRaised?
  }

  /** The directory after `update_progress(p)`; `update_user` writes nothing for an empty record. */
  function FilesAfter(files: map<string, UserFile>, phone: string, p: Progress): map<string, UserFile>
  {
    var data := Lookup(files, phone);
    match PersistOf(data, p)
    case Write(field) =>
      if data.value == map[] then files
      else files[phone := Parsed(data.value["forwarding_progress" := field])]
    case _ => files
  }

  /**
   * `update_progress` persists only under the pair's key: every other
   * phone's file, every other key of the record and every other pair's
   * entry stay as they were, and the pair's entry is the new record.
   */
  lemma FilesAfterFacts(files: map<string, UserFile>, phone: string, p: Progress)
    ensures forall q :: q != phone ==> (q in FilesAfter(files, phone, p) <==> q in files)
    ensures forall q :: q != phone && q in files ==> FilesAfter(files, phone, p)[q] == files[q]
    ensures !(IdSet(p.sourceId) && IdSet(p.destinationId)) ==> FilesAfter(files, phone, p) == files
    ensures Raises(Lookup(files, phone), p) ==> FilesAfter(files, phone, p) == files
    ensures PersistOf(Lookup(files, phone), p).Write? && Lookup(files, phone).value != map[] ==>
      var before := Lookup(files, phone).value;
      var after := Lookup(FilesAfter(files, phone, p), phone);
      var key := PairKey(p.sourceId.value, p.destinationId.value);
      var old_entries := GetOr(before, "forwarding_progress", JObj(map[])).fields;
      after.Some? && after.value.Keys == before.Keys + {"forwarding_progress"}
      && (forall k :: k in before && k != "forwarding_progress" ==> after.value[k] == before[k])
      && after.value["forwarding_progress"].JObj?
      && after.value["forwarding_progress"].fields == old_entries[key := ProgressJson(p)]
  {
  }

  /**
   * A second `update_progress` with the same ids, after one that did not
   * raise, does not raise either, and leaves the file as if only the second
   * had been made.
   */
  lemma FilesAfterTwice(files: map<string, UserFile>, phone: string, p: Progress, q: Progress)
    requires !Raises(Lookup(files, phone), p)
    requires q.sourceId == p.sourceId && q.destinationId == p.destinationId
    ensures !Raises(Lookup(FilesAfter(files, phone, p), phone), q)
    ensures FilesAfter(FilesAfter(files, phone, p), phone, q) == FilesAfter(files, phone, q)
  {
    var data := Lookup(files, phone);
    if PersistOf(data, p).Write? && data.value != map[] {
      var key := PairKey(p.sourceId.value, p.destinationId.value);
      var m := GetOr(data.value, "forwarding_progress", JObj(map[])).fields;
      var field := JObj(m[key := ProgressJson(q)]);
      assert m[key := ProgressJson(p)][key := ProgressJson(q)] == m[key := ProgressJson(q)];
      var rec1 := data.value["forwarding_progress" := JObj(m[key := ProgressJson(p)])];
      assert Lookup(FilesAfter(files, phone, p), phone) == Some(rec1);
      assert rec1["forwarding_progress" := field] == data.value["forwarding_progress" := field];
    }
  }

  // ---------------------------------------------------------------------
  // Where a run starts
  // ---------------------------------------------------------------------

  /** Python truthiness of a JSON value. */
  predicate JsonTruthy(j: Json)
  {
    match j
    case JNull => false
    case JBool(b) => b
    case JInt(i) => i != 0
    case JStr(s) => s != ""
    case JList(items) => |items| > 0
    case JObj(m) => m != map[]
  }

  /**
   * The start id `forward_messages` reads from a record for a pair: one past
   * the pair's `last_forwarded_id` when that is set and the pair's status is
   * not "completed", else 1. None where a lookup on a non-object raises.
   */
  function StartIdFrom(rec: UserRecord, key: string): Option<int>
  {
    match GetOr(rec, "forwarding_progress", JObj(map[]))
    case JObj(entries) =>
      (match GetOr(entries, key, JObj(map[]))
       case JObj(prev) =>
         var last := GetOr(prev, "last_forwarded_id", JNull);
         if JsonTruthy(last) && GetOr(prev, "status", JNull) != JStr("completed") then
           (match last
            case JInt(i) => Some(i + 1)
            case JBool(b) => Some(2)
            case _ => None)
         else Some(1)
       case _ => None)
    case _ => None
  }

  /**
   * As written, the pair's entry is read after the run's first
   * `update_progress` has replaced it with `last_forwarded_id` None, so the
   * start id is 1 whatever the earlier entry held.
   */
  lemma StartIdAsWrittenIsOne(files: map<string, UserFile>, phone: string, source: string, destination: string)
    requires source != "" && destination != ""
    requires !Raises(Lookup(files, phone), StartProgress(source, destination))
    ensures var after := Lookup(FilesAfter(files, phone, StartProgress(source, destination)), phone);
      after.Some? && StartIdFrom(after.value, PairKey(source, destination)) == Some(1)
  {
  }

  /** The record the run's first `update_progress` writes. */
  function StartProgress(source: string, destination: string): Progress
  {
    Progress(Some(source), Some(destination), 0, 0, None, Running, None)
  }

  /**
   * The start id the comments describe: the pair's entry read before the
   * first `update_progress` overwrites it.
   */
  function ResumeStartId(files: map<string, UserFile>, phone: string, source: string, destination: string): Option<int>
  {
    match Lookup(files, phone)
    case None => None
    case Some(rec) => StartIdFrom(rec, PairKey(source, destination))
  }

  /** An unfinished earlier run for the pair, stopped after message k, is resumed at k + 1. */
  lemma ResumeStartIdResumes(files: map<string, UserFile>, phone: string, source: string, destination: string, prev: Progress)
    requires Lookup(files, phone).Some?
    requires var rec := Lookup(files, phone).value;
      "forwarding_progress" in rec && rec["forwarding_progress"].JObj?
      && rec["forwarding_progress"].fields.Keys == {PairKey(source, destination)}
      && rec["forwarding_progress"].fields[PairKey(source, destination)] == ProgressJson(prev)
    requires prev.lastForwardedId.Some? && prev.lastForwardedId.value != 0 && prev.status != Completed
    ensures ResumeStartId(files, phone, source, destination) == Some(prev.lastForwardedId.value + 1)
  {
    assert StatusName(prev.status) != "completed";
  }

  /** The concrete case: an entry stopped at message 41 resumes at 42 when read first, but starts at 1 as written. */
  lemma StartIdDiscrepancy()
    ensures var prev := Progress(Some("s"), Some("d"), 50, 41, Some(41), Running, None);
      var files := map["p" := Parsed(map["forwarding_progress" := JObj(map["s_d" := ProgressJson(prev)])])];
      ResumeStartId(files, "p", "s", "d") == Some(42)
      && StartIdFrom(Lookup(FilesAfter(files, "p", StartProgress("s", "d")), "p").value, "s_d") == Some(1)
  {
    var prev := Progress(Some("s"), Some("d"), 50, 41, Some(41), Running, None);
    var files := map["p" := Parsed(map["forwarding_progress" := JObj(map["s_d" := ProgressJson(prev)])])];
    assert PairKey("s", "d") == "s_d";
    ResumeStartIdResumes(files, "p", "s", "d", prev);
    StartIdAsWrittenIsOne(files, "p", "s", "d");
  }

  // ---------------------------------------------------------------------
  // The pages both passes see
  // ---------------------------------------------------------------------

  /**
   * The messages the paging loops visit: pages up to the first empty one
   * (excluded) or the first one shorter than the limit (included); running
   * out of answers counts as an empty page.
   */
  function Visible(pages: seq<Page>): seq<Msg>
  {
    if |pages| == 0 || |pages[0]| == 0 then []
    else if |pages[0]| < Limit then pages[0]
    else pages[0] + Visible(pages[1..])
  }

  function Flat(pages: seq<Page>): seq<Msg>
  {
    if |pages| == 0 then [] else Flat(pages[..|pages| - 1]) + pages[|pages| - 1]
  }

  predicate AllFull(pages: seq<Page>)
  {
    forall j :: 0 <= j < |pages| ==> |pages[j]| >= Limit
  }

  /** After full pages, what is still visible is what the rest of the pages show. */
  lemma {:induction false} VisibleAfterFull(pages: seq<Page>, i: nat)
    requires i <= |pages| && AllFull(pages[..i])
    ensures Visible(pages) == Flat(pages[..i]) + Visible(pages[i..])
    decreases i
  {
    if i > 0 {
      VisibleAfterFull(pages, i - 1);
      assert pages[..i][..i - 1] == pages[..i - 1];
      assert Flat(pages[..i]) == Flat(pages[..i - 1]) + pages[i - 1];
      assert pages[i - 1..][1..] == pages[i..];
    }
  }

  /** One more full page read. */
  lemma FlatNext(pages: seq<Page>, i: nat)
    requires i < |pages| && AllFull(pages[..i]) && |pages[i]| >= Limit
    ensures Flat(pages[..i + 1]) == Flat(pages[..i]) + pages[i] && AllFull(pages[..i + 1])
  {
    assert pages[..i + 1][..i] == pages[..i];
  }

  /** The total of the counting pass: the page lengths, stopping as the loop stops. */
  function DiscoveryTotal(pages: seq<Page>): nat
  {
    if |pages| == 0 || |pages[0]| == 0 then 0
    else if |pages[0]| < Limit then |pages[0]|
    else |pages[0]| + DiscoveryTotal(pages[1..])
  }

  /** The counting pass counts exactly the messages its paging loop reaches: those the forwarding pass visits in the same pages. */
  lemma {:induction false} DiscoveryCountsVisible(pages: seq<Page>)
    ensures DiscoveryTotal(pages) == |Visible(pages)|
    decreases |pages|
  {
    if |pages| > 0 && |pages[0]| >= Limit {
      DiscoveryCountsVisible(pages[1..]);
    }
  }

  /** The pass a `get_messages` call belongs to. */
  datatype Pass = Counting | Relaying

  /** A `get_messages` call that raises: its pass, and how many calls of that pass came before it. */
  datatype FetchFault = FetchFault(pass: Pass, call: nat)

  /** A paging loop makes its call `j`: every page before it was full (call `|pages|` gets the empty answer). */
  predicate Reaches(pages: seq<Page>, j: nat)
  {
    j <= |pages| && AllFull(pages[..j])
  }

  /** The counting pass raises: its faulty call is made. */
  predicate CountRaises(counted: seq<Page>, fault: Option<FetchFault>)
  {
    fault.Some? && fault.value.pass == Counting && Reaches(counted, fault.value.call)
  }

  /**
   * The forwarding pass raises: its faulty call is made, which needs every
   * page before it full and no cancel seen at the top of the loop.
   */
  predicate RelayRaises(pages: seq<Page>, cancelAt: Option<nat>, fault: Option<FetchFault>)
  {
    fault.Some? && fault.value.pass == Relaying && Reaches(pages, fault.value.call)
    && !(cancelAt.Some? && cancelAt.value <= |Flat(pages[..fault.value.call])|)
  }

  /** A page that is not full ends the paging loop: no later call is made. */
  lemma NoCallPast(pages: seq<Page>, i: nat, j: nat)
    requires i < j && (i == |pages| || (i < |pages| && |pages[i]| < Limit))
    ensures !Reaches(pages, j)
  {
    if j <= |pages| {
      assert pages[..j][i] == pages[i];
    }
  }

  /** Reading more pages never reads fewer messages. */
  lemma {:induction false} FlatGrows(pages: seq<Page>, i: nat, j: nat)
    requires i <= j <= |pages|
    ensures |Flat(pages[..i])| <= |Flat(pages[..j])|
    decreases j
  {
    if i < j {
      FlatGrows(pages, i, j - 1);
      assert pages[..j][..j - 1] == pages[..j - 1];
    }
  }

  /** A cancel seen at the top of the loop, before call `i`, keeps that call and every later one from being made. */
  lemma CancelBlocksFetch(pages: seq<Page>, i: nat, cancelAt: Option<nat>, fault: Option<FetchFault>)
    requires i <= |pages|
    requires cancelAt.Some? && cancelAt.value <= |Flat(pages[..i])|
    requires fault.Some? && fault.value.pass == Relaying ==> i <= fault.value.call
    ensures !RelayRaises(pages, cancelAt, fault)
  {
    if fault.Some? && fault.value.pass == Relaying && Reaches(pages, fault.value.call) {
      FlatGrows(pages, i, fault.value.call);
    }
  }

  /** A cancel that lands inside page `i` keeps every later call of the forwarding pass from being made. */
  lemma CancelInPageBlocksFetch(pages: seq<Page>, i: nat, cancelAt: Option<nat>, fault: Option<FetchFault>)
    requires i < |pages| && AllFull(pages[..i])
    requires cancelAt.Some? && cancelAt.value < |Flat(pages[..i])| + |pages[i]|
    requires fault.Some? && fault.value.pass == Relaying ==> i < fault.value.call
    ensures !RelayRaises(pages, cancelAt, fault)
  {
    if fault.Some? && fault.value.pass == Relaying && Reaches(pages, fault.value.call) {
      var j := fault.value.call;
      assert pages[..j][i] == pages[i];
      FlatNext(pages, i);
      FlatGrows(pages, i + 1, j);
    }
  }

  // ---------------------------------------------------------------------
  // The forwarding pass, message by message
  // ---------------------------------------------------------------------

  /** `forwarded_count`: +1 per forward, -1 per FloodWait, unchanged on any other error. */
  function Count(msgs: seq<Msg>): int
  {
    if |msgs| == 0 then 0
    else
      var m := msgs[|msgs| - 1];
      Count(msgs[..|msgs| - 1]) + (match m.reply case Forwarded => 1 case FloodWait(_) => -1 case SendError(_) => 0)
  }

  /** The messages that went out. */
  function Sent(msgs: seq<Msg>): nat
  {
    if |msgs| == 0 then 0 else Sent(msgs[..|msgs| - 1]) + (if msgs[|msgs| - 1].reply.Forwarded? then 1 else 0)
  }

  /** The forwards answered with a FloodWait. */
  function Floods(msgs: seq<Msg>): nat
  {
    if |msgs| == 0 then 0 else Floods(msgs[..|msgs| - 1]) + (if msgs[|msgs| - 1].reply.FloodWait? then 1 else 0)
  }

  /**
   * A FloodWait is not retried: the message is skipped and the count goes
   * down by one, so the count is the messages sent minus the FloodWaits.
   */
  lemma {:induction false} CountIsSentMinusFloods(msgs: seq<Msg>)
    ensures Count(msgs) == Sent(msgs) - Floods(msgs)
    decreases |msgs|
  {
    if |msgs| > 0 {
      CountIsSentMinusFloods(msgs[..|msgs| - 1]);
    }
  }

  /** The length of the shortest prefix holding every forwarded message: 0 when none went out. */
  function LastSent(msgs: seq<Msg>): (n: nat)
    ensures n <= |msgs|
    ensures n > 0 ==> msgs[n - 1].reply.Forwarded?
    ensures forall k :: n <= k < |msgs| ==> !msgs[k].reply.Forwarded?
  {
    if |msgs| == 0 then 0
    else if msgs[|msgs| - 1].reply.Forwarded? then |msgs|
    else LastSent(msgs[..|msgs| - 1])
  }

  /**
   * The progress record after the attempts `msgs`: each forward sets
   * `forwarded_messages` to the count so far and `last_forwarded_id` to the
   * message's id; other replies leave the record alone.
   */
  function RelayProgress(p: Progress, msgs: seq<Msg>): Progress
  {
    if |msgs| == 0 then p
    else
      var q := RelayProgress(p, msgs[..|msgs| - 1]);
      var m := msgs[|msgs| - 1];
      if m.reply.Forwarded? then q.(forwardedMessages := Count(msgs), lastForwardedId := Some(m.id)) else q
  }

  /**
   * The record a run leaves: untouched when nothing went out; otherwise
   * `last_forwarded_id` is the last message that went out and
   * `forwarded_messages` the count as it stood then (FloodWaits after it
   * are not recorded). Nothing else in it moves.
   */
  lemma {:induction false} RelayProgressFacts(p: Progress, msgs: seq<Msg>)
    ensures LastSent(msgs) == 0 <==> Sent(msgs) == 0
    ensures LastSent(msgs) == 0 ==> RelayProgress(p, msgs) == p
    ensures LastSent(msgs) > 0 ==>
      RelayProgress(p, msgs) == p.(forwardedMessages := Count(msgs[..LastSent(msgs)]),
                                   lastForwardedId := Some(msgs[LastSent(msgs) - 1].id))
    decreases |msgs|
  {
    if |msgs| > 0 {
      RelayProgressFacts(p, msgs[..|msgs| - 1]);
      assert msgs[..|msgs|] == msgs;
      if !msgs[|msgs| - 1].reply.Forwarded? && LastSent(msgs) > 0 {
        assert msgs[..LastSent(msgs)] == msgs[..|msgs| - 1][..LastSent(msgs)];
      }
    }
  }

  /** The attempts a run makes: all visible messages, or the first `c` when a cancel lands after `c` attempts. */
  function Attempted(pages: seq<Page>, cancelAt: Option<nat>): seq<Msg>
  {
    var v := Visible(pages);
    if cancelAt.Some? && cancelAt.value < |v| then v[..cancelAt.value] else v
  }

  /** A cancel lands during the run when it comes after no more attempts than there are messages. */
  predicate CancelLands(pages: seq<Page>, cancelAt: Option<nat>)
  {
    cancelAt.Some? && cancelAt.value <= |Visible(pages)|
  }

  /** The attempts of the forwarding pass: those of the pages before the faulty call when it raises, else `Attempted`. */
  function Attempts(pages: seq<Page>, cancelAt: Option<nat>, fault: Option<FetchFault>): seq<Msg>
  {
    if RelayRaises(pages, cancelAt, fault) then Flat(pages[..fault.value.call]) else Attempted(pages, cancelAt)
  }

  /**
   * A fetch error cuts the forwarding pass short: what it attempted is the
   * start of what the run without the error attempts, and without a fault
   * the attempts are `Attempted`.
   */
  lemma FaultCutsAttempts(pages: seq<Page>, cancelAt: Option<nat>, fault: Option<FetchFault>)
    ensures fault.None? ==> Attempts(pages, cancelAt, fault) == Attempted(pages, cancelAt)
    ensures var a := Attempts(pages, cancelAt, fault);
      |a| <= |Attempted(pages, cancelAt)| && a == Attempted(pages, cancelAt)[..|a|]
  {
    if RelayRaises(pages, cancelAt, fault) {
      var j := fault.value.call;
      VisibleAfterFull(pages, j);
      var a := Flat(pages[..j]);
      assert Visible(pages)[..|a|] == a;
    }
  }

  /** A run cut by a cancel after the attempts `done`, which the visible messages start with. */
  lemma AttemptedWhenCut(pages: seq<Page>, cancelAt: Option<nat>, done: seq<Msg>, rest: seq<Msg>)
    requires Visible(pages) == done + rest
    requires cancelAt.Some? && cancelAt.value == |done|
    ensures done == Attempted(pages, cancelAt) && CancelLands(pages, cancelAt)
  {
    assert Visible(pages)[..|done|] == done;
  }

  /** A run cut by a cancel inside page `i`, after the attempts `done`. */
  lemma AttemptedWhenPageCut(pages: seq<Page>, i: nat, cancelAt: Option<nat>, done0: seq<Msg>, done: seq<Msg>)
    requires i < |pages| && Visible(pages) == done0 + Visible(pages[i..])
    requires |done0| <= |done| < |done0| + |pages[i]| && done == done0 + pages[i][..|done| - |done0|]
    requires cancelAt.Some? && cancelAt.value == |done|
    ensures done == Attempted(pages, cancelAt) && CancelLands(pages, cancelAt)
  {
    VisibleFrom(pages, i);
    var m := |done| - |done0|;
    var rest := pages[i][m..] + if |pages[i]| < Limit then [] else Visible(pages[i + 1..]);
    assert pages[i] == pages[i][..m] + pages[i][m..];
    assert Visible(pages[i..]) == pages[i][..m] + rest;
    AttemptedWhenCut(pages, cancelAt, done, rest);
  }

  /** The visible messages from page `i` on, one page unfolded. */
  lemma VisibleFrom(pages: seq<Page>, i: nat)
    requires i < |pages|
    ensures |pages[i]| == 0 ==> Visible(pages[i..]) == []
    ensures 0 < |pages[i]| < Limit ==> Visible(pages[i..]) == pages[i]
    ensures |pages[i]| >= Limit ==> Visible(pages[i..]) == pages[i] + Visible(pages[i + 1..])
  {
    assert pages[i..][0] == pages[i];
    assert pages[i..][1..] == pages[i + 1..];
  }

  /**
   * The record `forward_messages` ends with, from the one its first
   * `update_progress` wrote: failed with the error, nothing counted, when
   * the chats do not resolve or the counting pass raises; otherwise the
   * total of the counting pass and the attempts of the forwarding pass, then
   * failed with the error when a page fetch of that pass raised, else
   * cancelled or completed as the cancel landed or not.
   */
  function RunOutcome(p0: Progress, entitiesOk: bool, counted: seq<Page>, pages: seq<Page>, cancelAt: Option<nat>,
                      fault: Option<FetchFault>, err: string): (r: Progress)
    ensures r.sourceId == p0.sourceId && r.destinationId == p0.destinationId
    ensures r.status == Failed <==> !entitiesOk || CountRaises(counted, fault) || RelayRaises(pages, cancelAt, fault)
    ensures r.status == Failed ==> r.error == Some(err)
    ensures !entitiesOk || CountRaises(counted, fault) ==>
              r.totalMessages == p0.totalMessages && r.forwardedMessages == p0.forwardedMessages
              && r.lastForwardedId == p0.lastForwardedId
    ensures entitiesOk && !CountRaises(counted, fault) ==>
              r.totalMessages == |Visible(counted)|
              && (!RelayRaises(pages, cancelAt, fault) ==>
                    r.error == p0.error
                    && (r.status == Cancelled <==> CancelLands(pages, cancelAt))
                    && (r.status == Completed <==> !CancelLands(pages, cancelAt)))
  {
    if !entitiesOk || CountRaises(counted, fault) then p0.(status := Failed, error := Some(err))
    else
      var p1 := p0.(totalMessages := DiscoveryTotal(counted));
      var a := Attempts(pages, cancelAt, fault);
      RelayProgressFacts(p1, a);
      DiscoveryCountsVisible(counted);
      if RelayRaises(pages, cancelAt, fault) then RelayProgress(p1, a).(status := Failed, error := Some(err))
      else RelayProgress(p1, a).(status := if CancelLands(pages, cancelAt) then Cancelled else Completed)
  }

  /**
   * The final record of a run that reached its `try`: failed with the error
   * when reading the start id raised, else `RunOutcome`. `data` is the
   * user's record after the first write.
   */
  function FinalProgress(source: string, destination: string, entitiesOk: bool, counted: seq<Page>, pages: seq<Page>,
                         cancelAt: Option<nat>, fault: Option<FetchFault>, err: string, data: Option<UserRecord>): (r: Progress)
    ensures r.sourceId == Some(source) && r.destinationId == Some(destination)
    ensures r.status == Failed <==>
              !entitiesOk || data.None? || StartIdFrom(data.value, PairKey(source, destination)).None?
              || CountRaises(counted, fault) || RelayRaises(pages, cancelAt, fault)
    ensures r.status == Failed ==> r.error == Some(err)
  {
    var p0 := StartProgress(source, destination);
    if data.None? || StartIdFrom(data.value, PairKey(source, destination)).None? then p0.(status := Failed, error := Some(err))
    else RunOutcome(p0, entitiesOk, counted, pages, cancelAt, fault, err)
  }

  /**
   * What a run records: its ids; failed with the error, nothing counted,
   * when the chats do not resolve or the counting pass raises; otherwise the
   * number of messages the counting pass saw as the total, and the last
   * message that went out with the count as it stood then. A page fetch of
   * the forwarding pass that raises fails the run and keeps what was
   * forwarded before it; without one the run is cancelled exactly when the
   * cancel landed and completed otherwise. When both passes got the same
   * pages and nothing cut the run short, the total is the number of attempts.
   */
  lemma RunOutcomeFacts(source: string, destination: string, entitiesOk: bool, counted: seq<Page>, pages: seq<Page>,
                        cancelAt: Option<nat>, fault: Option<FetchFault>, err: string)
    ensures var r := RunOutcome(StartProgress(source, destination), entitiesOk, counted, pages, cancelAt, fault, err);
      var a := Attempts(pages, cancelAt, fault);
      r.sourceId == Some(source) && r.destinationId == Some(destination)
      && (!entitiesOk || CountRaises(counted, fault) ==>
            r.status == Failed && r.error == Some(err) && r.totalMessages == 0
            && r.forwardedMessages == 0 && r.lastForwardedId.None?)
      && (entitiesOk && !CountRaises(counted, fault) ==>
            r.totalMessages == |Visible(counted)|
            && (RelayRaises(pages, cancelAt, fault) ==> r.status == Failed && r.error == Some(err))
            && (!RelayRaises(pages, cancelAt, fault) ==>
                  r.error.None?
                  && (r.status == Cancelled <==> CancelLands(pages, cancelAt))
                  && (r.status == Completed <==> !CancelLands(pages, cancelAt)))
            && (Sent(a) == 0 ==> r.forwardedMessages == 0 && r.lastForwardedId.None?)
            && (Sent(a) > 0 ==> LastSent(a) > 0 && r.lastForwardedId == Some(a[LastSent(a) - 1].id)
                                && r.forwardedMessages == Count(a[..LastSent(a)]))
            && (counted == pages && !CancelLands(pages, cancelAt) && !RelayRaises(pages, cancelAt, fault)
                ==> r.totalMessages == |a|))
  {
    var p1 := StartProgress(source, destination).(totalMessages := DiscoveryTotal(counted));
    RelayProgressFacts(p1, Attempts(pages, cancelAt, fault));
    DiscoveryCountsVisible(counted);
  }

  // ---------------------------------------------------------------------
  // The forwarder
  // ---------------------------------------------------------------------

  class Forwarder {
    const storage: Storage
    const phone: string
    var isRunning: bool
    var shouldCancel: bool
    var progress: Progress

    constructor(storage: Storage, phone: string)
      ensures this.storage == storage && this.phone == phone
      ensures !isRunning && !shouldCancel && progress == InitialProgress
    {
      this.storage := storage;
      this.phone := phone;
      isRunning := false;
      shouldCancel := false;
      progress := InitialProgress;
    }

    /**
     * The file holds what the writes since `files0` left, which is what the
     * last one alone leaves, and none of them raised.
     */
    ghost predicate Synced(files0: map<string, UserFile>)
      reads this, storage
    {
      storage.files == FilesAfter(files0, phone, progress) && !Raises(Lookup(files0, phone), progress)
    }

    /**
     * `update_progress`: the record in memory becomes `next` (the caller
     * overwrites only the keyword arguments it passes), then the file is
     * updated as `FilesAfter` says; `raised` when reading or writing it raises.
     */
    method UpdateProgress(next: Progress) returns (raised: bool)
      modifies this`progress, storage
      ensures progress == next
      ensures raised <==> Raises(old(Lookup(storage.files, phone)), next)
      ensures storage.files == FilesAfter(old(storage.files), phone, next)
    {
      progress := next;
      var data := storage.GetUserData(phone);
      match PersistOf(data, next) {
        case ReadRaised => raised := true;
        case NotKeyed => raised := false;
        case FieldRaised => raised := true;
        case Write(field) =>
          var _ := storage.UpdateUser(phone, [("forwarding_progress", field)]);
          raised := false;
      }
    }

    /** A later `update_progress` of the same run: it cannot raise, and the file stays in step. */
    method Track(next: Progress, ghost files0: map<string, UserFile>)
      requires Synced(files0)
      requires next.sourceId == progress.sourceId && next.destinationId == progress.destinationId
      modifies this`progress, storage
      ensures progress == next && Synced(files0)
    {
      ghost var before := progress;
      var _ := UpdateProgress(next);
      FilesAfterTwice(files0, phone, before, next);
    }

    /** `cancel_forwarding`. */
    method CancelForwarding()
      modifies this`shouldCancel
      ensures shouldCancel
    {
      shouldCancel := true;
    }

    /** A check of the flag: a cancel from the manager's thread that has landed after `attempts` forwards is seen. */
    method Observe(cancelAt: Option<nat>, attempts: nat)
      modifies this`shouldCancel
      ensures shouldCancel == (old(shouldCancel) || (cancelAt.Some? && cancelAt.value <= attempts))
    {
      if cancelAt.Some? && cancelAt.value <= attempts {
        CancelForwarding();
      }
    }

    /** The counting pass of `_forward_messages_async`; `raised` when its faulty call is made. */
    method CountPass(pages: seq<Page>, fault: Option<FetchFault>) returns (raised: bool, total: nat)
      ensures raised <==> CountRaises(pages, fault)
      ensures !raised ==> total == DiscoveryTotal(pages)
    {
      total := 0;
      var i := 0;
      while true
        invariant 0 <= i <= |pages| && AllFull(pages[..i])
        invariant total + DiscoveryTotal(pages[i..]) == DiscoveryTotal(pages)
        invariant fault.Some? && fault.value.pass == Counting ==> i <= fault.value.call
        decreases |pages| - i
      {
        if fault == Some(FetchFault(Counting, i)) {
          return true, total;
        }
        if i == |pages| {
          if fault.Some? && fault.value.pass == Counting {
            NoCallPast(pages, i, fault.value.call);
          }
          return false, total;
        }
        var history := pages[i];
        assert pages[i..][0] == history;
        if |history| < Limit {
          if fault.Some? && fault.value.pass == Counting {
            NoCallPast(pages, i, fault.value.call);
          }
          return false, total + |history|;
        }
        total := total + |history|;
        assert pages[i..][1..] == pages[i + 1..];
        assert pages[..i + 1][..i] == pages[..i];
        i := i + 1;
      }
    }

    /**
     * The forwarding pass: page by page, checking the flag at each page and
     * before each message. The attempts are `Attempts(pages, cancelAt,
     * fault)`, the record is what they leave, and `raised` says that a page
     * fetch raised.
     */
    method RelayPass(pages: seq<Page>, cancelAt: Option<nat>, fault: Option<FetchFault>, ghost files0: map<string, UserFile>)
      returns (raised: bool, done: seq<Msg>)
      requires !shouldCancel && Synced(files0)
      modifies this`progress, this`shouldCancel, storage
      ensures raised <==> RelayRaises(pages, cancelAt, fault)
      ensures done == Attempts(pages, cancelAt, fault) && (cancelAt.Some? ==> |done| <= cancelAt.value)
      ensures progress == RelayProgress(old(progress), done) && Synced(files0)
      ensures shouldCancel ==> CancelLands(pages, cancelAt)
    {
      ghost var p0 := progress;
      ghost var relayFault := fault.Some? && fault.value.pass == Relaying;
      done := [];
      var count := 0;
      var i := 0;
      while true
        invariant 0 <= i <= |pages| && AllFull(pages[..i])
        invariant done == Flat(pages[..i]) && count == Count(done)
        invariant progress == RelayProgress(p0, done) && Synced(files0)
        invariant !shouldCancel && (cancelAt.Some? ==> |done| <= cancelAt.value)
        invariant relayFault ==> i <= fault.value.call
        decreases |pages| - i
      {
        VisibleAfterFull(pages, i);
        Observe(cancelAt, |done|);
        if shouldCancel {
          CancelBlocksFetch(pages, i, cancelAt, fault);
          AttemptedWhenCut(pages, cancelAt, done, Visible(pages[i..]));
          return false, done;
        }
        if fault == Some(FetchFault(Relaying, i)) {
          return true, done;
        }
        if i == |pages| {
          if relayFault {
            NoCallPast(pages, i, fault.value.call);
          }
          assert pages[i..] == [];
          return false, done;
        }
        var stop;
        done, count, stop := RelayTurn(pages, i, cancelAt, fault, done, count, p0, files0);
        if stop {
          return false, done;
        }
        i := i + 1;
      }
    }

    /**
     * One page of the forwarding pass once its fetch has gone through: the
     * page's attempts, and whether the loop stops after it (an empty or
     * short page, or a cancel inside it).
     */
    method RelayTurn(pages: seq<Page>, i: nat, cancelAt: Option<nat>, fault: Option<FetchFault>, done0: seq<Msg>, count0: int,
                     ghost p0: Progress, ghost files0: map<string, UserFile>)
      returns (done: seq<Msg>, count: int, stop: bool)
      requires i < |pages| && AllFull(pages[..i]) && done0 == Flat(pages[..i]) && count0 == Count(done0)
      requires progress == RelayProgress(p0, done0) && Synced(files0) && !shouldCancel
      requires cancelAt.Some? ==> |done0| <= cancelAt.value
      requires fault.Some? && fault.value.pass == Relaying ==> i < fault.value.call
      modifies this`progress, this`shouldCancel, storage
      ensures count == Count(done) && progress == RelayProgress(p0, done) && Synced(files0)
      ensures cancelAt.Some? ==> |done| <= cancelAt.value
      ensures !stop ==> AllFull(pages[..i + 1]) && done == Flat(pages[..i + 1]) && !shouldCancel
      ensures stop ==> !RelayRaises(pages, cancelAt, fault) && done == Attempted(pages, cancelAt)
                       && (shouldCancel ==> CancelLands(pages, cancelAt))
    {
      ghost var relayFault := fault.Some? && fault.value.pass == Relaying;
      VisibleAfterFull(pages, i);
      VisibleFrom(pages, i);
      var history := pages[i];
      if |history| == 0 {
        if relayFault {
          NoCallPast(pages, i, fault.value.call);
        }
        return done0, count0, true;
      }
      var stopped;
      done, count, stopped := RelayPage(history, cancelAt, done0, count0, p0, files0);
      if stopped {
        CancelInPageBlocksFetch(pages, i, cancelAt, fault);
        AttemptedWhenPageCut(pages, i, cancelAt, done0, done);
        return done, count, true;
      }
      if |history| < Limit {
        if relayFault {
          NoCallPast(pages, i, fault.value.call);
        }
        return done, count, true;
      }
      FlatNext(pages, i);
      stop := false;
    }

    /** The messages of one page: the flag checked, then the forward and its bookkeeping. */
    method RelayPage(history: Page, cancelAt: Option<nat>, done0: seq<Msg>, count0: int, ghost p0: Progress,
                     ghost files0: map<string, UserFile>)
      returns (done: seq<Msg>, count: int, stopped: bool)
      requires count0 == Count(done0) && progress == RelayProgress(p0, done0) && Synced(files0) && !shouldCancel
      requires cancelAt.Some? ==> |done0| <= cancelAt.value
      modifies this`progress, this`shouldCancel, storage
      ensures count == Count(done) && progress == RelayProgress(p0, done) && Synced(files0)
      ensures stopped == shouldCancel
      ensures !stopped ==> done == done0 + history && (cancelAt.Some? ==> |done| <= cancelAt.value)
      ensures stopped ==> cancelAt.Some? && |done| == cancelAt.value && |done0| <= |done| < |done0| + |history|
                          && done == done0 + history[..|done| - |done0|]
    {
      done := done0;
      count := count0;
      stopped := false;
      var k := 0;
      while k < |history|
        invariant 0 <= k <= |history| && done == done0 + history[..k]
        invariant count == Count(done) && progress == RelayProgress(p0, done) && Synced(files0) && !shouldCancel
        invariant cancelAt.Some? ==> |done| <= cancelAt.value
      {
        Observe(cancelAt, |done|);
        if shouldCancel {
          stopped := true;
          return;
        }
        var message := history[k];
        assert done0 + history[..k + 1] == done + [message];
        match message.reply {
          case Forwarded =>
            count := count + 1;
            Track(progress.(forwardedMessages := count, lastForwardedId := Some(message.id)), files0);
          case FloodWait(_) =>
            count := count - 1;
          case SendError(_) =>
        }
        assert (done + [message])[..|done|] == done;
        done := done + [message];
        k := k + 1;
      }
      assert history[..k] == history;
    }

    /**
     * `_forward_messages_async`: the chats resolved, the counting pass, its
     * total recorded, the forwarding pass; an exception in any of them is
     * re-raised.
     */
    method RunAsync(entitiesOk: bool, counted: seq<Page>, pages: seq<Page>, cancelAt: Option<nat>, fault: Option<FetchFault>,
                    ghost files0: map<string, UserFile>)
      returns (raised: bool, done: seq<Msg>)
      requires !shouldCancel && Synced(files0)
      modifies this`progress, this`shouldCancel, storage
      ensures Synced(files0)
      ensures raised <==> !entitiesOk || CountRaises(counted, fault) || RelayRaises(pages, cancelAt, fault)
      ensures !entitiesOk || CountRaises(counted, fault) ==> progress == old(progress) && !shouldCancel
      ensures entitiesOk && !CountRaises(counted, fault) ==>
                done == Attempts(pages, cancelAt, fault) && (cancelAt.Some? ==> |done| <= cancelAt.value)
                && progress == RelayProgress(old(progress).(totalMessages := DiscoveryTotal(counted)), done)
                && (shouldCancel ==> CancelLands(pages, cancelAt))
    {
      if !entitiesOk {
        return true, [];
      }
      var countRaised, total := CountPass(counted, fault);
      if countRaised {
        return true, [];
      }
      Track(progress.(totalMessages := total), files0);
      raised, done := RelayPass(pages, cancelAt, fault, files0);
    }

    /** The `try` body of `forward_messages` once the start id is known, with its `except`. */
    method FinishRun(entitiesOk: bool, counted: seq<Page>, pages: seq<Page>, cancelAt: Option<nat>, fault: Option<FetchFault>,
                     err: string, ghost files0: map<string, UserFile>)
      requires !shouldCancel && Synced(files0)
      modifies this`progress, this`shouldCancel, storage
      ensures Synced(files0)
      ensures progress == RunOutcome(old(progress), entitiesOk, counted, pages, cancelAt, fault, err)
    {
      var raised, done := RunAsync(entitiesOk, counted, pages, cancelAt, fault, files0);
      if raised {
        Track(progress.(status := Failed, error := Some(err)), files0);
        return;
      }
      Observe(cancelAt, |done|);
      if shouldCancel {
        Track(progress.(status := Cancelled), files0);
      } else {
        Track(progress.(status := Completed), files0);
      }
    }

    /**
     * `forward_messages`. A call while running returns at once. Otherwise
     * the run is marked running and the pair's record written; when that
     * write raises, the exception leaves the method before its `try`, so
     * `is_running` stays True. Else the start id is read back, the passes
     * run, the record ends as `FinalProgress` says, and `is_running` is
     * False again.
     */
    method ForwardMessages(source: string, destination: string, entitiesOk: bool, counted: seq<Page>, pages: seq<Page>,
                           cancelAt: Option<nat>, fault: Option<FetchFault>, err: string)
      returns (raised: bool, start: Option<int>)
      modifies this, storage
      ensures old(isRunning) ==> !raised && start.None? && isRunning && shouldCancel == old(shouldCancel)
                                 && progress == old(progress) && storage.files == old(storage.files)
      ensures !old(isRunning) && Raises(old(Lookup(storage.files, phone)), StartProgress(source, destination)) ==>
                raised && isRunning && !shouldCancel && progress == StartProgress(source, destination)
                && storage.files == old(storage.files)
      ensures !old(isRunning) && !Raises(old(Lookup(storage.files, phone)), StartProgress(source, destination)) ==>
                !raised && !isRunning
                && storage.files == FilesAfter(old(storage.files), phone, progress)
                && progress == FinalProgress(source, destination, entitiesOk, counted, pages, cancelAt, fault, err,
                                             Lookup(FilesAfter(old(storage.files), phone, StartProgress(source, destination)), phone))
      ensures (!old(isRunning) && !Raises(old(Lookup(storage.files, phone)), StartProgress(source, destination))
               && source != "" && destination != "") ==> start == Some(1)
    {
      if isRunning {
        return false, None;
      }
      isRunning := true;
      shouldCancel := false;
      ghost var files0 := storage.files;
      var r := UpdateProgress(StartProgress(source, destination));
      if r {
        return true, None;
      }
      // try:
      var data := storage.GetUserData(phone);
      start := if data.None? then None else StartIdFrom(data.value, PairKey(source, destination));
      if source != "" && destination != "" {
        StartIdAsWrittenIsOne(files0, phone, source, destination);
      }
      if start.None? {
        Track(progress.(status := Failed, error := Some(err)), files0);
      } else {
        FinishRun(entitiesOk, counted, pages, cancelAt, fault, err, files0);
      }
      // finally:
      isRunning := false;
      raised := false;
    }
  }
}
