/**
 * The Pyrogram task engine of new_bot/plugins/regix.py: `pub_` starts a
 * forwarding run, `resume_forwarding_task` restarts a saved one, and both
 * walk the source chat's messages, copying each one (or forwarding them in
 * batches of up to 100 when the forward tag is on), counting in the
 * progress record, and writing a checkpoint to the tasks table.
 *
 * The `temp` registries of new_bot/config.py (`lock`, `CANCEL`,
 * `IS_FRWD_CHAT`, `forwardings`, `ACTIVE_TASKS`) are fields of `Engine`.
 * Telegram is an input: the message iterator is a sequence of events (a
 * message, or the user pressing Cancel between two messages) followed by
 * how the iterator ends, and each message carries the reply its copy or
 * forward gets.
 */
module Regix {
  import opened Common
  import opened Db
  import opened Sts
  import Buttons

  // ---------------------------------------------------------------------
  // Messages and what is sent for them
  // ---------------------------------------------------------------------

  datatype MediaKind = Video | Document | Audio | Photo | OtherMedia

  /** The media object `getattr(msg, msg.media.value)`. */
  datatype MediaFile = MediaFile(fileName: string, fileSize: int, fileId: Option<string>)

  /** The reply to a copy or forward, after any FloodWait retries: accepted, or refused with an error. */
  datatype Delivery = Delivered | Rejected(err: string)

  datatype Message = Message(
    id: int,
    empty: bool,
    service: bool,
    kind: Option<MediaKind>,
    file: Option<MediaFile>,
    caption: Option<string>,
    delivery: Delivery)

  /** A new caption: the original one, or the user's template filled with the file's name, size and caption. */
  datatype CaptionText = Plain(text: string) | Filled(template: string, fileName: string, fileSize: int, original: Option<string>)

  // ---------------------------------------------------------------------
  // Rendering a caption template: get_size and str.format
  // ---------------------------------------------------------------------

  const SizeUnits: seq<string> := ["Bytes", "KB", "MB", "GB", "TB", "PB", "EB"]

  /** 1024 to the power k, for k up to 7: the size of one of each unit, and the first size past "EB". */
  const UnitSize: seq<nat> := [1, 1024, 1048576, 1073741824, 1099511627776, 1125899906842624,
                                1152921504606846976, 1180591620717411303424]

  /**
   * The unit `get_size` stops at, counting from unit `k`: it divides by
   * 1024 while the value is at least 1024 and fewer than 7 divisions were
   * made; 7 is past the last unit.
   */
  function UnitFrom(size: nat, k: nat): (u: nat)
    requires k <= 7
    ensures k <= u <= 7
    ensures u < 7 ==> size < UnitSize[u + 1]
    ensures forall j :: k < j <= u ==> size >= UnitSize[j]
    decreases 7 - k
  {
    if k < 7 && size >= UnitSize[k + 1] then UnitFrom(size, k + 1) else k
  }

  /** `n / d` to the nearest hundredth, ties to even, as "%.2f" prints it. */
  function Hundredths(n: nat, d: nat): (h: nat)
    requires d > 0
    ensures 2 * (n * 100 - h * d) <= d && 2 * (h * d - n * 100) <= d
  {
    var q, r := (n * 100) / d, (n * 100) % d;
    assert n * 100 == q * d + r && 0 <= r < d;
    assert (q + 1) * d == q * d + d;
    if 2 * r > d || (2 * r == d && q % 2 == 1) then q + 1 else q
  }

  /** The two digits after the point of a count of hundredths. */
  function Cents(h: nat): string
  {
    [DigitChar(h % 100 / 10), DigitChar(h % 10)]
  }

  /**
   * `get_size(size)`: the size in the largest unit that keeps it at least
   * 1, as "%.2f %s"; None is the IndexError of a size past "EB".
   */
  function SizeText(size: int): (r: Option<string>)
    ensures size < 0 ==> r == Some("-" + NatToString(-size) + ".00 Bytes")
    ensures size >= 0 ==> (r.None? <==> size >= UnitSize[7])
    ensures size >= 0 && r.Some? ==>
      var u := UnitFrom(size, 0);
      var h := Hundredths(size, UnitSize[u]);
      u < 7 && r.value == NatToString(h / 100) + "." + Cents(h) + " " + SizeUnits[u]
  {
    if size < 0 then Some("-" + NatToString(-size) + ".00 Bytes")
    else
      var u := UnitFrom(size, 0);
      if u == 7 then None
      else
        var h := Hundredths(size, UnitSize[u]);
        Some(NatToString(h / 100) + "." + Cents(h) + " " + SizeUnits[u])
  }

  /** 1536 bytes print as "1.50 KB". */
  lemma SizeTextOfKilobytes()
    ensures SizeText(1536) == Some("1.50 KB")
  {
    assert UnitFrom(1536, 1) == 1;
    assert UnitFrom(1536, 0) == 1;
    assert 1536 * 100 / 1024 == 150 && 1536 * 100 % 1024 == 0;
    assert Hundredths(1536, 1024) == 150;
    assert NatToString(1) == "1";
    assert DigitChar(5) == '5' && DigitChar(0) == '0';
    assert Cents(150) == "50";
    assert SizeUnits[1] == "KB";
    assert "1" + "." + "50" + " " + "KB" == "1.50 KB";
  }

  /** The values `custom_caption` passes to `format`. */
  datatype CaptionFields = CaptionFields(filename: string, size: string, caption: string)

  /** The keyword argument a replacement field names; None for any other name. */
  function FieldValue(name: string, f: CaptionFields): Option<string>
  {
    if name == "filename" then Some(f.filename)
    else if name == "size" then Some(f.size)
    else if name == "caption" then Some(f.caption)
    else None
  }

  function Prefixed(c: char, o: Option<string>): Option<string>
  {
    match o
    case None => None
    case Some(t) => Some([c] + t)
  }

  /**
   * `template.format(filename=.., size=.., caption=..)`: "{{" and "}}"
   * stand for one brace and "{name}" for the argument of that name. None is
   * the exception `str.format` raises: a name it was not given (KeyError),
   * a lone '}' or a '{' that is never closed (ValueError).
   */
  function Format(t: string, f: CaptionFields): (r: Option<string>)
    ensures '{' !in t && '}' !in t ==> r == Some(t)
    decreases |t|
  {
    if |t| == 0 then Some("")
    else if t[0] == '{' && |t| >= 2 && t[1] == '{' then Prefixed('{', Format(t[2..], f))
    else if t[0] == '}' then
      if |t| >= 2 && t[1] == '}' then Prefixed('}', Format(t[2..], f)) else None
    else if t[0] == '{' then
      match Buttons.FirstIndex(t, '}', 1)
      case None => None
      case Some(j) =>
        match FieldValue(t[1..j], f)
        case None => None
        case Some(v) =>
          match Format(t[j + 1..], f)
          case None => None
          case Some(rest) => Some(v + rest)
    else
      assert [t[0]] + t[1..] == t;
      Prefixed(t[0], Format(t[1..], f))
  }

  /** A text with its braces doubled, as it has to be written in a template to come out as is. */
  function Escaped(s: string): string
  {
    if |s| == 0 then ""
    else (if s[0] == '{' || s[0] == '}' then [s[0], s[0]] else [s[0]]) + Escaped(s[1..])
  }

  /** `format` gives back any text whose braces are doubled, whatever the arguments. */
  lemma {:induction false} FormatEscaped(s: string, f: CaptionFields)
    ensures Format(Escaped(s), f) == Some(s)
  {
    if |s| > 0 {
      FormatEscaped(s[1..], f);
      var e := Escaped(s);
      var tail := Escaped(s[1..]);
      if s[0] == '{' || s[0] == '}' {
        assert e == [s[0], s[0]] + tail && e[2..] == tail;
      } else {
        assert e == [s[0]] + tail && e[1..] == tail;
      }
      assert [s[0]] + s[1..] == s;
    }
  }

  /** A template that is one field renders to that field's value, and an unknown name raises. */
  lemma FormatOneField(name: string, f: CaptionFields)
    requires '}' !in name && |name| > 0 && name[0] != '{'
    ensures Format("{" + name + "}", f) == FieldValue(name, f)
  {
    var t := "{" + name + "}";
    var j := |t| - 1;
    assert t[0] == '{' && t[1] == name[0] && t[j] == '}';
    assert forall k :: 1 <= k < j ==> t[k] == name[k - 1];
    assert Buttons.FirstIndex(t, '}', 1) == Some(j);
    assert t[1..j] == name;
    assert t[j + 1..] == "";
    assert Format("", f) == Some("");
    match FieldValue(name, f)
    case None =>
    case Some(v) => assert v + "" == v;
  }

  /** The text a new caption is sent with; None when `custom_caption` raises. */
  function RenderCaption(c: CaptionText): (r: Option<string>)
    ensures c.Plain? ==> r == Some(c.text)
    ensures c.Filled? && SizeText(c.fileSize).None? ==> r.None?
    ensures c.Filled? && SizeText(c.fileSize).Some? && '{' !in c.template && '}' !in c.template ==> r == Some(c.template)
  {
    match c
    case Plain(text) => Some(text)
    case Filled(template, name, size, original) =>
      match SizeText(size)
      case None => None
      case Some(sz) => Format(template, CaptionFields(name, sz, match original case None => "None" case Some(o) => o))
  }

  /** `copy`'s test `msg.get("caption")`: the rendered caption is a non-empty string. */
  predicate CaptionTruthy(c: CaptionText)
  {
    var r := RenderCaption(c);
    r.Some? && |r.value| > 0
  }

  /** `custom_caption(msg, caption)`. */
  function CustomCaption(m: Message, caption: Option<string>): (r: Option<CaptionText>)
    ensures m.kind.None? || m.file.None? ==> r.None?
    ensures r.Some? && r.value.Filled? ==> caption.Some? && r.value.template == caption.value
    ensures caption.Some? && |caption.value| > 0 && m.kind.Some? && m.kind.value != OtherMedia && m.file.Some?
            ==> r == Some(Filled(caption.value, m.file.value.fileName, m.file.value.fileSize, m.caption))
  {
    if m.kind.Some? && m.kind.value != OtherMedia && m.file.Some? then
      if caption.Some? && |caption.value| > 0
      then Some(Filled(caption.value, m.file.value.fileName, m.file.value.fileSize, m.caption))
      else match m.caption case None => None case Some(c) => Some(Plain(c))
    else None
  }

  /** `media(msg)`: the file id of the message's media object, if it has one. */
  function MediaId(m: Message): (r: Option<string>)
    ensures r.Some? ==> m.kind.Some? && m.file.Some? && m.file.value.fileId == r
  {
    if m.kind.Some? && m.file.Some? then m.file.value.fileId else None
  }

  datatype Item =
    | SendCached(fileId: string, caption: CaptionText, button: Option<Buttons.Markup>, protect: bool)
    | CopyOf(msgId: int, newCaption: Option<CaptionText>, button: Option<Buttons.Markup>, protect: bool)
    | ForwardBatch(ids: seq<int>, protect: bool)

  /** One request that reached the target chat. */
  datatype Relay = Relay(to: Value, from: Value, item: Item)

  /** How a run sends: the forward tag, the caption template, protection and keyboard, and the record's chats and total. */
  datatype Plan = Plan(
    tagged: bool, caption: Option<string>, protect: bool, button: Option<Buttons.Markup>,
    total: int, from: Value, to: Value)

  /** The part of a plan that comes from the user's configs. */
  datatype Style = Style(tagged: bool, caption: Option<string>, protect: bool, button: Option<Buttons.Markup>)

  /** What `copy` sends: the cached media with the new caption when both are there, a copy of the message otherwise. */
  function CopyItem(p: Plan, m: Message): (it: Item)
    ensures it.SendCached? ==> MediaId(m) == Some(it.fileId) && CustomCaption(m, p.caption) == Some(it.caption)
    ensures it.CopyOf? ==> it.msgId == m.id && it.newCaption == CustomCaption(m, p.caption)
    ensures it.SendCached? <==> MediaId(m).Some? && |MediaId(m).value| > 0
                                && CustomCaption(m, p.caption).Some? && CaptionTruthy(CustomCaption(m, p.caption).value)
    ensures !it.ForwardBatch?
  {
    var media := MediaId(m);
    var cap := CustomCaption(m, p.caption);
    if media.Some? && |media.value| > 0 && cap.Some? && CaptionTruthy(cap.value)
    then SendCached(media.value, cap.value, p.button, p.protect)
    else CopyOf(m.id, cap, p.button, p.protect)
  }

  /** "{filename}" on a file without a name renders to the empty string, or raises on the size. */
  lemma NamelessCaptionFalsy(size: int, original: Option<string>)
    ensures !CaptionTruthy(Filled("{filename}", "", size, original))
  {
    match SizeText(size)
    case None =>
    case Some(sz) => FilenameOnly(CaptionFields("", sz, match original case None => "None" case Some(o) => o));
  }

  lemma FilenameOnly(f: CaptionFields)
    ensures Format("{filename}", f) == Some(f.filename)
  {
    FormatOneField("filename", f);
    assert "{" + "filename" + "}" == "{filename}";
  }

  /**
   * A template that renders to nothing, such as "{filename}" on a file
   * without a name, leaves `copy` with a falsy caption, so the message is
   * copied rather than sent from the cache.
   */
  lemma EmptyCaptionCopies(p: Plan, m: Message)
    requires p.caption == Some("{filename}") && m.kind == Some(Video)
    requires m.file.Some? && m.file.value.fileName == ""
    ensures CopyItem(p, m).CopyOf?
  {
    var c := Filled("{filename}", "", m.file.value.fileSize, m.caption);
    assert CustomCaption(m, p.caption) == Some(c);
    NamelessCaptionFalsy(m.file.value.fileSize, m.caption);
  }

  // ---------------------------------------------------------------------
  // The loop as a function of the messages
  // ---------------------------------------------------------------------

  /**
   * The counters of the progress record, the `MSG` batch, the last
   * checkpoint written and the requests sent, as the loop advances.
   */
  datatype Tally = Tally(
    fetched: int, deleted: int, totalFiles: int, batch: seq<int>, checkpoint: Option<int>, relays: seq<Relay>)

  predicate Kept(m: Message) { !m.empty && !m.service }

  /** The loop body for one message that is not skipped and not cancelled. */
  function Step(p: Plan, t: Tally, m: Message): (r: Tally)
  {
    var t1 := t.(fetched := t.fetched + 1);
    if !Kept(m) then t1.(deleted := t1.deleted + 1)
    else if p.tagged then Batched(p, t1, m)
    else Copied(p, t1, m)
  }

  /**
   * One message counts one fetch and sends at most one request, appended to
   * those before; an empty or service message only counts as deleted; a
   * copied message is checkpointed and counted as one file.
   */
  lemma StepFacts(p: Plan, t: Tally, m: Message)
    ensures var r := Step(p, t, m);
      r.fetched == t.fetched + 1 && r.deleted >= t.deleted && r.totalFiles >= t.totalFiles
      && t.relays <= r.relays && |r.relays| <= |t.relays| + 1
      && (!Kept(m) ==> r.relays == t.relays && r.deleted == t.deleted + 1 && r.checkpoint == t.checkpoint)
      && (Kept(m) && !p.tagged ==> r.checkpoint == Some(m.id) && r.totalFiles == t.totalFiles + 1)
  {
  }

  /** Written back after a batch or a copy: the files counted and the checkpoint. */
  function Committed(t: Tally, n: int, id: int): Tally
  {
    t.(totalFiles := t.totalFiles + n, checkpoint := Some(id))
  }

  /** `forward`: the batch reaches the target, or its length is added to `deleted`. */
  function ForwardSent(p: Plan, t: Tally, batch: seq<int>, d: Delivery): Tally
  {
    if d.Delivered? then t.(relays := t.relays + [Relay(p.to, p.from, ForwardBatch(batch, p.protect))])
    else t.(deleted := t.deleted + |batch|)
  }

  /** `copy`: the message reaches the target, or 1 is added to `deleted`. */
  function CopySent(p: Plan, t: Tally, m: Message): Tally
  {
    if m.delivery.Delivered? then t.(relays := t.relays + [Relay(p.to, p.from, CopyItem(p, m))])
    else t.(deleted := t.deleted + 1)
  }

  /** Whether the batch is forwarded now: 100 ids, or at most 100 messages left by the total. */
  predicate Flushes(p: Plan, t: Tally, batch: seq<int>)
  {
    |batch| >= 100 || p.total - t.fetched <= 100
  }

  /** Tag mode: the id joins the batch, which is forwarded and emptied when it flushes. */
  function Batched(p: Plan, t: Tally, m: Message): Tally
  {
    var batch := t.batch + [m.id];
    if Flushes(p, t, batch) then Committed(ForwardSent(p, t, batch, m.delivery), |batch|, m.id).(batch := [])
    else t.(batch := batch)
  }

  /** Copy mode: the message is copied (or counted as deleted), then counted and checkpointed. */
  function Copied(p: Plan, t: Tally, m: Message): Tally
  {
    Committed(CopySent(p, t, m), 1, m.id)
  }

  /** A press of Cancel between two messages, or the next message. */
  datatype Event = Msg(m: Message) | Terminate

  /** How the message iterator stops: exhausted, a FloodWait, or any other exception. */
  datatype End = Exhausted | Flood(secs: int) | Crash(err: string)

  /** Resume passes over messages at or below the checkpoint before anything else. */
  predicate Skipped(m: Message, skip: Option<int>) { skip.Some? && m.id <= skip.value }

  datatype Run = Run(t: Tally, cancelled: bool, terminated: bool)

  /**
   * The loop from tally `t` over `events`: `term` is the cancel flag.
   * A message after a press is where `is_cancelled` stops the run.
   */
  function RunFrom(p: Plan, t: Tally, events: seq<Event>, skip: Option<int>, term: bool): (r: Run)
    ensures r.cancelled ==> r.terminated
    ensures term ==> r.terminated
    decreases |events|
  {
    if |events| == 0 then Run(t, false, term)
    else match events[0]
      case Terminate => RunFrom(p, t, events[1..], skip, true)
      case Msg(m) =>
        if Skipped(m, skip) then RunFrom(p, t, events[1..], skip, term)
        else if term then Run(t, true, true)
        else RunFrom(p, Step(p, t, m), events[1..], skip, false)
  }

  /** The tally after one event: only a handled message changes it. */
  function VisitTally(p: Plan, t: Tally, e: Event, skip: Option<int>, term: bool): Tally
  {
    if e.Msg? && !Skipped(e.m, skip) && !term then Step(p, t, e.m) else t
  }

  function VisitTerm(e: Event, term: bool): bool { term || e.Terminate? }

  /** A message that is not skipped, after a press of Cancel, ends the run. */
  predicate VisitStops(e: Event, skip: Option<int>, term: bool) { e.Msg? && !Skipped(e.m, skip) && term }

  lemma RunFromCons(p: Plan, t: Tally, e: Event, rest: seq<Event>, skip: Option<int>, term: bool)
    ensures !VisitStops(e, skip, term) ==>
      RunFrom(p, t, [e] + rest, skip, term) == RunFrom(p, VisitTally(p, t, e, skip, term), rest, skip, VisitTerm(e, term))
    ensures VisitStops(e, skip, term) ==> RunFrom(p, t, [e] + rest, skip, term) == Run(t, true, true)
  {
    assert ([e] + rest)[0] == e && ([e] + rest)[1..] == rest;
  }

  /** The messages the loop body handles. */
  function Consumed(events: seq<Event>, skip: Option<int>, term: bool): seq<Message>
    decreases |events|
  {
    if |events| == 0 then []
    else match events[0]
      case Terminate => Consumed(events[1..], skip, true)
      case Msg(m) =>
        if Skipped(m, skip) then Consumed(events[1..], skip, term)
        else if term then []
        else [m] + Consumed(events[1..], skip, false)
  }

  function Fold(p: Plan, t: Tally, ms: seq<Message>): Tally
    decreases |ms|
  {
    if |ms| == 0 then t else Fold(p, Step(p, t, ms[0]), ms[1..])
  }

  lemma {:induction false} RunFromIsFold(p: Plan, t: Tally, events: seq<Event>, skip: Option<int>, term: bool)
    ensures RunFrom(p, t, events, skip, term).t == Fold(p, t, Consumed(events, skip, term))
    decreases |events|
  {
    if |events| > 0 {
      match events[0]
      case Terminate => RunFromIsFold(p, t, events[1..], skip, true);
      case Msg(m) =>
        if Skipped(m, skip) {
          RunFromIsFold(p, t, events[1..], skip, term);
        } else if !term {
          RunFromIsFold(p, Step(p, t, m), events[1..], skip, false);
          var rest := Consumed(events[1..], skip, false);
          assert ([m] + rest)[0] == m && ([m] + rest)[1..] == rest;
        }
    }
  }

  /** Resume handles only messages above the stored checkpoint. */
  lemma {:induction false} ConsumedAboveSkip(events: seq<Event>, k: int, term: bool)
    ensures forall m :: m in Consumed(events, Some(k), term) ==> m.id > k
    decreases |events|
  {
    if |events| > 0 {
      ConsumedAboveSkip(events[1..], k, true);
      ConsumedAboveSkip(events[1..], k, false);
      ConsumedAboveSkip(events[1..], k, term);
    }
  }

  /** The messages of the events that the skip rule lets through. */
  function Unskipped(events: seq<Event>, skip: Option<int>): seq<Message>
    requires forall i :: 0 <= i < |events| ==> events[i].Msg?
  {
    if |events| == 0 then []
    else (if Skipped(events[0].m, skip) then [] else [events[0].m]) + Unskipped(events[1..], skip)
  }

  /** Without a press of Cancel the run is never cancelled and handles every message not skipped. */
  lemma {:induction false} NoPressNoCancel(p: Plan, t: Tally, events: seq<Event>, skip: Option<int>)
    requires forall i :: 0 <= i < |events| ==> events[i].Msg?
    ensures !RunFrom(p, t, events, skip, false).cancelled
    ensures !RunFrom(p, t, events, skip, false).terminated
    ensures Consumed(events, skip, false) == Unskipped(events, skip)
    decreases |events|
  {
    if |events| > 0 {
      var m := events[0].m;
      if Skipped(m, skip) {
        NoPressNoCancel(p, t, events[1..], skip);
      } else {
        NoPressNoCancel(p, Step(p, t, m), events[1..], skip);
      }
    }
  }

  /** Every handled message adds 1 to `fetched`. */
  lemma {:induction false} FoldFetched(p: Plan, t: Tally, ms: seq<Message>)
    ensures Fold(p, t, ms).fetched == t.fetched + |ms|
    decreases |ms|
  {
    if |ms| > 0 {
      FoldFetched(p, Step(p, t, ms[0]), ms[1..]);
    }
  }

  function KeptCount(ms: seq<Message>): nat
  {
    if |ms| == 0 then 0 else (if Kept(ms[0]) then 1 else 0) + KeptCount(ms[1..])
  }

  /**
   * Copy mode: each message that is not empty or a service message adds 1
   * to `total_files`, even when its copy was refused; every handled message
   * is counted exactly once, as deleted or as a request that went out; the
   * checkpoint is the id of the last such message.
   */
  lemma {:induction false} FoldUntagged(p: Plan, t: Tally, ms: seq<Message>)
    requires !p.tagged
    ensures var r := Fold(p, t, ms);
      r.totalFiles == t.totalFiles + KeptCount(ms)
      && (r.deleted - t.deleted) + (|r.relays| - |t.relays|) == |ms|
      && r.batch == t.batch
      && (KeptCount(ms) == 0 ==> r.checkpoint == t.checkpoint)
      && (KeptCount(ms) > 0 ==> r.checkpoint.Some?
                                && exists i :: 0 <= i < |ms| && Kept(ms[i]) && ms[i].id == r.checkpoint.value
                                                && (forall j :: i < j < |ms| ==> !Kept(ms[j])))
    decreases |ms|
  {
    if |ms| > 0 {
      var t' := Step(p, t, ms[0]);
      FoldUntagged(p, t', ms[1..]);
      var r := Fold(p, t, ms);
      if KeptCount(ms[1..]) > 0 {
        var i :| 0 <= i < |ms[1..]| && Kept(ms[1..][i]) && ms[1..][i].id == r.checkpoint.value
                 && forall j :: i < j < |ms[1..]| ==> !Kept(ms[1..][j]);
        assert Kept(ms[i + 1]) && ms[i + 1].id == r.checkpoint.value;
        assert forall j :: i + 1 < j < |ms| ==> !Kept(ms[j]) by {
          forall j | i + 1 < j < |ms| ensures !Kept(ms[j]) {
            assert ms[j] == ms[1..][j - 1];
          }
        }
      } else if Kept(ms[0]) {
        forall j | 0 < j < |ms| ensures !Kept(ms[j]) {
          KeptCountZero(ms[1..], j - 1);
        }
      }
    }
  }

  lemma {:induction false} KeptCountZero(ms: seq<Message>, j: int)
    requires KeptCount(ms) == 0 && 0 <= j < |ms|
    ensures !Kept(ms[j])
    decreases |ms|
  {
    if j > 0 {
      KeptCountZero(ms[1..], j - 1);
    }
  }

  /**
   * Tag mode: ids wait in the batch, which never reaches 100 between
   * messages; `total_files` plus what is still waiting equals the batch
   * carried in plus the messages kept. Nothing flushes the ids still
   * waiting when the loop ends.
   */
  lemma {:induction false} FoldTagged(p: Plan, t: Tally, ms: seq<Message>)
    requires p.tagged && |t.batch| < 100
    ensures var r := Fold(p, t, ms);
      |r.batch| < 100
      && r.totalFiles + |r.batch| == t.totalFiles + |t.batch| + KeptCount(ms)
    decreases |ms|
  {
    if |ms| > 0 {
      FoldTagged(p, Step(p, t, ms[0]), ms[1..]);
    }
  }

  /** The final status the run writes for each outcome. */
  datatype Outcome =
    | RunCompleted | RunCancelled | RunFailed | FloodThenCompleted(secs: int)
    | BadData | Busy | OldButton | TargetBusy | NoBot | ClientError | NoSourceAccess | NoTargetAccess
    | TaskMissing | SaveRaised

  predicate Ran(o: Outcome) { o.RunCompleted? || o.RunCancelled? || o.RunFailed? || o.FloodThenCompleted? }

  function StatusAfter(o: Outcome): TaskStatus
    requires Ran(o)
  {
    match o
    case RunCancelled => Cancelled
    case RunFailed => Failed
    case _ => Completed
  }

  /** How the iterator's end maps to an outcome, when the run was not cancelled. */
  function EndOutcome(end: End): (o: Outcome)
    ensures Ran(o) && !o.RunCancelled?
  {
    match end
    case Exhausted => RunCompleted
    case Flood(s) => FloodThenCompleted(s)
    case Crash(_) => RunFailed
  }

  /** How the run ends: a press seen before a message cancels it. */
  function OutcomeOf(r: Run, end: End): (o: Outcome)
    ensures Ran(o)
    ensures r.cancelled <==> o == RunCancelled
  {
    if r.cancelled then RunCancelled else EndOutcome(end)
  }

  /**
   * As written, a FloodWait that escapes the iterator is not resumed: after
   * writing paused and then active, the run ends as completed, exactly as
   * when the iterator is exhausted.
   */
  lemma FloodEndsCompleted(r: Run, secs: int)
    requires !r.cancelled
    ensures StatusAfter(OutcomeOf(r, Flood(secs))) == StatusAfter(OutcomeOf(r, Exhausted)) == Completed
  {
  }

  /** Python's `list.remove(x)` guarded by `x in list`: drops the first occurrence. */
  function RemoveFirst(s: seq<Value>, x: Value): (r: seq<Value>)
    ensures x !in s ==> r == s
    ensures x in s ==> multiset(r) == multiset(s) - multiset{x} && |r| == |s| - 1
  {
    if |s| == 0 then s
    else
      assert s == [s[0]] + s[1..];
      if s[0] == x then s[1..] else [s[0]] + RemoveFirst(s[1..], x)
  }

  /** Whatever was in the list before, appending a target and removing it again keeps the same targets. */
  lemma RemoveFirstAppendedCount(s: seq<Value>, x: Value)
    ensures multiset(RemoveFirst(s + [x], x)) == multiset(s)
  {
    assert x in s + [x];
    assert multiset(s + [x]) == multiset(s) + multiset{x};
  }

  /** A target appended and then removed leaves the list as it was, when it was not there before. */
  lemma {:induction false} RemoveFirstAppended(s: seq<Value>, x: Value)
    requires x !in s
    ensures RemoveFirst(s + [x], x) == s
    decreases |s|
  {
    if |s| > 0 {
      assert (s + [x])[1..] == s[1..] + [x];
      RemoveFirstAppended(s[1..], x);
    }
  }

  // ---------------------------------------------------------------------
  // The progress record during a run
  // ---------------------------------------------------------------------

  /** `edit` divides by the total as a float: it raises unless fetched and total are numbers and total is not 0. */
  predicate EditFails(rec: Record)
  {
    !("fetched" in rec && rec["fetched"].Num? && "total" in rec && rec["total"].Num? && rec["total"].n != 0)
  }

  predicate Counting(rec: Record) { "fetched" in rec && "deleted" in rec && "total_files" in rec }

  function WithCounts(rec: Record, t: Tally): Record
  {
    rec["fetched" := Num(t.fetched)]["deleted" := Num(t.deleted)]["total_files" := Num(t.totalFiles)]
  }

  /** What the loop reads from the record: numbers to count from, and the two chats. */
  predicate Runnable(rec: Record)
  {
    !EditFails(rec) && Counting(rec) && rec["deleted"].Num? && rec["total_files"].Num? && "FROM" in rec && "TO" in rec
  }

  lemma StoredRunnable(rec: Record)
    requires Stored(rec) && !EditFails(rec)
    ensures Runnable(rec)
  {
  }

  function TallyOf(rec: Record): (t: Tally)
    requires Runnable(rec)
    ensures WithCounts(rec, t) == rec
    ensures t.batch == [] && t.checkpoint.None? && t.relays == []
  {
    var t := Tally(rec["fetched"].n, rec["deleted"].n, rec["total_files"].n, [], None, []);
    assert WithCounts(rec, t) == rec;
    t
  }

  function PlanOf(s: Style, rec: Record): Plan
    requires Runnable(rec)
  {
    Plan(s.tagged, s.caption, s.protect, s.button, rec["total"].n, rec["FROM"], rec["TO"])
  }

  /** The run a tracking record makes over `events`, counting on from the record's own numbers. */
  function RunOf(s: Style, rec: Record, events: seq<Event>, skip: Option<int>): Run
    requires Runnable(rec)
  {
    RunFrom(PlanOf(s, rec), TallyOf(rec), events, skip, false)
  }

  /** Stamping the start time changes neither what the run reads nor the run it makes. */
  lemma StartedRunOf(s: Style, rec: Record, now: int, events: seq<Event>, skip: Option<int>)
    requires Runnable(rec)
    ensures Runnable(rec["start" := Num(now)])
    ensures RunOf(s, rec["start" := Num(now)], events, skip) == RunOf(s, rec, events, skip)
  {
    var started := rec["start" := Num(now)];
    assert PlanOf(s, started) == PlanOf(s, rec);
    assert TallyOf(started) == TallyOf(rec);
  }

  lemma BumpFetched(st: map<string, Record>, id: string, rec: Record, t: Tally)
    requires Counting(rec)
    ensures var s := st[id := WithCounts(rec, t)];
      !AddRaises(s, id, "fetched") && Bumped(s, id, "fetched", 1) == st[id := WithCounts(rec, t.(fetched := t.fetched + 1))]
  {
    var w := WithCounts(rec, t);
    assert w["fetched" := Num(t.fetched + 1)] == WithCounts(rec, t.(fetched := t.fetched + 1));
  }

  lemma BumpDeleted(st: map<string, Record>, id: string, rec: Record, t: Tally, v: int)
    requires Counting(rec)
    ensures var s := st[id := WithCounts(rec, t)];
      !AddRaises(s, id, "deleted") && Bumped(s, id, "deleted", v) == st[id := WithCounts(rec, t.(deleted := t.deleted + v))]
  {
    var w := WithCounts(rec, t);
    assert w["deleted" := Num(t.deleted + v)] == WithCounts(rec, t.(deleted := t.deleted + v));
  }

  lemma BumpFiles(st: map<string, Record>, id: string, rec: Record, t: Tally, v: int)
    requires Counting(rec)
    ensures var s := st[id := WithCounts(rec, t)];
      !AddRaises(s, id, "total_files") && Bumped(s, id, "total_files", v) == st[id := WithCounts(rec, t.(totalFiles := t.totalFiles + v))]
  {
    var w := WithCounts(rec, t);
    assert w["total_files" := Num(t.totalFiles + v)] == WithCounts(rec, t.(totalFiles := t.totalFiles + v));
  }

  lemma WithCountsTo(rec: Record, t: Tally)
    requires "TO" in rec
    ensures "TO" in WithCounts(rec, t) && WithCounts(rec, t)["TO"] == rec["TO"]
  {
  }

  /** Counting keeps a record a stored one, so the board stays valid during a run. */
  lemma WithCountsStored(status: map<string, Record>, id: string, rec: Record, t: Tally)
    requires AllStored(status) && Stored(rec)
    ensures AllStored(status[id := WithCounts(rec, t)])
  {
  }

  /** Every row of the task is active (the state before the loop starts). */
  predicate AllActive(rows: seq<TaskRow>, taskId: string)
  {
    forall i :: 0 <= i < |rows| && rows[i].taskId == taskId ==> rows[i].status == Active
  }

  /** Before the first message the record, the outbox and the table are what the starting tally describes. */
  lemma StartMirrors(s0: map<string, Record>, stsId: string, rows: seq<TaskRow>, taskId: string)
    requires stsId in s0 && Runnable(s0[stsId]) && AllActive(rows, taskId)
    ensures s0[stsId := WithCounts(s0[stsId], TallyOf(s0[stsId]))] == s0
    ensures SetStatus(rows, taskId, Active, None) == rows
  {
    assert s0[stsId := s0[stsId]] == s0;
  }

  // ---------------------------------------------------------------------
  // Callback data
  // ---------------------------------------------------------------------

  /** The data of the Resume buttons (`resume_btn`, the task lists). */
  function ResumeData(taskId: string): string { "resume_task_" + taskId }

  /** `message.data.split("_")[2]` in `resume_forwarding_task`, as written. */
  function ResumeTaskIdAsWritten(data: string): Option<string>
  {
    var parts := Split(data, '_');
    if |parts| >= 3 then Some(parts[2]) else None
  }

  /** Task ids are `task_` and eight hex digits. */
  predicate TaskIdShape(id: string) { |id| == 13 && id[..5] == "task_" && '_' !in id[5..] }

  /**
   * As written, the id read from a Resume button is the word "task" of the
   * id itself, for every task.
   */
  lemma ResumeTaskIdAsWrittenIsTask(taskId: string)
    requires TaskIdShape(taskId)
    ensures ResumeTaskIdAsWritten(ResumeData(taskId)) == Some("task")
  {
    var tail := taskId[5..];
    assert taskId == "task" + ['_'] + tail;
    SplitNoSep(tail, '_');
    SplitAtFirst("task", tail, '_');
    assert ResumeData(taskId) == "resume" + ['_'] + ("task" + ['_'] + taskId);
    SplitAtFirst("resume", "task" + ['_'] + taskId, '_');
    SplitAtFirst("task", taskId, '_');
  }

  /** So `get_task` finds nothing and every resume answers "This task no longer exists". */
  lemma ResumeAsWrittenFindsNothing(rows: seq<TaskRow>, taskId: string)
    requires TaskIdShape(taskId)
    requires forall i :: 0 <= i < |rows| ==> TaskIdShape(rows[i].taskId)
    ensures ResumeTaskIdAsWritten(ResumeData(taskId)) == Some("task")
    ensures FindTask(rows, "task").None?
  {
    ResumeTaskIdAsWrittenIsTask(taskId);
  }

  /** The corrected reading: everything after the `resume_task_` prefix. */
  function ResumeTaskId(data: string): (r: Option<string>)
    ensures r.Some? ==> ResumeData(r.value) == data
  {
    if |data| >= 12 && data[..12] == "resume_task_" then
      assert data == data[..12] + data[12..];
      Some(data[12..])
    else None
  }

  lemma ResumeTaskIdRoundTrip(taskId: string)
    ensures ResumeTaskId(ResumeData(taskId)) == Some(taskId)
  {
    assert ResumeData(taskId)[..12] == "resume_task_";
    assert ResumeData(taskId)[12..] == taskId;
  }

  /** The data of the Retry button (`retry_btn`). */
  function PublicData(id: string): string { "start_public_" + id }

  /** `message.data.split("_")[2]` in `pub_`; None is the IndexError of data with fewer parts. */
  function PublicId(data: string): Option<string>
  {
    var parts := Split(data, '_');
    if |parts| >= 3 then Some(parts[2]) else None
  }

  /** An id without '_' is read back from its button. */
  lemma PublicIdRoundTrip(id: string)
    requires '_' !in id
    ensures PublicId(PublicData(id)) == Some(id)
  {
    SplitNoSep(id, '_');
    assert PublicData(id) == "start" + ['_'] + ("public" + ['_'] + id);
    SplitAtFirst("start", "public" + ['_'] + id, '_');
    SplitAtFirst("public", id, '_');
  }

  /** Whether the clone bot starts and reaches the source and the target chat. */
  datatype Access = StartFails | NoSource | NoTarget | AccessOk

  /** Stamping the start time leaves the counters the first `edit` reads alone. */
  lemma EditFailsIgnoresStart(rec: Record, now: int)
    ensures EditFails(rec["start" := Num(now)]) == EditFails(rec)
  {
  }

  lemma LockTwice(m: map<int, bool>, user: int, a: bool, b: bool)
    ensures m[user := a][user := b] == m[user := b]
  {
  }

  lemma RecordTwice(m: map<string, Record>, id: string, a: Record, b: Record)
    ensures m[id := a][id := b] == m[id := b]
  {
  }

  /** Where a row's status lands after `update_task_status`: found again, with the new status and checkpoint. */
  lemma {:induction false} FindAfterSetStatus(rows: seq<TaskRow>, taskId: string, st: TaskStatus, cp: Option<int>)
    requires FindTask(rows, taskId).Some?
    ensures var r := FindTask(rows, taskId).value;
      FindTask(SetStatus(rows, taskId, st, cp), taskId)
        == Some(r.(status := st, lastForwardedMsgId := if cp.Some? then cp else r.lastForwardedMsgId))
    decreases |rows|
  {
    var after := SetStatus(rows, taskId, st, cp);
    if rows[0].taskId != taskId {
      assert after[1..] == SetStatus(rows[1..], taskId, st, cp);
      FindAfterSetStatus(rows[1..], taskId, st, cp);
    }
  }

  /** After `update_task_status(id, "active")` every row of the task is active. */
  lemma ActiveAfterSetStatus(rows: seq<TaskRow>, taskId: string, cp: Option<int>)
    ensures AllActive(SetStatus(rows, taskId, Active, cp), taskId)
  {
  }

  // ---------------------------------------------------------------------
  // pub_: the checks before a run, and the task it saves
  // ---------------------------------------------------------------------

  /** The record's target, `i.TO`. */
  function TargetOf(rec: Record): Value { if "TO" in rec then rec["TO"] else Null }

  /**
   * Starting the bot and reaching both chats: the client fails to start,
   * the source cannot be read, or a test message cannot be sent to the
   * target (and deleted).
   */
  function AccessRefusal(access: Access): (g: Option<Outcome>)
    ensures g.None? <==> access == AccessOk
    ensures g.Some? ==> (StopsAfterRefusal(g.value) <==> access != StartFails)
  {
    match access
    case StartFails => Some(ClientError)
    case NoSource => Some(NoSourceAccess)
    case NoTarget => Some(NoTargetAccess)
    case AccessOk => None
  }

  /**
   * The checks `pub_` makes before it saves a task, in order: the button's
   * id, the user's lock, an old button, a target already in use, a missing
   * bot, then starting the bot and reaching both chats. None when all pass.
   */
  function PubGate(data: string, busy: bool, status: map<string, Record>, targets: seq<Value>,
                   bot: Option<BotRow>, access: Access): (g: Option<Outcome>)
    ensures g.Some? ==> !Ran(g.value) && g.value != SaveRaised && g.value != TaskMissing
  {
    match PublicId(data)
    case None => Some(BadData)
    case Some(id) =>
      if busy then Some(Busy)
      else if !(id in status && status[id] != map[]) then Some(OldButton)
      else if TargetOf(status[id]) in targets then Some(TargetBusy)
      else if bot.None? then Some(NoBot)
      else AccessRefusal(access)
  }

  /** The refusals after which `pub_` still calls `stop`, which was never matched by an increment. */
  predicate StopsAfterRefusal(o: Outcome) { o == NoSourceAccess || o == NoTargetAccess }

  /**
   * The save raises when an integer column is bound something other than an
   * integer: a limit that is neither a number nor missing (None binds as
   * NULL), or a truthy skip that is not a number.
   */
  predicate SaveFails(rec: Record)
  {
    var limit := if "limit" in rec then rec["limit"] else Null;
    var skip := if "skip" in rec then rec["skip"] else Null;
    !(limit.Num? || limit.Null?) || (Truthy(skip) && !skip.Num?)
  }

  /** The dict `pub_` passes to `save_forwarding_task`. */
  function TaskDataOf(user: int, rec: Record, setup: Setup, now: int): (d: TaskData)
    requires !SaveFails(rec)
    ensures d.status == Some(Active) && d.lastForwardedMsgId == Some(None) && d.userId == user
    ensures d.fromChat == ValueStr(TargetOrNull(rec, "FROM")) && d.toChat == ValueStr(TargetOf(rec))
    ensures "limit" in rec && rec["limit"].Num? ==> d.totalCount == Some(rec["limit"].n)
    ensures !("limit" in rec && rec["limit"].Num?) ==> d.totalCount == Some(0)
    ensures d.botDetails == setup.bot && d.createdAt == Some(now)
    ensures d.offset.Some? && (d.offset.value != 0 ==> "skip" in rec && rec["skip"] == Num(d.offset.value))
  {
    var limit := TargetOrNull(rec, "limit");
    var skip := if "skip" in rec then rec["skip"] else Null;
    TaskData(user, ValueStr(TargetOrNull(rec, "FROM")), ValueStr(TargetOf(rec)), setup.bot, Some(None),
             Some(if limit.Num? then limit.n else 0), Some(if Truthy(skip) then skip.n else 0),
             Some(TaskConfigs(setup.caption, setup.forwardTag, setup.protect, setup.button)),
             Some(Active), Some(now))
  }

  function TargetOrNull(rec: Record, key: string): Value { if key in rec then rec[key] else Null }

  function StyleOf(setup: Setup): Style
  {
    Style(setup.forwardTag, setup.caption, setup.protect, setup.button)
  }

  function StyleOfConfigs(c: TaskConfigs): Style
  {
    Style(c.forwardTag, c.caption, c.protect, c.button)
  }

  /**
   * The checks `resume_forwarding_task` makes, in order: the button's task
   * id, the user's lock, the task's row, then starting the bot and reaching
   * both chats. None when all pass.
   */
  function ResumeGate(data: string, busy: bool, rows: seq<TaskRow>, access: Access): (g: Option<Outcome>)
    ensures g.Some? ==> !Ran(g.value) && g.value != SaveRaised
  {
    match ResumeTaskId(data)
    case None => Some(BadData)
    case Some(id) =>
      if busy then Some(Busy)
      else if FindTask(rows, id).None? then Some(TaskMissing)
      else AccessRefusal(access)
  }

  /** The record `store` starts for a resumed task: its checkpoint as skip (None stays None), its total as limit. */
  function ResumeRecord(t: TaskRow): (r: Record)
    ensures Stored(r) && r["TO"] == Text(t.toChat) && r["total"] == Num(t.totalCount)
    ensures r["fetched"] == r["skip"] == CheckpointValue(t.lastForwardedMsgId)
  {
    FreshRecord(Text(t.fromChat), Text(t.toChat), CheckpointValue(t.lastForwardedMsgId), Num(t.totalCount))
  }

  /** A resumed task whose row has no checkpoint, or a zero total, fails at the first progress edit. */
  lemma ResumeRecordFails(t: TaskRow)
    requires t.lastForwardedMsgId.None? || t.totalCount == 0
    ensures EditFails(ResumeRecord(t))
  {
  }

  /** A resumed task with a checkpoint and a non-zero total gets past the first progress edit. */
  lemma ResumeRecordRuns(t: TaskRow)
    requires t.lastForwardedMsgId.Some? && t.totalCount != 0
    ensures !EditFails(ResumeRecord(t))
  {
  }

  /** The tracking id of a resumed task. */
  function ResumeStsId(taskId: string): string { "resume_" + taskId }

  function CheckpointValue(cp: Option<int>): Value
  {
    match cp case None => Null case Some(k) => Num(k)
  }

  // ---------------------------------------------------------------------
  // The engine
  // ---------------------------------------------------------------------

  class Engine {
    /** `temp.lock`: user to running flag. */
    var lock: map<int, bool>
    /** `temp.CANCEL`: user to cancel flag. */
    var cancel: map<int, bool>
    /** `temp.IS_FRWD_CHAT`: the targets being forwarded to. */
    var isFrwdChat: seq<Value>
    /** `temp.forwardings`: the number of runs. */
    var forwardings: int
    /** `temp.ACTIVE_TASKS`: user to the id of the last task started. */
    var activeTasks: map<int, string>
    /** Everything sent to target chats, in order. */
    var outbox: seq<Relay>
    const db: Database
    const sts: StatusBoard

    constructor(db: Database, sts: StatusBoard)
      ensures this.db == db && this.sts == sts
      ensures lock == map[] && cancel == map[] && isFrwdChat == [] && forwardings == 0
      ensures activeTasks == map[] && outbox == []
    {
      this.db := db;
      this.sts := sts;
      lock, cancel, isFrwdChat, forwardings, activeTasks, outbox := map[], map[], [], 0, map[], [];
    }

    /** `stop`: one run fewer, and the user's lock released. */
    method Stop(user: int)
      modifies this`forwardings, this`lock
      ensures forwardings == old(forwardings) - 1
      ensures lock == old(lock)[user := false]
    {
      forwardings := forwardings - 1;
      lock := lock[user := false];
    }

    /** `terminate_frwding`: release the lock, raise the cancel flag, and mark the user's task cancelled. */
    method TerminateForwarding(user: int)
      requires db.Valid()
      modifies this`lock, this`cancel, db
      ensures db.Valid()
      ensures lock == old(lock)[user := false] && cancel == old(cancel)[user := true]
      ensures user in activeTasks && activeTasks[user] != ""
              ==> db.tasks == SetStatus(old(db.tasks), activeTasks[user], Cancelled, None)
      ensures !(user in activeTasks && activeTasks[user] != "") ==> db.tasks == old(db.tasks)
      ensures db.users == old(db.users) && db.bots == old(db.bots) && db.channels == old(db.channels)
    {
      lock := lock[user := false];
      cancel := cancel[user := true];
      if user in activeTasks && activeTasks[user] != "" {
        db.UpdateTaskStatus(activeTasks[user], Cancelled, None);
      }
    }

    /**
     * `is_cancelled`: when the user's cancel flag is set, the task is marked
     * cancelled, the target leaves `IS_FRWD_CHAT` and `stop` runs.
     */
    method IsCancelled(user: int, stsId: string) returns (c: bool)
      requires db.Valid()
      modifies this`lock, this`forwardings, this`isFrwdChat, db
      ensures db.Valid()
      ensures c <==> user in cancel && cancel[user]
      ensures !c ==> lock == old(lock) && forwardings == old(forwardings) && isFrwdChat == old(isFrwdChat)
                     && db.tasks == old(db.tasks)
      ensures c ==> lock == old(lock)[user := false] && forwardings == old(forwardings) - 1
                    && isFrwdChat == RemoveFirst(old(isFrwdChat), sts.Get(stsId, "TO"))
      ensures c && user in activeTasks && activeTasks[user] != ""
              ==> db.tasks == SetStatus(old(db.tasks), activeTasks[user], Cancelled, None)
      ensures c && !(user in activeTasks && activeTasks[user] != "") ==> db.tasks == old(db.tasks)
      ensures db.users == old(db.users) && db.bots == old(db.bots) && db.channels == old(db.channels)
    {
      if !(user in cancel && cancel[user]) {
        return false;
      }
      if user in activeTasks && activeTasks[user] != "" {
        db.UpdateTaskStatus(activeTasks[user], Cancelled, None);
      }
      Release(user, sts.Get(stsId, "TO"));
      c := true;
    }

    /** The end of every run: the target leaves `IS_FRWD_CHAT` if it is there, then `stop`. */
    method Release(user: int, to: Value)
      modifies this`lock, this`forwardings, this`isFrwdChat
      ensures isFrwdChat == RemoveFirst(old(isFrwdChat), to)
      ensures lock == old(lock)[user := false] && forwardings == old(forwardings) - 1
    {
      if to in isFrwdChat {
        isFrwdChat := RemoveFirst(isFrwdChat, to);
      }
      Stop(user);
    }

    /** The state during a run, as a tally describes it. */
    ghost predicate Mirrors(stsId: string, taskId: string, s0: map<string, Record>, rec0: Record,
                            rows0: seq<TaskRow>, out0: seq<Relay>, t: Tally, st: TaskStatus)
      reads this, sts, db
    {
      sts.status == s0[stsId := WithCounts(rec0, t)]
      && outbox == out0 + t.relays
      && db.tasks == SetStatus(rows0, taskId, st, t.checkpoint)
    }

    /** `copy`: the request goes out, or a refusal adds 1 to `deleted`. */
    method Copy(stsId: string, taskId: string, p: Plan, m: Message,
                ghost t: Tally, ghost s0: map<string, Record>, ghost rec0: Record,
                ghost rows0: seq<TaskRow>, ghost out0: seq<Relay>)
      requires Counting(rec0)
      requires Mirrors(stsId, taskId, s0, rec0, rows0, out0, t, Active)
      modifies this`outbox, sts
      ensures Mirrors(stsId, taskId, s0, rec0, rows0, out0, CopySent(p, t, m), Active)
    {
      if m.delivery.Delivered? {
        outbox := outbox + [Relay(p.to, p.from, CopyItem(p, m))];
      } else {
        BumpDeleted(s0, stsId, rec0, t, 1);
        var _ := sts.Add(stsId, "deleted", 1);
      }
    }

    /** `forward`: the batch goes out, or a refusal adds its length to `deleted`. */
    method Forward(stsId: string, taskId: string, p: Plan, batch: seq<int>, d: Delivery,
                   ghost t: Tally, ghost s0: map<string, Record>, ghost rec0: Record,
                   ghost rows0: seq<TaskRow>, ghost out0: seq<Relay>)
      requires Counting(rec0)
      requires Mirrors(stsId, taskId, s0, rec0, rows0, out0, t, Active)
      modifies this`outbox, sts
      ensures Mirrors(stsId, taskId, s0, rec0, rows0, out0, ForwardSent(p, t, batch, d), Active)
    {
      if d.Delivered? {
        outbox := outbox + [Relay(p.to, p.from, ForwardBatch(batch, p.protect))];
      } else {
        BumpDeleted(s0, stsId, rec0, t, |batch|);
        var _ := sts.Add(stsId, "deleted", |batch|);
      }
    }

    /** The counts and checkpoint written after a batch or a copy. */
    method Commit(stsId: string, taskId: string, n: int, id: int,
                  ghost t: Tally, ghost s0: map<string, Record>, ghost rec0: Record,
                  ghost rows0: seq<TaskRow>, ghost out0: seq<Relay>)
      requires db.Valid() && Counting(rec0)
      requires Mirrors(stsId, taskId, s0, rec0, rows0, out0, t, Active)
      modifies sts, db
      ensures db.Valid()
      ensures Mirrors(stsId, taskId, s0, rec0, rows0, out0, Committed(t, n, id), Active)
      ensures db.users == old(db.users) && db.bots == old(db.bots) && db.channels == old(db.channels)
    {
      BumpFiles(s0, stsId, rec0, t, n);
      var _ := sts.Add(stsId, "total_files", n);
      SetStatusTwice(rows0, taskId, Active, t.checkpoint, Active, Some(id));
      db.UpdateTaskStatus(taskId, Active, Some(id));
    }

    /** The first thing for each message: `fetched` goes up by 1. */
    method CountFetched(stsId: string, taskId: string,
                        ghost t: Tally, ghost s0: map<string, Record>, ghost rec0: Record,
                        ghost rows0: seq<TaskRow>, ghost out0: seq<Relay>)
      requires Counting(rec0)
      requires Mirrors(stsId, taskId, s0, rec0, rows0, out0, t, Active)
      modifies sts
      ensures Mirrors(stsId, taskId, s0, rec0, rows0, out0, t.(fetched := t.fetched + 1), Active)
    {
      BumpFetched(s0, stsId, rec0, t);
      var _ := sts.Add(stsId, "fetched", 1);
    }

    /** An empty or service message: 1 more deleted. */
    method CountDeleted(stsId: string, taskId: string,
                        ghost t: Tally, ghost s0: map<string, Record>, ghost rec0: Record,
                        ghost rows0: seq<TaskRow>, ghost out0: seq<Relay>)
      requires Counting(rec0)
      requires Mirrors(stsId, taskId, s0, rec0, rows0, out0, t, Active)
      modifies sts
      ensures Mirrors(stsId, taskId, s0, rec0, rows0, out0, t.(deleted := t.deleted + 1), Active)
    {
      BumpDeleted(s0, stsId, rec0, t, 1);
      var _ := sts.Add(stsId, "deleted", 1);
    }

    /** Tag mode for one message: add its id to the batch, and flush it when full or near the end. */
    method HandleBatched(stsId: string, taskId: string, p: Plan, m: Message, batch: seq<int>,
                         ghost t: Tally, ghost s0: map<string, Record>, ghost rec0: Record,
                         ghost rows0: seq<TaskRow>, ghost out0: seq<Relay>) returns (nb: seq<int>)
      requires db.Valid() && Counting(rec0)
      requires Mirrors(stsId, taskId, s0, rec0, rows0, out0, t, Active) && batch == t.batch
      modifies this`outbox, sts, db
      ensures db.Valid()
      ensures Mirrors(stsId, taskId, s0, rec0, rows0, out0, Batched(p, t, m), Active)
      ensures nb == Batched(p, t, m).batch
      ensures db.users == old(db.users) && db.bots == old(db.bots) && db.channels == old(db.channels)
    {
      nb := batch + [m.id];
      var fetched := sts.Get(stsId, "fetched");
      assert WithCounts(rec0, t)["fetched"] == Num(t.fetched);
      assert fetched == Num(t.fetched);
      if |nb| >= 100 || p.total - (if fetched.Num? then fetched.n else 0) <= 100 {
        Forward(stsId, taskId, p, nb, m.delivery, t, s0, rec0, rows0, out0);
        Commit(stsId, taskId, |nb|, m.id, ForwardSent(p, t, nb, m.delivery), s0, rec0, rows0, out0);
        nb := [];
      }
    }

    /** The loop body for one message: count it, then drop, batch or copy it. */
    method Handle(stsId: string, taskId: string, p: Plan, m: Message, batch: seq<int>,
                  ghost t: Tally, ghost s0: map<string, Record>, ghost rec0: Record,
                  ghost rows0: seq<TaskRow>, ghost out0: seq<Relay>) returns (nb: seq<int>)
      requires db.Valid() && Counting(rec0)
      requires Mirrors(stsId, taskId, s0, rec0, rows0, out0, t, Active) && batch == t.batch
      modifies this`outbox, sts, db
      ensures db.Valid()
      ensures Mirrors(stsId, taskId, s0, rec0, rows0, out0, Step(p, t, m), Active)
      ensures nb == Step(p, t, m).batch
      ensures db.users == old(db.users) && db.bots == old(db.bots) && db.channels == old(db.channels)
    {
      CountFetched(stsId, taskId, t, s0, rec0, rows0, out0);
      ghost var t1 := t.(fetched := t.fetched + 1);
      nb := batch;
      if !Kept(m) {
        CountDeleted(stsId, taskId, t1, s0, rec0, rows0, out0);
      } else if p.tagged {
        nb := HandleBatched(stsId, taskId, p, m, batch, t1, s0, rec0, rows0, out0);
      } else {
        Copy(stsId, taskId, p, m, t1, s0, rec0, rows0, out0);
        Commit(stsId, taskId, 1, m.id, CopySent(p, t1, m), s0, rec0, rows0, out0);
      }
    }

    /** One event of the loop. */
    method Visit(user: int, stsId: string, taskId: string, p: Plan, e: Event, skip: Option<int>, to: Value,
                 batch: seq<int>, term: bool, ghost t: Tally, ghost s0: map<string, Record>, ghost rec0: Record,
                 ghost rows0: seq<TaskRow>, ghost out0: seq<Relay>)
        returns (nb: seq<int>, nterm: bool, stop: bool, ghost nt: Tally)
      requires db.Valid() && Counting(rec0) && "TO" in rec0 && to == rec0["TO"]
      requires taskId != "" && user in activeTasks && activeTasks[user] == taskId
      requires user in cancel && cancel[user] == term
      requires Mirrors(stsId, taskId, s0, rec0, rows0, out0, t, if term then Cancelled else Active) && batch == t.batch
      modifies this, db, sts
      ensures db.Valid()
      ensures nt == VisitTally(p, t, e, skip, term) && nterm == VisitTerm(e, term) && stop == VisitStops(e, skip, term)
      ensures nb == nt.batch
      ensures Mirrors(stsId, taskId, s0, rec0, rows0, out0, nt, if nterm then Cancelled else Active)
      ensures cancel == old(cancel)[user := nterm]
      ensures lock == if e.Terminate? || stop then old(lock)[user := false] else old(lock)
      ensures !stop ==> forwardings == old(forwardings) && isFrwdChat == old(isFrwdChat)
      ensures stop ==> forwardings == old(forwardings) - 1 && isFrwdChat == RemoveFirst(old(isFrwdChat), to)
      ensures activeTasks == old(activeTasks)
      ensures db.users == old(db.users) && db.bots == old(db.bots) && db.channels == old(db.channels)
    {
      nb, nterm, stop, nt := batch, term, false, t;
      match e {
        case Terminate =>
          SetStatusTwice(rows0, taskId, if term then Cancelled else Active, t.checkpoint, Cancelled, None);
          TerminateForwarding(user);
          nterm := true;
        case Msg(m) =>
          if !Skipped(m, skip) {
            if term {
              WithCountsTo(rec0, t);
              SetStatusTwice(rows0, taskId, Cancelled, t.checkpoint, Cancelled, None);
              var _ := IsCancelled(user, stsId);
              stop := true;
            } else {
              nb := Handle(stsId, taskId, p, m, batch, t, s0, rec0, rows0, out0);
              nt := Step(p, t, m);
            }
          }
      }
    }

    /**
     * The `async for` loop: each event is a press of Cancel
     * (`terminate_frwding`) or the next message, which is skipped at or
     * below the checkpoint, stops the run when the cancel flag is up, and is
     * handled otherwise. The state follows `RunFrom` from the tally `t0`.
     */
    method Loop(user: int, stsId: string, taskId: string, p: Plan, events: seq<Event>, skip: Option<int>,
                to: Value, ghost t0: Tally, ghost s0: map<string, Record>, ghost rec0: Record,
                ghost rows0: seq<TaskRow>, ghost out0: seq<Relay>)
        returns (ghost t: Tally, term: bool, stopped: bool)
      requires db.Valid() && Counting(rec0) && "TO" in rec0 && to == rec0["TO"]
      requires taskId != "" && user in activeTasks && activeTasks[user] == taskId
      requires user in cancel && !cancel[user]
      requires Mirrors(stsId, taskId, s0, rec0, rows0, out0, t0, Active) && t0.batch == []
      modifies this, db, sts
      ensures db.Valid()
      ensures stopped ==> term
      ensures !stopped ==> RunFrom(p, t0, events, skip, false) == Run(t, false, term)
      ensures stopped ==> RunFrom(p, t0, events, skip, false) == Run(t, true, true)
      ensures Mirrors(stsId, taskId, s0, rec0, rows0, out0, t, if term then Cancelled else Active)
      ensures cancel == old(cancel)[user := term]
      ensures lock == if term then old(lock)[user := false] else old(lock)
      ensures !stopped ==> forwardings == old(forwardings) && isFrwdChat == old(isFrwdChat)
      ensures stopped ==> forwardings == old(forwardings) - 1 && isFrwdChat == RemoveFirst(old(isFrwdChat), to)
      ensures activeTasks == old(activeTasks)
      ensures db.users == old(db.users) && db.bots == old(db.bots) && db.channels == old(db.channels)
    {
      t := t0;
      var batch: seq<int> := [];
      term := false;
      stopped := false;
      var i := 0;
      while i < |events| && !stopped
        invariant 0 <= i <= |events|
        invariant db.Valid()
        invariant stopped ==> term
        invariant !stopped ==> RunFrom(p, t0, events, skip, false) == RunFrom(p, t, events[i..], skip, term)
        invariant stopped ==> RunFrom(p, t0, events, skip, false) == Run(t, true, true)
        invariant batch == t.batch
        invariant Mirrors(stsId, taskId, s0, rec0, rows0, out0, t, if term then Cancelled else Active)
        invariant cancel == old(cancel)[user := term]
        invariant lock == if term then old(lock)[user := false] else old(lock)
        invariant !stopped ==> forwardings == old(forwardings) && isFrwdChat == old(isFrwdChat)
        invariant stopped ==> forwardings == old(forwardings) - 1 && isFrwdChat == RemoveFirst(old(isFrwdChat), to)
        invariant activeTasks == old(activeTasks)
        invariant db.users == old(db.users) && db.bots == old(db.bots) && db.channels == old(db.channels)
        decreases |events| - i
      {
        assert events[i..] == [events[i]] + events[i + 1..];
        RunFromCons(p, t, events[i], events[i + 1..], skip, term);
        ghost var nt;
        var nterm, stop;
        batch, nterm, stop, nt := Visit(user, stsId, taskId, p, events[i], skip, to, batch, term, t, s0, rec0, rows0, out0);
        t, term, stopped := nt, nterm, stop;
        i := i + 1;
      }
      if !stopped {
        assert events[i..] == [];
      }
    }

    /**
     * The `try` block of `pub_` and `resume_forwarding_task`, from the first
     * `edit` to the end of the run: a record whose numbers `edit` cannot
     * divide fails at once; otherwise the loop runs as `RunFrom` says, and
     * its end decides the final status: cancelled, completed (also after a
     * FloodWait escapes the iterator) or failed.
     */
    method RunLoop(user: int, stsId: string, taskId: string, style: Style,
                   events: seq<Event>, skip: Option<int>, end: End) returns (outcome: Outcome)
      requires db.Valid() && sts.Valid() && stsId in sts.status
      requires taskId != "" && user in activeTasks && activeTasks[user] == taskId
      requires AllActive(db.tasks, taskId)
      requires user in cancel && !cancel[user]
      modifies this, db, sts
      ensures db.Valid() && sts.Valid()
      ensures Ran(outcome)
      ensures lock == old(lock)[user := false] && forwardings == old(forwardings) - 1
      ensures activeTasks == old(activeTasks)
      ensures isFrwdChat == RemoveFirst(old(isFrwdChat), old(sts.status[stsId]["TO"]))
      ensures db.users == old(db.users) && db.bots == old(db.bots) && db.channels == old(db.channels)
      ensures EditFails(old(sts.status[stsId])) ==>
                outcome == RunFailed && sts.status == old(sts.status) && outbox == old(outbox)
                && cancel == old(cancel) && db.tasks == SetStatus(old(db.tasks), taskId, Failed, None)
      ensures !EditFails(old(sts.status[stsId])) ==>
                var rec0 := old(sts.status[stsId]);
                Runnable(rec0) &&
                var r := RunFrom(PlanOf(style, rec0), TallyOf(rec0), events, skip, false);
                outcome == OutcomeOf(r, end)
                && sts.status == old(sts.status)[stsId := WithCounts(rec0, r.t)]
                && outbox == old(outbox) + r.t.relays
                && cancel == old(cancel)[user := r.terminated]
                && db.tasks == SetStatus(old(db.tasks), taskId, StatusAfter(outcome), r.t.checkpoint)
    {
      var rec0 := sts.GetFull(stsId);
      if EditFails(rec0) {
        db.UpdateTaskStatus(taskId, Failed, None);
        Release(user, sts.Get(stsId, "TO"));
        return RunFailed;
      }
      StoredRunnable(rec0);
      outcome := Proceed(user, stsId, taskId, style, events, skip, end);
    }

    /** `RunLoop` once the first `edit` has gone through. */
    method Proceed(user: int, stsId: string, taskId: string, style: Style,
                   events: seq<Event>, skip: Option<int>, end: End) returns (outcome: Outcome)
      requires db.Valid() && sts.Valid() && stsId in sts.status && Stored(sts.status[stsId]) && Runnable(sts.status[stsId])
      requires taskId != "" && user in activeTasks && activeTasks[user] == taskId
      requires AllActive(db.tasks, taskId)
      requires user in cancel && !cancel[user]
      modifies this, db, sts
      ensures db.Valid() && sts.Valid()
      ensures lock == old(lock)[user := false] && forwardings == old(forwardings) - 1
      ensures activeTasks == old(activeTasks)
      ensures isFrwdChat == RemoveFirst(old(isFrwdChat), old(sts.status[stsId]["TO"]))
      ensures db.users == old(db.users) && db.bots == old(db.bots) && db.channels == old(db.channels)
      ensures var rec0 := old(sts.status[stsId]);
              var r := RunFrom(PlanOf(style, rec0), TallyOf(rec0), events, skip, false);
              outcome == OutcomeOf(r, end)
              && sts.status == old(sts.status)[stsId := WithCounts(rec0, r.t)]
              && outbox == old(outbox) + r.t.relays
              && cancel == old(cancel)[user := r.terminated]
              && db.tasks == SetStatus(old(db.tasks), taskId, StatusAfter(outcome), r.t.checkpoint)
    {
      var rec0 := sts.status[stsId];
      var to := rec0["TO"];
      ghost var s0 := sts.status;
      ghost var rows0 := db.tasks;
      var p := PlanOf(style, rec0);
      ghost var t0 := TallyOf(rec0);
      StartMirrors(s0, stsId, rows0, taskId);
      ghost var t;
      var term, stopped;
      t, term, stopped := Loop(user, stsId, taskId, p, events, skip, to, t0, s0, rec0, rows0, outbox);
      WithCountsStored(s0, stsId, rec0, t);
      if stopped {
        return RunCancelled;
      }
      outcome := Finish(user, taskId, to, end, rows0, if term then Cancelled else Active, t.checkpoint);
    }

    /** After the loop: completed (after paused and active on a FloodWait), or failed on any other exception. */
    method Finish(user: int, taskId: string, to: Value, end: End,
                  ghost rows0: seq<TaskRow>, ghost st: TaskStatus, ghost cp: Option<int>) returns (outcome: Outcome)
      requires db.Valid() && db.tasks == SetStatus(rows0, taskId, st, cp)
      modifies this`lock, this`forwardings, this`isFrwdChat, db
      ensures db.Valid()
      ensures outcome == EndOutcome(end)
      ensures db.tasks == SetStatus(rows0, taskId, StatusAfter(outcome), cp)
      ensures isFrwdChat == RemoveFirst(old(isFrwdChat), to)
      ensures lock == old(lock)[user := false] && forwardings == old(forwardings) - 1
      ensures db.users == old(db.users) && db.bots == old(db.bots) && db.channels == old(db.channels)
    {
      outcome := EndOutcome(end);
      match end {
      case Crash(_) =>
        SetStatusTwice(rows0, taskId, st, cp, Failed, None);
        db.UpdateTaskStatus(taskId, Failed, None);
      case Flood(_) =>
        SetStatusTwice(rows0, taskId, st, cp, Paused, None);
        db.UpdateTaskStatus(taskId, Paused, None);
        SetStatusTwice(rows0, taskId, Paused, cp, Active, None);
        db.UpdateTaskStatus(taskId, Active, None);
        SetStatusTwice(rows0, taskId, Active, cp, Completed, None);
        db.UpdateTaskStatus(taskId, Completed, None);
      case Exhausted =>
        SetStatusTwice(rows0, taskId, st, cp, Completed, None);
        db.UpdateTaskStatus(taskId, Completed, None);
      }
      Release(user, to);
    }

    /** The run's state is as it was: the tracking records, the task table, the outbox and the engine's tables. */
    ghost predicate Quiet(status0: map<string, Record>, tasks0: seq<TaskRow>, outbox0: seq<Relay>,
                          active0: map<int, string>, targets0: seq<Value>)
      reads this, sts, db
    {
      sts.status == status0 && db.tasks == tasks0 && outbox == outbox0
      && activeTasks == active0 && isFrwdChat == targets0
    }

    /**
     * `pub_`: the checks, then the task saved as active with no checkpoint,
     * the run registered (`ACTIVE_TASKS`, `forwardings`, `IS_FRWD_CHAT`, the
     * lock), and the run itself.
     */
    method PubForward(user: int, data: string, access: Access, taskId: string, now: int, dbOk: bool,
                      events: seq<Event>, end: End) returns (outcome: Outcome)
      requires db.Valid() && sts.Valid() && taskId != ""
      modifies this, db, sts
      ensures db.Valid() && sts.Valid()
      ensures db.users == old(db.users) && db.bots == old(db.bots) && db.channels == old(db.channels)
      ensures var pre := PubGate(data, old(user in lock && lock[user]), old(sts.status), old(isFrwdChat),
                                 old(if dbOk then db.GetBot(user) else None), AccessOk);
        pre.Some? ==> outcome == pre.value && cancel == old(cancel)[user := false] && lock == old(lock)
                      && forwardings == old(forwardings)
                      && Quiet(old(sts.status), old(db.tasks), old(outbox), old(activeTasks), old(isFrwdChat))
      ensures var pre := PubGate(data, old(user in lock && lock[user]), old(sts.status), old(isFrwdChat),
                                 old(if dbOk then db.GetBot(user) else None), AccessOk);
        pre.None? && access != AccessOk ==>
          outcome == AccessRefusal(access).value && cancel == old(cancel)[user := false]
          && Quiet(old(sts.status), old(db.tasks), old(outbox), old(activeTasks), old(isFrwdChat))
          && (!StopsAfterRefusal(outcome) ==> lock == old(lock) && forwardings == old(forwardings))
          && (StopsAfterRefusal(outcome) ==> lock == old(lock)[user := false] && forwardings == old(forwardings) - 1)
      ensures var pre := PubGate(data, old(user in lock && lock[user]), old(sts.status), old(isFrwdChat),
                                 old(if dbOk then db.GetBot(user) else None), AccessOk);
        pre.None? && access == AccessOk ==>
          var id := PublicId(data).value;
          (SaveFails(old(sts.status[id])) ==>
             outcome == SaveRaised && cancel == old(cancel)[user := false] && lock == old(lock) && forwardings == old(forwardings)
             && Quiet(old(sts.status), old(db.tasks), old(outbox), old(activeTasks), old(isFrwdChat)))
          && (!SaveFails(old(sts.status[id])) ==>
             Ran(outcome) && lock == old(lock)[user := false] && forwardings == old(forwardings)
             && isFrwdChat == old(isFrwdChat) && activeTasks == old(activeTasks)[user := taskId]
             && var row := FindTask(db.tasks, taskId);
                row.Some? && row.value == RowOf(taskId, TaskDataOf(user, old(sts.status[id]), old(sts.GetData(db, user, id, dbOk)), now))
                                            .(status := StatusAfter(outcome), lastForwardedMsgId := row.value.lastForwardedMsgId))
      ensures var pre := PubGate(data, old(user in lock && lock[user]), old(sts.status), old(isFrwdChat),
                                 old(if dbOk then db.GetBot(user) else None), AccessOk);
        pre.None? && access == AccessOk ==>
          var id := PublicId(data).value;
          var rec0 := old(sts.status[id]);
          !SaveFails(rec0) ==>
            (EditFails(rec0) ==>
               outcome == RunFailed && outbox == old(outbox)
               && sts.status == old(sts.status)[id := rec0["start" := Num(now)]])
            && (!EditFails(rec0) ==>
               Runnable(rec0) &&
               var r := RunOf(StyleOf(old(sts.GetData(db, user, id, dbOk))), rec0, events, None);
               outcome == OutcomeOf(r, end)
               && sts.status == old(sts.status)[id := WithCounts(rec0["start" := Num(now)], r.t)]
               && outbox == old(outbox) + r.t.relays
               && FindTask(db.tasks, taskId).value.lastForwardedMsgId == r.t.checkpoint)
    {
      cancel := cancel[user := false];
      // the bot `get_data` reads; the rest of what it reads is used once the checks pass
      var bot := if dbOk then db.GetBot(user) else None;
      var pre := PubGate(data, user in lock && lock[user], sts.status, isFrwdChat, bot, AccessOk);
      if pre.Some? {
        return pre.value;
      }
      if access != AccessOk {
        outcome := Refuse(user, access);
        return;
      }
      outcome := PubSave(user, PublicId(data).value, taskId, dbOk, now, events, end);
    }

    /** `pub_` once every check has passed: the save, which may raise, then the run. */
    method PubSave(user: int, frwdId: string, taskId: string, dbOk: bool, now: int,
                   events: seq<Event>, end: End) returns (outcome: Outcome)
      requires db.Valid() && sts.Valid() && taskId != "" && frwdId in sts.status
      requires TargetOf(sts.status[frwdId]) !in isFrwdChat && user in cancel && !cancel[user]
      modifies this, db, sts
      ensures db.Valid() && sts.Valid()
      ensures db.users == old(db.users) && db.bots == old(db.bots) && db.channels == old(db.channels)
      ensures SaveFails(old(sts.status[frwdId])) ==>
                outcome == SaveRaised && cancel == old(cancel)
                && Quiet(old(sts.status), old(db.tasks), old(outbox), old(activeTasks), old(isFrwdChat))
                && lock == old(lock) && forwardings == old(forwardings)
      ensures !SaveFails(old(sts.status[frwdId])) ==>
                Ran(outcome) && lock == old(lock)[user := false] && forwardings == old(forwardings)
                && isFrwdChat == old(isFrwdChat) && activeTasks == old(activeTasks)[user := taskId]
                && var row := FindTask(db.tasks, taskId);
                   row.Some? && row.value == RowOf(taskId, TaskDataOf(user, old(sts.status[frwdId]), old(sts.GetData(db, user, frwdId, dbOk)), now))
                                               .(status := StatusAfter(outcome), lastForwardedMsgId := row.value.lastForwardedMsgId)
      ensures !SaveFails(old(sts.status[frwdId])) && EditFails(old(sts.status[frwdId])) ==>
                outcome == RunFailed && outbox == old(outbox)
                && sts.status == old(sts.status)[frwdId := old(sts.status[frwdId])["start" := Num(now)]]
                && FindTask(db.tasks, taskId).value.lastForwardedMsgId == None
      ensures !SaveFails(old(sts.status[frwdId])) && !EditFails(old(sts.status[frwdId])) ==>
                var rec0 := old(sts.status[frwdId]);
                Runnable(rec0) &&
                var r := RunOf(StyleOf(old(sts.GetData(db, user, frwdId, dbOk))), rec0, events, None);
                outcome == OutcomeOf(r, end)
                && sts.status == old(sts.status)[frwdId := WithCounts(rec0["start" := Num(now)], r.t)]
                && outbox == old(outbox) + r.t.relays
                && FindTask(db.tasks, taskId).value.lastForwardedMsgId == r.t.checkpoint
    {
      var rec := sts.GetFull(frwdId);
      var setup := sts.GetData(db, user, frwdId, dbOk);
      if SaveFails(rec) {
        return SaveRaised;
      }
      var to := TargetOf(rec);
      outcome := StartRun(user, frwdId, taskId, TaskDataOf(user, rec, setup, now), to, StyleOf(setup), now, events, None, end);
      RemoveFirstAppended(old(isFrwdChat), to);
    }

    /**
     * The common tail of `pub_` and `resume_forwarding_task`: the task is
     * saved, registered as the user's active task, counted in `forwardings`,
     * its target added to `IS_FRWD_CHAT`, the user locked, and the run made.
     * Afterwards the row holds what was saved, with the status the run ended
     * in.
     */
    method StartRun(user: int, stsId: string, taskId: string, d: TaskData, to: Value, style: Style, now: int,
                    events: seq<Event>, skip: Option<int>, end: End) returns (outcome: Outcome)
      requires db.Valid() && sts.Valid() && stsId in sts.status && taskId != ""
      requires d.status == Some(Active) && to == TargetOf(sts.status[stsId])
      requires user in cancel && !cancel[user]
      modifies this, db, sts
      ensures db.Valid() && sts.Valid() && Ran(outcome)
      ensures lock == old(lock)[user := false] && forwardings == old(forwardings)
      ensures isFrwdChat == RemoveFirst(old(isFrwdChat) + [to], to)
      ensures activeTasks == old(activeTasks)[user := taskId]
      ensures db.users == old(db.users) && db.bots == old(db.bots) && db.channels == old(db.channels)
      ensures var row := FindTask(db.tasks, taskId);
        row.Some? && row.value == RowOf(taskId, d).(status := StatusAfter(outcome), lastForwardedMsgId := row.value.lastForwardedMsgId)
      ensures EditFails(old(sts.status[stsId])) ==>
                outcome == RunFailed
                && sts.status == old(sts.status)[stsId := old(sts.status[stsId])["start" := Num(now)]]
                && outbox == old(outbox) && cancel == old(cancel)
                && FindTask(db.tasks, taskId) == Some(RowOf(taskId, d).(status := Failed))
      ensures !EditFails(old(sts.status[stsId])) ==>
                var rec0 := old(sts.status[stsId]);
                Runnable(rec0) &&
                var r := RunOf(style, rec0, events, skip);
                outcome == OutcomeOf(r, end)
                && sts.status == old(sts.status)[stsId := WithCounts(rec0["start" := Num(now)], r.t)]
                && outbox == old(outbox) + r.t.relays
                && cancel == old(cancel)[user := r.terminated]
                && FindTask(db.tasks, taskId) == Some(RowOf(taskId, d).(status := StatusAfter(outcome),
                                                                       lastForwardedMsgId := if r.t.checkpoint.Some? then r.t.checkpoint else RowOf(taskId, d).lastForwardedMsgId))
    {
      SaveActive(taskId, d);
      outcome := Launch(user, stsId, taskId, to, style, now, events, skip, end, RowOf(taskId, d));
    }

    /**
     * Starting a run once its row is active: `add(time=True)`, the task
     * registered as the user's active task, counted in `forwardings`, its
     * target added to `IS_FRWD_CHAT`, the user locked, and the run made.
     */
    method Launch(user: int, stsId: string, taskId: string, to: Value, style: Style, now: int,
                  events: seq<Event>, skip: Option<int>, end: End, ghost row0: TaskRow) returns (outcome: Outcome)
      requires db.Valid() && sts.Valid() && stsId in sts.status && taskId != "" && to == TargetOf(sts.status[stsId])
      requires FindTask(db.tasks, taskId) == Some(row0) && AllActive(db.tasks, taskId)
      requires user in cancel && !cancel[user]
      modifies this, db, sts
      ensures db.Valid() && sts.Valid() && Ran(outcome)
      ensures db.users == old(db.users) && db.bots == old(db.bots) && db.channels == old(db.channels)
      ensures lock == old(lock)[user := false] && forwardings == old(forwardings)
      ensures isFrwdChat == RemoveFirst(old(isFrwdChat) + [to], to) && multiset(isFrwdChat) == multiset(old(isFrwdChat))
      ensures activeTasks == old(activeTasks)[user := taskId]
      ensures EditFails(old(sts.status[stsId])) ==> outcome == RunFailed
      ensures var row := FindTask(db.tasks, taskId);
        row.Some? && row.value == row0.(status := StatusAfter(outcome), lastForwardedMsgId := row.value.lastForwardedMsgId)
      ensures EditFails(old(sts.status[stsId])) ==>
                sts.status == old(sts.status)[stsId := old(sts.status[stsId])["start" := Num(now)]]
                && outbox == old(outbox) && cancel == old(cancel)
                && FindTask(db.tasks, taskId) == Some(row0.(status := Failed))
      ensures !EditFails(old(sts.status[stsId])) ==>
                var rec0 := old(sts.status[stsId]);
                Runnable(rec0) &&
                var r := RunOf(style, rec0, events, skip);
                outcome == OutcomeOf(r, end)
                && sts.status == old(sts.status)[stsId := WithCounts(rec0["start" := Num(now)], r.t)]
                && outbox == old(outbox) + r.t.relays
                && cancel == old(cancel)[user := r.terminated]
                && FindTask(db.tasks, taskId) == Some(row0.(status := StatusAfter(outcome),
                                                           lastForwardedMsgId := if r.t.checkpoint.Some? then r.t.checkpoint else row0.lastForwardedMsgId))
    {
      ghost var rec0 := sts.status[stsId];
      Begin(user, stsId, taskId, to, now);
      ghost var started := sts.status[stsId];
      ghost var s1 := sts.status;
      LockTwice(old(lock), user, true, false);
      RemoveFirstAppendedCount(old(isFrwdChat), to);
      if !EditFails(rec0) {
        StoredRunnable(rec0);
        StartedRunOf(style, rec0, now, events, skip);
      }
      ghost var out1, cancel1 := outbox, cancel;
      outcome := Launched(user, stsId, taskId, style, events, skip, end, row0);
      if !EditFails(rec0) {
        ghost var r := RunOf(style, rec0, events, skip);
        assert outcome == OutcomeOf(r, end);
        assert sts.status == s1[stsId := WithCounts(started, r.t)];
        RecordTwice(old(sts.status), stsId, started, WithCounts(started, r.t));
        assert outbox == out1 + r.t.relays;
        assert cancel == cancel1[user := r.terminated];
      }
    }

    /** The run of a started task, and where its row lands. */
    method Launched(user: int, stsId: string, taskId: string, style: Style,
                    events: seq<Event>, skip: Option<int>, end: End, ghost row0: TaskRow) returns (outcome: Outcome)
      requires db.Valid() && sts.Valid() && stsId in sts.status
      requires taskId != "" && user in activeTasks && activeTasks[user] == taskId
      requires FindTask(db.tasks, taskId) == Some(row0) && AllActive(db.tasks, taskId)
      requires user in cancel && !cancel[user]
      modifies this, db, sts
      ensures db.Valid() && sts.Valid() && Ran(outcome)
      ensures lock == old(lock)[user := false] && forwardings == old(forwardings) - 1
      ensures activeTasks == old(activeTasks)
      ensures isFrwdChat == RemoveFirst(old(isFrwdChat), old(sts.status[stsId]["TO"]))
      ensures db.users == old(db.users) && db.bots == old(db.bots) && db.channels == old(db.channels)
      ensures EditFails(old(sts.status[stsId])) ==>
                outcome == RunFailed && sts.status == old(sts.status) && outbox == old(outbox) && cancel == old(cancel)
                && FindTask(db.tasks, taskId) == Some(row0.(status := Failed))
      ensures !EditFails(old(sts.status[stsId])) ==>
                var rec := old(sts.status[stsId]);
                Runnable(rec) &&
                var r := RunOf(style, rec, events, skip);
                outcome == OutcomeOf(r, end)
                && sts.status == old(sts.status)[stsId := WithCounts(rec, r.t)]
                && outbox == old(outbox) + r.t.relays
                && cancel == old(cancel)[user := r.terminated]
                && FindTask(db.tasks, taskId) == Some(row0.(status := StatusAfter(outcome),
                                                           lastForwardedMsgId := if r.t.checkpoint.Some? then r.t.checkpoint else row0.lastForwardedMsgId))
    {
      ghost var cp;
      outcome, cp := RunTracked(user, stsId, taskId, style, events, skip, end);
      FindAfterSetStatus(old(db.tasks), taskId, StatusAfter(outcome), cp);
    }

    /** `save_forwarding_task` of an active task, seen from the run: the task's rows are all active. */
    method SaveActive(taskId: string, d: TaskData)
      requires db.Valid() && taskId != "" && d.status == Some(Active)
      modifies db
      ensures db.Valid()
      ensures db.tasks == Upsert(old(db.tasks), RowOf(taskId, d)) && FindTask(db.tasks, taskId) == Some(RowOf(taskId, d))
      ensures AllActive(db.tasks, taskId)
      ensures db.users == old(db.users) && db.bots == old(db.bots) && db.channels == old(db.channels)
    {
      db.SaveForwardingTask(taskId, d);
      UpsertSingle(old(db.tasks), RowOf(taskId, d));
    }

    /** `add(time=True)`, then the engine's side of starting a run. */
    method Begin(user: int, stsId: string, taskId: string, to: Value, now: int)
      requires sts.Valid() && stsId in sts.status && to == TargetOf(sts.status[stsId])
      modifies sts, this`activeTasks, this`forwardings, this`isFrwdChat, this`lock
      ensures sts.Valid() && stsId in sts.status && to == sts.status[stsId]["TO"]
      ensures EditFails(sts.status[stsId]) == EditFails(old(sts.status[stsId]))
      ensures sts.status == old(sts.status)[stsId := old(sts.status[stsId])["start" := Num(now)]]
      ensures lock == old(lock)[user := true] && forwardings == old(forwardings) + 1
      ensures isFrwdChat == old(isFrwdChat) + [to] && activeTasks == old(activeTasks)[user := taskId]
    {
      var _ := sts.AddTime(stsId, now);
      EditFailsIgnoresStart(old(sts.status[stsId]), now);
      Enlist(user, taskId, to);
    }

    /** The engine's side of starting a run. */
    method Enlist(user: int, taskId: string, to: Value)
      modifies this`activeTasks, this`forwardings, this`isFrwdChat, this`lock
      ensures lock == old(lock)[user := true] && forwardings == old(forwardings) + 1
      ensures isFrwdChat == old(isFrwdChat) + [to] && activeTasks == old(activeTasks)[user := taskId]
    {
      activeTasks := activeTasks[user := taskId];
      forwardings := forwardings + 1;
      isFrwdChat := isFrwdChat + [to];
      lock := lock[user := true];
    }

    /** `RunLoop`, with the checkpoint the row is left with named. */
    method RunTracked(user: int, stsId: string, taskId: string, style: Style,
                      events: seq<Event>, skip: Option<int>, end: End) returns (outcome: Outcome, ghost cp: Option<int>)
      requires db.Valid() && sts.Valid() && stsId in sts.status
      requires taskId != "" && user in activeTasks && activeTasks[user] == taskId
      requires AllActive(db.tasks, taskId)
      requires user in cancel && !cancel[user]
      modifies this, db, sts
      ensures db.Valid() && sts.Valid() && Ran(outcome)
      ensures lock == old(lock)[user := false] && forwardings == old(forwardings) - 1
      ensures activeTasks == old(activeTasks)
      ensures isFrwdChat == RemoveFirst(old(isFrwdChat), old(sts.status[stsId]["TO"]))
      ensures db.users == old(db.users) && db.bots == old(db.bots) && db.channels == old(db.channels)
      ensures db.tasks == SetStatus(old(db.tasks), taskId, StatusAfter(outcome), cp)
      ensures EditFails(old(sts.status[stsId])) ==> outcome == RunFailed && cp == None
      ensures EditFails(old(sts.status[stsId])) ==>
                sts.status == old(sts.status) && outbox == old(outbox) && cancel == old(cancel)
      ensures !EditFails(old(sts.status[stsId])) ==>
                var rec0 := old(sts.status[stsId]);
                Runnable(rec0) &&
                var r := RunOf(style, rec0, events, skip);
                outcome == OutcomeOf(r, end) && cp == r.t.checkpoint
                && sts.status == old(sts.status)[stsId := WithCounts(rec0, r.t)]
                && outbox == old(outbox) + r.t.relays
                && cancel == old(cancel)[user := r.terminated]
    {
      ghost var rec0 := sts.status[stsId];
      outcome := RunLoop(user, stsId, taskId, style, events, skip, end);
      cp := if EditFails(rec0) then None
            else RunFrom(PlanOf(style, rec0), TallyOf(rec0), events, skip, false).t.checkpoint;
    }

    /**
     * `resume_forwarding_task`: the checks, a tracking record `resume_<id>`
     * started from the row, then the row set back to active and the run made
     * with the row's checkpoint as the skip bound. The task id is read as the
     * text after "resume_task_".
     */
    method ResumeForwardingTask(user: int, data: string, access: Access, now: int,
                                events: seq<Event>, end: End) returns (outcome: Outcome)
      requires db.Valid() && sts.Valid()
      modifies this, db, sts
      ensures db.Valid() && sts.Valid()
      ensures db.users == old(db.users) && db.bots == old(db.bots) && db.channels == old(db.channels)
      ensures var pre := ResumeGate(data, old(user in lock && lock[user]), old(db.tasks), AccessOk);
        pre.Some? ==> outcome == pre.value && cancel == old(cancel) && lock == old(lock) && forwardings == old(forwardings)
                      && Quiet(old(sts.status), old(db.tasks), old(outbox), old(activeTasks), old(isFrwdChat))
      ensures var pre := ResumeGate(data, old(user in lock && lock[user]), old(db.tasks), AccessOk);
        pre.None? && access != AccessOk ==>
          var id := ResumeTaskId(data).value;
          outcome == AccessRefusal(access).value && cancel == old(cancel)
          && Quiet(old(sts.status)[ResumeStsId(id) := ResumeRecord(FindTask(old(db.tasks), id).value)],
                   old(db.tasks), old(outbox), old(activeTasks), old(isFrwdChat))
          && (!StopsAfterRefusal(outcome) ==> lock == old(lock) && forwardings == old(forwardings))
          && (StopsAfterRefusal(outcome) ==> lock == old(lock)[user := false] && forwardings == old(forwardings) - 1)
      ensures var pre := ResumeGate(data, old(user in lock && lock[user]), old(db.tasks), AccessOk);
        pre.None? && access == AccessOk ==>
          var id := ResumeTaskId(data).value;
          var t := FindTask(old(db.tasks), id).value;
          Ran(outcome) && lock == old(lock)[user := false] && forwardings == old(forwardings)
          && multiset(isFrwdChat) == multiset(old(isFrwdChat)) && activeTasks == old(activeTasks)[user := id]
          && (t.lastForwardedMsgId.None? || t.totalCount == 0 ==> outcome == RunFailed)
          && var row := FindTask(db.tasks, id);
             row.Some? && row.value == t.(status := StatusAfter(outcome), lastForwardedMsgId := row.value.lastForwardedMsgId)
      ensures var pre := ResumeGate(data, old(user in lock && lock[user]), old(db.tasks), AccessOk);
        pre.None? && access == AccessOk ==>
          var id := ResumeTaskId(data).value;
          var t := FindTask(old(db.tasks), id).value;
          (EditFails(ResumeRecord(t)) ==>
             outcome == RunFailed && outbox == old(outbox)
             && sts.status == old(sts.status)[ResumeStsId(id) := ResumeRecord(t)["start" := Num(now)]]
             && FindTask(db.tasks, id) == Some(t.(status := Failed)))
          && (!EditFails(ResumeRecord(t)) ==>
             Runnable(ResumeRecord(t)) &&
             var r := RunOf(StyleOfConfigs(t.configs), ResumeRecord(t), events, t.lastForwardedMsgId);
             outcome == OutcomeOf(r, end)
             && sts.status == old(sts.status)[ResumeStsId(id) := WithCounts(ResumeRecord(t)["start" := Num(now)], r.t)]
             && outbox == old(outbox) + r.t.relays
             && FindTask(db.tasks, id) == Some(t.(status := StatusAfter(outcome),
                                                  lastForwardedMsgId := if r.t.checkpoint.Some? then r.t.checkpoint else t.lastForwardedMsgId)))
    {
      var busy := user in lock && lock[user];
      var gate := ResumeGate(data, busy, db.tasks, AccessOk);
      if gate.Some? {
        return gate.value;
      }
      var taskId := ResumeTaskId(data).value;
      var t := db.GetTask(taskId).value;
      sts.Store(ResumeStsId(taskId), Text(t.fromChat), Text(t.toChat), CheckpointValue(t.lastForwardedMsgId), Num(t.totalCount));
      outcome := ResumeChecked(user, taskId, t, access, now, events, end);
      if access == AccessOk {
        if EditFails(ResumeRecord(t)) {
          RecordTwice(old(sts.status), ResumeStsId(taskId), ResumeRecord(t), ResumeRecord(t)["start" := Num(now)]);
        } else {
          ghost var r := RunOf(StyleOfConfigs(t.configs), ResumeRecord(t), events, t.lastForwardedMsgId);
          RecordTwice(old(sts.status), ResumeStsId(taskId), ResumeRecord(t), WithCounts(ResumeRecord(t)["start" := Num(now)], r.t));
        }
      }
    }

    /** `resume_forwarding_task` from starting the bot on: the access checks, then the run. */
    method ResumeChecked(user: int, taskId: string, t: TaskRow, access: Access, now: int,
                         events: seq<Event>, end: End) returns (outcome: Outcome)
      requires db.Valid() && sts.Valid() && taskId != "" && FindTask(db.tasks, taskId) == Some(t)
      requires ResumeStsId(taskId) in sts.status && sts.status[ResumeStsId(taskId)] == ResumeRecord(t)
      modifies this, db, sts
      ensures db.Valid() && sts.Valid()
      ensures db.users == old(db.users) && db.bots == old(db.bots) && db.channels == old(db.channels)
      ensures access != AccessOk ==>
                outcome == AccessRefusal(access).value && cancel == old(cancel)
                && Quiet(old(sts.status), old(db.tasks), old(outbox), old(activeTasks), old(isFrwdChat))
                && (!StopsAfterRefusal(outcome) ==> lock == old(lock) && forwardings == old(forwardings))
                && (StopsAfterRefusal(outcome) ==> lock == old(lock)[user := false] && forwardings == old(forwardings) - 1)
      ensures access == AccessOk ==>
                Ran(outcome) && lock == old(lock)[user := false] && forwardings == old(forwardings)
                && multiset(isFrwdChat) == multiset(old(isFrwdChat)) && activeTasks == old(activeTasks)[user := taskId]
                && (t.lastForwardedMsgId.None? || t.totalCount == 0 ==> outcome == RunFailed)
                && var row := FindTask(db.tasks, taskId);
                   row.Some? && row.value == t.(status := StatusAfter(outcome), lastForwardedMsgId := row.value.lastForwardedMsgId)
      ensures access == AccessOk && EditFails(ResumeRecord(t)) ==>
                outcome == RunFailed && outbox == old(outbox)
                && sts.status == old(sts.status)[ResumeStsId(taskId) := ResumeRecord(t)["start" := Num(now)]]
                && FindTask(db.tasks, taskId) == Some(t.(status := Failed))
      ensures access == AccessOk && !EditFails(ResumeRecord(t)) ==>
                Runnable(ResumeRecord(t)) &&
                var r := RunOf(StyleOfConfigs(t.configs), ResumeRecord(t), events, t.lastForwardedMsgId);
                outcome == OutcomeOf(r, end)
                && sts.status == old(sts.status)[ResumeStsId(taskId) := WithCounts(ResumeRecord(t)["start" := Num(now)], r.t)]
                && outbox == old(outbox) + r.t.relays
                && FindTask(db.tasks, taskId) == Some(t.(status := StatusAfter(outcome),
                                                        lastForwardedMsgId := if r.t.checkpoint.Some? then r.t.checkpoint else t.lastForwardedMsgId))
    {
      if access != AccessOk {
        outcome := Refuse(user, access);
        return;
      }
      outcome := ResumeRun(user, taskId, t, now, events, end);
    }

    /** A failed access check: the message to the user, then `stop` unless the client never started. */
    method Refuse(user: int, access: Access) returns (outcome: Outcome)
      requires access != AccessOk
      modifies this`forwardings, this`lock
      ensures outcome == AccessRefusal(access).value
      ensures !StopsAfterRefusal(outcome) ==> lock == old(lock) && forwardings == old(forwardings)
      ensures StopsAfterRefusal(outcome) ==> lock == old(lock)[user := false] && forwardings == old(forwardings) - 1
    {
      outcome := AccessRefusal(access).value;
      if StopsAfterRefusal(outcome) {
        Stop(user);
      }
    }

    /** `resume_forwarding_task` once the checks have passed. */
    method ResumeRun(user: int, taskId: string, t: TaskRow, now: int,
                     events: seq<Event>, end: End) returns (outcome: Outcome)
      requires db.Valid() && sts.Valid() && taskId != "" && FindTask(db.tasks, taskId) == Some(t)
      requires ResumeStsId(taskId) in sts.status && sts.status[ResumeStsId(taskId)] == ResumeRecord(t)
      modifies this, db, sts
      ensures db.Valid() && sts.Valid() && Ran(outcome)
      ensures db.users == old(db.users) && db.bots == old(db.bots) && db.channels == old(db.channels)
      ensures lock == old(lock)[user := false] && forwardings == old(forwardings)
      ensures isFrwdChat == RemoveFirst(old(isFrwdChat) + [Text(t.toChat)], Text(t.toChat))
      ensures multiset(isFrwdChat) == multiset(old(isFrwdChat))
      ensures activeTasks == old(activeTasks)[user := taskId]
      ensures t.lastForwardedMsgId.None? || t.totalCount == 0 ==> outcome == RunFailed
      ensures var row := FindTask(db.tasks, taskId);
        row.Some? && row.value == t.(status := StatusAfter(outcome), lastForwardedMsgId := row.value.lastForwardedMsgId)
      ensures EditFails(ResumeRecord(t)) ==>
                outcome == RunFailed && outbox == old(outbox) && cancel == old(cancel)[user := false]
                && sts.status == old(sts.status)[ResumeStsId(taskId) := ResumeRecord(t)["start" := Num(now)]]
                && FindTask(db.tasks, taskId) == Some(t.(status := Failed))
      ensures !EditFails(ResumeRecord(t)) ==>
                Runnable(ResumeRecord(t)) &&
                var r := RunOf(StyleOfConfigs(t.configs), ResumeRecord(t), events, t.lastForwardedMsgId);
                outcome == OutcomeOf(r, end)
                && sts.status == old(sts.status)[ResumeStsId(taskId) := WithCounts(ResumeRecord(t)["start" := Num(now)], r.t)]
                && outbox == old(outbox) + r.t.relays
                && cancel == old(cancel)[user := r.terminated]
                && FindTask(db.tasks, taskId) == Some(t.(status := StatusAfter(outcome),
                                                        lastForwardedMsgId := if r.t.checkpoint.Some? then r.t.checkpoint else t.lastForwardedMsgId))
    {
      Reactivate(taskId, t);
      cancel := cancel[user := false];
      if t.lastForwardedMsgId.None? || t.totalCount == 0 {
        ResumeRecordFails(t);
      }
      outcome := Launch(user, ResumeStsId(taskId), taskId, Text(t.toChat), StyleOfConfigs(t.configs), now,
                        events, t.lastForwardedMsgId, end, t.(status := Active));
      if !EditFails(ResumeRecord(t)) {
        LockTwice(old(cancel), user, false, RunOf(StyleOfConfigs(t.configs), ResumeRecord(t), events, t.lastForwardedMsgId).terminated);
      }
    }

    /** `update_task_status(task_id, "active")` before a resumed run. */
    method Reactivate(taskId: string, t: TaskRow)
      requires db.Valid() && FindTask(db.tasks, taskId) == Some(t)
      modifies db
      ensures db.Valid() && FindTask(db.tasks, taskId) == Some(t.(status := Active)) && AllActive(db.tasks, taskId)
      ensures db.users == old(db.users) && db.bots == old(db.bots) && db.channels == old(db.channels)
    {
      db.UpdateTaskStatus(taskId, Active, None);
      FindAfterSetStatus(old(db.tasks), taskId, Active, None);
      ActiveAfterSetStatus(old(db.tasks), taskId, None);
    }
  }
}
