/**
 * The command plugin of the Pyrogram bot (new_bot/plugins/commands.py):
 * `/forward` opens the source step of the forward dialog unless the user
 * has no bot or a task already running, `/cancel` ends that dialog or
 * raises the running task's cancel flag, and `/tasks` lists the resumable
 * tasks with a Resume button each.
 */
module Commands {
  import opened Common
  import opened Db
  import Regix

  /** An inline button that sends callback data. */
  datatype Key = Key(text: string, data: string)

  /** The Resume button of a task: "Resume " and the last four characters of the id. */
  function ResumeKey(taskId: string): (k: Key)
    ensures 7 <= |k.text| <= 11 && k.text[..7] == "Resume "
    ensures Regix.ResumeTaskId(k.data) == Some(taskId)
  {
    Regix.ResumeTaskIdRoundTrip(taskId);
    Key("Resume " + LastFour(taskId), Regix.ResumeData(taskId))
  }

  /**
   * A Resume button names its task: the corrected callback parse reads the
   * id back. Its label ends with the id's last four characters.
   */
  lemma ResumeKeyNamesTask(taskId: string)
    ensures Regix.ResumeTaskId(ResumeKey(taskId).data) == Some(taskId)
    ensures ResumeKey(taskId).text == "Resume " + taskId[|taskId| - (if |taskId| < 4 then |taskId| else 4)..]
  {
  }

  const CloseKey: Key := Key("Close", "close_btn")

  /** One Resume row per task whose status is active, paused or failed, in the order given. */
  function ResumeRows(tasks: seq<TaskRow>): (rows: seq<seq<Key>>)
    ensures |rows| <= |tasks|
  {
    if |tasks| == 0 then []
    else
      var last := tasks[|tasks| - 1];
      var rest := ResumeRows(tasks[..|tasks| - 1]);
      if Resumable(last.status) then rest + [[ResumeKey(last.taskId)]] else rest
  }

  /** When every task is resumable, row i is the Resume button of task i. */
  lemma {:induction false} ResumeRowsAll(tasks: seq<TaskRow>, i: int)
    requires forall j :: 0 <= j < |tasks| ==> Resumable(tasks[j].status)
    requires 0 <= i < |tasks|
    ensures |ResumeRows(tasks)| == |tasks|
    ensures ResumeRows(tasks)[i] == [ResumeKey(tasks[i].taskId)]
    decreases |tasks|
  {
    var init := tasks[..|tasks| - 1];
    if i < |tasks| - 1 {
      ResumeRowsAll(init, i);
      assert init[i] == tasks[i];
    } else if |init| > 0 {
      ResumeRowsAll(init, 0);
    }
  }

  /** The keyboard under the task list: the Resume rows and a Close row, or none when there is no button. */
  function TaskKeyboard(tasks: seq<TaskRow>): (k: Option<seq<seq<Key>>>)
    ensures k.None? <==> ResumeRows(tasks) == []
    ensures k.Some? ==> |k.value| == |ResumeRows(tasks)| + 1 && k.value[|k.value| - 1] == [CloseKey]
  {
    var rows := ResumeRows(tasks);
    if rows == [] then None else Some(rows + [[CloseKey]])
  }

  /**
   * The query behind `/tasks` only returns resumable tasks, so each listed
   * task has its Resume button, in the order listed, and the Close row is
   * always there.
   */
  lemma ListedTasksAllResumable(tasks: seq<TaskRow>, user: int, listed: seq<TaskRow>, i: int)
    requires forall t :: t in listed <==> t in tasks && Chosen(t, user)
    requires 0 <= i < |listed|
    ensures TaskKeyboard(listed).Some?
    ensures |TaskKeyboard(listed).value| == |listed| + 1
    ensures TaskKeyboard(listed).value[i] == [ResumeKey(listed[i].taskId)]
  {
    assert forall j :: 0 <= j < |listed| ==> Resumable(listed[j].status) by {
      forall j | 0 <= j < |listed| ensures Resumable(listed[j].status) {
        assert listed[j] in listed;
      }
    }
    ResumeRowsAll(listed, i);
  }

  /** Whether any task has status active. */
  function AnyActive(tasks: seq<TaskRow>): (b: bool)
    ensures b <==> exists i :: 0 <= i < |tasks| && tasks[i].status == Active
  {
    if |tasks| == 0 then false
    else if tasks[0].status == Active then true
    else
      var rest := AnyActive(tasks[1..]);
      assert rest ==> exists i :: 0 <= i < |tasks| && tasks[i].status == Active by {
        if rest {
          var i :| 0 <= i < |tasks[1..]| && tasks[1..][i].status == Active;
          assert tasks[i + 1].status == Active;
        }
      }
      assert (exists i :: 0 <= i < |tasks| && tasks[i].status == Active) ==> rest by {
        if exists i :: 0 <= i < |tasks| && tasks[i].status == Active {
          var i :| 0 <= i < |tasks| && tasks[i].status == Active;
          assert i > 0 && tasks[1..][i - 1].status == Active;
        }
      }
      rest
  }

  /** The user has a task row whose status is active. */
  predicate HasActiveTask(rows: seq<TaskRow>, user: int)
  {
    exists i :: 0 <= i < |rows| && rows[i].userId == user && rows[i].status == Active
  }

  /** The active test on the query result is the active test on the table. */
  lemma AnyActiveOfQuery(rows: seq<TaskRow>, user: int, listed: seq<TaskRow>)
    requires forall t :: t in listed <==> t in rows && Chosen(t, user)
    ensures AnyActive(listed) <==> HasActiveTask(rows, user)
  {
    if AnyActive(listed) {
      var i :| 0 <= i < |listed| && listed[i].status == Active;
      assert listed[i] in listed;
      var j :| 0 <= j < |rows| && rows[j] == listed[i];
    }
    if HasActiveTask(rows, user) {
      var j :| 0 <= j < |rows| && rows[j].userId == user && rows[j].status == Active;
      assert rows[j] in rows && Chosen(rows[j], user);
      var i :| 0 <= i < |listed| && listed[i] == rows[j];
    }
  }

  /** The loop of `tasks_command` that gathers the Resume rows. */
  method CollectResumeRows(tasks: seq<TaskRow>) returns (rows: seq<seq<Key>>)
    ensures rows == ResumeRows(tasks)
  {
    rows := [];
    var i := 0;
    while i < |tasks|
      invariant 0 <= i <= |tasks|
      invariant rows == ResumeRows(tasks[..i])
    {
      var next := tasks[..i + 1];
      assert next[..i] == tasks[..i] && next[i] == tasks[i];
      if Resumable(tasks[i].status) {
        rows := rows + [[ResumeKey(tasks[i].taskId)]];
      }
      i := i + 1;
    }
    assert tasks[..i] == tasks;
  }

  /** The step of the forward dialog: `{"step": "source"}`. */
  datatype ForwardStep = SourceStep

  datatype ForwardReply = NoBot | AlreadyActive | AskSource
  datatype CancelReply = DialogCancelled | WillCancel | NothingToCancel
  datatype TasksReply = NoTasks | TaskList(listed: seq<TaskRow>, keyboard: Option<seq<seq<Key>>>)

  class CommandPlugin {
    /** `FORWARD_STATE`: users inside the forward dialog. */
    var forwardState: map<int, ForwardStep>
    const db: Database
    const engine: Regix.Engine

    constructor(db: Database, engine: Regix.Engine)
      ensures this.db == db && this.engine == engine && forwardState == map[]
    {
      this.db := db;
      this.engine := engine;
      forwardState := map[];
    }

    /**
     * `/cancel`: a user in the forward dialog leaves it and nothing else
     * changes; otherwise a user with a cancel flag gets it raised; otherwise
     * nothing changes.
     */
    method CancelCommand(user: int) returns (r: CancelReply)
      modifies this`forwardState, engine`cancel
      ensures user in old(forwardState) ==>
        r == DialogCancelled && forwardState == old(forwardState) - {user} && engine.cancel == old(engine.cancel)
      ensures user !in old(forwardState) && user in old(engine.cancel) ==>
        r == WillCancel && forwardState == old(forwardState) && engine.cancel == old(engine.cancel)[user := true]
      ensures user !in old(forwardState) && user !in old(engine.cancel) ==>
        r == NothingToCancel && forwardState == old(forwardState) && engine.cancel == old(engine.cancel)
    {
      if user in forwardState {
        forwardState := forwardState - {user};
        r := DialogCancelled;
      } else if user in engine.cancel {
        engine.cancel := engine.cancel[user := true];
        r := WillCancel;
      } else {
        r := NothingToCancel;
      }
    }

    /**
     * `/forward`: no bot, or a task already active, and nothing changes;
     * otherwise the user enters the source step.
     */
    method ForwardCommand(user: int) returns (r: ForwardReply)
      modifies this`forwardState
      ensures r == NoBot <==> !db.IsBotExist(user)
      ensures r == AlreadyActive <==> db.IsBotExist(user) && HasActiveTask(db.tasks, user)
      ensures r == AskSource ==> forwardState == old(forwardState)[user := SourceStep]
      ensures r != AskSource ==> forwardState == old(forwardState)
    {
      var bot := db.GetBot(user);
      if bot.None? {
        return NoBot;
      }
      var tasks := db.GetUserActiveTasks(user);
      AnyActiveOfQuery(db.tasks, user, tasks);
      if AnyActive(tasks) {
        return AlreadyActive;
      }
      forwardState := forwardState[user := SourceStep];
      r := AskSource;
    }

    /**
     * `/tasks`: "no tasks" when the query is empty; otherwise the list, in
     * the query's order, with the keyboard of its Resume buttons.
     */
    method TasksCommand(user: int) returns (r: TasksReply)
      ensures r.NoTasks? <==> Selected(db.tasks, user) == []
      ensures r.TaskList? ==>
        multiset(r.listed) == multiset(Selected(db.tasks, user)) && NewestFirst(r.listed)
        && (forall t :: t in r.listed <==> t in db.tasks && Chosen(t, user))
        && r.keyboard == TaskKeyboard(r.listed)
    {
      var tasks := db.GetUserActiveTasks(user);
      if |tasks| == 0 {
        assert Selected(db.tasks, user) == [] by {
          assert |multiset(Selected(db.tasks, user))| == 0;
        }
        return NoTasks;
      }
      assert Selected(db.tasks, user) != [] by {
        assert tasks[0] in multiset(Selected(db.tasks, user));
      }
      var rows := CollectResumeRows(tasks);
      var keyboard: Option<seq<seq<Key>>> := None;
      if rows != [] {
        keyboard := Some(rows + [[CloseKey]]);
      }
      r := TaskList(tasks, keyboard);
    }
  }
}
