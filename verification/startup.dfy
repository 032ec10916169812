/**
 * The demotion loops of `main` in new_bot/main.py: after the bot starts, and
 * again when it stops, every task the active-task query returns with status
 * active is set to paused, so that it can be resumed later.
 *
 * The query is issued for user 0 only. `DemoteActiveTasks` is the loop for
 * any queried user; `RunMain` runs it as the file does, and
 * `DemoteEveryUser` is the demotion the comments describe ("Get all active
 * tasks").
 */
module Startup {
  import opened Common
  import opened Db

  /** The rows with the given ids set to paused, every other field kept. */
  function Mark(rows: seq<TaskRow>, ids: set<string>): (r: seq<TaskRow>)
    ensures |r| == |rows|
  {
    seq(|rows|, i requires 0 <= i < |rows| =>
      if rows[i].taskId in ids then rows[i].(status := Paused) else rows[i])
  }

  /** The table after demoting one user's active tasks. */
  function DemoteRows(rows: seq<TaskRow>, userId: int): (r: seq<TaskRow>)
    ensures |r| == |rows|
  {
    seq(|rows|, i requires 0 <= i < |rows| =>
      if rows[i].userId == userId && rows[i].status == Active then rows[i].(status := Paused) else rows[i])
  }

  /** The ids of the active rows of a query result. */
  function ActiveIds(sel: seq<TaskRow>): set<string>
  {
    set t | t in sel && t.status == Active :: t.taskId
  }

  lemma MarkStep(rows: seq<TaskRow>, ids: set<string>, id: string)
    ensures SetStatus(Mark(rows, ids), id, Paused, None) == Mark(rows, ids + {id})
  {
  }

  /** With unique ids, marking the active ids of the query result demotes exactly that user's active rows. */
  lemma MarkSelected(rows: seq<TaskRow>, sel: seq<TaskRow>, userId: int)
    requires UniqueTaskIds(rows)
    requires forall t :: t in sel <==> t in rows && Chosen(t, userId)
    ensures Mark(rows, ActiveIds(sel)) == DemoteRows(rows, userId)
  {
    forall i | 0 <= i < |rows|
      ensures Mark(rows, ActiveIds(sel))[i] == DemoteRows(rows, userId)[i]
    {
      if rows[i].userId == userId && rows[i].status == Active {
        assert rows[i] in sel;
      }
      if rows[i].taskId in ActiveIds(sel) {
        var t :| t in sel && t.status == Active && t.taskId == rows[i].taskId;
        var k :| 0 <= k < |rows| && rows[k] == t;
        assert rows[k].taskId == rows[i].taskId;
      }
    }
  }

  /**
   * One demotion loop: the query for `userId`, then `update_task_status(id,
   * "paused")` for each returned row that is active. It leaves the table as
   * `DemoteRows` describes.
   */
  method DemoteActiveTasks(db: Database, userId: int)
    requires db.Valid()
    modifies db
    ensures db.Valid()
    ensures db.tasks == DemoteRows(old(db.tasks), userId)
    ensures db.users == old(db.users) && db.bots == old(db.bots) && db.channels == old(db.channels)
  {
    var rows := db.tasks;
    var active := db.GetUserActiveTasks(userId);
    ghost var done: set<string> := {};
    var i := 0;
    while i < |active|
      invariant 0 <= i <= |active|
      invariant db.Valid()
      invariant done == ActiveIds(active[..i])
      invariant db.tasks == Mark(rows, done)
      invariant db.users == old(db.users) && db.bots == old(db.bots) && db.channels == old(db.channels)
    {
      var task := active[i];
      assert active[..i + 1] == active[..i] + [task];
      if task.status == Active {
        MarkStep(rows, done, task.taskId);
        db.UpdateTaskStatus(task.taskId, Paused, None);
        done := done + {task.taskId};
      }
      i := i + 1;
    }
    assert active[..i] == active;
    MarkSelected(rows, active, userId);
  }

  /** `main` as written: the demotion for user 0 at start-up and again at shutdown. */
  method RunMain(db: Database)
    requires db.Valid()
    modifies db
    ensures db.Valid()
    ensures db.tasks == DemoteRows(old(db.tasks), 0)
    ensures db.users == old(db.users) && db.bots == old(db.bots) && db.channels == old(db.channels)
  {
    DemoteActiveTasks(db, 0);
    DemoteActiveTasks(db, 0);
    DemoteIdempotent(old(db.tasks), 0);
  }

  // ---------------------------------------------------------------------
  // What a demotion does to the table
  // ---------------------------------------------------------------------

  /**
   * The user's active rows become paused; paused, failed and finished rows,
   * and the rows of other users, are left as they were; no row's id or
   * checkpoint changes, since no message id is passed.
   */
  lemma DemoteFacts(rows: seq<TaskRow>, userId: int)
    ensures forall i :: 0 <= i < |rows| ==>
      var r := DemoteRows(rows, userId)[i];
      r.taskId == rows[i].taskId && r.lastForwardedMsgId == rows[i].lastForwardedMsgId
      && (rows[i].userId == userId && rows[i].status == Active ==> r.status == Paused)
      && (rows[i].userId != userId || rows[i].status != Active ==> r == rows[i])
    ensures forall i :: 0 <= i < |rows| && rows[i].userId == userId ==> DemoteRows(rows, userId)[i].status != Active
  {
  }

  /** Running the demotion again (the shutdown pass) changes nothing more. */
  lemma DemoteIdempotent(rows: seq<TaskRow>, userId: int)
    ensures DemoteRows(DemoteRows(rows, userId), userId) == DemoteRows(rows, userId)
  {
  }

  /**
   * As written: a task of any user other than 0 that was active when the
   * bot stopped is still active after both passes.
   */
  lemma OtherUsersStayActive(rows: seq<TaskRow>, i: int)
    requires 0 <= i < |rows| && rows[i].userId != 0 && rows[i].status == Active
    ensures DemoteRows(DemoteRows(rows, 0), 0)[i].status == Active
  {
  }

  /** The concrete case: user 7's active task "task_0000abcd" survives start-up. */
  lemma OtherUsersStayActiveExample()
    ensures var row := TaskRow("task_0000abcd", 7, "-100", "-200", None, Some(41), 100, 0,
                               EmptyTaskConfigs, Active, 0);
            DemoteRows([row], 0) == [row]
  {
  }

  // ---------------------------------------------------------------------
  // The demotion the comments describe: every user's active tasks
  // ---------------------------------------------------------------------

  /** Every active row set to paused. */
  function DemoteAll(rows: seq<TaskRow>): (r: seq<TaskRow>)
    ensures |r| == |rows|
  {
    seq(|rows|, i requires 0 <= i < |rows| =>
      if rows[i].status == Active then rows[i].(status := Paused) else rows[i])
  }

  /** After the corrected demotion no task is active, and only active rows changed, only in status. */
  lemma DemoteAllFacts(rows: seq<TaskRow>)
    ensures forall i :: 0 <= i < |rows| ==> DemoteAll(rows)[i].status != Active
    ensures forall i :: 0 <= i < |rows| && rows[i].status != Active ==> DemoteAll(rows)[i] == rows[i]
    ensures forall i :: 0 <= i < |rows| ==> DemoteAll(rows)[i] == rows[i].(status := DemoteAll(rows)[i].status)
  {
  }

  /**
   * The corrected loop: every row of the table is visited, and each active
   * one is set to paused.
   */
  method DemoteEveryUser(db: Database)
    requires db.Valid()
    modifies db
    ensures db.Valid()
    ensures db.tasks == DemoteAll(old(db.tasks))
    ensures forall t :: t in db.tasks ==> t.status != Active
    ensures db.users == old(db.users) && db.bots == old(db.bots) && db.channels == old(db.channels)
  {
    var rows := db.tasks;
    ghost var done: set<string> := {};
    var i := 0;
    while i < |rows|
      invariant 0 <= i <= |rows|
      invariant db.Valid()
      invariant done == ActiveIds(rows[..i])
      invariant db.tasks == Mark(rows, done)
      invariant db.users == old(db.users) && db.bots == old(db.bots) && db.channels == old(db.channels)
    {
      var task := rows[i];
      assert rows[..i + 1] == rows[..i] + [task];
      if task.status == Active {
        MarkStep(rows, done, task.taskId);
        db.UpdateTaskStatus(task.taskId, Paused, None);
        done := done + {task.taskId};
      }
      i := i + 1;
    }
    assert rows[..i] == rows;
    forall k | 0 <= k < |rows| ensures Mark(rows, done)[k] == DemoteAll(rows)[k] {
      if rows[k].taskId in done {
        var t :| t in rows && t.status == Active && t.taskId == rows[k].taskId;
        var m :| 0 <= m < |rows| && rows[m] == t;
        assert rows[m].taskId == rows[k].taskId;
      }
    }
    DemoteAllFacts(rows);
  }
}
