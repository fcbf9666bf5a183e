/**
 * The task engine: completing a task writes it back with its completion
 * flag set, reads the whole "all tasks with alerts" view back from the
 * store, and hands that view to the alarm scheduler, which replaces every
 * pending alarm with the ones the view calls for.
 *
 * The engine launches this on an I/O coroutine; here it is one sequential
 * method. The scheduler is seen only through the sets it was handed.
 */
module TaskEngine {
  import opened Types
  import opened Store

  /** The alarm scheduler as the engine sees it: every full set of tasks it was asked to arm. */
  class AlarmsHandler {
    var calls: seq<map<int, TaskWithAlerts>>

    constructor ()
      ensures calls == []
    {
      calls := [];
    }

    /** Replace the armed alarms with those of `tasks`. */
    method SetAlarms(tasks: map<int, TaskWithAlerts>)
      modifies this
      ensures calls == old(calls) + [tasks]
    {
      calls := calls + [tasks];
    }
  }

  /** The task as written back on completion: the flag set, every other field as given. */
  function MarkCompleted(t: Task): (r: Task)
    ensures r.isCompleted
    ensures r.(isCompleted := t.isCompleted) == t
    ensures t.isCompleted ==> r == t
  {
    t.(isCompleted := true)
  }

  class TaskEngine {
    const store: Database
    const alarms: AlarmsHandler

    constructor (store: Database, alarms: AlarmsHandler)
      ensures this.store == store && this.alarms == alarms
    {
      this.store := store;
      this.alarms := alarms;
    }

    /**
     * Write the task back completed, then read the view, then hand it to the
     * scheduler. A failed write stops before the read; a failed read stops
     * before the scheduler call. Exactly one task write is issued and no
     * alert row is written.
     */
    method CompleteTask(task: Task) returns (outcome: Outcome)
      requires Valid(store.db)
      modifies store, alarms
      ensures Valid(store.db)
      ensures store.readable == old(store.readable)
      ensures !Accepts(old(store.writeBudget), 1) ==>
        && outcome == Failed(WriteFailed)
        && store.db == old(store.db)
        && store.writeBudget == old(store.writeBudget)
        && store.log == old(store.log)
        && alarms.calls == old(alarms.calls)
      ensures Accepts(old(store.writeBudget), 1) ==>
        && store.db == UpsertTaskRow(old(store.db), MarkCompleted(task)).db
        && store.writeBudget == Spent(old(store.writeBudget), 1)
        && store.log == old(store.log) + [TaskWrite(MarkCompleted(task))]
        && (store.readable ==> outcome == Done && alarms.calls == old(alarms.calls) + [TasksWithAlerts(store.db)])
        && (!store.readable ==> outcome == Failed(ReadFailed) && alarms.calls == old(alarms.calls))
      ensures store.db.alerts == old(store.db.alerts)
    {
      var id := store.UpsertTask(MarkCompleted(task));
      if id.Err? {
        return Failed(id.error);
      }
      var snapshot := store.AllTasksWithAlerts();
      if snapshot.Err? {
        return Failed(snapshot.error);
      }
      alarms.SetAlarms(snapshot.value);
      outcome := Done;
    }
  }

  /**
   * The view handed to the scheduler after a completion holds the task
   * under the id the write used, completed and otherwise as given, with the
   * alerts that point at it; every other task is as it was.
   */
  lemma CompletedSnapshot(db: Db, task: Task)
    ensures var up := UpsertTaskRow(db, MarkCompleted(task));
      var view := TasksWithAlerts(up.db);
      && up.id in view
      && view[up.id].task.isCompleted
      && view[up.id].task == task.(id := Some(up.id), isCompleted := true)
      && view[up.id].alerts == AlertsOf(db.alerts, up.id)
      && (forall k :: k in db.tasks && k != up.id ==> k in view && view[k].task == db.tasks[k])
  {
  }

  /**
   * Completing a stored task twice leaves the store as completing it once,
   * so the second view handed to the scheduler equals the first.
   */
  lemma CompleteTwice(db: Db, task: Task)
    requires task.id.Some?
    ensures var once := UpsertTaskRow(db, MarkCompleted(task)).db;
      var twice := UpsertTaskRow(once, MarkCompleted(task)).db;
      twice == once && TasksWithAlerts(twice) == TasksWithAlerts(once)
  {
  }

  /** Completing a stored task that is already completed changes nothing in a valid store. */
  lemma CompleteCompletedIsNoop(db: Db, task: Task)
    requires Valid(db) && task.id.Some? && task.id.value in db.tasks
    requires db.tasks[task.id.value] == task && task.isCompleted
    ensures UpsertTaskRow(db, MarkCompleted(task)).db == db
  {
  }

  /**
   * A task that has no id yet is inserted anew on each completion: two
   * completions of the same value leave two distinct completed rows.
   */
  lemma CompleteUnsavedTwice(db: Db, task: Task)
    requires Valid(db) && task.id.None?
    ensures var first := UpsertTaskRow(db, MarkCompleted(task));
      var second := UpsertTaskRow(first.db, MarkCompleted(task));
      && first.id != second.id
      && first.id in second.db.tasks && second.id in second.db.tasks
      && second.db.tasks[first.id].isCompleted && second.db.tasks[second.id].isCompleted
  {
    UpsertTaskRowValid(db, MarkCompleted(task));
  }
}
