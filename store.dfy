/**
 * The task and alert repositories, as one abstract in-memory database.
 *
 * Both repositories of the app sit on the same database: the task
 * repository writes task rows and reads every task joined with its alerts,
 * the alert repository writes alert rows. A row without an id receives a
 * fresh one (one above every id handed out so far, as a row id is); a row
 * with an id replaces whatever is stored under it.
 *
 * Storage can fail. `writeBudget` says how many further writes succeed
 * (None: all of them) and `readable` whether the joined read succeeds; both
 * stand for an environment the model does not otherwise describe.
 */
module Store {
  import opened Types

  /** The stored rows, keyed by id, and the next ids to hand out. */
  datatype Db = Db(
    tasks: map<int, Task>,
    alerts: map<int, Alert>,
    nextTaskId: int,
    nextAlertId: int
  )

  /** Every row sits under its own id, below the next id to hand out. */
  ghost predicate Valid(db: Db) {
    && (forall k :: k in db.tasks ==> k < db.nextTaskId && db.tasks[k].id == Some(k))
    && (forall k :: k in db.alerts ==> k < db.nextAlertId && db.alerts[k].alertId == Some(k))
  }

  /** The database after an upsert, and the id the upsert returned. */
  datatype Upserted = Upserted(db: Db, id: int)

  function Max(a: int, b: int): int { if a < b then b else a }

  /** Insert-or-replace of a task row. */
  function UpsertTaskRow(db: Db, t: Task): (r: Upserted)
    ensures t.id.Some? ==> r.id == t.id.value
    ensures t.id.None? && Valid(db) ==> r.id !in db.tasks
    ensures r.db.tasks == db.tasks[r.id := t.(id := Some(r.id))]
    ensures r.db.alerts == db.alerts && r.db.nextAlertId == db.nextAlertId
  {
    var id := if t.id.Some? then t.id.value else db.nextTaskId;
    Upserted(db.(tasks := db.tasks[id := t.(id := Some(id))], nextTaskId := Max(db.nextTaskId, id + 1)), id)
  }

  /** Insert-or-replace of an alert row. */
  function UpsertAlertRow(db: Db, a: Alert): (r: Upserted)
    ensures a.alertId.Some? ==> r.id == a.alertId.value
    ensures a.alertId.None? ==> r.id == db.nextAlertId && r.db.nextAlertId == db.nextAlertId + 1
    ensures a.alertId.None? && Valid(db) ==> r.id !in db.alerts
    ensures r.db.alerts == db.alerts[r.id := a.(alertId := Some(r.id))]
    ensures r.db.tasks == db.tasks && r.db.nextTaskId == db.nextTaskId
  {
    var id := if a.alertId.Some? then a.alertId.value else db.nextAlertId;
    Upserted(db.(alerts := db.alerts[id := a.(alertId := Some(id))], nextAlertId := Max(db.nextAlertId, id + 1)), id)
  }

  /** Upserting a task keeps every row under its own id and below the next id. */
  lemma UpsertTaskRowValid(db: Db, t: Task)
    requires Valid(db)
    ensures Valid(UpsertTaskRow(db, t).db)
  {
  }

  /** Upserting an alert keeps every row under its own id and below the next id. */
  lemma UpsertAlertRowValid(db: Db, a: Alert)
    requires Valid(db)
    ensures Valid(UpsertAlertRow(db, a).db)
  {
  }

  /** The database after upserting the alerts of `s` one after another, in order. */
  function WriteAlerts(db: Db, s: seq<Alert>): Db
  {
    if s == [] then db else UpsertAlertRow(WriteAlerts(db, s[..|s| - 1]), s[|s| - 1]).db
  }

  /** Writing one more alert of a batch is one more upsert on top of the earlier ones. */
  lemma WriteAlertsSnoc(db: Db, s: seq<Alert>, i: nat)
    requires i < |s|
    ensures WriteAlerts(db, s[..i + 1]) == UpsertAlertRow(WriteAlerts(db, s[..i]), s[i]).db
  {
    assert s[..i + 1][..i] == s[..i];
  }

  /** A batch of alerts that have no id yet. */
  predicate AllNew(s: seq<Alert>) {
    forall i :: 0 <= i < |s| ==> s[i].alertId.None?
  }

  /**
   * Writing a batch of new alerts hands out exactly one alert id per alert
   * and leaves the task rows alone.
   */
  lemma {:induction false} WriteAlertsCounts(db: Db, s: seq<Alert>)
    requires AllNew(s)
    ensures WriteAlerts(db, s).nextAlertId == db.nextAlertId + |s|
    ensures WriteAlerts(db, s).tasks == db.tasks && WriteAlerts(db, s).nextTaskId == db.nextTaskId
  {
    if s != [] {
      var n := |s| - 1;
      assert AllNew(s[..n]);
      WriteAlertsCounts(db, s[..n]);
      assert s[n].alertId.None?;
    }
  }

  /**
   * After writing a batch of new alerts the stored alert ids are the old
   * ones plus the block of consecutive ids just handed out, and every row
   * outside that block is as it was.
   */
  lemma {:induction false} WriteAlertsKeeps(db: Db, s: seq<Alert>)
    requires AllNew(s)
    ensures forall k :: k in WriteAlerts(db, s).alerts <==> k in db.alerts || db.nextAlertId <= k < db.nextAlertId + |s|
    ensures forall k :: k in db.alerts && !(db.nextAlertId <= k < db.nextAlertId + |s|) ==>
      WriteAlerts(db, s).alerts[k] == db.alerts[k]
  {
    if s != [] {
      var n := |s| - 1;
      assert AllNew(s[..n]);
      WriteAlertsKeeps(db, s[..n]);
      WriteAlertsCounts(db, s[..n]);
      assert s[n].alertId.None?;
    }
  }

  /** The i-th alert of a batch is stored under id base + i, with that id filled in. */
  ghost predicate StoredAt(alerts: map<int, Alert>, base: int, s: seq<Alert>, i: int)
    requires 0 <= i < |s|
  {
    base + i in alerts && alerts[base + i] == s[i].(alertId := Some(base + i))
  }

  /** The i-th alert of a batch of new alerts is stored under the i-th new id, in list order. */
  lemma {:induction false} WriteAlertsRows(db: Db, s: seq<Alert>)
    requires AllNew(s)
    ensures forall i :: 0 <= i < |s| ==> StoredAt(WriteAlerts(db, s).alerts, db.nextAlertId, s, i)
  {
    if s != [] {
      var n := |s| - 1;
      var init := s[..n];
      assert AllNew(init);
      WriteAlertsRows(db, init);
      WriteAlertsCounts(db, init);
      var mid := WriteAlerts(db, init);
      assert s[n].alertId.None?;
      assert WriteAlerts(db, s).alerts == mid.alerts[mid.nextAlertId := s[n].(alertId := Some(mid.nextAlertId))];
      forall i | 0 <= i < |s|
        ensures StoredAt(WriteAlerts(db, s).alerts, db.nextAlertId, s, i)
      {
        if i < n {
          assert StoredAt(mid.alerts, db.nextAlertId, init, i);
          assert init[i] == s[i];
        }
      }
    }
  }

  /** Writing alerts keeps the store valid. */
  lemma {:induction false} WriteAlertsValid(db: Db, s: seq<Alert>)
    requires Valid(db)
    ensures Valid(WriteAlerts(db, s))
  {
    if s != [] {
      WriteAlertsValid(db, s[..|s| - 1]);
      UpsertAlertRowValid(WriteAlerts(db, s[..|s| - 1]), s[|s| - 1]);
    }
  }

  /** The alerts stored for one task: every alert row whose owner is that task. */
  function AlertsOf(alerts: map<int, Alert>, taskId: int): (r: map<int, Alert>)
    ensures forall k :: k in r <==> k in alerts && alerts[k].taskId == Some(taskId)
    ensures forall k :: k in r ==> r[k] == alerts[k]
  {
    map k | k in alerts && alerts[k].taskId == Some(taskId) :: alerts[k]
  }

  /** The "all tasks with alerts" view: every task row joined with its alerts. */
  function TasksWithAlerts(db: Db): (r: map<int, TaskWithAlerts>)
    ensures r.Keys == db.tasks.Keys
    ensures forall id :: id in r ==> r[id].task == db.tasks[id] && r[id].alerts == AlertsOf(db.alerts, id)
  {
    map id | id in db.tasks :: TaskWithAlerts(db.tasks[id], AlertsOf(db.alerts, id))
  }

  /** Whether a write budget lets `n` more writes through. */
  predicate Accepts(budget: Option<nat>, n: nat) {
    budget.None? || n <= budget.value
  }

  /** The budget after n successful writes. */
  function Spent(budget: Option<nat>, n: nat): Option<nat>
    requires Accepts(budget, n)
  {
    if budget.None? then None else Some(budget.value - n)
  }

  /** One write the repositories were asked to perform, with the row as it was handed over. */
  datatype Write = TaskWrite(task: Task) | AlertWrite(alert: Alert)

  /** The log entries of upserting the alerts of `s`, in order. */
  function AlertWrites(s: seq<Alert>): (r: seq<Write>)
    ensures |r| == |s|
    ensures forall i :: 0 <= i < |s| ==> r[i] == AlertWrite(s[i])
  {
    seq(|s|, i requires 0 <= i < |s| => AlertWrite(s[i]))
  }

  /** Logging one more alert of a batch appends its entry. */
  lemma AlertWritesSnoc(s: seq<Alert>, i: nat)
    requires i < |s|
    ensures AlertWrites(s[..i + 1]) == AlertWrites(s[..i]) + [AlertWrite(s[i])]
  {
    assert forall j :: 0 <= j < i + 1 ==> AlertWrites(s[..i + 1])[j] == (AlertWrites(s[..i]) + [AlertWrite(s[i])])[j];
  }

  class Database {
    var db: Db
    var writeBudget: Option<nat>
    var readable: bool
    /** Every write that went through, in the order it was issued. */
    ghost var log: seq<Write>

    /** A store over rows that satisfy the store invariant. */
    constructor (initial: Db, budget: Option<nat>, canRead: bool)
      requires Valid(initial)
      ensures Valid(db)
      ensures db == initial && writeBudget == budget && readable == canRead && log == []
    {
      db := initial;
      writeBudget := budget;
      readable := canRead;
      log := [];
    }

    /**
     * The task repository's upsert: the returned id, or a failure that
     * writes nothing. A store that satisfies the invariant still does after.
     */
    method UpsertTask(t: Task) returns (r: Result<int>)
      modifies this
      ensures Valid(old(db)) ==> Valid(db)
      ensures readable == old(readable)
      ensures !Accepts(old(writeBudget), 1) ==>
        r == Err(WriteFailed) && db == old(db) && writeBudget == old(writeBudget) && log == old(log)
      ensures Accepts(old(writeBudget), 1) ==>
        && r == Ok(UpsertTaskRow(old(db), t).id)
        && db == UpsertTaskRow(old(db), t).db
        && writeBudget == Spent(old(writeBudget), 1)
        && log == old(log) + [TaskWrite(t)]
    {
      if !Accepts(writeBudget, 1) {
        return Err(WriteFailed);
      }
      if Valid(db) {
        UpsertTaskRowValid(db, t);
      }
      var up := UpsertTaskRow(db, t);
      db := up.db;
      writeBudget := Spent(writeBudget, 1);
      log := log + [TaskWrite(t)];
      r := Ok(up.id);
    }

    /**
     * The alert repository's upsert: the returned id, or a failure that
     * writes nothing. A store that satisfies the invariant still does after.
     */
    method UpsertAlert(a: Alert) returns (r: Result<int>)
      modifies this
      ensures Valid(old(db)) ==> Valid(db)
      ensures readable == old(readable)
      ensures !Accepts(old(writeBudget), 1) ==>
        r == Err(WriteFailed) && db == old(db) && writeBudget == old(writeBudget) && log == old(log)
      ensures Accepts(old(writeBudget), 1) ==>
        && r == Ok(UpsertAlertRow(old(db), a).id)
        && db == UpsertAlertRow(old(db), a).db
        && writeBudget == Spent(old(writeBudget), 1)
        && log == old(log) + [AlertWrite(a)]
    {
      if !Accepts(writeBudget, 1) {
        return Err(WriteFailed);
      }
      if Valid(db) {
        UpsertAlertRowValid(db, a);
      }
      var up := UpsertAlertRow(db, a);
      db := up.db;
      writeBudget := Spent(writeBudget, 1);
      log := log + [AlertWrite(a)];
      r := Ok(up.id);
    }

    /** One read of the "all tasks with alerts" view of the current rows. */
    method AllTasksWithAlerts() returns (r: Result<map<int, TaskWithAlerts>>)
      ensures readable ==> r == Ok(TasksWithAlerts(db))
      ensures !readable ==> r == Err(ReadFailed)
    {
      if readable {
        r := Ok(TasksWithAlerts(db));
      } else {
        r := Err(ReadFailed);
      }
    }
  }
}
