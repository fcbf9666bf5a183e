/**
 * The home screen's view model: the draft task shown in the creation sheet
 * (updated one field at a time), the sheet's visibility flag, and the
 * creation flow that expands the requested alerts, writes the task and then
 * writes every alert tied to the task's id, raising a loading flag around
 * the writes.
 *
 * The creation flow runs in a coroutine in the app; here it is one
 * sequential method. The ISO-8601 text of "now" and the conversion of a
 * local date-time to epoch milliseconds through the device's time zone are
 * parameters (`today`, `toEpoch`).
 */
module HomeScreen {
  import opened Types
  import opened Store
  import opened AlertExpansion

  /** The draft of the task being created: its base record and its alert choices. */
  datatype MockTaskProperties = MockTaskProperties(
    baseTask: Task,
    alertTypes: seq<AlertType>,
    alertTriggers: seq<AlertTrigger>,
    alertEventMillisInEpoch: Option<int>,
    alertInterval: Option<int>,
    alertSelectedMultipleTimes: Option<seq<LocalDateTime>>
  )

  /** What the home screen shows, besides the reactive list of stored tasks. */
  datatype HomeScreenUIState = HomeScreenUIState(
    isLoading: bool,
    shouldShowDrawer: bool,
    mockTaskProperties: MockTaskProperties
  )

  /**
   * A change of the loading flag, placed among the store writes: how many
   * writes the store had logged when the flag took the value.
   */
  datatype FlagChange = FlagChange(isLoading: bool, writesBefore: nat)

  /** s and r differ at most in the draft. */
  ghost predicate OnlyDraftChanged(s: HomeScreenUIState, r: HomeScreenUIState) {
    r.(mockTaskProperties := s.mockTaskProperties) == s
  }

  /** s and r differ at most in the draft's base task. */
  ghost predicate OnlyBaseTaskChanged(s: HomeScreenUIState, r: HomeScreenUIState) {
    && OnlyDraftChanged(s, r)
    && r.mockTaskProperties.(baseTask := s.mockTaskProperties.baseTask) == s.mockTaskProperties
  }

  function WithTaskDescription(s: HomeScreenUIState, description: string): (r: HomeScreenUIState)
    ensures r.mockTaskProperties.baseTask.description == description
    ensures r.mockTaskProperties.baseTask.(description := s.mockTaskProperties.baseTask.description)
         == s.mockTaskProperties.baseTask
    ensures OnlyBaseTaskChanged(s, r)
  {
    s.(mockTaskProperties := s.mockTaskProperties.(baseTask := s.mockTaskProperties.baseTask.(description := description)))
  }

  function WithTaskType(s: HomeScreenUIState, taskType: TaskType): (r: HomeScreenUIState)
    ensures r.mockTaskProperties.baseTask.taskType == taskType
    ensures r.mockTaskProperties.baseTask.(taskType := s.mockTaskProperties.baseTask.taskType)
         == s.mockTaskProperties.baseTask
    ensures OnlyBaseTaskChanged(s, r)
  {
    s.(mockTaskProperties := s.mockTaskProperties.(baseTask := s.mockTaskProperties.baseTask.(taskType := taskType)))
  }

  function WithTaskPriority(s: HomeScreenUIState, priority: TaskPriority): (r: HomeScreenUIState)
    ensures r.mockTaskProperties.baseTask.priority == priority
    ensures r.mockTaskProperties.baseTask.(priority := s.mockTaskProperties.baseTask.priority)
         == s.mockTaskProperties.baseTask
    ensures OnlyBaseTaskChanged(s, r)
  {
    s.(mockTaskProperties := s.mockTaskProperties.(baseTask := s.mockTaskProperties.baseTask.(priority := priority)))
  }

  function WithAlertTypes(s: HomeScreenUIState, alertTypes: seq<AlertType>): (r: HomeScreenUIState)
    ensures r.mockTaskProperties.alertTypes == alertTypes
    ensures r.mockTaskProperties.(alertTypes := s.mockTaskProperties.alertTypes) == s.mockTaskProperties
    ensures OnlyDraftChanged(s, r)
  {
    s.(mockTaskProperties := s.mockTaskProperties.(alertTypes := alertTypes))
  }

  function WithAlertTriggers(s: HomeScreenUIState, alertTriggers: seq<AlertTrigger>): (r: HomeScreenUIState)
    ensures r.mockTaskProperties.alertTriggers == alertTriggers
    ensures r.mockTaskProperties.(alertTriggers := s.mockTaskProperties.alertTriggers) == s.mockTaskProperties
    ensures OnlyDraftChanged(s, r)
  {
    s.(mockTaskProperties := s.mockTaskProperties.(alertTriggers := alertTriggers))
  }

  function WithEventMillis(s: HomeScreenUIState, millis: int): (r: HomeScreenUIState)
    ensures r.mockTaskProperties.alertEventMillisInEpoch == Some(millis)
    ensures r.mockTaskProperties.(alertEventMillisInEpoch := s.mockTaskProperties.alertEventMillisInEpoch)
         == s.mockTaskProperties
    ensures OnlyDraftChanged(s, r)
  {
    s.(mockTaskProperties := s.mockTaskProperties.(alertEventMillisInEpoch := Some(millis)))
  }

  function WithInterval(s: HomeScreenUIState, interval: int): (r: HomeScreenUIState)
    ensures r.mockTaskProperties.alertInterval == Some(interval)
    ensures r.mockTaskProperties.(alertInterval := s.mockTaskProperties.alertInterval) == s.mockTaskProperties
    ensures OnlyDraftChanged(s, r)
  {
    s.(mockTaskProperties := s.mockTaskProperties.(alertInterval := Some(interval)))
  }

  /** Choosing several date-times sets the list and the interval together. */
  function WithSelectedTimes(s: HomeScreenUIState, times: seq<LocalDateTime>, interval: int): (r: HomeScreenUIState)
    ensures r.mockTaskProperties.alertSelectedMultipleTimes == Some(times)
    ensures r.mockTaskProperties.alertInterval == Some(interval)
    ensures r.mockTaskProperties.(alertSelectedMultipleTimes := s.mockTaskProperties.alertSelectedMultipleTimes,
                                  alertInterval := s.mockTaskProperties.alertInterval)
         == s.mockTaskProperties
    ensures OnlyDraftChanged(s, r)
  {
    s.(mockTaskProperties := s.mockTaskProperties.(alertInterval := Some(interval), alertSelectedMultipleTimes := Some(times)))
  }

  function WithDrawer(s: HomeScreenUIState, shown: bool): (r: HomeScreenUIState)
    ensures r.shouldShowDrawer == shown
    ensures r.(shouldShowDrawer := s.shouldShowDrawer) == s
  {
    s.(shouldShowDrawer := shown)
  }

  function WithLoading(s: HomeScreenUIState, loading: bool): (r: HomeScreenUIState)
    ensures r.isLoading == loading
    ensures r.(isLoading := s.isLoading) == s
  {
    s.(isLoading := loading)
  }

  /**
   * Kotlin's Long.toInt(): keeps the low 32 bits as a two's-complement Int.
   * The task id the store returns is a Long; the alert's task id is an Int.
   */
  function ToInt(x: int): (r: int)
    ensures -0x8000_0000 <= r < 0x8000_0000
    ensures (x - r) % 0x1_0000_0000 == 0
    ensures -0x8000_0000 <= x < 0x8000_0000 ==> r == x
  {
    (x + 0x8000_0000) % 0x1_0000_0000 - 0x8000_0000
  }

  /** The task a creation writes: no id yet, not completed, stamped with `today`. */
  function NewTask(description: string, today: string, taskType: TaskType, priority: TaskPriority): Task {
    Task(None, description, today, taskType, priority, false)
  }

  /** The alerts of a creation, each tied to the task id. */
  function Owned(alerts: seq<Alert>, taskId: int): (r: seq<Alert>)
    ensures |r| == |alerts|
    ensures forall i :: 0 <= i < |r| ==> r[i] == alerts[i].(taskId := Some(taskId))
  {
    seq(|alerts|, i requires 0 <= i < |alerts| => alerts[i].(taskId := Some(taskId)))
  }

  /**
   * How many of `count` writes, issued one after another and stopped at the
   * first failure, go through on the given budget.
   */
  function Written(budget: Option<nat>, count: nat): (r: nat)
    ensures r <= count
    ensures r == count <==> Accepts(budget, count)
    ensures r < count ==> Accepts(budget, r) && !Accepts(budget, r + 1)
  {
    if Accepts(budget, count) then count else budget.value
  }

  /** A write loop that stops after i writes, at the end or at a refused write, wrote Written of them. */
  lemma WrittenStops(budget: Option<nat>, count: nat, i: nat)
    requires i <= count && Accepts(budget, i)
    requires i == count || !Accepts(Spent(budget, i), 1)
    ensures Written(budget, count) == i
  {
  }

  /** The alerts a creation writes have no id yet, so the store hands each a fresh one. */
  lemma OwnedBatchNew(types: seq<AlertType>, triggers: seq<AlertTrigger>, t: Timing, taskId: int, m: nat)
    requires m <= |Expanded(types, triggers, t)|
    ensures AllNew(Owned(Expanded(types, triggers, t), taskId)[..m])
  {
    var e := Expanded(types, triggers, t);
    ExpandedMembers(types, triggers, t);
    forall i | 0 <= i < m
      ensures Owned(e, taskId)[..m][i].alertId.None?
    {
      assert e[i] in e;
    }
  }

  /**
   * What a creation leaves in a valid store once the task write and the
   * first m alert writes went through: the task under a fresh id, with the
   * given fields and not completed; the m alerts under the next m alert ids,
   * in expansion order, each tied to the task; every earlier row untouched.
   */
  lemma CreatedRows(
    db: Db, description: string, today: string, taskType: TaskType, priority: TaskPriority,
    types: seq<AlertType>, triggers: seq<AlertTrigger>, t: Timing, m: nat
  )
    requires Valid(db)
    requires m <= |Expanded(types, triggers, t)|
    ensures var up := UpsertTaskRow(db, NewTask(description, today, taskType, priority));
      var w := WriteAlerts(up.db, Owned(Expanded(types, triggers, t), ToInt(up.id))[..m]);
      && up.id !in db.tasks
      && w.tasks == db.tasks[up.id := Task(Some(up.id), description, today, taskType, priority, false)]
      && w.nextAlertId == db.nextAlertId + m
      && (forall k :: k in w.alerts <==> k in db.alerts || db.nextAlertId <= k < db.nextAlertId + m)
      && (forall k :: k in db.alerts ==> w.alerts[k] == db.alerts[k])
  {
    var up := UpsertTaskRow(db, NewTask(description, today, taskType, priority));
    var batch := Owned(Expanded(types, triggers, t), ToInt(up.id))[..m];
    OwnedBatchNew(types, triggers, t, ToInt(up.id), m);
    WriteAlertsCounts(up.db, batch);
    WriteAlertsKeeps(up.db, batch);
  }

  /**
   * The i-th alert a creation writes is the i-th alert of the expansion,
   * tied to the task id the task write returned, stored under the i-th
   * fresh alert id.
   */
  lemma CreatedAlertRows(
    db: Db, task: Task, types: seq<AlertType>, triggers: seq<AlertTrigger>, t: Timing, m: nat, i: nat
  )
    requires m <= |Expanded(types, triggers, t)| && i < m
    ensures var up := UpsertTaskRow(db, task);
      var w := WriteAlerts(up.db, Owned(Expanded(types, triggers, t), ToInt(up.id))[..m]);
      && db.nextAlertId + i in w.alerts
      && w.alerts[db.nextAlertId + i]
         == Expanded(types, triggers, t)[i].(taskId := Some(ToInt(up.id)), alertId := Some(db.nextAlertId + i))
  {
    var up := UpsertTaskRow(db, task);
    var batch := Owned(Expanded(types, triggers, t), ToInt(up.id))[..m];
    OwnedBatchNew(types, triggers, t, ToInt(up.id), m);
    WriteAlertsRows(up.db, batch);
    assert StoredAt(WriteAlerts(up.db, batch).alerts, up.db.nextAlertId, batch, i);
  }

  class HomeScreenViewModel {
    const store: Database
    /** The priority Task declares as its default; creation does not set one. */
    const defaultPriority: TaskPriority
    var uiState: HomeScreenUIState
    /** Every change of the loading flag so far, in order. */
    ghost var flagChanges: seq<FlagChange>

    constructor (store: Database, defaultPriority: TaskPriority, initial: HomeScreenUIState)
      ensures this.store == store && this.defaultPriority == defaultPriority
      ensures uiState == initial && flagChanges == []
    {
      this.store := store;
      this.defaultPriority := defaultPriority;
      uiState := initial;
      flagChanges := [];
    }

    method UpdateMockTaskDescription(description: string)
      modifies this
      ensures uiState == WithTaskDescription(old(uiState), description) && flagChanges == old(flagChanges)
    {
      uiState := WithTaskDescription(uiState, description);
    }

    method UpdateMockAlertTypes(alertTypes: seq<AlertType>)
      modifies this
      ensures uiState == WithAlertTypes(old(uiState), alertTypes) && flagChanges == old(flagChanges)
    {
      uiState := WithAlertTypes(uiState, alertTypes);
    }

    method UpdateMockTaskType(taskType: TaskType)
      modifies this
      ensures uiState == WithTaskType(old(uiState), taskType) && flagChanges == old(flagChanges)
    {
      uiState := WithTaskType(uiState, taskType);
    }

    method UpdateMockTaskAlertTriggers(alertTriggers: seq<AlertTrigger>)
      modifies this
      ensures uiState == WithAlertTriggers(old(uiState), alertTriggers) && flagChanges == old(flagChanges)
    {
      uiState := WithAlertTriggers(uiState, alertTriggers);
    }

    method UpdateMockTaskPriority(priority: TaskPriority)
      modifies this
      ensures uiState == WithTaskPriority(old(uiState), priority) && flagChanges == old(flagChanges)
    {
      uiState := WithTaskPriority(uiState, priority);
    }

    method UpdateMockTaskEventMillisInEpoch(millis: int)
      modifies this
      ensures uiState == WithEventMillis(old(uiState), millis) && flagChanges == old(flagChanges)
    {
      uiState := WithEventMillis(uiState, millis);
    }

    method UpdateMockTaskInterval(interval: int)
      modifies this
      ensures uiState == WithInterval(old(uiState), interval) && flagChanges == old(flagChanges)
    {
      uiState := WithInterval(uiState, interval);
    }

    method UpdateMockTaskAlertSelectedMultipleTimes(times: seq<LocalDateTime>, interval: int)
      modifies this
      ensures uiState == WithSelectedTimes(old(uiState), times, interval) && flagChanges == old(flagChanges)
    {
      uiState := WithSelectedTimes(uiState, times, interval);
    }

    /** Opening the creation sheet raises the flag (the expand animation is not modelled). */
    method ShowBottomSheet()
      modifies this
      ensures uiState == WithDrawer(old(uiState), true) && flagChanges == old(flagChanges)
    {
      uiState := WithDrawer(uiState, true);
    }

    /** Closing the creation sheet lowers the flag (the hide animation is not modelled). */
    method HideShowBottomSheet()
      modifies this
      ensures uiState == WithDrawer(old(uiState), false) && flagChanges == old(flagChanges)
    {
      uiState := WithDrawer(uiState, false);
    }

    /**
     * Task creation: raise the loading flag, expand the alerts, write the
     * task, write every alert tied to the id the task write returned, lower
     * the flag. A failing write ends the flow where it stands: nothing after
     * it is written and the flag stays raised.
     */
    method CreateDatabaseEntry(
      description: string, taskType: TaskType, alertTypes: seq<AlertType>, alertTriggers: seq<AlertTrigger>,
      eventMillisInEpoch: Option<int>, interval: Option<int>, selectedMultipleTimes: Option<seq<LocalDateTime>>,
      today: string, toEpoch: LocalDateTime -> int
    ) returns (outcome: Outcome)
      requires Valid(store.db)
      modifies this, store
      ensures Valid(store.db)
      ensures store.readable == old(store.readable)
      ensures !Accepts(old(store.writeBudget), 1) ==>
        && outcome == Failed(WriteFailed)
        && store.db == old(store.db)
        && store.writeBudget == old(store.writeBudget)
        && store.log == old(store.log)
        && uiState == WithLoading(old(uiState), true)
        && flagChanges == old(flagChanges) + [FlagChange(true, |old(store.log)|)]
      ensures var task := NewTask(description, today, taskType, defaultPriority);
        var up := UpsertTaskRow(old(store.db), task);
        var alerts := Owned(Expanded(alertTypes, alertTriggers,
                                     Timing(eventMillisInEpoch, interval, selectedMultipleTimes, toEpoch)),
                            ToInt(up.id));
        Accepts(old(store.writeBudget), 1) ==>
        var m := Written(Spent(old(store.writeBudget), 1), |alerts|);
        && store.db == WriteAlerts(up.db, alerts[..m])
        && store.writeBudget == Spent(Spent(old(store.writeBudget), 1), m)
        && store.log == old(store.log) + [TaskWrite(task)] + AlertWrites(alerts[..m])
        && (m == |alerts| ==>
             && outcome == Done
             && uiState == WithLoading(old(uiState), false)
             && flagChanges == old(flagChanges) + [FlagChange(true, |old(store.log)|)]
                                                + [FlagChange(false, |store.log|)])
        && (m < |alerts| ==>
             && outcome == Failed(WriteFailed)
             && uiState == WithLoading(old(uiState), true)
             && flagChanges == old(flagChanges) + [FlagChange(true, |old(store.log)|)])
    {
      var timing := Timing(eventMillisInEpoch, interval, selectedMultipleTimes, toEpoch);
      var task := NewTask(description, today, taskType, defaultPriority);
      uiState := WithLoading(uiState, true);
      flagChanges := flagChanges + [FlagChange(true, |store.log|)];
      var expanded := ExpandAlerts(alertTypes, alertTriggers, timing);
      var id := store.UpsertTask(task);
      if id.Err? {
        return Failed(id.error);
      }
      var alerts := Owned(expanded, ToInt(id.value));
      outcome := WriteOwnedAlerts(alerts);
      if outcome.Done? {
        assert alerts[..|alerts|] == alerts;
        uiState := WithLoading(uiState, false);
        flagChanges := flagChanges + [FlagChange(false, |store.log|)];
      }
    }

    /**
     * The alert loop of task creation: upsert each alert, tied to the task,
     * in list order, stopping at the first failing write.
     */
    method WriteOwnedAlerts(alerts: seq<Alert>) returns (outcome: Outcome)
      modifies store
      ensures Valid(old(store.db)) ==> Valid(store.db)
      ensures store.readable == old(store.readable)
      ensures outcome == (if Written(old(store.writeBudget), |alerts|) == |alerts| then Done else Failed(WriteFailed))
      ensures store.db == WriteAlerts(old(store.db), alerts[..Written(old(store.writeBudget), |alerts|)])
      ensures store.writeBudget == Spent(old(store.writeBudget), Written(old(store.writeBudget), |alerts|))
      ensures store.log == old(store.log) + AlertWrites(alerts[..Written(old(store.writeBudget), |alerts|)])
    {
      ghost var db0, budget0, log0 := store.db, store.writeBudget, store.log;
      outcome := Done;
      var i := 0;
      while i < |alerts|
        invariant 0 <= i <= |alerts|
        invariant Accepts(budget0, i) && store.writeBudget == Spent(budget0, i)
        invariant store.readable == old(store.readable)
        invariant store.db == WriteAlerts(db0, alerts[..i])
        invariant store.log == log0 + AlertWrites(alerts[..i])
      {
        var r := store.UpsertAlert(alerts[i]);
        if r.Err? {
          outcome := Failed(r.error);
          break;
        }
        assert store.db == WriteAlerts(db0, alerts[..i + 1]) by {
          WriteAlertsSnoc(db0, alerts, i);
        }
        assert store.log == log0 + AlertWrites(alerts[..i + 1]) by {
          AlertWritesSnoc(alerts, i);
          ConcatAssoc(log0, AlertWrites(alerts[..i]), [AlertWrite(alerts[i])]);
        }
        i := i + 1;
      }
      WrittenStops(budget0, |alerts|, i);
      assert Valid(db0) ==> Valid(store.db) by {
        if Valid(db0) {
          WriteAlertsValid(db0, alerts[..i]);
        }
      }
      if outcome.Done? {
        assert alerts[..i] == alerts;
      }
    }
  }
}
