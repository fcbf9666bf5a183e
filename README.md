# Plan Ahead: a verified model of task creation, task editing and task completion

Plan Ahead is an Android to-do app. Tasks and their alerts live in a Room
database behind two repositories, and alarms are scheduled from the joined
"all tasks with alerts" view. This project models three parts of the app in
Dafny and proves properties about them:

- **The home screen's view model** (`HomeScreen`). It keeps a draft task
  that is updated one field at a time, plus a flag for the creation sheet.
  Its creation flow raises a loading flag and expands the requested alert
  types × alert triggers × date-times into a flat list of new alerts. It then
  upserts the task, upserts every alert tied to the returned task id (the id
  narrowed to a 32-bit Int), and lowers the flag.
  `AlertExpansion` holds the expansion: the nested loops as methods, the
  list they build as recursive functions, and the positions and contents of
  that list as lemmas.
- **The task edit screen's view model** (`TaskEdit`). It keeps the chosen
  task type, one property record per task type (one-time, chore, cron) and
  the list of alert fields being composed. That list can be appended to,
  filtered by value, filtered by index, or edited at one position.
- **The task engine** (`TaskEngine`). Completing a task upserts it with
  `isCompleted` set, reads the joined view once, and hands that view to the
  alarm scheduler.

The two repositories are one abstract database (`Store`):
- A row without an id gets the next id. A row with an id replaces the row
  stored under that id.
- A write budget and a readability flag stand for storage failure. This
  lets the model state what each flow leaves behind when a write or the read
  fails part-way.
- `Store.Database` is a class whose methods change its `db` field. The pure
  functions `UpsertTaskRow`, `UpsertAlertRow`, `WriteAlerts` and
  `TasksWithAlerts` specify it.
- Every stored row sits under its own id, below the next id to hand out.
  The constructor establishes this invariant and every write keeps it, so a
  fresh id never collides with a stored row.
- The store keeps a ghost log of the writes that went through, in order.
  The flows' contracts state that log, which fixes the order of their
  writes.

The view models are classes whose fields the methods reassign:
- The flows with loops are methods with loop invariants.
- `EditAlertProperty` copies the list into an array and updates the array in
  place, as the app does with its mutable copy.
- `HomeScreenViewModel` carries a ghost list of loading-flag changes. Each
  change records how many writes the store had logged at that moment, so
  the contract places the flag changes among the writes.

## Model

| member | source | states |
|---|---|---|
| HomeScreen.WithTaskDescription | app/src/main/java/com/palone/planahead/screens/home/HomeScreenViewModel.kt:34-42 | the draft's base task takes the new description; every other field of the task, the draft and the screen state is unchanged |
| HomeScreen.HomeScreenViewModel.UpdateMockTaskDescription | app/src/main/java/com/palone/planahead/screens/home/HomeScreenViewModel.kt:34-42 | the screen state becomes WithTaskDescription of the old state; nothing is written to the store |
| HomeScreen.WithAlertTypes | app/src/main/java/com/palone/planahead/screens/home/HomeScreenViewModel.kt:44-52 | the draft's alert types are replaced; every other draft field and the screen flags are unchanged |
| HomeScreen.HomeScreenViewModel.UpdateMockAlertTypes | app/src/main/java/com/palone/planahead/screens/home/HomeScreenViewModel.kt:44-52 | the screen state becomes WithAlertTypes of the old state |
| HomeScreen.WithTaskType | app/src/main/java/com/palone/planahead/screens/home/HomeScreenViewModel.kt:54-62 | the draft's base task takes the new task type; everything else is unchanged |
| HomeScreen.HomeScreenViewModel.UpdateMockTaskType | app/src/main/java/com/palone/planahead/screens/home/HomeScreenViewModel.kt:54-62 | the screen state becomes WithTaskType of the old state |
| HomeScreen.WithAlertTriggers | app/src/main/java/com/palone/planahead/screens/home/HomeScreenViewModel.kt:64-72 | the draft's alert triggers are replaced; everything else is unchanged |
| HomeScreen.HomeScreenViewModel.UpdateMockTaskAlertTriggers | app/src/main/java/com/palone/planahead/screens/home/HomeScreenViewModel.kt:64-72 | the screen state becomes WithAlertTriggers of the old state |
| HomeScreen.WithTaskPriority | app/src/main/java/com/palone/planahead/screens/home/HomeScreenViewModel.kt:74-82 | the draft's base task takes the new priority; everything else is unchanged |
| HomeScreen.HomeScreenViewModel.UpdateMockTaskPriority | app/src/main/java/com/palone/planahead/screens/home/HomeScreenViewModel.kt:74-82 | the screen state becomes WithTaskPriority of the old state |
| HomeScreen.WithEventMillis | app/src/main/java/com/palone/planahead/screens/home/HomeScreenViewModel.kt:84-92 | the draft's alert instant becomes present with the given value; everything else is unchanged |
| HomeScreen.HomeScreenViewModel.UpdateMockTaskEventMillisInEpoch | app/src/main/java/com/palone/planahead/screens/home/HomeScreenViewModel.kt:84-92 | the screen state becomes WithEventMillis of the old state |
| HomeScreen.WithInterval | app/src/main/java/com/palone/planahead/screens/home/HomeScreenViewModel.kt:94-102 | the draft's alert interval becomes present with the given value; everything else is unchanged |
| HomeScreen.HomeScreenViewModel.UpdateMockTaskInterval | app/src/main/java/com/palone/planahead/screens/home/HomeScreenViewModel.kt:94-102 | the screen state becomes WithInterval of the old state |
| HomeScreen.WithSelectedTimes | app/src/main/java/com/palone/planahead/screens/home/HomeScreenViewModel.kt:104-113 | one update sets both the selected date-times and the interval; every other field is unchanged |
| HomeScreen.HomeScreenViewModel.UpdateMockTaskAlertSelectedMultipleTimes | app/src/main/java/com/palone/planahead/screens/home/HomeScreenViewModel.kt:104-113 | the screen state becomes WithSelectedTimes of the old state |
| HomeScreen.WithDrawer | app/src/main/java/com/palone/planahead/screens/home/HomeScreenViewModel.kt:188-200 | the sheet flag takes the given value; the rest of the screen state is unchanged |
| HomeScreen.HomeScreenViewModel.ShowBottomSheet | app/src/main/java/com/palone/planahead/screens/home/HomeScreenViewModel.kt:188-194 | the sheet flag is raised; nothing else changes |
| HomeScreen.HomeScreenViewModel.HideShowBottomSheet | app/src/main/java/com/palone/planahead/screens/home/HomeScreenViewModel.kt:196-200 | the sheet flag is lowered; nothing else changes |
| HomeScreen.WithLoading | app/src/main/java/com/palone/planahead/screens/home/HomeScreenViewModel.kt:154 | the loading flag takes the given value; the rest of the screen state is unchanged |
| AlertExpansion.CombineAlertWithDateTime | app/src/main/java/com/palone/planahead/screens/home/HomeScreenViewModel.kt:115-134 | exactly one alert, with no id and no task, carrying the trigger, the type, the interval and the date-time converted to epoch milliseconds |
| AlertExpansion.TimesAlerts | app/src/main/java/com/palone/planahead/screens/home/HomeScreenViewModel.kt:158-166 | reference definition: one CombineAlertWithDateTime alert per selected date-time, in list order |
| AlertExpansion.PairAlerts | app/src/main/java/com/palone/planahead/screens/home/HomeScreenViewModel.kt:157-176 | reference definition: the alerts of one (type, trigger) pair, from the date-time list when it is present and non-empty, otherwise the one alert with the given instant |
| AlertExpansion.TypeAlerts | app/src/main/java/com/palone/planahead/screens/home/HomeScreenViewModel.kt:156-177 | reference definition: the pairs of one type over the triggers, in order |
| AlertExpansion.Expanded | app/src/main/java/com/palone/planahead/screens/home/HomeScreenViewModel.kt:155-178 | reference definition of the nested loops: the alerts of each type over the types, in order; the rows below state its length, positions and contents |
| AlertExpansion.AppendPairAlerts | app/src/main/java/com/palone/planahead/screens/home/HomeScreenViewModel.kt:157-176 | the inner branch appends one alert per selected date-time when the list is present and non-empty, and otherwise the single alert with the given instant |
| AlertExpansion.ExpandAlerts | app/src/main/java/com/palone/planahead/screens/home/HomeScreenViewModel.kt:155-178 | the nested loops build exactly the type-major expansion Expanded |
| AlertExpansion.TimesAlertsAt | app/src/main/java/com/palone/planahead/screens/home/HomeScreenViewModel.kt:158-166 | the k-th alert appended for one (type, trigger) pair carries the k-th selected date-time |
| AlertExpansion.PairAlertsAt | app/src/main/java/com/palone/planahead/screens/home/HomeScreenViewModel.kt:157-176 | one (type, trigger) pair contributes BlockSize alerts, the k-th with the k-th instant |
| AlertExpansion.TypeAlertsLength | app/src/main/java/com/palone/planahead/screens/home/HomeScreenViewModel.kt:156-177 | one alert type contributes (number of triggers) × BlockSize alerts |
| AlertExpansion.TypeAlertsAt | app/src/main/java/com/palone/planahead/screens/home/HomeScreenViewModel.kt:156-177 | within one type, the alert for trigger j and instant k sits at j·BlockSize + k |
| AlertExpansion.ExpandedLength | app/src/main/java/com/palone/planahead/screens/home/HomeScreenViewModel.kt:155-178 | the expansion holds (number of types) × (number of triggers) × BlockSize alerts |
| AlertExpansion.ExpandedBlock | app/src/main/java/com/palone/planahead/screens/home/HomeScreenViewModel.kt:155-178 | the alerts of the i-th type form the i-th consecutive run of the expansion |
| AlertExpansion.ExpandedAt | app/src/main/java/com/palone/planahead/screens/home/HomeScreenViewModel.kt:155-178 | the alert for type i, trigger j and instant k is at position i·(T·BlockSize) + j·BlockSize + k, T being the number of triggers, and has exactly those values |
| AlertExpansion.ExpandedAtProduct | app/src/main/java/com/palone/planahead/screens/home/HomeScreenViewModel.kt:155-178 | the same position, stated with ordinary multiplication |
| AlertExpansion.TypeAlertsMembers | app/src/main/java/com/palone/planahead/screens/home/HomeScreenViewModel.kt:156-177 | every alert of one type is new, has that type, one of the triggers, the interval, and a selected date-time or the given instant |
| AlertExpansion.ExpandedMembers | app/src/main/java/com/palone/planahead/screens/home/HomeScreenViewModel.kt:155-178 | every alert of the expansion is new, has one of the requested types and triggers, the interval, and a selected date-time or the given instant |
| AlertExpansion.MultipleTimesCount | app/src/main/java/com/palone/planahead/screens/home/HomeScreenViewModel.kt:157-167 | with a non-empty date-time list, there is one alert per (type, trigger, date-time) |
| AlertExpansion.SingleTimeAlerts | app/src/main/java/com/palone/planahead/screens/home/HomeScreenViewModel.kt:168-176 | with no date-time list or an empty one, there is one alert per (type, trigger), each carrying the given instant (possibly absent) and the interval |
| AlertExpansion.EmptyRequestExpandsToNothing | app/src/main/java/com/palone/planahead/screens/home/HomeScreenViewModel.kt:155-178 | no types or no triggers means no alerts |
| HomeScreen.ToInt | app/src/main/java/com/palone/planahead/screens/home/HomeScreenViewModel.kt:181 | Long.toInt keeps the low 32 bits: the result is a 32-bit value congruent to the input modulo 2^32, and equal to it when it is already in range |
| HomeScreen.NewTask | app/src/main/java/com/palone/planahead/screens/home/HomeScreenViewModel.kt:146-151 | the task creation writes: no id yet, the given description, today's date text, the given type, the default priority, not completed |
| HomeScreen.Owned | app/src/main/java/com/palone/planahead/screens/home/HomeScreenViewModel.kt:180-182 | the alert list with every alert's task id set and nothing else changed, in the same order |
| HomeScreen.Written | app/src/main/java/com/palone/planahead/screens/home/HomeScreenViewModel.kt:180-182 | how many writes of a sequence stopped at the first failure go through: all of them exactly when the budget allows all, otherwise the largest prefix the budget allows |
| HomeScreen.WrittenStops | app/src/main/java/com/palone/planahead/screens/home/HomeScreenViewModel.kt:180-182 | a write loop that stops after i writes, because the list ended or the next write was refused, wrote exactly Written of them |
| HomeScreen.OwnedBatchNew | app/src/main/java/com/palone/planahead/screens/home/HomeScreenViewModel.kt:169-181 | the alerts creation writes have no id, so each write inserts a new row |
| HomeScreen.CreatedRows | app/src/main/java/com/palone/planahead/screens/home/HomeScreenViewModel.kt:146-182 | after the task write and m alert writes on a valid store: the task sits under a fresh id with the given fields and not completed; the alerts fill the next m alert ids; every earlier row is untouched |
| HomeScreen.CreatedAlertRows | app/src/main/java/com/palone/planahead/screens/home/HomeScreenViewModel.kt:179-182 | the i-th alert written is the i-th alert of the expansion, tied to the narrowed task id, stored under the i-th fresh id |
| HomeScreen.HomeScreenViewModel.WriteOwnedAlerts | app/src/main/java/com/palone/planahead/screens/home/HomeScreenViewModel.kt:180-182 | the alerts are upserted in list order until the first failure; the store holds exactly the written prefix, the budget drops by its length, and the write log gains exactly those writes in order |
| HomeScreen.HomeScreenViewModel.CreateDatabaseEntry | app/src/main/java/com/palone/planahead/screens/home/HomeScreenViewModel.kt:136-185 | the write log gains the task write (no id, not completed, stamped with today, default priority) first, then one write per expanded alert tied to the narrowed id, in expansion order. The flag is raised before the first of these writes and lowered after the last. The store holds exactly the rows of those writes and the budget drops by their number. If the task write fails, nothing is written. If an alert write fails, the earlier writes stay and the flag stays raised |
| HomeScreen.HomeScreenViewModel.constructor | app/src/main/java/com/palone/planahead/screens/home/HomeScreenViewModel.kt:26-32 | the view model starts from the given screen state over the given store |
| Store.UpsertTaskRow | app/src/main/java/com/palone/planahead/screens/home/HomeScreenViewModel.kt:179 | a task with an id replaces that row; a task without one gets an id no row has in a valid store; the stored row carries its id; alerts are untouched |
| Store.UpsertAlertRow | app/src/main/java/com/palone/planahead/screens/home/HomeScreenViewModel.kt:181 | an alert with an id replaces that row; one without gets the next alert id, which no row has in a valid store; tasks are untouched |
| Store.UpsertTaskRowValid | app/src/main/java/com/palone/planahead/screens/home/HomeScreenViewModel.kt:179 | a task upsert keeps every row under its own id, below the next id |
| Store.UpsertAlertRowValid | app/src/main/java/com/palone/planahead/screens/home/HomeScreenViewModel.kt:181 | an alert upsert keeps every row under its own id, below the next id |
| Store.WriteAlerts | app/src/main/java/com/palone/planahead/screens/home/HomeScreenViewModel.kt:180-182 | reference definition of the alert loop: the store after upserting the alerts one after another, in order; the rows below state what it holds |
| Store.AlertWrites | app/src/main/java/com/palone/planahead/screens/home/HomeScreenViewModel.kt:180-182 | the log entries of an alert loop: one alert write per alert, in list order |
| Store.WriteAlertsSnoc | app/src/main/java/com/palone/planahead/screens/home/HomeScreenViewModel.kt:180-182 | writing one more alert of the loop is one more upsert on top of the earlier ones |
| Store.WriteAlertsCounts | app/src/main/java/com/palone/planahead/screens/home/HomeScreenViewModel.kt:180-182 | writing n new alerts hands out exactly n alert ids and leaves the tasks alone |
| Store.WriteAlertsKeeps | app/src/main/java/com/palone/planahead/screens/home/HomeScreenViewModel.kt:180-182 | after writing n new alerts, the ids present are the old ones plus the n new ones, and every other row is unchanged |
| Store.WriteAlertsRows | app/src/main/java/com/palone/planahead/screens/home/HomeScreenViewModel.kt:180-182 | the i-th new alert is stored under the i-th new id, with that id filled in |
| Store.WriteAlertsValid | app/src/main/java/com/palone/planahead/screens/home/HomeScreenViewModel.kt:180-182 | writing any alerts keeps the store valid |
| Store.AlertsOf | app/src/main/java/com/palone/planahead/domain/taskEngine/TaskEngine.kt:22 | a task's alerts are exactly the alert rows whose task id is that task's |
| Store.TasksWithAlerts | app/src/main/java/com/palone/planahead/domain/taskEngine/TaskEngine.kt:22 | the joined view has one entry per task row, holding that row and its alerts |
| Store.Database.UpsertTask | app/src/main/java/com/palone/planahead/screens/home/HomeScreenViewModel.kt:179 | on success returns the id, stores UpsertTaskRow, uses one write and logs it; on failure nothing changes; the store invariant is kept |
| Store.Database.UpsertAlert | app/src/main/java/com/palone/planahead/screens/home/HomeScreenViewModel.kt:181 | on success returns the id, stores UpsertAlertRow, uses one write and logs it; on failure nothing changes; the store invariant is kept |
| Store.Database.AllTasksWithAlerts | app/src/main/java/com/palone/planahead/domain/taskEngine/TaskEngine.kt:22 | one read returns the joined view of the current rows, or a read failure |
| Store.Database.constructor | app/src/main/java/com/palone/planahead/domain/taskEngine/TaskEngine.kt:13-15 | the repositories start over rows that satisfy the store invariant, with the given write budget and readability and an empty write log |
| TaskEngine.MarkCompleted | app/src/main/java/com/palone/planahead/domain/taskEngine/TaskEngine.kt:21 | the completed copy has the flag set and every other field as given; an already completed task is returned as is |
| TaskEngine.AlarmsHandler.SetAlarms | app/src/main/java/com/palone/planahead/domain/taskEngine/TaskEngine.kt:22 | the scheduler records one more full set of tasks to arm |
| TaskEngine.AlarmsHandler.constructor | app/src/main/java/com/palone/planahead/domain/taskEngine/TaskEngine.kt:14 | a scheduler that has not been called yet |
| TaskEngine.TaskEngine.constructor | app/src/main/java/com/palone/planahead/domain/taskEngine/TaskEngine.kt:12-16 | the engine over the given store and scheduler |
| TaskEngine.TaskEngine.CompleteTask | app/src/main/java/com/palone/planahead/domain/taskEngine/TaskEngine.kt:19-24 | exactly one write is issued and logged, the task with the flag set, and the store holds its result; then the scheduler gets the view read after that write. A failed write changes nothing and calls nothing. A failed read leaves the write and calls nothing. No alert row changes |
| TaskEngine.CompletedSnapshot | app/src/main/java/com/palone/planahead/domain/taskEngine/TaskEngine.kt:21-22 | the view handed to the scheduler holds the task under the id of the write, completed and otherwise as given, with its alerts; every other task is as it was |
| TaskEngine.CompleteTwice | app/src/main/java/com/palone/planahead/domain/taskEngine/TaskEngine.kt:21 | completing a task that has an id twice leaves the same store and the same view as completing it once |
| TaskEngine.CompleteCompletedIsNoop | app/src/main/java/com/palone/planahead/domain/taskEngine/TaskEngine.kt:21 | completing a stored task that is already completed leaves a valid store exactly as it was |
| TaskEngine.CompleteUnsavedTwice | app/src/main/java/com/palone/planahead/domain/taskEngine/TaskEngine.kt:21 | a task without an id is inserted anew each time: two completions leave two distinct completed rows |
| TaskEdit.TaskEditViewModel.constructor | app/src/main/java/com/palone/planahead/screens/taskEdit/TaskEditViewModel.kt:30-48 | the draft starts with the given type and records and an empty alert list |
| TaskEdit.TaskEditViewModel.InsertAlertProperty | app/src/main/java/com/palone/planahead/screens/taskEdit/TaskEditViewModel.kt:51-53 | the alert field is appended: one longer, the old list as prefix, the new field last |
| TaskEdit.Without | app/src/main/java/com/palone/planahead/screens/taskEdit/TaskEditViewModel.kt:55-57 | filtering by value removes every occurrence and only those: the value is absent and the multiset is the old one with that value's count set to zero |
| TaskEdit.WithoutConcat | app/src/main/java/com/palone/planahead/screens/taskEdit/TaskEditViewModel.kt:55-57 | filtering distributes over concatenation, so the kept fields keep their order |
| TaskEdit.WithoutAbsent | app/src/main/java/com/palone/planahead/screens/taskEdit/TaskEditViewModel.kt:55-57 | deleting a value that is not in the list changes nothing |
| TaskEdit.WithoutIdempotent | app/src/main/java/com/palone/planahead/screens/taskEdit/TaskEditViewModel.kt:55-57 | deleting the same value twice is the same as deleting it once |
| TaskEdit.WithoutLength | app/src/main/java/com/palone/planahead/screens/taskEdit/TaskEditViewModel.kt:55-57 | the list shrinks by exactly the number of occurrences of the value |
| TaskEdit.TaskEditViewModel.DeleteAlertPropertyByValue | app/src/main/java/com/palone/planahead/screens/taskEdit/TaskEditViewModel.kt:55-57 | the alert list becomes Without of the old list |
| TaskEdit.WithoutIndex | app/src/main/java/com/palone/planahead/screens/taskEdit/TaskEditViewModel.kt:59-61 | filtering by index removes exactly the element at an in-range index, keeping the rest in order; an out-of-range index changes nothing |
| TaskEdit.TaskEditViewModel.DeleteAlertPropertyByIndex | app/src/main/java/com/palone/planahead/screens/taskEdit/TaskEditViewModel.kt:59-61 | the alert list becomes WithoutIndex of the old list |
| TaskEdit.TaskEditViewModel.EditAlertProperty | app/src/main/java/com/palone/planahead/screens/taskEdit/TaskEditViewModel.kt:63-67 | the edit happens exactly when the index is in range; then the list keeps its length, holds the new field at the index and is unchanged elsewhere; otherwise it reports the bad index and changes nothing |
| TaskEdit.TaskEditViewModel.UpdateTaskType | app/src/main/java/com/palone/planahead/screens/taskEdit/TaskEditViewModel.kt:70-72 | the task type is replaced; only that field may change |
| TaskEdit.WithIntervalValue | app/src/main/java/com/palone/planahead/screens/taskEdit/TaskEditViewModel.kt:74-76 | the chore's interval value is replaced; its other fields are unchanged |
| TaskEdit.TaskEditViewModel.UpdateIntervalValue | app/src/main/java/com/palone/planahead/screens/taskEdit/TaskEditViewModel.kt:74-76 | the chore record becomes WithIntervalValue of the old one; only that field of the view model may change |
| TaskEdit.WithIntervalUnit | app/src/main/java/com/palone/planahead/screens/taskEdit/TaskEditViewModel.kt:78-80 | the chore's interval unit is replaced; its other fields are unchanged |
| TaskEdit.TaskEditViewModel.UpdateIntervalUnit | app/src/main/java/com/palone/planahead/screens/taskEdit/TaskEditViewModel.kt:78-80 | the chore record becomes WithIntervalUnit of the old one |
| TaskEdit.WithRepeatMode | app/src/main/java/com/palone/planahead/screens/taskEdit/TaskEditViewModel.kt:82-84 | the cron record's repeat mode is replaced; its other fields are unchanged |
| TaskEdit.TaskEditViewModel.UpdateTaskRepeatMode | app/src/main/java/com/palone/planahead/screens/taskEdit/TaskEditViewModel.kt:82-84 | the cron record becomes WithRepeatMode of the old one |
| TaskEdit.WithDaysOfWeek | app/src/main/java/com/palone/planahead/screens/taskEdit/TaskEditViewModel.kt:86-88 | the cron record's weekdays are replaced; its other fields are unchanged |
| TaskEdit.TaskEditViewModel.UpdateDaysOfWeek | app/src/main/java/com/palone/planahead/screens/taskEdit/TaskEditViewModel.kt:86-88 | the cron record becomes WithDaysOfWeek of the old one |
| TaskEdit.WithRepeatTime | app/src/main/java/com/palone/planahead/screens/taskEdit/TaskEditViewModel.kt:90-92 | the cron record's repeat time is replaced; its other fields are unchanged |
| TaskEdit.TaskEditViewModel.UpdateRepeatTime | app/src/main/java/com/palone/planahead/screens/taskEdit/TaskEditViewModel.kt:90-92 | the cron record becomes WithRepeatTime of the old one |
| TaskEdit.WithOneTimeDate | app/src/main/java/com/palone/planahead/screens/taskEdit/TaskEditViewModel.kt:95 | the one-time record's date is replaced |
| TaskEdit.WithChoreDate | app/src/main/java/com/palone/planahead/screens/taskEdit/TaskEditViewModel.kt:96 | the chore's start date is replaced; its other fields are unchanged |
| TaskEdit.TaskEditViewModel.UpdateDateAndTime | app/src/main/java/com/palone/planahead/screens/taskEdit/TaskEditViewModel.kt:94-97 | one date-time becomes both the one-time date and the chore start date; the type, the cron record and the alert list are unchanged |

## Left out

- Coroutines, dispatchers and StateFlow are not modelled. Each launched block is one sequential method, and each `_uiState.update` is a plain assignment. Interleavings between concurrent launches are not covered.
- An exception that escapes a store call is modelled as a `Failed` outcome, and the flow stops there. The app has no try/finally around creation. So after a failed write the loading flag stays raised, and the model keeps it raised.
- `Flow.last()` on the joined view is modelled as one read of the current rows. A Room flow does not complete, so in the app this call would wait for the flow to end. The model captures the intended single snapshot, not that wait.
- The joined view is a map keyed by task id. The order of the list Room returns is not modelled.
- `LocalDateTime.now()` and its ISO-8601 formatting are the parameter `today`. The conversion of a local date-time to epoch milliseconds through the device's default zone is the parameter `toEpoch`.
- The Task, Alert, property-record and UI-state declarations are not part of this model. Their default values are taken as constructor parameters:
  - the initial screen states;
  - the default task priority, which creation does not set;
  - the initial task type;
  - the default one-time, chore and cron records.
- The enumerations declared there (alert type, alert trigger, task type, priority, repeat mode) are abstract values that are only copied and compared. So is the alert-field record of the edit screen.
- `HomeScreen.HomeScreenViewModel.ShowBottomSheet`: the sheet's expand animation is not modelled.
- `HomeScreen.HomeScreenViewModel.HideShowBottomSheet`: the sheet's hide animation is not modelled.
- The reactive `allTasks` flow in the home screen state is not modelled. The joined view is given by `Store.TasksWithAlerts`.
- The alarm scheduler is not part of this model. It is seen only through the views it is handed.
- Room's SQL, conflict strategies and id generation are abstracted as follows:
  - a missing id receives the next id of a per-table counter;
  - a present id replaces the row stored under it;
  - rows are never deleted.
- Storage failure is a write budget and a readability flag. The model does not say why a storage call fails.
- `TaskEdit.TaskEditViewModel.EditAlertProperty`: the out-of-bounds exception is an outcome value. The list is unchanged in that case, as the exception leaves it.
- `Store.UpsertTaskRow`: ids are unbounded integers. A 64-bit row-id overflow is not modelled. The later narrowing of the id to a 32-bit Int is modelled, by `HomeScreen.ToInt`.
