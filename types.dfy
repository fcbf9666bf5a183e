/**
 * The records the Plan Ahead core works on: tasks, alerts and the small
 * java.time values the editing screens carry around.
 *
 * The enumerations that are declared outside the modelled files (alert
 * types, alert triggers, task types, task priorities, repeat modes) are
 * abstract types with equality: nothing in the core inspects their values,
 * it only copies and compares them.
 */
module Types {

  datatype Option<+T> = None | Some(value: T)

  /** The failure a store operation can report. */
  datatype StoreError = WriteFailed | ReadFailed

  datatype Result<+T> = Ok(value: T) | Err(error: StoreError)

  /** How a fire-and-forget operation ends: it ran to the end, or a store call failed and the rest did not run. */
  datatype Outcome = Done | Failed(error: StoreError)

  /** How an alert is delivered (a notification, an alarm sound, ...). */
  type AlertType(==)

  /** When an alert fires relative to its task's event. */
  type AlertTrigger(==)

  /** One-time, chore (repeat by interval) or cron-like task. */
  type TaskType(==)

  type TaskPriority(==)

  /** java.time.LocalTime: a wall-clock time of day without a zone. */
  datatype LocalTime = LocalTime(hour: int, minute: int, second: int, nano: int)

  /** java.time.LocalDateTime: a calendar date and a time of day without a zone. */
  datatype LocalDateTime = LocalDateTime(year: int, month: int, day: int, time: LocalTime)

  datatype DayOfWeek = Monday | Tuesday | Wednesday | Thursday | Friday | Saturday | Sunday

  datatype ChronoUnit =
    | Nanos | Micros | Millis | Seconds | Minutes | Hours | HalfDays | Days
    | Weeks | Months | Years | Decades | Centuries | Millennia | Eras | Forever

  /**
   * A task row. `id` is None until the store has assigned one;
   * `addedDate` is the ISO-8601 local date-time text of its creation.
   */
  datatype Task = Task(
    id: Option<int>,
    description: string,
    addedDate: string,
    taskType: TaskType,
    priority: TaskPriority,
    isCompleted: bool
  )

  /**
   * An alert row. `taskId` is None until the alert is tied to its task;
   * `eventMillisInEpoch` is the instant it fires, in milliseconds since the
   * epoch; `interval` is its repeat period in milliseconds (None: no repeat).
   */
  datatype Alert = Alert(
    alertId: Option<int>,
    taskId: Option<int>,
    alertTriggerName: AlertTrigger,
    alertTypeName: AlertType,
    eventMillisInEpoch: Option<int>,
    interval: Option<int>
  )

  /**
   * Concatenation regroups. Calling this in a loop body settles the
   * regrouping outside the loop's context, which keeps those proofs small.
   */
  lemma ConcatAssoc<T>(a: seq<T>, b: seq<T>, c: seq<T>)
    ensures (a + b) + c == a + (b + c)
  {
  }

  /** A task joined with the alerts that point at it, keyed by alert id. */
  datatype TaskWithAlerts = TaskWithAlerts(task: Task, alerts: map<int, Alert>)
}
