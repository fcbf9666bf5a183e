/**
 * The task edit screen's draft: the chosen task type, one property record
 * per task type (one-time, chore, cron) and the list of alert fields the
 * user is composing. Each record is replaced by a copy with one field
 * overridden; the alert list is appended to, filtered by value or by index,
 * or edited at one position.
 *
 * The records' declarations are not part of this model: each record here
 * carries the fields the view model writes, and an alert field is an
 * abstract value that is only stored and compared.
 */
module TaskEdit {
  import opened Types

  /** How a cron-like task repeats. */
  type TaskRepeatMode(==)

  /** One alert row of the draft (its trigger and delivery choice). */
  type AlertFieldProperty(==)

  datatype OneTimeProperties = OneTimeProperties(date: LocalDateTime)

  /** A chore repeats every `intervalValue` units of `intervalType` from `date`. */
  datatype ChoreProperties = ChoreProperties(date: LocalDateTime, intervalValue: int, intervalType: ChronoUnit)

  /** A cron-like task repeats on the given weekdays at the given time. */
  datatype CronProperties = CronProperties(repeatMode: TaskRepeatMode, daysOfWeek: seq<DayOfWeek>, repeatTime: LocalTime)

  /** Whether an edit at an index happened or the index was outside the list. */
  datatype EditOutcome = Edited | IndexOutOfBounds

  // Copy-with-override of one field: the field takes the new value and every other field is kept.

  function WithOneTimeDate(p: OneTimeProperties, date: LocalDateTime): (r: OneTimeProperties)
    ensures r.date == date
  {
    p.(date := date)
  }

  function WithChoreDate(p: ChoreProperties, date: LocalDateTime): (r: ChoreProperties)
    ensures r.date == date
    ensures r.(date := p.date) == p
  {
    p.(date := date)
  }

  function WithIntervalValue(p: ChoreProperties, value: int): (r: ChoreProperties)
    ensures r.intervalValue == value
    ensures r.(intervalValue := p.intervalValue) == p
  {
    p.(intervalValue := value)
  }

  function WithIntervalUnit(p: ChoreProperties, unit: ChronoUnit): (r: ChoreProperties)
    ensures r.intervalType == unit
    ensures r.(intervalType := p.intervalType) == p
  {
    p.(intervalType := unit)
  }

  function WithRepeatMode(p: CronProperties, mode: TaskRepeatMode): (r: CronProperties)
    ensures r.repeatMode == mode
    ensures r.(repeatMode := p.repeatMode) == p
  {
    p.(repeatMode := mode)
  }

  function WithDaysOfWeek(p: CronProperties, days: seq<DayOfWeek>): (r: CronProperties)
    ensures r.daysOfWeek == days
    ensures r.(daysOfWeek := p.daysOfWeek) == p
  {
    p.(daysOfWeek := days)
  }

  function WithRepeatTime(p: CronProperties, time: LocalTime): (r: CronProperties)
    ensures r.repeatTime == time
    ensures r.(repeatTime := p.repeatTime) == p
  {
    p.(repeatTime := time)
  }

  /** The list filtered to the elements different from x, in their original order. */
  function Without<T(==)>(s: seq<T>, x: T): (r: seq<T>)
    ensures x !in r
    ensures |r| <= |s|
    ensures multiset(r) == multiset(s)[x := 0]
  {
    if s == [] then []
    else
      assert s == [s[0]] + s[1..];
      if s[0] == x then Without(s[1..], x) else [s[0]] + Without(s[1..], x)
  }

  /** The list filtered by position: every element whose index differs from `index`, in order. */
  function WithoutIndex<T>(s: seq<T>, index: int): (r: seq<T>)
    ensures 0 <= index < |s| ==> r == s[..index] + s[index + 1..]
    ensures !(0 <= index < |s|) ==> r == s
  {
    if s == [] then []
    else (if index == 0 then [] else [s[0]]) + WithoutIndex(s[1..], index - 1)
  }

  /** Filtering by value distributes over concatenation: the kept elements keep their order. */
  lemma {:induction false} WithoutConcat<T>(a: seq<T>, b: seq<T>, x: T)
    ensures Without(a + b, x) == Without(a, x) + Without(b, x)
  {
    if a == [] {
      assert a + b == b;
    } else {
      assert (a + b)[0] == a[0] && (a + b)[1..] == a[1..] + b;
      WithoutConcat(a[1..], b, x);
    }
  }

  /** A list without x is left as it is. */
  lemma {:induction false} WithoutAbsent<T>(s: seq<T>, x: T)
    requires x !in s
    ensures Without(s, x) == s
  {
    if s != [] {
      assert s == [s[0]] + s[1..];
      WithoutAbsent(s[1..], x);
    }
  }

  /** Deleting by value twice is deleting it once. */
  lemma WithoutIdempotent<T>(s: seq<T>, x: T)
    ensures Without(Without(s, x), x) == Without(s, x)
  {
    WithoutAbsent(Without(s, x), x);
  }

  /** Exactly the occurrences of x go: the length drops by their number. */
  lemma WithoutLength<T>(s: seq<T>, x: T)
    ensures |Without(s, x)| == |s| - multiset(s)[x]
  {
    assert |multiset(Without(s, x))| == |multiset(s)[x := 0]|;
    assert multiset(s) == multiset(s)[x := 0] + multiset{}[x := multiset(s)[x]];
  }

  class TaskEditViewModel {
    var taskType: TaskType
    var oneTimeProperties: OneTimeProperties
    var choreProperties: ChoreProperties
    var cronProperties: CronProperties
    var alertProperties: seq<AlertFieldProperty>

    /** The draft starts with the given type and records and no alert fields. */
    constructor (initialType: TaskType, oneTime: OneTimeProperties, chore: ChoreProperties, cron: CronProperties)
      ensures taskType == initialType && oneTimeProperties == oneTime
      ensures choreProperties == chore && cronProperties == cron
      ensures alertProperties == []
    {
      taskType := initialType;
      oneTimeProperties := oneTime;
      choreProperties := chore;
      cronProperties := cron;
      alertProperties := [];
    }

    /** Appends one alert field at the end. */
    method InsertAlertProperty(alert: AlertFieldProperty)
      modifies this`alertProperties
      ensures |alertProperties| == |old(alertProperties)| + 1
      ensures alertProperties[..|old(alertProperties)|] == old(alertProperties)
      ensures alertProperties[|old(alertProperties)|] == alert
    {
      alertProperties := alertProperties + [alert];
    }

    /** Removes every alert field equal to `alert`, keeping the others in order. */
    method DeleteAlertPropertyByValue(alert: AlertFieldProperty)
      modifies this`alertProperties
      ensures alertProperties == Without(old(alertProperties), alert)
    {
      alertProperties := Without(alertProperties, alert);
    }

    /** Removes the alert field at `index`; an index outside the list removes nothing. */
    method DeleteAlertPropertyByIndex(index: int)
      modifies this`alertProperties
      ensures alertProperties == WithoutIndex(old(alertProperties), index)
    {
      alertProperties := WithoutIndex(alertProperties, index);
    }

    /**
     * Replaces the alert field at `index` through a mutable copy of the
     * list. An index outside the list raises before anything is stored.
     */
    method EditAlertProperty(index: int, alert: AlertFieldProperty) returns (outcome: EditOutcome)
      modifies this`alertProperties
      ensures outcome == Edited <==> 0 <= index < |old(alertProperties)|
      ensures outcome == IndexOutOfBounds ==> alertProperties == old(alertProperties)
      ensures outcome == Edited ==>
        && |alertProperties| == |old(alertProperties)|
        && alertProperties[index] == alert
        && forall j :: 0 <= j < |alertProperties| && j != index ==> alertProperties[j] == old(alertProperties)[j]
    {
      var s := alertProperties;
      var copy := new AlertFieldProperty[|s|](i requires 0 <= i < |s| => s[i]);
      if !(0 <= index < copy.Length) {
        return IndexOutOfBounds;
      }
      copy[index] := alert;
      alertProperties := copy[..];
      outcome := Edited;
    }

    method UpdateTaskType(newType: TaskType)
      modifies this`taskType
      ensures taskType == newType
    {
      taskType := newType;
    }

    method UpdateIntervalValue(value: int)
      modifies this`choreProperties
      ensures choreProperties == WithIntervalValue(old(choreProperties), value)
    {
      choreProperties := WithIntervalValue(choreProperties, value);
    }

    method UpdateIntervalUnit(unit: ChronoUnit)
      modifies this`choreProperties
      ensures choreProperties == WithIntervalUnit(old(choreProperties), unit)
    {
      choreProperties := WithIntervalUnit(choreProperties, unit);
    }

    method UpdateTaskRepeatMode(mode: TaskRepeatMode)
      modifies this`cronProperties
      ensures cronProperties == WithRepeatMode(old(cronProperties), mode)
    {
      cronProperties := WithRepeatMode(cronProperties, mode);
    }

    method UpdateDaysOfWeek(days: seq<DayOfWeek>)
      modifies this`cronProperties
      ensures cronProperties == WithDaysOfWeek(old(cronProperties), days)
    {
      cronProperties := WithDaysOfWeek(cronProperties, days);
    }

    method UpdateRepeatTime(time: LocalTime)
      modifies this`cronProperties
      ensures cronProperties == WithRepeatTime(old(cronProperties), time)
    {
      cronProperties := WithRepeatTime(cronProperties, time);
    }

    /** One date-time is both the one-time task's date and the chore's start date. */
    method UpdateDateAndTime(dateAndTime: LocalDateTime)
      modifies this`oneTimeProperties, this`choreProperties
      ensures oneTimeProperties == WithOneTimeDate(old(oneTimeProperties), dateAndTime)
      ensures choreProperties == WithChoreDate(old(choreProperties), dateAndTime)
    {
      oneTimeProperties := WithOneTimeDate(oneTimeProperties, dateAndTime);
      choreProperties := WithChoreDate(choreProperties, dateAndTime);
    }
  }
}
