/**
 * Alert expansion of the home screen's task-creation flow: the lists of
 * alert types and alert triggers, together with either one instant or a
 * list of local date-times, become one flat list of new Alert records.
 *
 * The list is the Cartesian product in type-major order: for each type,
 * for each trigger, one alert per selected date-time (or the single alert
 * carrying the given instant when no date-times are selected).
 *
 * Converting a local date-time to epoch milliseconds goes through the
 * device's default time zone at the moment of conversion; the model takes
 * that conversion as the parameter `toEpoch`.
 */
module AlertExpansion {
  import opened Types

  /**
   * The timing arguments of one creation request: the single instant, the
   * repeat interval, the optional list of date-times, and the conversion of
   * a local date-time to epoch milliseconds.
   */
  datatype Timing = Timing(
    millis: Option<int>,
    interval: Option<int>,
    selected: Option<seq<LocalDateTime>>,
    toEpoch: LocalDateTime -> int
  )

  /** The list of date-times is used when it is present and not empty. */
  predicate UsesMultipleTimes(t: Timing) {
    t.selected.Some? && |t.selected.value| > 0
  }

  /** How many alerts each (type, trigger) pair contributes. */
  function BlockSize(t: Timing): nat {
    if UsesMultipleTimes(t) then |t.selected.value| else 1
  }

  /** The instant of the k-th alert of a (type, trigger) pair. */
  function MillisAt(t: Timing, k: nat): Option<int>
    requires k < BlockSize(t)
  {
    if UsesMultipleTimes(t) then Some(t.toEpoch(t.selected.value[k])) else t.millis
  }

  /** A new alert: no id of its own yet and not yet tied to a task. */
  function NewAlert(ty: AlertType, tr: AlertTrigger, millis: Option<int>, interval: Option<int>): Alert {
    Alert(None, None, tr, ty, millis, interval)
  }

  /** The one-alert list for one date-time, converted to epoch milliseconds. */
  function CombineAlertWithDateTime(
    dateTime: LocalDateTime, trigger: AlertTrigger, ty: AlertType, interval: Option<int>,
    toEpoch: LocalDateTime -> int
  ): (r: seq<Alert>)
    ensures |r| == 1
    ensures r[0].alertId.None? && r[0].taskId.None?
    ensures r[0].alertTriggerName == trigger && r[0].alertTypeName == ty
    ensures r[0].eventMillisInEpoch == Some(toEpoch(dateTime)) && r[0].interval == interval
  {
    [NewAlert(ty, trigger, Some(toEpoch(dateTime)), interval)]
  }

  /** The alerts of one (type, trigger) pair over the given date-times, in order. */
  function TimesAlerts(ty: AlertType, tr: AlertTrigger, times: seq<LocalDateTime>, t: Timing): seq<Alert>
  {
    if times == [] then []
    else TimesAlerts(ty, tr, times[..|times| - 1], t)
         + CombineAlertWithDateTime(times[|times| - 1], tr, ty, t.interval, t.toEpoch)
  }

  /** The alerts one (type, trigger) pair contributes. */
  function PairAlerts(ty: AlertType, tr: AlertTrigger, t: Timing): seq<Alert>
  {
    if UsesMultipleTimes(t) then TimesAlerts(ty, tr, t.selected.value, t)
    else [NewAlert(ty, tr, t.millis, t.interval)]
  }

  /** The alerts one type contributes, over the triggers in order. */
  function TypeAlerts(ty: AlertType, triggers: seq<AlertTrigger>, t: Timing): seq<Alert>
  {
    if triggers == [] then []
    else TypeAlerts(ty, triggers[..|triggers| - 1], t) + PairAlerts(ty, triggers[|triggers| - 1], t)
  }

  /** The whole expansion, over the types in order. */
  function Expanded(types: seq<AlertType>, triggers: seq<AlertTrigger>, t: Timing): seq<Alert>
  {
    if types == [] then []
    else Expanded(types[..|types| - 1], triggers, t) + TypeAlerts(types[|types| - 1], triggers, t)
  }

  lemma TimesAlertsSnoc(ty: AlertType, tr: AlertTrigger, times: seq<LocalDateTime>, k: nat, t: Timing)
    requires k < |times|
    ensures TimesAlerts(ty, tr, times[..k + 1], t)
         == TimesAlerts(ty, tr, times[..k], t) + CombineAlertWithDateTime(times[k], tr, ty, t.interval, t.toEpoch)
  {
    assert times[..k + 1][..k] == times[..k];
  }

  lemma TypeAlertsSnoc(ty: AlertType, triggers: seq<AlertTrigger>, j: nat, t: Timing)
    requires j < |triggers|
    ensures TypeAlerts(ty, triggers[..j + 1], t) == TypeAlerts(ty, triggers[..j], t) + PairAlerts(ty, triggers[j], t)
  {
    assert triggers[..j + 1][..j] == triggers[..j];
  }

  lemma ExpandedSnoc(types: seq<AlertType>, triggers: seq<AlertTrigger>, i: nat, t: Timing)
    requires i < |types|
    ensures Expanded(types[..i + 1], triggers, t) == Expanded(types[..i], triggers, t) + TypeAlerts(types[i], triggers, t)
  {
    assert types[..i + 1][..i] == types[..i];
  }

  /**
   * The body of the nested loops for one (type, trigger) pair: append one
   * alert per selected date-time, or the one alert carrying the instant.
   */
  method AppendPairAlerts(alerts: seq<Alert>, ty: AlertType, tr: AlertTrigger, t: Timing)
    returns (extended: seq<Alert>)
    ensures extended == alerts + PairAlerts(ty, tr, t)
  {
    extended := alerts;
    if UsesMultipleTimes(t) {
      var times := t.selected.value;
      var k := 0;
      while k < |times|
        invariant 0 <= k <= |times|
        invariant extended == alerts + TimesAlerts(ty, tr, times[..k], t)
      {
        extended := extended + CombineAlertWithDateTime(times[k], tr, ty, t.interval, t.toEpoch);
        TimesAlertsSnoc(ty, tr, times, k, t);
        ConcatAssoc(alerts, TimesAlerts(ty, tr, times[..k], t), CombineAlertWithDateTime(times[k], tr, ty, t.interval, t.toEpoch));
        k := k + 1;
      }
      assert times[..k] == times;
    } else {
      extended := extended + [NewAlert(ty, tr, t.millis, t.interval)];
    }
  }

  /**
   * The nested loops of task creation: for each type, for each trigger,
   * the alerts of that pair, appended in that order.
   */
  method ExpandAlerts(types: seq<AlertType>, triggers: seq<AlertTrigger>, t: Timing)
    returns (alerts: seq<Alert>)
    ensures alerts == Expanded(types, triggers, t)
  {
    alerts := [];
    var i := 0;
    while i < |types|
      invariant 0 <= i <= |types|
      invariant alerts == Expanded(types[..i], triggers, t)
    {
      var ty := types[i];
      ghost var done := alerts;
      var j := 0;
      while j < |triggers|
        invariant 0 <= j <= |triggers|
        invariant alerts == done + TypeAlerts(ty, triggers[..j], t)
      {
        alerts := AppendPairAlerts(alerts, ty, triggers[j], t);
        TypeAlertsSnoc(ty, triggers, j, t);
        ConcatAssoc(done, TypeAlerts(ty, triggers[..j], t), PairAlerts(ty, triggers[j], t));
        j := j + 1;
      }
      assert triggers[..j] == triggers;
      ExpandedSnoc(types, triggers, i, t);
      i := i + 1;
    }
    assert types[..i] == types;
  }

  lemma {:induction false} TimesAlertsAt(ty: AlertType, tr: AlertTrigger, times: seq<LocalDateTime>, t: Timing)
    ensures |TimesAlerts(ty, tr, times, t)| == |times|
    ensures forall k :: 0 <= k < |times| ==>
      TimesAlerts(ty, tr, times, t)[k] == NewAlert(ty, tr, Some(t.toEpoch(times[k])), t.interval)
  {
    if times != [] {
      var n := |times| - 1;
      TimesAlertsAt(ty, tr, times[..n], t);
      forall k | 0 <= k < n
        ensures TimesAlerts(ty, tr, times, t)[k] == NewAlert(ty, tr, Some(t.toEpoch(times[k])), t.interval)
      {
        assert times[..n][k] == times[k];
      }
    }
  }

  /** Each (type, trigger) pair contributes BlockSize alerts, the k-th carrying MillisAt(k). */
  lemma PairAlertsAt(ty: AlertType, tr: AlertTrigger, t: Timing)
    ensures |PairAlerts(ty, tr, t)| == BlockSize(t)
    ensures forall k :: 0 <= k < BlockSize(t) ==> PairAlerts(ty, tr, t)[k] == NewAlert(ty, tr, MillisAt(t, k), t.interval)
  {
    if UsesMultipleTimes(t) {
      TimesAlertsAt(ty, tr, t.selected.value, t);
    }
  }

  /**
   * a copies of c laid end to end: the start of run a when every run has c
   * positions. Equal to a * c (TimesIsProduct); the positional lemmas use it
   * so that their arithmetic stays linear.
   */
  function Times(a: nat, c: nat): nat
  {
    if a == 0 then 0 else Times(a - 1, c) + c
  }

  lemma {:induction false} TimesIsProduct(a: nat, c: nat)
    ensures Times(a, c) == a * c
  {
    if a > 0 {
      TimesIsProduct(a - 1, c);
    }
  }

  /** A run that starts before run b ends before run b starts. */
  lemma {:induction false} TimesBefore(a: nat, b: nat, c: nat, off: nat)
    requires a < b && off < c
    ensures Times(a, c) + off < Times(b, c)
  {
    if a + 1 < b {
      TimesBefore(a, b - 1, c, off);
    }
  }

  /** One type contributes BlockSize alerts per trigger. */
  lemma {:induction false} TypeAlertsLength(ty: AlertType, triggers: seq<AlertTrigger>, t: Timing)
    ensures |TypeAlerts(ty, triggers, t)| == Times(|triggers|, BlockSize(t))
  {
    if triggers != [] {
      var n := |triggers| - 1;
      TypeAlertsLength(ty, triggers[..n], t);
      PairAlertsAt(ty, triggers[n], t);
    }
  }

  /** Within one type's alerts, the alerts of trigger j start at Times(j, BlockSize). */
  lemma {:induction false} TypeAlertsAt(ty: AlertType, triggers: seq<AlertTrigger>, t: Timing, j: nat, k: nat)
    requires j < |triggers| && k < BlockSize(t)
    ensures Times(j, BlockSize(t)) + k < |TypeAlerts(ty, triggers, t)|
    ensures TypeAlerts(ty, triggers, t)[Times(j, BlockSize(t)) + k] == NewAlert(ty, triggers[j], MillisAt(t, k), t.interval)
  {
    var b := BlockSize(t);
    var n := |triggers| - 1;
    var init := triggers[..n];
    var before := TypeAlerts(ty, init, t);
    var last := PairAlerts(ty, triggers[n], t);
    assert |before| == Times(n, b) by { TypeAlertsLength(ty, init, t); }
    assert TypeAlerts(ty, triggers, t) == before + last;
    if j < n {
      TimesBefore(j, n, b, k);
      TypeAlertsAt(ty, init, t, j, k);
      assert init[j] == triggers[j];
      assert (before + last)[Times(j, b) + k] == before[Times(j, b) + k];
    } else {
      assert k < |last| && last[k] == NewAlert(ty, triggers[j], MillisAt(t, k), t.interval) by {
        PairAlertsAt(ty, triggers[n], t);
      }
      assert (before + last)[|before| + k] == last[k];
    }
  }

  /** The expansion holds Times(|triggers|, BlockSize) alerts per type. */
  lemma {:induction false} ExpandedLength(types: seq<AlertType>, triggers: seq<AlertTrigger>, t: Timing)
    ensures |Expanded(types, triggers, t)| == Times(|types|, Times(|triggers|, BlockSize(t)))
  {
    if types != [] {
      var n := |types| - 1;
      ExpandedLength(types[..n], triggers, t);
      TypeAlertsLength(types[n], triggers, t);
    }
  }

  /** The alerts of type i fill the i-th run of g = Times(|triggers|, BlockSize) positions. */
  lemma {:induction false} ExpandedBlock(types: seq<AlertType>, triggers: seq<AlertTrigger>, t: Timing, g: nat, i: nat, off: nat)
    requires g == Times(|triggers|, BlockSize(t))
    requires i < |types| && off < |TypeAlerts(types[i], triggers, t)|
    ensures Times(i, g) + off < |Expanded(types, triggers, t)|
    ensures Expanded(types, triggers, t)[Times(i, g) + off] == TypeAlerts(types[i], triggers, t)[off]
  {
    var n := |types| - 1;
    var init := types[..n];
    var before := Expanded(init, triggers, t);
    var last := TypeAlerts(types[n], triggers, t);
    assert |before| == Times(n, g) by { ExpandedLength(init, triggers, t); }
    assert |last| == g by { TypeAlertsLength(types[n], triggers, t); }
    assert off < g by { TypeAlertsLength(types[i], triggers, t); }
    assert Expanded(types, triggers, t) == before + last;
    if i < n {
      TimesBefore(i, n, g, off);
      ExpandedBlock(init, triggers, t, g, i, off);
      assert init[i] == types[i];
      assert (before + last)[Times(i, g) + off] == before[Times(i, g) + off];
    } else {
      assert (before + last)[|before| + off] == last[off];
    }
  }

  /**
   * Type-major order: the alert for type i, trigger j and the k-th instant
   * sits at position i * (|triggers| * BlockSize) + j * BlockSize + k.
   */
  lemma ExpandedAt(types: seq<AlertType>, triggers: seq<AlertTrigger>, t: Timing, i: nat, j: nat, k: nat)
    requires i < |types| && j < |triggers| && k < BlockSize(t)
    ensures Times(i, Times(|triggers|, BlockSize(t))) + (Times(j, BlockSize(t)) + k) < |Expanded(types, triggers, t)|
    ensures Expanded(types, triggers, t)[Times(i, Times(|triggers|, BlockSize(t))) + (Times(j, BlockSize(t)) + k)]
         == NewAlert(types[i], triggers[j], MillisAt(t, k), t.interval)
  {
    var off := Times(j, BlockSize(t)) + k;
    var ta := TypeAlerts(types[i], triggers, t);
    assert off < |ta| && ta[off] == NewAlert(types[i], triggers[j], MillisAt(t, k), t.interval) by {
      TypeAlertsAt(types[i], triggers, t, j, k);
    }
    ExpandedBlock(types, triggers, t, Times(|triggers|, BlockSize(t)), i, off);
  }

  /** The same position, as a product: i * (|triggers| * BlockSize) + j * BlockSize + k. */
  lemma ExpandedAtProduct(types: seq<AlertType>, triggers: seq<AlertTrigger>, t: Timing, i: nat, j: nat, k: nat)
    requires i < |types| && j < |triggers| && k < BlockSize(t)
    ensures var p := i * (|triggers| * BlockSize(t)) + j * BlockSize(t) + k;
      && 0 <= p < |Expanded(types, triggers, t)|
      && Expanded(types, triggers, t)[p] == NewAlert(types[i], triggers[j], MillisAt(t, k), t.interval)
  {
    ExpandedAt(types, triggers, t, i, j, k);
    TimesIsProduct(|triggers|, BlockSize(t));
    TimesIsProduct(i, Times(|triggers|, BlockSize(t)));
    TimesIsProduct(j, BlockSize(t));
  }

  /** What every alert of the expansion looks like. */
  ghost predicate ExpectedAlert(a: Alert, types: seq<AlertType>, triggers: seq<AlertTrigger>, t: Timing)
  {
    && a.alertId.None? && a.taskId.None? && a.interval == t.interval
    && a.alertTypeName in types && a.alertTriggerName in triggers
    && (if UsesMultipleTimes(t)
        then exists d :: d in t.selected.value && a.eventMillisInEpoch == Some(t.toEpoch(d))
        else a.eventMillisInEpoch == t.millis)
  }

  lemma {:induction false} TypeAlertsMembers(ty: AlertType, triggers: seq<AlertTrigger>, t: Timing)
    ensures forall a :: a in TypeAlerts(ty, triggers, t) ==> ExpectedAlert(a, [ty], triggers, t)
  {
    if triggers != [] {
      var n := |triggers| - 1;
      TypeAlertsMembers(ty, triggers[..n], t);
      PairAlertsAt(ty, triggers[n], t);
      var pair := PairAlerts(ty, triggers[n], t);
      forall a | a in pair
        ensures ExpectedAlert(a, [ty], triggers, t)
      {
        var k :| 0 <= k < |pair| && pair[k] == a;
        if UsesMultipleTimes(t) {
          assert t.selected.value[k] in t.selected.value;
        }
      }
      forall a | a in TypeAlerts(ty, triggers[..n], t)
        ensures ExpectedAlert(a, [ty], triggers, t)
      {
        assert ExpectedAlert(a, [ty], triggers[..n], t);
        var j :| 0 <= j < n && triggers[..n][j] == a.alertTriggerName;
        assert triggers[j] == a.alertTriggerName;
      }
    }
  }

  /**
   * Every alert of the expansion is new (no id, no task), carries the
   * interval, one of the requested types and triggers, and either one of the
   * selected date-times or the given instant.
   */
  lemma {:induction false} ExpandedMembers(types: seq<AlertType>, triggers: seq<AlertTrigger>, t: Timing)
    ensures forall a :: a in Expanded(types, triggers, t) ==> ExpectedAlert(a, types, triggers, t)
  {
    if types != [] {
      var n := |types| - 1;
      ExpandedMembers(types[..n], triggers, t);
      TypeAlertsMembers(types[n], triggers, t);
      forall a | a in Expanded(types[..n], triggers, t)
        ensures ExpectedAlert(a, types, triggers, t)
      {
        assert ExpectedAlert(a, types[..n], triggers, t);
        var i :| 0 <= i < n && types[..n][i] == a.alertTypeName;
        assert types[i] == a.alertTypeName;
      }
      forall a | a in TypeAlerts(types[n], triggers, t)
        ensures ExpectedAlert(a, types, triggers, t)
      {
        assert ExpectedAlert(a, [types[n]], triggers, t);
      }
    }
  }

  /** With a non-empty list of date-times there is one alert per (type, trigger, date-time). */
  lemma MultipleTimesCount(types: seq<AlertType>, triggers: seq<AlertTrigger>, t: Timing)
    requires t.selected.Some? && |t.selected.value| > 0
    ensures |Expanded(types, triggers, t)| == |types| * (|triggers| * |t.selected.value|)
  {
    ExpandedLength(types, triggers, t);
    TimesIsProduct(|triggers|, |t.selected.value|);
    TimesIsProduct(|types|, |triggers| * |t.selected.value|);
  }

  /**
   * Without date-times (none given, or an empty list) there is one alert per
   * (type, trigger), each carrying the given instant (None included) and interval.
   */
  lemma SingleTimeAlerts(types: seq<AlertType>, triggers: seq<AlertTrigger>, t: Timing)
    requires t.selected.None? || t.selected.value == []
    ensures |Expanded(types, triggers, t)| == |types| * |triggers|
    ensures forall a :: a in Expanded(types, triggers, t) ==> a.eventMillisInEpoch == t.millis && a.interval == t.interval
  {
    ExpandedLength(types, triggers, t);
    TimesIsProduct(|triggers|, 1);
    TimesIsProduct(|types|, |triggers|);
    ExpandedMembers(types, triggers, t);
  }

  /** No types or no triggers: nothing to create, and no error. */
  lemma EmptyRequestExpandsToNothing(types: seq<AlertType>, triggers: seq<AlertTrigger>, t: Timing)
    requires types == [] || triggers == []
    ensures Expanded(types, triggers, t) == []
  {
    ExpandedLength(types, triggers, t);
  }
}
