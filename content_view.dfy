/**
 * ContentView's "Check Now" logic: read the battery percentage, show it, and
 * raise an alert and a notification whenever the level is at or below the
 * low threshold or, failing that, at or above the high threshold. There is no
 * memory of earlier alerts and the charging state is not consulted.
 */
module View {
  import opened Wrappers
  import opened NotificationCenter
  import opened Decimal

  /** The two fields of the first power source that the percentage is computed from. */
  datatype CapacityDescription = CapacityDescription(currentCapacity: Option<int>, maxCapacity: Option<int>)

  /**
   * What the power-source query hands back: `None` when the snapshot or the
   * list of sources is unavailable; per source, `None` when its description is
   * unavailable.
   */
  type PowerSources = Option<seq<Option<CapacityDescription>>>

  const LookupFailed: int := -1

  /** Every step of the lookup produced a value: a first source with both capacity fields. */
  predicate LookupSucceeds(query: PowerSources)
  {
    && query.Some?
    && |query.value| > 0
    && query.value[0].Some?
    && query.value[0].value.currentCapacity.Some?
    && query.value[0].value.maxCapacity.Some?
  }

  /**
   * `getBatteryPercentage()`: -1 when any step of the lookup fails; otherwise
   * the percentage of the first source, computed by `percentOf` from its
   * current and maximum capacity (the floating-point arithmetic is not modelled).
   */
  function GetBatteryPercentage(query: PowerSources, percentOf: (int, int) -> int): (p: int)
    ensures !LookupSucceeds(query) ==> p == LookupFailed
    ensures LookupSucceeds(query) ==>
              p == percentOf(query.value[0].value.currentCapacity.value, query.value[0].value.maxCapacity.value)
  {
    match query
    case None => LookupFailed
    case Some(sources) =>
      if sources == [] then LookupFailed
      else match sources[0]
        case None => LookupFailed
        case Some(description) =>
          match (description.currentCapacity, description.maxCapacity)
          case (Some(current), Some(max)) => percentOf(current, max)
          case _ => LookupFailed
  }

  const AlertTitle: string := "Battery Alert"
  const LowPrefix: string := "\U{1F50C} Battery low ("
  const LowSuffix: string := "%) - Please plug in!"
  const HighPrefix: string := "\U{26A1} Battery high ("
  const HighSuffix: string := "%) - Please unplug!"

  /** The low alert text: the plug emoji, then the level in decimal inside the fixed wording. */
  function LowMessage(current: int): (m: string)
    ensures |m| > |LowPrefix| + |LowSuffix|
    ensures m[..|LowPrefix|] == LowPrefix && m[|m| - |LowSuffix|..] == LowSuffix
  {
    LowPrefix + IntToString(current) + LowSuffix
  }

  /** The high alert text: the lightning emoji, then the level in decimal inside the fixed wording. */
  function HighMessage(current: int): (m: string)
    ensures |m| > |HighPrefix| + |HighSuffix|
    ensures m[..|HighPrefix|] == HighPrefix && m[|m| - |HighSuffix|..] == HighSuffix
  {
    HighPrefix + IntToString(current) + HighSuffix
  }

  /** The low message carries the level it was raised for, in decimal, between its fixed parts. */
  lemma LowMessageEmbedsLevel(current: int)
    ensures var m := LowMessage(current);
            |m| >= |LowPrefix| + |LowSuffix| && ParseInt(m[|LowPrefix| .. |m| - |LowSuffix|]) == current
  {
    var m := LowMessage(current);
    assert m[|LowPrefix| .. |m| - |LowSuffix|] == IntToString(current);
    ParseIntToString(current);
  }

  /** The high message carries the level it was raised for, in decimal, between its fixed parts. */
  lemma HighMessageEmbedsLevel(current: int)
    ensures var m := HighMessage(current);
            |m| >= |HighPrefix| + |HighSuffix| && ParseInt(m[|HighPrefix| .. |m| - |HighSuffix|]) == current
  {
    var m := HighMessage(current);
    assert m[|HighPrefix| .. |m| - |HighSuffix|] == IntToString(current);
    ParseIntToString(current);
  }

  /** A low message never reads as a high one: they differ in their first character. */
  lemma LowAndHighMessagesDiffer(a: int, b: int)
    ensures LowMessage(a) != HighMessage(b)
  {
    assert LowMessage(a)[0] != HighMessage(b)[0];
  }

  /** The alert text for a level, if the level calls for one. */
  function AlertFor(current: int, low: int, high: int): (message: Option<string>)
    ensures message.Some? <==> current <= low || current >= high
    ensures current <= low ==> message == Some(LowMessage(current))
    ensures low < current && current >= high ==> message == Some(HighMessage(current))
  {
    if current <= low then Some(LowMessage(current))
    else if current >= high then Some(HighMessage(current))
    else None
  }

  /** The low rule wins when a level satisfies both, as it can when low >= high. */
  lemma LowTakesPrecedence(current: int, low: int, high: int)
    requires current <= low && current >= high
    ensures AlertFor(current, low, high) == Some(LowMessage(current))
  {
  }

  /** A failed lookup reads as level -1, which raises the low alert whenever low >= -1. */
  lemma FailedLookupAlertsLow(query: PowerSources, percentOf: (int, int) -> int, low: int, high: int)
    requires !LookupSucceeds(query) && low >= LookupFailed
    ensures AlertFor(GetBatteryPercentage(query, percentOf), low, high) == Some(LowMessage(-1))
  {
  }

  class ContentView {
    var batteryLevel: int
    var lowThreshold: int
    var highThreshold: int
    var showAlert: bool
    var alertMessage: string
    /** Every request handed to the notification center so far. */
    var outbox: seq<Request>

    constructor ()
      ensures batteryLevel == 100 && lowThreshold == 20 && highThreshold == 80
      ensures !showAlert && alertMessage == "" && outbox == []
    {
      batteryLevel := 100;
      lowThreshold := 20;
      highThreshold := 80;
      showAlert := false;
      alertMessage := "";
      outbox := [];
    }

    /**
     * `checkBattery()`: stores the level just read; on a low or high level sets
     * the message, shows the alert and posts one notification, every time.
     */
    method CheckBattery(query: PowerSources, percentOf: (int, int) -> int)
      modifies this`batteryLevel, this`alertMessage, this`showAlert, this`outbox
      ensures batteryLevel == GetBatteryPercentage(query, percentOf)
      ensures match AlertFor(batteryLevel, lowThreshold, highThreshold)
              case Some(message) =>
                alertMessage == message && showAlert && outbox == old(outbox) + [Request(AlertTitle, message)]
              case None =>
                alertMessage == old(alertMessage) && showAlert == old(showAlert) && outbox == old(outbox)
    {
      var current := GetBatteryPercentage(query, percentOf);
      batteryLevel := current;

      if current <= lowThreshold {
        alertMessage := LowPrefix + IntToString(current) + LowSuffix;
        showAlert := true;
        TriggerNotification(alertMessage);
      } else if current >= highThreshold {
        alertMessage := HighPrefix + IntToString(current) + HighSuffix;
        showAlert := true;
        TriggerNotification(alertMessage);
      }
    }

    /** `triggerNotification(_:)`: one request titled "Battery Alert". */
    method TriggerNotification(message: string)
      modifies this`outbox
      ensures outbox == old(outbox) + [Request(AlertTitle, message)]
    {
      outbox := outbox + [Request(AlertTitle, message)];
    }
  }
}
