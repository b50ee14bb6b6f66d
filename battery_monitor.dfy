/**
 * BatteryMonitor: polls the power sources on a repeating timer and posts a
 * "Low Battery" or "High Battery" notification when a threshold is crossed.
 * One memory slot, `lastNotificationType`, shared by every power source,
 * suppresses a repeat of the same alert until a reading falls strictly
 * between the thresholds.
 */
module Monitor {
  import opened Wrappers
  import opened NotificationCenter
  import opened Settings

  datatype Kind = Low | High

  /** The value of the power-source-state key while on mains power (IOKit's kIOPSACPowerValue). */
  const ACPowerValue: string := "AC Power"

  const LowBatteryNotice: Request := Request("Low Battery", "Please plug in the charger")
  const HighBatteryNotice: Request := Request("High Battery", "Please unplug the charger")

  function NoticeFor(kind: Kind): Request
  {
    match kind
    case Low => LowBatteryNotice
    case High => HighBatteryNotice
  }

  /**
   * The two fields of one power source's description that the monitor reads;
   * `None` when the key is absent or holds a value of another type.
   */
  datatype SourceDescription = SourceDescription(capacity: Option<int>, powerSourceState: Option<string>)

  /** The memory after some readings, and the notifications they posted, in order. */
  datatype Verdict = Verdict(last: Option<Kind>, posted: seq<Request>)

  predicate Complete(d: SourceDescription)
  {
    d.capacity.Some? && d.powerSourceState.Some?
  }

  predicate Charging(d: SourceDescription)
    requires Complete(d)
  {
    d.powerSourceState.value == ACPowerValue
  }

  /** A complete reading at or below the low threshold while on battery. */
  predicate LowAndDischarging(d: SourceDescription, low: int)
  {
    Complete(d) && d.capacity.value <= low && !Charging(d)
  }

  /** A complete reading at or above the high threshold while on mains power. */
  predicate HighAndCharging(d: SourceDescription, high: int)
  {
    Complete(d) && d.capacity.value >= high && Charging(d)
  }

  /** A complete reading strictly between the two thresholds. */
  predicate InBand(d: SourceDescription, low: int, high: int)
  {
    Complete(d) && low < d.capacity.value < high
  }

  /**
   * The decision for one power source, as a table: an incomplete description
   * is skipped; a low reading on battery alerts unless the memory already says
   * low; a high reading on mains alerts unless the memory already says high; a
   * reading inside the band forgets the memory; anything else leaves it alone.
   */
  function Evaluate(last: Option<Kind>, d: SourceDescription, low: int, high: int): (v: Verdict)
    ensures |v.posted| <= 1
    ensures v.posted != [] ==> v.last.Some? && v.last != last && v.posted == [NoticeFor(v.last.value)]
    ensures v.last.Some? && v.last != last ==> v.posted == [NoticeFor(v.last.value)]
    ensures !Complete(d) ==> v == Verdict(last, [])
  {
    if !Complete(d) then Verdict(last, [])
    else if LowAndDischarging(d, low) then
      if last == Some(Low) then Verdict(last, []) else Verdict(Some(Low), [LowBatteryNotice])
    else if HighAndCharging(d, high) then
      if last == Some(High) then Verdict(last, []) else Verdict(Some(High), [HighBatteryNotice])
    else if InBand(d, low, high) then Verdict(None, [])
    else Verdict(last, [])
  }

  /** The readings of one check, taken in order, starting from the memory `last`. */
  function Run(last: Option<Kind>, sources: seq<SourceDescription>, low: int, high: int): (v: Verdict)
    ensures |v.posted| <= |sources|
    ensures forall i :: 0 <= i < |v.posted| ==> v.posted[i] == LowBatteryNotice || v.posted[i] == HighBatteryNotice
    decreases |sources|
  {
    if sources == [] then Verdict(last, [])
    else
      var before := Run(last, sources[..|sources| - 1], low, high);
      var step := Evaluate(before.last, sources[|sources| - 1], low, high);
      Verdict(step.last, before.posted + step.posted)
  }

  /** Two checks in a row act as one check over both lists of readings. */
  lemma {:induction false} RunAppend(last: Option<Kind>, a: seq<SourceDescription>, b: seq<SourceDescription>, low: int, high: int)
    ensures var first := Run(last, a, low, high);
            var second := Run(first.last, b, low, high);
            Run(last, a + b, low, high) == Verdict(second.last, first.posted + second.posted)
    decreases |b|
  {
    if b != [] {
      assert (a + b)[..|a + b| - 1] == a + b[..|b| - 1];
      RunAppend(last, a, b[..|b| - 1], low, high);
    } else {
      assert a + b == a;
    }
  }

  /** Once the memory says low, any number of further low readings on battery post nothing. */
  lemma {:induction false} LowSuppressed(sources: seq<SourceDescription>, low: int, high: int)
    requires forall i :: 0 <= i < |sources| ==> LowAndDischarging(sources[i], low)
    ensures Run(Some(Low), sources, low, high) == Verdict(Some(Low), [])
    decreases |sources|
  {
    if sources != [] {
      LowSuppressed(sources[..|sources| - 1], low, high);
    }
  }

  /** Once the memory says high, any number of further high readings on mains post nothing. */
  lemma {:induction false} HighSuppressed(sources: seq<SourceDescription>, low: int, high: int)
    requires forall i :: 0 <= i < |sources| ==> HighAndCharging(sources[i], high)
    ensures Run(Some(High), sources, low, high) == Verdict(Some(High), [])
    decreases |sources|
  {
    if sources != [] {
      HighSuppressed(sources[..|sources| - 1], low, high);
    }
  }

  /** Descriptions missing a field change neither the memory nor the notifications. */
  lemma {:induction false} IncompleteSkipped(last: Option<Kind>, sources: seq<SourceDescription>, low: int, high: int)
    requires forall i :: 0 <= i < |sources| ==> !Complete(sources[i])
    ensures Run(last, sources, low, high) == Verdict(last, [])
    decreases |sources|
  {
    if sources != [] {
      IncompleteSkipped(last, sources[..|sources| - 1], low, high);
    }
  }

  /** A low reading on battery alerts exactly once when the memory is not low. */
  lemma LowAlert(last: Option<Kind>, d: SourceDescription, low: int, high: int)
    requires LowAndDischarging(d, low) && last != Some(Low)
    ensures Evaluate(last, d, low, high) == Verdict(Some(Low), [LowBatteryNotice])
  {
  }

  /** A high reading on mains alerts exactly once when the memory is not high, even straight after a low alert. */
  lemma HighAlert(last: Option<Kind>, d: SourceDescription, low: int, high: int)
    requires HighAndCharging(d, high) && last != Some(High)
    ensures Evaluate(last, d, low, high) == Verdict(Some(High), [HighBatteryNotice])
  {
  }

  /** A reading strictly inside the band forgets the memory, whatever it held, and posts nothing. */
  lemma BandResets(last: Option<Kind>, d: SourceDescription, low: int, high: int)
    requires InBand(d, low, high)
    ensures Evaluate(last, d, low, high) == Verdict(None, [])
  {
  }

  /**
   * A reading on a threshold in the wrong direction (at the low threshold on
   * mains, or at the high threshold on battery) changes nothing, provided it is
   * not also past the other threshold.
   */
  lemma WrongDirectionOnThreshold(last: Option<Kind>, d: SourceDescription, low: int, high: int)
    requires Complete(d) && low < high
    requires (d.capacity.value == low && Charging(d)) || (d.capacity.value == high && !Charging(d))
    ensures Evaluate(last, d, low, high) == Verdict(last, [])
  {
  }

  /**
   * A complete reading that is neither low on battery, nor high on mains, nor
   * inside the band fires none of the three rules: the memory is kept and
   * nothing is posted, whatever the thresholds.
   */
  lemma DeadZoneUnchanged(last: Option<Kind>, d: SourceDescription, low: int, high: int)
    requires Complete(d) && !LowAndDischarging(d, low) && !HighAndCharging(d, high) && !InBand(d, low, high)
    ensures Evaluate(last, d, low, high) == Verdict(last, [])
  {
  }

  /**
   * Once the memory says low, it stays low and nothing is posted until a
   * reading inside the band or a high reading on mains: in particular
   * unplugging while still low does not re-alert.
   */
  lemma {:induction false} LowHeldOutsideBand(sources: seq<SourceDescription>, low: int, high: int)
    requires forall i :: 0 <= i < |sources| ==> !InBand(sources[i], low, high) && !HighAndCharging(sources[i], high)
    ensures Run(Some(Low), sources, low, high) == Verdict(Some(Low), [])
    decreases |sources|
  {
    if sources != [] {
      LowHeldOutsideBand(sources[..|sources| - 1], low, high);
    }
  }

  /**
   * Once the memory says high, it stays high and nothing is posted until a
   * reading inside the band or a low reading on battery.
   */
  lemma {:induction false} HighHeldOutsideBand(sources: seq<SourceDescription>, low: int, high: int)
    requires forall i :: 0 <= i < |sources| ==> !InBand(sources[i], low, high) && !LowAndDischarging(sources[i], low)
    ensures Run(Some(High), sources, low, high) == Verdict(Some(High), [])
    decreases |sources|
  {
    if sources != [] {
      HighHeldOutsideBand(sources[..|sources| - 1], low, high);
    }
  }

  /** The memory is re-armed only by a reading inside the band: the one way to reach `None`. */
  lemma OnlyBandClears(last: Option<Kind>, d: SourceDescription, low: int, high: int)
    requires last.Some?
    ensures Evaluate(last, d, low, high).last.None? <==> InBand(d, low, high)
  {
  }

  /**
   * The memory is shared by all sources: one source sitting low on battery and
   * another inside the band post a fresh low alert on every check.
   */
  lemma {:induction false} SharedMemoryRealerts(lowSource: SourceDescription, bandSource: SourceDescription, low: int, high: int, checks: nat)
    requires LowAndDischarging(lowSource, low) && InBand(bandSource, low, high)
    ensures Run(None, Repeat([lowSource, bandSource], checks), low, high) == Verdict(None, Repeat([LowBatteryNotice], checks))
  {
    if checks > 0 {
      var pair := [lowSource, bandSource];
      SharedMemoryRealerts(lowSource, bandSource, low, high, checks - 1);
      RunAppend(None, Repeat(pair, checks - 1), pair, low, high);
      assert pair[..1] == [lowSource] && [lowSource][..0] == [];
      assert Run(None, [lowSource], low, high) == Verdict(Some(Low), [LowBatteryNotice]);
      BandResets(Some(Low), bandSource, low, high);
      assert Run(None, pair, low, high) == Verdict(None, [LowBatteryNotice]);
    }
  }

  function Repeat<T>(s: seq<T>, n: nat): (r: seq<T>)
    ensures |r| == |s| * n
  {
    if n == 0 then [] else Repeat(s, n - 1) + s
  }

  /** The battery check at 20/80: 25, 18, 15, 25 on battery, then 85 on mains. */
  lemma Scenario()
    ensures var battery := SourceDescription(Some(0), Some("Battery Power"));
            var mains := SourceDescription(Some(0), Some(ACPowerValue));
            var s1 := Evaluate(None, battery.(capacity := Some(25)), 20, 80);
            var s2 := Evaluate(s1.last, battery.(capacity := Some(18)), 20, 80);
            var s3 := Evaluate(s2.last, battery.(capacity := Some(15)), 20, 80);
            var s4 := Evaluate(s3.last, battery.(capacity := Some(25)), 20, 80);
            var s5 := Evaluate(s4.last, mains.(capacity := Some(85)), 20, 80);
            && s1 == Verdict(None, [])
            && s2 == Verdict(Some(Low), [LowBatteryNotice])
            && s3 == Verdict(Some(Low), [])
            && s4 == Verdict(None, [])
            && s5 == Verdict(Some(High), [HighBatteryNotice])
  {
  }

  /** A scheduled timer; `invalidate()` stops it for good. */
  class Timer {
    const interval: real
    var isValid: bool

    constructor (interval: real)
      ensures this.interval == interval && isValid
    {
      this.interval := interval;
      isValid := true;
    }

    method Invalidate()
      modifies this
      ensures !isValid
    {
      isValid := false;
    }
  }

  class BatteryMonitor {
    var timer: Timer?
    const settingsManager: SettingsManager
    var lastNotificationType: Option<Kind>
    /** Every request handed to the notification center so far. */
    var outbox: seq<Request>

    /** The monitor's timer, when it has one, is live. */
    ghost predicate Valid()
      reads this, timer
    {
      timer != null ==> timer.isValid
    }

    /** `init(settingsManager:)`: starts monitoring at once; the first check reads `sources`. */
    constructor (settingsManager: SettingsManager, interval: real, sources: seq<SourceDescription>)
      ensures Valid() && this.settingsManager == settingsManager
      ensures timer != null && fresh(timer) && timer.interval == interval
      ensures var v := Run(None, sources, settingsManager.LowThreshold(), settingsManager.HighThreshold());
              lastNotificationType == v.last && outbox == v.posted
    {
      this.settingsManager := settingsManager;
      timer := null;
      lastNotificationType := None;
      outbox := [];
      new;
      StartMonitoring(interval, sources);
    }

    /** `startMonitoring()`: drops any running timer, schedules a new one and fires it once. */
    method StartMonitoring(interval: real, sources: seq<SourceDescription>)
      requires Valid()
      modifies this, timer
      ensures Valid() && timer != null && fresh(timer) && timer.interval == interval
      ensures old(timer) != null ==> !old(timer).isValid
      ensures var v := Run(old(lastNotificationType), sources, settingsManager.LowThreshold(), settingsManager.HighThreshold());
              lastNotificationType == v.last && outbox == old(outbox) + v.posted
    {
      StopMonitoring();
      timer := new Timer(interval);
      Tick(sources);
    }

    /** `stopMonitoring()`: invalidates the timer; the alert memory is kept. */
    method StopMonitoring()
      requires Valid()
      modifies this`timer, timer
      ensures Valid() && timer == null
      ensures old(timer) != null ==> !old(timer).isValid
      ensures lastNotificationType == old(lastNotificationType) && outbox == old(outbox)
    {
      if timer != null {
        timer.Invalidate();
      }
      timer := null;
    }

    /** `updateCheckInterval()`: restarts monitoring with the new interval. */
    method UpdateCheckInterval(interval: real, sources: seq<SourceDescription>)
      requires Valid()
      modifies this, timer
      ensures Valid() && timer != null && fresh(timer) && timer.interval == interval
      ensures old(timer) != null ==> !old(timer).isValid
      ensures var v := Run(old(lastNotificationType), sources, settingsManager.LowThreshold(), settingsManager.HighThreshold());
              lastNotificationType == v.last && outbox == old(outbox) + v.posted
    {
      StartMonitoring(interval, sources);
    }

    /** The live timer fires (on schedule, or through `fire()`): one check. */
    method Tick(sources: seq<SourceDescription>)
      requires Valid() && timer != null
      modifies this`lastNotificationType, this`outbox
      ensures var v := Run(old(lastNotificationType), sources, settingsManager.LowThreshold(), settingsManager.HighThreshold());
              lastNotificationType == v.last && outbox == old(outbox) + v.posted
    {
      CheckBatteryStatus(sources);
    }

    /** `checkBatteryStatus()`: the three threshold rules, applied to each source in turn. */
    method CheckBatteryStatus(sources: seq<SourceDescription>)
      modifies this`lastNotificationType, this`outbox
      ensures var v := Run(old(lastNotificationType), sources, settingsManager.LowThreshold(), settingsManager.HighThreshold());
              lastNotificationType == v.last && outbox == old(outbox) + v.posted
    {
      ghost var last0, outbox0 := lastNotificationType, outbox;
      ghost var low, high := settingsManager.LowThreshold(), settingsManager.HighThreshold();
      for i := 0 to |sources|
        invariant lastNotificationType == Run(last0, sources[..i], low, high).last
        invariant outbox == outbox0 + Run(last0, sources[..i], low, high).posted
      {
        var info := sources[i];
        if info.capacity.Some? && info.powerSourceState.Some? {
          var capacity := info.capacity.value;
          var charging := info.powerSourceState.value == ACPowerValue;

          if capacity <= settingsManager.LowThreshold() && !charging && lastNotificationType != Some(Low) {
            ShowNotification("Low Battery", "Please plug in the charger");
            lastNotificationType := Some(Low);
          }

          if capacity >= settingsManager.HighThreshold() && charging && lastNotificationType != Some(High) {
            ShowNotification("High Battery", "Please unplug the charger");
            lastNotificationType := Some(High);
          }

          if capacity > settingsManager.LowThreshold() && capacity < settingsManager.HighThreshold() {
            lastNotificationType := None;
          }
        }
        assert sources[..i + 1][..i] == sources[..i];
      }
      assert sources[..|sources|] == sources;
    }

    /** `showNotification(title:body:)`: one request to the notification center. */
    method ShowNotification(title: string, body: string)
      modifies this`outbox
      ensures outbox == old(outbox) + [Request(title, body)]
    {
      outbox := outbox + [Request(title, body)];
    }
  }
}
