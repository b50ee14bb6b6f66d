# BatteryAlert threshold alerting, modelled in Dafny

BatteryAlert is a macOS menu-bar app that samples the battery and posts a
notification when the charge is low while on battery or high while on mains
power. This project models the three parts of it that hold the alerting logic:

- `BatteryMonitor` (`battery_monitor.dfy`, module `Monitor`): a class with the
  one-slot alert memory `lastNotificationType`, the repeating timer and an
  outbox of posted notifications. `CheckBatteryStatus` walks the power-source
  descriptions with a `for` loop and applies the three threshold rules to each.
  It is proved against `Run`, a fold of the decision table `Evaluate` over the
  readings. The lemmas about `Run` and `Evaluate` state the alerting
  behaviour: an alert fires once, repeats are suppressed, a reading inside the
  band re-arms, and incomplete descriptions are skipped.
- `ContentView.checkBattery` (`content_view.dfy`, module `View`): a second,
  independent rule with no memory. It stores the level, and it alerts low, or
  else high, on every check. `getBatteryPercentage` returns -1 when any step of
  the power-source lookup fails.
- `SettingsManager` (`settings_manager.dfy`, module `Settings`): the
  thresholds are kept in a shared key-to-integer store (`UserDefaults`), where
  an unset key reads as 0. `init` replaces a low value of 0 with 20 and a high
  value of 0 with 80.

Helper modules: `Wrappers` (Option), `NotificationCenter` (the title/body
request that stands for a posted notification) and `Decimal` (Swift's
interpolation of an `Int` into a string, with a parser proving it injective).

Behaviours of the code that the model keeps as written:
- The alert memory is one variable shared by all power sources, not one per
  source. `Monitor.SharedMemoryRealerts` shows the effect: one low source
  plus one in-band source re-alert on every check.
- `stopMonitoring` does not clear the memory.
- No poll-interval floor is applied.
- Nothing in SettingsManager checks that low < high, or that thresholds lie in a range.
- No sound preference exists: the monitor's notifications use the default sound, and the view's notifications set no sound.
- The rules are three independent `if`s, not an else-chain. Because the low
  rule needs battery power and the high rule needs mains power, at most one
  notification is posted per reading. A direct low-to-high switch is possible
  with no return to the band.

## Model

| member | source | states |
|---|---|---|
| `Monitor.Evaluate` | BatteryAlert/BatteryMonitor.swift:51-71 | One reading posts at most one notification. A notification is posted exactly when the memory switches to a kind it did not hold, and it is the one for that kind. A description missing capacity or power state changes nothing. |
| `Monitor.Run` | BatteryAlert/BatteryMonitor.swift:48-73 | One check posts at most one notification per source, each of them "Low Battery" or "High Battery". |
| `Monitor.RunAppend` | BatteryAlert/BatteryMonitor.swift:44-73 | Two checks in a row equal one check over both lists: the second starts from the memory the first left, and the outbox gets both checks' notifications in order. |
| `Monitor.LowSuppressed` | BatteryAlert/BatteryMonitor.swift:57-60 | While the memory is low, any number of low readings on battery post nothing and keep the memory low. |
| `Monitor.HighSuppressed` | BatteryAlert/BatteryMonitor.swift:63-66 | While the memory is high, any number of high readings on mains post nothing and keep the memory high. |
| `Monitor.IncompleteSkipped` | BatteryAlert/BatteryMonitor.swift:51-52 | Descriptions lacking the capacity or the power-state field leave the memory and the outbox unchanged. |
| `Monitor.LowAlert` | BatteryAlert/BatteryMonitor.swift:57-60 | Capacity <= low, not on AC power, memory not low: exactly one "Low Battery"/"Please plug in the charger" notification, and the memory becomes low. |
| `Monitor.HighAlert` | BatteryAlert/BatteryMonitor.swift:63-66 | Capacity >= high, on AC power, memory not high: exactly one "High Battery"/"Please unplug the charger" notification, and the memory becomes high. This holds even straight after a low alert. |
| `Monitor.BandResets` | BatteryAlert/BatteryMonitor.swift:69-71 | A reading strictly between the thresholds clears the memory, whatever it held, and posts nothing. |
| `Monitor.WrongDirectionOnThreshold` | BatteryAlert/BatteryMonitor.swift:57-71 | With low < high, a reading at the low threshold on AC power, or at the high threshold on battery, leaves the memory as it was and posts nothing. |
| `Monitor.DeadZoneUnchanged` | BatteryAlert/BatteryMonitor.swift:57-71 | A complete reading that is not low on battery, not high on mains and not strictly inside the band keeps the memory as it was and posts nothing, for any thresholds (including low >= high). |
| `Monitor.LowHeldOutsideBand` | BatteryAlert/BatteryMonitor.swift:57-71 | From a low memory, any run of readings none of which is inside the band or high on mains keeps the memory low and posts nothing; unplugging while low, or reading high on battery, does not re-alert. |
| `Monitor.HighHeldOutsideBand` | BatteryAlert/BatteryMonitor.swift:57-71 | From a high memory, any run of readings none of which is inside the band or low on battery keeps the memory high and posts nothing. |
| `Monitor.OnlyBandClears` | BatteryAlert/BatteryMonitor.swift:57-71 | An armed memory becomes empty exactly when the reading lies strictly inside the band. |
| `Monitor.SharedMemoryRealerts` | BatteryAlert/BatteryMonitor.swift:48-71 | With a low source on battery and an in-band source, each of n checks posts a fresh low alert: the memory is shared by all sources. |
| `Monitor.Scenario` | BatteryAlert/BatteryMonitor.swift:54-71 | At thresholds 20/80 the readings 25, 18, 15, 25 on battery and then 85 on mains give: nothing, low alert, suppressed, reset, high alert. |
| `Monitor.Timer.constructor` | BatteryAlert/BatteryMonitor.swift:28 | A newly scheduled timer is live and carries the interval it was scheduled with. |
| `Monitor.Timer.Invalidate` | BatteryAlert/BatteryMonitor.swift:35 | After `invalidate()` the timer is no longer live. |
| `Monitor.BatteryMonitor.constructor` | BatteryAlert/BatteryMonitor.swift:15-18 | A new monitor starts monitoring: it has a live timer with the given interval, and it has run one check from an empty memory. |
| `Monitor.BatteryMonitor.StartMonitoring` | BatteryAlert/BatteryMonitor.swift:24-32 | The previous timer, if any, is invalidated. A fresh live timer with the given interval becomes the only one the monitor holds. One check runs immediately from the old memory. |
| `Monitor.BatteryMonitor.StopMonitoring` | BatteryAlert/BatteryMonitor.swift:34-37 | The timer is invalidated and dropped. The alert memory and the outbox are unchanged. |
| `Monitor.BatteryMonitor.UpdateCheckInterval` | BatteryAlert/BatteryMonitor.swift:39-42 | Same as a restart: a fresh live timer with the new interval, the old timer invalidated, and one immediate check. |
| `Monitor.BatteryMonitor.Tick` | BatteryAlert/BatteryMonitor.swift:28-31 | The live timer fires: one check over the current readings, as `Run` from the current memory. |
| `Monitor.BatteryMonitor.CheckBatteryStatus` | BatteryAlert/BatteryMonitor.swift:44-74 | The loop with its three independent `if`s leaves the memory and the outbox exactly as `Run` over the readings says. |
| `Monitor.BatteryMonitor.ShowNotification` | BatteryAlert/BatteryMonitor.swift:76-93 | Appends exactly one request with the given title and body to the outbox. |
| `Settings.IntegerForKey` | BatteryAlert/SettingsManager.swift:10 | A key reads as its stored value, or as 0 when it was never set. |
| `Settings.WithDefaults` | BatteryAlert/SettingsManager.swift:26-34 | After `init` both thresholds read as nonzero. A threshold that read 0 (stored or unset) reads 20 (low) or 80 (high). A nonzero value is kept as it is, including negative values, values over 100 and low >= high. Other keys are untouched. |
| `Settings.WithDefaultsIdempotent` | BatteryAlert/SettingsManager.swift:26-34 | Running `init` twice over the same store gives the same store as running it once. |
| `Settings.StoredZeroIsUnset` | BatteryAlert/SettingsManager.swift:28-30 | A low threshold stored as 0 is indistinguishable from an unset one: `init` produces the same store for both. |
| `Settings.StoredZeroIsUnsetHigh` | BatteryAlert/SettingsManager.swift:31-33 | A high threshold stored as 0 is indistinguishable from an unset one: `init` produces the same store for both. |
| `Settings.UserDefaults.Integer` | BatteryAlert/SettingsManager.swift:10 | A key reads as its stored value, or as 0 when it was never set. |
| `Settings.SettingsManager.LowThreshold` | BatteryAlert/SettingsManager.swift:9-11 | The low threshold is the value stored under "lowThreshold", or 0 when none is stored. |
| `Settings.SettingsManager.HighThreshold` | BatteryAlert/SettingsManager.swift:18-20 | The high threshold is the value stored under "highThreshold", or 0 when none is stored. |
| `Settings.UserDefaults.Set` | BatteryAlert/SettingsManager.swift:13 | Storing a value under a key makes that key read as the value and leaves every other key as it read before. |
| `Settings.SettingsManager.constructor` | BatteryAlert/SettingsManager.swift:26-34 | The shared store becomes `WithDefaults` of what it held before. |
| `Settings.SettingsManager.SetLowThreshold` | BatteryAlert/SettingsManager.swift:12-14 | The low threshold reads back as the value set. The high threshold is unchanged. |
| `Settings.SettingsManager.SetHighThreshold` | BatteryAlert/SettingsManager.swift:21-23 | The high threshold reads back as the value set. The low threshold is unchanged. |
| `Decimal.IntToString` | BatteryAlert/ContentView.swift:53 | The interpolated text of an `Int` is never empty and starts with '-' exactly when the value is negative. |
| `Decimal.ParseIntToString` | BatteryAlert/ContentView.swift:53 | Reading back the decimal text interpolated for an `Int` (negative values included) gives the same value. |
| `View.GetBatteryPercentage` | BatteryAlert/ContentView.swift:71-82 | Any failed step of the lookup gives -1: no snapshot or source list, no first source, no description, or no current or maximum capacity. Otherwise the result is the percentage computed from the first source's current and maximum capacity. |
| `View.LowMessage` | BatteryAlert/ContentView.swift:53 | The low alert text starts with the fixed "Battery low (" prefix (after the plug emoji) and ends with "%) - Please plug in!", with the level in between. |
| `View.HighMessage` | BatteryAlert/ContentView.swift:57 | The high alert text starts with the fixed "Battery high (" prefix (after the lightning emoji) and ends with "%) - Please unplug!", with the level in between. |
| `View.LowMessageEmbedsLevel` | BatteryAlert/ContentView.swift:53 | The low alert text holds the level it was raised for, in decimal, between its fixed prefix and suffix. |
| `View.HighMessageEmbedsLevel` | BatteryAlert/ContentView.swift:57 | The high alert text holds the level it was raised for, in decimal, between its fixed prefix and suffix. |
| `View.LowAndHighMessagesDiffer` | BatteryAlert/ContentView.swift:53-57 | No low alert text equals a high alert text, whatever the levels. |
| `View.AlertFor` | BatteryAlert/ContentView.swift:52-60 | A level calls for an alert exactly when it is <= low or >= high; a level strictly between them calls for none. A level <= low gets the low message for that level; a level above low and >= high gets the high message. |
| `View.LowTakesPrecedence` | BatteryAlert/ContentView.swift:52-56 | When a level is both <= low and >= high (possible when low >= high), the low message is chosen. |
| `View.FailedLookupAlertsLow` | BatteryAlert/ContentView.swift:71-79 | A failed lookup yields level -1. With low >= -1, that level raises the low alert showing "-1". |
| `View.ContentView.constructor` | BatteryAlert/ContentView.swift:6-10 | Initial state: level 100, thresholds 20/80, no alert shown, empty message. |
| `View.ContentView.CheckBattery` | BatteryAlert/ContentView.swift:48-61 | The level is always set to the value read. On an alerting level, the message is set, the alert is shown and one "Battery Alert" notification is appended, on every call with no suppression. Otherwise the message, the alert flag and the outbox are unchanged. |
| `View.ContentView.TriggerNotification` | BatteryAlert/ContentView.swift:63-69 | Appends exactly one request titled "Battery Alert" whose body is the message. |

## Left out

- IOKit power-source queries (BatteryAlert/BatteryMonitor.swift:45-49, BatteryAlert/ContentView.swift:72-77) are foreign calls. Their results are inputs: a sequence of descriptions with optional fields, or an optional list of optional descriptions.
- Monitor.BatteryMonitor.CheckBatteryStatus: assumes the snapshot, the source list and every description are present. The monitor unwraps them with `takeRetainedValue()` and no optional check (BatteryAlert/BatteryMonitor.swift:45, :46, :49), so a missing one would trap rather than be skipped; that failure path is not modelled. ContentView guards the same calls and returns -1 (BatteryAlert/ContentView.swift:72-78).
- Memory management is not modelled: BatteryAlert/BatteryMonitor.swift:49 takes a retained value from `IOPSGetPowerSourceDescription`, which follows the Get rule, so each check releases a description it does not own; BatteryAlert/ContentView.swift:75 uses `takeUnretainedValue()` for the same call.
- The percentage `Int((Double(current) / Double(max)) * 100)` (BatteryAlert/ContentView.swift:81) is floating-point arithmetic. It is a function parameter, so the model says nothing about rounding. It also says nothing about a zero maximum capacity, where the conversion of an infinite or NaN value would trap.
- Notification center requests, their identifiers, their sound and the completion handlers are reduced to appending (title, body) to an outbox. The monitor's requests set the default sound (BatteryAlert/BatteryMonitor.swift:80); the view's requests set none (BatteryAlert/ContentView.swift:63-69). There is no sound preference to model.
- Timer scheduling and time: the run loop, the actual interval elapsing, `[weak self]` (BatteryAlert/BatteryMonitor.swift:28) and `deinit` (BatteryAlert/BatteryMonitor.swift:20-22) are not modelled. A timer is an object with an interval and a validity flag, and a tick is a call made while the monitor's timer is live.
- `settingsManager.checkInterval` (BatteryAlert/BatteryMonitor.swift:28) is not defined in SettingsManager.swift. The interval is a parameter of start, restart and the constructor, with no minimum applied.
- ContentView's own 60-second timer (BatteryAlert/ContentView.swift:43-45) and the SwiftUI layout, text fields and alert dismissal (BatteryAlert/ContentView.swift:12-40) are UI and scheduling. The threshold fields are plain fields.
- The status bar, menus and threshold dialogs (BatteryAlert/BatteryAlertApp.swift:58-113) are UI. Their 0...100 input check is not imposed on the setters, which accept any integer, as SettingsManager itself does.
- `UserDefaults` persistence across launches, and values of other types under the threshold keys, are outside the key-to-integer store.
- Launch-at-login registration (BatteryAlert/NSWorkspace+LoginItem.swift:5-20) consists only of foreign calls.
- Concurrency: ticks and settings changes run one at a time in the model, as on the app's main run loop.
