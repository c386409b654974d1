# Daily calendar alarm — a Dafny model of the alarm decision engine

The app rings an alarm a fixed lead time (the *offset*, in minutes) before the
first timed event of the day in the device's calendar. This project models:

- the alarm service (`AlarmService.java`), in `alarm_engine.dfy`:
  - the pure choice of the next alarm over a two-day window (`NextAlarm`);
  - the imperative service class that turns this choice into stored settings
    and timer state (`AlarmService`, with `GetNextAlarm`, `UpdateNextAlarm`,
    `UpdateSearchSchedule`, `RunAlarm` and `HandleIntent`);
- the persisted settings store (`Settings.java`), in `settings.dfy`: a class
  over a typed key-value map whose getters fall back to per-key defaults;
- the offset picker (`OffsetSpinner.java`), in `offset_picker.dfy`: the
  "H:MM" text of an offset, composing an offset from the picker's hour and
  minute, and splitting it back.

Two helper modules write out Java semantics: `java_int.dfy` (truncating `/`
and `%`, 32-bit `int` wrap-around) and `decimal.dfy` (the decimal text of an
`int` and its inverse reading). `wrappers.dfy` holds `Option`.

The calendar is a sequence of `Event(title, start, allDay)`. The query of
`getNextAlarm` becomes `FirstEvent`: an earliest non-all-day event whose start
lies in `[from, until)`. The clock reading `now` and the zone offset `tz` are
parameters. `tz` is the offset the local zone reports at the UTC midnight of
`now`. The repeating search timer and the one-shot run timer are ghost `Timer`
fields of the service. Posted notifications are a ghost sequence of `Ring`s.

Idempotence of the search is stated through the ghost predicate `Settled`.
It says that the stored next-alarm pair and the run timer match the decision
for the current settings. `UpdateNextAlarm` always leaves the service
`Settled`. When it starts `Settled`, it changes nothing. So a second search
with the same `now` and calendar is a no-op.

When the app is enabled, `updateSearchSchedule` only arms the repeating
search. It does not recompute the next alarm itself; the first
search tick does that (`AlarmService.java:165-174`). Only the disabled branch
calls `updateNextAlarm` (`AlarmService.java:181`).

The first window is `[today, tomorrow)`, where `today` is the UTC midnight of
`now` minus `tz`. Only this window checks whether the event has already
started. The second window has no such check. `ChosenNotStarted` proves that a
chosen event has not started whenever `now` is before the second window.
`StartedEventChosen` exhibits the case where `now` is already past it:

- the zone is two hours ahead of UTC;
- the time is 23:30 UTC, which is 01:30 local the next day;
- the "today" window is then the previous local day;
- an unrung event at 00:30 local is armed although it has already started.

## Model

| member | source | states |
|---|---|---|
| AlarmEngine.Alarm.AlarmTime | src/net/fififox/dailycalendaralarm/AlarmService.java:106-108 | the alarm time plus the offset is the event's start time again |
| AlarmEngine.FirstEvent | src/net/fififox/dailycalendaralarm/AlarmService.java:251-263 | the first row of the query is an event of the calendar, not all-day, starting in `[from, until)`, no later than any other such event; there is none exactly when no event qualifies |
| AlarmEngine.MidnightUtc | src/net/fififox/dailycalendaralarm/AlarmService.java:247 | Java's truncating `(now / DAY) * DAY` is a multiple of a day; for `now >= 0` it is the UTC midnight with `midnight <= now < midnight + DAY` |
| AlarmEngine.NextAlarm | src/net/fififox/dailycalendaralarm/AlarmService.java:242-304 | a chosen alarm has not rung (`lastAlarmTime < start - offset`) and is an event of the calendar that is not all-day and starts in `[today, tomorrow + DAY)` |
| AlarmEngine.TodayBeforeTomorrow | src/net/fififox/dailycalendaralarm/AlarmService.java:271-298 | an event before tomorrow is chosen if and only if today's first event exists, has not started and has not rung, and it is then that event; otherwise the choice is tomorrow's first event, or none exactly when tomorrow has no event or its alarm has rung |
| AlarmEngine.LateAlarmWins | src/net/fififox/dailycalendaralarm/AlarmService.java:271-272 | an earliest event of today that has not started and has no ring at or after its alarm time is chosen over tomorrow, even when its alarm time is already past |
| AlarmEngine.RungAlarmNotChosen | src/net/fififox/dailycalendaralarm/AlarmService.java:271-298 | an event whose alarm time is at or before the last ring is never chosen; after a ring at `now`, any chosen alarm time is after `now` |
| AlarmEngine.ChosenNotStarted | src/net/fififox/dailycalendaralarm/AlarmService.java:247-298 | when `now` is before the second window, the chosen event has not started |
| AlarmEngine.StartedEventChosen | src/net/fififox/dailycalendaralarm/AlarmService.java:278-298 | with a zone two hours ahead at 23:30 UTC, `now` is past the second window and an event that started an hour earlier is chosen |
| AlarmEngine.AlarmService.GetNextAlarm | src/net/fififox/dailycalendaralarm/AlarmService.java:242-304 | the search that rewrites its selection arguments in place returns exactly `NextAlarm` for the stored last ring time and offset |
| AlarmEngine.AlarmService.UpdateNextAlarm | src/net/fififox/dailycalendaralarm/AlarmService.java:189-231 | disabled or no alarm: title and time removed and run timer cancelled; otherwise title set to the event's, time to `start - offset`, timer armed at that time, so stored time plus offset is the event's start again; only the pair changes, the decision is unaffected, and a call on a settled service changes nothing (idempotence) |
| AlarmEngine.AlarmService.UpdateSearchSchedule | src/net/fififox/dailycalendaralarm/AlarmService.java:155-184 | enabled: the hourly repeating search is armed and nothing else changes; disabled: the search is cancelled, the pair removed and the run timer cancelled |
| AlarmEngine.AlarmService.RunAlarm | src/net/fififox/dailycalendaralarm/AlarmService.java:319-361 | posts one ring for the stored title at stored time plus offset, records `now` as the last ring, removes the pair, leaves every other key unchanged |
| AlarmEngine.AlarmService.HandleIntent | src/net/fififox/dailycalendaralarm/AlarmService.java:133-150 | configuration change, run and search dispatch to their operations: a search changes only the next-alarm pair; a run changes only the pair and the last ring time, which becomes `now`, posts one ring and re-arms only an alarm later than `now`; a configuration change while disabled only removes the pair; an unknown action changes nothing |
| SettingsStore.MinutesToMillis | src/net/fififox/dailycalendaralarm/Settings.java:83-85 | `minutes * 60 * 1000` in Java `int` is a Java `int`, and equals the exact product if and only if the offset is within 35791 minutes either way |
| SettingsStore.MillisOverflow | src/net/fififox/dailycalendaralarm/Settings.java:83-85 | at 35792 minutes the product wraps around to a negative offset |
| SettingsStore.Settings.constructor | src/net/fififox/dailycalendaralarm/Settings.java:61-63 | the store opens on the preferences as stored |
| SettingsStore.Settings.IsEnabled | src/net/fififox/dailycalendaralarm/Settings.java:68-70 | false when the key is absent, the stored flag otherwise |
| SettingsStore.Settings.SetEnabled | src/net/fififox/dailycalendaralarm/Settings.java:75-77 | reads back as the value set; only its own key changes |
| SettingsStore.Settings.OffsetInMinutes | src/net/fififox/dailycalendaralarm/Settings.java:91-93 | 90 when the key is absent, the stored `int` otherwise |
| SettingsStore.Settings.OffsetInMillis | src/net/fififox/dailycalendaralarm/Settings.java:83-85 | the stored offset times 60000 whenever it lies in `[0, 35791]` |
| SettingsStore.Settings.SetOffsetInMinutes | src/net/fififox/dailycalendaralarm/Settings.java:98-100 | reads back as the value set; only its own key changes |
| SettingsStore.Settings.LastAlarmTime | src/net/fififox/dailycalendaralarm/Settings.java:105-107 | 0 when the key is absent, the stored time otherwise |
| SettingsStore.Settings.SetLastAlarmTime | src/net/fififox/dailycalendaralarm/Settings.java:112-114 | reads back as the value set; only its own key changes |
| SettingsStore.Settings.NextAlarmTitle | src/net/fififox/dailycalendaralarm/Settings.java:119-121 | `None` (Java `null`) when the key is absent, the stored title otherwise |
| SettingsStore.Settings.SetNextAlarmTitle | src/net/fififox/dailycalendaralarm/Settings.java:126-128 | reads back as the value set; only its own key changes |
| SettingsStore.Settings.NextAlarmTime | src/net/fififox/dailycalendaralarm/Settings.java:133-135 | 0 when the key is absent, the stored time otherwise |
| SettingsStore.Settings.SetNextAlarmTime | src/net/fififox/dailycalendaralarm/Settings.java:141-143 | reads back as the value set; only its own key changes |
| SettingsStore.Settings.ClearNextAlarm | src/net/fififox/dailycalendaralarm/Settings.java:150-152 | both next-alarm keys are removed, reading back as `None` and 0; enabled, offset and last ring time keep their values |
| JavaInt.Div | src/net/fififox/dailycalendaralarm/OffsetSpinner.java:68 | Java's `/` by a positive divisor rounds toward zero |
| JavaInt.Rem | src/net/fififox/dailycalendaralarm/OffsetSpinner.java:69 | Java's `%` satisfies `q * b + r == a`, with the remainder in `[0, b)` for `a >= 0` and in `(-b, 0]` otherwise |
| Decimal.IntToDecimal | src/net/fififox/dailycalendaralarm/OffsetSpinner.java:70 | Java's text of an `int` starts with `-` exactly when it is negative, and the rest reads back as its magnitude |
| Decimal.NatToDecimal | src/net/fififox/dailycalendaralarm/OffsetSpinner.java:70 | the decimal text of a natural number is non-empty and all digits, a single digit exactly below 10, and starts with `0` only for zero itself |
| Decimal.DecimalRoundTrip | src/net/fififox/dailycalendaralarm/OffsetSpinner.java:70 | the decimal text of a number reads back as that number |
| OffsetPicker.FormatOffset | src/net/fififox/dailycalendaralarm/OffsetSpinner.java:66-71 | for an offset `>= 0` the text is the hours in decimal, `:`, and exactly two digits whose value is the minutes, in `[0, 59]` |
| OffsetPicker.PaddedMinutes | src/net/fififox/dailycalendaralarm/OffsetSpinner.java:70 | the `"0"` pad makes every minute count below 60 exactly two digits |
| OffsetPicker.FormatRoundTrip | src/net/fififox/dailycalendaralarm/OffsetSpinner.java:66-71 | the text of every offset `>= 0` reads back as that offset |
| OffsetPicker.FormatInjective | src/net/fififox/dailycalendaralarm/OffsetSpinner.java:66-71 | two distinct offsets `>= 0` are shown as distinct texts |
| OffsetPicker.FormatNegative | src/net/fififox/dailycalendaralarm/OffsetSpinner.java:68-70 | a negative offset keeps Java's sign on both fields: -90 is shown as `-1:0-30` |
| OffsetPicker.ComposeOffset | src/net/fififox/dailycalendaralarm/OffsetSpinner.java:163-165 | for `hour >= 0` and `0 <= minute < 60`, `/ 60` and `% 60` of the offset give the hour and minute back |
| OffsetPicker.OffsetSpinner.constructor | src/net/fififox/dailycalendaralarm/OffsetSpinner.java:92-94 | a new spinner holds offset 0 and no listener |
| OffsetPicker.OffsetSpinner.SetOffset | src/net/fififox/dailycalendaralarm/OffsetSpinner.java:119-125 | `GetOffset` then returns the value set; the listener receives it exactly when one is set |
| OffsetPicker.OffsetSpinner.SetOnOffsetSetListener | src/net/fififox/dailycalendaralarm/OffsetSpinner.java:139-141 | a listener is set exactly when one is given |
| OffsetPicker.OffsetSpinner.PerformClick | src/net/fififox/dailycalendaralarm/OffsetSpinner.java:147-157 | the picker's initial hour and minute compose back to the current offset; for an offset `>= 0` the minute is in `[0, 59]` and the hour is `offset / 60` |
| OffsetPicker.OffsetSpinner.OnTimeSet | src/net/fififox/dailycalendaralarm/OffsetSpinner.java:163-165 | the offset becomes `hour * 60 + minute`, which splits back into the same hour and minute; the listener is notified of it when set |
| OffsetPicker.OffsetAdapter.constructor | src/net/fififox/dailycalendaralarm/OffsetSpinner.java:54-58 | the adapter shows the given spinner |
| OffsetPicker.OffsetAdapter.GetItem | src/net/fififox/dailycalendaralarm/OffsetSpinner.java:66-71 | the shown text reads back as the spinner's offset whenever it is non-negative |

The helpers `AlarmEngine.Today` and `AlarmEngine.Tomorrow` (the two window starts, `AlarmService.java:248-249`) are covered by the `NextAlarm` row, and `OffsetPicker.OffsetSpinner.GetOffset` (`OffsetSpinner.java:111-113`) by the `SetOffset` row. They carry no contract of their own.

## Left out

- Android platform calls are not modelled as calls. `AlarmManager.set`, `setInexactRepeating` and `cancel` become the ghost timers. `PendingIntent`s are not modelled.
- Notifications are not modelled. The `Notification.Builder` settings (sound, lights, vibration, insistent flag, full-screen intent) are reduced to one `Ring` record per notification.
- `Log` and `DateFormat` only log, so they are not modelled.
- The calendar `ContentResolver` query and its SQL selection become `FirstEvent` over a sequence. When several events share the earliest start, the model takes the first in sequence order. The provider's order among equal starts is unspecified.
- `System.currentTimeMillis()` and the time-zone lookup are inputs. On a run intent the source reads the clock in `runAlarm` and again in `getNextAlarm`. The model uses one reading for both.
- `SharedPreferences.apply()` persists asynchronously; each setter is modelled as an immediate update of the map.
- Java `long` overflow is not modelled: times are unbounded integers. The one `int` product that matters, the offset in milliseconds, is wrapped explicitly.
- AlarmEngine.AlarmService.UpdateNextAlarm: untitled calendar events are not modelled, since `Event.title` is always present. In the source, `cursor.getString(0)` returns null for such a row (`AlarmService.java:263`, `286`). `updateNextAlarm` then stores the alarm time but removes the title key (`AlarmService.java:210-211`). So `PairConsistent` and `Settled`, as proved by `UpdateNextAlarm` and `HandleIntent`, hold in the program only when the chosen event has a title.
- SettingsStore.Settings.SetNextAlarmTitle: takes a non-null title. In the source, a calendar row with a null title would pass `null`, and Android then removes the key.
- OffsetPicker.ComposeOffset: does not wrap `hour * 60 + minute` to 32 bits, because the 24-hour picker only delivers hours 0-23 and minutes 0-59.
- A failing calendar query is not modelled: `FirstEvent` always answers. In the source, `getContentResolver().query` can return null when the provider is unavailable, or throw without calendar permission. The cursor is then dereferenced unchecked (`AlarmService.java:258-261`, `281-284`) and the service stops mid-intent. On a run intent this happens after `runAlarm` has already posted the ring and cleared the pair, so no next alarm is armed until a later search succeeds.
- Intent actions are compared as strings in the source. Here they are an enumerated `Action`, where `Unknown` stands for every other string.
- The adapter refresh in `setOffset` (`notifyDataSetChanged`) is not modelled. The dialog display and the `true` result of `performClick` are not modelled either.
- The listener's own reaction (writing the offset to the settings and restarting the service) belongs to the setup screen. `Activity.java`, `SetupActivity.java`, `AlarmActivity.java` and `BootReceiver.java` are not part of this model.
