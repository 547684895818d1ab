# Pulse digital clock: settings, tick scheduler and alarm, in Dafny

This project models the state machine inside the `DigitalClock` class of a
browser clock widget (`script.js`). It covers three parts:

- the preference record: 12/24-hour format, timezone, smooth or discrete animation, theme and accent;
- the two tick-source handles: an animation frame or a one-second interval;
- the single-slot alarm: arm, fire on `HH:MM:00`, snooze for five minutes, dismiss or cancel.

`localStorage` is modelled too, and so are the clock's pending animation frames and interval and the alarm's pending auto-dismiss timeouts.

Layout:

- `optional.dfy` (module `Optional`): the option type for missing properties and null fields.
- `time_text.dfy` (module `TimeText`): time-of-day text and arithmetic. It covers the `"HH:MM"`
  text that `toTimeString().slice(0, 5)` produces, how `checkAlarm` reads that text back
  (`split(":")`, then `Number`), and the snooze's minute-of-day arithmetic with its wrap at midnight.
- `snooze_label.dfy` (module `SnoozeLabel`): the label rewrite `label.replace(" (Snoozed)", "") + " (Snoozed)"`.
  It removes only the first occurrence of the marker.
- `preferences.dfy` (module `Preferences`): the preference record. It covers how `loadSettings`
  applies defaults field by field, what `saveSettings` writes, the theme toggle and the 8-entry accent cycle.
- `clock_spec.dfy` (module `ClockSpec`): the object's whole state as a value, with one function per method.
  The state includes storage and the host's pending frames, intervals and timeouts.
  `Valid` is the tick-source invariant.
- `clock_properties.dfy` (module `ClockProperties`): the properties, proved about those functions.
  This includes that any sequence of events keeps at most one tick source live.
- `digital_clock.dfy` (module `Clock`): the class `DigitalClock` with the source's fields, including
  storage and host fields. Its methods update those fields in place. Each method that models a source method is proved to reach the
  state the matching `ClockSpec` function gives, and to keep `Valid`.

Environment inputs are parameters:

- The current time is a `LocalTime`: host-local hour, minute and second, as `Date` reports them.
- Timezone validity is a set `zones` of the identifiers the host's formatter accepts. `"local"` is always accepted.
- Timer ids come from a counter that stands for the host's id allocator.

A JSON text that `JSON.parse` rejects is the `Malformed` slot. Where the source throws, the model returns
`ok == false` and the state is left as it was at the throw. This covers `loadSettings`, `loadAlarm`, and
`snoozeAlarm` with no alarm set.

The model follows the code, including these rough edges:

- `checkAlarm` has no ringing guard. Every tick in second 0 of the alarm minute fires again. Each firing
  overwrites `alarmTimeout` without clearing the earlier timeout. So a snoozed alarm is later deleted by
  an orphaned auto-dismiss (`OrphanedTimeoutCancelsSnoozedAlarm`).
- The timezone fallback is not saved. An unknown zone comes back on the next load (`InvalidZoneReturnsOnReload`), unless a later
  preference change saves the record first (`LaterSaveKeepsFallback`).
- Unparseable stored text makes `JSON.parse` throw. It is not treated as empty.
- `snoozeAlarm` can be called while nothing rings. It clears the timeout but does not set the handle to null.
- Arming a new alarm does not clear a pending auto-dismiss.
- Escape dismisses, and so deletes, an armed alarm that is not ringing.
- A second snooze changes nothing when removing the first marker leaves no marker
  (`SnoozeIdempotentWhenRemovalLeavesNoMarker`); every unmarked label is such a case (`SnoozeTwiceKeepsOneMarker`).
  It can change a label when a marker remains after the first one is removed and other text follows it: two markers
  do this (`SnoozeNotIdempotentOnTwoMarkers`), and so does one marker whose removal joins the text around it into a
  new one (`SnoozeNotIdempotentOnJoinedMarker`).

## Model

| member | source | states |
|---|---|---|
| `TimeText.Split` | script.js:427 | the pieces contain no colon, there is at least one, and there is exactly one iff the text has no colon |
| `TimeText.JoinSplit` | script.js:427 | joining the pieces of `split(":")` with colons gives the text back |
| `TimeText.SplitPair` | script.js:427 | splitting `a + ":" + b` (neither containing a colon) gives `[a, b]` |
| `TimeText.NumberOf` | script.js:427 | `Number` of a piece is a value exactly when the piece is all digits; anything else is NaN |
| `TimeText.Pad2` | script.js:520 | the two-digit text of a number below 100 has no colon and reads back as that number |
| `TimeText.FormatHHMM` | script.js:520 | the `"HH:MM"` text is five characters with the colon in the middle |
| `TimeText.FormatHHMMReadsBack` | script.js:427 | `checkAlarm`'s parse of a formatted time gives back its hour and minute |
| `TimeText.RingsAtFormatted` | script.js:424-438 | an alarm at a formatted minute of the day matches a tick iff the tick is second 0 of that minute |
| `TimeText.SnoozeTimeRings` | script.js:518-522 | the snoozed time matches a later tick iff that tick is second 0 of minute (now + 5) mod 1440 |
| `TimeText.SnoozeWrapsAtMidnight` | script.js:518-520 | a snooze at 23:59 writes `"00:04"` |
| `SnoozeLabel.FirstMarker` | script.js:523-526 | the index returned holds the marker and no smaller index does: it is the first occurrence |
| `SnoozeLabel.NoMarkerNowhere` | script.js:523-526 | a label without the marker has no occurrence of it at any index |
| `SnoozeLabel.RemoveFirst` | script.js:523-526 | when the label has the marker, the result is the label with exactly its first occurrence cut out; otherwise the label unchanged |
| `SnoozeLabel.Snoozed` | script.js:523-526 | a snoozed label ends with `" (Snoozed)"`, what precedes it is the label with its first marker removed, and an unmarked label just gains the marker |
| `SnoozeLabel.RemoveAppendedMarker` | script.js:523-526 | a label without the marker, with the marker appended, loses exactly that appended marker |
| `SnoozeLabel.SnoozeTwiceKeepsOneMarker` | script.js:523-526 | a label without the marker gains it once; a second snooze leaves the label unchanged |
| `SnoozeLabel.SnoozeIdempotentWhenRemovalLeavesNoMarker` | script.js:523-526 | snoozing is idempotent on every label that has no marker left once its first one is removed |
| `SnoozeLabel.SnoozeNotIdempotentOnTwoMarkers` | script.js:523-526 | a label with two markers and text after them changes on a second snooze |
| `SnoozeLabel.SnoozeNotIdempotentOnJoinedMarker` | script.js:523-526 | a label with exactly one marker, whose removal joins the surrounding text into a new marker, changes on a second snooze |
| `Preferences.FromRecord` | script.js:61-65 | a stored non-empty timezone, theme or accent is kept and a stored `""` falls back to its default, so loaded strings are never empty; `is24Hour` holds iff stored `true`; `smoothAnimation` is false iff stored exactly `false` |
| `Preferences.EmptyRecordLoadsDefaults` | script.js:58-65 | the empty object loads as `{false, "local", true, "dark", "teal"}` |
| `Preferences.MissingFieldsGetDefaults` | script.js:61-65 | each missing property gets its own default, whatever the others hold |
| `Preferences.SaveLoadRoundTrip` | script.js:57-88 | reloading the written record restores the preferences iff timezone, theme and accent are non-empty |
| `Preferences.NextTheme` | script.js:316 | the result is `"dark"` or `"light"`, and it is `"light"` iff the theme was `"dark"` |
| `Preferences.ThemeToggleTwice` | script.js:316 | two toggles restore the theme iff it was `"dark"` or `"light"` |
| `Preferences.IndexOf` | script.js:336 | `indexOf` returns -1 iff the value is absent, and otherwise its first position |
| `Preferences.NextAccent` | script.js:336-337 | the next accent is always one of the eight; an unknown accent goes to `"teal"` |
| `Preferences.NextAccentAt` | script.js:326-337 | the accent after the i-th listed one is the (i + 1) mod 8-th |
| `Preferences.ToggleAccentTimesAt` | script.js:325-340 | n toggles from the i-th accent reach the (i + n) mod 8-th |
| `Preferences.AccentCycleHasLengthEight` | script.js:325-340 | n toggles return to a listed accent iff 8 divides n |
| `ClockProperties.LoadSettingsFillsDefaults` | script.js:57-65 | with nothing stored the preferences become the defaults; unparseable text changes nothing; only the preferences change |
| `ClockProperties.SettingsSurviveReload` | script.js:57-88 | save then load restores the preferences iff their strings are non-empty |
| `ClockProperties.InvalidZoneFallsBackUnsaved` | script.js:245-288 | a tick under a rejected zone sets the zone to `"local"` and changes nothing else: no save, no alarm check |
| `ClockProperties.InvalidZoneReturnsOnReload` | script.js:309-313 | choosing an unknown zone shows `"local"`, but the unknown zone was saved and comes back on an immediate reload |
| `ClockProperties.LaterSaveKeepsFallback` | script.js:315-319 | after an unknown zone falls back, a later theme toggle saves `"local"`, and that is what reloads |
| `ClockProperties.AcceptedZoneIsKeptAndSaved` | script.js:309-313 | a zone the formatter accepts becomes the current zone and is saved with the other preferences |
| `ClockProperties.TogglesChangeOnePreference` | script.js:297-340 | theme and accent toggles, and the format toggle under a zone the formatter accepts, change only their own preference and persist the whole record |
| `ClockProperties.ValidHasAtMostOneSource` | script.js:193-227 | the tick-source invariant allows at most one live source |
| `ClockProperties.UpdateClockKeepsValid` | script.js:229-289 | a tick keeps the invariant, the handles and the animation mode |
| `ClockProperties.StopClockStopsAll` | script.js:201-210 | after `stopClock` both handles are null and no frame or interval is pending |
| `ClockProperties.StartClockStartsOne` | script.js:193-227 | after `startClock` exactly one source is live: a frame if smooth, an interval if discrete |
| `ClockProperties.StartClockTwiceStartsOne` | script.js:193-227 | starting twice still leaves exactly one source |
| `ClockProperties.ToggleAnimationTwice` | script.js:346-363 | switching the animation mode twice leaves one source, of the original kind |
| `ClockProperties.FrameFiresKeepsValid` | script.js:214-217 | a frame that fires and requests the next one keeps the invariant |
| `ClockProperties.StepKeepsValid` | script.js:92-187 | every handler and host callback keeps the invariant |
| `ClockProperties.RunKeepsOneTickSource` | script.js:193-227 | after any sequence of events at most one tick source is live |
| `ClockProperties.InitStartsOneSource` | script.js:45-55 | `init()` on a fresh object is valid, and when it does not throw it leaves one source live |
| `ClockProperties.SaveAlarmSettingsNeedsTime` | script.js:384 | an empty time input changes nothing |
| `ClockProperties.SaveAlarmSettingsArms` | script.js:380-394 | a non-empty time replaces the alarm with `{time, label}` (an empty label becomes `"Alarm"`) and persists it; the timeout, preferences, stored settings and host are left alone |
| `ClockProperties.AlarmSurvivesReload` | script.js:392-402 | an armed alarm is restored by `loadAlarm` on a fresh object |
| `ClockProperties.CheckAlarmFiresExactly` | script.js:424-451 | `checkAlarm` fires iff an alarm is set and the tick reads its HH:MM:00; otherwise nothing changes |
| `ClockProperties.CheckAlarmAtMinute` | script.js:424-438 | for an `"HH:MM"` alarm the firing tick is second 0 of exactly that minute of the day |
| `ClockProperties.SnoozeReschedules` | script.js:511-529 | a snooze moves the alarm to now + 5 minutes mod 1440 with the marked label, and persists it; the timeout is cleared but the handle is kept; nothing else changes; the alarm fires exactly at that minute |
| `ClockProperties.SnoozeWithoutAlarm` | script.js:511-522 | with no alarm, a snooze only clears the pending timeout before it throws |
| `ClockProperties.SnoozeTwiceMarksOnce` | script.js:523-526 | two snoozes of an unmarked label leave it with one marker |
| `ClockProperties.CancelClearsAlarm` | script.js:414-422 | a cancelled alarm is gone from memory and storage, its timeout is cleared and nulled, and no later tick fires |
| `ClockProperties.DismissIsCancel` | script.js:531-541 | `dismissAlarm` has the same effect as `cancelAlarm` |
| `ClockProperties.DismissedAlarmStaysGone` | script.js:531-541 | after a dismiss, a restart loads no alarm |
| `ClockProperties.EscapeCancelsArmedAlarm` | script.js:185-187 | Escape deletes an armed alarm that is not ringing |
| `ClockProperties.OrphanedTimeoutCancelsSnoozedAlarm` | script.js:424-451 | two matching ticks schedule two timeouts and keep only the second handle; the orphan survives a snooze and then deletes the snoozed alarm |
| `Clock.DigitalClock.constructor` | script.js:2-11 | the field initialisers: defaults, no alarm, no handles |
| `Clock.DigitalClock.Init` | script.js:45-55 | load settings, tick, start the clock, load the alarm; stops with `ok == false` at the first `JSON.parse` that throws |
| `Clock.DigitalClock.LoadSettings` | script.js:57-65 | the preferences become `FromRecord` of the stored object, or stay as they are when the text is malformed |
| `Clock.DigitalClock.SaveSettings` | script.js:79-88 | the stored record becomes the current preferences, every property present |
| `Clock.DigitalClock.ToggleFormat` | script.js:297-307 | flips the format, saves and ticks |
| `Clock.DigitalClock.SetTimezone` | script.js:309-313 | stores the given zone, saves and ticks (the tick may fall back to `"local"`) |
| `Clock.DigitalClock.ToggleTheme` | script.js:315-319 | `"dark"` becomes `"light"`, anything else `"dark"`; saves |
| `Clock.DigitalClock.ToggleAccent` | script.js:325-340 | the accent becomes the next of the eight, always a listed one; saves |
| `Clock.DigitalClock.ToggleAnimation` | script.js:346-363 | flips the mode, saves and restarts; the one live source matches the new mode |
| `Clock.DigitalClock.UpdateClock` | script.js:229-289 | under a rejected zone, falls back to `"local"` without saving; otherwise checks the alarm |
| `Clock.DigitalClock.StartClock` | script.js:193-199 | exactly one source is live afterwards, matching `smoothAnimation` |
| `Clock.DigitalClock.StopClock` | script.js:201-210 | cancels whichever source is live and nulls both handles |
| `Clock.DigitalClock.StartSmoothClock` | script.js:212-219 | stops, ticks, then requests one frame; no interval is left |
| `Clock.DigitalClock.StartDiscreteClock` | script.js:221-227 | stops, ticks, then sets one interval; no frame is left |
| `Clock.DigitalClock.FrameFires` | script.js:214-217 | a frame ticks and requests its successor, keeping one frame pending |
| `Clock.DigitalClock.IntervalFires` | script.js:224-226 | the interval ticks |
| `Clock.DigitalClock.SaveAlarmSettings` | script.js:380-390 | arms `{time, label or "Alarm"}` and persists it, unless the time is empty |
| `Clock.DigitalClock.SaveAlarm` | script.js:392-394 | the stored alarm becomes the current alarm |
| `Clock.DigitalClock.LoadAlarm` | script.js:396-402 | a stored alarm replaces the field; with none stored nothing changes; malformed text throws |
| `Clock.DigitalClock.CancelAlarm` | script.js:414-422 | no alarm in memory or storage, and the timeout is cleared and nulled |
| `Clock.DigitalClock.CheckAlarm` | script.js:424-439 | triggers exactly when the parsed hour and minute equal the tick's and its second is 0 |
| `Clock.DigitalClock.TriggerAlarm` | script.js:441-451 | schedules a fresh auto-dismiss timeout and points the handle at it |
| `Clock.DigitalClock.SnoozeAlarm` | script.js:511-529 | clears the timeout without nulling it; with an alarm, sets it to now + 5 minutes with the marked label and persists it; without one, throws |
| `Clock.DigitalClock.DismissAlarm` | script.js:531-541 | clears and nulls the timeout, then cancels the alarm |
| `Clock.DigitalClock.PressEscape` | script.js:185-187 | dismisses unconditionally: no alarm is left |
| `Clock.DigitalClock.TimeoutFires` | script.js:448-450 | the auto-dismiss callback: the timeout is gone and the alarm dismissed |

## Left out

- DOM access is not modelled: element lookups, `updateElementText`, `updateAlarmDisplay`, `applyTheme`,
  `applyAccent`, `showAlarmModal` and `hideAlarmModal`, CSS classes and styles. These are rendering only;
  the handlers' effects on the object's state are modelled.
- Event-listener and keyboard wiring (`setupEventListeners`, `setupKeyboardShortcuts`) is not modelled,
  except Escape (`PressEscape`). The other keys and buttons call the modelled methods directly.
- The visibility handler is not modelled. It only calls `stopClock` and `startClock`, which are modelled.
- `Intl.DateTimeFormat` formatting of the display and the `Date` object are not modelled. They are foreign
  calls. The time is given as host-local fields. Formatter acceptance is the `zones` set.
  Daylight-saving shifts are ignored in the snooze arithmetic.
- `playAlarmSound`, `requestNotificationPermission` and `showBrowserNotification` are not modelled.
  They are browser APIs with best-effort effects. A `Notification` constructor that throws inside
  `updateClock`'s `try` is not modelled either.
- Timing and cadence of `requestAnimationFrame`, `setInterval` and `setTimeout` are not modelled. Only
  which of the clock's frames, its interval and the auto-dismiss timeouts are pending is modelled; the
  200 ms `toggleFormat` timeout, the beep timeouts and the notification-close timeout are not modelled (they
  only touch the page, the speaker or the notification).
- JSON encoding is abstracted. A stored property is missing or has the type `saveSettings` writes for it;
  other JSON types are not modelled. An item stored as empty text (read like a missing item by `|| "{}"`) and the text `"null"` are not modelled either.
- `TimeText.NumberOf`: covers digit strings and the empty string only. The time input and `toTimeString`
  produce only those. `Number`'s handling of whitespace, signs, decimals, exponents and hex is not modelled.
- `Clock.DigitalClock.SaveAlarm`: requires an alarm to be set. With none set, the source would store the
  text `"null"`; no caller reaches that.
- `Clock.DigitalClock.TriggerAlarm`: requires an alarm to be set, because the source reads its label.
  Its only caller, `checkAlarm`, guarantees this.
- `snoozeAlarm` mutates `this.alarm` in place. The model assigns a new alarm value instead. The object is
  not shared, so the two are indistinguishable.
