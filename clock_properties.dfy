/**
 * What the clock's transitions promise: settings persistence, the single
 * tick source, and the alarm lifecycle with its rough edges as written.
 */
module ClockProperties {
  import opened Optional
  import opened TimeText
  import opened SnoozeLabel
  import opened Preferences
  import opened ClockSpec

  // ---------------------------------------------------------------------------
  // Settings

  /** With nothing stored, loading gives the defaults; unparseable text changes nothing. */
  lemma LoadSettingsFillsDefaults(s: State)
    ensures s.storage.settings.Absent? ==> LoadSettings(s).prefs == Defaults
    ensures LoadSettingsThrows(s) ==> LoadSettings(s) == s
    ensures !LoadSettingsThrows(s) ==> LoadSettings(s) == s.(prefs := LoadSettings(s).prefs)
  {
  }

  /** A reload restores the saved preferences exactly when none of their strings is empty. */
  lemma SettingsSurviveReload(s: State)
    ensures LoadSettings(SaveSettings(s)).prefs == s.prefs <==> Storable(s.prefs)
  {
    SaveLoadRoundTrip(s.prefs);
  }

  /**
   * A tick under a zone the formatter rejects switches to "local" in memory
   * only: the stored record is untouched and the alarm is not checked.
   */
  lemma InvalidZoneFallsBackUnsaved(s: State, now: LocalTime, zones: set<string>)
    requires !FormatterAccepts(s.prefs.timezone, zones)
    ensures UpdateClock(s, now, zones) == s.(prefs := s.prefs.(timezone := "local"))
  {
  }

  /** Choosing an unknown zone shows "local" at once, but the zone was saved and comes back on reload. */
  lemma InvalidZoneReturnsOnReload(s: State, zone: string, now: LocalTime, zones: set<string>)
    requires zone != "" && zone != "local" && zone !in zones
    ensures SetTimezone(s, zone, now, zones).prefs.timezone == "local"
    ensures LoadSettings(SetTimezone(s, zone, now, zones)).prefs.timezone == zone
  {
  }

  /**
   * The unknown zone stays in storage only until the next save: toggling
   * the theme afterwards writes the "local" fallback, and that is what reloads.
   */
  lemma LaterSaveKeepsFallback(s: State, zone: string, now: LocalTime, zones: set<string>)
    requires zone != "" && zone != "local" && zone !in zones
    ensures LoadSettings(ToggleTheme(SetTimezone(s, zone, now, zones))).prefs.timezone == "local"
  {
  }

  /** A zone the formatter accepts is kept in memory and saved with the other preferences. */
  lemma AcceptedZoneIsKeptAndSaved(s: State, zone: string, now: LocalTime, zones: set<string>)
    requires FormatterAccepts(zone, zones)
    ensures SetTimezone(s, zone, now, zones).prefs == s.prefs.(timezone := zone)
    ensures SetTimezone(s, zone, now, zones).storage.settings == Stored(ToRecord(s.prefs.(timezone := zone)))
  {
  }

  /**
   * Toggling the format, theme or accent changes that preference alone and
   * saves all of them. The format toggle ticks, so under a zone the formatter
   * rejects its tick also switches to "local" in memory.
   */
  lemma TogglesChangeOnePreference(s: State, now: LocalTime, zones: set<string>)
    ensures FormatterAccepts(s.prefs.timezone, zones) ==>
      ToggleFormat(s, now, zones).prefs == s.prefs.(is24Hour := !s.prefs.is24Hour)
    ensures FormatterAccepts(s.prefs.timezone, zones) ==>
      ToggleFormat(s, now, zones).storage.settings == Stored(ToRecord(ToggleFormat(s, now, zones).prefs))
    ensures ToggleTheme(s).prefs == s.prefs.(theme := NextTheme(s.prefs.theme))
    ensures ToggleAccent(s).prefs == s.prefs.(accent := NextAccent(s.prefs.accent))
    ensures ToggleTheme(s).storage.settings == Stored(ToRecord(ToggleTheme(s).prefs))
    ensures ToggleAccent(s).storage.settings == Stored(ToRecord(ToggleAccent(s).prefs))
  {
  }

  // ---------------------------------------------------------------------------
  // The tick source

  /** Valid allows at most one live tick source. */
  lemma ValidHasAtMostOneSource(s: State)
    requires Valid(s)
    ensures TickSources(s) <= 1
  {
  }

  lemma UpdateClockKeepsValid(s: State, now: LocalTime, zones: set<string>)
    requires Valid(s)
    ensures Valid(UpdateClock(s, now, zones))
    ensures UpdateClock(s, now, zones).animationFrame == s.animationFrame
    ensures UpdateClock(s, now, zones).clockInterval == s.clockInterval
    ensures UpdateClock(s, now, zones).prefs.smoothAnimation == s.prefs.smoothAnimation
  {
  }

  /** After stopClock no tick source is live. */
  lemma StopClockStopsAll(s: State)
    requires Valid(s)
    ensures Valid(StopClock(s))
    ensures StopClock(s).animationFrame.None? && StopClock(s).clockInterval.None?
    ensures TickSources(StopClock(s)) == 0
  {
  }

  /** After startClock exactly one tick source is live: a frame when smooth, an interval when discrete. */
  lemma StartClockStartsOne(s: State, now: LocalTime, zones: set<string>)
    requires Valid(s)
    ensures Valid(StartClock(s, now, zones))
    ensures TickSources(StartClock(s, now, zones)) == 1
    ensures s.prefs.smoothAnimation ==>
      StartClock(s, now, zones).animationFrame.Some? && StartClock(s, now, zones).clockInterval.None?
    ensures !s.prefs.smoothAnimation ==>
      StartClock(s, now, zones).animationFrame.None? && StartClock(s, now, zones).clockInterval.Some?
    ensures StartClock(s, now, zones).prefs.smoothAnimation == s.prefs.smoothAnimation
  {
    StopClockStopsAll(s);
    UpdateClockKeepsValid(StopClock(s), now, zones);
  }

  /** Starting twice in a row still leaves one tick source. */
  lemma StartClockTwiceStartsOne(s: State, now: LocalTime, later: LocalTime, zones: set<string>)
    requires Valid(s)
    ensures TickSources(StartClock(StartClock(s, now, zones), later, zones)) == 1
  {
    StartClockStartsOne(s, now, zones);
    StartClockStartsOne(StartClock(s, now, zones), later, zones);
  }

  /** Switching the animation mode twice leaves one source, of the original kind. */
  lemma ToggleAnimationTwice(s: State, now: LocalTime, later: LocalTime, zones: set<string>)
    requires Valid(s)
    ensures var t := ToggleAnimation(ToggleAnimation(s, now, zones), later, zones);
      TickSources(t) == 1 && t.prefs.smoothAnimation == s.prefs.smoothAnimation
      && (t.animationFrame.Some? <==> s.prefs.smoothAnimation)
  {
    var s1 := SaveSettings(s.(prefs := s.prefs.(smoothAnimation := !s.prefs.smoothAnimation)));
    assert Valid(s1);
    StartClockStartsOne(s1, now, zones);
    var t1 := StartClock(s1, now, zones);
    assert t1 == ToggleAnimation(s, now, zones);
    var s2 := SaveSettings(t1.(prefs := t1.prefs.(smoothAnimation := !t1.prefs.smoothAnimation)));
    assert Valid(s2) && s2.prefs.smoothAnimation == s.prefs.smoothAnimation;
    StartClockStartsOne(s2, later, zones);
    assert StartClock(s2, later, zones) == ToggleAnimation(t1, later, zones);
  }

  // ---------------------------------------------------------------------------
  // Every sequence of events keeps one tick source at most

  datatype Event =
    | LoadSettingsEvent
    | ToggleFormatEvent
    | SetTimezoneEvent(zone: string)
    | ToggleThemeEvent
    | ToggleAccentEvent
    | ToggleAnimationEvent
    | StartClockEvent
    | StopClockEvent
    | FrameEvent(frame: TimerId)
    | IntervalEvent(interval: TimerId)
    | SaveAlarmEvent(timeInput: string, labelInput: string)
    | LoadAlarmEvent
    | CancelAlarmEvent
    | SnoozeEvent
    | DismissEvent
    | EscapeEvent
    | TimeoutEvent(timeout: TimerId)

  /** One event handled to completion, at host-local time `now`, with the zones the formatter knows. */
  datatype Input = Input(event: Event, now: LocalTime, zones: set<string>)

  /** The state after one event; a callback the host has not scheduled does not run. */
  function Step(s: State, i: Input): State
  {
    match i.event
    case LoadSettingsEvent => LoadSettings(s)
    case ToggleFormatEvent => ToggleFormat(s, i.now, i.zones)
    case SetTimezoneEvent(zone) => SetTimezone(s, zone, i.now, i.zones)
    case ToggleThemeEvent => ToggleTheme(s)
    case ToggleAccentEvent => ToggleAccent(s)
    case ToggleAnimationEvent => ToggleAnimation(s, i.now, i.zones)
    case StartClockEvent => StartClock(s, i.now, i.zones)
    case StopClockEvent => StopClock(s)
    case FrameEvent(id) => if id in s.host.frames then FrameFires(s, id, i.now, i.zones) else s
    case IntervalEvent(id) => if id in s.host.intervals then IntervalFires(s, id, i.now, i.zones) else s
    case SaveAlarmEvent(t, l) => SaveAlarmSettings(s, t, l)
    case LoadAlarmEvent => LoadAlarm(s)
    case CancelAlarmEvent => CancelAlarm(s)
    case SnoozeEvent => SnoozeAlarm(s, i.now)
    case DismissEvent => DismissAlarm(s)
    case EscapeEvent => PressEscape(s)
    case TimeoutEvent(id) => if id in s.host.timeouts then TimeoutFires(s, id) else s
  }

  /** The state after the events in order. */
  function Run(s: State, inputs: seq<Input>): State
    decreases |inputs|
  {
    if |inputs| == 0 then s else Run(Step(s, inputs[0]), inputs[1..])
  }

  lemma FrameFiresKeepsValid(s: State, id: TimerId, now: LocalTime, zones: set<string>)
    requires Valid(s) && id in s.host.frames
    ensures Valid(FrameFires(s, id, now, zones))
  {
    var s1 := s.(host := s.host.(frames := s.host.frames - {id}));
    assert s1.host.frames == {};
    UpdateClockKeepsValid(s1.(animationFrame := None), now, zones);
  }

  lemma StepKeepsValid(s: State, i: Input)
    requires Valid(s)
    ensures Valid(Step(s, i))
  {
    match i.event
    case ToggleFormatEvent =>
      UpdateClockKeepsValid(SaveSettings(s.(prefs := s.prefs.(is24Hour := !s.prefs.is24Hour))), i.now, i.zones);
    case SetTimezoneEvent(zone) =>
      UpdateClockKeepsValid(SaveSettings(s.(prefs := s.prefs.(timezone := zone))), i.now, i.zones);
    case ToggleAnimationEvent =>
      StartClockStartsOne(SaveSettings(s.(prefs := s.prefs.(smoothAnimation := !s.prefs.smoothAnimation))), i.now, i.zones);
    case StartClockEvent =>
      StartClockStartsOne(s, i.now, i.zones);
    case StopClockEvent =>
      StopClockStopsAll(s);
    case FrameEvent(id) =>
      if id in s.host.frames {
        FrameFiresKeepsValid(s, id, i.now, i.zones);
      }
    case IntervalEvent(id) =>
      UpdateClockKeepsValid(s, i.now, i.zones);
    case _ =>
  }

  /** Whatever events arrive, in whatever order, at most one tick source is ever live. */
  lemma {:induction false} RunKeepsOneTickSource(s: State, inputs: seq<Input>)
    requires Valid(s)
    ensures Valid(Run(s, inputs))
    ensures TickSources(Run(s, inputs)) <= 1
    decreases |inputs|
  {
    if |inputs| == 0 {
      ValidHasAtMostOneSource(s);
    } else {
      StepKeepsValid(s, inputs[0]);
      RunKeepsOneTickSource(Step(s, inputs[0]), inputs[1..]);
    }
  }

  /** init() on a fresh object starts valid, with one tick source when it does not throw. */
  lemma InitStartsOneSource(storage: Storage, host: Host, now: LocalTime, zones: set<string>)
    requires host.frames == {} && host.intervals == {}
    requires forall id :: id in host.timeouts ==> id < host.nextId
    ensures Valid(Init(Initial(storage, host), now, zones))
    ensures !LoadSettingsThrows(Initial(storage, host)) ==> TickSources(Init(Initial(storage, host), now, zones)) == 1
  {
    var s := Initial(storage, host);
    if !LoadSettingsThrows(s) {
      UpdateClockKeepsValid(LoadSettings(s), now, zones);
      StartClockStartsOne(UpdateClock(LoadSettings(s), now, zones), now, zones);
    }
  }

  // ---------------------------------------------------------------------------
  // The alarm

  /** An empty time input changes nothing. */
  lemma SaveAlarmSettingsNeedsTime(s: State, labelInput: string)
    ensures SaveAlarmSettings(s, "", labelInput) == s
  {
  }

  /**
   * A non-empty time replaces any alarm with {time, label}, the empty label
   * becoming "Alarm", and persists it; a pending auto-dismiss is left alone.
   */
  lemma SaveAlarmSettingsArms(s: State, timeInput: string, labelInput: string)
    requires timeInput != ""
    ensures var t := SaveAlarmSettings(s, timeInput, labelInput);
      && t.alarm.Some?
      && t.alarm.value.time == timeInput
      && (t.alarm.value.labelText == "Alarm" <==> labelInput == "" || labelInput == "Alarm")
      && (labelInput != "" ==> t.alarm.value.labelText == labelInput)
      && t.storage.alarm == Stored(t.alarm.value)
      && t.alarmTimeout == s.alarmTimeout && t.host == s.host
    ensures labelInput != "" ==>
      SaveAlarmSettings(s, timeInput, labelInput)
        == s.(alarm := Some(Alarm(timeInput, labelInput)),
              storage := s.storage.(alarm := Stored(Alarm(timeInput, labelInput))))
  {
  }

  /** An armed alarm comes back from storage on the next start-up. */
  lemma AlarmSurvivesReload(s: State, timeInput: string, labelInput: string, host: Host)
    requires timeInput != ""
    ensures LoadAlarm(Initial(SaveAlarmSettings(s, timeInput, labelInput).storage, host)).alarm
         == SaveAlarmSettings(s, timeInput, labelInput).alarm
  {
  }

  /** The alarm fired: a new auto-dismiss timeout with a fresh id is pending and the handle names it. */
  predicate Fired(s: State, t: State)
  {
    t == s.(alarmTimeout := Some(s.host.nextId),
            host := s.host.(timeouts := s.host.timeouts + {s.host.nextId}, nextId := s.host.nextId + 1))
  }

  /** checkAlarm fires exactly when an alarm is set and the tick reads its HH:MM:00; otherwise it changes nothing. */
  lemma CheckAlarmFiresExactly(s: State, now: LocalTime)
    ensures Fired(s, CheckAlarm(s, now)) <==> s.alarm.Some? && RingsAt(s.alarm.value.time, now)
    ensures !Fired(s, CheckAlarm(s, now)) ==> CheckAlarm(s, now) == s
  {
    if s.alarm.None? || !RingsAt(s.alarm.value.time, now) {
      assert CheckAlarm(s, now).host.nextId == s.host.nextId;
    }
  }

  /** For an alarm set to an "HH:MM" time, the firing tick is second 0 of exactly that minute of the day. */
  lemma CheckAlarmAtMinute(s: State, m: MinuteOfDay, now: LocalTime)
    requires s.alarm.Some? && s.alarm.value.time == FormatHHMM(m)
    ensures Fired(s, CheckAlarm(s, now)) <==> MinuteOfDayAt(now) == m && now.second == 0
  {
    CheckAlarmFiresExactly(s, now);
    RingsAtFormatted(m, now);
  }

  /**
   * Snoozing moves the alarm to five minutes after now, wrapping at
   * midnight, marks the label, persists it and keeps it armed; the pending
   * auto-dismiss is cleared but its handle is not set to null.
   */
  lemma SnoozeReschedules(s: State, now: LocalTime, later: LocalTime)
    requires !SnoozeThrows(s)
    ensures var t := SnoozeAlarm(s, now);
      && t.alarm == Some(Alarm(SnoozeTime(now), Snoozed(s.alarm.value.labelText)))
      && t.storage.alarm == Stored(t.alarm.value)
      && t.alarmTimeout == s.alarmTimeout
      && t.host.timeouts == s.host.timeouts - ToSet(s.alarmTimeout)
      && (Fired(t, CheckAlarm(t, later))
          <==> MinuteOfDayAt(later) == (MinuteOfDayAt(now) + 5) % MinutesPerDay && later.second == 0)
    ensures var a := Alarm(SnoozeTime(now), Snoozed(s.alarm.value.labelText));
      SnoozeAlarm(s, now)
        == s.(alarm := Some(a),
              storage := s.storage.(alarm := Stored(a)),
              host := s.host.(timeouts := s.host.timeouts - ToSet(s.alarmTimeout)))
  {
    var t := SnoozeAlarm(s, now);
    CheckAlarmFiresExactly(t, later);
    SnoozeTimeRings(now, later);
  }

  /** Without an alarm, snoozing clears the pending timeout and then throws, changing nothing else. */
  lemma SnoozeWithoutAlarm(s: State, now: LocalTime)
    requires SnoozeThrows(s)
    ensures SnoozeAlarm(s, now) == ClearAlarmTimeout(s)
    ensures SnoozeAlarm(s, now).alarmTimeout == s.alarmTimeout
  {
  }

  /** Two snoozes of a label without the marker leave it marked once. */
  lemma SnoozeTwiceMarksOnce(s: State, now: LocalTime, later: LocalTime)
    requires s.alarm.Some? && !HasMarker(s.alarm.value.labelText)
    ensures SnoozeAlarm(SnoozeAlarm(s, now), later).alarm.value.labelText == s.alarm.value.labelText + Suffix
  {
    SnoozeTwiceKeepsOneMarker(s.alarm.value.labelText);
  }

  /** cancelAlarm removes the alarm, its stored copy and its pending auto-dismiss; no later tick fires. */
  lemma CancelClearsAlarm(s: State, now: LocalTime)
    ensures var t := CancelAlarm(s);
      && t.alarm.None? && t.storage.alarm.Absent? && t.alarmTimeout.None?
      && t.host.timeouts == s.host.timeouts - ToSet(s.alarmTimeout)
      && t.prefs == s.prefs && t.storage.settings == s.storage.settings
      && CheckAlarm(t, now) == t
  {
  }

  /** dismissAlarm is cancelAlarm: it does not leave the alarm armed for the next day. */
  lemma DismissIsCancel(s: State)
    ensures DismissAlarm(s) == CancelAlarm(s)
  {
  }

  /** A dismissed alarm is gone from storage too: a restart does not bring it back. */
  lemma DismissedAlarmStaysGone(s: State, host: Host)
    ensures LoadAlarm(Initial(DismissAlarm(s).storage, host)).alarm.None?
  {
  }

  /** Escape dismisses unconditionally: an armed alarm that is not ringing is cancelled. */
  lemma EscapeCancelsArmedAlarm(s: State)
    requires s.alarm.Some? && s.alarmTimeout.None?
    ensures PressEscape(s).alarm.None? && PressEscape(s).storage.alarm.Absent?
  {
  }

  /**
   * checkAlarm has no ringing guard: two ticks within second 0 of the alarm
   * minute fire twice and overwrite the first auto-dismiss handle without
   * clearing it. A snooze clears only the second timeout; when the orphaned
   * first one fires it dismisses, and so deletes, the snoozed alarm.
   */
  lemma OrphanedTimeoutCancelsSnoozedAlarm(s: State, now: LocalTime, later: LocalTime)
    requires Valid(s)
    requires s.alarm.Some? && RingsAt(s.alarm.value.time, now)
    ensures var first := s.host.nextId;
      var twice := CheckAlarm(CheckAlarm(s, now), now);
      var snoozed := SnoozeAlarm(twice, later);
      && first !in s.host.timeouts
      && twice.host.timeouts == s.host.timeouts + {first, first + 1}
      && twice.alarmTimeout == Some(first + 1)
      && snoozed.alarm.Some?
      && first in snoozed.host.timeouts
      && TimeoutFires(snoozed, first).alarm.None?
      && TimeoutFires(snoozed, first).storage.alarm.Absent?
  {
    var first := s.host.nextId;
    var once := CheckAlarm(s, now);
    CheckAlarmFiresExactly(s, now);
    assert once.alarm == s.alarm;
    CheckAlarmFiresExactly(once, now);
  }
}
