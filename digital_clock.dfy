/**
 * The DigitalClock object: its preference, alarm and timer-handle fields,
 * updated in place by its methods, with localStorage and the browser's
 * scheduled callbacks as further fields. Each method is proved to take the
 * object from a state to the state the matching function of ClockSpec gives,
 * and to keep the tick-source invariant.
 */
module Clock {
  import opened Optional
  import opened TimeText
  import opened SnoozeLabel
  import opened Preferences
  import ClockSpec
  import ClockProperties

  class DigitalClock {
    // Preferences
    var is24Hour: bool
    var currentTimezone: string
    var smoothAnimation: bool
    var theme: string
    var accent: string
    // The alarm and its auto-dismiss timeout
    var alarm: Option<ClockSpec.Alarm>
    var alarmTimeout: Option<ClockSpec.TimerId>
    // The tick source handles
    var animationFrame: Option<ClockSpec.TimerId>
    var clockInterval: Option<ClockSpec.TimerId>
    // The host: localStorage and the callbacks it has scheduled
    var storage: ClockSpec.Storage
    var frames: set<ClockSpec.TimerId>
    var intervals: set<ClockSpec.TimerId>
    var timeouts: set<ClockSpec.TimerId>
    var nextId: ClockSpec.TimerId

    /** The object's state as a value. */
    function Snapshot(): ClockSpec.State
      reads this
    {
      ClockSpec.State(
        Settings(is24Hour, currentTimezone, smoothAnimation, theme, accent),
        alarm, alarmTimeout, animationFrame, clockInterval, storage,
        ClockSpec.Host(frames, intervals, timeouts, nextId))
    }

    predicate Valid()
      reads this
    {
      ClockSpec.Valid(Snapshot())
    }

    /** The field initialisers; init() is a separate step because it can throw. */
    constructor(initialStorage: ClockSpec.Storage, host: ClockSpec.Host)
      requires host.frames == {} && host.intervals == {}
      requires forall id :: id in host.timeouts ==> id < host.nextId
      ensures Valid()
      ensures Snapshot() == ClockSpec.Initial(initialStorage, host)
    {
      is24Hour := false;
      currentTimezone := "local";
      smoothAnimation := true;
      theme := "dark";
      accent := "teal";
      alarm := None;
      alarmTimeout := None;
      animationFrame := None;
      clockInterval := None;
      storage := initialStorage;
      frames := host.frames;
      intervals := host.intervals;
      timeouts := host.timeouts;
      nextId := host.nextId;
    }

    /** The host hands out a fresh id. */
    method NewTimerId() returns (id: ClockSpec.TimerId)
      modifies this`nextId
      ensures id == old(nextId) && nextId == id + 1
    {
      id := nextId;
      nextId := nextId + 1;
    }

    method Init(now: LocalTime, zones: set<string>) returns (ok: bool)
      requires Valid()
      modifies this
      ensures Valid()
      ensures ok == !ClockSpec.InitThrows(old(Snapshot()))
      ensures Snapshot() == ClockSpec.Init(old(Snapshot()), now, zones)
    {
      ok := LoadSettings();
      if !ok {
        return;
      }
      UpdateClock(now, zones);
      StartClock(now, zones);
      ok := LoadAlarm();
    }

    // -------------------------------------------------------------------------
    // Settings

    method LoadSettings() returns (ok: bool)
      requires Valid()
      modifies this
      ensures Valid()
      ensures ok == !ClockSpec.LoadSettingsThrows(old(Snapshot()))
      ensures Snapshot() == ClockSpec.LoadSettings(old(Snapshot()))
    {
      if storage.settings.Malformed? {
        return false;
      }
      var r := ClockSpec.StoredSettings(storage.settings);
      is24Hour := TruthyOrFalse(r.is24Hour);
      currentTimezone := StringOr(r.timezone, "local");
      smoothAnimation := NotFalse(r.smoothAnimation);
      theme := StringOr(r.theme, "dark");
      accent := StringOr(r.accent, "teal");
      return true;
    }

    method SaveSettings()
      requires Valid()
      modifies this
      ensures Valid()
      ensures Snapshot() == ClockSpec.SaveSettings(old(Snapshot()))
    {
      var record := SettingsRecord(Some(is24Hour), Some(currentTimezone), Some(smoothAnimation), Some(theme), Some(accent));
      storage := storage.(settings := ClockSpec.Stored(record));
    }

    method ToggleFormat(now: LocalTime, zones: set<string>)
      requires Valid()
      modifies this
      ensures Valid()
      ensures Snapshot() == ClockSpec.ToggleFormat(old(Snapshot()), now, zones)
    {
      is24Hour := !is24Hour;
      SaveSettings();
      UpdateClock(now, zones);
    }

    method SetTimezone(zone: string, now: LocalTime, zones: set<string>)
      requires Valid()
      modifies this
      ensures Valid()
      ensures Snapshot() == ClockSpec.SetTimezone(old(Snapshot()), zone, now, zones)
    {
      currentTimezone := zone;
      SaveSettings();
      UpdateClock(now, zones);
    }

    method ToggleTheme()
      requires Valid()
      modifies this
      ensures Valid()
      ensures Snapshot() == ClockSpec.ToggleTheme(old(Snapshot()))
      ensures theme == NextTheme(old(theme))
    {
      theme := if theme == "dark" then "light" else "dark";
      SaveSettings();
    }

    method ToggleAccent()
      requires Valid()
      modifies this
      ensures Valid()
      ensures Snapshot() == ClockSpec.ToggleAccent(old(Snapshot()))
      ensures accent in Accents
    {
      var currentIndex := IndexOf(Accents, accent);
      accent := Accents[(currentIndex + 1) % |Accents|];
      SaveSettings();
    }

    method ToggleAnimation(now: LocalTime, zones: set<string>)
      requires Valid()
      modifies this
      ensures Valid()
      ensures Snapshot() == ClockSpec.ToggleAnimation(old(Snapshot()), now, zones)
      ensures smoothAnimation == !old(smoothAnimation)
      ensures (animationFrame.Some? <==> smoothAnimation) && (clockInterval.Some? <==> !smoothAnimation)
    {
      smoothAnimation := !smoothAnimation;
      SaveSettings();
      StartClock(now, zones);
    }

    // -------------------------------------------------------------------------
    // The tick

    method UpdateClock(now: LocalTime, zones: set<string>)
      requires Valid()
      modifies this
      ensures Valid()
      ensures Snapshot() == ClockSpec.UpdateClock(old(Snapshot()), now, zones)
    {
      ClockProperties.UpdateClockKeepsValid(Snapshot(), now, zones);
      if currentTimezone != "local" && currentTimezone !in zones {
        // the formatter threw: fall back without saving
        currentTimezone := "local";
        return;
      }
      CheckAlarm(now);
    }

    method StartClock(now: LocalTime, zones: set<string>)
      requires Valid()
      modifies this
      ensures Valid()
      ensures Snapshot() == ClockSpec.StartClock(old(Snapshot()), now, zones)
      ensures (animationFrame.Some? <==> smoothAnimation) && (clockInterval.Some? <==> !smoothAnimation)
      ensures |frames| + |intervals| == 1
    {
      ClockProperties.StartClockStartsOne(Snapshot(), now, zones);
      if smoothAnimation {
        StartSmoothClock(now, zones);
      } else {
        StartDiscreteClock(now, zones);
      }
    }

    method StopClock()
      requires Valid()
      modifies this
      ensures Valid()
      ensures Snapshot() == ClockSpec.StopClock(old(Snapshot()))
      ensures animationFrame.None? && clockInterval.None? && frames == {} && intervals == {}
    {
      if animationFrame.Some? {
        frames := frames - {animationFrame.value};
        animationFrame := None;
      }
      if clockInterval.Some? {
        intervals := intervals - {clockInterval.value};
        clockInterval := None;
      }
    }

    method StartSmoothClock(now: LocalTime, zones: set<string>)
      requires Valid()
      modifies this
      ensures Valid()
      ensures Snapshot() == ClockSpec.StartSmoothClock(old(Snapshot()), now, zones)
      ensures animationFrame.Some? && clockInterval.None? && frames == {animationFrame.value} && intervals == {}
    {
      StopClock();
      UpdateClock(now, zones);
      var id := NewTimerId();
      frames := frames + {id};
      animationFrame := Some(id);
    }

    method StartDiscreteClock(now: LocalTime, zones: set<string>)
      requires Valid()
      modifies this
      ensures Valid()
      ensures Snapshot() == ClockSpec.StartDiscreteClock(old(Snapshot()), now, zones)
      ensures animationFrame.None? && clockInterval.Some? && frames == {} && intervals == {clockInterval.value}
    {
      StopClock();
      UpdateClock(now, zones);
      var id := NewTimerId();
      intervals := intervals + {id};
      clockInterval := Some(id);
    }

    /** The host runs the pending frame: updateSmooth. */
    method FrameFires(id: ClockSpec.TimerId, now: LocalTime, zones: set<string>)
      requires Valid() && id in frames
      modifies this
      ensures Valid()
      ensures Snapshot() == ClockSpec.FrameFires(old(Snapshot()), id, now, zones)
    {
      ClockProperties.FrameFiresKeepsValid(Snapshot(), id, now, zones);
      frames := frames - {id};
      animationFrame := None;
      UpdateClock(now, zones);
      var next := NewTimerId();
      frames := frames + {next};
      animationFrame := Some(next);
    }

    /** The host runs the interval's callback. */
    method IntervalFires(id: ClockSpec.TimerId, now: LocalTime, zones: set<string>)
      requires Valid() && id in intervals
      modifies this
      ensures Valid()
      ensures Snapshot() == ClockSpec.IntervalFires(old(Snapshot()), id, now, zones)
    {
      UpdateClock(now, zones);
    }

    // -------------------------------------------------------------------------
    // The alarm

    method SaveAlarmSettings(timeInput: string, labelInput: string)
      requires Valid()
      modifies this
      ensures Valid()
      ensures Snapshot() == ClockSpec.SaveAlarmSettings(old(Snapshot()), timeInput, labelInput)
    {
      var labelText := if labelInput == "" then "Alarm" else labelInput;
      if timeInput == "" {
        return;
      }
      alarm := Some(ClockSpec.Alarm(timeInput, labelText));
      SaveAlarm();
    }

    method SaveAlarm()
      requires Valid() && alarm.Some?
      modifies this
      ensures Valid()
      ensures Snapshot() == ClockSpec.SaveAlarm(old(Snapshot()))
    {
      storage := storage.(alarm := ClockSpec.Stored(alarm.value));
    }

    method LoadAlarm() returns (ok: bool)
      requires Valid()
      modifies this
      ensures Valid()
      ensures ok == !ClockSpec.LoadAlarmThrows(old(Snapshot()))
      ensures Snapshot() == ClockSpec.LoadAlarm(old(Snapshot()))
    {
      match storage.alarm
      case Absent => ok := true;
      case Malformed => ok := false;
      case Stored(saved) =>
        alarm := Some(saved);
        ok := true;
    }

    method CancelAlarm()
      requires Valid()
      modifies this
      ensures Valid()
      ensures Snapshot() == ClockSpec.CancelAlarm(old(Snapshot()))
      ensures alarm.None? && storage.alarm.Absent? && alarmTimeout.None?
    {
      alarm := None;
      storage := storage.(alarm := ClockSpec.Absent);
      if alarmTimeout.Some? {
        timeouts := timeouts - {alarmTimeout.value};
        alarmTimeout := None;
      }
    }

    method CheckAlarm(now: LocalTime)
      requires Valid()
      modifies this
      ensures Valid()
      ensures Snapshot() == ClockSpec.CheckAlarm(old(Snapshot()), now)
    {
      if alarm.None? {
        return;
      }
      var alarmHours := AlarmHour(alarm.value.time);
      var alarmMinutes := AlarmMinute(alarm.value.time);
      if alarmHours == Some(now.hour) && alarmMinutes == Some(now.minute) && now.second == 0 {
        TriggerAlarm();
      }
    }

    method TriggerAlarm()
      requires Valid() && alarm.Some?
      modifies this
      ensures Valid()
      ensures Snapshot() == ClockSpec.TriggerAlarm(old(Snapshot()))
    {
      var id := NewTimerId();
      timeouts := timeouts + {id};
      alarmTimeout := Some(id);
    }

    /** Returns false where the source throws: no alarm is set. */
    method SnoozeAlarm(now: LocalTime) returns (ok: bool)
      requires Valid()
      modifies this
      ensures Valid()
      ensures ok == !ClockSpec.SnoozeThrows(old(Snapshot()))
      ensures Snapshot() == ClockSpec.SnoozeAlarm(old(Snapshot()), now)
    {
      if alarmTimeout.Some? {
        timeouts := timeouts - {alarmTimeout.value};
      }
      if alarm.None? {
        return false;
      }
      var snoozeTime := SnoozeTime(now);
      alarm := Some(alarm.value.(time := snoozeTime, labelText := RemoveFirst(alarm.value.labelText) + Suffix));
      SaveAlarm();
      return true;
    }

    method DismissAlarm()
      requires Valid()
      modifies this
      ensures Valid()
      ensures Snapshot() == ClockSpec.DismissAlarm(old(Snapshot()))
      ensures alarm.None? && storage.alarm.Absent? && alarmTimeout.None?
    {
      if alarmTimeout.Some? {
        timeouts := timeouts - {alarmTimeout.value};
        alarmTimeout := None;
      }
      CancelAlarm();
    }

    /** The Escape key's handler. */
    method PressEscape()
      requires Valid()
      modifies this
      ensures Valid()
      ensures Snapshot() == ClockSpec.PressEscape(old(Snapshot()))
      ensures alarm.None?
    {
      DismissAlarm();
    }

    /** The host runs a pending timeout: the auto-dismiss callback. */
    method TimeoutFires(id: ClockSpec.TimerId)
      requires Valid() && id in timeouts
      modifies this
      ensures Valid()
      ensures Snapshot() == ClockSpec.TimeoutFires(old(Snapshot()), id)
    {
      timeouts := timeouts - {id};
      DismissAlarm();
    }
  }
}
