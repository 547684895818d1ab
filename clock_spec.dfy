/**
 * The state of one DigitalClock object, together with the parts of its host
 * it touches (localStorage and the browser's scheduled callbacks), and one
 * transition function per method of the class. The class in module Clock is
 * proved to follow these functions; the properties of the clock are proved
 * here, about the functions.
 */
module ClockSpec {
  import opened Optional
  import opened TimeText
  import opened SnoozeLabel
  import opened Preferences

  /** The id the host returns from requestAnimationFrame, setInterval or setTimeout: never 0, so always truthy. */
  type TimerId = n: nat | 1 <= n witness 1

  /** The single alarm: an "HH:MM" time of day and a label. */
  datatype Alarm = Alarm(time: string, labelText: string)

  /** What is stored under one localStorage key: nothing, a parsed record, or text JSON.parse rejects. */
  datatype Slot<T> = Absent | Stored(value: T) | Malformed

  /** The two keys the clock uses: "digitalClock:settings" and "digitalClock:alarm". */
  datatype Storage = Storage(settings: Slot<SettingsRecord>, alarm: Slot<Alarm>)

  /**
   * The host's scheduled callbacks: pending animation frames, running
   * intervals, pending timeouts, and the next id it will hand out.
   */
  datatype Host = Host(frames: set<TimerId>, intervals: set<TimerId>, timeouts: set<TimerId>, nextId: TimerId)

  datatype State = State(
    prefs: Settings,
    alarm: Option<Alarm>,
    alarmTimeout: Option<TimerId>,
    animationFrame: Option<TimerId>,
    clockInterval: Option<TimerId>,
    storage: Storage,
    host: Host)

  /** The object as the constructor's field initialisers leave it, before init() runs. */
  function Initial(storage: Storage, host: Host): State
  {
    State(Defaults, None, None, None, None, storage, host)
  }

  /**
   * The tick-source invariant: the handle fields name exactly the frame and
   * interval the host has scheduled for the clock, at most one of the two is
   * live, and every id the clock holds was handed out already.
   */
  predicate Valid(s: State)
  {
    && s.host.frames == ToSet(s.animationFrame)
    && s.host.intervals == ToSet(s.clockInterval)
    && (s.animationFrame.None? || s.clockInterval.None?)
    && (forall id :: id in s.host.frames ==> id < s.host.nextId)
    && (forall id :: id in s.host.intervals ==> id < s.host.nextId)
    && (forall id :: id in s.host.timeouts ==> id < s.host.nextId)
    && (s.alarmTimeout.Some? ==> s.alarmTimeout.value < s.host.nextId)
  }

  /** The number of live tick sources. */
  function TickSources(s: State): nat
  {
    |s.host.frames| + |s.host.intervals|
  }

  // ---------------------------------------------------------------------------
  // Settings (script.js:57-88, 297-363)

  /** JSON.parse throws on the stored settings text. */
  predicate LoadSettingsThrows(s: State)
  {
    s.storage.settings.Malformed?
  }

  /** The parsed settings object; `getItem(...) || "{}"` makes a missing key the empty object. */
  function StoredSettings(slot: Slot<SettingsRecord>): SettingsRecord
  {
    if slot.Stored? then slot.value else EmptyRecord
  }

  function LoadSettings(s: State): State
  {
    if LoadSettingsThrows(s) then s
    else s.(prefs := FromRecord(StoredSettings(s.storage.settings)))
  }

  function SaveSettings(s: State): State
  {
    s.(storage := s.storage.(settings := Stored(ToRecord(s.prefs))))
  }

  function ToggleFormat(s: State, now: LocalTime, zones: set<string>): State
  {
    UpdateClock(SaveSettings(s.(prefs := s.prefs.(is24Hour := !s.prefs.is24Hour))), now, zones)
  }

  function SetTimezone(s: State, zone: string, now: LocalTime, zones: set<string>): State
  {
    UpdateClock(SaveSettings(s.(prefs := s.prefs.(timezone := zone))), now, zones)
  }

  function ToggleTheme(s: State): State
  {
    SaveSettings(s.(prefs := s.prefs.(theme := NextTheme(s.prefs.theme))))
  }

  function ToggleAccent(s: State): State
  {
    SaveSettings(s.(prefs := s.prefs.(accent := NextAccent(s.prefs.accent))))
  }

  function ToggleAnimation(s: State, now: LocalTime, zones: set<string>): State
  {
    StartClock(SaveSettings(s.(prefs := s.prefs.(smoothAnimation := !s.prefs.smoothAnimation))), now, zones)
  }

  // ---------------------------------------------------------------------------
  // The tick (script.js:193-289)

  /** Intl.DateTimeFormat accepts the zone: "local" sets no timeZone option; other names must be known to the host. */
  predicate FormatterAccepts(zone: string, zones: set<string>)
  {
    zone == "local" || zone in zones
  }

  /**
   * One tick. The formatter throws on an unknown zone before the alarm is
   * checked; the handler then falls back to "local" in memory only.
   */
  function UpdateClock(s: State, now: LocalTime, zones: set<string>): State
  {
    if FormatterAccepts(s.prefs.timezone, zones) then CheckAlarm(s, now)
    else s.(prefs := s.prefs.(timezone := "local"))
  }

  function StopClock(s: State): State
  {
    var s1 := if s.animationFrame.Some?
      then s.(animationFrame := None, host := s.host.(frames := s.host.frames - {s.animationFrame.value}))
      else s;
    if s1.clockInterval.Some?
    then s1.(clockInterval := None, host := s1.host.(intervals := s1.host.intervals - {s1.clockInterval.value}))
    else s1
  }

  /** `this.animationFrame = requestAnimationFrame(updateSmooth)` */
  function RequestFrame(s: State): State
  {
    var id := s.host.nextId;
    s.(animationFrame := Some(id), host := s.host.(frames := s.host.frames + {id}, nextId := id + 1))
  }

  /** `this.clockInterval = setInterval(..., 1000)` */
  function SetClockInterval(s: State): State
  {
    var id := s.host.nextId;
    s.(clockInterval := Some(id), host := s.host.(intervals := s.host.intervals + {id}, nextId := id + 1))
  }

  function StartSmoothClock(s: State, now: LocalTime, zones: set<string>): State
  {
    RequestFrame(UpdateClock(StopClock(s), now, zones))
  }

  function StartDiscreteClock(s: State, now: LocalTime, zones: set<string>): State
  {
    SetClockInterval(UpdateClock(StopClock(s), now, zones))
  }

  function StartClock(s: State, now: LocalTime, zones: set<string>): State
  {
    if s.prefs.smoothAnimation then StartSmoothClock(s, now, zones) else StartDiscreteClock(s, now, zones)
  }

  /** The host runs a pending frame: updateSmooth ticks and requests the next frame. */
  function FrameFires(s: State, id: TimerId, now: LocalTime, zones: set<string>): State
    requires id in s.host.frames
  {
    RequestFrame(UpdateClock(s.(host := s.host.(frames := s.host.frames - {id})), now, zones))
  }

  /** The host runs the interval's callback: one tick. */
  function IntervalFires(s: State, id: TimerId, now: LocalTime, zones: set<string>): State
    requires id in s.host.intervals
  {
    UpdateClock(s, now, zones)
  }

  // ---------------------------------------------------------------------------
  // The alarm (script.js:380-451, 511-541)

  /** `if (!time) return;` then `{time, label: label || "Alarm"}`, persisted. */
  function SaveAlarmSettings(s: State, timeInput: string, labelInput: string): State
  {
    if timeInput == "" then s
    else SaveAlarm(s.(alarm := Some(Alarm(timeInput, if labelInput == "" then "Alarm" else labelInput))))
  }

  function SaveAlarm(s: State): State
    requires s.alarm.Some?
  {
    s.(storage := s.storage.(alarm := Stored(s.alarm.value)))
  }

  predicate LoadAlarmThrows(s: State)
  {
    s.storage.alarm.Malformed?
  }

  /** A stored alarm replaces the field; with nothing stored the field is left as it is. */
  function LoadAlarm(s: State): State
  {
    if s.storage.alarm.Stored? then s.(alarm := Some(s.storage.alarm.value)) else s
  }

  /** `clearTimeout(this.alarmTimeout)` if it is set; the field keeps its value. */
  function ClearAlarmTimeout(s: State): State
  {
    if s.alarmTimeout.Some?
    then s.(host := s.host.(timeouts := s.host.timeouts - {s.alarmTimeout.value}))
    else s
  }

  /** Clears the dismiss timeout and sets the field to null. */
  function DropAlarmTimeout(s: State): State
  {
    ClearAlarmTimeout(s).(alarmTimeout := None)
  }

  function CancelAlarm(s: State): State
  {
    DropAlarmTimeout(s.(alarm := None, storage := s.storage.(alarm := Absent)))
  }

  /** Fires on the tick that reads HH:MM:00 on the host-local clock; there is no guard against ringing twice. */
  function CheckAlarm(s: State, now: LocalTime): State
  {
    if s.alarm.Some? && RingsAt(s.alarm.value.time, now) then TriggerAlarm(s) else s
  }

  /** Schedules the 60-second auto-dismiss, overwriting the handle of any earlier one without clearing it. */
  function TriggerAlarm(s: State): State
  {
    var id := s.host.nextId;
    s.(alarmTimeout := Some(id), host := s.host.(timeouts := s.host.timeouts + {id}, nextId := id + 1))
  }

  /** Dereferencing `this.alarm` throws when no alarm is set, after the timeout was cleared. */
  predicate SnoozeThrows(s: State)
  {
    s.alarm.None?
  }

  function SnoozeAlarm(s: State, now: LocalTime): State
  {
    var s1 := ClearAlarmTimeout(s);
    if s1.alarm.None? then s1
    else SaveAlarm(s1.(alarm := Some(Alarm(SnoozeTime(now), Snoozed(s1.alarm.value.labelText)))))
  }

  function DismissAlarm(s: State): State
  {
    CancelAlarm(DropAlarmTimeout(s))
  }

  /** The Escape key: hides the modal (not modelled) and dismisses, ringing or not. */
  function PressEscape(s: State): State
  {
    DismissAlarm(s)
  }

  /** The host runs a pending timeout: the auto-dismiss callback. */
  function TimeoutFires(s: State, id: TimerId): State
    requires id in s.host.timeouts
  {
    DismissAlarm(s.(host := s.host.(timeouts := s.host.timeouts - {id})))
  }

  // ---------------------------------------------------------------------------
  // Start-up (script.js:45-55)

  /** init() stops at the first JSON.parse that throws. */
  predicate InitThrows(s: State)
  {
    LoadSettingsThrows(s) || LoadAlarmThrows(s)
  }

  function Init(s: State, now: LocalTime, zones: set<string>): State
  {
    if LoadSettingsThrows(s) then s
    else LoadAlarm(StartClock(UpdateClock(LoadSettings(s), now, zones), now, zones))
  }
}
