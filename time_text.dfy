/**
 * The time-of-day text the clock works with: the alarm's "HH:MM" string,
 * how checkAlarm reads it back (split on ':' and Number), and the
 * minute-of-day arithmetic of a snooze.
 */
module TimeText {
  import opened Optional

  type Hour = h: nat | h < 24
  type Minute = m: nat | m < 60
  type Second = s: nat | s < 60
  type MinuteOfDay = m: nat | m < 1440

  const MinutesPerDay: nat := 1440

  /** The host-local wall-clock fields of a Date: getHours, getMinutes, getSeconds. */
  datatype LocalTime = LocalTime(hour: Hour, minute: Minute, second: Second)

  function MinuteOfDayAt(t: LocalTime): MinuteOfDay
  {
    t.hour * 60 + t.minute
  }

  /** A time of day k minutes later, wrapping at midnight (daylight-saving shifts ignored). */
  function AddMinutes(m: MinuteOfDay, k: nat): MinuteOfDay
  {
    (m + k) % MinutesPerDay
  }

  // ---------------------------------------------------------------------------
  // String.prototype.split(":")

  /** The pieces of s between colons, as `s.split(":")` returns them. */
  function Split(s: string): (parts: seq<string>)
    ensures |parts| >= 1
    ensures forall i :: 0 <= i < |parts| ==> ':' !in parts[i]
    ensures |parts| == 1 <==> ':' !in s
  {
    if |s| == 0 then [""]
    else
      var rest := Split(s[1..]);
      if s[0] == ':' then [""] + rest
      else [[s[0]] + rest[0]] + rest[1..]
  }

  /** The inverse of Split: the pieces glued back together with colons. */
  function Join(parts: seq<string>): string
    requires |parts| >= 1
  {
    if |parts| == 1 then parts[0] else parts[0] + ":" + Join(parts[1..])
  }

  lemma {:induction false} JoinSplit(s: string)
    ensures Join(Split(s)) == s
  {
    if |s| > 0 {
      JoinSplit(s[1..]);
      var rest := Split(s[1..]);
      if s[0] == ':' {
        assert Split(s)[1..] == rest;
        assert s == ":" + s[1..];
      } else if |rest| == 1 {
        assert s == [s[0]] + s[1..];
      } else {
        assert Split(s)[1..] == rest[1..];
        assert s == [s[0]] + s[1..];
      }
    }
  }

  lemma {:induction false} SplitWithoutColon(s: string)
    requires ':' !in s
    ensures Split(s) == [s]
  {
    if |s| > 0 {
      SplitWithoutColon(s[1..]);
      assert s == [s[0]] + s[1..];
    }
  }

  lemma {:induction false} SplitPair(a: string, b: string)
    requires ':' !in a && ':' !in b
    ensures Split(a + ":" + b) == [a, b]
  {
    if |a| == 0 {
      assert a + ":" + b == [':'] + b;
      assert (a + ":" + b)[1..] == b;
      SplitWithoutColon(b);
    } else {
      assert (a + ":" + b)[1..] == a[1..] + ":" + b;
      SplitPair(a[1..], b);
      assert [a[0]] + a[1..] == a;
    }
  }

  // ---------------------------------------------------------------------------
  // Number(text) on the pieces of an alarm time

  predicate IsDigit(c: char)
  {
    '0' <= c <= '9'
  }

  predicate AllDigits(s: string)
  {
    forall i :: 0 <= i < |s| ==> IsDigit(s[i])
  }

  function DigitValue(c: char): nat
    requires IsDigit(c)
  {
    (c as int) - ('0' as int)
  }

  /** The decimal value of a string of digits, the empty string reading as 0. */
  function DigitsValue(s: string): nat
    requires AllDigits(s)
  {
    if |s| == 0 then 0 else 10 * DigitsValue(s[..|s| - 1]) + DigitValue(s[|s| - 1])
  }

  /**
   * Number(s) for the strings an alarm time is made of: a run of digits
   * (possibly empty, which Number reads as 0) has its decimal value; any
   * other text is NaN, here None, which equals no hour or minute.
   */
  function NumberOf(s: string): (r: Option<nat>)
    ensures r.Some? <==> AllDigits(s)
  {
    if AllDigits(s) then Some(DigitsValue(s)) else None
  }

  function DigitChar(d: nat): (c: char)
    requires d < 10
    ensures IsDigit(c) && DigitValue(c) == d
  {
    (d + '0' as int) as char
  }

  /** A number below 100 written with two digits, as toTimeString pads hours and minutes. */
  function Pad2(n: nat): (s: string)
    requires n < 100
    ensures |s| == 2 && ':' !in s
    ensures NumberOf(s) == Some(n)
  {
    var s := [DigitChar(n / 10), DigitChar(n % 10)];
    assert s[..1] == [DigitChar(n / 10)];
    assert DigitsValue(s[..1]) == DigitValue(s[0]) by {
      assert s[..1][..0] == [];
    }
    s
  }

  /** The "HH:MM" text of a time of day, as `toTimeString().slice(0, 5)` gives it. */
  function FormatHHMM(m: MinuteOfDay): (s: string)
    ensures |s| == 5 && s[2] == ':'
  {
    Pad2(m / 60) + ":" + Pad2(m % 60)
  }

  /** The hour checkAlarm reads from an alarm time: Number of the text before the first colon. */
  function AlarmHour(time: string): Option<nat>
  {
    NumberOf(Split(time)[0])
  }

  /** The minute checkAlarm reads: Number of the second piece, or NaN (None) when there is none. */
  function AlarmMinute(time: string): Option<nat>
  {
    var parts := Split(time);
    if |parts| >= 2 then NumberOf(parts[1]) else None
  }

  /** True of the one tick at which checkAlarm fires for this alarm time: HH:MM:00, host-local. */
  predicate RingsAt(time: string, now: LocalTime)
  {
    AlarmHour(time) == Some(now.hour) && AlarmMinute(time) == Some(now.minute) && now.second == 0
  }

  /** Reading a formatted time back gives the hour and minute it was written from. */
  lemma FormatHHMMReadsBack(m: MinuteOfDay)
    ensures AlarmHour(FormatHHMM(m)) == Some(m / 60)
    ensures AlarmMinute(FormatHHMM(m)) == Some(m % 60)
  {
    SplitPair(Pad2(m / 60), Pad2(m % 60));
  }

  /** An alarm set to a formatted time rings exactly at second 0 of that minute of the day. */
  lemma RingsAtFormatted(m: MinuteOfDay, now: LocalTime)
    ensures RingsAt(FormatHHMM(m), now) <==> MinuteOfDayAt(now) == m && now.second == 0
  {
    FormatHHMMReadsBack(m);
  }

  /** The alarm time a snooze at `now` writes: five minutes on, as "HH:MM". */
  function SnoozeTime(now: LocalTime): string
  {
    FormatHHMM(AddMinutes(MinuteOfDayAt(now), 5))
  }

  /** A snoozed alarm rings at second 0 of the minute five minutes after the snooze, modulo a day. */
  lemma SnoozeTimeRings(now: LocalTime, later: LocalTime)
    ensures RingsAt(SnoozeTime(now), later)
        <==> MinuteOfDayAt(later) == (MinuteOfDayAt(now) + 5) % MinutesPerDay && later.second == 0
  {
    RingsAtFormatted(AddMinutes(MinuteOfDayAt(now), 5), later);
  }

  /** Snoozing at 23:59 wraps past midnight to 00:04. */
  lemma SnoozeWrapsAtMidnight(now: LocalTime)
    requires now.hour == 23 && now.minute == 59
    ensures SnoozeTime(now) == "00:04"
  {
  }
}
