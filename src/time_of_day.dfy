/**
 * The wall clock the panel devices read once per frame: esphome's `ESPTime`,
 * reduced to what the panels use, and the 24-hour to 12-hour conversion that
 * every device repeats before printing the time.
 */
module Clocks {
  import opened Wrappers

  /**
   * A reading of the clock: the epoch seconds by which two readings are
   * ordered (`now > flashUntil`), and the hour (0..23) and minute (0..59).
   */
  datatype Time = Time(timestamp: int, hour: int, minute: int)

  /** A clock reading with hour and minute in their ranges. */
  predicate WellFormed(t: Time)
  {
    0 <= t.hour <= 23 && 0 <= t.minute <= 59
  }

  /**
   * The hour shown on a 12-hour face: midnight is 12, afternoon hours drop
   * by twelve, the morning hours 1..12 are shown as they are.
   */
  function TwelveHour(hour: int): (shown: int)
    ensures 0 <= hour <= 23 ==> 1 <= shown <= 12 && shown % 12 == hour % 12
    ensures 1 <= hour <= 12 ==> shown == hour
  {
    if hour == 0 then 12 else if hour > 12 then hour - 12 else hour
  }

  /**
   * Morning and afternoon share a face: two hours of a day show the same
   * number exactly when they lie twelve hours apart or coincide.
   */
  lemma {:induction false} TwelveHourFace(a: int, b: int)
    requires 0 <= a <= 23 && 0 <= b <= 23
    ensures TwelveHour(a) == TwelveHour(b) <==> a % 12 == b % 12
  {
    var sa, sb := TwelveHour(a), TwelveHour(b);
    assert 1 <= sa <= 12 && sa % 12 == a % 12;
    assert 1 <= sb <= 12 && sb % 12 == b % 12;
  }

  /**
   * The `next_alarm` text sensor, which the bedside displays show when it has
   * a state other than "unavailable".
   */
  predicate AlarmValid(nextAlarm: Option<string>)
  {
    nextAlarm.Some? && nextAlarm.value != "unavailable"
  }
}
