/**
  Time-of-day classification (`getTimeOfDay`). The clock reading
  `new Date().getHours()` is supplied by the caller as a local hour.
 */
module DayTime {

  /** A local wall-clock hour, as `Date.prototype.getHours` returns it. */
  type Hour = h: int | 0 <= h < 24

  datatype TimeOfDay = Morning | Afternoon | Evening

  /** Morning is [5, 12), afternoon is [12, 18), and every other hour of the
      day (midnight to 4 and 18 to 23) is evening. */
  function TimeOfDayAt(hour: Hour): (t: TimeOfDay)
    ensures t == Morning <==> 5 <= hour < 12
    ensures t == Afternoon <==> 12 <= hour < 18
    ensures t == Evening <==> hour < 5 || 18 <= hour
  {
    if hour >= 5 && hour < 12 then Morning
    else if hour >= 12 && hour < 18 then Afternoon
    else Evening
  }
}
