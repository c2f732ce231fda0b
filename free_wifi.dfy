/**
 * The free-access window: weekends between midnight and 3 AM
 * (features.js: `freeWifiSchedule`, `checkFreeWifiTime` and the same test in
 * `checkFreeWifiAvailability`). The clock's weekday and hour are parameters.
 */
module FreeWifi {

  /** `Date.getDay()`: 0 is Sunday, 6 is Saturday. */
  type Weekday = d: int | 0 <= d < 7

  /** `Date.getHours()`: local wall-clock hour. */
  type Hour = h: int | 0 <= h < 24

  /** The weekly schedule: allowed weekdays and the half-open hour range [startHour, endHour). */
  datatype Schedule = Schedule(days: seq<int>, startHour: int, endHour: int)

  const FreeWifiSchedule: Schedule := Schedule([0, 6], 0, 3)

  /** The schedule test: the weekday is listed and the hour lies in [startHour, endHour). */
  predicate InWindow(schedule: Schedule, day: Weekday, hour: Hour)
  {
    day in schedule.days && hour >= schedule.startHour && hour < schedule.endHour
  }

  /** `checkFreeWifiTime`: the configured schedule evaluated at the given weekday and hour. */
  predicate IsFreeWifiTime(day: Weekday, hour: Hour)
  {
    InWindow(FreeWifiSchedule, day, hour)
  }

  /** Free access holds exactly on Saturday and Sunday at hours 0, 1 and 2. */
  lemma FreeWifiTimeExactly(day: Weekday, hour: Hour)
    ensures IsFreeWifiTime(day, hour) <==> (day == 0 || day == 6) && hour < 3
  {
  }

  /** The boundary cases: the end hour is excluded and weekdays are closed. */
  lemma FreeWifiBoundaries()
    ensures IsFreeWifiTime(6, 1) && IsFreeWifiTime(0, 2)
    ensures !IsFreeWifiTime(6, 3) && !IsFreeWifiTime(1, 1)
  {
  }
}
