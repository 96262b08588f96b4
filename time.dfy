/**
 * Timestamps are integer milliseconds. A calendar day is the timestamp
 * divided by the length of a day, rounded down; local time zones and
 * daylight-saving shifts are not modelled.
 */
module Time {
  const MsPerMinute: int := 60000
  const MsPerHour: int := 3600000
  const MsPerDay: int := 86400000

  /** The day number `toDateString()` distinguishes. */
  function DayOf(t: int): int {
    t / MsPerDay
  }

  /** Each day starts at a multiple of the day length and lasts one day. */
  lemma DayBounds(t: int)
    ensures DayOf(t) * MsPerDay <= t < (DayOf(t) + 1) * MsPerDay
  {
  }
}
