/** Calendar dates and clock times. A `YYYY-MM-DD` date is a day number and an
    `HH:mm` time a minute of the day; for these fixed-width digit strings,
    `localeCompare` agrees with comparing the numbers. Time zones and parsing
    are outside the model: `new Date(`${date}T${time}`)` is `MomentMs`. */
module Clock {

  const MinutesPerDay: int := 1440
  const MsPerMinute: int := 60000

  type MinuteOfDay = m: int | 0 <= m < 1440

  /** Minutes since the epoch of day `date` at `time`. */
  function Stamp(date: int, time: MinuteOfDay): int {
    date * MinutesPerDay + time
  }

  /** Milliseconds since the epoch, as `Date.getTime()` gives them. */
  function MomentMs(date: int, time: MinuteOfDay): int {
    Stamp(date, time) * MsPerMinute
  }

  /** The order of the comparator `a.date.localeCompare(b.date) || a.time.localeCompare(b.time)`. */
  predicate DateTimeLe(d1: int, t1: MinuteOfDay, d2: int, t2: MinuteOfDay) {
    d1 < d2 || (d1 == d2 && t1 <= t2)
  }

  /** Ordering by (date, time) is ordering by the minute stamp. */
  lemma StampOrder(d1: int, t1: MinuteOfDay, d2: int, t2: MinuteOfDay)
    ensures DateTimeLe(d1, t1, d2, t2) <==> Stamp(d1, t1) <= Stamp(d2, t2)
  {
    if d1 < d2 {
      assert d1 * MinutesPerDay + MinutesPerDay <= d2 * MinutesPerDay;
    } else if d1 > d2 {
      assert d2 * MinutesPerDay + MinutesPerDay <= d1 * MinutesPerDay;
    }
  }

  /** ... and by the moment in milliseconds. */
  lemma MomentOrder(d1: int, t1: MinuteOfDay, d2: int, t2: MinuteOfDay)
    ensures DateTimeLe(d1, t1, d2, t2) <==> MomentMs(d1, t1) <= MomentMs(d2, t2)
  {
    StampOrder(d1, t1, d2, t2);
  }
}
