/** The guest's waiting room: a once-a-second countdown to the event start,
    split into days, hours, minutes and seconds. `now` is a parameter of
    each tick. */
module WaitingRoom {
  import opened Options
  import Decimal

  const MsPerSecond: int := 1000
  const MsPerMinute: int := 60 * 1000
  const MsPerHour: int := 60 * 60 * 1000
  const MsPerDay: int := 1000 * 60 * 60 * 24

  const StartedText: string := "Событие началось!"

  /** The parts of a positive number of milliseconds, as the tick computes them. */
  datatype Parts = Parts(days: nat, hours: nat, minutes: nat, seconds: nat)

  function Decompose(diff: nat): Parts {
    Parts(diff / MsPerDay,
          (diff % MsPerDay) / MsPerHour,
          (diff % MsPerHour) / MsPerMinute,
          (diff % MsPerMinute) / MsPerSecond)
  }

  lemma MulAtLeast(a: int, m: int)
    requires a >= 1 && m > 0
    ensures a * m >= m
  {
    assert a * m == (a - 1) * m + m;
  }

  /** Division with remainder has one answer. */
  lemma DivModUnique(x: int, m: int, q: int, r: int)
    requires m > 0 && 0 <= r < m && x == q * m + r
    ensures x / m == q && x % m == r
  {
    var q' := x / m;
    var r' := x % m;
    var d := q - q';
    assert d * m == r' - r by {
      assert x == q' * m + r';
      assert d * m == q * m - q' * m;
    }
    if d >= 1 {
      MulAtLeast(d, m);
    } else if d <= -1 {
      MulAtLeast(-d, m);
    }
  }

  /** The parts are in range and, with the milliseconds left over, add up to
      the whole: hours below 24, minutes and seconds below 60. */
  lemma DecomposeSpec(diff: nat)
    ensures var p := Decompose(diff);
      && p.hours < 24 && p.minutes < 60 && p.seconds < 60
      && diff == p.days * MsPerDay + p.hours * MsPerHour + p.minutes * MsPerMinute
                 + p.seconds * MsPerSecond + diff % MsPerSecond
  {
    var p := Decompose(diff);
    var a := diff % MsPerDay;
    var b := a % MsPerHour;
    var c := b % MsPerMinute;
    var r := c % MsPerSecond;
    DivModUnique(a, MsPerHour, p.hours, b);
    DivModUnique(diff, MsPerHour, p.days * 24 + p.hours, b);
    DivModUnique(b, MsPerMinute, b / MsPerMinute, c);
    DivModUnique(diff, MsPerMinute, (p.days * 24 + p.hours) * 60 + b / MsPerMinute, c);
    DivModUnique(c, MsPerSecond, c / MsPerSecond, r);
    DivModUnique(diff, MsPerSecond, ((p.days * 24 + p.hours) * 60 + p.minutes) * 60 + c / MsPerSecond, r);
  }

  /** What the countdown shows. */
  datatype Countdown =
    | Started
    | DaysHoursMinutes(d: nat, h: nat, m: nat)
    | HoursMinutesSeconds(h: nat, m: nat, s: nat)
    | MinutesSeconds(m: nat, s: nat)

  /** The tick's choice: started at 0 or less, days when there are any,
      hours when there are any, otherwise minutes and seconds. */
  function CountdownOf(diff: int): Countdown {
    if diff <= 0 then Started
    else
      var p := Decompose(diff);
      if p.days > 0 then DaysHoursMinutes(p.days, p.hours, p.minutes)
      else if p.hours > 0 then HoursMinutesSeconds(p.hours, p.minutes, p.seconds)
      else MinutesSeconds(p.minutes, p.seconds)
  }

  /** Each form is chosen for exactly one band of remaining time. */
  lemma CountdownBands(diff: int)
    ensures CountdownOf(diff).Started? <==> diff <= 0
    ensures CountdownOf(diff).DaysHoursMinutes? <==> diff >= MsPerDay
    ensures CountdownOf(diff).HoursMinutesSeconds? <==> MsPerHour <= diff < MsPerDay
    ensures CountdownOf(diff).MinutesSeconds? <==> 0 < diff < MsPerHour
  {
  }

  function Text(c: Countdown): string {
    match c
    case Started => StartedText
    case DaysHoursMinutes(d, h, m) =>
      Decimal.NatToString(d) + "д " + Decimal.NatToString(h) + "ч " + Decimal.NatToString(m) + "м"
    case HoursMinutesSeconds(h, m, s) =>
      Decimal.NatToString(h) + "ч " + Decimal.NatToString(m) + "м " + Decimal.NatToString(s) + "с"
    case MinutesSeconds(m, s) =>
      Decimal.NatToString(m) + "м " + Decimal.NatToString(s) + "с"
  }

  class Countdowner {
    var eventStartTime: Option<int>
    var timeLeft: string
    /** The interval is set. */
    var running: bool

    ghost predicate Valid()
      reads this
    {
      running ==> eventStartTime.Some?
    }

    /** The effect sets no interval when there is no start time. */
    constructor(eventStartTime: Option<int>)
      ensures Valid()
      ensures this.eventStartTime == eventStartTime && timeLeft == ""
      ensures running <==> eventStartTime.Some?
    {
      this.eventStartTime := eventStartTime;
      timeLeft := "";
      running := eventStartTime.Some?;
    }

    /** A new start time: the old interval is cleared and a new one set if
        the time is not null; the text stays until the next tick. */
    method ChangeStart(start: Option<int>)
      modifies this
      ensures Valid()
      ensures eventStartTime == start && timeLeft == old(timeLeft)
      ensures running <==> start.Some?
    {
      eventStartTime := start;
      running := start.Some?;
    }

    /** One tick at `nowMs`: shows the countdown, and once the start has
        passed shows that the event has begun and clears the interval. */
    method Tick(nowMs: int)
      requires Valid()
      modifies this
      ensures Valid() && eventStartTime == old(eventStartTime)
      ensures !old(running) ==> !running && timeLeft == old(timeLeft)
      ensures old(running) ==>
        && timeLeft == Text(CountdownOf(old(eventStartTime).value - nowMs))
        && (running <==> old(eventStartTime).value - nowMs > 0)
    {
      if running {
        var diff := eventStartTime.value - nowMs;
        if diff <= 0 {
          timeLeft := StartedText;
          running := false;
        } else {
          timeLeft := Text(CountdownOf(diff));
        }
      }
    }
  }
}
