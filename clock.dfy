/** Instants and the date-fns helpers the analytics use.

    An instant is a count of milliseconds since the epoch, read in UTC: a day is
    exactly 86 400 000 ms long and starts at a multiple of that length (time zones
    and daylight-saving changes are not part of this model). */
module Clock {
  import opened JsValues

  type Time = int

  const DayMs: int := 86_400_000

  /** The number of the day an instant falls in. */
  function DayOf(t: Time): int
  {
    t / DayMs
  }

  /** date-fns `startOfDay`: the first millisecond of the instant's day. */
  function StartOfDay(t: Time): (s: Time)
    ensures s <= t < s + DayMs
    ensures s % DayMs == 0 && s / DayMs == DayOf(t)
  {
    DayOf(t) * DayMs
  }

  /** date-fns `endOfDay`: the last millisecond of the instant's day (23:59:59.999). */
  function EndOfDay(t: Time): (e: Time)
    ensures e - DayMs < t <= e
    ensures e == StartOfDay(t) + DayMs - 1
  {
    StartOfDay(t) + DayMs - 1
  }

  /** date-fns `addDays`; `subDays(t, k)` is `AddDays(t, -k)`. */
  function AddDays(t: Time, k: int): Time
  {
    t + k * DayMs
  }

  /** date-fns `subWeeks(t, k)`: k whole weeks earlier. */
  function SubWeeks(t: Time, k: int): Time
  {
    AddDays(t, -7 * k)
  }

  /** `new Date(v)` for a stored timestamp: a number is milliseconds, `null` is the epoch,
      a boolean is 0 or 1 ms; anything else is an Invalid Date, which is neither after nor
      before any instant. */
  function DateOf(v: Value): (d: Option<Time>)
    ensures d.Some? <==> v.Num? || v.Null? || v.Bool?
    ensures v.Num? ==> d == Some(v.n)
    ensures d.Some? ==> d.value == 0 || d.value == 1 || v.Num?
  {
    match v
    case Num(n) => Some(n)
    case Null => Some(0)
    case Bool(b) => Some(if b then 1 else 0)
    case _ => None
  }

  /** Shifting by whole days moves the day number by the same amount and keeps the time of day. */
  lemma {:induction false} DayShift(t: Time, k: int)
    ensures DayOf(AddDays(t, k)) == DayOf(t) + k
    ensures StartOfDay(AddDays(t, k)) == StartOfDay(t) + k * DayMs
  {
    var d := DayOf(t);
    var r := t - d * DayMs;
    assert 0 <= r < DayMs;
    assert AddDays(t, k) == (d + k) * DayMs + r;
  }

  /** The instants strictly between the start and the end of a day are exactly those of that day
      other than its first and its last millisecond. */
  lemma {:induction false} StrictlyInsideDay(t: Time, day: Time)
    ensures StartOfDay(day) < t < EndOfDay(day)
        <==> DayOf(t) == DayOf(day) && t % DayMs != 0 && t % DayMs != DayMs - 1
  {
    var s := StartOfDay(day);
    assert t == DayOf(t) * DayMs + t % DayMs;
    assert s == DayOf(day) * DayMs;
  }
}
