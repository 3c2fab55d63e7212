/** Local clock arithmetic on millisecond timestamps: the `Date` getters and
    setters the dashboard uses (`getHours`, `getMinutes`, `setHours`,
    `setMinutes`), on a clock whose days all last 24 hours. */
module Clock {

  const SECOND: int := 1000
  const MINUTE: int := 60000
  const QUARTER: int := 900000
  const HOUR: int := 3600000
  const DAY: int := 86400000

  /** `d.setHours(0, 0, 0, 0)`: local midnight of `t`'s day. */
  function StartOfDay(t: int): int { t - t % DAY }

  /** `d.setMinutes(0, 0, 0)`: the start of `t`'s hour. */
  function HourStart(t: int): int { t - t % HOUR }

  /** `d.getHours()`. */
  function HourOf(t: int): (h: int)
    ensures 0 <= h < 24
  {
    (t % DAY) / HOUR
  }

  /** `d.getMinutes()`. */
  function MinuteOf(t: int): (m: int)
    ensures 0 <= m < 60
  {
    (t % HOUR) / MINUTE
  }

  /** `d.setHours(23, 59, 59)`: the milliseconds of `t` are kept. */
  function EndOfDay(t: int): int {
    StartOfDay(t) + 23 * HOUR + 59 * MINUTE + 59 * SECOND + t % SECOND
  }

  /** `d.setMinutes(m, 0, 0)`; minutes of 60 and more roll into later hours. */
  function SetMinutes(t: int, m: int): int { HourStart(t) + m * MINUTE }

  /** `(getHours() - 6) * 60 + getMinutes()`: minutes since 6 AM. */
  function MinutesSince6am(t: int): (m: int)
    ensures -360 <= m < 1080
  {
    (HourOf(t) - 6) * 60 + MinuteOf(t)
  }

  /** `Math.ceil(m / 15) * 15` for a minute of the hour. */
  function CeilQuarter(m: int): (q: int)
    requires 0 <= m < 60
    ensures m <= q < m + 15 && q % 15 == 0 && q <= 60
    ensures q == m <==> m % 15 == 0
  {
    (m + 14) / 15 * 15
  }

  /** How many of `first`, `first + step`, `first + 2 * step`, ... are at
      most `end`. */
  function StepsUpTo(first: int, end: int, step: int): nat
    requires step > 0
  {
    if first > end then 0 else (end - first) / step + 1
  }

  /** Value `i` (from 0) of the progression is at most `end` exactly when
      `i` is below the count. */
  lemma StepsUpToSpec(first: int, end: int, step: int, i: nat)
    requires step > 0
    ensures first + i * step <= end <==> i < StepsUpTo(first, end, step)
  {
    if first <= end {
      var d := end - first;
      var q := d / step;
      assert d == q * step + d % step;
      if i <= q {
        MulMonotone(i, q, step);
      } else {
        MulMonotone(q + 1, i, step);
      }
    }
  }

  /** The hour start lies within the day, and `t` within its hour. */
  lemma HourStartInDay(t: int)
    ensures StartOfDay(t) <= HourStart(t) <= t < HourStart(t) + HOUR
    ensures HourStart(t) == StartOfDay(t) + HourOf(t) * HOUR
    ensures t == HourStart(t) + MinuteOf(t) * MINUTE + t % MINUTE
  {
    var r := t % DAY;
    var q := t / DAY;
    assert t == q * DAY + r;
    assert q * DAY == (q * 24) * HOUR;
    var hq := r / HOUR;
    var hr := r % HOUR;
    assert r == hq * HOUR + hr;
    assert t == (q * 24 + hq) * HOUR + hr;
    assert t % HOUR == hr by {
      ModUnique(t, HOUR, q * 24 + hq, hr);
    }
    var mq := hr / MINUTE;
    var mr := hr % MINUTE;
    assert hr == mq * MINUTE + mr;
    assert t % MINUTE == mr by {
      assert t == ((q * 24 + hq) * 60 + mq) * MINUTE + mr;
      ModUnique(t, MINUTE, (q * 24 + hq) * 60 + mq, mr);
    }
  }

  /** Euclidean division is unique: a quotient-remainder pair fixes `%`. */
  lemma ModUnique(a: int, d: int, q: int, r: int)
    requires d > 0 && 0 <= r < d && a == q * d + r
    ensures a % d == r && a / d == q
  {
    var q', r' := a / d, a % d;
    assert a == q' * d + r';
    if q' > q {
      MulMonotone(q + 1, q', d);
      assert false;
    } else if q' < q {
      MulMonotone(q' + 1, q, d);
      assert false;
    }
  }

  lemma MulMonotone(x: int, y: int, d: int)
    requires x <= y && d >= 0
    ensures x * d <= y * d
  {
    assert y * d - x * d == (y - x) * d;
  }

  /** Adding whole days keeps the time of day. */
  lemma ShiftByDays(t: int, k: int)
    ensures (t + k * DAY) % DAY == t % DAY
    ensures StartOfDay(t + k * DAY) == StartOfDay(t) + k * DAY
  {
    var q := t / DAY;
    var r := t % DAY;
    assert t + k * DAY == (q + k) * DAY + r;
    ModUnique(t + k * DAY, DAY, q + k, r);
  }

  /** A timestamp at or after the start of its own hour plus `k` whole hours,
      within the same day, has hour of day `HourOf(h) + k`. */
  lemma HourOfHourStep(t: int, k: int)
    requires 0 <= HourOf(t) + k < 24
    ensures HourOf(HourStart(t) + k * HOUR) == HourOf(t) + k
    ensures StartOfDay(HourStart(t) + k * HOUR) == StartOfDay(t)
  {
    HourStartInDay(t);
    var s := StartOfDay(t);
    var x := HourStart(t) + k * HOUR;
    assert x == s + (HourOf(t) + k) * HOUR;
    assert s == (t / DAY) * DAY;
    assert x == (t / DAY) * DAY + (HourOf(t) + k) * HOUR;
    ModUnique(x, DAY, t / DAY, (HourOf(t) + k) * HOUR);
    ModUnique((HourOf(t) + k) * HOUR, HOUR, HourOf(t) + k, 0);
  }
}
