/**
 The trading clock: instants in microseconds since the Unix epoch (UTC), India
 Standard Time as a fixed offset of +05:30, and the candle grid anchored at the
 09:15 open.
 */
module MarketClock {

  type Instant = int

  const SECOND := 1_000_000
  const DAY := 86_400 * SECOND
  const IST_OFFSET := 19_800 * SECOND
  const MARKET_OPEN := 33_300 * SECOND         // 09:15
  const FIRST_CANDLE_CLOSE := 34_200 * SECOND  // 09:30
  const MARKET_CLOSE := 55_800 * SECOND        // 15:30

  datatype Interval = OneMinute | FiveMinute | FifteenMinute | ThirtyMinute | OneHour

  function StepSeconds(i: Interval): (s: int)
    ensures s > 0 && 86_400 % s == 0
  {
    match i
    case OneMinute => 60
    case FiveMinute => 300
    case FifteenMinute => 900
    case ThirtyMinute => 1_800
    case OneHour => 3_600
  }

  function Width(i: Interval): int {
    StepSeconds(i) * SECOND
  }

  /** IST wall-clock time of an instant, as microseconds since midnight. */
  function TimeOfDay(t: Instant): (r: int)
    ensures 0 <= r < DAY
  {
    (t + IST_OFFSET) % DAY
  }

  /** Monday is 0; the epoch fell on a Thursday. */
  function Weekday(t: Instant): int {
    ((t + IST_OFFSET) / DAY + 3) % 7
  }

  predicate WithinMarketHours(t: Instant) {
    Weekday(t) < 5 && MARKET_OPEN <= TimeOfDay(t) < MARKET_CLOSE
  }

  /** Day `d` since the epoch, in IST, is not a Saturday or Sunday; day 0 was a Thursday. */
  predicate TradingDay(d: int) {
    d % 7 != 2 && d % 7 != 3
  }

  /** The regular session is from 09:15 to before 15:30 IST of a trading day. */
  lemma {:induction false} MarketHoursAre(t: Instant)
    ensures WithinMarketHours(t)
            <==> exists d :: TradingDay(d) && 33_300_000_000 <= t - (d * 86_400_000_000 - 19_800_000_000) < 55_800_000_000
  {
    var d := (t + IST_OFFSET) / DAY;
    assert t + IST_OFFSET == d * DAY + TimeOfDay(t);
    if WithinMarketHours(t) {
      assert TradingDay(d);
    }
    if e :| TradingDay(e) && 33_300_000_000 <= t - (e * 86_400_000_000 - 19_800_000_000) < 55_800_000_000 {
      DivModUnique(t + IST_OFFSET, DAY, e, t + IST_OFFSET - e * DAY);
    }
  }

  /** The open the slots are counted from: the day's own, or the previous day's before it. */
  function Anchor(t: Instant): Instant {
    var dayOpen := t - TimeOfDay(t) + MARKET_OPEN;
    if t < dayOpen then dayOpen - DAY else dayOpen
  }

  /**
   Floors an instant to its slot; the offset from the anchor is first cut to whole
   seconds.
   */
  function FloorToInterval(t: Instant, stepSeconds: int): Instant
    requires stepSeconds > 0
  {
    var anchor := Anchor(t);
    var elapsedSeconds := (t - anchor) / SECOND;
    anchor + elapsedSeconds / stepSeconds * stepSeconds * SECOND
  }

  // ---- One grid -----------------------------------------------------------

  /** Whether an instant is a slot boundary of the grid anchored at 09:15. */
  predicate OnGrid(t: Instant, width: int)
    requires width > 0
  {
    (t + IST_OFFSET - MARKET_OPEN) % width == 0
  }

  lemma {:induction false} DivModUnique(x: int, d: int, q: int, r: int)
    requires d > 0 && x == q * d + r && 0 <= r < d
    ensures x / d == q && x % d == r
  {
    var slack := x / d - q;
    assert slack * d == r - x % d;
    assert slack >= 1 ==> slack * d >= d;
    assert slack <= -1 ==> slack * d <= -d;
  }

  lemma {:induction false} MultipleOfMultiple(x: int, fine: int, coarse: int)
    requires fine > 0 && coarse > 0 && coarse % fine == 0 && x % coarse == 0
    ensures x % fine == 0
  {
    var q, k := x / coarse, coarse / fine;
    assert x == q * coarse && coarse == k * fine;
    assert x == (q * k) * fine + 0;
    DivModUnique(x, fine, q * k, 0);
  }

  lemma {:induction false} GridDistance(a: Instant, b: Instant, width: int)
    requires width > 0 && OnGrid(a, width) && OnGrid(b, width) && a < b
    ensures a + width <= b
  {
    var p, q := (a + IST_OFFSET - MARKET_OPEN) / width, (b + IST_OFFSET - MARKET_OPEN) / width;
    assert b - a == (q - p) * width;
    assert q - p <= 0 ==> (q - p) * width <= 0;
    assert q - p >= 1 ==> (q - p) * width >= width;
  }

  lemma {:induction false} GridNext(a: Instant, width: int)
    requires width > 0 && OnGrid(a, width)
    ensures OnGrid(a + width, width)
  {
    var x := a + IST_OFFSET - MARKET_OPEN;
    assert x + width == (x / width + 1) * width + 0;
    DivModUnique(x + width, width, x / width + 1, 0);
  }

  /** A boundary of a coarse grid is a boundary of every grid that divides it. */
  lemma {:induction false} GridNested(a: Instant, fine: int, coarse: int)
    requires fine > 0 && coarse > 0 && coarse % fine == 0 && OnGrid(a, coarse)
    ensures OnGrid(a, fine)
  {
    MultipleOfMultiple(a + IST_OFFSET - MARKET_OPEN, fine, coarse);
  }

  /** Flooring an offset to whole seconds and then to whole steps is one floor. */
  lemma {:induction false} FloorTwice(x: int, step: int)
    requires x >= 0 && step > 0
    ensures var f := x / SECOND / step * step * SECOND;
            f == x / SECOND / step * (step * SECOND) && f <= x < f + step * SECOND
  {
    var q := x / SECOND / step;
    assert q * step <= x / SECOND < q * step + step;
    assert q * step * SECOND == q * (step * SECOND);
  }

  /** The offset between two open times is a whole number of steps. */
  lemma {:induction false} DaysAreSteps(days: int, step: int)
    requires step > 0 && 86_400 % step == 0
    ensures days * DAY == days * (86_400 / step) * (step * SECOND)
  {
    var k := 86_400 / step;
    assert 86_400 == k * step;
    assert k * step * SECOND == k * (step * SECOND) == DAY;
    assert days * (k * (step * SECOND)) == days * k * (step * SECOND);
  }

  lemma {:induction false} AnchorIsAnOpen(t: Instant) returns (days: int)
    ensures Anchor(t) + IST_OFFSET - MARKET_OPEN == days * DAY
    ensures Anchor(t) <= t < Anchor(t) + DAY
  {
    days := (t + IST_OFFSET) / DAY - (if t < t - TimeOfDay(t) + MARKET_OPEN then 1 else 0);
  }

  /**
   The floor is the last grid point not after the instant. Both branches land on
   this one grid because every step divides a day.
   */
  lemma {:induction false} FloorIsLastGridPoint(t: Instant, step: int)
    requires step > 0 && 86_400 % step == 0
    ensures var f := FloorToInterval(t, step);
            OnGrid(f, step * SECOND) && f <= t < f + step * SECOND
  {
    var days := AnchorIsAnOpen(t);
    FloorTwice(t - Anchor(t), step);
    DaysAreSteps(days, step);
    var q, w := (t - Anchor(t)) / SECOND / step, step * SECOND;
    var x := FloorToInterval(t, step) + IST_OFFSET - MARKET_OPEN;
    var n := days * (86_400 / step) + q;
    assert x == n * w by {
      assert x == days * DAY + q * w;
    }
    DivModUnique(x, w, n, 0);
  }

  /** Idempotence, monotonicity and nesting of the floor, for any two steps of a day. */
  lemma {:induction false} FloorLaws(t: Instant, u: Instant, fine: int, coarse: int)
    requires fine > 0 && coarse > 0 && 86_400 % fine == 0 && 86_400 % coarse == 0
    requires coarse % fine == 0
    ensures FloorToInterval(FloorToInterval(t, fine), fine) == FloorToInterval(t, fine)
    ensures t <= u ==> FloorToInterval(t, fine) <= FloorToInterval(u, fine)
    ensures FloorToInterval(FloorToInterval(t, fine), coarse) == FloorToInterval(t, coarse)
    ensures FloorToInterval(t, coarse) <= FloorToInterval(t, fine)
    ensures FloorToInterval(t, fine) + fine * SECOND <= FloorToInterval(t, coarse) + coarse * SECOND
  {
    var w, c := fine * SECOND, coarse * SECOND;
    var tf, uf, tc := FloorToInterval(t, fine), FloorToInterval(u, fine), FloorToInterval(t, coarse);
    FloorIsLastGridPoint(t, fine);
    FloorIsLastGridPoint(u, fine);
    FloorIsLastGridPoint(t, coarse);
    LastGridPointUnique(tf, fine, tf);
    if t <= u && uf < tf { GridDistance(uf, tf, w); }
    WidthsDivide(fine, coarse);
    GridNested(tc, w, c);
    if tf < tc { GridDistance(tf, tc, w); }
    LastGridPointUnique(tf, coarse, tc);
    GridNext(tc, c);
    GridNested(tc + c, w, c);
    GridDistance(tf, tc + c, w);
  }

  lemma {:induction false} WidthsDivide(fine: int, coarse: int)
    requires fine > 0 && coarse > 0 && coarse % fine == 0
    ensures fine * SECOND > 0 && coarse * SECOND % (fine * SECOND) == 0
  {
    assert coarse * SECOND == (coarse / fine) * (fine * SECOND) + 0;
    DivModUnique(coarse * SECOND, fine * SECOND, coarse / fine, 0);
  }

  /** A grid point with the instant inside its slot is the floor. */
  lemma {:induction false} LastGridPointUnique(t: Instant, step: int, g: Instant)
    requires step > 0 && 86_400 % step == 0
    requires OnGrid(g, step * SECOND) && g <= t < g + step * SECOND
    ensures FloorToInterval(t, step) == g
  {
    FloorIsLastGridPoint(t, step);
    var f := FloorToInterval(t, step);
    if f < g {
      GridDistance(f, g, step * SECOND);
    } else if g < f {
      GridDistance(g, f, step * SECOND);
    }
  }
}
