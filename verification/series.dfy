/**
 One-pass series arithmetic: the largest drawdown, daily and cumulative profit, and the
 equity curve. Money is in whole units of 1/10000 rupee.
 */
module PnlSeries {
  import opened Wrappers
  import opened Rounding
  import opened StableSorts
  import Sums

  // ---- Drawdown -----------------------------------------------------------

  function Abs(x: int): nat {
    if x >= 0 then x else -x
  }

  /** A drop as a percentage of its peak, in units of 1/10000 percent. */
  function PercentOf(drop: int, peak: int): int {
    if peak == 0 then 0 else Round(drop as real / Abs(peak) as real * 100.0 * 10_000.0)
  }

  /** The percentage is the nearest to the drop over the size of its peak, in units of 1/10000 percent. */
  predicate IsPercent(percent: int, drop: int, peak: int) {
    var size := if peak >= 0 then peak else -peak;
    if peak == 0 then percent == 0 else -size <= 2 * percent * size - 2 * drop * 1_000_000 <= size
  }

  lemma {:induction false} PercentIsNearest(drop: int, peak: int)
    ensures IsPercent(PercentOf(drop, peak), drop, peak)
  {
    if peak != 0 {
      var size := if peak >= 0 then peak else -peak;
      NearestOverSize(PercentOf(drop, peak), drop, size);
    }
  }

  lemma {:induction false} NearestOverSize(percent: int, drop: int, size: int)
    requires size > 0 && percent == Round(drop as real / size as real * 100.0 * 10_000.0)
    ensures -size <= 2 * percent * size - 2 * drop * 1_000_000 <= size
  {
    RatioTimes(drop as real, size as real, percent as real);
    assert percent as real * size as real == (percent * size) as real;
  }

  lemma {:induction false} RatioTimes(d: real, z: real, x: real)
    requires z > 0.0 && -0.5 <= x - d / z * 100.0 * 10_000.0 <= 0.5
    ensures -0.5 * z <= x * z - d * 1_000_000.0 <= 0.5 * z
  {
    var ratio := d / z;
    assert ratio * z == d;
    ScaledBetween(x - ratio * 1_000_000.0, z);
    assert (x - ratio * 1_000_000.0) * z == x * z - ratio * z * 1_000_000.0;
  }

  lemma {:induction false} ScaledBetween(off: real, z: real)
    requires z > 0.0 && -0.5 <= off <= 0.5
    ensures -0.5 * z <= off * z <= 0.5 * z
  {
  }

  /** The largest fall from a point of the series to the same or a later one. */
  ghost predicate IsMaxDrop(p: seq<int>, drop: int) {
    && drop >= 0
    && (forall i, j :: 0 <= i <= j < |p| ==> p[i] - p[j] <= drop)
    && (p == [] || exists i, j :: 0 <= i <= j < |p| && p[i] - p[j] == drop)
  }

  /**
   The trough is the first point that falls by the whole drop, and the peak is the value it
   falls from.
   */
  ghost predicate IsFirstTrough(p: seq<int>, drop: int, peak: int, trough: nat) {
    && trough < |p| && peak - p[trough] == drop
    && (exists i :: 0 <= i <= trough && p[i] == peak)
    && (forall i, j :: 0 <= i <= j < trough ==> p[i] - p[j] < drop)
  }

  /** One pass finds the maximum over all pairs, and the percentage of its first occurrence. */
  method MaxDrawdown(p: seq<int>) returns (drop: int, percent: int)
    ensures IsMaxDrop(p, drop)
    ensures drop == 0 ==> percent == 0
    ensures drop > 0 ==> exists peak, trough :: IsFirstTrough(p, drop, peak, trough) && IsPercent(percent, drop, peak)
  {
    drop, percent := 0, 0;
    if p == [] {
      return;
    }
    var peak := p[0];
    ghost var top, trough := p[0], 0;
    for k := 0 to |p|
      invariant forall i :: 0 <= i < k ==> p[i] <= peak
      invariant exists i :: 0 <= i < |p| && (i < k || i == 0) && p[i] == peak
      invariant drop >= 0
      invariant forall i, j :: 0 <= i <= j < k ==> p[i] - p[j] <= drop
      invariant drop == 0 ==> percent == 0
      invariant drop > 0 ==> trough < k && IsFirstTrough(p, drop, top, trough) && IsPercent(percent, drop, top)
    {
      if p[k] > peak {
        peak := p[k];
      }
      var fall := peak - p[k];
      if fall > drop {
        drop := fall;
        percent := PercentOf(fall, peak);
        PercentIsNearest(fall, peak);
        top, trough := peak, k;
      }
    }
    if drop == 0 {
      assert p[0] - p[0] == drop;
    } else {
      ghost var i :| 0 <= i <= trough && p[i] == top;
      assert p[i] - p[trough] == drop;
    }
  }

  // ---- Daily series -------------------------------------------------------

  function At(m: map<nat, int>, k: nat): int {
    if k in m then m[k] else 0
  }

  lemma {:induction false} SameSeries(x: map<nat, int>, y: map<nat, int>)
    requires forall k :: k in x <==> k in y
    requires forall k :: At(x, k) == At(y, k)
    ensures x == y
  {
    assert x.Keys == y.Keys;
    forall k | k in x
      ensures x[k] == y[k]
    {
      assert At(x, k) == At(y, k);
    }
  }

  function DailyOf(days: seq<nat>, pnls: seq<int>): map<nat, int>
    requires |days| == |pnls|
  {
    if days == [] then map[] else
    var k := |days| - 1;
    var m := DailyOf(days[..k], pnls[..k]);
    m[days[k] := At(m, days[k]) + pnls[k]]
  }

  function SumOn(days: seq<nat>, pnls: seq<int>, day: nat): int
    requires |days| == |pnls|
  {
    if days == [] then 0 else
    var k := |days| - 1;
    SumOn(days[..k], pnls[..k], day) + if days[k] == day then pnls[k] else 0
  }

  function SumAll(pnls: seq<int>): int {
    if pnls == [] then 0 else SumAll(pnls[..|pnls| - 1]) + pnls[|pnls| - 1]
  }

  datatype LengthMismatch = LengthMismatch

  method DailyPnlSeries(days: seq<nat>, pnls: seq<int>) returns (r: Result<map<nat, int>, LengthMismatch>)
    ensures r == if |days| == |pnls| then Ok(DailyOf(days, pnls)) else Err(LengthMismatch)
  {
    if |days| != |pnls| {
      return Err(LengthMismatch);
    }
    var daily := map[];
    for k := 0 to |days|
      invariant daily == DailyOf(days[..k], pnls[..k])
    {
      assert days[..k + 1][..k] == days[..k] && pnls[..k + 1][..k] == pnls[..k];
      daily := daily[days[k] := At(daily, days[k]) + pnls[k]];
    }
    assert days[..|days|] == days && pnls[..|pnls|] == pnls;
    return Ok(daily);
  }

  /** The daily series has exactly the trading days, each with the sum of its trades, and loses no money. */
  lemma {:induction false} DailyIsTheSum(days: seq<nat>, pnls: seq<int>)
    requires |days| == |pnls|
    ensures DailyOf(days, pnls).Keys == set d | d in days
    ensures forall d :: At(DailyOf(days, pnls), d) == SumOn(days, pnls, d)
    ensures Sums.SumOf(DailyOf(days, pnls)) == SumAll(pnls)
  {
    if days != [] {
      var k := |days| - 1;
      DailyIsTheSum(days[..k], pnls[..k]);
      var m := DailyOf(days[..k], pnls[..k]);
      Sums.SumAfterUpdate(m, days[k], At(m, days[k]) + pnls[k]);
      assert days == days[..k] + [days[k]];
    }
  }

  // ---- Cumulative series --------------------------------------------------

  predicate IsLeast(d: nat, keys: set<nat>) {
    d in keys && forall e :: e in keys ==> d <= e
  }

  lemma {:induction false} SmallestExists(keys: set<nat>, x: nat)
    requires x in keys
    ensures exists d :: IsLeast(d, keys)
    decreases |keys|
  {
    if !IsLeast(x, keys) {
      var y :| y in keys && y < x;
      SmallestExists(keys - {x}, y);
      var d :| IsLeast(d, keys - {x});
      forall e | e in keys
        ensures d <= e
      {
        assert e == x || e in keys - {x};
      }
      assert IsLeast(d, keys);
    }
  }

  /** The days of a series up to and including one day. */
  ghost function UpTo(daily: map<nat, int>, day: nat): set<nat> {
    set d | d in daily.Keys && d <= day
  }

  /** A walk in calendar order that still has the days `left` ahead of it. */
  ghost predicate Walked(daily: map<nat, int>, left: set<nat>, days: seq<nat>, series: seq<int>) {
    && left <= daily.Keys && |series| == |days| == |daily| - |left|
    && (forall d, e :: d in daily.Keys - left && e in left ==> d < e)
    && (forall i :: 0 <= i < |days| ==> days[i] in daily.Keys - left)
    && (forall i, j :: 0 <= i < j < |days| ==> days[i] < days[j])
    && (forall i :: 0 <= i < |days| ==> series[i] == Sums.SumOver(UpTo(daily, days[i]), daily))
    && (if series == [] then left == daily.Keys
        else series[|series| - 1] == Sums.SumOver(daily.Keys - left, daily))
  }

  lemma {:induction false} NextDay(daily: map<nat, int>, left: set<nat>, days: seq<nat>, series: seq<int>, day: nat)
    requires Walked(daily, left, days, series) && IsLeast(day, left)
    ensures var sum := Sums.SumOver(daily.Keys - left, daily) + daily[day];
            && Walked(daily, left - {day}, days + [day], series + [sum])
            && sum == Sums.SumOver(daily.Keys - (left - {day}), daily)
  {
    var done := daily.Keys - left;
    var sum := Sums.SumOver(done, daily) + daily[day];
    assert done + {day} == UpTo(daily, day) == daily.Keys - (left - {day});
    Sums.TakeOut(done + {day}, daily, day);
    assert done + {day} - {day} == done;
    assert |left - {day}| == |left| - 1;
    assert forall d :: d in daily.Keys - (left - {day}) ==> d == day || d in done;
  }

  /** Point `i` is the profit of all days up to the i-th day in calendar order. */
  method CumulativePnlSeries(daily: map<nat, int>) returns (series: seq<int>, ghost days: seq<nat>)
    ensures |series| == |days| == |daily|
    ensures forall i, j :: 0 <= i < j < |days| ==> days[i] < days[j]
    ensures forall i :: 0 <= i < |days| ==>
              days[i] in daily && series[i] == Sums.SumOver(UpTo(daily, days[i]), daily)
    ensures series != [] ==> series[|series| - 1] == Sums.SumOf(daily)
  {
    series, days := [], [];
    var cumulative := 0;
    var left := daily.Keys;
    while left != {}
      invariant Walked(daily, left, days, series)
      invariant cumulative == Sums.SumOver(daily.Keys - left, daily)
      decreases |left|
    {
      ghost var first :| first in left;
      SmallestExists(left, first);
      var day :| IsLeast(day, left);
      NextDay(daily, left, days, series, day);
      left := left - {day};
      cumulative := cumulative + daily[day];
      series := series + [cumulative];
      days := days + [day];
    }
    assert daily.Keys - left == daily.Keys;
  }

  // ---- Equity curve -------------------------------------------------------

  /** A closed trade by closing time; the item is its profit. */
  type ClosedTrade = Keyed<int>

  datatype EquityPoint = EquityPoint(at: int, equity: int, cumulative: int)

  function Pnl(): ClosedTrade -> int {
    (t: ClosedTrade) => t.item
  }

  /** The point after trade `k` in closing order. */
  function PointAt(starting: int, sorted: seq<ClosedTrade>, k: nat): EquityPoint
    requires k < |sorted|
  {
    var total := Sums.Total(sorted[..k + 1], Pnl());
    EquityPoint(sorted[k].key, starting + total, total)
  }

  /** The curve starts from the capital and adds one trade at a time in closing order. */
  method EquityCurve(starting: int, trades: seq<ClosedTrade>) returns (curve: seq<EquityPoint>)
    ensures |curve| == |trades|
    ensures forall k :: 0 <= k < |curve| ==> curve[k] == PointAt(starting, Sorted(trades), k)
    ensures forall j, k :: 0 <= j < k < |curve| ==> curve[j].at <= curve[k].at
    ensures curve != [] ==> curve[|curve| - 1].equity == starting + Sums.Total(trades, Pnl())
  {
    curve := [];
    if trades == [] {
      return;
    }
    var sorted := Sorted(trades);
    var equity, cumulative := starting, 0;
    for k := 0 to |sorted|
      invariant |curve| == k
      invariant cumulative == Sums.Total(sorted[..k], Pnl()) && equity == starting + cumulative
      invariant forall j :: 0 <= j < k ==> curve[j] == PointAt(starting, sorted, j)
    {
      assert sorted[..k + 1][..k] == sorted[..k];
      cumulative := cumulative + sorted[k].item;
      equity := equity + sorted[k].item;
      curve := curve + [EquityPoint(sorted[k].key, equity, cumulative)];
    }
    SortIsOrdered(trades);
    EquityEndsAtTheTotal(starting, trades, trades);
  }

  /** The curve's last point is the capital plus the whole profit, and the same point for every order of the trades. */
  lemma {:induction false} EquityEndsAtTheTotal(starting: int, a: seq<ClosedTrade>, b: seq<ClosedTrade>)
    requires a != [] && multiset(a) == multiset(b)
    ensures |b| == |a|
    ensures var last := PointAt(starting, Sorted(a), |a| - 1);
            && last.equity == starting + Sums.Total(a, Pnl()) && last.cumulative == Sums.Total(a, Pnl())
            && last == PointAt(starting, Sorted(b), |a| - 1)
  {
    assert |multiset(a)| == |a| && |multiset(b)| == |b|;
    LastPoint(starting, a);
    LastPoint(starting, b);
    Sums.TotalOfPermutation(a, b, Pnl());
    SortIsStable(a);
    SortIsStable(b);
    LastIsLatest(Sorted(a), Sorted(b));
    LastIsLatest(Sorted(b), Sorted(a));
  }

  lemma {:induction false} LastPoint(starting: int, a: seq<ClosedTrade>)
    requires a != []
    ensures var total := Sums.Total(a, Pnl());
            PointAt(starting, Sorted(a), |a| - 1) == EquityPoint(Sorted(a)[|a| - 1].key, starting + total, total)
  {
    SortIsPermutation(a);
    assert Sorted(a)[..|a|] == Sorted(a);
    Sums.TotalOfPermutation(Sorted(a), a, Pnl());
  }

  lemma {:induction false} LastIsLatest(a: seq<ClosedTrade>, b: seq<ClosedTrade>)
    requires a != [] && b != [] && Ordered(a) && multiset(a) == multiset(b)
    ensures b[|b| - 1].key <= a[|a| - 1].key
  {
    assert b[|b| - 1] in multiset(b);
    var k :| 0 <= k < |a| && a[k] == b[|b| - 1];
  }
}
