/**
 Attribution of closed trades to strategies, symbols and days: grouping, per-group
 performance, the merged portfolio series, and the conservation of profit between them.
 */
module Attribution {
  import opened Wrappers
  import opened StableSorts
  import Sums
  import Series = PnlSeries

  datatype Trade = Trade(strategy: nat, symbol: nat, day: nat, pnl: int)

  datatype Dimension = ByStrategy | BySymbol

  function KeyOf(t: Trade, dim: Dimension): nat {
    match dim
    case ByStrategy => t.strategy
    case BySymbol => t.symbol
  }

  /** What is added up: profit, trades, or winning trades. */
  datatype What = Profit | Trades | Wins

  /** A restriction to one group. */
  datatype Scope = Everything | Within(dim: Dimension, key: nat)

  datatype Measure = Measure(what: What, scope: Scope, day: Option<nat>)

  function ValueOf(t: Trade, what: What): int {
    match what
    case Profit => t.pnl
    case Trades => 1
    case Wins => if t.pnl > 0 then 1 else 0
  }

  predicate Covers(m: Measure, t: Trade) {
    && (m.scope.Within? ==> KeyOf(t, m.scope.dim) == m.scope.key)
    && (m.day.Some? ==> t.day == m.day.value)
  }

  function WeightOf(t: Trade, m: Measure): int {
    if Covers(m, t) then ValueOf(t, m.what) else 0
  }

  function By(m: Measure): Trade -> int {
    (t: Trade) => WeightOf(t, m)
  }

  /** The sum of a measure over trades. */
  function Sum(trades: seq<Trade>, m: Measure): int {
    Sums.Total(trades, By(m))
  }

  // ---- Grouping and performance -------------------------------------------

  /** The trades of one group, in their order. */
  function Select(trades: seq<Trade>, dim: Dimension, key: nat): seq<Trade> {
    if trades == [] then [] else
    var last := trades[|trades| - 1];
    Select(trades[..|trades| - 1], dim, key) + if KeyOf(last, dim) == key then [last] else []
  }

  ghost predicate HasKey(trades: seq<Trade>, dim: Dimension, key: nat) {
    exists i :: 0 <= i < |trades| && KeyOf(trades[i], dim) == key
  }

  function Days(trades: seq<Trade>): (r: seq<nat>)
    ensures |r| == |trades|
  {
    if trades == [] then [] else Days(trades[..|trades| - 1]) + [trades[|trades| - 1].day]
  }

  function Pnls(trades: seq<Trade>): (r: seq<int>)
    ensures |r| == |trades|
  {
    if trades == [] then [] else Pnls(trades[..|trades| - 1]) + [trades[|trades| - 1].pnl]
  }

  function CountWins(trades: seq<Trade>): nat {
    if trades == [] then 0 else CountWins(trades[..|trades| - 1]) + if trades[|trades| - 1].pnl > 0 then 1 else 0
  }

  function CountLosses(trades: seq<Trade>): nat {
    if trades == [] then 0 else CountLosses(trades[..|trades| - 1]) + if trades[|trades| - 1].pnl <= 0 then 1 else 0
  }

  datatype Performance = Performance(id: nat, trades: nat, wins: nat, losses: nat, net: int, daily: map<nat, int>)

  function BuildPerformance(id: nat, trades: seq<Trade>): Performance {
    Performance(id, |trades|, CountWins(trades), CountLosses(trades), Series.SumAll(Pnls(trades)),
                Series.DailyOf(Days(trades), Pnls(trades)))
  }

  function PerformanceOf(trades: seq<Trade>, dim: Dimension, key: nat): Performance {
    BuildPerformance(key, Select(trades, dim, key))
  }

  function PerformancesOf(trades: seq<Trade>, dim: Dimension, ids: seq<nat>): (r: seq<Performance>)
    ensures |r| == |ids|
  {
    seq(|ids|, i requires 0 <= i < |ids| => PerformanceOf(trades, dim, ids[i]))
  }

  ghost predicate Distinct(ids: seq<nat>) {
    forall i, j :: 0 <= i < j < |ids| ==> ids[i] != ids[j]
  }

  ghost predicate Present(ids: seq<nat>, trades: seq<Trade>, dim: Dimension) {
    forall i :: 0 <= i < |ids| ==> HasKey(trades, dim, ids[i])
  }

  ghost predicate Covered(trades: seq<Trade>, dim: Dimension, ids: seq<nat>) {
    forall i :: 0 <= i < |trades| ==> KeyOf(trades[i], dim) in ids
  }

  /** Every group occurs exactly once among the ids. */
  ghost predicate Enumerates(ids: seq<nat>, trades: seq<Trade>, dim: Dimension) {
    Distinct(ids) && Present(ids, trades, dim) && Covered(trades, dim, ids)
  }

  /** Lists exist for exactly the ids, and each is the trades of its key. */
  ghost predicate Grouped(raw: map<nat, seq<Trade>>, ids: seq<nat>, trades: seq<Trade>, dim: Dimension) {
    && (forall key :: key in raw <==> key in ids)
    && (forall key :: ListOf(raw, key) == Select(trades, dim, key))
  }

  function ListOf(raw: map<nat, seq<Trade>>, key: nat): seq<Trade> {
    if key in raw then raw[key] else []
  }

  /** Collects trades into lists, one per key, in order of first appearance. */
  method Group(trades: seq<Trade>, dim: Dimension) returns (raw: map<nat, seq<Trade>>, ids: seq<nat>)
    ensures Enumerates(ids, trades, dim) && Grouped(raw, ids, trades, dim)
  {
    raw, ids := map[], [];
    for k := 0 to |trades|
      invariant Distinct(ids)
      invariant Present(ids, trades[..k], dim)
      invariant Covered(trades[..k], dim, ids)
      invariant Grouped(raw, ids, trades[..k], dim)
    {
      var key := KeyOf(trades[k], dim);
      var more := if key in raw then ids else ids + [key];
      PresentOneMore(ids, trades, dim, k, more);
      CoveredOneMore(ids, trades, dim, k, more);
      var next := raw[key := ListOf(raw, key) + [trades[k]]];
      KeysOneMore(raw, ids, key, ListOf(raw, key) + [trades[k]], more);
      ListsOneMore(raw, trades, dim, k, next);
      raw, ids := next, more;
    }
    assert trades[..|trades|] == trades;
  }

  lemma {:induction false} PresentOneMore(ids: seq<nat>, trades: seq<Trade>, dim: Dimension, k: nat, more: seq<nat>)
    requires k < |trades| && Present(ids, trades[..k], dim)
    requires more == ids || more == ids + [KeyOf(trades[k], dim)]
    ensures Present(more, trades[..k + 1], dim)
  {
    var now := trades[..k + 1];
    forall i | 0 <= i < |more|
      ensures HasKey(now, dim, more[i])
    {
      if i < |ids| {
        assert HasKey(trades[..k], dim, ids[i]);
        var j :| 0 <= j < k && KeyOf(trades[..k][j], dim) == ids[i];
        assert KeyOf(now[j], dim) == more[i];
      } else {
        assert KeyOf(now[k], dim) == more[i];
      }
    }
  }

  lemma {:induction false} CoveredOneMore(ids: seq<nat>, trades: seq<Trade>, dim: Dimension, k: nat, more: seq<nat>)
    requires k < |trades| && Covered(trades[..k], dim, ids)
    requires (more == ids && KeyOf(trades[k], dim) in ids) || more == ids + [KeyOf(trades[k], dim)]
    ensures Covered(trades[..k + 1], dim, more)
  {
    var now := trades[..k + 1];
    forall i | 0 <= i < |now|
      ensures KeyOf(now[i], dim) in more
    {
      assert i < k ==> KeyOf(trades[..k][i], dim) in ids;
      assert more == ids + [KeyOf(trades[k], dim)] ==> more[|ids|] == KeyOf(trades[k], dim);
    }
  }

  lemma {:induction false} KeysOneMore(raw: map<nat, seq<Trade>>, ids: seq<nat>, key: nat, list: seq<Trade>, more: seq<nat>)
    requires forall id :: id in raw <==> id in ids
    requires more == if key in raw then ids else ids + [key]
    ensures forall id :: id in raw[key := list] <==> id in more
  {
    forall id
      ensures id in raw[key := list] <==> id in more
    {
      assert id in raw <==> id in ids;
      assert key !in raw ==> (id in more <==> id in ids || id == key);
    }
  }

  lemma {:induction false} ListsOneMore(raw: map<nat, seq<Trade>>, trades: seq<Trade>, dim: Dimension, k: nat,
                                        next: map<nat, seq<Trade>>)
    requires k < |trades|
    requires forall key :: ListOf(raw, key) == Select(trades[..k], dim, key)
    requires next == raw[KeyOf(trades[k], dim) := ListOf(raw, KeyOf(trades[k], dim)) + [trades[k]]]
    ensures forall key :: ListOf(next, key) == Select(trades[..k + 1], dim, key)
  {
    forall key
      ensures ListOf(next, key) == Select(trades[..k + 1], dim, key)
    {
      SelectOneMore(trades, dim, k, key);
      assert ListOf(raw, key) == Select(trades[..k], dim, key);
    }
  }

  lemma {:induction false} SelectOneMore(trades: seq<Trade>, dim: Dimension, k: nat, key: nat)
    requires k < |trades|
    ensures Select(trades[..k + 1], dim, key)
            == if KeyOf(trades[k], dim) == key then Select(trades[..k], dim, key) + [trades[k]]
               else Select(trades[..k], dim, key)
  {
    assert trades[..k + 1][..k] == trades[..k] && trades[..k + 1][k] == trades[k];
  }

  function Ranking(results: seq<Performance>): seq<Keyed<Performance>> {
    seq(|results|, i requires 0 <= i < |results| => Keyed(-results[i].net, results[i]))
  }

  function Items(s: seq<Keyed<Performance>>): (r: seq<Performance>)
    ensures |r| == |s|
  {
    seq(|s|, i requires 0 <= i < |s| => s[i].item)
  }

  /** Groups by strategy or symbol, builds each group's performance, and ranks by net profit, best first. */
  method Attribute(trades: seq<Trade>, dim: Dimension) returns (results: seq<Performance>, ghost ids: seq<nat>)
    ensures Enumerates(ids, trades, dim)
    ensures multiset(results) == multiset(PerformancesOf(trades, dim, ids))
    ensures forall i, j :: 0 <= i < j < |results| ==> results[i].net >= results[j].net
  {
    var listed;
    listed, ids := Perform(trades, dim);
    results := Items(Sorted(Ranking(listed)));
    RankingIsOrdered(listed);
  }

  /** One performance per group, in order of first appearance. */
  method Perform(trades: seq<Trade>, dim: Dimension) returns (listed: seq<Performance>, ghost ids: seq<nat>)
    ensures Enumerates(ids, trades, dim) && listed == PerformancesOf(trades, dim, ids)
  {
    var raw, order := Group(trades, dim);
    ids := order;
    forall i | 0 <= i < |order|
      ensures order[i] in raw && raw[order[i]] == Select(trades, dim, order[i])
    {
      assert ListOf(raw, order[i]) == Select(trades, dim, order[i]);
    }
    listed := BuildAll(trades, dim, raw, order);
  }

  method BuildAll(ghost trades: seq<Trade>, ghost dim: Dimension, raw: map<nat, seq<Trade>>, ids: seq<nat>)
    returns (listed: seq<Performance>)
    requires forall i :: 0 <= i < |ids| ==> ids[i] in raw && raw[ids[i]] == Select(trades, dim, ids[i])
    ensures listed == PerformancesOf(trades, dim, ids)
  {
    listed := [];
    for k := 0 to |ids|
      invariant |listed| == k
      invariant forall i :: 0 <= i < k ==> listed[i] == PerformanceOf(trades, dim, ids[i])
    {
      listed := listed + [BuildPerformance(ids[k], raw[ids[k]])];
    }
  }

  lemma {:induction false} RankingIsOrdered(listed: seq<Performance>)
    ensures var results := Items(Sorted(Ranking(listed)));
            && multiset(results) == multiset(listed)
            && forall i, j :: 0 <= i < j < |results| ==> results[i].net >= results[j].net
  {
    var ranked := Sorted(Ranking(listed));
    SortIsStable(Ranking(listed));
    ItemsOfPermutation(ranked, Ranking(listed));
    assert Items(Ranking(listed)) == listed;
    forall i | 0 <= i < |ranked|
      ensures ranked[i].key == -ranked[i].item.net
    {
      assert ranked[i] in multiset(ranked);
      assert ranked[i] in Ranking(listed);
    }
  }

  lemma {:induction false} ItemsOfPermutation(a: seq<Keyed<Performance>>, b: seq<Keyed<Performance>>)
    requires multiset(a) == multiset(b)
    ensures multiset(Items(a)) == multiset(Items(b))
    decreases |a|
  {
    assert |multiset(a)| == |a| && |multiset(b)| == |b|;
    if a == [] {
      assert Items(a) == Items(b);
    } else {
      var k := |a| - 1;
      assert a[k] in multiset(b);
      var i :| 0 <= i < |b| && b[i] == a[k];
      Sums.ItemsWithout(a, k);
      Sums.ItemsWithout(b, i);
      assert Sums.Without(a, k) == a[..k];
      ItemsOfPermutation(a[..k], Sums.Without(b, i));
      ItemsLessOne(a, k);
      ItemsLessOne(b, i);
    }
  }

  lemma {:induction false} ItemsLessOne(s: seq<Keyed<Performance>>, i: nat)
    requires i < |s|
    ensures multiset(Items(s)) == multiset(Items(Sums.Without(s, i))) + multiset{s[i].item}
  {
    assert Items(Sums.Without(s, i)) == Sums.Without(Items(s), i);
    Sums.ItemsWithout(Items(s), i);
    assert Items(s)[i] in multiset(Items(s));
  }

  // ---- A performance is a set of sums -------------------------------------

  lemma {:induction false} SelectCounts(trades: seq<Trade>, dim: Dimension, key: nat)
    ensures var s, group := Select(trades, dim, key), Within(dim, key);
            && |s| == Sum(trades, Measure(Trades, group, None))
            && CountWins(s) == Sum(trades, Measure(Wins, group, None))
  {
    if trades != [] {
      var k := |trades| - 1;
      SelectCounts(trades[..k], dim, key);
      var s := Select(trades[..k], dim, key);
      assert (s + [trades[k]])[..|s|] == s;
      assert s + [] == s;
    }
  }

  lemma {:induction false} SelectNet(trades: seq<Trade>, dim: Dimension, key: nat)
    ensures Series.SumAll(Pnls(Select(trades, dim, key))) == Sum(trades, Measure(Profit, Within(dim, key), None))
  {
    if trades != [] {
      var k := |trades| - 1;
      SelectNet(trades[..k], dim, key);
      var s := Select(trades[..k], dim, key);
      if KeyOf(trades[k], dim) == key {
        AppendToSeries(s, trades[k], 0);
      } else {
        assert s + [] == s;
      }
    }
  }

  lemma {:induction false} SelectProfitOn(trades: seq<Trade>, dim: Dimension, key: nat, day: nat)
    ensures var s := Select(trades, dim, key);
            Series.SumOn(Days(s), Pnls(s), day) == Sum(trades, Measure(Profit, Within(dim, key), Some(day)))
  {
    if trades != [] {
      var k := |trades| - 1;
      SelectProfitOn(trades[..k], dim, key, day);
      var s := Select(trades[..k], dim, key);
      if KeyOf(trades[k], dim) == key {
        AppendToSeries(s, trades[k], day);
      } else {
        assert s + [] == s;
      }
    }
  }

  lemma {:induction false} SelectSums(trades: seq<Trade>, dim: Dimension, key: nat, day: nat)
    ensures var s, group := Select(trades, dim, key), Within(dim, key);
            && |s| == Sum(trades, Measure(Trades, group, None))
            && CountWins(s) == Sum(trades, Measure(Wins, group, None))
            && Series.SumAll(Pnls(s)) == Sum(trades, Measure(Profit, group, None))
            && Series.SumOn(Days(s), Pnls(s), day) == Sum(trades, Measure(Profit, group, Some(day)))
  {
    SelectCounts(trades, dim, key);
    SelectNet(trades, dim, key);
    SelectProfitOn(trades, dim, key, day);
  }

  lemma {:induction false} AppendToSeries(s: seq<Trade>, t: Trade, day: nat)
    ensures Series.SumAll(Pnls(s + [t])) == Series.SumAll(Pnls(s)) + t.pnl
    ensures Series.SumOn(Days(s + [t]), Pnls(s + [t]), day)
            == Series.SumOn(Days(s), Pnls(s), day) + (if t.day == day then t.pnl else 0)
  {
    assert (s + [t])[..|s|] == s;
    assert Pnls(s + [t]) == Pnls(s) + [t.pnl] && Days(s + [t]) == Days(s) + [t.day];
    assert Pnls(s + [t])[..|s|] == Pnls(s) && Days(s + [t])[..|s|] == Days(s);
  }

  lemma {:induction false} WinsAndLosses(trades: seq<Trade>)
    ensures CountWins(trades) + CountLosses(trades) == |trades|
  {
    if trades != [] {
      WinsAndLosses(trades[..|trades| - 1]);
    }
  }

  lemma {:induction false} DaysOfTrades(trades: seq<Trade>, day: nat)
    ensures day in Days(trades) <==> exists t :: t in trades && t.day == day
  {
    if trades != [] {
      var k := |trades| - 1;
      DaysOfTrades(trades[..k], day);
      assert trades == trades[..k] + [trades[k]];
    }
  }

  lemma {:induction false} Selected(trades: seq<Trade>, dim: Dimension, key: nat, t: Trade)
    ensures t in Select(trades, dim, key) <==> t in trades && KeyOf(t, dim) == key
  {
    if trades != [] {
      var k := |trades| - 1;
      Selected(trades[..k], dim, key, t);
      assert trades == trades[..k] + [trades[k]];
    }
  }

  /** In every group wins and losses make up the trades, and the daily series adds up to the net profit. */
  lemma {:induction false} PerformanceIsConsistent(id: nat, trades: seq<Trade>)
    ensures var p := BuildPerformance(id, trades);
            p.wins + p.losses == p.trades && Sums.SumOf(p.daily) == p.net
  {
    WinsAndLosses(trades);
    Series.DailyIsTheSum(Days(trades), Pnls(trades));
  }

  // ---- A performance in terms of the trades -------------------------------

  predicate Belongs(t: Trade, dim: Dimension, key: nat) {
    (dim.ByStrategy? && t.strategy == key) || (dim.BySymbol? && t.symbol == key)
  }

  /** A trade of the group; if asked, one with a profit or one without. */
  predicate Fits(t: Trade, dim: Dimension, key: nat, won: Option<bool>) {
    Belongs(t, dim, key) && (won.Some? ==> (t.pnl > 0 <==> won.value))
  }

  /** How many trades these are. */
  function HowMany(trades: seq<Trade>, dim: Dimension, key: nat, won: Option<bool>): nat {
    if trades == [] then 0 else
    HowMany(trades[..|trades| - 1], dim, key, won) + if Fits(trades[|trades| - 1], dim, key, won) then 1 else 0
  }

  /** The profit of the group's trades, on one day if asked. */
  function ProfitOf(trades: seq<Trade>, dim: Dimension, key: nat, day: Option<nat>): int {
    if trades == [] then 0 else
    var last := trades[|trades| - 1];
    ProfitOf(trades[..|trades| - 1], dim, key, day)
    + if Belongs(last, dim, key) && (day.Some? ==> last.day == day.value) then last.pnl else 0
  }

  lemma {:induction false} AppendCounts(s: seq<Trade>, t: Trade)
    ensures CountWins(s + [t]) == CountWins(s) + if t.pnl > 0 then 1 else 0
    ensures CountLosses(s + [t]) == CountLosses(s) + if t.pnl > 0 then 0 else 1
  {
    assert (s + [t])[..|s|] == s;
  }

  lemma {:induction false} SelectNext(trades: seq<Trade>, dim: Dimension, key: nat)
    requires trades != []
    ensures var n := |trades| - 1;
            var before := Select(trades[..n], dim, key);
            Select(trades, dim, key) == if Belongs(trades[n], dim, key) then before + [trades[n]] else before
  {
  }

  lemma {:induction false} SelectionCounts(trades: seq<Trade>, dim: Dimension, key: nat)
    ensures var s := Select(trades, dim, key);
            && |s| == HowMany(trades, dim, key, None) && CountWins(s) == HowMany(trades, dim, key, Some(true))
            && CountLosses(s) == HowMany(trades, dim, key, Some(false))
  {
    if trades != [] {
      var n := |trades| - 1;
      SelectionCounts(trades[..n], dim, key);
      SelectNext(trades, dim, key);
      AppendCounts(Select(trades[..n], dim, key), trades[n]);
    }
  }

  lemma {:induction false} SelectionSums(trades: seq<Trade>, dim: Dimension, key: nat, day: nat)
    ensures var s := Select(trades, dim, key);
            && Series.SumAll(Pnls(s)) == ProfitOf(trades, dim, key, None)
            && Series.SumOn(Days(s), Pnls(s), day) == ProfitOf(trades, dim, key, Some(day))
  {
    if trades != [] {
      var n := |trades| - 1;
      SelectionSums(trades[..n], dim, key, day);
      SelectNext(trades, dim, key);
      AppendToSeries(Select(trades[..n], dim, key), trades[n], day);
    }
  }

  /** A group's performance counts its trades, its profitable ones and the others, and adds up its profit, each day's too. */
  lemma {:induction false} PerformanceIsOfItsTrades(trades: seq<Trade>, dim: Dimension, key: nat, day: nat)
    ensures var p := PerformanceOf(trades, dim, key);
            && p.id == key && p.trades == HowMany(trades, dim, key, None)
            && p.wins == HowMany(trades, dim, key, Some(true)) && p.losses == HowMany(trades, dim, key, Some(false))
            && p.net == ProfitOf(trades, dim, key, None)
            && Series.At(p.daily, day) == ProfitOf(trades, dim, key, Some(day))
  {
    SelectionCounts(trades, dim, key);
    SelectionSums(trades, dim, key, day);
    Series.DailyIsTheSum(Days(Select(trades, dim, key)), Pnls(Select(trades, dim, key)));
  }

  /** The order of the trades does not matter to any group's performance. */
  lemma {:induction false} OrderDoesNotMatter(a: seq<Trade>, b: seq<Trade>, dim: Dimension, key: nat)
    requires multiset(a) == multiset(b)
    ensures PerformanceOf(a, dim, key) == PerformanceOf(b, dim, key)
  {
    SameSums(a, b, dim, key, 0);
    WinsAndLosses(Select(a, dim, key));
    WinsAndLosses(Select(b, dim, key));
    SameDaily(a, b, dim, key);
  }

  lemma {:induction false} SameDaily(a: seq<Trade>, b: seq<Trade>, dim: Dimension, key: nat)
    requires multiset(a) == multiset(b)
    ensures PerformanceOf(a, dim, key).daily == PerformanceOf(b, dim, key).daily
  {
    var s, r := Select(a, dim, key), Select(b, dim, key);
    Series.DailyIsTheSum(Days(s), Pnls(s));
    Series.DailyIsTheSum(Days(r), Pnls(r));
    var x, y := Series.DailyOf(Days(s), Pnls(s)), Series.DailyOf(Days(r), Pnls(r));
    forall day
      ensures day in x <==> day in y
      ensures Series.At(x, day) == Series.At(y, day)
    {
      SameSums(a, b, dim, key, day);
      SameDays(a, b, dim, key, day);
    }
    Series.SameSeries(x, y);
  }

  lemma {:induction false} SameSums(a: seq<Trade>, b: seq<Trade>, dim: Dimension, key: nat, day: nat)
    requires multiset(a) == multiset(b)
    ensures var s, r := Select(a, dim, key), Select(b, dim, key);
            && |s| == |r| && CountWins(s) == CountWins(r)
            && Series.SumAll(Pnls(s)) == Series.SumAll(Pnls(r))
            && Series.SumOn(Days(s), Pnls(s), day) == Series.SumOn(Days(r), Pnls(r), day)
  {
    SelectSums(a, dim, key, day);
    SelectSums(b, dim, key, day);
    var group := Within(dim, key);
    Sums.TotalOfPermutation(a, b, By(Measure(Trades, group, None)));
    Sums.TotalOfPermutation(a, b, By(Measure(Wins, group, None)));
    Sums.TotalOfPermutation(a, b, By(Measure(Profit, group, None)));
    Sums.TotalOfPermutation(a, b, By(Measure(Profit, group, Some(day))));
  }

  lemma {:induction false} SameDays(a: seq<Trade>, b: seq<Trade>, dim: Dimension, key: nat, day: nat)
    requires multiset(a) == multiset(b)
    ensures day in Days(Select(a, dim, key)) <==> day in Days(Select(b, dim, key))
  {
    DaysOfTrades(Select(a, dim, key), day);
    DaysOfTrades(Select(b, dim, key), day);
    forall t: Trade
      ensures t in Select(a, dim, key) <==> t in Select(b, dim, key)
    {
      Selected(a, dim, key, t);
      Selected(b, dim, key, t);
      assert t in a <==> t in multiset(a);
      assert t in b <==> t in multiset(b);
    }
  }

  // ---- Groups add up ------------------------------------------------------

  /** The sum of a measure over the groups of the ids. */
  function SumOfGroups(trades: seq<Trade>, dim: Dimension, ids: seq<nat>, what: What, day: Option<nat>): int {
    if ids == [] then 0 else
    var k := |ids| - 1;
    SumOfGroups(trades, dim, ids[..k], what, day) + Sum(trades, Measure(what, Within(dim, ids[k]), day))
  }

  lemma {:induction false} SumOneMore(trades: seq<Trade>, t: Trade, m: Measure)
    ensures Sum(trades + [t], m) == Sum(trades, m) + WeightOf(t, m)
  {
    assert (trades + [t])[..|trades|] == trades;
  }

  lemma {:induction false} OneTradeCounts(trades: seq<Trade>, t: Trade, dim: Dimension, ids: seq<nat>, what: What,
                                          day: Option<nat>)
    requires Distinct(ids)
    ensures SumOfGroups(trades + [t], dim, ids, what, day)
            == SumOfGroups(trades, dim, ids, what, day)
               + (if KeyOf(t, dim) in ids then WeightOf(t, Measure(what, Everything, day)) else 0)
  {
    if ids != [] {
      var k := |ids| - 1;
      OneTradeCounts(trades, t, dim, ids[..k], what, day);
      SumOneMore(trades, t, Measure(what, Within(dim, ids[k]), day));
      LastIsNew(ids, KeyOf(t, dim));
    }
  }

  lemma {:induction false} LastIsNew(ids: seq<nat>, key: nat)
    requires ids != [] && Distinct(ids)
    ensures key in ids <==> key in ids[..|ids| - 1] || key == ids[|ids| - 1]
    ensures key == ids[|ids| - 1] ==> key !in ids[..|ids| - 1]
  {
    assert ids == ids[..|ids| - 1] + [ids[|ids| - 1]];
  }

  /** Over ids that enumerate the groups, a measure adds up to its total, for profit, trades and wins, by day or overall. */
  lemma {:induction false} GroupsAddUp(trades: seq<Trade>, dim: Dimension, ids: seq<nat>, what: What, day: Option<nat>)
    requires Distinct(ids) && Covered(trades, dim, ids)
    ensures SumOfGroups(trades, dim, ids, what, day) == Sum(trades, Measure(what, Everything, day))
  {
    if trades == [] {
      NothingAddsUp(dim, ids, what, day);
    } else {
      var k := |trades| - 1;
      assert trades == trades[..k] + [trades[k]];
      assert Covered(trades[..k], dim, ids) by {
        assert forall i :: 0 <= i < k ==> trades[..k][i] == trades[i];
      }
      GroupsAddUp(trades[..k], dim, ids, what, day);
      OneTradeCounts(trades[..k], trades[k], dim, ids, what, day);
    }
  }

  lemma {:induction false} NothingAddsUp(dim: Dimension, ids: seq<nat>, what: What, day: Option<nat>)
    ensures SumOfGroups([], dim, ids, what, day) == 0
  {
    if ids != [] {
      NothingAddsUp(dim, ids[..|ids| - 1], what, day);
    }
  }

  function Net(): Performance -> int {
    (p: Performance) => p.net
  }

  function TradeCount(): Performance -> int {
    (p: Performance) => p.trades
  }

  function WinCount(): Performance -> int {
    (p: Performance) => p.wins
  }

  function ProfitOn(day: nat): Performance -> int {
    (p: Performance) => Series.At(p.daily, day)
  }

  lemma {:induction false} PerformancesSum(trades: seq<Trade>, dim: Dimension, ids: seq<nat>, day: nat)
    ensures var ps := PerformancesOf(trades, dim, ids);
            && Sums.Total(ps, Net()) == SumOfGroups(trades, dim, ids, Profit, None)
            && Sums.Total(ps, TradeCount()) == SumOfGroups(trades, dim, ids, Trades, None)
            && Sums.Total(ps, WinCount()) == SumOfGroups(trades, dim, ids, Wins, None)
            && Sums.Total(ps, ProfitOn(day)) == SumOfGroups(trades, dim, ids, Profit, Some(day))
  {
    if ids != [] {
      var k := |ids| - 1;
      PerformancesSum(trades, dim, ids[..k], day);
      assert PerformancesOf(trades, dim, ids)[..k] == PerformancesOf(trades, dim, ids[..k]);
      SelectSums(trades, dim, ids[k], day);
      var s := Select(trades, dim, ids[k]);
      Series.DailyIsTheSum(Days(s), Pnls(s));
    }
  }

  /** Attribution loses nothing: nets, trades and wins of the groups add up to those of all trades. */
  lemma {:induction false} AttributionConserves(trades: seq<Trade>, dim: Dimension, ids: seq<nat>,
                                                results: seq<Performance>)
    requires Enumerates(ids, trades, dim) && multiset(results) == multiset(PerformancesOf(trades, dim, ids))
    ensures Sums.Total(results, Net()) == Sum(trades, Measure(Profit, Everything, None))
    ensures Sums.Total(results, TradeCount()) == Sum(trades, Measure(Trades, Everything, None))
    ensures Sums.Total(results, WinCount()) == Sum(trades, Measure(Wins, Everything, None))
    ensures forall day :: Sums.Total(results, ProfitOn(day)) == Sum(trades, Measure(Profit, Everything, Some(day)))
  {
    var listed := PerformancesOf(trades, dim, ids);
    Sums.TotalOfPermutation(results, listed, Net());
    Sums.TotalOfPermutation(results, listed, TradeCount());
    Sums.TotalOfPermutation(results, listed, WinCount());
    PerformancesSum(trades, dim, ids, 0);
    GroupsAddUp(trades, dim, ids, Profit, None);
    GroupsAddUp(trades, dim, ids, Trades, None);
    GroupsAddUp(trades, dim, ids, Wins, None);
    forall day
      ensures Sums.Total(results, ProfitOn(day)) == Sum(trades, Measure(Profit, Everything, Some(day)))
    {
      Sums.TotalOfPermutation(results, listed, ProfitOn(day));
      PerformancesSum(trades, dim, ids, day);
      GroupsAddUp(trades, dim, ids, Profit, Some(day));
    }
  }

  // ---- The stock report ---------------------------------------------------

  /**
   The report on symbols: those with enough trades, best first, cut off at `topN`. What it
   leaves out either had too few trades or does not beat anything reported.
   */
  method StockReport(trades: seq<Trade>, minTrades: int, topN: nat)
    returns (report: seq<Performance>, ghost omitted: seq<Performance>, ghost ids: seq<nat>)
    ensures Enumerates(ids, trades, BySymbol)
    ensures multiset(report + omitted) == multiset(PerformancesOf(trades, BySymbol, ids))
    ensures |report| <= topN && forall p :: p in report ==> p.trades >= minTrades
    ensures forall i, j :: 0 <= i < j < |report| ==> report[i].net >= report[j].net
    ensures forall p :: p in omitted ==>
              p.trades < minTrades || (|report| == topN && forall r :: r in report ==> r.net >= p.net)
  {
    var listed;
    listed, ids := Perform(trades, BySymbol);
    var kept, few := WithEnough(listed, minTrades);
    var ranked := Items(Sorted(Ranking(kept)));
    RankingIsOrdered(kept);
    report := ranked[..if topN < |ranked| then topN else |ranked|];
    KeptIsRanked(ranked, kept, minTrades);
    omitted := CutOff(ranked, few, topN);
  }

  /** What a cut leaves out, together with what was left out before it. */
  lemma {:induction false} CutOff(ranked: seq<Performance>, few: seq<Performance>, topN: nat)
    returns (omitted: seq<Performance>)
    requires forall i, j :: 0 <= i < j < |ranked| ==> ranked[i].net >= ranked[j].net
    ensures var report := ranked[..if topN < |ranked| then topN else |ranked|];
            && multiset(report + omitted) == multiset(ranked) + multiset(few)
            && forall p :: p in omitted ==>
                 p in few || (|report| == topN && forall r :: r in report ==> r.net >= p.net)
  {
    var cut := if topN < |ranked| then topN else |ranked|;
    omitted := few + ranked[cut..];
    CutKeepsAll(ranked, few, cut);
    forall p | p in ranked[cut..]
      ensures |ranked[..cut]| == topN && forall r :: r in ranked[..cut] ==> r.net >= p.net
    {
      BestComeFirst(ranked, cut, p);
    }
  }

  lemma {:induction false} CutKeepsAll(ranked: seq<Performance>, few: seq<Performance>, cut: nat)
    requires cut <= |ranked|
    ensures multiset(ranked[..cut] + (few + ranked[cut..])) == multiset(ranked) + multiset(few)
  {
    assert ranked == ranked[..cut] + ranked[cut..];
  }

  lemma {:induction false} BestComeFirst(ranked: seq<Performance>, cut: nat, p: Performance)
    requires forall i, j :: 0 <= i < j < |ranked| ==> ranked[i].net >= ranked[j].net
    requires cut <= |ranked| && p in ranked[cut..]
    ensures forall r :: r in ranked[..cut] ==> r.net >= p.net
  {
    var j :| 0 <= j < |ranked| - cut && ranked[cut..][j] == p;
    assert ranked[cut + j] == p;
  }

  method WithEnough(listed: seq<Performance>, minTrades: int)
    returns (kept: seq<Performance>, ghost few: seq<Performance>)
    ensures multiset(listed) == multiset(kept) + multiset(few)
    ensures forall p :: p in kept ==> p.trades >= minTrades
    ensures forall p :: p in few ==> p.trades < minTrades
  {
    kept, few := [], [];
    for k := 0 to |listed|
      invariant multiset(listed[..k]) == multiset(kept) + multiset(few)
      invariant forall p :: p in kept ==> p.trades >= minTrades
      invariant forall p :: p in few ==> p.trades < minTrades
    {
      assert listed[..k + 1] == listed[..k] + [listed[k]];
      if listed[k].trades < minTrades {
        few := few + [listed[k]];
        continue;
      }
      kept := kept + [listed[k]];
    }
    assert listed[..|listed|] == listed;
  }

  lemma {:induction false} KeptIsRanked(ranked: seq<Performance>, kept: seq<Performance>, minTrades: int)
    requires multiset(ranked) == multiset(kept) && forall p :: p in kept ==> p.trades >= minTrades
    ensures forall i :: 0 <= i < |ranked| ==> ranked[i].trades >= minTrades
  {
    forall i | 0 <= i < |ranked|
      ensures ranked[i].trades >= minTrades
    {
      assert ranked[i] in multiset(ranked);
      assert ranked[i] in kept;
    }
  }

  /** Reported and omitted symbols together account for the whole profit. */
  lemma {:induction false} StockReportConserves(trades: seq<Trade>, ids: seq<nat>, report: seq<Performance>,
                                                omitted: seq<Performance>)
    requires Enumerates(ids, trades, BySymbol)
    requires multiset(report + omitted) == multiset(PerformancesOf(trades, BySymbol, ids))
    ensures Sums.Total(report, Net()) + Sums.Total(omitted, Net()) == Sum(trades, Measure(Profit, Everything, None))
  {
    AttributionConserves(trades, BySymbol, ids, report + omitted);
    Sums.TotalOfConcat(report, omitted, Net());
  }

  /** The strategy breakdown of a symbol adds up to the symbol's own profit, trades and wins. */
  lemma {:induction false} BreakdownAddsUp(trades: seq<Trade>, symbol: nat, ids: seq<nat>, parts: seq<Performance>)
    requires Enumerates(ids, Select(trades, BySymbol, symbol), ByStrategy)
    requires multiset(parts) == multiset(PerformancesOf(Select(trades, BySymbol, symbol), ByStrategy, ids))
    ensures var p := PerformanceOf(trades, BySymbol, symbol);
            && Sums.Total(parts, Net()) == p.net
            && Sums.Total(parts, TradeCount()) == p.trades
            && Sums.Total(parts, WinCount()) == p.wins
  {
    var s := Select(trades, BySymbol, symbol);
    AttributionConserves(s, ByStrategy, ids, parts);
    SumOnIsASum(s, 0);
    CountsAreSums(s);
  }

  lemma {:induction false} CountsAreSums(trades: seq<Trade>)
    ensures |trades| == Sum(trades, Measure(Trades, Everything, None))
    ensures CountWins(trades) == Sum(trades, Measure(Wins, Everything, None))
  {
    if trades != [] {
      CountsAreSums(trades[..|trades| - 1]);
    }
  }

  // ---- Best and worst symbols ---------------------------------------------

  /** A ranking the other way round: worst first. */
  function Worst(results: seq<Performance>): seq<Keyed<Performance>> {
    seq(|results|, i requires 0 <= i < |results| => Keyed(results[i].net, results[i]))
  }

  lemma {:induction false} WorstIsOrdered(listed: seq<Performance>)
    ensures var results := Items(Sorted(Worst(listed)));
            && multiset(results) == multiset(listed)
            && forall i, j :: 0 <= i < j < |results| ==> results[i].net <= results[j].net
  {
    var ranked := Sorted(Worst(listed));
    SortIsStable(Worst(listed));
    ItemsOfPermutation(ranked, Worst(listed));
    assert Items(Worst(listed)) == listed;
    forall i | 0 <= i < |ranked|
      ensures ranked[i].key == ranked[i].item.net
    {
      assert ranked[i] in multiset(ranked);
      assert ranked[i] in Worst(listed);
    }
  }

  lemma {:induction false} GroupsAreNotEmpty(trades: seq<Trade>, dim: Dimension, ids: seq<nat>)
    requires Present(ids, trades, dim)
    ensures forall p :: p in PerformancesOf(trades, dim, ids) ==> p.trades >= 1
  {
    forall i | 0 <= i < |ids|
      ensures PerformanceOf(trades, dim, ids[i]).trades >= 1
    {
      assert HasKey(trades, dim, ids[i]);
      var t :| t in trades && KeyOf(t, dim) == ids[i];
      Selected(trades, dim, ids[i], t);
    }
  }

  /** With one trade enough, a cut leaves symbols out exactly when there are more than it takes. */
  lemma {:induction false} NothingElseIsOmitted(trades: seq<Trade>, ids: seq<nat>, report: seq<Performance>,
                                                omitted: seq<Performance>, topN: nat)
    requires Present(ids, trades, BySymbol) && |report| <= topN
    requires multiset(report + omitted) == multiset(PerformancesOf(trades, BySymbol, ids))
    requires forall p :: p in omitted ==> p.trades < 1 || |report| == topN
    ensures omitted == [] <==> |ids| <= topN
  {
    var listed := PerformancesOf(trades, BySymbol, ids);
    assert |multiset(report + omitted)| == |report| + |omitted| && |multiset(listed)| == |ids|;
    GroupsAreNotEmpty(trades, BySymbol, ids);
    if omitted != [] {
      assert (report + omitted)[|report|] == omitted[0];
      assert omitted[0] in multiset(report + omitted);
      assert omitted[0] in listed;
    }
  }

  /** The part of a list that a cut at `n` takes. */
  function Cut(s: seq<Performance>, n: nat): (r: seq<Performance>)
    ensures |r| == if n < |s| then n else |s|
  {
    s[..if n < |s| then n else |s|]
  }

  // ---- The portfolio series -----------------------------------------------

  /** One daily series added to another, day by day. */
  function Added(m: map<nat, int>, daily: map<nat, int>): map<nat, int> {
    map d | d in m.Keys + daily.Keys :: Series.At(m, d) + Series.At(daily, d)
  }

  function Merged(ps: seq<Performance>): map<nat, int> {
    if ps == [] then map[] else Added(Merged(ps[..|ps| - 1]), ps[|ps| - 1].daily)
  }

  /** One daily series with some days of another added to it. */
  ghost predicate PartlyAdded(r: map<nat, int>, m: map<nat, int>, daily: map<nat, int>, done: set<nat>) {
    && (forall d :: d in r <==> d in m || d in done)
    && (forall d :: Series.At(r, d) == Series.At(m, d) + if d in done then Series.At(daily, d) else 0)
  }

  lemma {:induction false} AddOneDay(r: map<nat, int>, m: map<nat, int>, daily: map<nat, int>, done: set<nat>, day: nat)
    requires PartlyAdded(r, m, daily, done) && day in daily && day !in done
    ensures PartlyAdded(r[day := Series.At(r, day) + daily[day]], m, daily, done + {day})
  {
    var next := r[day := Series.At(r, day) + daily[day]];
    forall d
      ensures d in next <==> d in m || d in done + {day}
      ensures Series.At(next, d) == Series.At(m, d) + if d in done + {day} then Series.At(daily, d) else 0
    {
      assert d in r <==> d in m || d in done;
      assert Series.At(r, d) == Series.At(m, d) + if d in done then Series.At(daily, d) else 0;
    }
  }

  lemma {:induction false} AllDaysAdded(r: map<nat, int>, m: map<nat, int>, daily: map<nat, int>)
    requires PartlyAdded(r, m, daily, daily.Keys)
    ensures r == Added(m, daily)
  {
    var all := Added(m, daily);
    forall d
      ensures d in r <==> d in all
      ensures Series.At(r, d) == Series.At(all, d)
    {
      assert d in r <==> d in m || d in daily.Keys;
      assert Series.At(r, d) == Series.At(m, d) + if d in daily.Keys then Series.At(daily, d) else 0;
    }
    Series.SameSeries(r, all);
  }

  method AddDaily(before: map<nat, int>, daily: map<nat, int>) returns (merged: map<nat, int>)
    ensures merged == Added(before, daily)
  {
    merged := before;
    ghost var done: set<nat> := {};
    var left := daily.Keys;
    while left != {}
      invariant left <= daily.Keys && done == daily.Keys - left
      invariant PartlyAdded(merged, before, daily, done)
      decreases |left|
    {
      var d :| d in left;
      AddOneDay(merged, before, daily, done, d);
      assert daily.Keys - (left - {d}) == done + {d};
      left, done := left - {d}, done + {d};
      merged := merged[d := Series.At(merged, d) + daily[d]];
    }
    assert done == daily.Keys;
    AllDaysAdded(merged, before, daily);
  }

  method MergeDaily(ps: seq<Performance>) returns (merged: map<nat, int>)
    ensures merged == Merged(ps)
  {
    merged := map[];
    for k := 0 to |ps|
      invariant merged == Merged(ps[..k])
    {
      assert ps[..k + 1][..k] == ps[..k];
      merged := AddDaily(merged, ps[k].daily);
    }
    assert ps[..|ps|] == ps;
  }

  lemma {:induction false} MergedIsPointwise(ps: seq<Performance>, day: nat)
    ensures Series.At(Merged(ps), day) == Sums.Total(ps, ProfitOn(day))
    ensures day in Merged(ps) <==> exists p :: p in ps && day in p.daily
  {
    if ps != [] {
      var k := |ps| - 1;
      MergedIsPointwise(ps[..k], day);
      assert ps == ps[..k] + [ps[k]];
    }
  }

  /** A group's series has exactly the days of its trades. */
  lemma {:induction false} DaysOfGroup(trades: seq<Trade>, dim: Dimension, key: nat, day: nat)
    ensures day in PerformanceOf(trades, dim, key).daily
            <==> exists t :: t in trades && KeyOf(t, dim) == key && t.day == day
  {
    var s := Select(trades, dim, key);
    Series.DailyIsTheSum(Days(s), Pnls(s));
    DaysOfTrades(s, day);
    if t :| t in s && t.day == day {
      Selected(trades, dim, key, t);
    }
    if t :| t in trades && KeyOf(t, dim) == key && t.day == day {
      Selected(trades, dim, key, t);
    }
  }

  lemma {:induction false} DaysAreCovered(trades: seq<Trade>, ids: seq<nat>, results: seq<Performance>, day: nat)
    requires Enumerates(ids, trades, ByStrategy)
    requires multiset(results) == multiset(PerformancesOf(trades, ByStrategy, ids))
    ensures day in Days(trades) <==> exists p :: p in results && day in p.daily
  {
    SameMembers(results, PerformancesOf(trades, ByStrategy, ids));
    DaysOfTrades(trades, day);
    if p :| p in results && day in p.daily {
      DayHasATrade(trades, ids, p, day);
    }
    if t :| t in trades && t.day == day {
      var p := DayOfATrade(trades, ids, t);
    }
  }

  lemma {:induction false} DayHasATrade(trades: seq<Trade>, ids: seq<nat>, p: Performance, day: nat)
    requires p in PerformancesOf(trades, ByStrategy, ids) && day in p.daily
    ensures exists t :: t in trades && t.day == day
  {
    var listed := PerformancesOf(trades, ByStrategy, ids);
    var i :| 0 <= i < |ids| && listed[i] == p;
    DaysOfGroup(trades, ByStrategy, ids[i], day);
  }

  lemma {:induction false} DayOfATrade(trades: seq<Trade>, ids: seq<nat>, t: Trade) returns (p: Performance)
    requires Covered(trades, ByStrategy, ids) && t in trades
    ensures p in PerformancesOf(trades, ByStrategy, ids) && t.day in p.daily
  {
    var k :| 0 <= k < |trades| && trades[k] == t;
    assert KeyOf(trades[k], ByStrategy) in ids;
    var i :| 0 <= i < |ids| && ids[i] == KeyOf(t, ByStrategy);
    DaysOfGroup(trades, ByStrategy, ids[i], t.day);
    p := PerformancesOf(trades, ByStrategy, ids)[i];
  }

  lemma {:induction false} SameMembers(a: seq<Performance>, b: seq<Performance>)
    requires multiset(a) == multiset(b)
    ensures forall p :: p in a <==> p in b
  {
    forall p
      ensures p in a <==> p in b
    {
      assert p in a <==> p in multiset(a);
    }
  }

  lemma {:induction false} SumOnIsASum(trades: seq<Trade>, day: nat)
    ensures Series.SumOn(Days(trades), Pnls(trades), day) == Sum(trades, Measure(Profit, Everything, Some(day)))
    ensures Series.SumAll(Pnls(trades)) == Sum(trades, Measure(Profit, Everything, None))
  {
    if trades != [] {
      var k := |trades| - 1;
      SumOnIsASum(trades[..k], day);
      assert trades == trades[..k] + [trades[k]];
      AppendToSeries(trades[..k], trades[k], day);
    }
  }

  /**
   The merged portfolio series is the daily series of all the trades, whatever strategies
   they came from.
   */
  lemma {:induction false} MergedIsTheDailySeries(trades: seq<Trade>, ids: seq<nat>, results: seq<Performance>)
    requires Enumerates(ids, trades, ByStrategy)
    requires multiset(results) == multiset(PerformancesOf(trades, ByStrategy, ids))
    ensures Merged(results) == Series.DailyOf(Days(trades), Pnls(trades))
  {
    var x, y := Merged(results), Series.DailyOf(Days(trades), Pnls(trades));
    Series.DailyIsTheSum(Days(trades), Pnls(trades));
    AttributionConserves(trades, ByStrategy, ids, results);
    forall day
      ensures day in x <==> day in y
      ensures Series.At(x, day) == Series.At(y, day)
    {
      MergedIsPointwise(results, day);
      DaysAreCovered(trades, ids, results, day);
      SumOnIsASum(trades, day);
    }
    Series.SameSeries(x, y);
  }

  const ALL_STOCKS := 10_000

  /**
   End to end: the total, the last point of the portfolio's cumulative series and the raw trade
   sum are one number, the drawdown is taken on that series, and the symbols account for the
   same number together with what the cut at 10 000 symbols leaves out. The best and the worst
   symbols are the two ends of the symbol report.
   */
  method Portfolio(trades: seq<Trade>, topStocks: nat)
    returns (total: int, cumulative: seq<int>, drop: int, top: seq<Performance>, worst: seq<Performance>,
             ghost symbols: seq<nat>, ghost stocks: seq<Performance>, ghost omitted: seq<Performance>)
    ensures total == Sum(trades, Measure(Profit, Everything, None))
    ensures trades != [] ==> cumulative != [] && cumulative[|cumulative| - 1] == total
    ensures Series.IsMaxDrop(cumulative, drop)
    ensures Enumerates(symbols, trades, BySymbol)
    ensures multiset(stocks + omitted) == multiset(PerformancesOf(trades, BySymbol, symbols))
    ensures Sums.Total(stocks, Net()) + Sums.Total(omitted, Net()) == total
    ensures omitted == [] <==> |symbols| <= ALL_STOCKS
    ensures top == Cut(stocks, topStocks) && forall i, j :: 0 <= i < j < |stocks| ==> stocks[i].net >= stocks[j].net
    ensures |worst| == |top| && multiset(worst) <= multiset(stocks)
    ensures forall p, q :: p in worst && q in multiset(stocks) - multiset(worst) ==> p.net <= q.net
  {
    var strategies;
    ghost var strategyIds;
    strategies, strategyIds := Attribute(trades, ByStrategy);
    total, cumulative := PortfolioSeries(trades, strategyIds, strategies);
    var percent;
    drop, percent := Series.MaxDrawdown(cumulative);
    var all;
    all, omitted, symbols := StockReport(trades, 1, ALL_STOCKS);
    stocks := all;
    StockReportConserves(trades, symbols, stocks, omitted);
    NothingElseIsOmitted(trades, symbols, stocks, omitted, ALL_STOCKS);
    top := Cut(all, topStocks);
    worst := WorstOf(all, topStocks);
  }

  /** The total of the strategies' nets and the cumulative series of their merged days. */
  method PortfolioSeries(trades: seq<Trade>, ghost ids: seq<nat>, strategies: seq<Performance>)
    returns (total: int, cumulative: seq<int>)
    requires Enumerates(ids, trades, ByStrategy)
    requires multiset(strategies) == multiset(PerformancesOf(trades, ByStrategy, ids))
    ensures total == Sum(trades, Measure(Profit, Everything, None))
    ensures trades != [] ==> cumulative != [] && cumulative[|cumulative| - 1] == total
  {
    ghost var days;
    total := Sums.Total(strategies, Net());
    AttributionConserves(trades, ByStrategy, ids, strategies);
    var merged := MergeDaily(strategies);
    MergedIsTheDailySeries(trades, ids, strategies);
    Series.DailyIsTheSum(Days(trades), Pnls(trades));
    SumOnIsASum(trades, 0);
    cumulative, days := Series.CumulativePnlSeries(merged);
    if trades != [] {
      DaysOfTrades(trades, trades[0].day);
      assert trades[0].day in merged;
    }
  }

  /** The `n` symbols with the least profit. */
  method WorstOf(stocks: seq<Performance>, n: nat) returns (worst: seq<Performance>)
    ensures |worst| == (if n < |stocks| then n else |stocks|) && multiset(worst) <= multiset(stocks)
    ensures forall p, q :: p in worst && q in multiset(stocks) - multiset(worst) ==> p.net <= q.net
  {
    var ascending := Items(Sorted(Worst(stocks)));
    WorstIsOrdered(stocks);
    worst := Cut(ascending, n);
    forall p, q | p in worst && q in multiset(stocks) - multiset(worst)
      ensures p.net <= q.net
    {
      WorstComeFirst(ascending, |worst|, p, q);
    }
    assert ascending == worst + ascending[|worst|..];
  }

  lemma {:induction false} WorstComeFirst(ascending: seq<Performance>, cut: nat, p: Performance, q: Performance)
    requires forall i, j :: 0 <= i < j < |ascending| ==> ascending[i].net <= ascending[j].net
    requires cut <= |ascending| && p in ascending[..cut]
    requires q in multiset(ascending) - multiset(ascending[..cut])
    ensures p.net <= q.net
  {
    assert ascending == ascending[..cut] + ascending[cut..];
    assert q in multiset(ascending[cut..]);
    var i :| 0 <= i < cut && ascending[..cut][i] == p;
    var j :| 0 <= j < |ascending| - cut && ascending[cut..][j] == q;
    assert ascending[i] == p && ascending[cut + j] == q;
  }
}
