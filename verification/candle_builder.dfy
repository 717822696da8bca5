/**
 The live candle builder: one bucket object per symbol and interval, rolled over and
 updated in place as ticks arrive. Every method is tied to the folds of module Candles.
 */
module CandleBuilders {
  import opened Wrappers
  import opened MarketClock
  import opened Candles

  /** The in-progress buckets of one symbol. */
  type Row = map<Interval, Option<Bar>>

  datatype BuilderState = BuilderState(rows: map<Symbol, Row>,
                                       processed: nat, dropped: nat, candles: nat)

  /** The quote of a tick that passes every sanity check. */
  function Admitted(t: Tick, now: Instant, respectHours: bool): Option<Quote> {
    if t.timestamp.Naive? || t.price <= 0.0 || t.volume < 0 then None
    else if t.timestamp.at > now + 60 * SECOND then None
    else if respectHours && !WithinMarketHours(t.timestamp.at) then None
    else Some(Quote(t.timestamp.at, t.price, t.volume))
  }

  function EmptyRow(intervals: seq<Interval>): Row {
    map i | i in intervals :: None
  }

  function Registered(rows: map<Symbol, Row>, symbol: Symbol, intervals: seq<Interval>): map<Symbol, Row> {
    if symbol in rows then rows else rows[symbol := EmptyRow(intervals)]
  }

  predicate Covers(row: Row, intervals: seq<Interval>) {
    forall i :: i in intervals ==> i in row
  }

  function SlotSet(row: Row, i: Interval, q: Quote): Row
    requires i in row
  {
    row[i := Some(BarAfter(row[i], q, SlotOf(q, i), Width(i)))]
  }

  /** The intervals are served one after another, finest first. */
  function RowAfter(row: Row, intervals: seq<Interval>, q: Quote): (r: Row)
    requires Covers(row, intervals)
    ensures r.Keys == row.Keys
  {
    if intervals == [] then row else
      var i := intervals[|intervals| - 1];
      SlotSet(RowAfter(row, intervals[..|intervals| - 1], q), i, q)
  }

  function Tagged(symbol: Symbol, i: Interval, bars: seq<Bar>): seq<BuiltCandle> {
    seq(|bars|, k requires 0 <= k < |bars| => BuiltCandle(symbol, i, bars[k]))
  }

  function RowCloses(row: Row, intervals: seq<Interval>, q: Quote, symbol: Symbol): seq<BuiltCandle>
    requires Covers(row, intervals)
  {
    if intervals == [] then [] else
      var i := intervals[|intervals| - 1];
      var front := intervals[..|intervals| - 1];
      RowCloses(row, front, q, symbol) + Tagged(symbol, i, ClosedBy(RowAfter(row, front, q)[i], q))
  }

  lemma {:induction false} RowReplaced(rows: map<Symbol, Row>, s: Symbol, before: Row, after: Row)
    ensures rows[s := before][s := after] == rows[s := after]
  {
  }

  lemma {:induction false} ServedIntervals(row: Row, intervals: seq<Interval>)
    requires row.Keys == EmptyRow(intervals).Keys
    ensures Covers(row, intervals)
  {
    assert forall i :: i in intervals ==> i in EmptyRow(intervals);
  }

  lemma {:induction false} OneMoreInterval(row: Row, intervals: seq<Interval>, q: Quote, symbol: Symbol, n: nat)
    requires Covers(row, intervals) && n < |intervals|
    ensures Covers(row, intervals[..n + 1])
    ensures var before := RowAfter(row, intervals[..n], q);
            && RowAfter(row, intervals[..n + 1], q) == SlotSet(before, intervals[n], q)
            && RowCloses(row, intervals[..n + 1], q, symbol)
               == RowCloses(row, intervals[..n], q, symbol) + Tagged(symbol, intervals[n], ClosedBy(before[intervals[n]], q))
  {
    assert intervals[..n + 1][..n] == intervals[..n];
  }

  ghost predicate WellShaped(b: BuilderState, intervals: seq<Interval>) {
    forall s :: s in b.rows ==> b.rows[s].Keys == EmptyRow(intervals).Keys
  }

  function TickCloses(b: BuilderState, t: Tick, now: Instant, intervals: seq<Interval>,
                      respectHours: bool): seq<BuiltCandle>
    requires WellShaped(b, intervals)
  {
    match Admitted(t, now, respectHours)
    case None => []
    case Some(q) =>
      var symbol := t.symbol;
      RowCloses(Registered(b.rows, symbol, intervals)[symbol], intervals, q, symbol)
  }

  function TickedState(b: BuilderState, t: Tick, now: Instant, intervals: seq<Interval>,
                       respectHours: bool): (r: BuilderState)
    requires WellShaped(b, intervals)
    ensures WellShaped(r, intervals)
  {
    match Admitted(t, now, respectHours)
    case None => b.(dropped := b.dropped + 1)
    case Some(q) =>
      var symbol := t.symbol;
      var rows := Registered(b.rows, symbol, intervals);
      BuilderState(rows[symbol := RowAfter(rows[symbol], intervals, q)], b.processed + 1, b.dropped,
                   b.candles + |RowCloses(rows[symbol], intervals, q, symbol)|)
  }

  /** The candles a flush of one symbol emits, in interval order. */
  function FlushCloses(row: Row, intervals: seq<Interval>, symbol: Symbol): seq<BuiltCandle>
    requires Covers(row, intervals)
  {
    if intervals == [] then [] else
      var i := intervals[|intervals| - 1];
      FlushCloses(row, intervals[..|intervals| - 1], symbol)
      + (if row[i].Some? && i !in intervals[..|intervals| - 1] then [BuiltCandle(symbol, i, row[i].value)] else [])
  }

  /** A tick and the wall clock at its arrival. */
  datatype Feed = Feed(tick: Tick, now: Instant)

  /** The quotes of one symbol that pass the sanity checks, in arrival order. */
  function QuotesOf(feeds: seq<Feed>, s: Symbol, respectHours: bool): seq<Quote> {
    if feeds == [] then [] else
      var front, f := QuotesOf(feeds[..|feeds| - 1], s, respectHours), feeds[|feeds| - 1];
      var q := Admitted(f.tick, f.now, respectHours);
      if f.tick.symbol == s && q.Some? then front + [q.value] else front
  }

  /** What makes a tick acceptable at its arrival. */
  predicate Acceptable(f: Feed, respectHours: bool) {
    && f.tick.timestamp.Aware? && f.tick.price > 0.0 && f.tick.volume >= 0
    && f.tick.timestamp.at - f.now <= 60_000_000
    && (respectHours ==> WithinMarketHours(f.tick.timestamp.at))
  }

  /** A tick is admitted exactly when it is acceptable, and its quote carries the tick's own time, price and volume. */
  lemma {:induction false} AdmittedIff(f: Feed, respectHours: bool)
    ensures var q := Admitted(f.tick, f.now, respectHours);
            && (q.Some? <==> Acceptable(f, respectHours))
            && (q.Some? ==> q.value.at == f.tick.timestamp.at && q.value.price == f.tick.price
                            && q.value.volume == f.tick.volume)
  {
  }

  /** The arrival clock only decides whether a tick is admitted, never what its quote is. */
  lemma {:induction false} ClockLeavesNoTrace(t: Tick, now: Instant, later: Instant, respectHours: bool)
    requires now <= later && Admitted(t, now, respectHours).Some?
    ensures Admitted(t, later, respectHours) == Admitted(t, now, respectHours)
  {
  }

  /** The times, prices and volumes of the acceptable ticks of one symbol, as they came. */
  function TicksOf(feeds: seq<Feed>, s: Symbol, respectHours: bool): seq<Quote> {
    if feeds == [] then [] else
    var f := feeds[|feeds| - 1];
    TicksOf(feeds[..|feeds| - 1], s, respectHours)
    + if f.tick.symbol == s && Acceptable(f, respectHours)
      then [Quote(f.tick.timestamp.at, f.tick.price, f.tick.volume)] else []
  }

  /** What the builder folds is exactly that list. */
  lemma {:induction false} QuotesAreTheTicks(feeds: seq<Feed>, s: Symbol, respectHours: bool)
    ensures QuotesOf(feeds, s, respectHours) == TicksOf(feeds, s, respectHours)
  {
    if feeds != [] {
      QuotesAreTheTicks(feeds[..|feeds| - 1], s, respectHours);
      AdmittedIff(feeds[|feeds| - 1], respectHours);
    }
  }

  ghost predicate Distinct(intervals: seq<Interval>) {
    forall j, k :: 0 <= j < k < |intervals| ==> intervals[j] != intervals[k]
  }

  /** Serving a row touches each interval's slot once. */
  lemma {:induction false} RowAt(row: Row, intervals: seq<Interval>, q: Quote, i: Interval)
    requires Covers(row, intervals) && Distinct(intervals) && i in row
    ensures RowAfter(row, intervals, q)[i] ==
            if i in intervals then Some(BarAfter(row[i], q, SlotOf(q, i), Width(i))) else row[i]
  {
    if intervals != [] {
      var front, last := intervals[..|intervals| - 1], intervals[|intervals| - 1];
      assert intervals == front + [last];
      RowAt(row, front, q, i);
    }
  }

  lemma {:induction false} RowUntouched(row: Row, intervals: seq<Interval>, q: Quote, i: Interval)
    requires Covers(row, intervals) && Distinct(intervals) && i in row && i !in intervals
    ensures RowAfter(row, intervals, q)[i] == row[i]
  {
    RowAt(row, intervals, q, i);
  }

  lemma {:induction false} TaggedSymbols(row: Row, intervals: seq<Interval>, q: Quote, t: Symbol)
    requires Covers(row, intervals)
    ensures forall k :: 0 <= k < |RowCloses(row, intervals, q, t)| ==> RowCloses(row, intervals, q, t)[k].symbol == t
  {
    if intervals != [] {
      TaggedSymbols(row, intervals[..|intervals| - 1], q, t);
    }
  }

  /** What a builder does with a list of ticks, and every candle it emits. */
  function BuilderRun(b: BuilderState, feeds: seq<Feed>, intervals: seq<Interval>,
                      respectHours: bool): (r: (BuilderState, seq<BuiltCandle>))
    requires WellShaped(b, intervals)
    ensures WellShaped(r.0, intervals)
  {
    if feeds == [] then (b, []) else
      var (before, emitted) := BuilderRun(b, feeds[..|feeds| - 1], intervals, respectHours);
      var f := feeds[|feeds| - 1];
      (TickedState(before, f.tick, f.now, intervals, respectHours),
       emitted + TickCloses(before, f.tick, f.now, intervals, respectHours))
  }

  /** The positions of the acceptable ticks. */
  function Accepted(feeds: seq<Feed>, respectHours: bool): set<nat> {
    set k: nat | k < |feeds| && Acceptable(feeds[k], respectHours)
  }

  /** Over any run the counters count: acceptable ticks, the others, and the candles emitted. */
  lemma {:induction false} CountersCount(b: BuilderState, feeds: seq<Feed>, intervals: seq<Interval>, respectHours: bool)
    requires WellShaped(b, intervals)
    ensures var (r, emitted) := BuilderRun(b, feeds, intervals, respectHours);
            && r.processed == b.processed + |Accepted(feeds, respectHours)|
            && r.dropped == b.dropped + |feeds| - |Accepted(feeds, respectHours)|
            && r.candles == b.candles + |emitted|
  {
    if feeds == [] {
      assert Accepted(feeds, respectHours) == {};
    } else {
      var n := |feeds| - 1;
      CountersCount(b, feeds[..n], intervals, respectHours);
      AdmittedIff(feeds[n], respectHours);
      AcceptedNext(feeds, respectHours);
    }
  }

  lemma {:induction false} AcceptedNext(feeds: seq<Feed>, respectHours: bool)
    requires feeds != []
    ensures var n := |feeds| - 1;
            |Accepted(feeds, respectHours)|
            == |Accepted(feeds[..n], respectHours)| + if Acceptable(feeds[n], respectHours) then 1 else 0
  {
    var n := |feeds| - 1;
    var before := Accepted(feeds[..n], respectHours);
    assert Accepted(feeds, respectHours) == before + if Acceptable(feeds[n], respectHours) then {n} else {};
    assert n !in before;
  }

  /** The bars of the candles of one symbol and interval. */
  function BarsFor(cs: seq<BuiltCandle>, s: Symbol, i: Interval): seq<Bar> {
    if cs == [] then [] else
      var c := cs[|cs| - 1];
      BarsFor(cs[..|cs| - 1], s, i) + (if c.symbol == s && c.interval == i then [c.bar] else [])
  }

  lemma {:induction false} BarsForConcat(a: seq<BuiltCandle>, b: seq<BuiltCandle>, s: Symbol, i: Interval)
    ensures BarsFor(a + b, s, i) == BarsFor(a, s, i) + BarsFor(b, s, i)
  {
    if b == [] {
      assert a + b == a;
    } else {
      assert (a + b)[..|a + b| - 1] == a + b[..|b| - 1];
      BarsForConcat(a, b[..|b| - 1], s, i);
    }
  }

  lemma {:induction false} BarsForTagged(t: Symbol, j: Interval, bars: seq<Bar>, s: Symbol, i: Interval)
    requires |bars| <= 1
    ensures BarsFor(Tagged(t, j, bars), s, i) == if t == s && j == i then bars else []
  {
    if bars != [] {
      assert Tagged(t, j, bars)[..0] == [];
    }
  }

  lemma {:induction false} RowCloseBars(row: Row, intervals: seq<Interval>, q: Quote, t: Symbol, s: Symbol, i: Interval)
    requires Covers(row, intervals) && Distinct(intervals) && i in row
    ensures BarsFor(RowCloses(row, intervals, q, t), s, i)
         == if t == s && i in intervals then ClosedBy(row[i], q) else []
  {
    if intervals != [] {
      var front, last := intervals[..|intervals| - 1], intervals[|intervals| - 1];
      assert intervals == front + [last];
      RowCloseBars(row, front, q, t, s, i);
      RowUntouched(row, front, q, last);
      OneMoreClosedBar(RowCloses(row, front, q, t), ClosedBy(row[last], q), front, last, t, s, i);
    }
  }

  lemma {:induction false} OneMoreClosedBar(before: seq<BuiltCandle>, bars: seq<Bar>, front: seq<Interval>, last: Interval,
                                            t: Symbol, s: Symbol, i: Interval)
    requires |bars| <= 1 && (t != s || i !in front ==> BarsFor(before, s, i) == [])
    ensures BarsFor(before + Tagged(t, last, bars), s, i)
            == if t == s && i == last then BarsFor(before, s, i) + bars else BarsFor(before, s, i)
  {
    BarsForConcat(before, Tagged(t, last, bars), s, i);
    BarsForTagged(t, last, bars, s, i);
  }

  /** The bucket and the emitted candles of one symbol and interval are those of its own quotes. */
  ghost predicate Follows(b: BuilderState, emitted: seq<BuiltCandle>, qs: seq<Quote>, s: Symbol, i: Interval) {
    && BarsFor(emitted, s, i) == ClosedBars(Tracked(qs, i))
    && (if s in b.rows && i in b.rows[s] then b.rows[s][i] == LastOf(Tracked(qs, i)) else Tracked(qs, i) == [])
  }

  lemma {:induction false} OtherTickFollows(b: BuilderState, emitted: seq<BuiltCandle>, qs: seq<Quote>, f: Feed,
                                            s: Symbol, i: Interval,
                         intervals: seq<Interval>, respectHours: bool)
    requires WellShaped(b, intervals) && Distinct(intervals) && i in intervals
    requires Follows(b, emitted, qs, s, i)
    requires f.tick.symbol != s || Admitted(f.tick, f.now, respectHours).None?
    ensures Follows(TickedState(b, f.tick, f.now, intervals, respectHours),
                    emitted + TickCloses(b, f.tick, f.now, intervals, respectHours), qs, s, i)
  {
    var q, t := Admitted(f.tick, f.now, respectHours), f.tick.symbol;
    var closes := TickCloses(b, f.tick, f.now, intervals, respectHours);
    BarsForConcat(emitted, closes, s, i);
    if q.Some? {
      RowCloseBars(Registered(b.rows, t, intervals)[t], intervals, q.value, t, s, i);
    }
    assert BarsFor(closes, s, i) == [];
    assert BarsFor(emitted, s, i) + [] == BarsFor(emitted, s, i);
  }

  lemma {:induction false} OwnTickFollows(b: BuilderState, emitted: seq<BuiltCandle>, qs: seq<Quote>, f: Feed,
                                          s: Symbol, i: Interval,
                       intervals: seq<Interval>, respectHours: bool)
    requires WellShaped(b, intervals) && Distinct(intervals) && i in intervals
    requires Follows(b, emitted, qs, s, i)
    requires f.tick.symbol == s && Admitted(f.tick, f.now, respectHours).Some?
    ensures Follows(TickedState(b, f.tick, f.now, intervals, respectHours),
                    emitted + TickCloses(b, f.tick, f.now, intervals, respectHours),
                    qs + [Admitted(f.tick, f.now, respectHours).value], s, i)
  {
    var q := Admitted(f.tick, f.now, respectHours).value;
    var row := Registered(b.rows, s, intervals)[s];
    assert row[i] == LastOf(Tracked(qs, i));
    BarsForConcat(emitted, RowCloses(row, intervals, q, s), s, i);
    RowCloseBars(row, intervals, q, s, s, i);
    OwnQuote(row, intervals, q, qs, i);
  }

  lemma {:induction false} OwnQuote(row: Row, intervals: seq<Interval>, q: Quote, qs: seq<Quote>, i: Interval)
    requires Covers(row, intervals) && Distinct(intervals) && i in intervals
    requires row[i] == LastOf(Tracked(qs, i))
    ensures RowAfter(row, intervals, q)[i] == LastOf(Tracked(qs + [q], i))
    ensures ClosedBars(Tracked(qs + [q], i)) == ClosedBars(Tracked(qs, i)) + ClosedBy(row[i], q)
  {
    RowAt(row, intervals, q, i);
    TrackedAppend(qs, q, i);
    AdvanceEmits(Tracked(qs, i), q, SlotOf(q, i), Width(i));
  }

  /**
   For any ticks of any symbols, and for every served interval: the candles emitted for
   a symbol are the closed bars of its accepted quotes, its bucket is their last bar.
   */
  lemma {:induction false} BuilderTracks(b: BuilderState, feeds: seq<Feed>, s: Symbol, i: Interval,
                                         intervals: seq<Interval>, respectHours: bool)
    requires WellShaped(b, intervals) && Distinct(intervals) && i in intervals
    requires s in b.rows ==> b.rows[s] == EmptyRow(intervals)
    ensures var (r, emitted) := BuilderRun(b, feeds, intervals, respectHours);
            Follows(r, emitted, QuotesOf(feeds, s, respectHours), s, i)
  {
    if feeds != [] {
      BuilderTracks(b, feeds[..|feeds| - 1], s, i, intervals, respectHours);
      var (before, emitted) := BuilderRun(b, feeds[..|feeds| - 1], intervals, respectHours);
      var qs, f := QuotesOf(feeds[..|feeds| - 1], s, respectHours), feeds[|feeds| - 1];
      if f.tick.symbol == s && Admitted(f.tick, f.now, respectHours).Some? {
        OwnTickFollows(before, emitted, qs, f, s, i, intervals, respectHours);
      } else {
        OtherTickFollows(before, emitted, qs, f, s, i, intervals, respectHours);
      }
    }
  }

  function FlushRow(row: Row, intervals: seq<Interval>): Row {
    if intervals == [] then row
    else FlushRow(row, intervals[..|intervals| - 1])[intervals[|intervals| - 1] := None]
  }

  lemma {:induction false} FlushRowIs(row: Row, intervals: seq<Interval>, i: Interval)
    requires Covers(row, intervals)
    ensures FlushRow(row, intervals).Keys == row.Keys
    ensures i in row ==> FlushRow(row, intervals)[i] == if i in intervals then None else row[i]
  {
    if intervals != [] {
      FlushRowIs(row, intervals[..|intervals| - 1], i);
      assert intervals == intervals[..|intervals| - 1] + [intervals[|intervals| - 1]];
    }
  }

  lemma {:induction false} FlushEmpties(row: Row, intervals: seq<Interval>)
    requires row.Keys == EmptyRow(intervals).Keys
    ensures FlushRow(row, intervals) == EmptyRow(intervals)
  {
    forall i
      ensures FlushRow(row, intervals).Keys == row.Keys
      ensures i in row ==> FlushRow(row, intervals)[i] == None
    {
      FlushRowIs(row, intervals, i);
    }
  }

  function FlushedRows(rows: map<Symbol, Row>, intervals: seq<Interval>, order: seq<Symbol>): (r: map<Symbol, Row>)
    requires forall s :: s in order ==> s in rows
    ensures r.Keys == rows.Keys
    ensures forall s :: s in r ==> r[s] == if s in order then EmptyRow(intervals) else rows[s]
  {
    if order == [] then rows else
      assert order == order[..|order| - 1] + [order[|order| - 1]];
      FlushedRows(rows, intervals, order[..|order| - 1])[order[|order| - 1] := EmptyRow(intervals)]
  }

  /** The candles of a flush that visits the symbols in the given order. */
  function FlushSequence(rows: map<Symbol, Row>, intervals: seq<Interval>, order: seq<Symbol>): seq<BuiltCandle>
    requires forall s :: s in order ==> s in rows && Covers(rows[s], intervals)
  {
    if order == [] then [] else
      var s, front := order[|order| - 1], order[..|order| - 1];
      FlushSequence(rows, intervals, front) + FlushCloses(FlushedRows(rows, intervals, front)[s], intervals, s)
  }

  // ---- What a flush emits -------------------------------------------------

  /** A flush of one symbol emits each of its in-progress bars once, and nothing else. */
  lemma {:induction false} FlushEmitsEachOnce(row: Row, intervals: seq<Interval>, t: Symbol, s: Symbol, i: Interval)
    requires Covers(row, intervals)
    ensures BarsFor(FlushCloses(row, intervals, t), s, i)
            == if t == s && i in intervals then AsList(row[i]) else []
  {
    if intervals != [] {
      var front, last := intervals[..|intervals| - 1], intervals[|intervals| - 1];
      assert intervals == front + [last];
      FlushEmitsEachOnce(row, front, t, s, i);
      OneMoreFlushed(FlushCloses(row, front, t), row[last], front, last, t, s, i);
    }
  }

  lemma {:induction false} OneMoreFlushed(before: seq<BuiltCandle>, bucket: Option<Bar>, front: seq<Interval>,
                                          last: Interval,
                                          t: Symbol, s: Symbol, i: Interval)
    requires i !in front ==> BarsFor(before, s, i) == []
    ensures var more := if bucket.Some? && last !in front then [BuiltCandle(t, last, bucket.value)] else [];
            BarsFor(before + more, s, i)
            == if t == s && i == last && i !in front then AsList(bucket) else BarsFor(before, s, i)
  {
    var more := if bucket.Some? && last !in front then [BuiltCandle(t, last, bucket.value)] else [];
    BarsForConcat(before, more, s, i);
    if more != [] {
      BarsForOne(more[0], s, i);
    }
  }

  lemma {:induction false} BarsForOne(c: BuiltCandle, s: Symbol, i: Interval)
    ensures BarsFor([c], s, i) == if c.symbol == s && c.interval == i then [c.bar] else []
  {
    assert [c][..0] == [];
  }

  lemma {:induction false} FlushSequenceBars(rows: map<Symbol, Row>, intervals: seq<Interval>, order: seq<Symbol>,
                                             s: Symbol, i: Interval)
    requires forall t :: t in order ==> t in rows && Covers(rows[t], intervals)
    requires i in intervals
    ensures BarsFor(FlushSequence(rows, intervals, order), s, i) == if s in order then AsList(rows[s][i]) else []
  {
    if order != [] {
      var front, last := order[..|order| - 1], order[|order| - 1];
      assert order == front + [last];
      FlushSequenceBars(rows, intervals, front, s, i);
      var row := FlushedRows(rows, intervals, front)[last];
      FlushEmitsEachOnce(row, intervals, last, s, i);
      BarsForConcat(FlushSequence(rows, intervals, front), FlushCloses(row, intervals, last), s, i);
    }
  }

  /**
   Nothing is lost at a flush: after any run of ticks the candles emitted for a symbol and
   those a flush of every registered symbol adds are exactly the bars of its accepted quotes.
   */
  lemma {:induction false} EmittedPlusFlushed(b: BuilderState, feeds: seq<Feed>, order: seq<Symbol>, s: Symbol, i: Interval,
                                              intervals: seq<Interval>, respectHours: bool)
    requires WellShaped(b, intervals) && Distinct(intervals) && i in intervals
    requires s in b.rows ==> b.rows[s] == EmptyRow(intervals)
    requires forall t :: t in BuilderRun(b, feeds, intervals, respectHours).0.rows <==> t in order
    ensures var (r, emitted) := BuilderRun(b, feeds, intervals, respectHours);
            BarsFor(emitted + FlushSequence(r.rows, intervals, order), s, i)
            == Tracked(QuotesOf(feeds, s, respectHours), i)
  {
    var (r, emitted) := BuilderRun(b, feeds, intervals, respectHours);
    BuilderTracks(b, feeds, s, i, intervals, respectHours);
    FollowedThenFlushed(r, emitted, QuotesOf(feeds, s, respectHours), order, s, i, intervals);
  }

  lemma {:induction false} FollowedThenFlushed(r: BuilderState, emitted: seq<BuiltCandle>, qs: seq<Quote>,
                                               order: seq<Symbol>,
                                               s: Symbol, i: Interval, intervals: seq<Interval>)
    requires WellShaped(r, intervals) && i in intervals && Follows(r, emitted, qs, s, i)
    requires forall t :: t in r.rows <==> t in order
    ensures BarsFor(emitted + FlushSequence(r.rows, intervals, order), s, i) == Tracked(qs, i)
  {
    var bars := Tracked(qs, i);
    BarsForConcat(emitted, FlushSequence(r.rows, intervals, order), s, i);
    FlushSequenceBars(r.rows, intervals, order, s, i);
    assert bars == ClosedBars(bars) + AsList(LastOf(bars));
  }

  class CandleBuilder {
    const intervals: seq<Interval>
    const respectHours: bool
    var buckets: map<Symbol, Row>
    var ticksProcessed: nat
    var ticksDropped: nat
    var candlesEmitted: nat

    ghost function View(): BuilderState
      reads this
    {
      BuilderState(buckets, ticksProcessed, ticksDropped, candlesEmitted)
    }

    /** Every row serves exactly the configured intervals. */
    ghost predicate Valid()
      reads this
    {
      WellShaped(View(), intervals)
    }

    constructor (intervals: seq<Interval>, respectHours: bool)
      ensures Valid() && this.intervals == intervals && this.respectHours == respectHours
      ensures View() == BuilderState(map[], 0, 0, 0)
    {
      this.intervals, this.respectHours := intervals, respectHours;
      buckets := map[];
      ticksProcessed, ticksDropped, candlesEmitted := 0, 0, 0;
    }

    method RegisterSymbol(symbol: Symbol)
      requires Valid()
      modifies this`buckets
      ensures Valid()
      ensures buckets == Registered(old(buckets), symbol, intervals)
    {
      if symbol !in buckets {
        buckets := buckets[symbol := EmptyRow(intervals)];
      }
    }

    method UnregisterSymbol(symbol: Symbol)
      requires Valid()
      modifies this`buckets
      ensures Valid()
      ensures buckets == old(buckets) - {symbol}
    {
      buckets := buckets - {symbol};
    }

    /** One interval: closes an elapsed bucket, opens one if there is none, updates it. */
    method ServeInterval(symbol: Symbol, interval: Interval, q: Quote) returns (closed: seq<BuiltCandle>)
      requires symbol in buckets && interval in buckets[symbol]
      modifies this`buckets, this`candlesEmitted
      ensures closed == Tagged(symbol, interval, ClosedBy(old(buckets)[symbol][interval], q))
      ensures buckets == old(buckets)[symbol := SlotSet(old(buckets)[symbol], interval, q)]
      ensures candlesEmitted == old(candlesEmitted) + |closed|
    {
      closed := [];
      var bucket := buckets[symbol][interval];
      if bucket.Some? && q.at >= bucket.value.end {
        closed := [BuiltCandle(symbol, interval, bucket.value)];
        candlesEmitted := candlesEmitted + 1;
        bucket := None;
      }
      if bucket.None? {
        var start := FloorToInterval(q.at, StepSeconds(interval));
        bucket := Some(Bar(start, start + Width(interval), q.price, q.price, q.price, q.price, 0));
      }
      buckets := buckets[symbol := buckets[symbol][interval := Some(Updated(bucket.value, q.price, q.volume))]];
    }

    method ServeIntervals(symbol: Symbol, q: Quote) returns (emitted: seq<BuiltCandle>)
      requires Valid() && symbol in buckets
      modifies this`buckets, this`candlesEmitted
      ensures Valid()
      ensures emitted == RowCloses(old(buckets)[symbol], intervals, q, symbol)
      ensures buckets == old(buckets)[symbol := RowAfter(old(buckets)[symbol], intervals, q)]
      ensures candlesEmitted == old(candlesEmitted) + |emitted|
    {
      emitted := [];
      ghost var row, served := buckets[symbol], buckets[symbol];
      ServedIntervals(row, intervals);
      for n := 0 to |intervals|
        invariant Covers(row, intervals[..n]) && served == RowAfter(row, intervals[..n], q)
        invariant buckets == old(buckets)[symbol := served]
        invariant emitted == RowCloses(row, intervals[..n], q, symbol)
        invariant candlesEmitted == old(candlesEmitted) + |emitted|
      {
        OneMoreInterval(row, intervals, q, symbol, n);
        var closed := ServeInterval(symbol, intervals[n], q);
        RowReplaced(old(buckets), symbol, served, SlotSet(served, intervals[n], q));
        served := SlotSet(served, intervals[n], q);
        emitted := emitted + closed;
      }
      assert intervals[..|intervals|] == intervals;
    }

    method OnTick(tick: Tick, now: Instant) returns (emitted: seq<BuiltCandle>)
      requires Valid()
      modifies this
      ensures Valid()
      ensures emitted == TickCloses(old(View()), tick, now, intervals, respectHours)
      ensures View() == TickedState(old(View()), tick, now, intervals, respectHours)
    {
      emitted := [];
      if tick.timestamp.Naive? {
        ticksDropped := ticksDropped + 1;
        return;
      }
      if !(tick.price > 0.0) || tick.volume < 0 {
        ticksDropped := ticksDropped + 1;
        return;
      }
      if tick.timestamp.at > now + 60 * SECOND {
        ticksDropped := ticksDropped + 1;
        return;
      }
      if respectHours && !WithinMarketHours(tick.timestamp.at) {
        ticksDropped := ticksDropped + 1;
        return;
      }
      RegisterSymbol(tick.symbol);
      emitted := ServeIntervals(tick.symbol, Quote(tick.timestamp.at, tick.price, tick.volume));
      ticksProcessed := ticksProcessed + 1;
    }

    /** Force-closes the in-progress buckets of one symbol. */
    method FlushSymbol(symbol: Symbol) returns (emitted: seq<BuiltCandle>)
      requires Valid()
      modifies this`buckets, this`candlesEmitted
      ensures Valid()
      ensures emitted == if symbol in old(buckets) then FlushCloses(old(buckets)[symbol], intervals, symbol) else []
      ensures buckets == if symbol in old(buckets) then old(buckets)[symbol := EmptyRow(intervals)] else old(buckets)
      ensures candlesEmitted == old(candlesEmitted) + |emitted|
    {
      emitted := [];
      if symbol !in buckets {
        return;
      }
      var row := buckets[symbol];
      for n := 0 to |intervals|
        invariant buckets == old(buckets)[symbol := FlushRow(row, intervals[..n])]
        invariant emitted == FlushCloses(row, intervals[..n], symbol)
        invariant candlesEmitted == old(candlesEmitted) + |emitted|
      {
        assert intervals[..n + 1][..n] == intervals[..n];
        var i := intervals[n];
        FlushRowIs(row, intervals[..n], i);
        var bucket := buckets[symbol][i];
        if bucket.Some? {
          emitted := emitted + [BuiltCandle(symbol, i, bucket.value)];
          candlesEmitted := candlesEmitted + 1;
        }
        buckets := buckets[symbol := buckets[symbol][i := None]];
      }
      assert intervals[..|intervals|] == intervals;
      FlushEmpties(row, intervals);
    }

    /** Flushes the registered symbols in the order they were registered. */
    method FlushAll(order: seq<Symbol>) returns (emitted: seq<BuiltCandle>)
      requires Valid() && forall s :: s in buckets <==> s in order
      modifies this`buckets, this`candlesEmitted
      ensures Valid()
      ensures buckets == FlushedRows(old(buckets), intervals, order)
      ensures emitted == FlushSequence(old(buckets), intervals, order)
      ensures candlesEmitted == old(candlesEmitted) + |emitted|
    {
      emitted := [];
      for n := 0 to |order|
        invariant buckets == FlushedRows(old(buckets), intervals, order[..n])
        invariant emitted == FlushSequence(old(buckets), intervals, order[..n])
        invariant candlesEmitted == old(candlesEmitted) + |emitted|
      {
        assert order[..n + 1][..n] == order[..n];
        var candles := FlushSymbol(order[n]);
        emitted := emitted + candles;
      }
      assert order[..|order|] == order;
    }
  }
}
