/**
 The hub: ticks of watched symbols go through the candle builder, every closed candle
 goes on to the signal engine. The end-to-end theorems live here.
 */
module MarketEngines {
  import opened Wrappers
  import opened MarketClock
  import opened Candles
  import opened CandleBuilders
  import opened SignalEngines

  datatype Market = Market(running: bool, watchlist: set<Symbol>, builder: BuilderState, signals: Engine,
                           ticksReceived: nat, ticksDropped: nat, candlesForwarded: nat)

  /** What is fixed when the engine is built. */
  datatype Setup = Setup(intervals: seq<Interval>, respectHours: bool, cfg: Config)

  ghost predicate Sound(m: Market, setup: Setup) {
    && WellShaped(m.builder, setup.intervals)
    && (m.signals.active ==> m.signals.date.Some?)
  }

  /** Closed candles handed to the signal engine one by one. */
  function Forward(e: Engine, cs: seq<BuiltCandle>, cfg: Config): (r: (Engine, seq<Signal>))
    requires e.active ==> e.date.Some?
    ensures r.0.active == e.active && r.0.date == e.date
  {
    if cs == [] then (e, []) else
      var (before, signals) := Forward(e, cs[..|cs| - 1], cfg);
      var (after, signal) := Step(before, OnCandle(cs[|cs| - 1]), cfg);
      (after, if signal.Some? then signals + [signal.value] else signals)
  }

  function FeedStep(m: Market, f: Feed, setup: Setup): (r: (Market, seq<Signal>))
    requires Sound(m, setup)
    ensures Sound(r.0, setup)
  {
    if !m.running then (m, [])
    else if f.tick.symbol !in m.watchlist then (m.(ticksDropped := m.ticksDropped + 1), [])
    else
      var cs := TickCloses(m.builder, f.tick, f.now, setup.intervals, setup.respectHours);
      var (e, signals) := Forward(m.signals, cs, setup.cfg);
      (m.(builder := TickedState(m.builder, f.tick, f.now, setup.intervals, setup.respectHours),
          signals := e, ticksReceived := m.ticksReceived + 1,
          candlesForwarded := m.candlesForwarded + |cs|), signals)
  }

  function FeedRun(m: Market, feeds: seq<Feed>, setup: Setup): (r: (Market, seq<Signal>))
    requires Sound(m, setup)
    ensures Sound(r.0, setup)
  {
    if feeds == [] then (m, []) else
      var (before, signals) := FeedRun(m, feeds[..|feeds| - 1], setup);
      var (after, more) := FeedStep(before, feeds[|feeds| - 1], setup);
      (after, signals + more)
  }

  function SignalsOf(signals: seq<Signal>, s: Symbol): seq<Signal> {
    if signals == [] then [] else
      SignalsOf(signals[..|signals| - 1], s) +
      (if signals[|signals| - 1].symbol == s then [signals[|signals| - 1]] else [])
  }

  lemma {:induction false} SignalsOfConcat(a: seq<Signal>, b: seq<Signal>, s: Symbol)
    ensures SignalsOf(a + b, s) == SignalsOf(a, s) + SignalsOf(b, s)
  {
    if b == [] {
      assert a + b == a;
    } else {
      assert (a + b)[..|a + b| - 1] == a + b[..|b| - 1];
      SignalsOfConcat(a, b[..|b| - 1], s);
    }
  }

  // ---- One symbol inside the market ---------------------------------------

  /** The engine's part that concerns one symbol, next to the signals it has had. */
  function Part(e: Engine, signals: seq<Signal>, s: Symbol): (SymbolState, seq<Signal>)
    requires s in e.states
  {
    (e.states[s], SignalsOf(signals, s))
  }

  lemma {:induction false} OneCandle(e: Engine, c: BuiltCandle, cfg: Config, s: Symbol)
    requires e.active && e.date.Some? && Keyed(e) && s in e.states
    ensures var (e', signal) := Step(e, OnCandle(c), cfg);
            && Keyed(e') && s in e'.states && e'.active && e'.date == e.date
            && (signal.Some? ==> signal.value.symbol == c.symbol)
            && if c.symbol == s && c.interval == cfg.interval
               then (e'.states[s], signal) == CandleStep(e.states[s], c, e.date.value, cfg)
               else e'.states[s] == e.states[s] && (c.symbol == s ==> signal == None)
  {
  }

  /** Candles of other symbols or other intervals leave a symbol alone. */
  lemma {:induction false} ForeignCandles(e: Engine, cs: seq<BuiltCandle>, cfg: Config, s: Symbol)
    requires e.active && e.date.Some? && Keyed(e) && s in e.states
    requires forall k :: 0 <= k < |cs| ==> cs[k].symbol != s || cs[k].interval != cfg.interval
    ensures var (e', signals) := Forward(e, cs, cfg);
            && Keyed(e') && s in e'.states
            && e'.states[s] == e.states[s] && SignalsOf(signals, s) == []
  {
    if cs != [] {
      var front := cs[..|cs| - 1];
      ForeignCandles(e, front, cfg, s);
      var (before, signals) := Forward(e, front, cfg);
      OneCandle(before, cs[|cs| - 1], cfg, s);
      var signal := Step(before, OnCandle(cs[|cs| - 1]), cfg).1;
      if signal.Some? {
        SignalsOfConcat(signals, [signal.value], s);
      }
    }
  }

  lemma {:induction false} ForwardConcat(e: Engine, a: seq<BuiltCandle>, b: seq<BuiltCandle>, cfg: Config)
    requires e.active ==> e.date.Some?
    ensures var (m, x) := Forward(e, a, cfg);
            var (r, y) := Forward(m, b, cfg);
            Forward(e, a + b, cfg) == (r, x + y)
  {
    if b == [] {
      assert a + b == a;
      assert Forward(e, a, cfg).1 + [] == Forward(e, a, cfg).1;
    } else {
      assert (a + b)[..|a + b| - 1] == a + b[..|b| - 1];
      ForwardConcat(e, a, b[..|b| - 1], cfg);
      var (m, x) := Forward(e, a, cfg);
      var (before, y) := Forward(m, b[..|b| - 1], cfg);
      var signal := Step(before, OnCandle(b[|b| - 1]), cfg).1;
      assert signal.Some? ==> (x + y) + [signal.value] == x + (y + [signal.value]);
    }
  }

  /** At most one closed bar of the configured interval per tick. */
  function BarsReach(st: SymbolState, closed: seq<Bar>, s: Symbol, date: int, cfg: Config): (SymbolState, seq<Signal>)
    requires |closed| <= 1
  {
    if closed == [] then (st, []) else
      var (st', signal) := CandleStep(st, BuiltCandle(s, cfg.interval, closed[0]), date, cfg);
      (st', if signal.Some? then [signal.value] else [])
  }

  /** What handing over some candles does to one symbol. */
  ghost predicate Reaches(e: Engine, cs: seq<BuiltCandle>, closed: seq<Bar>, s: Symbol, cfg: Config)
    requires e.active && e.date.Some? && s in e.states && |closed| <= 1
  {
    var (e', signals) := Forward(e, cs, cfg);
    && Keyed(e') && s in e'.states
    && (e'.states[s], SignalsOf(signals, s)) == BarsReach(e.states[s], closed, s, e.date.value, cfg)
  }

  function ReachingBars(row: Row, intervals: seq<Interval>, q: Quote, cfg: Config): (r: seq<Bar>)
    requires cfg.interval in row
    ensures |r| <= 1
  {
    if cfg.interval in intervals then ClosedBy(row[cfg.interval], q) else []
  }

  /** Of the candles a tick closes, only the configured interval's reaches the symbol. */
  lemma {:induction false} RowReaches(e: Engine, row: Row, intervals: seq<Interval>, q: Quote, s: Symbol, cfg: Config)
    requires Covers(row, intervals) && Distinct(intervals) && cfg.interval in row
    requires e.active && e.date.Some? && Keyed(e) && s in e.states
    ensures Reaches(e, RowCloses(row, intervals, q, s), ReachingBars(row, intervals, q, cfg), s, cfg)
  {
    if intervals != [] {
      var front, last := intervals[..|intervals| - 1], intervals[|intervals| - 1];
      assert intervals == front + [last];
      RowReaches(e, row, front, q, s, cfg);
      RowUntouched(row, front, q, last);
      OneMoreInterval(e, row, front, last, RowCloses(row, front, q, s), q, s, cfg);
    }
  }

  lemma {:induction false} OneMoreInterval(e: Engine, row: Row, front: seq<Interval>, last: Interval,
                                           a: seq<BuiltCandle>, q: Quote,
                        s: Symbol, cfg: Config)
    requires e.active && e.date.Some? && s in e.states
    requires last in row && cfg.interval in row && last !in front
    requires Reaches(e, a, ReachingBars(row, front, q, cfg), s, cfg)
    ensures Reaches(e, a + Tagged(s, last, ClosedBy(row[last], q)), ReachingBars(row, front + [last], q, cfg), s, cfg)
  {
    if last == cfg.interval {
      ReachesAfterNothing(e, a, ClosedBy(row[last], q), s, cfg);
    } else {
      ReachesBeforeForeign(e, a, ReachingBars(row, front, q, cfg), last, ClosedBy(row[last], q), s, cfg);
    }
  }

  lemma {:induction false} ReachesAfterNothing(e: Engine, a: seq<BuiltCandle>, closed: seq<Bar>, s: Symbol, cfg: Config)
    requires e.active && e.date.Some? && s in e.states && |closed| <= 1
    requires Reaches(e, a, [], s, cfg)
    ensures Reaches(e, a + Tagged(s, cfg.interval, closed), closed, s, cfg)
  {
    var b := Tagged(s, cfg.interval, closed);
    var (m, x) := Forward(e, a, cfg);
    ForwardConcat(e, a, b, cfg);
    SignalsOfConcat(x, Forward(m, b, cfg).1, s);
    LastReaches(m, closed, s, cfg);
  }

  lemma {:induction false} ReachesBeforeForeign(e: Engine, a: seq<BuiltCandle>, closed: seq<Bar>, other: Interval,
                                                more: seq<Bar>,
                             s: Symbol, cfg: Config)
    requires e.active && e.date.Some? && s in e.states && |closed| <= 1
    requires other != cfg.interval && Reaches(e, a, closed, s, cfg)
    ensures Reaches(e, a + Tagged(s, other, more), closed, s, cfg)
  {
    var b := Tagged(s, other, more);
    var (m, x) := Forward(e, a, cfg);
    ForwardConcat(e, a, b, cfg);
    SignalsOfConcat(x, Forward(m, b, cfg).1, s);
    ForeignCandles(m, b, cfg, s);
    assert SignalsOf(x, s) + [] == SignalsOf(x, s);
  }

  lemma {:induction false} LastReaches(e: Engine, closed: seq<Bar>, s: Symbol, cfg: Config)
    requires |closed| <= 1
    requires e.active && e.date.Some? && Keyed(e) && s in e.states
    ensures Reaches(e, Tagged(s, cfg.interval, closed), closed, s, cfg)
  {
    var cs := Tagged(s, cfg.interval, closed);
    if closed != [] {
      var c := BuiltCandle(s, cfg.interval, closed[0]);
      assert cs == [c] && cs[..0] == [];
      OneCandle(e, c, cfg, s);
      var signal := Step(e, OnCandle(c), cfg).1;
      if signal.Some? {
        assert [signal.value][..0] == [];
      }
    }
  }

  /** A freshly started symbol: watched, nothing bucketed, nothing captured or locked. */
  ghost predicate ReadyFor(m: Market, s: Symbol, setup: Setup) {
    && m.running && m.signals.active && m.signals.date.Some? && s in m.watchlist
    && Keyed(m.signals) && s in m.signals.states
    && m.signals.states[s].range.None? && !m.signals.states[s].locked
    && (s in m.builder.rows ==> m.builder.rows[s] == EmptyRow(setup.intervals))
  }

  /** A symbol started with a fresh record, whose bucket still holds what the quotes `earlier` left in it. */
  ghost predicate RestartedFor(m: Market, s: Symbol, setup: Setup, earlier: seq<Quote>) {
    && m.running && m.signals.active && m.signals.date.Some? && s in m.watchlist
    && Keyed(m.signals) && s in m.signals.states
    && m.signals.states[s].range.None? && !m.signals.states[s].locked
    && Bucketed(m, s, setup, Tracked(earlier, setup.cfg.interval))
  }

  ghost predicate Bucketed(m: Market, s: Symbol, setup: Setup, bars: seq<Bar>) {
    if s in m.builder.rows && setup.cfg.interval in m.builder.rows[s]
    then m.builder.rows[s][setup.cfg.interval] == LastOf(bars) else bars == []
  }

  /** The bars that later quotes closed. */
  function ClosedSince(earlier: seq<Quote>, qs: seq<Quote>, i: Interval): seq<Bar> {
    var before, all := ClosedBars(Tracked(earlier, i)), ClosedBars(Tracked(earlier + qs, i));
    if |before| <= |all| then all[|before|..] else []
  }

  lemma {:induction false} ClosedSinceAppend(earlier: seq<Quote>, qs: seq<Quote>, q: Quote, i: Interval)
    requires |ClosedBars(Tracked(earlier, i))| <= |ClosedBars(Tracked(earlier + qs, i))|
    ensures |ClosedBars(Tracked(earlier, i))| <= |ClosedBars(Tracked(earlier + (qs + [q]), i))|
    ensures ClosedSince(earlier, qs + [q], i)
            == ClosedSince(earlier, qs, i) + ClosedBy(LastOf(Tracked(earlier + qs, i)), q)
    ensures LastOf(Tracked(earlier + (qs + [q]), i))
            == Some(BarAfter(LastOf(Tracked(earlier + qs, i)), q, SlotOf(q, i), Width(i)))
  {
    var bars := Tracked(earlier + qs, i);
    assert earlier + (qs + [q]) == earlier + qs + [q];
    TrackedAppend(earlier + qs, q, i);
    AdvanceEmits(bars, q, SlotOf(q, i), Width(i));
    DropAppend(ClosedBars(bars), ClosedBy(LastOf(bars), q), |ClosedBars(Tracked(earlier, i))|);
  }

  lemma {:induction false} DropAppend(all: seq<Bar>, more: seq<Bar>, n: nat)
    requires n <= |all|
    ensures (all + more)[n..] == all[n..] + more
  {
  }

  lemma {:induction false} SinceNothing(qs: seq<Quote>, i: Interval)
    ensures ClosedSince([], qs, i) == ClosedBars(Tracked(qs, i))
  {
    assert [] + qs == qs;
    assert Tracked([], i) == [];
  }

  /** The symbol's bucket and record are those of its own quotes alone. */
  ghost predicate Mirrors(m: Market, signals: seq<Signal>, init: Market, earlier: seq<Quote>, qs: seq<Quote>, s: Symbol,
                          setup: Setup)
    requires s in init.signals.states && init.signals.date.Some?
  {
    var i := setup.cfg.interval;
    && m.running && m.signals.active && m.watchlist == init.watchlist && m.signals.date == init.signals.date
    && Keyed(m.signals) && s in m.signals.states
    && Bucketed(m, s, setup, Tracked(earlier + qs, i))
    && |ClosedBars(Tracked(earlier, i))| <= |ClosedBars(Tracked(earlier + qs, i))|
    && Part(m.signals, signals, s)
       == CandleRun(init.signals.states[s], ClosedSince(earlier, qs, i), init.signals.date.value, setup.cfg)
  }

  lemma {:induction false} CandleRunAppend(st: SymbolState, bars: seq<Bar>, closed: seq<Bar>, date: int, cfg: Config)
    requires |closed| <= 1
    ensures var (before, signals) := CandleRun(st, bars, date, cfg);
            var (after, more) := BarsReach(before, closed, st.symbol, date, cfg);
            CandleRun(st, bars + closed, date, cfg) == (after, signals + more)
  {
    var (before, signals) := CandleRun(st, bars, date, cfg);
    assert signals + [] == signals;
    if closed == [] {
      assert bars + closed == bars;
    } else {
      CandleRunKeeps(st, bars, date, cfg);
      assert (bars + closed)[..|bars|] == bars;
    }
  }

  lemma {:induction false} CandleRunKeeps(st: SymbolState, bars: seq<Bar>, date: int, cfg: Config)
    ensures CandleRun(st, bars, date, cfg).0.symbol == st.symbol
  {
    if bars != [] {
      CandleRunKeeps(st, bars[..|bars| - 1], date, cfg);
    }
  }

  lemma {:induction false} TickMirrors(m: Market, signals: seq<Signal>, init: Market, earlier: seq<Quote>,
                                       qs: seq<Quote>, s: Symbol,
                    f: Feed, setup: Setup)
    requires Sound(m, setup) && Distinct(setup.intervals) && setup.cfg.interval in setup.intervals
    requires s in init.signals.states && init.signals.date.Some? && init.signals.states[s].symbol == s
    requires s in m.watchlist && Mirrors(m, signals, init, earlier, qs, s, setup)
    requires f.tick.symbol == s && Admitted(f.tick, f.now, setup.respectHours).Some?
    ensures var (m', more) := FeedStep(m, f, setup);
            var q := Admitted(f.tick, f.now, setup.respectHours).value;
            Mirrors(m', signals + more, init, earlier, qs + [q], s, setup)
  {
    var i, q := setup.cfg.interval, Admitted(f.tick, f.now, setup.respectHours).value;
    var row := Registered(m.builder.rows, s, setup.intervals)[s];
    var bars := Tracked(earlier + qs, i);
    var (m', more) := FeedStep(m, f, setup);
    assert row[i] == LastOf(bars);
    RowAt(row, setup.intervals, q, i);
    RowReaches(m.signals, row, setup.intervals, q, s, setup.cfg);
    ClosedSinceAppend(earlier, qs, q, i);
    CandleRunAppend(init.signals.states[s], ClosedSince(earlier, qs, i), ClosedBy(LastOf(bars), q),
                    init.signals.date.value, setup.cfg);
    SignalsOfConcat(signals, more, s);
  }

  lemma {:induction false} ForeignMirrors(m: Market, signals: seq<Signal>, init: Market, earlier: seq<Quote>,
                                          qs: seq<Quote>, s: Symbol,
                       f: Feed, setup: Setup)
    requires Sound(m, setup)
    requires s in init.signals.states && init.signals.date.Some?
    requires Mirrors(m, signals, init, earlier, qs, s, setup)
    requires f.tick.symbol != s || Admitted(f.tick, f.now, setup.respectHours).None?
    ensures var (m', more) := FeedStep(m, f, setup);
            Mirrors(m', signals + more, init, earlier, qs, s, setup)
  {
    ForeignFeed(m, f, s, setup);
    var more := FeedStep(m, f, setup).1;
    SignalsOfConcat(signals, more, s);
    assert SignalsOf(signals, s) + [] == SignalsOf(signals, s);
  }

  /** A tick that is not an accepted one of the symbol changes nothing about it. */
  lemma {:induction false} ForeignFeed(m: Market, f: Feed, s: Symbol, setup: Setup)
    requires Sound(m, setup)
    requires m.running && m.signals.active && Keyed(m.signals) && s in m.signals.states
    requires f.tick.symbol != s || Admitted(f.tick, f.now, setup.respectHours).None?
    ensures var (m', more) := FeedStep(m, f, setup);
            && m'.running && m'.signals.active && m'.watchlist == m.watchlist && m'.signals.date == m.signals.date
            && Keyed(m'.signals) && s in m'.signals.states && m'.signals.states[s] == m.signals.states[s]
            && (s in m'.builder.rows <==> s in m.builder.rows)
            && (s in m.builder.rows ==> m'.builder.rows[s] == m.builder.rows[s])
            && SignalsOf(more, s) == []
  {
    var q := Admitted(f.tick, f.now, setup.respectHours);
    if f.tick.symbol in m.watchlist && q.Some? {
      var row := Registered(m.builder.rows, f.tick.symbol, setup.intervals)[f.tick.symbol];
      TaggedSymbols(row, setup.intervals, q.value, f.tick.symbol);
      ForeignCandles(m.signals, RowCloses(row, setup.intervals, q.value, f.tick.symbol), setup.cfg, s);
    } else {
      assert Forward(m.signals, [], setup.cfg) == (m.signals, []);
    }
  }

  lemma {:induction false} RunMirrors(m: Market, feeds: seq<Feed>, s: Symbol, setup: Setup, earlier: seq<Quote>)
    requires Sound(m, setup) && Distinct(setup.intervals) && setup.cfg.interval in setup.intervals
    requires RestartedFor(m, s, setup, earlier)
    ensures var (r, signals) := FeedRun(m, feeds, setup);
            Mirrors(r, signals, m, earlier, QuotesOf(feeds, s, setup.respectHours), s, setup)
  {
    if feeds == [] {
      assert earlier + [] == earlier;
    } else {
      var front, f := feeds[..|feeds| - 1], feeds[|feeds| - 1];
      RunMirrors(m, front, s, setup, earlier);
      var (before, signals) := FeedRun(m, front, setup);
      var qs := QuotesOf(front, s, setup.respectHours);
      if f.tick.symbol == s && Admitted(f.tick, f.now, setup.respectHours).Some? {
        TickMirrors(before, signals, m, earlier, qs, s, f, setup);
      } else {
        ForeignMirrors(before, signals, m, earlier, qs, s, f, setup);
      }
    }
  }

  /**
   End to end: for any interleaving of ticks of any symbols, sane or not, in order or
   not, the signals a watched symbol gets are those of the batch definition over the
   candles its own accepted quotes closed since the start. A start in mid-session keeps the
   bucket in progress, which holds what the quotes `earlier` left in it.
   */
  lemma {:induction false} RestartIsBatch(m: Market, feeds: seq<Feed>, s: Symbol, setup: Setup, earlier: seq<Quote>)
    requires Sound(m, setup) && Distinct(setup.intervals) && setup.cfg.interval in setup.intervals
    requires RestartedFor(m, s, setup, earlier)
    ensures var bars := ClosedSince(earlier, QuotesOf(feeds, s, setup.respectHours), setup.cfg.interval);
            SignalsOf(FeedRun(m, feeds, setup).1, s) ==
            AsList(Batch(m.signals.states[s], bars, m.signals.date.value, setup.cfg))
  {
    RunMirrors(m, feeds, s, setup, earlier);
    RunIsBatch(m.signals.states[s], ClosedSince(earlier, QuotesOf(feeds, s, setup.respectHours), setup.cfg.interval),
               m.signals.date.value, setup.cfg);
  }

  /** The same from empty buckets: the batch is over all the closed candles of the symbol's quotes. */
  lemma {:induction false} PipelineIsBatch(m: Market, feeds: seq<Feed>, s: Symbol, setup: Setup)
    requires Sound(m, setup) && Distinct(setup.intervals) && setup.cfg.interval in setup.intervals
    requires ReadyFor(m, s, setup)
    ensures var bars := ClosedBars(Tracked(QuotesOf(feeds, s, setup.respectHours), setup.cfg.interval));
            SignalsOf(FeedRun(m, feeds, setup).1, s) ==
            AsList(Batch(m.signals.states[s], bars, m.signals.date.value, setup.cfg))
  {
    var qs := QuotesOf(feeds, s, setup.respectHours);
    ReadyIsRestarted(m, s, setup);
    RestartIsBatch(m, feeds, s, setup, []);
    SinceNothing(qs, setup.cfg.interval);
  }

  lemma {:induction false} ReadyIsRestarted(m: Market, s: Symbol, setup: Setup)
    requires ReadyFor(m, s, setup)
    ensures RestartedFor(m, s, setup, [])
  {
    assert Tracked([], setup.cfg.interval) == [];
  }

  lemma {:induction false} OwnSignals(signals: seq<Signal>, sig: Signal)
    requires sig in signals
    ensures sig in SignalsOf(signals, sig.symbol)
  {
    var k := |signals| - 1;
    assert signals == signals[..k] + [signals[k]];
    if sig in signals[..k] {
      OwnSignals(signals[..k], sig);
    }
  }

  /**
   Late ticks and a kept bucket included, every signal a feed of ticks produces for a symbol
   started with a fresh record has its stop and its entry on opposite sides of the opening range.
   */
  lemma {:induction false} FeedSignalsStraddle(m: Market, feeds: seq<Feed>, sig: Signal, setup: Setup, earlier: seq<Quote>)
    requires Sound(m, setup) && Distinct(setup.intervals) && setup.cfg.interval in setup.intervals
    requires RestartedFor(m, sig.symbol, setup, earlier) && sig in FeedRun(m, feeds, setup).1
    ensures Straddles(sig)
  {
    var s := sig.symbol;
    var qs := QuotesOf(feeds, s, setup.respectHours);
    RestartIsBatch(m, feeds, s, setup, earlier);
    OwnSignals(FeedRun(m, feeds, setup).1, sig);
    BarsAreSane(earlier + qs, setup.cfg.interval);
    BatchStraddles(m.signals.states[s], ClosedSince(earlier, qs, setup.cfg.interval), m.signals.date.value, setup.cfg);
  }

  /** A stopped engine turns no candle into a signal. */
  lemma {:induction false} ForwardInactive(e: Engine, cs: seq<BuiltCandle>, cfg: Config)
    requires !e.active
    ensures Forward(e, cs, cfg) == (e, [])
  {
    if cs != [] {
      ForwardInactive(e, cs[..|cs| - 1], cfg);
    }
  }

  function AllRegistered(rows: map<Symbol, Row>, shortlist: seq<Candidate>, intervals: seq<Interval>): map<Symbol, Row> {
    if shortlist == [] then rows else
      Registered(AllRegistered(rows, shortlist[..|shortlist| - 1], intervals),
                 shortlist[|shortlist| - 1].symbol, intervals)
  }

  /** The hub after a start. */
  function Started(m: Market, shortlist: seq<Candidate>, date: int, setup: Setup): Market
    requires Sound(m, setup)
  {
    m.(running := true, watchlist := set c | c in shortlist :: c.symbol,
       builder := m.builder.(rows := AllRegistered(m.builder.rows, shortlist, setup.intervals)),
       signals := Step(m.signals, Activate(date, shortlist), setup.cfg).0)
  }

  /** Of the shortlist entries of a symbol, the last one. */
  ghost predicate IsLastEntry(shortlist: seq<Candidate>, c: Candidate) {
    exists k :: 0 <= k < |shortlist| && shortlist[k] == c
                && forall j :: k < j < |shortlist| ==> shortlist[j].symbol != c.symbol
  }

  lemma {:induction false} SeededFrom(shortlist: seq<Candidate>, k: nat)
    requires k < |shortlist| && forall j :: k < j < |shortlist| ==> shortlist[j].symbol != shortlist[k].symbol
    ensures var s := shortlist[k].symbol;
            s in Seeded(shortlist) && Seeded(shortlist)[s] == Fresh(shortlist[k])
  {
    var n := |shortlist| - 1;
    if k < n {
      assert shortlist[n].symbol != shortlist[k].symbol;
      SeededFrom(shortlist[..n], k);
    }
  }

  lemma {:induction false} SeededIsKeyed(shortlist: seq<Candidate>)
    ensures forall s :: s in Seeded(shortlist) ==> Seeded(shortlist)[s].symbol == s
  {
    if shortlist != [] {
      SeededIsKeyed(shortlist[..|shortlist| - 1]);
    }
  }

  lemma {:induction false} RegistrationKeeps(rows: map<Symbol, Row>, shortlist: seq<Candidate>, intervals: seq<Interval>,
                                             s: Symbol)
    ensures var after := AllRegistered(rows, shortlist, intervals);
            && (s in rows ==> s in after && after[s] == rows[s])
            && (s !in rows && s in after ==> after[s] == EmptyRow(intervals))
  {
    if shortlist != [] {
      RegistrationKeeps(rows, shortlist[..|shortlist| - 1], intervals, s);
    }
  }

  /**
   A start leaves every shortlisted symbol watched and with a fresh record of its last entry, whatever
   its bucket holds; with an empty bucket it is ready.
   */
  lemma {:induction false} StartIsReady(m: Market, shortlist: seq<Candidate>, date: int, c: Candidate, setup: Setup)
    requires Sound(m, setup) && IsLastEntry(shortlist, c)
    ensures var after := Started(m, shortlist, date, setup);
            && Sound(after, setup) && c.symbol in after.signals.states && after.signals.date == Some(date)
            && after.signals.states[c.symbol] == Fresh(c) && Fresh(c).symbol == c.symbol && Fresh(c).candidate == c
            && ((c.symbol in m.builder.rows ==> m.builder.rows[c.symbol] == EmptyRow(setup.intervals))
                ==> ReadyFor(after, c.symbol, setup))
            && forall earlier: seq<Quote> :: Bucketed(m, c.symbol, setup, Tracked(earlier, setup.cfg.interval))
                 ==> RestartedFor(after, c.symbol, setup, earlier)
  {
    var k :| 0 <= k < |shortlist| && shortlist[k] == c && forall j :: k < j < |shortlist| ==> shortlist[j].symbol != c.symbol;
    SeededFrom(shortlist, k);
    SeededIsKeyed(shortlist);
    forall s
      ensures var after := AllRegistered(m.builder.rows, shortlist, setup.intervals);
              && (s in m.builder.rows ==> s in after && after[s] == m.builder.rows[s])
              && (s !in m.builder.rows && s in after ==> after[s] == EmptyRow(setup.intervals))
    {
      RegistrationKeeps(m.builder.rows, shortlist, setup.intervals, s);
    }
  }

  /** What the hub's counters count in a run: watched ticks, the others, and closed candles. */
  lemma {:induction false} HubCountersCount(m: Market, feeds: seq<Feed>, setup: Setup)
    requires Sound(m, setup) && m.running
    ensures var r := FeedRun(m, feeds, setup).0;
            && r.running && r.watchlist == m.watchlist
            && r.ticksReceived == m.ticksReceived + |Watched(feeds, m.watchlist)|
            && r.ticksDropped == m.ticksDropped + |feeds| - |Watched(feeds, m.watchlist)|
            && r.candlesForwarded - m.candlesForwarded == r.builder.candles - m.builder.candles
  {
    if feeds == [] {
      assert Watched(feeds, m.watchlist) == {};
    } else {
      var n := |feeds| - 1;
      HubCountersCount(m, feeds[..n], setup);
      FeedStepCounts(FeedRun(m, feeds[..n], setup).0, feeds[n], setup);
      WatchedNext(feeds, m.watchlist);
    }
  }

  /** The ticks of the feed that are for a watched symbol. */
  ghost function Watched(feeds: seq<Feed>, watchlist: set<Symbol>): set<nat> {
    set k: nat | k < |feeds| && feeds[k].tick.symbol in watchlist
  }

  lemma {:induction false} WatchedNext(feeds: seq<Feed>, watchlist: set<Symbol>)
    requires feeds != []
    ensures var n := |feeds| - 1;
            |Watched(feeds, watchlist)|
            == |Watched(feeds[..n], watchlist)| + if feeds[n].tick.symbol in watchlist then 1 else 0
  {
    var n := |feeds| - 1;
    var before := Watched(feeds[..n], watchlist);
    assert Watched(feeds, watchlist) == before + if feeds[n].tick.symbol in watchlist then {n} else {};
    assert n !in before;
  }

  lemma {:induction false} FeedStepCounts(m: Market, f: Feed, setup: Setup)
    requires Sound(m, setup) && m.running
    ensures var r := FeedStep(m, f, setup).0;
            var one := if f.tick.symbol in m.watchlist then 1 else 0;
            && r.running && r.watchlist == m.watchlist
            && r.ticksReceived == m.ticksReceived + one && r.ticksDropped == m.ticksDropped + 1 - one
            && r.candlesForwarded - m.candlesForwarded == r.builder.candles - m.builder.candles
  {
  }

  /** What a step on a watched symbol of a running hub comes to, part by part. */
  lemma {:induction false} ServedFeed(m: Market, f: Feed, setup: Setup, closed: seq<BuiltCandle>, after: Market,
                                      emitted: seq<Signal>)
    requires Sound(m, setup) && m.running && f.tick.symbol in m.watchlist
    requires closed == TickCloses(m.builder, f.tick, f.now, setup.intervals, setup.respectHours)
    requires (after.signals, emitted) == Forward(m.signals, closed, setup.cfg)
    requires after == m.(builder := TickedState(m.builder, f.tick, f.now, setup.intervals, setup.respectHours),
                         signals := after.signals, ticksReceived := m.ticksReceived + 1,
                         candlesForwarded := m.candlesForwarded + |closed|)
    ensures (after, emitted) == FeedStep(m, f, setup)
  {
  }

  /** A step of a stopped hub, or on a symbol it does not watch. */
  lemma {:induction false} IdleFeed(m: Market, f: Feed, setup: Setup)
    requires Sound(m, setup) && (!m.running || f.tick.symbol !in m.watchlist)
    ensures FeedStep(m, f, setup) == (if m.running then m.(ticksDropped := m.ticksDropped + 1) else m, [])
  {
  }

  // ---- The hub in place ---------------------------------------------------

  class LiveMarketEngine {
    const builder: CandleBuilder
    const signals: SignalEngine
    var running: bool
    var watchlist: set<Symbol>
    var ticksReceived: nat
    var ticksDropped: nat
    var candlesForwarded: nat

    ghost predicate Valid()
      reads this, builder, signals, signals.states.Values
    {
      builder.Valid() && signals.Valid()
    }

    ghost function View(): Market
      reads this, builder, signals
    {
      Market(running, watchlist, builder.View(), signals.View(), ticksReceived, ticksDropped, candlesForwarded)
    }

    ghost function Fixed(): Setup {
      Setup(builder.intervals, builder.respectHours, signals.cfg)
    }

    constructor (builder: CandleBuilder, signals: SignalEngine)
      requires builder.Valid() && signals.Valid()
      ensures Valid() && this.builder == builder && this.signals == signals
      ensures View() == Market(false, {}, builder.View(), signals.View(), 0, 0, 0)
    {
      this.builder, this.signals := builder, signals;
      running, watchlist := false, {};
      ticksReceived, ticksDropped, candlesForwarded := 0, 0, 0;
    }

    lemma {:induction false} ViewIsSound()
      requires Valid()
      ensures Sound(View(), Fixed())
    {
    }

    method Start(shortlist: seq<Candidate>, date: int)
      requires Valid()
      modifies this, builder, signals
      ensures Valid() && fresh(signals.states.Values)
      ensures Sound(old(View()), Fixed()) && View() == Started(old(View()), shortlist, date, Fixed())
    {
      ViewIsSound();
      watchlist := set c | c in shortlist :: c.symbol;
      for n := 0 to |shortlist|
        modifies builder`buckets
        invariant builder.Valid()
        invariant builder.buckets == AllRegistered(old(builder.buckets), shortlist[..n], builder.intervals)
      {
        assert shortlist[..n + 1][..n] == shortlist[..n];
        builder.RegisterSymbol(shortlist[n].symbol);
      }
      assert shortlist[..|shortlist|] == shortlist;
      signals.Activate(date, shortlist);
      running := true;
    }

    /** Deactivates first, so the candles the flush closes are forwarded in vain. */
    method Stop(order: seq<Symbol>) returns (emitted: seq<Signal>)
      requires Valid() && forall s :: s in builder.buckets <==> s in order
      modifies this, builder, signals, signals.states.Values
      ensures Valid()
      ensures emitted == []
      ensures if !old(running) then View() == old(View()) else
              && !running && watchlist == old(watchlist)
              && View().signals == old(View()).signals.(active := false)
              && View().builder.rows == FlushedRows(old(View()).builder.rows, builder.intervals, order)
              && candlesForwarded == old(candlesForwarded) + |FlushSequence(old(View()).builder.rows, builder.intervals, order)|
    {
      emitted := [];
      if !running {
        return;
      }
      signals.Deactivate();
      emitted := Drain(order);
      running := false;
    }

    /** Flushes every bucket past a deactivated signal engine. */
    method Drain(order: seq<Symbol>) returns (emitted: seq<Signal>)
      requires Valid() && !signals.active && forall s :: s in builder.buckets <==> s in order
      modifies this`candlesForwarded, builder`buckets, builder`candlesEmitted
      modifies signals`values, signals`candlesSeen, signals`signalsEmitted, signals.states.Values
      ensures Valid() && emitted == [] && signals.View() == old(signals.View())
      ensures builder.buckets == FlushedRows(old(builder.buckets), builder.intervals, order)
      ensures candlesForwarded == old(candlesForwarded) + |FlushSequence(old(builder.buckets), builder.intervals, order)|
    {
      var closed := builder.FlushAll(order);
      emitted := ForwardAll(closed);
      ForwardInactive(old(signals.View()), closed, signals.cfg);
    }

    /** Hands every closed candle to the callback. */
    method ForwardAll(closed: seq<BuiltCandle>) returns (emitted: seq<Signal>)
      requires signals.Valid()
      modifies this`candlesForwarded, signals`values, signals`candlesSeen, signals`signalsEmitted, signals.states.Values
      ensures signals.Valid()
      ensures (signals.View(), emitted) == Forward(old(signals.View()), closed, signals.cfg)
      ensures candlesForwarded == old(candlesForwarded) + |closed|
    {
      emitted := [];
      for n := 0 to |closed|
        invariant signals.Valid()
        invariant (signals.View(), emitted) == Forward(old(signals.View()), closed[..n], signals.cfg)
        invariant candlesForwarded == old(candlesForwarded) + n
      {
        assert closed[..n + 1][..n] == closed[..n];
        var signal := OnClosedCandle(closed[n]);
        if signal.Some? {
          emitted := emitted + [signal.value];
        }
      }
      assert closed[..|closed|] == closed;
    }

    /** The callback on one closed candle. */
    method OnClosedCandle(candle: BuiltCandle) returns (signal: Option<Signal>)
      requires signals.Valid()
      modifies this`candlesForwarded, signals`values, signals`candlesSeen, signals`signalsEmitted, signals.states.Values
      ensures signals.Valid()
      ensures (signals.View(), signal) == Step(old(signals.View()), OnCandle(candle), signals.cfg)
      ensures candlesForwarded == old(candlesForwarded) + 1
    {
      candlesForwarded := candlesForwarded + 1;
      signal := signals.OnCandle(candle);
    }

    method AddSymbol(c: Candidate)
      requires Valid()
      modifies this`watchlist, builder, signals
      ensures Valid() && fresh(signals.states.Values - old(signals.states.Values))
      ensures View() == if c.symbol in old(watchlist) then old(View()) else
                old(View()).(
                  watchlist := old(watchlist) + {c.symbol},
                  builder := old(View()).builder.(rows := Registered(old(View()).builder.rows, c.symbol, builder.intervals)),
                  signals := Step(old(View()).signals, Add(c), signals.cfg).0)
    {
      if c.symbol in watchlist {
        return;
      }
      watchlist := watchlist + {c.symbol};
      builder.RegisterSymbol(c.symbol);
      signals.AddCandidate(c);
    }

    method RemoveSymbol(symbol: Symbol)
      requires Valid()
      modifies this`watchlist, builder
      ensures Valid()
      ensures View() == old(View()).(watchlist := old(watchlist) - {symbol},
                                     builder := old(View()).builder.(rows := old(View()).builder.rows - {symbol}))
    {
      watchlist := watchlist - {symbol};
      builder.UnregisterSymbol(symbol);
    }

    method FeedTick(tick: Tick, now: Instant) returns (closed: seq<BuiltCandle>, emitted: seq<Signal>)
      requires Valid()
      modifies this, builder, signals, signals.states.Values
      ensures Valid()
      ensures Sound(old(View()), Fixed())
      ensures (View(), emitted) == FeedStep(old(View()), Feed(tick, now), Fixed())
    {
      closed, emitted := [], [];
      ghost var before := View();
      ViewIsSound();
      if !running {
        IdleFeed(before, Feed(tick, now), Fixed());
        return;
      }
      if tick.symbol !in watchlist {
        IdleFeed(before, Feed(tick, now), Fixed());
        ticksDropped := ticksDropped + 1;
        return;
      }
      closed, emitted := ServeWatched(tick, now);
      ServedFeed(before, Feed(tick, now), Fixed(), closed, View(), emitted);
    }

    method ServeWatched(tick: Tick, now: Instant) returns (closed: seq<BuiltCandle>, emitted: seq<Signal>)
      requires Valid()
      modifies this`candlesForwarded, this`ticksReceived, builder
      modifies signals`values, signals`candlesSeen, signals`signalsEmitted, signals.states.Values
      ensures Valid()
      ensures closed == TickCloses(old(builder.View()), tick, now, builder.intervals, builder.respectHours)
      ensures (signals.View(), emitted) == Forward(old(signals.View()), closed, signals.cfg)
      ensures View() == old(View()).(
                builder := TickedState(old(builder.View()), tick, now, builder.intervals, builder.respectHours),
                signals := signals.View(), ticksReceived := old(ticksReceived) + 1,
                candlesForwarded := old(candlesForwarded) + |closed|)
    {
      closed, emitted := ServeTick(tick, now);
      ticksReceived := ticksReceived + 1;
    }

    /** The builder, then the signal engine on whatever the builder closed. */
    method ServeTick(tick: Tick, now: Instant) returns (closed: seq<BuiltCandle>, emitted: seq<Signal>)
      requires Valid()
      modifies this`candlesForwarded, builder
      modifies signals`values, signals`candlesSeen, signals`signalsEmitted, signals.states.Values
      ensures Valid()
      ensures closed == TickCloses(old(builder.View()), tick, now, builder.intervals, builder.respectHours)
      ensures builder.View() == TickedState(old(builder.View()), tick, now, builder.intervals, builder.respectHours)
      ensures (signals.View(), emitted) == Forward(old(signals.View()), closed, signals.cfg)
      ensures candlesForwarded == old(candlesForwarded) + |closed|
    {
      closed := builder.OnTick(tick, now);
      emitted := ForwardAll(closed);
    }
  }
}
