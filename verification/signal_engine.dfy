/**
 The opening-range breakout engine: a per-symbol state machine over closed candles.
 The value-level steps come first, then what they guarantee over whole runs, then
 the engine object that performs them in place.
 */
module SignalEngines {
  import opened Wrappers
  import opened MarketClock
  import opened Candles

  datatype Candidate = Candidate(symbol: Symbol, probability: Option<real>, directionHint: Option<string>)

  datatype Config = Config(interval: Interval, maxRangePercent: real, latestEntry: int)

  datatype SignalType = Buy | Sell

  datatype Signal = Signal(symbol: Symbol, tradingDate: int, kind: SignalType,
                           entryPrice: real, stopLoss: real,
                           rangeHigh: real, rangeLow: real, rangePercent: real,
                           breakoutTime: Instant, probability: Option<real>)

  /** The four fields the engine sets together when it captures the first candle. */
  datatype OpeningRange = OpeningRange(candle: BuiltCandle, high: real, low: real, percent: real)

  datatype SymbolState = SymbolState(symbol: Symbol, candidate: Candidate,
                                     range: Option<OpeningRange>, skipped: bool,
                                     locked: bool, emittedAt: Option<Instant>)

  function Fresh(c: Candidate): SymbolState {
    SymbolState(c.symbol, c, None, false, false, None)
  }

  predicate IsOpeningBar(b: Bar) {
    TimeOfDay(b.start) == MARKET_OPEN && TimeOfDay(b.end) == FIRST_CANDLE_CLOSE
  }

  predicate InEntryWindow(b: Bar, cfg: Config) {
    FIRST_CANDLE_CLOSE <= TimeOfDay(b.start) < cfg.latestEntry
  }

  function Captured(st: SymbolState, c: BuiltCandle, cfg: Config): SymbolState {
    st.(range := Some(OpeningRange(c, c.bar.high, c.bar.low, RangePercent(c.bar))),
        skipped := RangePercent(c.bar) > cfg.maxRangePercent)
  }

  function BuildSignal(st: SymbolState, r: OpeningRange, c: BuiltCandle, kind: SignalType, date: int): Signal {
    Signal(st.symbol, date, kind, c.bar.close, if kind.Buy? then r.low else r.high,
           r.high, r.low, r.percent, c.bar.end, st.candidate.probability)
  }

  /** One closed candle of the configured interval reaching a tracked symbol. */
  function CandleStep(st: SymbolState, c: BuiltCandle, date: int, cfg: Config): (SymbolState, Option<Signal>) {
    if st.range.None? then
      (if IsOpeningBar(c.bar) then Captured(st, c, cfg) else st, None)
    else if st.locked || st.skipped || !InEntryWindow(c.bar, cfg) then
      (st, None)
    else if c.bar.close > st.range.value.high then
      (st.(locked := true, emittedAt := Some(c.bar.end)),
       Some(BuildSignal(st, st.range.value, c, Buy, date)))
    else if c.bar.close < st.range.value.low then
      (st.(locked := true, emittedAt := Some(c.bar.end)),
       Some(BuildSignal(st, st.range.value, c, Sell, date)))
    else
      (st, None)
  }

  datatype Engine = Engine(active: bool, date: Option<int>, states: map<Symbol, SymbolState>,
                           candlesSeen: nat, signalsEmitted: nat)

  datatype Event =
    | Activate(date: int, shortlist: seq<Candidate>)
    | Deactivate
    | Add(candidate: Candidate)
    | LockSymbol(symbol: Symbol)
    | OnCandle(candle: BuiltCandle)

  function Seeded(shortlist: seq<Candidate>): map<Symbol, SymbolState> {
    if shortlist == [] then map[] else
      var c := shortlist[|shortlist| - 1];
      Seeded(shortlist[..|shortlist| - 1])[c.symbol := Fresh(c)]
  }

  predicate Listens(e: Engine, c: BuiltCandle, cfg: Config) {
    e.active && c.interval == cfg.interval && c.symbol in e.states
  }

  function Step(e: Engine, ev: Event, cfg: Config): (Engine, Option<Signal>)
    requires e.active ==> e.date.Some?
  {
    match ev
    case Activate(date, shortlist) =>
      (e.(active := true, date := Some(date), states := Seeded(shortlist)), None)
    case Deactivate =>
      (e.(active := false), None)
    case Add(c) =>
      var sym := c.symbol;
      (if !e.active || sym in e.states then e else e.(states := e.states[sym := Fresh(c)]), None)
    case LockSymbol(s) =>
      var sym := s;
      (if sym in e.states then e.(states := e.states[sym := e.states[sym].(locked := true)]) else e, None)
    case OnCandle(c) =>
      if !Listens(e, c, cfg) then (e, None) else
        var sym := c.symbol;
        var (st, signal) := CandleStep(e.states[sym], c, e.date.value, cfg);
        (e.(states := e.states[sym := st], candlesSeen := e.candlesSeen + 1,
            signalsEmitted := e.signalsEmitted + if signal.Some? then 1 else 0), signal)
  }

  // ---- One activation -----------------------------------------------------

  /** The engine just before event number k of a run. */
  function StateAt(e: Engine, evs: seq<Event>, cfg: Config, k: nat): (r: Engine)
    requires e.active ==> e.date.Some?
    requires k <= |evs|
    ensures r.active ==> r.date.Some?
  {
    if k == 0 then e else Step(StateAt(e, evs, cfg, k - 1), evs[k - 1], cfg).0
  }

  function Emitted(e: Engine, evs: seq<Event>, cfg: Config, k: nat): Option<Signal>
    requires e.active ==> e.date.Some?
    requires k < |evs|
  {
    Step(StateAt(e, evs, cfg, k), evs[k], cfg).1
  }

  /** One activation: whatever happens, no second Activate. */
  ghost predicate OneActivation(evs: seq<Event>) {
    forall k :: 0 <= k < |evs| ==> !evs[k].Activate?
  }

  ghost predicate Keyed(e: Engine) {
    forall s :: s in e.states ==> e.states[s].symbol == s
  }

  /** Nothing captured, locked or skipped is ever undone. */
  ghost predicate Remembers(before: Engine, after: Engine) {
    && before.date == after.date
    && before.signalsEmitted <= after.signalsEmitted
    && forall s :: s in before.states ==>
         && s in after.states
         && (before.states[s].locked ==> after.states[s].locked)
         && (before.states[s].range.Some? ==>
               && after.states[s].range == before.states[s].range
               && after.states[s].skipped == before.states[s].skipped)
  }

  lemma {:induction false} RunRemembers(e: Engine, evs: seq<Event>, cfg: Config, j: nat, k: nat)
    requires e.active ==> e.date.Some?
    requires OneActivation(evs) && Keyed(e)
    requires j <= k <= |evs|
    ensures Keyed(StateAt(e, evs, cfg, k))
    ensures Remembers(StateAt(e, evs, cfg, j), StateAt(e, evs, cfg, k))
    decreases k
  {
    if k > 0 {
      RunRemembers(e, evs, cfg, if j < k then j else 0, k - 1);
      StepRemembers(StateAt(e, evs, cfg, k - 1), evs[k - 1], cfg);
    }
  }

  lemma {:induction false} StepRemembers(e: Engine, ev: Event, cfg: Config)
    requires e.active ==> e.date.Some?
    requires !ev.Activate? && Keyed(e)
    ensures Keyed(Step(e, ev, cfg).0)
    ensures Remembers(e, Step(e, ev, cfg).0)
  {
  }

  lemma {:induction false} StepSignals(e: Engine, ev: Event, cfg: Config)
    requires e.active ==> e.date.Some?
    requires Keyed(e)
    requires Step(e, ev, cfg).1.Some?
    ensures var s := Step(e, ev, cfg).1.value.symbol;
            && s in e.states && !e.states[s].locked
            && s in Step(e, ev, cfg).0.states && Step(e, ev, cfg).0.states[s].locked
  {
  }

  /**
   Under any interleaving of candles, additions, locks and deactivations each symbol
   signals at most once, and never after it was locked from outside.
   */
  lemma {:induction false} OneShotPerSymbol(e: Engine, evs: seq<Event>, cfg: Config, j: nat, k: nat)
    requires e.active ==> e.date.Some?
    requires OneActivation(evs) && Keyed(e)
    requires j < k < |evs| && Emitted(e, evs, cfg, k).Some?
    ensures Emitted(e, evs, cfg, j).Some? ==>
              Emitted(e, evs, cfg, j).value.symbol != Emitted(e, evs, cfg, k).value.symbol
    ensures evs[j].LockSymbol? && evs[j].symbol in StateAt(e, evs, cfg, j).states ==>
              evs[j].symbol != Emitted(e, evs, cfg, k).value.symbol
  {
    RunRemembers(e, evs, cfg, 0, j);
    RunRemembers(e, evs, cfg, j + 1, k);
    var before, after := StateAt(e, evs, cfg, j), StateAt(e, evs, cfg, j + 1);
    assert after == Step(before, evs[j], cfg).0;
    StepSignals(StateAt(e, evs, cfg, k), evs[k], cfg);
    if Emitted(e, evs, cfg, j).Some? {
      StepSignals(before, evs[j], cfg);
    }
  }

  /** A symbol's range comes from an opening candle fed earlier in the run. */
  ghost predicate CapturedFrom(e: Engine, evs: seq<Event>, cfg: Config, k: nat, s: Symbol)
    requires e.active ==> e.date.Some?
    requires k <= |evs|
  {
    var st := StateAt(e, evs, cfg, k).states;
    s in st && st[s].range.Some? &&
    exists a: nat :: a < k && CapturesAt(evs, a, st[s], cfg)
  }

  predicate CapturesAt(evs: seq<Event>, a: nat, st: SymbolState, cfg: Config)
    requires a < |evs|
  {
    && evs[a].OnCandle? && evs[a].candle.symbol == st.symbol
    && evs[a].candle.interval == cfg.interval && IsOpeningBar(evs[a].candle.bar)
    && st.range == Some(OpeningRange(evs[a].candle, evs[a].candle.bar.high, evs[a].candle.bar.low,
                                     RangePercent(evs[a].candle.bar)))
    && st.skipped == (RangePercent(evs[a].candle.bar) > cfg.maxRangePercent)
  }

  lemma {:induction false} RangesAreCaptured(e: Engine, evs: seq<Event>, cfg: Config, k: nat, s: Symbol)
    requires e.active ==> e.date.Some?
    requires OneActivation(evs) && Keyed(e)
    requires forall t :: t in e.states ==> e.states[t].range.None?
    requires k <= |evs|
    requires s in StateAt(e, evs, cfg, k).states && StateAt(e, evs, cfg, k).states[s].range.Some?
    ensures CapturedFrom(e, evs, cfg, k, s)
  {
    if k > 0 {
      var before, after := StateAt(e, evs, cfg, k - 1), StateAt(e, evs, cfg, k);
      RunRemembers(e, evs, cfg, 0, k - 1);
      RunRemembers(e, evs, cfg, 0, k);
      if s in before.states && before.states[s].range.Some? {
        RangesAreCaptured(e, evs, cfg, k - 1, s);
        StepRemembers(before, evs[k - 1], cfg);
        var a: nat :| a < k - 1 && CapturesAt(evs, a, before.states[s], cfg);
        assert CapturesAt(evs, a, after.states[s], cfg);
      } else {
        StepCaptures(before, evs, k - 1, cfg, s);
      }
    }
  }

  lemma {:induction false} StepCaptures(e: Engine, evs: seq<Event>, k: nat, cfg: Config, s: Symbol)
    requires e.active ==> e.date.Some?
    requires k < |evs| && !evs[k].Activate? && Keyed(e)
    requires s in e.states ==> e.states[s].range.None?
    requires s in Step(e, evs[k], cfg).0.states && Step(e, evs[k], cfg).0.states[s].range.Some?
    ensures CapturesAt(evs, k, Step(e, evs[k], cfg).0.states[s], cfg)
  {
  }

  /** The width of a range is its share of the low, in percent; a range without a positive low counts as flat. */
  predicate IsWidth(percent: real, high: real, low: real) {
    if low > 0.0 then percent * low == 100.0 * (high - low) else percent == 0.0
  }

  lemma {:induction false} RangePercentIsTheWidth(b: Bar)
    ensures IsWidth(RangePercent(b), b.high, b.low)
  {
    if b.low > 0.0 {
      assert (b.high - b.low) / b.low * b.low == b.high - b.low;
    }
  }

  /** What the two candles behind a signal look like. */
  ghost predicate Breakout(sig: Signal, opening: Bar, breaking: Bar, cfg: Config) {
    && TimeOfDay(opening.start) == 33_300_000_000 && TimeOfDay(opening.end) == 34_200_000_000
    && IsWidth(sig.rangePercent, opening.high, opening.low) && sig.rangePercent <= cfg.maxRangePercent
    && 34_200_000_000 <= TimeOfDay(breaking.start) < cfg.latestEntry
    && sig.rangeHigh == opening.high && sig.rangeLow == opening.low
    && sig.entryPrice == breaking.close && sig.breakoutTime == breaking.end
    && match sig.kind
       case Buy => sig.entryPrice > opening.high && sig.stopLoss == opening.low
       case Sell => sig.entryPrice < opening.low && sig.stopLoss == opening.high
  }

  ghost predicate JustifiedBy(sig: Signal, evs: seq<Event>, a: nat, k: nat, cfg: Config)
    requires a < k < |evs|
  {
    && evs[a].OnCandle? && evs[k].OnCandle?
    && evs[a].candle.symbol == sig.symbol == evs[k].candle.symbol
    && evs[a].candle.interval == cfg.interval == evs[k].candle.interval
    && Breakout(sig, evs[a].candle.bar, evs[k].candle.bar, cfg)
  }

  /**
   A signal comes only from an active engine, after an earlier opening candle of the
   same symbol whose range is within the limit, on a candle in the entry window that
   closes strictly outside that range; the stop is the other side of the range.
   */
  lemma {:induction false} SignalsAreJustified(e: Engine, evs: seq<Event>, cfg: Config, k: nat)
    requires e.active ==> e.date.Some?
    requires OneActivation(evs) && Keyed(e)
    requires forall t :: t in e.states ==> e.states[t].range.None?
    requires k < |evs| && Emitted(e, evs, cfg, k).Some?
    ensures StateAt(e, evs, cfg, k).active
    ensures exists a: nat :: a < k && JustifiedBy(Emitted(e, evs, cfg, k).value, evs, a, k, cfg)
  {
    var sig := Emitted(e, evs, cfg, k).value;
    RunRemembers(e, evs, cfg, 0, k);
    RangesAreCaptured(e, evs, cfg, k, sig.symbol);
    var st := StateAt(e, evs, cfg, k).states[sig.symbol];
    var a: nat :| a < k && CapturesAt(evs, a, st, cfg);
    RangePercentIsTheWidth(evs[a].candle.bar);
    assert JustifiedBy(sig, evs, a, k, cfg);
  }

  /** The stop and the entry lie on opposite sides of the opening range. */
  predicate Straddles(sig: Signal) {
    match sig.kind
    case Buy => sig.stopLoss <= sig.rangeHigh < sig.entryPrice
    case Sell => sig.entryPrice < sig.rangeLow <= sig.stopLoss
  }

  /** Over any interleaving of events whose candles are sane, every emitted signal straddles its range. */
  lemma {:induction false} SignalsStraddle(e: Engine, evs: seq<Event>, cfg: Config, k: nat)
    requires e.active ==> e.date.Some?
    requires OneActivation(evs) && Keyed(e)
    requires forall t :: t in e.states ==> e.states[t].range.None?
    requires forall j :: 0 <= j < |evs| && evs[j].OnCandle? ==> Sane(evs[j].candle.bar)
    requires k < |evs| && Emitted(e, evs, cfg, k).Some?
    ensures Straddles(Emitted(e, evs, cfg, k).value)
  {
    SignalsAreJustified(e, evs, cfg, k);
    var a: nat :| a < k && JustifiedBy(Emitted(e, evs, cfg, k).value, evs, a, k, cfg);
    assert Sane(evs[a].candle.bar);
  }

  // ---- What the engine counts ---------------------------------------------

  /** How many of the first `k` events emitted a signal. */
  function SignalCount(e: Engine, evs: seq<Event>, cfg: Config, k: nat): nat
    requires e.active ==> e.date.Some?
    requires k <= |evs|
  {
    if k == 0 then 0 else SignalCount(e, evs, cfg, k - 1) + if Emitted(e, evs, cfg, k - 1).Some? then 1 else 0
  }

  /** The event is a closed candle of the configured interval for a symbol tracked by the active engine. */
  predicate Hears(e: Engine, ev: Event, cfg: Config) {
    ev.OnCandle? && e.active && ev.candle.interval == cfg.interval && ev.candle.symbol in e.states
  }

  function CandleCount(e: Engine, evs: seq<Event>, cfg: Config, k: nat): nat
    requires e.active ==> e.date.Some?
    requires k <= |evs|
  {
    if k == 0 then 0 else
    CandleCount(e, evs, cfg, k - 1) + if Hears(StateAt(e, evs, cfg, k - 1), evs[k - 1], cfg) then 1 else 0
  }

  /** Over any run of events the engine's counters are the numbers of candles it heard and of signals it emitted. */
  lemma {:induction false} EngineCountersCount(e: Engine, evs: seq<Event>, cfg: Config, k: nat)
    requires e.active ==> e.date.Some?
    requires k <= |evs|
    ensures StateAt(e, evs, cfg, k).candlesSeen == e.candlesSeen + CandleCount(e, evs, cfg, k)
    ensures StateAt(e, evs, cfg, k).signalsEmitted == e.signalsEmitted + SignalCount(e, evs, cfg, k)
  {
    if k > 0 {
      EngineCountersCount(e, evs, cfg, k - 1);
      StepCounts(StateAt(e, evs, cfg, k - 1), evs[k - 1], cfg);
    }
  }

  lemma {:induction false} StepCounts(e: Engine, ev: Event, cfg: Config)
    requires e.active ==> e.date.Some?
    ensures var (after, signal) := Step(e, ev, cfg);
            && after.candlesSeen == e.candlesSeen + (if Hears(e, ev, cfg) then 1 else 0)
            && after.signalsEmitted == e.signalsEmitted + (if signal.Some? then 1 else 0)
  {
  }

  // ---- One symbol as a batch ----------------------------------------------

  /** The candles of one symbol, one after another, from a fresh state. */
  function CandleRun(st: SymbolState, bars: seq<Bar>, date: int, cfg: Config): (SymbolState, seq<Signal>) {
    if bars == [] then (st, []) else
      var (before, signals) := CandleRun(st, bars[..|bars| - 1], date, cfg);
      var (after, signal) := CandleStep(before, AsCandle(st, bars[|bars| - 1], cfg), date, cfg);
      (after, if signal.Some? then signals + [signal.value] else signals)
  }

  function AsCandle(st: SymbolState, b: Bar, cfg: Config): BuiltCandle {
    BuiltCandle(st.symbol, cfg.interval, b)
  }

  /** The first opening bar, or the length. */
  function OpeningIndex(bars: seq<Bar>): (k: nat)
    ensures k <= |bars|
    ensures k < |bars| ==> IsOpeningBar(bars[k])
    ensures forall j :: 0 <= j < k ==> !IsOpeningBar(bars[j])
  {
    if bars == [] then 0 else
      var k := OpeningIndex(bars[..|bars| - 1]);
      if k < |bars| - 1 || IsOpeningBar(bars[|bars| - 1]) then k else |bars|
  }

  predicate BreaksOut(b: Bar, range: Bar, cfg: Config) {
    InEntryWindow(b, cfg) && (b.close > range.high || b.close < range.low)
  }

  /** The first bar from `from` on that breaks out of the range, or the length. */
  function BreakoutIndex(bars: seq<Bar>, from: nat, range: Bar, cfg: Config): (k: nat)
    requires from <= |bars|
    ensures from <= k <= |bars|
    ensures k < |bars| ==> BreaksOut(bars[k], range, cfg)
    ensures forall j :: from <= j < k ==> !BreaksOut(bars[j], range, cfg)
    decreases |bars| - from
  {
    if from == |bars| || BreaksOut(bars[from], range, cfg) then from
    else BreakoutIndex(bars, from + 1, range, cfg)
  }

  /** Where the range comes from, and where it is first broken. */
  function Decisive(bars: seq<Bar>, cfg: Config): (nat, nat) {
    var o := OpeningIndex(bars);
    (o, if o == |bars| then |bars| else BreakoutIndex(bars, o + 1, bars[o], cfg))
  }

  /** The day in one look: the signal a list of closed bars gives, if any. */
  function Batch(st: SymbolState, bars: seq<Bar>, date: int, cfg: Config): Option<Signal> {
    var (o, k) := Decisive(bars, cfg);
    if k == |bars| || RangePercent(bars[o]) > cfg.maxRangePercent then None
    else Some(SignalOn(st, bars[o], bars[k], date))
  }

  function SignalOn(st: SymbolState, range: Bar, b: Bar, date: int): Signal {
    var kind := if b.close > range.high then Buy else Sell;
    Signal(st.symbol, date, kind, b.close, if kind.Buy? then range.low else range.high,
           range.high, range.low, RangePercent(range), b.end, st.candidate.probability)
  }

  lemma {:induction false} BatchStraddles(st: SymbolState, bars: seq<Bar>, date: int, cfg: Config)
    requires forall k :: 0 <= k < |bars| ==> Sane(bars[k])
    ensures Batch(st, bars, date, cfg).Some? ==> Straddles(Batch(st, bars, date, cfg).value)
  {
    var (o, k) := Decisive(bars, cfg);
    if k < |bars| {
      assert Sane(bars[o]) && BreaksOut(bars[k], bars[o], cfg);
    }
  }

  function RangeOf(st: SymbolState, b: Bar, cfg: Config): OpeningRange {
    OpeningRange(AsCandle(st, b, cfg), b.high, b.low, RangePercent(b))
  }

  ghost predicate Summarises(st: SymbolState, init: SymbolState, bars: seq<Bar>, date: int, cfg: Config) {
    var o := OpeningIndex(bars);
    && st.symbol == init.symbol && st.candidate == init.candidate
    && (st.range.None? <==> o == |bars|)
    && (o < |bars| ==>
          && st.range == Some(RangeOf(init, bars[o], cfg))
          && st.skipped == (RangePercent(bars[o]) > cfg.maxRangePercent))
    && (st.locked <==> Batch(init, bars, date, cfg).Some?)
  }

  /** The incremental state machine computes exactly the batch definition. */
  lemma {:induction false} RunIsBatch(init: SymbolState, bars: seq<Bar>, date: int, cfg: Config)
    requires init.range.None? && !init.locked
    ensures var (st, signals) := CandleRun(init, bars, date, cfg);
            && Summarises(st, init, bars, date, cfg)
            && signals == AsList(Batch(init, bars, date, cfg))
  {
    if bars != [] {
      var front, b := bars[..|bars| - 1], bars[|bars| - 1];
      RunIsBatch(init, front, date, cfg);
      OneMoreBar(CandleRun(init, front, date, cfg).0, init, front, b, date, cfg);
      assert bars == front + [b];
    }
  }

  lemma {:induction false} OneMoreBar(st: SymbolState, init: SymbolState, bars: seq<Bar>, b: Bar, date: int, cfg: Config)
    requires Summarises(st, init, bars, date, cfg)
    ensures var (after, signal) := CandleStep(st, AsCandle(init, b, cfg), date, cfg);
            && Summarises(after, init, bars + [b], date, cfg)
            && AsList(Batch(init, bars + [b], date, cfg)) == AsList(Batch(init, bars, date, cfg)) + AsList(signal)
  {
    BatchExtends(init, bars, b, date, cfg);
    OpeningExtends(bars, b);
    var o := OpeningIndex(bars);
    assert o < |bars| ==> (bars + [b])[o] == bars[o];
    assert (bars + [b])[|bars|] == b;
  }

  lemma {:induction false} BreakoutExtends(bars: seq<Bar>, from: nat, range: Bar, b: Bar, cfg: Config)
    requires from <= |bars|
    ensures BreakoutIndex(bars + [b], from, range, cfg) ==
            (var k := BreakoutIndex(bars, from, range, cfg);
             if k < |bars| || BreaksOut(b, range, cfg) then k else |bars| + 1)
    decreases |bars| - from
  {
    if from < |bars| {
      assert (bars + [b])[from] == bars[from];
      BreakoutExtends(bars, from + 1, range, b, cfg);
    }
  }

  lemma {:induction false} OpeningExtends(bars: seq<Bar>, b: Bar)
    ensures OpeningIndex(bars + [b]) ==
            (var o := OpeningIndex(bars); if o < |bars| || IsOpeningBar(b) then o else |bars| + 1)
  {
    assert (bars + [b])[..|bars|] == bars;
  }

  lemma {:induction false} DecisiveExtends(bars: seq<Bar>, b: Bar, cfg: Config)
    ensures var (o, k) := Decisive(bars, cfg);
            Decisive(bars + [b], cfg) ==
            if k < |bars| then (o, k)
            else if o < |bars| then (o, if BreaksOut(b, bars[o], cfg) then k else k + 1)
            else (if IsOpeningBar(b) then o else o + 1, k + 1)
  {
    OpeningExtends(bars, b);
    var o := OpeningIndex(bars);
    if o < |bars| {
      BreakoutExtends(bars, o + 1, bars[o], b, cfg);
    }
  }

  /** What one more closed bar adds to the batch answer. */
  lemma {:induction false} BatchExtends(init: SymbolState, bars: seq<Bar>, b: Bar, date: int, cfg: Config)
    ensures var (o, k) := Decisive(bars, cfg);
            Batch(init, bars + [b], date, cfg) ==
            if k < |bars| then Batch(init, bars, date, cfg)
            else if o < |bars| && RangePercent(bars[o]) <= cfg.maxRangePercent && BreaksOut(b, bars[o], cfg)
            then Some(SignalOn(init, bars[o], b, date))
            else None
  {
    DecisiveExtends(bars, b, cfg);
    var (o, k) := Decisive(bars, cfg);
    assert o < |bars| ==> (bars + [b])[o] == bars[o];
    assert k < |bars| ==> (bars + [b])[k] == bars[k];
  }

  // ---- The engine in place ------------------------------------------------

  /** The mutable record of one symbol; `get_symbol_state` hands out this very object. */
  class SymbolRecord {
    const symbol: Symbol
    const candidate: Candidate
    var range: Option<OpeningRange>
    var skipped: bool
    var locked: bool
    var emittedAt: Option<Instant>

    function View(): SymbolState
      reads this
    {
      SymbolState(symbol, candidate, range, skipped, locked, emittedAt)
    }

    constructor (c: Candidate)
      ensures View() == Fresh(c)
    {
      symbol, candidate := c.symbol, c;
      range, skipped, locked, emittedAt := None, false, false, None;
    }

    /** The engine's work on one record, done under its lock. */
    method Consume(candle: BuiltCandle, date: int, cfg: Config) returns (signal: Option<Signal>)
      modifies this
      ensures (View(), signal) == CandleStep(old(View()), candle, date, cfg)
    {
      signal := None;
      if range.None? {
        if IsOpeningBar(candle.bar) {
          var percent := RangePercent(candle.bar);
          range := Some(OpeningRange(candle, candle.bar.high, candle.bar.low, percent));
          skipped := percent > cfg.maxRangePercent;
        }
        return;
      }
      if locked || skipped || !InEntryWindow(candle.bar, cfg) {
        return;
      }
      if candle.bar.close > range.value.high {
        signal := Some(BuildSignal(View(), range.value, candle, Buy, date));
      } else if candle.bar.close < range.value.low {
        signal := Some(BuildSignal(View(), range.value, candle, Sell, date));
      }
      if signal.Some? {
        locked := true;
        emittedAt := Some(candle.bar.end);
      }
    }
  }

  class SignalEngine {
    const cfg: Config
    var active: bool
    var tradingDate: Option<int>
    var states: map<Symbol, SymbolRecord>
    var candlesSeen: nat
    var signalsEmitted: nat
    ghost var values: map<Symbol, SymbolState>

    /** Each symbol has a record object of its own that carries the symbol's value. */
    ghost predicate Valid()
      reads this, states.Values
    {
      && (active ==> tradingDate.Some?)
      && states.Keys == values.Keys
      && forall s :: s in states ==> states[s].symbol == s && states[s].View() == values[s]
    }

    ghost function View(): Engine
      reads this
    {
      Engine(active, tradingDate, values, candlesSeen, signalsEmitted)
    }

    constructor (cfg: Config)
      ensures Valid() && this.cfg == cfg
      ensures View() == Engine(false, None, map[], 0, 0)
    {
      this.cfg := cfg;
      active, tradingDate, states, values := false, None, map[], map[];
      candlesSeen, signalsEmitted := 0, 0;
    }

    method Activate(date: int, shortlist: seq<Candidate>)
      requires Valid()
      modifies this
      ensures Valid() && fresh(states.Values)
      ensures View() == Step(old(View()), Event.Activate(date, shortlist), cfg).0
    {
      tradingDate := Some(date);
      states, values := map[], map[];
      for n := 0 to |shortlist|
        invariant Valid() && fresh(states.Values)
        invariant View() == old(View()).(date := Some(date), states := Seeded(shortlist[..n]))
      {
        assert shortlist[..n + 1][..n] == shortlist[..n];
        Track(shortlist[n]);
      }
      assert shortlist[..|shortlist|] == shortlist;
      active := true;
    }

    /** Gives the candidate's symbol a fresh record. */
    method Track(c: Candidate)
      requires Valid()
      modifies this`states, this`values
      ensures Valid() && fresh(states.Values - old(states.Values))
      ensures values == old(values)[c.symbol := Fresh(c)]
    {
      var record := new SymbolRecord(c);
      states := states[c.symbol := record];
      values := values[c.symbol := Fresh(c)];
    }

    method Deactivate()
      requires Valid()
      modifies this`active
      ensures Valid()
      ensures View() == Step(old(View()), Event.Deactivate, cfg).0
    {
      active := false;
    }

    method AddCandidate(c: Candidate)
      requires Valid()
      modifies this`states, this`values
      ensures Valid() && fresh(states.Values - old(states.Values))
      ensures View() == Step(old(View()), Add(c), cfg).0
    {
      if !active || c.symbol in states {
        return;
      }
      Track(c);
    }

    method LockSymbol(symbol: Symbol)
      requires Valid()
      modifies this`values, states.Values
      ensures Valid()
      ensures View() == Step(old(View()), Event.LockSymbol(symbol), cfg).0
    {
      if symbol in states {
        states[symbol].locked := true;
        values := values[symbol := states[symbol].View()];
      }
    }

    method OnCandle(candle: BuiltCandle) returns (signal: Option<Signal>)
      requires Valid()
      modifies this`values, this`candlesSeen, this`signalsEmitted, states.Values
      ensures Valid()
      ensures (View(), signal) == Step(old(View()), Event.OnCandle(candle), cfg)
    {
      signal := None;
      if !active || candle.interval != cfg.interval || candle.symbol !in states {
        return;
      }
      var state := states[candle.symbol];
      candlesSeen := candlesSeen + 1;
      signal := state.Consume(candle, tradingDate.value, cfg);
      if signal.Some? {
        signalsEmitted := signalsEmitted + 1;
      }
      values := values[candle.symbol := state.View()];
    }
  }
}
