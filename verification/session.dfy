/** What the 15-minute bars of one trading session look like when quotes arrive in order. */
module Sessions {
  import opened Wrappers
  import opened MarketClock
  import opened Candles
  import opened CandleBuilders
  import opened SignalEngines
  import opened MarketEngines

  function OpenOf(day: int): Instant {
    day * DAY - IST_OFFSET + MARKET_OPEN
  }

  /** Quotes of one IST day inside the regular session, in order. */
  ghost predicate OneSession(qs: seq<Quote>, day: int) {
    && Chronological(qs)
    && forall k :: 0 <= k < |qs| ==> OpenOf(day) <= qs[k].at < OpenOf(day) + MARKET_CLOSE - MARKET_OPEN
  }

  /** The quotes before an instant, in order. */
  function Before(qs: seq<Quote>, bound: Instant, n: nat): seq<Quote>
    requires n <= |qs|
  {
    if n == 0 then [] else Before(qs, bound, n - 1) + (if qs[n - 1].at < bound then [qs[n - 1]] else [])
  }

  lemma {:induction false} OpenOnGrid(day: int)
    ensures OnGrid(OpenOf(day), Width(FifteenMinute))
  {
    DaysAreSteps(day, 900);
    DivModUnique(day * DAY, Width(FifteenMinute), day * (86_400 / 900), 0);
  }

  /** A quote is in the opening slot exactly when it comes before 09:30; no slot starts before 09:15. */
  lemma {:induction false} OpeningSlot(q: Quote, day: int)
    requires OpenOf(day) <= q.at
    ensures SlotOf(q, FifteenMinute) >= OpenOf(day)
    ensures SlotOf(q, FifteenMinute) == OpenOf(day) <==> q.at < OpenOf(day) + Width(FifteenMinute)
  {
    OpenOnGrid(day);
    FloorIsLastGridPoint(q.at, 900);
    if SlotOf(q, FifteenMinute) < OpenOf(day) {
      GridDistance(SlotOf(q, FifteenMinute), OpenOf(day), Width(FifteenMinute));
    }
    if q.at < OpenOf(day) + Width(FifteenMinute) {
      LastGridPointUnique(q.at, 900, OpenOf(day));
    }
  }

  lemma {:induction false} OpeningBarIs(b: Bar, day: int)
    requires OpenOf(day) <= b.start < OpenOf(day) + MARKET_CLOSE - MARKET_OPEN
    requires b.end == b.start + Width(FifteenMinute)
    ensures IsOpeningBar(b) <==> b.start == OpenOf(day)
  {
    var offset := b.start - OpenOf(day);
    DivModUnique(b.start + IST_OFFSET, DAY, day, MARKET_OPEN + offset);
    if offset == 0 {
      DivModUnique(b.end + IST_OFFSET, DAY, day, FIRST_CANDLE_CLOSE);
    }
  }

  lemma {:induction false} SessionSlots(qs: seq<Quote>, day: int)
    requires OneSession(qs, day)
    ensures var slots := Slots(qs, FifteenMinute);
            forall k :: 0 <= k < |qs| ==>
              && OpenOf(day) <= slots[k] <= qs[k].at
              && (slots[k] == OpenOf(day) <==> qs[k].at < OpenOf(day) + Width(FifteenMinute))
  {
    SlotsOnGrid(qs, FifteenMinute);
    forall k | 0 <= k < |qs|
      ensures Slots(qs, FifteenMinute)[k] >= OpenOf(day)
      ensures Slots(qs, FifteenMinute)[k] == OpenOf(day) <==> qs[k].at < OpenOf(day) + Width(FifteenMinute)
    {
      OpeningSlot(qs[k], day);
    }
  }

  lemma {:induction false} EarlyQuotes(qs: seq<Quote>, slots: seq<Instant>, open: Instant, bound: Instant, n: nat)
    requires n <= |qs| == |slots|
    requires forall k :: 0 <= k < |qs| ==> (slots[k] == open <==> qs[k].at < bound)
    ensures InSlot(qs, slots, open, n) == Before(qs, bound, n)
  {
    if n > 0 {
      EarlyQuotes(qs, slots, open, bound, n - 1);
    }
  }

  lemma {:induction false} FirstBarStarts(qs: seq<Quote>, slots: seq<Instant>, width: int, n: nat)
    requires 0 < n <= |qs| == |slots|
    ensures var bs := Fold(qs, slots, width, n);
            bs != [] && bs[0].start == slots[0]
  {
    if n > 1 {
      FirstBarStarts(qs, slots, width, n - 1);
    }
  }

  /** In a session only the first bar can be the opening one. */
  lemma {:induction false} OnlyFirstOpens(bs: seq<Bar>, slots: seq<Instant>, qs: seq<Quote>, day: int)
    requires OneSession(qs, day) && slots == Slots(qs, FifteenMinute)
    requires OnSlots(bs, slots, Width(FifteenMinute)) && Disjoint(bs)
    requires bs != [] && bs[0].start == slots[0]
    ensures forall k :: 0 <= k < |bs| ==> (IsOpeningBar(bs[k]) <==> bs[k].start == OpenOf(day))
    ensures forall k :: 0 < k < |bs| ==> bs[k].start != OpenOf(day)
  {
    SessionSlots(qs, day);
    forall k | 0 <= k < |bs|
      ensures IsOpeningBar(bs[k]) <==> bs[k].start == OpenOf(day)
    {
      var j :| 0 <= j < |slots| && slots[j] == bs[k].start;
      assert OpenOf(day) <= slots[j] <= qs[j].at;
      OpeningBarIs(bs[k], day);
    }
    assert forall k :: 0 < k < |bs| ==> bs[0].end <= bs[k].start;
  }

  /**
   The opening range of a session in terms of the raw quotes: it is captured exactly
   when some quote came before 09:30 and some at or after it, it is then the first
   closed bar, and that bar summarises exactly the quotes before 09:30.
   */
  lemma {:induction false} SessionRange(qs: seq<Quote>, day: int)
    requires OneSession(qs, day) && qs != []
    ensures var closed := ClosedBars(Tracked(qs, FifteenMinute));
            var half := OpenOf(day) + Width(FifteenMinute);
            if qs[0].at < half <= qs[|qs| - 1].at
            then closed != [] && OpeningIndex(closed) == 0 && IsBarOf(closed[0], Before(qs, half, |qs|))
            else OpeningIndex(closed) == |closed|
  {
    var i, slots, n := FifteenMinute, Slots(qs, FifteenMinute), |qs|;
    var bars, half := Tracked(qs, i), OpenOf(day) + Width(i);
    GridIsSlotted(qs, i);
    FoldIsPlaced(qs, slots, Width(i), n);
    FoldGroups(qs, slots, Width(i), n, bars);
    FirstBarStarts(qs, slots, Width(i), n);
    SessionSlots(qs, day);
    OnlyFirstOpens(bars, slots, qs, day);
    EarlyQuotes(qs, slots, OpenOf(day), half, n);
    RangeCases(bars, qs, slots, day);
  }

  lemma {:induction false} RangeCases(bars: seq<Bar>, qs: seq<Quote>, slots: seq<Instant>, day: int)
    requires qs != [] && |slots| == |qs| && Disjoint(bars) && bars != []
    requires bars[0].start == slots[0] && bars[|bars| - 1].start == slots[|qs| - 1]
    requires Summarised(bars, qs, slots, |qs|)
    requires InSlot(qs, slots, OpenOf(day), |qs|) == Before(qs, OpenOf(day) + Width(FifteenMinute), |qs|)
    requires forall k :: 0 <= k < |bars| ==> (IsOpeningBar(bars[k]) <==> bars[k].start == OpenOf(day))
    requires forall k :: 0 < k < |bars| ==> bars[k].start != OpenOf(day)
    requires forall k :: 0 <= k < |qs| ==> (slots[k] == OpenOf(day) <==> qs[k].at < OpenOf(day) + Width(FifteenMinute))
    ensures var closed, half := ClosedBars(bars), OpenOf(day) + Width(FifteenMinute);
            if qs[0].at < half <= qs[|qs| - 1].at
            then closed != [] && OpeningIndex(closed) == 0 && IsBarOf(closed[0], Before(qs, half, |qs|))
            else OpeningIndex(closed) == |closed|
  {
    var closed := ClosedBars(bars);
    assert forall k :: 0 <= k < |closed| ==> closed[k] == bars[k];
    assert IsGroup(bars, qs, slots, |qs|, 0);
    assert |bars| == 1 ==> slots[0] == slots[|qs| - 1];
  }

  /** The first breakout of the first closed bar's range, unless that range is too wide. */
  function FromRange(st: SymbolState, closed: seq<Bar>, date: int, cfg: Config): seq<Signal> {
    if closed == [] || RangePercent(closed[0]) > cfg.maxRangePercent then [] else
      var k := BreakoutIndex(closed, 1, closed[0], cfg);
      if k == |closed| then [] else [SignalOn(st, closed[0], closed[k], date)]
  }

  lemma {:induction false} BatchOfRange(st: SymbolState, closed: seq<Bar>, date: int, cfg: Config)
    requires OpeningIndex(closed) == 0 || OpeningIndex(closed) == |closed|
    ensures AsList(Batch(st, closed, date, cfg)) ==
            if OpeningIndex(closed) == |closed| then [] else FromRange(st, closed, date, cfg)
  {
  }

  // ---- The rule on raw quotes ---------------------------------------------

  function HighOf(qs: seq<Quote>): real
    requires qs != []
  {
    var last, front := qs[|qs| - 1].price, qs[..|qs| - 1];
    if front == [] || last > HighOf(front) then last else HighOf(front)
  }

  function LowOf(qs: seq<Quote>): real
    requires qs != []
  {
    var last, front := qs[|qs| - 1].price, qs[..|qs| - 1];
    if front == [] || last < LowOf(front) then last else LowOf(front)
  }

  function WidthPercent(high: real, low: real): real {
    if low <= 0.0 then 0.0 else (high - low) / low * 100.0
  }

  /** The quote is the last of its slot, and a later quote shows the slot is over. */
  predicate Closes(slots: seq<Instant>, k: nat) {
    k + 1 < |slots| && slots[k + 1] != slots[k]
  }

  /** A slot of the entry window, after the opening one, whose last price is strictly outside the range. */
  predicate BreaksAt(qs: seq<Quote>, slots: seq<Instant>, half: Instant, k: nat, high: real, low: real, cfg: Config)
    requires k < |qs| == |slots|
  {
    && Closes(slots, k) && half <= qs[k].at
    && FIRST_CANDLE_CLOSE <= TimeOfDay(slots[k]) < cfg.latestEntry
    && (qs[k].price > high || qs[k].price < low)
  }

  /** The first quote from `from` on that ends such a slot, or the length. */
  function FirstBreak(qs: seq<Quote>, slots: seq<Instant>, half: Instant, from: nat, high: real, low: real,
                      cfg: Config): (k: nat)
    requires from <= |qs| == |slots|
    ensures from <= k <= |qs|
    ensures k < |qs| ==> BreaksAt(qs, slots, half, k, high, low, cfg)
    ensures forall j :: from <= j < k ==> !BreaksAt(qs, slots, half, j, high, low, cfg)
    decreases |qs| - from
  {
    if from == |qs| || BreaksAt(qs, slots, half, from, high, low, cfg) then from
    else FirstBreak(qs, slots, half, from + 1, high, low, cfg)
  }

  /**
   The signal rule on the raw quotes of a session. The range is the highest and lowest price
   before 09:30, if a quote came then and another one later; the signal is that of the first
   later slot of the entry window that ends strictly outside it, once a later quote has
   closed the slot.
   */
  function SessionSignals(qs: seq<Quote>, day: int, st: SymbolState, date: int, cfg: Config): seq<Signal> {
    var half := OpenOf(day) + Width(FifteenMinute);
    var early, slots := Before(qs, half, |qs|), Slots(qs, FifteenMinute);
    if early == [] || qs[|qs| - 1].at < half then [] else
      var high, low := HighOf(early), LowOf(early);
      if WidthPercent(high, low) > cfg.maxRangePercent then [] else
        var k := FirstBreak(qs, slots, half, 0, high, low, cfg);
        if k == |qs| then [] else [QuoteSignal(st, high, low, qs[k].price, slots[k] + Width(FifteenMinute), date)]
  }

  function QuoteSignal(st: SymbolState, high: real, low: real, price: real, at: Instant, date: int): Signal {
    var kind := if price > high then Buy else Sell;
    Signal(st.symbol, date, kind, price, if kind.Buy? then low else high, high, low, WidthPercent(high, low), at,
           st.candidate.probability)
  }

  // ---- Closed bars are closed slots ---------------------------------------

  /** The quotes among the first `n` that close a slot within those `n`. */
  function Closers(slots: seq<Instant>, n: nat): seq<nat>
    requires n <= |slots|
  {
    if n <= 1 then [] else
    Closers(slots, n - 1) + if slots[n - 1] != slots[n - 2] then [n - 2] else []
  }

  lemma {:induction false} ClosersAreThose(slots: seq<Instant>, n: nat)
    requires n <= |slots|
    ensures var c := Closers(slots, n);
            && (forall j :: 0 <= j < |c| ==> c[j] + 1 < n && slots[c[j] + 1] != slots[c[j]])
            && (forall i, j :: 0 <= i < j < |c| ==> c[i] < c[j])
            && (forall k :: 0 <= k < n - 1 && Closes(slots, k) ==> k in c)
  {
    if n > 1 {
      ClosersAreThose(slots, n - 1);
      var before, c := Closers(slots, n - 1), Closers(slots, n);
      forall k | 0 <= k < n - 1 && Closes(slots, k)
        ensures k in c
      {
        if k == n - 2 {
          assert c[|before|] == k;
        } else {
          var j :| 0 <= j < |before| && before[j] == k;
          assert c[j] == k;
        }
      }
    }
  }

  /** A bar is the slot of the quote at `k`, as far as its span and close go. */
  predicate EndsWith(b: Bar, qs: seq<Quote>, slots: seq<Instant>, width: int, k: nat)
    requires k < |qs| == |slots|
  {
    b.start == slots[k] && b.end == slots[k] + width && b.close == qs[k].price
  }

  ghost predicate ClosedEndAt(closed: seq<Bar>, qs: seq<Quote>, slots: seq<Instant>, width: int, n: nat)
    requires n <= |qs| == |slots|
  {
    var c := Closers(slots, n);
    && |closed| == |c|
    && forall j :: 0 <= j < |c| ==> c[j] < |qs| && EndsWith(closed[j], qs, slots, width, c[j])
  }

  predicate LastEndsAt(bars: seq<Bar>, qs: seq<Quote>, slots: seq<Instant>, width: int, n: nat)
    requires n <= |qs| == |slots|
  {
    if n == 0 then bars == [] else bars != [] && EndsWith(bars[|bars| - 1], qs, slots, width, n - 1)
  }

  lemma {:induction false} OneMoreClosed(closed: seq<Bar>, b: Bar, qs: seq<Quote>, slots: seq<Instant>, width: int,
                                         n: nat, after: seq<Bar>)
    requires 1 < n <= |qs| == |slots| && ClosedEndAt(closed, qs, slots, width, n - 1)
    requires EndsWith(b, qs, slots, width, n - 2)
    requires after == if slots[n - 1] != slots[n - 2] then closed + [b] else closed
    ensures ClosedEndAt(after, qs, slots, width, n)
  {
    var c := Closers(slots, n);
    forall j | 0 <= j < |c|
      ensures c[j] < |qs| && EndsWith(after[j], qs, slots, width, c[j])
    {
      assert j < |closed| ==> Closers(slots, n - 1)[j] == c[j] && after[j] == closed[j];
    }
  }

  /** What quote number `n` does to the bars. */
  lemma {:induction false} OneMoreQuote(bars: seq<Bar>, qs: seq<Quote>, slots: seq<Instant>, width: int, n: nat,
                                        after: seq<Bar>)
    requires 0 < n <= |qs| && Slotted(qs, slots, width) && Chronological(qs)
    requires ClosedEndAt(ClosedBars(bars), qs, slots, width, n - 1) && LastEndsAt(bars, qs, slots, width, n - 1)
    requires after == Advanced(bars, qs[n - 1], slots[n - 1], width)
    ensures ClosedEndAt(ClosedBars(after), qs, slots, width, n) && LastEndsAt(after, qs, slots, width, n)
  {
    if n == 1 {
      FirstQuote(qs, slots, width, after);
    } else {
      RollsWithTheSlot(qs, slots, width, n - 2, n - 1);
      ClosedWithTheSlot(bars, qs, slots, width, n, after);
      OneMoreClosed(ClosedBars(bars), bars[|bars| - 1], qs, slots, width, n, ClosedBars(after));
    }
  }

  lemma {:induction false} FirstQuote(qs: seq<Quote>, slots: seq<Instant>, width: int, after: seq<Bar>)
    requires |qs| == |slots| > 0 && after == Advanced([], qs[0], slots[0], width)
    ensures ClosedEndAt(ClosedBars(after), qs, slots, width, 1) && LastEndsAt(after, qs, slots, width, 1)
  {
  }

  lemma {:induction false} ClosedWithTheSlot(bars: seq<Bar>, qs: seq<Quote>, slots: seq<Instant>, width: int, n: nat,
                                             after: seq<Bar>)
    requires 1 < n <= |qs| == |slots| && bars != [] && EndsWith(bars[|bars| - 1], qs, slots, width, n - 2)
    requires qs[n - 1].at >= slots[n - 2] + width <==> slots[n - 1] != slots[n - 2]
    requires after == Advanced(bars, qs[n - 1], slots[n - 1], width)
    ensures ClosedBars(after) == if slots[n - 1] != slots[n - 2] then ClosedBars(bars) + [bars[|bars| - 1]] else ClosedBars(bars)
    ensures LastEndsAt(after, qs, slots, width, n)
  {
    AdvanceEmits(bars, qs[n - 1], slots[n - 1], width);
  }

  lemma {:induction false} BarsAreClosers(qs: seq<Quote>, slots: seq<Instant>, width: int, n: nat, bars: seq<Bar>)
    requires n <= |qs| && Slotted(qs, slots, width) && Chronological(qs)
    requires bars == Fold(qs, slots, width, n)
    ensures ClosedEndAt(ClosedBars(bars), qs, slots, width, n) && LastEndsAt(bars, qs, slots, width, n)
  {
    if n > 0 {
      var before := Fold(qs, slots, width, n - 1);
      BarsAreClosers(qs, slots, width, n - 1, before);
      OneMoreQuote(before, qs, slots, width, n, bars);
    }
  }

  lemma {:induction false} ExtremesAreThose(qs: seq<Quote>)
    requires qs != []
    ensures forall k :: 0 <= k < |qs| ==> LowOf(qs) <= qs[k].price <= HighOf(qs)
    ensures exists k :: 0 <= k < |qs| && qs[k].price == HighOf(qs)
    ensures exists k :: 0 <= k < |qs| && qs[k].price == LowOf(qs)
  {
    if |qs| > 1 {
      ExtremesAreThose(qs[..|qs| - 1]);
      var h :| 0 <= h < |qs| - 1 && qs[..|qs| - 1][h].price == HighOf(qs[..|qs| - 1]);
      var l :| 0 <= l < |qs| - 1 && qs[..|qs| - 1][l].price == LowOf(qs[..|qs| - 1]);
      assert qs[if qs[|qs| - 1].price > HighOf(qs[..|qs| - 1]) then |qs| - 1 else h].price == HighOf(qs);
      assert qs[if qs[|qs| - 1].price < LowOf(qs[..|qs| - 1]) then |qs| - 1 else l].price == LowOf(qs);
    }
  }

  lemma {:induction false} RangeIsExtremes(b: Bar, qs: seq<Quote>)
    requires IsBarOf(b, qs)
    ensures b.high == HighOf(qs) && b.low == LowOf(qs)
  {
    ExtremesAreThose(qs);
  }

  /** Searching the closed bars and searching the quotes find the same slot. */
  lemma {:induction false} SameBreak(closed: seq<Bar>, c: seq<nat>, qs: seq<Quote>, slots: seq<Instant>, half: Instant,
                                     cfg: Config)
    requires qs != [] && |slots| == |qs| && closed != [] && c == Closers(slots, |qs|)
    requires ClosedEndAt(closed, qs, slots, Width(FifteenMinute), |qs|)
    requires forall j :: 0 <= j < |closed| ==> (qs[c[j]].at < half <==> j == 0)
    ensures var b, k := BreakoutIndex(closed, 1, closed[0], cfg),
                        FirstBreak(qs, slots, half, 0, closed[0].high, closed[0].low, cfg);
            if b == |closed| then k == |qs| else k == c[b]
  {
    var high, low := closed[0].high, closed[0].low;
    var b, k := BreakoutIndex(closed, 1, closed[0], cfg), FirstBreak(qs, slots, half, 0, high, low, cfg);
    ClosersAreThose(slots, |qs|);
    forall j | 0 < j < |closed|
      ensures BreaksOut(closed[j], closed[0], cfg) <==> BreaksAt(qs, slots, half, c[j], high, low, cfg)
    {
      assert EndsWith(closed[j], qs, slots, Width(FifteenMinute), c[j]);
      assert Closes(slots, c[j]);
    }
    if k < |qs| {
      assert Closes(slots, k) && k in c;
      var j :| 0 <= j < |c| && c[j] == k;
      assert j > 0;
    }
    if b < |closed| {
      assert BreaksAt(qs, slots, half, c[b], high, low, cfg);
    }
  }

  lemma {:induction false} BeforeIsEmptyIff(qs: seq<Quote>, bound: Instant, n: nat)
    requires n <= |qs| && Chronological(qs)
    ensures Before(qs, bound, n) != [] <==> n > 0 && qs[0].at < bound
  {
    if n > 0 {
      BeforeIsEmptyIff(qs, bound, n - 1);
      assert n == 1 || NoLater(qs, 0, n - 1);
    }
  }

  /** Of the closed slots only the first comes before 09:30, when it does. */
  lemma {:induction false} OnlyFirstIsEarly(closed: seq<Bar>, qs: seq<Quote>, slots: seq<Instant>, day: int, j: nat)
    requires OneSession(qs, day) && slots == Slots(qs, FifteenMinute) && j < |closed|
    requires forall i :: 0 <= i < |closed| ==> (closed[i].start == OpenOf(day) <==> i == 0)
    requires |closed| == |Closers(slots, |qs|)| && Closers(slots, |qs|)[j] < |qs|
    requires closed[j].start == slots[Closers(slots, |qs|)[j]]
    ensures qs[Closers(slots, |qs|)[j]].at < OpenOf(day) + Width(FifteenMinute) <==> j == 0
  {
    SessionSlots(qs, day);
  }

  /** What the closed bars of a session that has a range look like. */
  lemma {:induction false} SessionBars(qs: seq<Quote>, day: int)
    requires OneSession(qs, day) && qs != []
    requires qs[0].at < OpenOf(day) + Width(FifteenMinute) <= qs[|qs| - 1].at
    ensures var half, slots := OpenOf(day) + Width(FifteenMinute), Slots(qs, FifteenMinute);
            var closed, c := ClosedBars(Tracked(qs, FifteenMinute)), Closers(slots, |qs|);
            && closed != [] && ClosedEndAt(closed, qs, slots, Width(FifteenMinute), |qs|)
            && forall j :: 0 <= j < |closed| ==> (qs[c[j]].at < half <==> j == 0)
  {
    var i, slots, n := FifteenMinute, Slots(qs, FifteenMinute), |qs|;
    var half, bars := OpenOf(day) + Width(i), Tracked(qs, i);
    var closed := ClosedBars(bars);
    SessionRange(qs, day);
    GridIsSlotted(qs, i);
    BarsAreClosers(qs, slots, Width(i), n, bars);
    SessionStarts(qs, day);
    forall j | 0 <= j < |closed|
      ensures qs[Closers(slots, n)[j]].at < half <==> j == 0
    {
      assert EndsWith(closed[j], qs, slots, Width(i), Closers(slots, n)[j]);
      OnlyFirstIsEarly(closed, qs, slots, day, j);
    }
  }

  /** In a session with early quotes the first bar, and no other, starts at the open. */
  lemma {:induction false} SessionStarts(qs: seq<Quote>, day: int)
    requires OneSession(qs, day) && qs != [] && qs[0].at < OpenOf(day) + Width(FifteenMinute)
    ensures var bars := Tracked(qs, FifteenMinute);
            forall j :: 0 <= j < |bars| ==> (bars[j].start == OpenOf(day) <==> j == 0)
  {
    var i, slots, n := FifteenMinute, Slots(qs, FifteenMinute), |qs|;
    GridIsSlotted(qs, i);
    FoldIsPlaced(qs, slots, Width(i), n);
    FirstBarStarts(qs, slots, Width(i), n);
    OnlyFirstOpens(Tracked(qs, i), slots, qs, day);
    SessionSlots(qs, day);
  }

  lemma {:induction false} SessionBreak(qs: seq<Quote>, day: int, cfg: Config)
    requires OneSession(qs, day) && qs != []
    requires qs[0].at < OpenOf(day) + Width(FifteenMinute) <= qs[|qs| - 1].at
    ensures var half, slots := OpenOf(day) + Width(FifteenMinute), Slots(qs, FifteenMinute);
            var closed, early := ClosedBars(Tracked(qs, FifteenMinute)), Before(qs, half, |qs|);
            && closed != [] && early != []
            && closed[0].high == HighOf(early) && closed[0].low == LowOf(early)
            && (var b, k := BreakoutIndex(closed, 1, closed[0], cfg),
                            FirstBreak(qs, slots, half, 0, HighOf(early), LowOf(early), cfg);
                if b == |closed| then k == |qs|
                else k < |qs| && EndsWith(closed[b], qs, slots, Width(FifteenMinute), k))
  {
    var half, slots := OpenOf(day) + Width(FifteenMinute), Slots(qs, FifteenMinute);
    var closed := ClosedBars(Tracked(qs, FifteenMinute));
    SessionRange(qs, day);
    RangeIsExtremes(closed[0], Before(qs, half, |qs|));
    SessionBars(qs, day);
    SameBreak(closed, Closers(slots, |qs|), qs, slots, half, cfg);
  }

  /** Without a range there is no signal. */
  lemma {:induction false} NoRangeNoSignal(qs: seq<Quote>, day: int, st: SymbolState, date: int, cfg: Config)
    requires OneSession(qs, day)
    requires qs == [] || !(qs[0].at < OpenOf(day) + Width(FifteenMinute) <= qs[|qs| - 1].at)
    ensures Batch(st, ClosedBars(Tracked(qs, FifteenMinute)), date, cfg).None?
    ensures SessionSignals(qs, day, st, date, cfg) == []
  {
    BeforeIsEmptyIff(qs, OpenOf(day) + Width(FifteenMinute), |qs|);
    if qs == [] {
      assert Tracked(qs, FifteenMinute) == [];
    } else {
      SessionRange(qs, day);
    }
  }

  /** With one, the batch and the rule stop at the same slot. */
  lemma {:induction false} RangeGivesTheSignal(qs: seq<Quote>, day: int, st: SymbolState, date: int, cfg: Config,
                                               closed: seq<Bar>)
    requires OneSession(qs, day) && qs != []
    requires qs[0].at < OpenOf(day) + Width(FifteenMinute) <= qs[|qs| - 1].at
    requires closed == ClosedBars(Tracked(qs, FifteenMinute))
    ensures AsList(Batch(st, closed, date, cfg)) == SessionSignals(qs, day, st, date, cfg)
  {
    SessionRange(qs, day);
    BatchOfRange(st, closed, date, cfg);
    SessionBreak(qs, day, cfg);
  }

  /** On a session's bars the batch definition gives exactly what the rule reads off the raw quotes. */
  lemma {:induction false} SessionBatch(qs: seq<Quote>, day: int, st: SymbolState, date: int, cfg: Config)
    requires OneSession(qs, day)
    ensures AsList(Batch(st, ClosedBars(Tracked(qs, FifteenMinute)), date, cfg)) == SessionSignals(qs, day, st, date, cfg)
  {
    if qs != [] && qs[0].at < OpenOf(day) + Width(FifteenMinute) <= qs[|qs| - 1].at {
      RangeGivesTheSignal(qs, day, st, date, cfg, ClosedBars(Tracked(qs, FifteenMinute)));
    } else {
      NoRangeNoSignal(qs, day, st, date, cfg);
    }
  }

  /**
   One session from ticks to signal: when the acceptable ticks of a symbol arrive in order in one
   session, the hub emits exactly the signal of the rule on their times, prices and volumes.
   */
  lemma {:induction false} SessionEndToEnd(m: Market, feeds: seq<Feed>, s: Symbol, setup: Setup, day: int)
    requires Sound(m, setup) && Distinct(setup.intervals) && FifteenMinute in setup.intervals
    requires setup.cfg.interval == FifteenMinute && ReadyFor(m, s, setup)
    requires OneSession(TicksOf(feeds, s, setup.respectHours), day)
    ensures SignalsOf(FeedRun(m, feeds, setup).1, s)
            == SessionSignals(TicksOf(feeds, s, setup.respectHours), day,
                              m.signals.states[s], m.signals.date.value, setup.cfg)
  {
    QuotesAreTheTicks(feeds, s, setup.respectHours);
    PipelineIsBatch(m, feeds, s, setup);
    SessionBatch(TicksOf(feeds, s, setup.respectHours), day, m.signals.states[s], m.signals.date.value, setup.cfg);
  }

  /**
   The same from a started hub: for a shortlisted symbol with no bucket yet, the session's signals
   carry the probability of its last shortlist entry and the start's trading date.
   */
  lemma {:induction false} SessionFromStart(m: Market, shortlist: seq<Candidate>, date: int, feeds: seq<Feed>,
                                            c: Candidate, setup: Setup,
                         day: int)
    requires Sound(m, setup) && Distinct(setup.intervals) && FifteenMinute in setup.intervals
    requires setup.cfg.interval == FifteenMinute && IsLastEntry(shortlist, c)
    requires c.symbol in m.builder.rows ==> m.builder.rows[c.symbol] == EmptyRow(setup.intervals)
    requires OneSession(TicksOf(feeds, c.symbol, setup.respectHours), day)
    ensures Sound(Started(m, shortlist, date, setup), setup)
    ensures SignalsOf(FeedRun(Started(m, shortlist, date, setup), feeds, setup).1, c.symbol)
            == SessionSignals(TicksOf(feeds, c.symbol, setup.respectHours), day, Fresh(c), date, setup.cfg)
  {
    StartIsReady(m, shortlist, date, c, setup);
    SessionEndToEnd(Started(m, shortlist, date, setup), feeds, c.symbol, setup, day);
  }
}
