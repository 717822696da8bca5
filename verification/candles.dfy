/**
 What the candle builder computes for one symbol and one interval, as a fold over
 the accepted quotes in arrival order, and what that fold means.
 */
module Candles {
  import opened Wrappers
  import opened MarketClock

  datatype Timestamp = Naive | Aware(at: Instant)

  datatype Tick = Tick(symbol: Symbol, price: real, volume: int, timestamp: Timestamp)

  /** The part of an accepted tick that reaches the buckets. */
  datatype Quote = Quote(at: Instant, price: real, volume: int)

  /** An open-high-low-close-volume bar over [start, end). */
  datatype Bar = Bar(start: Instant, end: Instant,
                     open: real, high: real, low: real, close: real, volume: int)

  datatype BuiltCandle = BuiltCandle(symbol: Symbol, interval: Interval, bar: Bar)

  function RangePercent(b: Bar): real {
    if b.low <= 0.0 then 0.0 else (b.high - b.low) / b.low * 100.0
  }

  function Updated(b: Bar, price: real, volume: int): Bar {
    b.(high := if price > b.high then price else b.high,
       low := if price < b.low then price else b.low,
       close := price,
       volume := b.volume + volume)
  }

  predicate Elapsed(slot: Option<Bar>, q: Quote) {
    slot.Some? && q.at >= slot.value.end
  }

  /**
   The bucket after a quote: a fresh one over [start, start + width) if there is
   none or the quote is past its end, otherwise the same bucket, late quotes included.
   */
  function BarAfter(slot: Option<Bar>, q: Quote, start: Instant, width: int): Bar {
    var bucket := if slot.None? || Elapsed(slot, q)
                  then Bar(start, start + width, q.price, q.price, q.price, q.price, 0)
                  else slot.value;
    Updated(bucket, q.price, q.volume)
  }

  function ClosedBy(slot: Option<Bar>, q: Quote): seq<Bar> {
    if Elapsed(slot, q) then [slot.value] else []
  }

  function LastOf(bs: seq<Bar>): Option<Bar> {
    if bs == [] then None else Some(bs[|bs| - 1])
  }

  /** The bars that no later quote can change: all of them once the last one has elapsed. */
  function Settled(bs: seq<Bar>, q: Quote): seq<Bar> {
    if bs == [] || Elapsed(LastOf(bs), q) then bs else bs[..|bs| - 1]
  }

  /** The bars of one symbol and interval, closed ones first and the one in progress last. */
  function Advanced(bs: seq<Bar>, q: Quote, start: Instant, width: int): seq<Bar> {
    Settled(bs, q) + [BarAfter(LastOf(bs), q, start, width)]
  }

  function SlotOf(q: Quote, i: Interval): Instant {
    FloorToInterval(q.at, StepSeconds(i))
  }

  function Slots(qs: seq<Quote>, i: Interval): seq<Instant> {
    seq(|qs|, k requires 0 <= k < |qs| => SlotOf(qs[k], i))
  }

  /** The bars after all the accepted quotes, in arrival order. */
  function Tracked(qs: seq<Quote>, i: Interval): seq<Bar> {
    Fold(qs, Slots(qs, i), Width(i), |qs|)
  }

  /** The bars after the first n quotes, with the slot of each quote given. */
  function Fold(qs: seq<Quote>, slots: seq<Instant>, width: int, n: nat): seq<Bar>
    requires n <= |qs| == |slots|
  {
    if n == 0 then []
    else Advanced(Fold(qs, slots, width, n - 1), qs[n - 1], slots[n - 1], width)
  }

  /** The candles emitted so far: every bar but the one in progress. */
  function ClosedBars(bs: seq<Bar>): seq<Bar> {
    if bs == [] then [] else bs[..|bs| - 1]
  }

  lemma {:induction false} AdvanceEmits(bs: seq<Bar>, q: Quote, start: Instant, width: int)
    ensures ClosedBars(Advanced(bs, q, start, width)) == ClosedBars(bs) + ClosedBy(LastOf(bs), q)
    ensures LastOf(Advanced(bs, q, start, width)) == Some(BarAfter(LastOf(bs), q, start, width))
  {
    var settled, b := Settled(bs, q), BarAfter(LastOf(bs), q, start, width);
    assert (settled + [b])[..|settled|] == settled;
    if Elapsed(LastOf(bs), q) {
      assert bs == bs[..|bs| - 1] + [bs[|bs| - 1]];
    }
  }

  // ---- Vocabulary of the theorems -----------------------------------------

  /** The volume of the first n quotes. */
  function QuoteVolume(qs: seq<Quote>, n: nat): int
    requires n <= |qs|
  {
    if n == 0 then 0 else QuoteVolume(qs, n - 1) + qs[n - 1].volume
  }

  function BarVolume(bs: seq<Bar>): int {
    if bs == [] then 0 else BarVolume(bs[..|bs| - 1]) + bs[|bs| - 1].volume
  }

  /** The bar summarises exactly these quotes, first to last. */
  ghost predicate IsBarOf(b: Bar, qs: seq<Quote>) {
    && qs != []
    && b.open == qs[0].price
    && b.close == qs[|qs| - 1].price
    && (forall k :: 0 <= k < |qs| ==> b.low <= qs[k].price <= b.high)
    && (exists k :: 0 <= k < |qs| && qs[k].price == b.high)
    && (exists k :: 0 <= k < |qs| && qs[k].price == b.low)
    && b.volume == QuoteVolume(qs, |qs|)
  }

  /** The bar is the OHLCV merge of these bars, first to last. */
  ghost predicate IsMergeOf(b: Bar, bs: seq<Bar>) {
    && bs != []
    && b.open == bs[0].open
    && b.close == bs[|bs| - 1].close
    && (forall k :: 0 <= k < |bs| ==> b.low <= bs[k].low && bs[k].high <= b.high)
    && (exists k :: 0 <= k < |bs| && bs[k].high == b.high)
    && (exists k :: 0 <= k < |bs| && bs[k].low == b.low)
    && b.volume == BarVolume(bs)
  }

  /** Those of the first n quotes whose slot is `start`, in arrival order. */
  function InSlot(qs: seq<Quote>, slots: seq<Instant>, start: Instant, n: nat): seq<Quote>
    requires n <= |qs| == |slots|
  {
    if n == 0 then [] else
      InSlot(qs, slots, start, n - 1) + (if slots[n - 1] == start then [qs[n - 1]] else [])
  }

  /** The bars that start inside [lo, hi), in order. */
  function Within(bs: seq<Bar>, lo: Instant, hi: Instant): seq<Bar> {
    if bs == [] then [] else
      var n := |bs| - 1;
      Within(bs[..n], lo, hi) + (if lo <= bs[n].start < hi then [bs[n]] else [])
  }

  ghost predicate Chronological(qs: seq<Quote>) {
    forall j, k :: 0 <= j < k < |qs| ==> NoLater(qs, j, k)
  }

  predicate NoLater(qs: seq<Quote>, j: nat, k: nat)
    requires j < |qs| && k < |qs|
  {
    qs[j].at <= qs[k].at
  }

  ghost predicate GridSlots(bs: seq<Bar>, i: Interval) {
    forall k :: 0 <= k < |bs| ==> OnGrid(bs[k].start, Width(i)) && bs[k].end == bs[k].start + Width(i)
  }

  /** Every bar ends before the next one starts. */
  ghost predicate Disjoint(bs: seq<Bar>) {
    && (forall k :: 0 <= k < |bs| ==> bs[k].start < bs[k].end)
    && (forall j, k :: 0 <= j < k < |bs| ==> bs[j].end <= bs[k].start)
  }

  // ---- Any arrival order --------------------------------------------------

  /** Quotes with slots of one width that contain them and never overlap. */
  ghost predicate Slotted(qs: seq<Quote>, slots: seq<Instant>, width: int) {
    && |slots| == |qs| && width > 0
    && (forall k :: 0 <= k < |qs| ==> InItsSlot(qs, slots, width, k))
    && (forall j, k :: 0 <= j < |slots| && 0 <= k < |slots| ==> Apart(slots, width, j, k))
  }

  predicate InItsSlot(qs: seq<Quote>, slots: seq<Instant>, width: int, k: nat)
    requires k < |qs| == |slots|
  {
    slots[k] <= qs[k].at < slots[k] + width
  }

  predicate Apart(slots: seq<Instant>, width: int, j: nat, k: nat)
    requires j < |slots| && k < |slots|
  {
    slots[j] < slots[k] ==> slots[j] + width <= slots[k]
  }

  lemma {:induction false} SlotsOnGrid(qs: seq<Quote>, i: Interval)
    ensures forall k :: 0 <= k < |qs| ==>
              OnGrid(Slots(qs, i)[k], Width(i)) && Slots(qs, i)[k] <= qs[k].at < Slots(qs, i)[k] + Width(i)
  {
    forall k | 0 <= k < |qs|
      ensures OnGrid(Slots(qs, i)[k], Width(i)) && Slots(qs, i)[k] <= qs[k].at < Slots(qs, i)[k] + Width(i)
    {
      FloorIsLastGridPoint(qs[k].at, StepSeconds(i));
    }
  }

  lemma {:induction false} GridIsSlotted(qs: seq<Quote>, i: Interval)
    ensures Slotted(qs, Slots(qs, i), Width(i))
  {
    SlotsOnGrid(qs, i);
    var slots := Slots(qs, i);
    forall j, k | 0 <= j < |slots| && 0 <= k < |slots|
      ensures Apart(slots, Width(i), j, k)
    {
      if slots[j] < slots[k] {
        GridDistance(slots[j], slots[k], Width(i));
      }
    }
    forall k | 0 <= k < |qs|
      ensures InItsSlot(qs, slots, Width(i), k)
    {
    }
  }

  /** Every bar occupies one of the slots. */
  ghost predicate OnSlots(bs: seq<Bar>, slots: seq<Instant>, width: int) {
    forall k :: 0 <= k < |bs| ==> bs[k].start in slots && bs[k].end == bs[k].start + width
  }

  /** The slot of a quote past a bar's end starts no earlier than that end. */
  lemma {:induction false} RollsForward(qs: seq<Quote>, slots: seq<Instant>, width: int, b: Bar, n: nat)
    requires n < |qs| && Slotted(qs, slots, width)
    requires b.start in slots && b.end == b.start + width
    ensures qs[n].at >= b.end ==> b.end <= slots[n]
  {
    var k :| 0 <= k < |slots| && slots[k] == b.start;
    assert Apart(slots, width, k, n) && InItsSlot(qs, slots, width, n);
  }

  lemma {:induction false} PushIsPlaced(front: seq<Bar>, b: Bar, slots: seq<Instant>, width: int)
    requires OnSlots(front, slots, width) && Disjoint(front)
    requires width > 0 && b.start in slots && b.end == b.start + width
    requires front != [] ==> front[|front| - 1].end <= b.start
    ensures OnSlots(front + [b], slots, width) && Disjoint(front + [b])
  {
    forall j | 0 <= j < |front|
      ensures front[j].end <= b.start
    {
      assert j < |front| - 1 ==> front[j].end <= front[|front| - 1].start;
    }
  }

  lemma {:induction false} PlacedStep(bs: seq<Bar>, qs: seq<Quote>, slots: seq<Instant>, width: int, n: nat,
                                      after: seq<Bar>)
    requires n < |qs| && Slotted(qs, slots, width)
    requires OnSlots(bs, slots, width) && Disjoint(bs)
    requires after == Advanced(bs, qs[n], slots[n], width)
    ensures after != [] && OnSlots(after, slots, width) && Disjoint(after)
  {
    var front, b := Settled(bs, qs[n]), BarAfter(LastOf(bs), qs[n], slots[n], width);
    if bs != [] {
      RollsForward(qs, slots, width, bs[|bs| - 1], n);
    }
    PushIsPlaced(front, b, slots, width);
  }

  lemma {:induction false} FoldIsPlaced(qs: seq<Quote>, slots: seq<Instant>, width: int, n: nat)
    requires n <= |qs| && Slotted(qs, slots, width)
    ensures OnSlots(Fold(qs, slots, width, n), slots, width)
    ensures Disjoint(Fold(qs, slots, width, n))
    ensures n == 0 <==> Fold(qs, slots, width, n) == []
  {
    if n > 0 {
      FoldIsPlaced(qs, slots, width, n - 1);
      PlacedStep(Fold(qs, slots, width, n - 1), qs, slots, width, n - 1, Fold(qs, slots, width, n));
    }
  }

  /** Late quotes included, the spans are grid-aligned, disjoint and strictly increasing. */
  lemma {:induction false} SpansDisjoint(qs: seq<Quote>, i: Interval)
    ensures GridSlots(Tracked(qs, i), i)
    ensures Disjoint(Tracked(qs, i))
  {
    GridIsSlotted(qs, i);
    FoldIsPlaced(qs, Slots(qs, i), Width(i), |qs|);
    SlotsOnGrid(qs, i);
    var bs, slots := Tracked(qs, i), Slots(qs, i);
    forall k | 0 <= k < |bs|
      ensures OnGrid(bs[k].start, Width(i))
    {
      var j :| 0 <= j < |slots| && slots[j] == bs[k].start;
    }
  }

  /** The open and the close of a bar lie between its low and its high. */
  predicate Sane(b: Bar) {
    b.low <= b.open <= b.high && b.low <= b.close <= b.high
  }

  lemma {:induction false} FoldIsSane(qs: seq<Quote>, slots: seq<Instant>, width: int, n: nat)
    requires n <= |qs| == |slots|
    ensures forall k :: 0 <= k < |Fold(qs, slots, width, n)| ==> Sane(Fold(qs, slots, width, n)[k])
  {
    if n > 0 {
      FoldIsSane(qs, slots, width, n - 1);
    }
  }

  /** Whatever the arrival order, every bar is sane. */
  lemma {:induction false} BarsAreSane(qs: seq<Quote>, i: Interval)
    ensures forall k :: 0 <= k < |Tracked(qs, i)| ==> Sane(Tracked(qs, i)[k])
  {
    FoldIsSane(qs, Slots(qs, i), Width(i), |qs|);
  }

  /** Nothing is lost: closed plus in-progress volume is the accepted volume. */
  lemma {:induction false} VolumeConserved(qs: seq<Quote>, i: Interval)
    ensures BarVolume(Tracked(qs, i)) == QuoteVolume(qs, |qs|)
  {
    FoldVolume(qs, Slots(qs, i), Width(i), |qs|);
  }

  lemma {:induction false} VolumeStep(bs: seq<Bar>, q: Quote, start: Instant, width: int)
    ensures BarVolume(Advanced(bs, q, start, width)) == BarVolume(bs) + q.volume
  {
    var after := Advanced(bs, q, start, width);
    assert after[..|after| - 1] == Settled(bs, q);
  }

  lemma {:induction false} FoldVolume(qs: seq<Quote>, slots: seq<Instant>, width: int, n: nat)
    requires n <= |qs| == |slots|
    ensures BarVolume(Fold(qs, slots, width, n)) == QuoteVolume(qs, n)
  {
    if n > 0 {
      FoldVolume(qs, slots, width, n - 1);
      VolumeStep(Fold(qs, slots, width, n - 1), qs[n - 1], slots[n - 1], width);
    }
  }

  lemma {:induction false} WithinAppend(bs: seq<Bar>, b: Bar, lo: Instant, hi: Instant)
    ensures Within(bs + [b], lo, hi) == Within(bs, lo, hi) + (if lo <= b.start < hi then [b] else [])
  {
    assert (bs + [b])[..|bs|] == bs;
  }

  lemma {:induction false} WithinNone(bs: seq<Bar>, lo: Instant, hi: Instant)
    requires forall k :: 0 <= k < |bs| ==> bs[k].start < lo
    ensures Within(bs, lo, hi) == []
  {
    if bs != [] {
      WithinNone(bs[..|bs| - 1], lo, hi);
    }
  }

  lemma {:induction false} MergeOfOne(c: Bar, f: Bar)
    requires c == f.(start := c.start, end := c.end)
    ensures IsMergeOf(c, [f])
  {
    assert [f][0] == f && [f][..0] == [];
  }

  lemma {:induction false} MergeUpdatesLast(c: Bar, front: seq<Bar>, f: Bar, price: real, volume: int)
    requires IsMergeOf(c, front + [f])
    ensures IsMergeOf(Updated(c, price, volume), front + [Updated(f, price, volume)])
  {
    var old', new' := front + [f], front + [Updated(f, price, volume)];
    var n := |front|;
    assert old'[..n] == front == new'[..n];
    var c' := Updated(c, price, volume);
    var h :| 0 <= h < |old'| && old'[h].high == c.high;
    var l :| 0 <= l < |old'| && old'[l].low == c.low;
    assert new'[if price > c.high then n else h].high == c'.high;
    assert new'[if price < c.low then n else l].low == c'.low;
  }

  lemma {:induction false} MergeAppendsFresh(c: Bar, bs: seq<Bar>, q: Quote, start: Instant, width: int)
    requires IsMergeOf(c, bs)
    ensures IsMergeOf(Updated(c, q.price, q.volume), bs + [BarAfter(None, q, start, width)])
  {
    var f, n := BarAfter(None, q, start, width), |bs|;
    var new' := bs + [f];
    assert new'[..n] == bs;
    var c' := Updated(c, q.price, q.volume);
    var h :| 0 <= h < |bs| && bs[h].high == c.high;
    var l :| 0 <= l < |bs| && bs[l].low == c.low;
    assert new'[if q.price > c.high then n else h].high == c'.high;
    assert new'[if q.price < c.low then n else l].low == c'.low;
  }

  ghost predicate MergesSpan(b: Bar, fine: seq<Bar>) {
    IsMergeOf(b, Within(fine, b.start, b.end))
  }

  /** The last bar of the fine interval lies inside the last one of the coarse interval. */
  ghost predicate Inside(fine: seq<Bar>, coarse: seq<Bar>) {
    && fine != [] && coarse != []
    && coarse[|coarse| - 1].start <= fine[|fine| - 1].start
    && fine[|fine| - 1].end <= coarse[|coarse| - 1].end
  }

  /** The fine bucket is inside the coarse one, and every coarse bar merges its span. */
  ghost predicate Coherent(fine: seq<Bar>, coarse: seq<Bar>) {
    && Inside(fine, coarse)
    && forall k :: 0 <= k < |coarse| ==> MergesSpan(coarse[k], fine)
  }

  /** Fine slots lie inside the coarse ones and never straddle a coarse boundary. */
  ghost predicate Nested(fs: seq<Instant>, fw: int, cs: seq<Instant>, cw: int) {
    && |fs| == |cs|
    && (forall k :: 0 <= k < |fs| ==> cs[k] <= fs[k])
    && (forall j, k :: 0 <= j < |fs| && 0 <= k < |cs| && fs[j] < cs[k] + cw ==> fs[j] + fw <= cs[k] + cw)
  }

  lemma {:induction false} GridsNest(qs: seq<Quote>, fine: Interval, coarse: Interval)
    requires StepSeconds(coarse) % StepSeconds(fine) == 0
    ensures Nested(Slots(qs, fine), Width(fine), Slots(qs, coarse), Width(coarse))
  {
    var fs, cs := Slots(qs, fine), Slots(qs, coarse);
    forall k | 0 <= k < |qs|
      ensures cs[k] <= fs[k]
    {
      FloorLaws(qs[k].at, qs[k].at, StepSeconds(fine), StepSeconds(coarse));
    }
    forall j, k | 0 <= j < |qs| && 0 <= k < |qs| && fs[j] < cs[k] + Width(coarse)
      ensures fs[j] + Width(fine) <= cs[k] + Width(coarse)
    {
      StraddlesNothing(qs[j].at, qs[k].at, fine, coarse);
    }
  }

  lemma {:induction false} StraddlesNothing(t: Instant, u: Instant, fine: Interval, coarse: Interval)
    requires StepSeconds(coarse) % StepSeconds(fine) == 0
    requires FloorToInterval(t, StepSeconds(fine)) < FloorToInterval(u, StepSeconds(coarse)) + Width(coarse)
    ensures FloorToInterval(t, StepSeconds(fine)) + Width(fine)
         <= FloorToInterval(u, StepSeconds(coarse)) + Width(coarse)
  {
    var f, c := FloorToInterval(t, StepSeconds(fine)), FloorToInterval(u, StepSeconds(coarse));
    FloorIsLastGridPoint(t, StepSeconds(fine));
    FloorIsLastGridPoint(u, StepSeconds(coarse));
    WidthsDivide(StepSeconds(fine), StepSeconds(coarse));
    GridNext(c, Width(coarse));
    GridNested(c + Width(coarse), Width(fine), Width(coarse));
    GridDistance(f, c + Width(coarse), Width(fine));
  }

  /**
   For every arrival order, late quotes included: the fine bucket stays inside the
   coarse one, and every coarse candle, closed or in progress, is the merge of the
   fine candles in its span.
   */
  lemma {:induction false} IntervalsCohere(qs: seq<Quote>, fine: Interval, coarse: Interval)
    requires StepSeconds(coarse) % StepSeconds(fine) == 0 && qs != []
    ensures Coherent(Tracked(qs, fine), Tracked(qs, coarse))
  {
    GridIsSlotted(qs, fine);
    GridIsSlotted(qs, coarse);
    GridsNest(qs, fine, coarse);
    FoldsCohere(qs, Slots(qs, fine), Width(fine), Slots(qs, coarse), Width(coarse), |qs|);
  }

  lemma {:induction false} FoldsCohere(qs: seq<Quote>, fs: seq<Instant>, fw: int, cs: seq<Instant>, cw: int, n: nat)
    requires 0 < n <= |qs| && Slotted(qs, fs, fw) && Slotted(qs, cs, cw) && Nested(fs, fw, cs, cw)
    ensures Coherent(Fold(qs, fs, fw, n), Fold(qs, cs, cw, n))
  {
    if n == 1 {
      assert InItsSlot(qs, fs, fw, 0) && InItsSlot(qs, cs, cw, 0);
      CoherenceStarts(qs[0], fs[0], fw, cs[0], cw);
    } else {
      FoldsCohere(qs, fs, fw, cs, cw, n - 1);
      FoldIsPlaced(qs, fs, fw, n - 1);
      FoldIsPlaced(qs, cs, cw, n - 1);
      QuoteKeepsCoherence(Fold(qs, fs, fw, n - 1), Fold(qs, cs, cw, n - 1), qs, fs, fw, cs, cw, n - 1);
    }
  }

  lemma {:induction false} CoherenceStarts(q: Quote, fs: Instant, fw: int, cs: Instant, cw: int)
    requires cs <= fs < cs + cw && fs + fw <= cs + cw
    ensures Coherent(Advanced([], q, fs, fw), Advanced([], q, cs, cw))
  {
    var f, c := BarAfter(None, q, fs, fw), BarAfter(None, q, cs, cw);
    WithinAppend([], f, c.start, c.end);
    assert [] + [f] == [f] && Within([f], c.start, c.end) == [f];
    MergeOfOne(c, f);
  }

  lemma {:induction false} QuoteKeepsCoherence(f: seq<Bar>, c: seq<Bar>, qs: seq<Quote>, fs: seq<Instant>, fw: int,
                                               cs: seq<Instant>,
                            cw: int, n: nat)
    requires n < |qs| && Slotted(qs, fs, fw) && Slotted(qs, cs, cw) && Nested(fs, fw, cs, cw)
    requires Coherent(f, c) && Disjoint(f) && Disjoint(c) && OnSlots(f, fs, fw) && OnSlots(c, cs, cw)
    ensures Coherent(Advanced(f, qs[n], fs[n], fw), Advanced(c, qs[n], cs[n], cw))
  {
    RollsForward(qs, fs, fw, f[|f| - 1], n);
    RollsForward(qs, cs, cw, c[|c| - 1], n);
    StraddlesNoBar(fs, fw, cs, cw, c[|c| - 1], n);
    assert InItsSlot(qs, fs, fw, n) && InItsSlot(qs, cs, cw, n);
    assert fs[n] < cs[n] + cw ==> fs[n] + fw <= cs[n] + cw;
    CoherenceStep(f, c, qs[n], fs[n], fw, cs[n], cw);
  }

  lemma {:induction false} StraddlesNoBar(fs: seq<Instant>, fw: int, cs: seq<Instant>, cw: int, c: Bar, n: nat)
    requires Nested(fs, fw, cs, cw) && n < |fs|
    requires c.start in cs && c.end == c.start + cw
    ensures fs[n] < c.end ==> fs[n] + fw <= c.end
  {
    var k :| 0 <= k < |cs| && cs[k] == c.start;
    assert fs[n] < cs[k] + cw ==> fs[n] + fw <= cs[k] + cw;
  }

  lemma {:induction false} CoherenceStep(f: seq<Bar>, c: seq<Bar>, q: Quote, fs: Instant, fw: int, cs: Instant, cw: int)
    requires Coherent(f, c) && Disjoint(f) && Disjoint(c)
    requires fw > 0 && cs <= fs && fs + fw <= cs + cw
    requires Elapsed(LastOf(f), q) ==> f[|f| - 1].end <= fs
    requires Elapsed(LastOf(c), q) ==> c[|c| - 1].end <= cs
    requires !Elapsed(LastOf(c), q) ==> fs + fw <= c[|c| - 1].end
    ensures Coherent(Advanced(f, q, fs, fw), Advanced(c, q, cs, cw))
  {
    var f', b := Advanced(f, q, fs, fw), BarAfter(LastOf(c), q, cs, cw);
    CurrentSpanMerges(f, c[|c| - 1], q, fs, fw, cs, cw);
    SettledSpansKeep(f, c, q, fs, fw);
    AllMerge(f', Settled(c, q), b);
    LastsInside(f, c, q, fs, fw, cs, cw);
  }

  lemma {:induction false} AllMerge(f: seq<Bar>, front: seq<Bar>, b: Bar)
    requires MergesSpan(b, f) && forall k :: 0 <= k < |front| ==> MergesSpan(front[k], f)
    ensures forall k :: 0 <= k < |front + [b]| ==> MergesSpan((front + [b])[k], f)
  {
  }

  lemma {:induction false} LastsInside(f: seq<Bar>, c: seq<Bar>, q: Quote, fs: Instant, fw: int, cs: Instant, cw: int)
    requires Inside(f, c)
    requires fw > 0 && cs <= fs && fs + fw <= cs + cw
    requires Elapsed(LastOf(f), q) ==> f[|f| - 1].start < f[|f| - 1].end <= fs
    requires !Elapsed(LastOf(c), q) ==> fs + fw <= c[|c| - 1].end
    ensures Inside(Advanced(f, q, fs, fw), Advanced(c, q, cs, cw))
  {
    AdvanceEmits(f, q, fs, fw);
    AdvanceEmits(c, q, cs, cw);
  }

  /** The coarse bars a quote does not touch still merge their spans. */
  lemma {:induction false} SettledSpansKeep(f: seq<Bar>, c: seq<Bar>, q: Quote, fs: Instant, fw: int)
    requires Coherent(f, c) && Disjoint(c)
    requires Elapsed(LastOf(f), q) ==> f[|f| - 1].start < f[|f| - 1].end <= fs
    requires Elapsed(LastOf(c), q) ==> c[|c| - 1].end <= fs
    ensures forall k :: 0 <= k < |Settled(c, q)| ==> MergesSpan(Settled(c, q)[k], Advanced(f, q, fs, fw))
  {
    forall k | 0 <= k < |Settled(c, q)|
      ensures MergesSpan(Settled(c, q)[k], Advanced(f, q, fs, fw))
    {
      assert MergesSpan(c[k], f);
      assert k < |c| - 1 ==> c[k].end <= c[|c| - 1].start;
      EarlierSpanKeeps(f, c[k], q, fs, fw);
    }
  }

  /** The coarse bar that takes the quote merges the fine bars of its span. */
  lemma {:induction false} CurrentSpanMerges(f: seq<Bar>, cb: Bar, q: Quote, fs: Instant, fw: int, cs: Instant, cw: int)
    requires f != [] && Disjoint(f) && MergesSpan(cb, f)
    requires cb.start <= f[|f| - 1].start && f[|f| - 1].end <= cb.end
    requires fw > 0 && cs <= fs && fs + fw <= cs + cw
    requires Elapsed(LastOf(f), q) ==> f[|f| - 1].end <= fs
    requires q.at >= cb.end ==> cb.end <= cs
    requires q.at < cb.end ==> fs + fw <= cb.end
    ensures MergesSpan(BarAfter(Some(cb), q, cs, cw), Advanced(f, q, fs, fw))
  {
    if q.at >= cb.end {
      StartsBefore(f, cs);
      RolledCoarseMerges(f, q, fs, fw, cs, cw);
    } else {
      KeptCoarseMerges(f, cb, q, fs, fw);
    }
  }

  lemma {:induction false} StartsBefore(f: seq<Bar>, bound: Instant)
    requires f != [] && Disjoint(f) && f[|f| - 1].end <= bound
    ensures forall k :: 0 <= k < |f| ==> f[k].start < bound
  {
  }

  lemma {:induction false} RolledCoarseMerges(f: seq<Bar>, q: Quote, fs: Instant, fw: int, cs: Instant, cw: int)
    requires forall k :: 0 <= k < |f| ==> f[k].start < cs
    requires cs <= fs < cs + cw
    ensures MergesSpan(BarAfter(None, q, cs, cw), f + [BarAfter(None, q, fs, fw)])
  {
    var f', c' := BarAfter(None, q, fs, fw), BarAfter(None, q, cs, cw);
    WithinNone(f, cs, cs + cw);
    WithinAppend(f, f', cs, cs + cw);
    assert Within(f + [f'], cs, cs + cw) == [f'];
    MergeOfOne(c', f');
  }

  lemma {:induction false} KeptCoarseMerges(f: seq<Bar>, cb: Bar, q: Quote, fs: Instant, fw: int)
    requires f != [] && MergesSpan(cb, f)
    requires cb.start <= f[|f| - 1].start < cb.end
    requires Elapsed(LastOf(f), q) ==> cb.start <= fs < cb.end
    ensures MergesSpan(Updated(cb, q.price, q.volume), Advanced(f, q, fs, fw))
  {
    var front, fb := f[..|f| - 1], f[|f| - 1];
    var inner := Within(front, cb.start, cb.end);
    assert f == front + [fb];
    WithinAppend(front, fb, cb.start, cb.end);
    if Elapsed(LastOf(f), q) {
      WithinAppend(f, BarAfter(None, q, fs, fw), cb.start, cb.end);
      MergeAppendsFresh(cb, inner + [fb], q, fs, fw);
    } else {
      WithinAppend(front, Updated(fb, q.price, q.volume), cb.start, cb.end);
      MergeUpdatesLast(cb, inner, fb, q.price, q.volume);
    }
  }

  /** A span that ended before the fine bar that takes the quote is left alone. */
  lemma {:induction false} EarlierSpanKeeps(f: seq<Bar>, c: Bar, q: Quote, fs: Instant, fw: int)
    requires MergesSpan(c, f) && f != []
    requires Elapsed(LastOf(f), q) ==> c.end <= fs
    requires !Elapsed(LastOf(f), q) ==> c.end <= f[|f| - 1].start
    ensures MergesSpan(c, Advanced(f, q, fs, fw))
  {
    var front, fb := f[..|f| - 1], f[|f| - 1];
    assert f == front + [fb];
    WithinAppend(front, fb, c.start, c.end);
    WithinAppend(Settled(f, q), BarAfter(LastOf(f), q, fs, fw), c.start, c.end);
    assert Within(Advanced(f, q, fs, fw), c.start, c.end) == Within(f, c.start, c.end);
  }

  // ---- In-order arrival ---------------------------------------------------

  lemma {:induction false} InSlotNone(qs: seq<Quote>, slots: seq<Instant>, start: Instant, n: nat)
    requires n <= |qs| == |slots|
    requires forall k :: 0 <= k < n ==> slots[k] != start
    ensures InSlot(qs, slots, start, n) == []
  {
    if n > 0 {
      InSlotNone(qs, slots, start, n - 1);
    }
  }

  lemma {:induction false} QuoteVolumePrefix(qs: seq<Quote>, q: Quote, n: nat)
    requires n <= |qs|
    ensures QuoteVolume(qs + [q], n) == QuoteVolume(qs, n)
  {
    if n > 0 {
      QuoteVolumePrefix(qs, q, n - 1);
    }
  }

  lemma {:induction false} BarOfExtends(b: Bar, qs: seq<Quote>, q: Quote)
    requires IsBarOf(b, qs)
    ensures IsBarOf(Updated(b, q.price, q.volume), qs + [q])
  {
    var new', n := qs + [q], |qs|;
    QuoteVolumePrefix(qs, q, n);
    var b' := Updated(b, q.price, q.volume);
    var h :| 0 <= h < n && qs[h].price == b.high;
    var l :| 0 <= l < n && qs[l].price == b.low;
    assert new'[if q.price > b.high then n else h].price == b'.high;
    assert new'[if q.price < b.low then n else l].price == b'.low;
  }

  lemma {:induction false} BarOfOne(q: Quote, start: Instant, width: int)
    ensures IsBarOf(BarAfter(None, q, start, width), [q])
  {
    assert [q][0] == q && QuoteVolume([q], 0) == 0;
  }

  /** Some bar is that of the slot of quote `k`. */
  ghost predicate HasBar(bs: seq<Bar>, slots: seq<Instant>, k: nat)
    requires k < |slots|
  {
    exists j :: 0 <= j < |bs| && bs[j].start == slots[k]
  }

  ghost predicate Summarised(bs: seq<Bar>, qs: seq<Quote>, slots: seq<Instant>, n: nat)
    requires n <= |qs| == |slots|
  {
    forall k :: 0 <= k < |bs| ==> IsGroup(bs, qs, slots, n, k)
  }

  /** Bar `k` summarises exactly the quotes of its slot. */
  ghost predicate IsGroup(bs: seq<Bar>, qs: seq<Quote>, slots: seq<Instant>, n: nat, k: nat)
    requires n <= |qs| == |slots| && k < |bs|
  {
    IsBarOf(bs[k], InSlot(qs, slots, bs[k].start, n))
  }

  ghost predicate Complete(bs: seq<Bar>, slots: seq<Instant>, n: nat)
    requires n <= |slots|
  {
    forall k :: 0 <= k < n ==> HasBar(bs, slots, k)
  }

  /**
   For in-order quotes the emitted candles plus the one in progress are exactly the
   groups of same-slot quotes: starts strictly increase (SpansDisjoint), each candle
   has the first, extreme, last and summed values of its slot, and no slot is missing.
   */
  lemma {:induction false} InOrderGroups(qs: seq<Quote>, i: Interval)
    requires Chronological(qs)
    ensures Summarised(Tracked(qs, i), qs, Slots(qs, i), |qs|)
    ensures Complete(Tracked(qs, i), Slots(qs, i), |qs|)
  {
    GridIsSlotted(qs, i);
    FoldGroups(qs, Slots(qs, i), Width(i), |qs|, Tracked(qs, i));
  }

  lemma {:induction false} FoldGroups(qs: seq<Quote>, slots: seq<Instant>, width: int, n: nat, bars: seq<Bar>)
    requires n <= |qs| && Slotted(qs, slots, width) && Chronological(qs)
    requires bars == Fold(qs, slots, width, n)
    ensures OnSlots(bars, slots, width) && Disjoint(bars)
    ensures Summarised(bars, qs, slots, n) && Complete(bars, slots, n) && UpToDate(bars, slots, n)
    decreases n
  {
    if n > 0 {
      var m := n - 1;
      var before := Fold(qs, slots, width, m);
      FoldGroups(qs, slots, width, m, before);
      PlacedStep(before, qs, slots, width, m, bars);
      InOrderStep(before, qs, slots, width, m, n, bars);
    }
  }

  ghost predicate LastStarts(bs: seq<Bar>, start: Instant) {
    bs != [] && bs[|bs| - 1].start == start
  }

  /** The last bar after `n` quotes is that of the latest quote's slot. */
  ghost predicate UpToDate(bs: seq<Bar>, slots: seq<Instant>, n: nat)
    requires n <= |slots|
  {
    if n == 0 then bs == [] else LastStarts(bs, slots[n - 1])
  }

  lemma {:induction false} OpeningStep(bs: seq<Bar>, b: Bar, qs: seq<Quote>, slots: seq<Instant>, width: int, n: nat,
                                       after: seq<Bar>)
    requires n < |qs| == |slots| && Summarised(bs, qs, slots, n) && Complete(bs, slots, n) && Disjoint(bs)
    requires b == BarAfter(None, qs[n], slots[n], width) && (bs == [] || bs[|bs| - 1].end <= slots[n])
    requires after == bs + [b]
    ensures Summarised(after, qs, slots, n + 1) && Complete(after, slots, n + 1) && UpToDate(after, slots, n + 1)
  {
    BarOfOne(qs[n], slots[n], width);
    StartsEarlier(bs, slots[n]);
    GroupOpens(bs, qs, slots, n, b);
  }

  lemma {:induction false} JoiningStep(bs: seq<Bar>, front: seq<Bar>, last: Bar, qs: seq<Quote>, slots: seq<Instant>,
                                       n: nat, after: seq<Bar>)
    requires n < |qs| == |slots| && Summarised(bs, qs, slots, n) && Complete(bs, slots, n) && Disjoint(bs)
    requires bs == front + [last] && last.start == slots[n]
    requires after == front + [Updated(last, qs[n].price, qs[n].volume)]
    ensures Summarised(after, qs, slots, n + 1) && Complete(after, slots, n + 1) && UpToDate(after, slots, n + 1)
  {
    StartsDiffer(bs);
    assert forall k :: 0 <= k < |front| ==> bs[k] == front[k];
    GroupGrows(front, last, bs, qs, slots, n);
  }

  /** A quote past the last bar opens a later slot; any other has the slot of the last bar. */
  lemma {:induction false} OpensOrJoins(bs: seq<Bar>, qs: seq<Quote>, slots: seq<Instant>, width: int, n: nat)
    requires n < |qs| && Slotted(qs, slots, width) && Chronological(qs)
    requires bs != [] && OnSlots(bs, slots, width) && UpToDate(bs, slots, n)
    ensures if Elapsed(LastOf(bs), qs[n]) then bs[|bs| - 1].end <= slots[n] else bs[|bs| - 1].start == slots[n]
  {
    var last := bs[|bs| - 1];
    RollsForward(qs, slots, width, last, n);
    StaysInSlot(qs, slots, width, last, n);
  }

  lemma {:induction false} InOrderStep(bs: seq<Bar>, qs: seq<Quote>, slots: seq<Instant>, width: int, n: nat, next: nat,
                                       after: seq<Bar>)
    requires n < |qs| && next == n + 1 && Slotted(qs, slots, width) && Chronological(qs)
    requires OnSlots(bs, slots, width) && Disjoint(bs)
    requires Summarised(bs, qs, slots, n) && Complete(bs, slots, n) && UpToDate(bs, slots, n)
    requires after == Advanced(bs, qs[n], slots[n], width)
    ensures Summarised(after, qs, slots, next) && Complete(after, slots, next) && UpToDate(after, slots, next)
  {
    if bs != [] {
      OpensOrJoins(bs, qs, slots, width, n);
    }
    if bs == [] || Elapsed(LastOf(bs), qs[n]) {
      OpeningStep(bs, BarAfter(LastOf(bs), qs[n], slots[n], width), qs, slots, width, n, after);
    } else {
      JoiningStep(bs, bs[..|bs| - 1], bs[|bs| - 1], qs, slots, n, after);
    }
  }

  lemma {:induction false} StartsEarlier(bs: seq<Bar>, bound: Instant)
    requires Disjoint(bs) && (bs != [] ==> bs[|bs| - 1].end <= bound)
    ensures forall k :: 0 <= k < |bs| ==> bs[k].start != bound
  {
  }

  lemma {:induction false} StartsDiffer(bs: seq<Bar>)
    requires Disjoint(bs) && bs != []
    ensures forall k :: 0 <= k < |bs| - 1 ==> bs[k].start != bs[|bs| - 1].start
  {
  }

  /** In order, a quote leaves the span of an earlier quote's slot exactly when it has another slot. */
  lemma {:induction false} RollsWithTheSlot(qs: seq<Quote>, slots: seq<Instant>, width: int, j: nat, k: nat)
    requires j < k < |qs| && Slotted(qs, slots, width) && Chronological(qs)
    ensures qs[k].at >= slots[j] + width <==> slots[k] != slots[j]
  {
    assert NoLater(qs, j, k) && InItsSlot(qs, slots, width, j) && InItsSlot(qs, slots, width, k);
    assert Apart(slots, width, j, k) && Apart(slots, width, k, j);
  }

  lemma {:induction false} StaysInSlot(qs: seq<Quote>, slots: seq<Instant>, width: int, b: Bar, n: nat)
    requires 0 < n < |qs| && Slotted(qs, slots, width) && Chronological(qs)
    requires b.start == slots[n - 1] && b.end == b.start + width
    ensures qs[n].at < b.end ==> slots[n] == b.start
  {
    RollsWithTheSlot(qs, slots, width, n - 1, n);
  }

  /** A quote that opens a slot of its own adds a group. */
  lemma {:induction false} GroupOpens(bs: seq<Bar>, qs: seq<Quote>, slots: seq<Instant>, n: nat, b: Bar)
    requires n < |qs| == |slots| && Summarised(bs, qs, slots, n) && Complete(bs, slots, n)
    requires b.start == slots[n] && IsBarOf(b, [qs[n]])
    requires forall k :: 0 <= k < |bs| ==> bs[k].start != b.start
    ensures Summarised(bs + [b], qs, slots, n + 1) && Complete(bs + [b], slots, n + 1)
  {
    forall k | 0 <= k < n
      ensures slots[k] != b.start && HasBar(bs + [b], slots, k)
    {
      assert HasBar(bs, slots, k);
      var j :| 0 <= j < |bs| && bs[j].start == slots[k];
      assert (bs + [b])[j] == bs[j];
    }
    InSlotNone(qs, slots, b.start, n);
    assert [] + [qs[n]] == [qs[n]];
    GroupsAppend(bs, qs, slots, n, b);
  }

  /** A quote of the last slot joins the last group. */
  lemma {:induction false} GroupGrows(front: seq<Bar>, last: Bar, bs: seq<Bar>, qs: seq<Quote>, slots: seq<Instant>, n: nat)
    requires n < |qs| == |slots| && bs == front + [last]
    requires Summarised(bs, qs, slots, n) && Complete(bs, slots, n)
    requires last.start == slots[n]
    requires forall k :: 0 <= k < |front| ==> front[k].start != last.start
    ensures var bs' := front + [Updated(last, qs[n].price, qs[n].volume)];
            Summarised(bs', qs, slots, n + 1) && Complete(bs', slots, n + 1)
  {
    var b := Updated(last, qs[n].price, qs[n].volume);
    forall k | 0 <= k < n
      ensures HasBar(front + [b], slots, k)
    {
      assert HasBar(bs, slots, k);
      var j :| 0 <= j < |bs| && bs[j].start == slots[k];
      assert (front + [b])[j].start == bs[j].start;
    }
    forall k | 0 <= k < |front|
      ensures IsGroup(front, qs, slots, n, k)
    {
      assert bs[k] == front[k] && IsGroup(bs, qs, slots, n, k);
    }
    assert bs[|front|] == last && IsGroup(bs, qs, slots, n, |front|);
    BarOfExtends(last, InSlot(qs, slots, last.start, n), qs[n]);
    GroupsAppend(front, qs, slots, n, b);
  }

  lemma {:induction false} GroupsAppend(front: seq<Bar>, qs: seq<Quote>, slots: seq<Instant>, n: nat, b: Bar)
    requires n < |qs| == |slots| && b.start == slots[n]
    requires forall k :: 0 <= k < |front| ==> front[k].start != b.start
    requires Summarised(front, qs, slots, n)
    requires forall k :: 0 <= k < n ==> HasBar(front + [b], slots, k)
    requires IsBarOf(b, InSlot(qs, slots, b.start, n) + [qs[n]])
    ensures Summarised(front + [b], qs, slots, n + 1) && Complete(front + [b], slots, n + 1)
  {
    var all, next := front + [b], n + 1;
    forall k | 0 <= k < |all|
      ensures IsGroup(all, qs, slots, next, k)
    {
      if k < |front| {
        assert all[k] == front[k] && IsGroup(front, qs, slots, n, k);
        assert InSlot(qs, slots, all[k].start, n + 1) == InSlot(qs, slots, all[k].start, n);
      }
    }
    assert all[|front|].start == b.start;
  }

  // ---- One more quote -----------------------------------------------------

  lemma {:induction false} FoldOfPrefix(qs: seq<Quote>, q: Quote, slots: seq<Instant>, slot: Instant, width: int, n: nat)
    requires n <= |qs| == |slots|
    ensures Fold(qs + [q], slots + [slot], width, n) == Fold(qs, slots, width, n)
  {
    if n > 0 {
      FoldOfPrefix(qs, q, slots, slot, width, n - 1);
    }
  }

  lemma {:induction false} SlotsAppend(qs: seq<Quote>, q: Quote, i: Interval)
    ensures Slots(qs + [q], i) == Slots(qs, i) + [SlotOf(q, i)]
  {
  }

  lemma {:induction false} FoldAppend(qs: seq<Quote>, q: Quote, slots: seq<Instant>, slot: Instant, width: int)
    requires |qs| == |slots|
    ensures Fold(qs + [q], slots + [slot], width, |qs| + 1) == Advanced(Fold(qs, slots, width, |qs|), q, slot, width)
  {
    FoldOfPrefix(qs, q, slots, slot, width, |qs|);
  }

  lemma {:induction false} TrackedAppend(qs: seq<Quote>, q: Quote, i: Interval)
    ensures Tracked(qs + [q], i) == Advanced(Tracked(qs, i), q, SlotOf(q, i), Width(i))
  {
    SlotsAppend(qs, q, i);
    FoldAppend(qs, q, Slots(qs, i), SlotOf(q, i), Width(i));
  }
}
