/**
 The in-memory book of open positions and its symbol index: when the index agrees with a
 full scan, what a closed candle does to the book, and the book's diff against the broker.

 The live and the paper position manager have the same book, index and candle handler, and
 one class stands for both.
 */
module PositionBooks {
  import opened Wrappers
  import opened MarketClock
  import opened Rounding

  type PositionId = nat

  datatype Side = Long | Short

  // ---- The index as a value -----------------------------------------------

  /** Under which symbol each position is booked, and which ids the index lists by symbol. */
  datatype Shelf = Shelf(home: map<PositionId, Symbol>, index: map<Symbol, set<PositionId>>)

  function Listed(index: map<Symbol, set<PositionId>>, s: Symbol): set<PositionId> {
    if s in index then index[s] else {}
  }

  function Added(shelf: Shelf, id: PositionId, s: Symbol): Shelf {
    Shelf(shelf.home[id := s], shelf.index[s := Listed(shelf.index, s) + {id}])
  }

  function Removed(shelf: Shelf, id: PositionId): Shelf {
    if id !in shelf.home then shelf else
    var s := shelf.home[id];
    Shelf(shelf.home - {id}, if s in shelf.index then shelf.index[s := shelf.index[s] - {id}] else shelf.index)
  }

  datatype Entry = Entry(id: PositionId, symbol: Symbol)

  function Hydrated(entries: seq<Entry>): Shelf {
    if entries == [] then Shelf(map[], map[]) else
    var last := entries[|entries| - 1];
    Added(Hydrated(entries[..|entries| - 1]), last.id, last.symbol)
  }

  /** An id is listed under a symbol exactly when the book holds it under that symbol. */
  ghost predicate Coherent(shelf: Shelf) {
    forall s, id :: id in Listed(shelf.index, s) <==> (id in shelf.home && shelf.home[id] == s)
  }

  /** The id is new to the book, or comes back under the symbol it already has. */
  predicate Admissible(shelf: Shelf, id: PositionId, s: Symbol) {
    id in shelf.home ==> shelf.home[id] == s
  }

  ghost predicate Consistent(entries: seq<Entry>) {
    forall i, j :: 0 <= i < j < |entries| && entries[i].id == entries[j].id ==> entries[i] == entries[j]
  }

  /** Adding a position keeps the index coherent exactly when the id is new or keeps its symbol. */
  lemma {:induction false} AddIsCoherentIff(shelf: Shelf, id: PositionId, s: Symbol)
    requires Coherent(shelf)
    ensures Coherent(Added(shelf, id, s)) <==> Admissible(shelf, id, s)
  {
    var after := Added(shelf, id, s);
    if Admissible(shelf, id, s) {
      forall t, k
        ensures k in Listed(after.index, t) <==> (k in after.home && after.home[k] == t)
      {
        assert k in Listed(shelf.index, t) <==> (k in shelf.home && shelf.home[k] == t);
      }
    } else {
      var t := shelf.home[id];
      assert id in Listed(shelf.index, t);
      assert id in Listed(after.index, t) && after.home[id] != t;
    }
  }

  lemma {:induction false} RemoveIsCoherent(shelf: Shelf, id: PositionId)
    requires Coherent(shelf)
    ensures Coherent(Removed(shelf, id)) && id !in Removed(shelf, id).home
  {
    var after := Removed(shelf, id);
    forall t, k
      ensures k in Listed(after.index, t) <==> (k in after.home && after.home[k] == t)
    {
      assert k in Listed(shelf.index, t) <==> (k in shelf.home && shelf.home[k] == t);
    }
  }

  lemma {:induction false} HydratedLists(entries: seq<Entry>)
    ensures forall s, id :: id in Listed(Hydrated(entries).index, s) <==> Entry(id, s) in entries
    ensures forall id :: id in Hydrated(entries).home <==> exists s :: Entry(id, s) in entries
    ensures forall id :: id in Hydrated(entries).home ==> Entry(id, Hydrated(entries).home[id]) in entries
  {
    if entries != [] {
      var k := |entries| - 1;
      HydratedLists(entries[..k]);
      assert entries == entries[..k] + [entries[k]];
      forall id
        ensures id in Hydrated(entries).home <==> exists s :: Entry(id, s) in entries
      {
        if id == entries[k].id {
          assert Entry(id, entries[k].symbol) in entries;
        }
      }
    }
  }

  lemma {:induction false} CoherentHydrateIsConsistent(entries: seq<Entry>, i: nat, j: nat)
    requires Coherent(Hydrated(entries)) && i < j < |entries| && entries[i].id == entries[j].id
    ensures entries[i] == entries[j]
  {
    HydratedLists(entries);
    var shelf, a, b := Hydrated(entries), entries[i], entries[j];
    assert a == Entry(a.id, a.symbol) && b == Entry(b.id, b.symbol);
    assert a.id in Listed(shelf.index, a.symbol) && b.id in Listed(shelf.index, b.symbol);
    assert shelf.home[a.id] == a.symbol && shelf.home[b.id] == b.symbol;
  }

  lemma {:induction false} ConsistentHydrateIsCoherent(entries: seq<Entry>)
    requires Consistent(entries)
    ensures Coherent(Hydrated(entries))
  {
    HydratedLists(entries);
    var shelf := Hydrated(entries);
    forall s, id
      ensures id in Listed(shelf.index, s) <==> (id in shelf.home && shelf.home[id] == s)
    {
      if Entry(id, s) in entries {
        assert id in shelf.home && Entry(id, shelf.home[id]) in entries;
      }
    }
  }

  /** A hydrated book is coherent exactly when no id comes with two symbols. */
  lemma {:induction false} HydrateIsCoherentIff(entries: seq<Entry>)
    ensures Coherent(Hydrated(entries)) <==> Consistent(entries)
  {
    if Coherent(Hydrated(entries)) {
      forall i, j | 0 <= i < j < |entries| && entries[i].id == entries[j].id
        ensures entries[i] == entries[j]
      {
        CoherentHydrateIsConsistent(entries, i, j);
      }
    }
    if Consistent(entries) {
      ConsistentHydrateIsCoherent(entries);
    }
  }

  datatype Event = Add(entry: Entry) | Remove(id: PositionId) | Hydrate(entries: seq<Entry>)

  function Handled(shelf: Shelf, e: Event): Shelf {
    match e
    case Add(entry) => Added(shelf, entry.id, entry.symbol)
    case Remove(id) => Removed(shelf, id)
    case Hydrate(entries) => Hydrated(entries)
  }

  function Run(events: seq<Event>, n: nat): Shelf
    requires n <= |events|
  {
    if n == 0 then Shelf(map[], map[]) else Handled(Run(events, n - 1), events[n - 1])
  }

  ghost predicate WellKeyed(shelf: Shelf, e: Event) {
    match e
    case Add(entry) => Admissible(shelf, entry.id, entry.symbol)
    case Remove(_) => true
    case Hydrate(entries) => Consistent(entries)
  }

  /** Each of the first `n` events is well keyed when it comes. */
  ghost predicate WellKeyedRun(events: seq<Event>, n: nat)
    requires n <= |events|
  {
    n == 0 || (WellKeyedRun(events, n - 1) && WellKeyed(Run(events, n - 1), events[n - 1]))
  }

  /** Over any run whose adds and hydrates never rebook an id under another symbol, the index is a full scan. */
  lemma {:induction false} IndexIsAScan(events: seq<Event>, n: nat)
    requires n <= |events| && WellKeyedRun(events, n)
    ensures Coherent(Run(events, n))
  {
    if n > 0 {
      IndexIsAScan(events, n - 1);
      HandledIsCoherent(Run(events, n - 1), events[n - 1]);
    }
  }

  lemma {:induction false} HandledIsCoherent(shelf: Shelf, e: Event)
    requires Coherent(shelf) && WellKeyed(shelf, e)
    ensures Coherent(Handled(shelf, e))
  {
    match e
    case Add(entry) => AddIsCoherentIff(shelf, entry.id, entry.symbol);
    case Remove(id) => RemoveIsCoherent(shelf, id);
    case Hydrate(entries) => HydrateIsCoherentIff(entries);
  }

  // ---- Positions and candles ----------------------------------------------

  function Signed(side: Side, quantity: int): int {
    if side.Long? then quantity else -quantity
  }

  function UnrealizedPnl(side: Side, quantity: int, entry: real, current: real): int {
    var delta := if side.Short? then -(current - entry) else current - entry;
    Round(Worth(delta, quantity))
  }

  function Worth(delta: real, quantity: int): real {
    delta * quantity as real
  }

  /** The position's result at a higher price is no worse for a LONG, no better for a SHORT. */
  predicate NoWorse(side: Side, price: real, than: real) {
    if side.Long? then price >= than else price <= than
  }

  /** The mark is, to the nearest unit, what the shares would bring less what they cost, or the reverse for a SHORT. */
  predicate IsMark(mark: int, side: Side, quantity: int, average: real, close: real) {
    var gain := close * quantity as real - average * quantity as real;
    -0.5 <= mark as real - (if side.Long? then gain else -gain) <= 0.5
  }

  lemma {:induction false} MarkIsNear(side: Side, quantity: int, average: real, close: real)
    ensures IsMark(UnrealizedPnl(side, quantity, average, close), side, quantity, average, close)
  {
    WorthIsTheDifference(average, close, quantity);
    WorthIsOdd(close - average, quantity);
  }

  lemma {:induction false} WorthIsTheDifference(average: real, close: real, quantity: int)
    ensures Worth(close - average, quantity) == close * quantity as real - average * quantity as real
  {
  }

  lemma {:induction false} WorthIsOdd(delta: real, quantity: int)
    ensures Worth(-delta, quantity) == -Worth(delta, quantity)
  {
  }

  lemma {:induction false} WorthIsOrdered(low: real, high: real, quantity: nat)
    requires low <= high
    ensures Worth(low, quantity) <= Worth(high, quantity)
  {
  }

  /**
   What a mark says. A SHORT gains exactly what a LONG at the same numbers loses, nothing is gained
   at the average price, and a better close never marks a position lower.
   */
  lemma {:induction false} MarkLaws(side: Side, quantity: int, average: real, close: real, worse: real)
    requires NoWorse(side, close, worse)
    ensures IsMark(UnrealizedPnl(side, quantity, average, close), side, quantity, average, close)
    ensures UnrealizedPnl(Short, quantity, average, close) == -UnrealizedPnl(Long, quantity, average, close)
    ensures UnrealizedPnl(side, quantity, average, average) == 0
    ensures quantity >= 0 ==> UnrealizedPnl(side, quantity, average, close) >= UnrealizedPnl(side, quantity, average, worse)
  {
    MarkIsNear(side, quantity, average, close);
    MarkIsOdd(quantity, average, close);
    MarkIsOdd(quantity, average, average);
    MarkOfNothing(quantity, average);
    if quantity >= 0 {
      MarkIsMonotone(quantity, average, if side.Long? then worse else close, if side.Long? then close else worse);
      MarkIsOdd(quantity, average, worse);
    }
  }

  lemma {:induction false} MarkIsOdd(quantity: int, average: real, close: real)
    ensures UnrealizedPnl(Short, quantity, average, close) == -UnrealizedPnl(Long, quantity, average, close)
  {
    WorthIsOdd(close - average, quantity);
    RoundIsOdd(Worth(close - average, quantity));
  }

  lemma {:induction false} MarkOfNothing(quantity: int, average: real)
    ensures UnrealizedPnl(Long, quantity, average, average) == 0
  {
    WorthIsTheDifference(average, average, quantity);
    WholeIsFixed(0);
  }

  lemma {:induction false} MarkIsMonotone(quantity: nat, average: real, low: real, high: real)
    requires low <= high
    ensures UnrealizedPnl(Long, quantity, average, low) <= UnrealizedPnl(Long, quantity, average, high)
  {
    WorthIsOrdered(low - average, high - average, quantity);
    RoundIsMonotone(Worth(low - average, quantity), Worth(high - average, quantity));
  }

  predicate StopHit(side: Side, stop: real, close: real) {
    if side.Long? then close <= stop else close >= stop
  }

  class LivePosition {
    const id: PositionId
    const symbol: Symbol
    const side: Side
    var quantity: int
    var averagePrice: real
    var stopLoss: real
    var currentPrice: real
    var unrealizedPnl: int

    constructor (id: PositionId, symbol: Symbol, side: Side, quantity: int, averagePrice: real, stopLoss: real)
      ensures this.id == id && this.symbol == symbol && this.side == side && this.quantity == quantity
      ensures this.averagePrice == currentPrice == averagePrice && this.stopLoss == stopLoss && unrealizedPnl == 0
    {
      this.id, this.symbol, this.side, this.quantity := id, symbol, side, quantity;
      this.averagePrice, this.currentPrice, this.stopLoss, this.unrealizedPnl := averagePrice, averagePrice, stopLoss, 0;
    }

    /** Marks the position to a close. */
    method Mark(close: real) returns (update: PriceUpdate)
      modifies this`currentPrice, this`unrealizedPnl
      ensures currentPrice == close && unrealizedPnl == UnrealizedPnl(side, quantity, averagePrice, close)
      ensures IsMark(unrealizedPnl, side, quantity, averagePrice, close)
      ensures update == PriceUpdate(this, old(currentPrice), close)
    {
      update := PriceUpdate(this, currentPrice, close);
      currentPrice := close;
      unrealizedPnl := UnrealizedPnl(side, quantity, averagePrice, close);
      MarkIsNear(side, quantity, averagePrice, close);
    }
  }

  /** The positions by id, a later document replacing an earlier one. */
  function BookOf(positions: seq<LivePosition>): map<PositionId, LivePosition> {
    if positions == [] then map[] else
    var last := positions[|positions| - 1];
    BookOf(positions[..|positions| - 1])[last.id := last]
  }

  /** No later document has the same id. */
  ghost predicate LastOfItsId(positions: seq<LivePosition>, k: nat)
    requires k < |positions|
  {
    forall j :: k < j < |positions| ==> positions[j].id != positions[k].id
  }

  /** A hydrated book holds every document that no later one with the same id replaces. */
  lemma {:induction false} HydrateKeepsTheLast(positions: seq<LivePosition>, k: nat)
    requires k < |positions| && LastOfItsId(positions, k)
    ensures positions[k].id in BookOf(positions) && BookOf(positions)[positions[k].id] == positions[k]
  {
    var n := |positions| - 1;
    if k < n {
      assert positions[n].id != positions[k].id;
      HydrateKeepsTheLast(positions[..n], k);
    }
  }

  /** And nothing else. */
  lemma {:induction false} HydrateKeepsOnlyTheLast(positions: seq<LivePosition>, id: PositionId) returns (k: nat)
    requires id in BookOf(positions)
    ensures k < |positions| && LastOfItsId(positions, k) && positions[k] == BookOf(positions)[id] && positions[k].id == id
  {
    k := |positions| - 1;
    if positions[k].id != id {
      var front := positions[..k];
      k := HydrateKeepsOnlyTheLast(front, id);
      forall j | k < j < |positions|
        ensures positions[j].id != id
      {
        assert j < |front| ==> front[j] == positions[j];
      }
    }
  }

  datatype ExitReason = StopLossHit | EndOfDay | RiskHalt

  datatype ExitDecision = ExitDecision(position: LivePosition, reason: ExitReason, price: real, at: Instant)

  ghost predicate HasExit(exits: seq<ExitDecision>, p: LivePosition) {
    exists d :: d in exits && d.position == p
  }

  lemma {:induction false} MoreExits(before: seq<ExitDecision>, after: seq<ExitDecision>, p: LivePosition)
    requires after == before || (|after| == |before| + 1 && after[..|before|] == before && after[|before|].position == p)
    ensures forall q :: HasExit(after, q) <==> HasExit(before, q) || (q == p && |after| > |before|)
  {
    forall q
      ensures HasExit(after, q) <==> HasExit(before, q) || (q == p && |after| > |before|)
    {
      if after != before {
        assert after == before + [after[|before|]];
        assert after[|before|] in after;
      }
    }
  }

  datatype PriceUpdate = PriceUpdate(position: LivePosition, previous: real, current: real)

  /** A close is past the stop, or the candle ends late enough. */
  predicate Due(side: Side, stop: real, close: real, late: bool) {
    StopHit(side, stop, close) || late
  }

  /** On one candle the stop-loss takes precedence over the end of the day. */
  predicate IsExit(d: ExitDecision, side: Side, stop: real, close: real, late: bool, at: Instant) {
    && Due(side, stop, close, late) && d.at == at && d.reason != RiskHalt
    && (d.reason == StopLossHit <==> StopHit(side, stop, close))
    && d.price == (if d.reason == StopLossHit then stop else close)
  }

  /**
   What an exit decision means. There is one per position and candle; its price is never worse
   than the close and differs from it only on a stop, which is reported at the stop however far
   the close went through it; and a stop that is hit is hit, with the same decision, at every
   worse close, late or not.
   */
  lemma {:induction false} ExitLaws(d: ExitDecision, e: ExitDecision, side: Side, stop: real, close: real, worse: real,
                                    late: bool,
                 later: bool, at: Instant)
    requires d.position == e.position && IsExit(d, side, stop, close, late, at) && NoWorse(side, close, worse)
    ensures NoWorse(side, d.price, close) && (d.price != close ==> d.reason == StopLossHit && d.price == stop)
    ensures IsExit(e, side, stop, close, late, at) ==> e == d
    ensures d.reason == StopLossHit && IsExit(e, side, stop, worse, later, at) ==> e == d
    ensures d.reason == EndOfDay ==> late && !NoWorse(side, stop, close)
    ensures d.reason == StopLossHit <==> NoWorse(side, stop, close)
  {
  }

  // ---- The broker's view --------------------------------------------------

  /** A symbol as spelled by the broker; spelling 0 is its upper-case form. */
  datatype Name = Name(symbol: Symbol, spelling: nat)

  function Upper(s: Symbol): Name {
    Name(s, 0)
  }

  datatype BookDiff =
    | EngineOnly(symbol: Symbol, engineQuantity: int, id: PositionId)
    | QuantityDiffers(symbol: Symbol, engineQuantity: int, brokerQuantity: int, id: PositionId)
    | BrokerOnly(symbol: Symbol, brokerQuantity: int)

  /** What comparing one booked position with the broker reports. */
  function PositionDiff(s: Symbol, signed: int, id: PositionId, broker: map<Name, int>): Option<BookDiff> {
    if Upper(s) !in broker then Some(EngineOnly(s, signed, id))
    else if broker[Upper(s)] != signed then Some(QuantityDiffers(s, signed, broker[Upper(s)], id))
    else None
  }

  /** A report names the position, its signed quantity and, if the broker lists the symbol, the broker's different one. */
  lemma {:induction false} ReportsBothSides(s: Symbol, side: Side, quantity: int, id: PositionId, broker: map<Name,
                                            int>, d: BookDiff)
    requires !d.BrokerOnly?
    ensures var signed := if side.Long? then quantity else -quantity;
            (PositionDiff(s, Signed(side, quantity), id, broker) == Some(d)
             <==> && d.symbol == s && d.id == id && d.engineQuantity == signed
                  && (d.EngineOnly? <==> Upper(s) !in broker)
                  && (d.QuantityDiffers? ==> d.brokerQuantity == broker[Upper(s)] && d.brokerQuantity != signed))
  {
  }

  datatype Held = Held(symbol: Symbol, side: Side, quantity: int)

  /** Every signed quantity held is the broker's, and every broker symbol is held. */
  ghost predicate InStep(held: set<Held>, broker: map<Name, int>) {
    && (forall h :: h in held ==>
          Upper(h.symbol) in broker && broker[Upper(h.symbol)] == Signed(h.side, h.quantity))
    && (forall n :: n in broker ==> exists h :: h in held && h.symbol == n.symbol)
  }

  /** In step, the broker holds as many shares as the book, bought for a LONG and sold for a SHORT. */
  lemma {:induction false} InStepHasTheSign(held: set<Held>, broker: map<Name, int>, h: Held)
    requires InStep(held, broker) && h in held && h.quantity > 0
    ensures var there := broker[Upper(h.symbol)];
            && (there > 0 <==> h.side.Long?) && (there < 0 <==> h.side.Short?)
            && (there == h.quantity || there == -h.quantity)
  {
  }

  // ---- The manager --------------------------------------------------------

  class LivePositionManager {
    const endOfDay: int
    var book: map<PositionId, LivePosition>
    var bySymbol: map<Symbol, set<PositionId>>

    ghost predicate Valid()
      reads this
    {
      forall id :: id in book ==> book[id].id == id
    }

    ghost function View(): Shelf
      reads this
    {
      Shelf(map id | id in book :: book[id].symbol, bySymbol)
    }

    /** The positions the index leads to. */
    ghost function Selected(s: Symbol): set<LivePosition>
      reads this
    {
      set id | id in Listed(bySymbol, s) && id in book :: book[id]
    }

    /** The positions a scan of the whole book finds. */
    ghost function Scan(s: Symbol): set<LivePosition>
      reads this
    {
      set id | id in book && book[id].symbol == s :: book[id]
    }

    constructor (endOfDay: int)
      ensures Valid() && View() == Shelf(map[], map[]) && this.endOfDay == endOfDay
    {
      this.endOfDay := endOfDay;
      book, bySymbol := map[], map[];
    }

    lemma {:induction false} CoherentSelects(s: Symbol)
      requires Valid() && Coherent(View())
      ensures Selected(s) == Scan(s)
      ensures HasOpenForSymbol(s) <==> Scan(s) != {}
    {
      var shelf := View();
      assert forall id :: id in Listed(shelf.index, s) <==> (id in shelf.home && shelf.home[id] == s);
      if Listed(bySymbol, s) != {} {
        var id :| id in Listed(bySymbol, s);
        assert book[id] in Scan(s);
      }
    }

    /** With a coherent index the positions it leads to are those of a full scan. */
    ghost predicate SelectsTheScan(s: Symbol)
      reads this
    {
      Coherent(View()) ==> Selected(s) == Scan(s)
    }

    lemma {:induction false} SelectsIfCoherent(s: Symbol)
      requires Valid()
      ensures SelectsTheScan(s)
    {
      if Coherent(View()) {
        CoherentSelects(s);
      }
    }

    method AddPosition(p: LivePosition)
      requires Valid()
      modifies this
      ensures Valid() && book == old(book)[p.id := p] && View() == Added(old(View()), p.id, p.symbol)
    {
      book := book[p.id := p];
      bySymbol := bySymbol[p.symbol := Listed(bySymbol, p.symbol) + {p.id}];
    }

    method RemovePosition(id: PositionId) returns (removed: Option<LivePosition>)
      requires Valid()
      modifies this
      ensures Valid() && book == old(book) - {id} && View() == Removed(old(View()), id)
      ensures removed == if id in old(book) then Some(old(book)[id]) else None
    {
      if id !in book {
        return None;
      }
      var p := book[id];
      book := book - {id};
      if p.symbol in bySymbol {
        bySymbol := bySymbol[p.symbol := bySymbol[p.symbol] - {id}];
      }
      return Some(p);
    }

    ghost function Entries(positions: seq<LivePosition>): (entries: seq<Entry>)
      ensures |entries| == |positions|
    {
      seq(|positions|, i requires 0 <= i < |positions| => Entry(positions[i].id, positions[i].symbol))
    }

    method Hydrate(positions: seq<LivePosition>)
      modifies this
      ensures Valid() && View() == Hydrated(Entries(positions)) && book == BookOf(positions)
    {
      book, bySymbol := map[], map[];
      for i := 0 to |positions|
        invariant Valid() && View() == Hydrated(Entries(positions[..i])) && book == BookOf(positions[..i])
      {
        assert Entries(positions[..i + 1])[..i] == Entries(positions[..i]);
        assert positions[..i + 1][..i] == positions[..i];
        AddPosition(positions[i]);
      }
      assert positions[..|positions|] == positions;
    }

    predicate HasOpenForSymbol(s: Symbol)
      reads this
    {
      Listed(bySymbol, s) != {}
    }

    /**
     Marks every position the index lists for the symbol, once each, and decides at most
     one exit for each; every other position is outside the frame.
     */
    method OnCandle(s: Symbol, close: real, end: Instant)
      returns (updates: seq<PriceUpdate>, exits: seq<ExitDecision>)
      requires Valid()
      modifies Selected(s)
      ensures SelectsTheScan(s)
      ensures forall p :: p in Selected(s) ==>
                && p.currentPrice == close
                && p.unrealizedPnl == UnrealizedPnl(p.side, p.quantity, p.averagePrice, close)
                && IsMark(p.unrealizedPnl, p.side, p.quantity, p.averagePrice, close)
                && p.quantity == old(p.quantity) && p.averagePrice == old(p.averagePrice)
                && p.stopLoss == old(p.stopLoss)
      ensures forall p :: p in Selected(s) ==> PriceUpdate(p, old(p.currentPrice), close) in updates
      ensures forall u :: u in updates ==> u.position in Selected(s)
      ensures forall i, j :: 0 <= i < j < |updates| ==> updates[i].position != updates[j].position
      ensures forall p :: p in Selected(s) ==>
                (HasExit(exits, p) <==> NoWorse(p.side, p.stopLoss, close) || TimeOfDay(end) >= endOfDay)
      ensures forall d :: d in exits ==>
                d.position in Selected(s) &&
                IsExit(d, d.position.side, d.position.stopLoss, close, TimeOfDay(end) >= endOfDay, end)
      ensures forall i, j :: 0 <= i < j < |exits| ==> exits[i].position != exits[j].position
    {
      SelectsIfCoherent(s);
      updates, exits := [], [];
      var ids := Listed(bySymbol, s);
      if ids == {} {
        return;
      }
      var late := TimeOfDay(end) >= endOfDay;
      var left := ids;
      ghost var done: set<LivePosition> := {};
      while left != {}
        invariant left <= ids && done <= Selected(s)
        invariant forall id :: id in ids && id in book ==> (book[id] in done <==> id !in left)
        invariant forall p :: p in Selected(s) - done ==> p.currentPrice == old(p.currentPrice)
        invariant forall p :: p in Selected(s) ==> Kept(p)
        invariant forall p :: p in done ==> Marked(p, close)
        invariant forall p :: p in done ==> PriceUpdate(p, old(p.currentPrice), close) in updates
        invariant forall u :: u in updates ==> u.position in done
        invariant forall i, j :: 0 <= i < j < |updates| ==> updates[i].position != updates[j].position
        invariant forall p :: p in done ==> (Due(p.side, p.stopLoss, close, late) <==> HasExit(exits, p))
        invariant forall d :: d in exits ==>
                    d.position in done && IsExit(d, d.position.side, d.position.stopLoss, close, late, end)
        invariant forall i, j :: 0 <= i < j < |exits| ==> exits[i].position != exits[j].position
        decreases |left|
      {
        var id :| id in left;
        left := left - {id};
        if id !in book {
          continue;
        }
        var p := book[id];
        assert p in Selected(s) && p !in done;
        var update := p.Mark(close);
        updates := updates + [update];
        done := done + {p};
        var exit := DecideExit(p, close, late, end);
        ghost var before := exits;
        if exit.Some? {
          exits := exits + [exit.value];
        }
        MoreExits(before, exits, p);
      }
      assert done == Selected(s);
    }

    /** The stop-loss is looked at before the end of the day. */
    method DecideExit(p: LivePosition, close: real, late: bool, end: Instant) returns (exit: Option<ExitDecision>)
      ensures exit.Some? <==> Due(p.side, p.stopLoss, close, late)
      ensures exit.Some? ==> exit.value.position == p && IsExit(exit.value, p.side, p.stopLoss, close, late, end)
      ensures StopHit(p.side, p.stopLoss, close) ==> exit == Some(ExitDecision(p, StopLossHit, p.stopLoss, end))
    {
      exit := None;
      if StopHit(p.side, p.stopLoss, close) {
        return Some(ExitDecision(p, StopLossHit, p.stopLoss, end));
      }
      if late {
        exit := Some(ExitDecision(p, EndOfDay, close, end));
      }
    }

    ghost predicate Marked(p: LivePosition, close: real)
      reads p
    {
      && p.currentPrice == close && p.unrealizedPnl == UnrealizedPnl(p.side, p.quantity, p.averagePrice, close)
      && IsMark(p.unrealizedPnl, p.side, p.quantity, p.averagePrice, close)
    }

    twostate predicate Kept(p: LivePosition)
      reads p
    {
      p.quantity == old(p.quantity) && p.averagePrice == old(p.averagePrice) && p.stopLoss == old(p.stopLoss)
    }

    /** Every open position at its last mark, for an end-of-day or risk-halt sweep. */
    method CollectExits(reason: ExitReason, now: Instant) returns (exits: seq<ExitDecision>)
      requires Valid()
      ensures forall p :: p in book.Values ==> ExitDecision(p, reason, p.currentPrice, now) in exits
      ensures forall d :: d in exits ==>
                d.position in book.Values && d == ExitDecision(d.position, reason, d.position.currentPrice, now)
      ensures |exits| == |book|
    {
      exits := [];
      var left := book.Keys;
      while left != {}
        invariant left <= book.Keys && |exits| + |left| == |book|
        invariant forall id :: id in book.Keys - left ==> ExitDecision(book[id], reason, book[id].currentPrice, now) in exits
        invariant forall d :: d in exits ==>
                    d.position in book.Values && d == ExitDecision(d.position, reason, d.position.currentPrice, now)
        decreases |left|
      {
        var id :| id in left;
        left := left - {id};
        exits := exits + [ExitDecision(book[id], reason, book[id].currentPrice, now)];
      }
    }

    ghost predicate EngineHolds(s: Symbol)
      reads this
    {
      exists id :: id in book && book[id].symbol == s
    }

    ghost function DiffOf(id: PositionId, broker: map<Name, int>): Option<BookDiff>
      requires id in book
      reads this, book[id]
    {
      PositionDiff(book[id].symbol, Signed(book[id].side, book[id].quantity), id, broker)
    }

    /** The report is about a booked position that differs, or a broker name that is not booked. */
    ghost predicate Justified(d: BookDiff, broker: map<Name, int>)
      reads this, book.Values
    {
      if d.BrokerOnly? then
        exists n :: n in broker && !EngineHolds(n.symbol) && d == BrokerOnly(n.symbol, broker[n])
      else
        d.id in book && DiffOf(d.id, broker) == Some(d)
    }

    /** The booked positions that differ from the broker. */
    ghost function Differing(broker: map<Name, int>): set<PositionId>
      reads this, book.Values
    {
      set id | id in book && DiffOf(id, broker).Some?
    }

    /** The broker's names whose symbol is not booked. */
    ghost function Unbooked(broker: map<Name, int>): set<Name>
      reads this, book.Values
    {
      set n | n in broker && !EngineHolds(n.symbol)
    }

    /** Position reports are about different positions. */
    ghost predicate OnePerPosition(diffs: seq<BookDiff>) {
      forall i, j :: 0 <= i < j < |diffs| && !diffs[i].BrokerOnly? && !diffs[j].BrokerOnly? ==> diffs[i].id != diffs[j].id
    }

    lemma {:induction false} OneReportEach(diffs: seq<BookDiff>, ids: set<PositionId>)
      requires OnePerPosition(diffs) && forall d :: d in diffs ==> !d.BrokerOnly? && d.id in ids
      requires forall id :: id in ids ==> exists k :: 0 <= k < |diffs| && !diffs[k].BrokerOnly? && diffs[k].id == id
      ensures |diffs| == |ids|
    {
      if diffs == [] {
        assert ids == {};
      } else {
        var front, last := diffs[..|diffs| - 1], diffs[|diffs| - 1];
        assert last in diffs;
        forall id | id in ids - {last.id}
          ensures exists k :: 0 <= k < |front| && !front[k].BrokerOnly? && front[k].id == id
        {
          var k :| 0 <= k < |diffs| && !diffs[k].BrokerOnly? && diffs[k].id == id;
          assert front[k].id == id;
        }
        OneReportEach(front, ids - {last.id});
      }
    }

    /** The first pass of the diff: the book against the broker, and the symbols booked. */
    method DiffPositions(broker: map<Name, int>) returns (diffs: seq<BookDiff>, symbols: set<Symbol>)
      requires Valid()
      ensures forall id :: id in book && DiffOf(id, broker).Some? ==> DiffOf(id, broker).value in diffs
      ensures forall d :: d in diffs ==> !d.BrokerOnly? && Justified(d, broker)
      ensures OnePerPosition(diffs) && |diffs| == |Differing(broker)|
      ensures forall t :: t in symbols <==> EngineHolds(t)
    {
      diffs, symbols := [], {};
      var left := book.Keys;
      while left != {}
        invariant left <= book.Keys && OnePerPosition(diffs)
        invariant forall d :: d in diffs ==> !d.BrokerOnly? && d.id !in left
        invariant forall t :: t in symbols ==> EngineHolds(t)
        invariant forall id :: id in book.Keys - left ==> book[id].symbol in symbols
        invariant forall id :: id in book.Keys - left && DiffOf(id, broker).Some? ==> DiffOf(id, broker).value in diffs
        invariant forall d :: d in diffs ==> !d.BrokerOnly? && Justified(d, broker)
        decreases |left|
      {
        var id :| id in left;
        left := left - {id};
        var p := book[id];
        symbols := symbols + {p.symbol};
        var engineQuantity := if p.side.Long? then p.quantity else -p.quantity;
        if Upper(p.symbol) !in broker {
          diffs := diffs + [EngineOnly(p.symbol, engineQuantity, id)];
          continue;
        }
        if broker[Upper(p.symbol)] != engineQuantity {
          diffs := diffs + [QuantityDiffers(p.symbol, engineQuantity, broker[Upper(p.symbol)], id)];
        }
      }
      OneReportEach(diffs, Differing(broker));
    }

    /**
     The diff against the broker is sound and complete: it holds one report per position
     that differs, one per broker name whose symbol is not booked, and nothing else.
     */
    method ReconcileWithBroker(broker: map<Name, int>) returns (diffs: seq<BookDiff>)
      requires Valid()
      ensures forall id :: id in book && DiffOf(id, broker).Some? ==> DiffOf(id, broker).value in diffs
      ensures forall n :: n in broker && !EngineHolds(n.symbol) ==> BrokerOnly(n.symbol, broker[n]) in diffs
      ensures forall d :: d in diffs ==> Justified(d, broker)
      ensures OnePerPosition(diffs) && |diffs| == |Differing(broker)| + |Unbooked(broker)|
    {
      var symbols;
      diffs, symbols := DiffPositions(broker);
      var names := broker.Keys;
      ghost var reported: set<Name> := {};
      while names != {}
        invariant names <= broker.Keys && OnePerPosition(diffs)
        invariant forall n :: n in reported <==> n in broker.Keys - names && !EngineHolds(n.symbol)
        invariant |diffs| == |Differing(broker)| + |reported|
        invariant forall id :: id in book && DiffOf(id, broker).Some? ==> DiffOf(id, broker).value in diffs
        invariant forall n :: n in broker.Keys - names && !EngineHolds(n.symbol) ==>
                    BrokerOnly(n.symbol, broker[n]) in diffs
        invariant forall d :: d in diffs ==> Justified(d, broker)
        decreases |names|
      {
        var n :| n in names;
        names := names - {n};
        if n.symbol !in symbols {
          diffs := diffs + [BrokerOnly(n.symbol, broker[n])];
          reported := reported + {n};
        }
      }
      assert reported == Unbooked(broker);
    }

    ghost function Holdings(): set<Held>
      reads this, book.Values
    {
      set id | id in book :: Held(book[id].symbol, book[id].side, book[id].quantity)
    }

    lemma {:induction false} NoDiffIsInStep(broker: map<Name, int>)
      requires forall id :: id in book ==> DiffOf(id, broker).None?
      requires forall n :: n in broker ==> EngineHolds(n.symbol)
      ensures InStep(Holdings(), broker)
    {
      forall h | h in Holdings()
        ensures Upper(h.symbol) in broker && broker[Upper(h.symbol)] == Signed(h.side, h.quantity)
      {
        var id :| id in book && h == Held(book[id].symbol, book[id].side, book[id].quantity);
        assert DiffOf(id, broker).None?;
      }
      forall n | n in broker
        ensures exists h :: h in Holdings() && h.symbol == n.symbol
      {
        var id :| id in book && book[id].symbol == n.symbol;
        assert Held(book[id].symbol, book[id].side, book[id].quantity) in Holdings();
      }
    }

    lemma {:induction false} InStepHasNoDiff(broker: map<Name, int>, d: BookDiff)
      requires InStep(Holdings(), broker)
      ensures !Justified(d, broker)
    {
      forall id | id in book
        ensures DiffOf(id, broker).None?
      {
        assert Held(book[id].symbol, book[id].side, book[id].quantity) in Holdings();
      }
      forall n | n in broker
        ensures EngineHolds(n.symbol)
      {
        var h :| h in Holdings() && h.symbol == n.symbol;
      }
    }

    /** The diff is empty exactly when the book and the broker are in step. */
    method IsReconciled(broker: map<Name, int>) returns (clean: bool)
      requires Valid()
      ensures clean <==> InStep(Holdings(), broker)
    {
      var diffs := ReconcileWithBroker(broker);
      clean := diffs == [];
      if clean {
        NoDiffIsInStep(broker);
      } else {
        assert Justified(diffs[0], broker);
        if InStep(Holdings(), broker) {
          InStepHasNoDiff(broker, diffs[0]);
        }
      }
    }
  }
}
