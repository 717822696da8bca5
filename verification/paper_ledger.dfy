/**
 The paper-trading account: fill pricing and sizing, the entry gate, and what one writer's step
 does to the account and to the conservation of money.

 Account money is counted in whole units of 1/10000 rupee, the grid every stored amount is
 rounded to. Observed prices and brokerage are real numbers in the same unit, so each
 rounding step of the program is explicit.
 */
module PaperLedger {
  import opened Wrappers
  import opened Rounding

  datatype Side = Long | Short

  // ---- Pricing ------------------------------------------------------------

  function Up(pct: real): real {
    1.0 + pct / 100.0
  }

  function Down(pct: real): real {
    1.0 - pct / 100.0
  }

  function Raised(price: real, pct: real): real {
    price * Up(pct)
  }

  function Lowered(price: real, pct: real): real {
    price * Down(pct)
  }

  /** `pct` is the slippage as a percentage of the price; it moves a fill against the trader. */
  function EntryPrice(trigger: real, pct: real, side: Side): int {
    if side.Long? then Round(Raised(trigger, pct)) else Round(Lowered(trigger, pct))
  }

  function ExitPrice(reference: real, pct: real, side: Side): int {
    if side.Long? then Round(Lowered(reference, pct)) else Round(Raised(reference, pct))
  }

  function Gross(side: Side, quantity: int, entry: int, exit: int): int {
    if side.Long? then (exit - entry) * quantity else (entry - exit) * quantity
  }

  function RealizedPnl(side: Side, quantity: int, entry: int, exit: int, brokerageTotal: real): int {
    Round(Gross(side, quantity, entry, exit) as real - brokerageTotal)
  }

  lemma {:induction false} SlippageShifts(price: real, pct: real)
    ensures Raised(price, pct) == price + price * (pct / 100.0)
    ensures Lowered(price, pct) == price - price * (pct / 100.0)
  {
  }

  lemma {:induction false} SlippageMoves(price: real, pct: real)
    requires price >= 0.0 && pct >= 0.0
    ensures Lowered(price, pct) <= price <= Raised(price, pct)
  {
    SlippageShifts(price, pct);
    ProductIsNonNegative(price, pct / 100.0);
  }

  lemma {:induction false} ProductIsNonNegative(x: real, y: real)
    requires x >= 0.0 && y >= 0.0
    ensures x * y >= 0.0
  {
  }

  /** Where rounding leaves a number no lower than the price it was raised from. */
  predicate StaysAbove(price: real, raised: real) {
    var f := price.Floor as real;
    price == f || raised > f + 0.5 || (raised == f + 0.5 && price.Floor % 2 == 1)
  }

  /** Where rounding leaves a number no higher than the price it was lowered from. */
  predicate StaysBelow(price: real, lowered: real) {
    var f := price.Floor as real;
    price == f || lowered < f + 0.5 || (lowered == f + 0.5 && price.Floor % 2 == 0)
  }

  lemma {:induction false} RoundingUpIff(price: real, raised: real)
    requires price <= raised
    ensures Round(raised) as real >= price <==> StaysAbove(price, raised)
  {
    var f := price.Floor;
    RoundIsMonotone(f as real, raised);
    WholeIsFixed(f);
    if raised < (f + 1) as real {
      assert raised.Floor == f;
    } else {
      RoundIsMonotone((f + 1) as real, raised);
      WholeIsFixed(f + 1);
    }
  }

  lemma {:induction false} RoundingDownIff(price: real, lowered: real)
    requires lowered <= price
    ensures Round(lowered) as real <= price <==> StaysBelow(price, lowered)
  {
    var f := price.Floor;
    if lowered >= f as real {
      assert lowered.Floor == f;
    } else {
      RoundIsMonotone(lowered, f as real);
      WholeIsFixed(f);
    }
  }

  /**
   When slippage is adverse after rounding to four decimals, leg by leg and side by side. An
   entry of a LONG and an exit of a SHORT pay the raised price, the other two the lowered one.
   */
  lemma {:induction false} SlippageIsAdverseIff(price: real, pct: real)
    requires price >= 0.0 && pct >= 0.0
    ensures EntryPrice(price, pct, Long) as real >= price <==> StaysAbove(price, Raised(price, pct))
    ensures ExitPrice(price, pct, Short) as real >= price <==> StaysAbove(price, Raised(price, pct))
    ensures EntryPrice(price, pct, Short) as real <= price <==> StaysBelow(price, Lowered(price, pct))
    ensures ExitPrice(price, pct, Long) as real <= price <==> StaysBelow(price, Lowered(price, pct))
  {
    SlippageMoves(price, pct);
    RoundingUpIff(price, Raised(price, pct));
    RoundingDownIff(price, Lowered(price, pct));
  }

  /**
   Slippage is never favourable, on any leg of either side, for a price of four decimals, and
   for any price once the slippage is worth half a unit of the fourth decimal.
   */
  lemma {:induction false} SlippageIsNeverFavourable(price: real, pct: real, side: Side)
    requires price >= 0.0 && pct >= 0.0
    requires price == price.Floor as real || price * (pct / 100.0) >= 0.5
    ensures side.Long? ==> ExitPrice(price, pct, side) as real <= price <= EntryPrice(price, pct, side) as real
    ensures side.Short? ==> EntryPrice(price, pct, side) as real <= price <= ExitPrice(price, pct, side) as real
  {
    SlippageIsAdverseIff(price, pct);
    SlippageShifts(price, pct);
  }

  /**
   With the default 0.05 % the fourth decimal matters only below ten paise: at Rs 0.01002 both the
   entry of a LONG and the exit of a SHORT are filled at 0.0100.
   */
  lemma {:induction false} TinyPriceIsFavoured()
    ensures EntryPrice(100.2, 0.05, Long) == ExitPrice(100.2, 0.05, Short) == 100
    ensures !StaysAbove(100.2, Raised(100.2, 0.05))
    ensures forall price: real, side: Side :: price >= 1000.0 ==>
              && NoBetter(side, EntryPrice(price, 0.05, side) as real, price)
              && NoBetter(side, price, ExitPrice(price, 0.05, side) as real)
  {
    assert Raised(100.2, 0.05) == 100.2501;
    assert (100.2501).Floor == 100 && (100.2).Floor == 100;
    forall price: real, side: Side | price >= 1000.0
      ensures NoBetter(side, EntryPrice(price, 0.05, side) as real, price)
      ensures NoBetter(side, price, ExitPrice(price, 0.05, side) as real)
    {
      assert price * (0.05 / 100.0) >= 0.5;
      SlippageIsNeverFavourable(price, 0.05, side);
    }
  }

  /** Buying at the price is no better than at the other one for a LONG; selling is for a SHORT. */
  predicate NoBetter(side: Side, price: real, than: real) {
    if side.Long? then price >= than else price <= than
  }

  /** A round trip at one price, on the grid or not, loses at least the brokerage of both sides. */
  lemma {:induction false} RoundTripLosesBrokerage(price: real, pct: real, side: Side, quantity: nat,
                                                   brokeragePerSide: real)
    requires price >= 0.0 && pct >= 0.0
    ensures RealizedPnl(side, quantity, EntryPrice(price, pct, side), ExitPrice(price, pct, side), brokeragePerSide * 2.0)
            <= Round(-(brokeragePerSide * 2.0))
  {
    SlippageMoves(price, pct);
    RoundIsMonotone(Lowered(price, pct), Raised(price, pct));
    var entry, exit := EntryPrice(price, pct, side), ExitPrice(price, pct, side);
    var adverse := if side.Long? then exit - entry else entry - exit;
    assert adverse * quantity <= 0;
    assert Gross(side, quantity, entry, exit) == adverse * quantity;
    RoundIsMonotone(Gross(side, quantity, entry, exit) as real - brokeragePerSide * 2.0, -(brokeragePerSide * 2.0));
  }

  // ---- Sizing -------------------------------------------------------------

  function Min(a: int, b: int): int {
    if a <= b then a else b
  }

  function SizeQuantity(capitalPerTrade: int, available: Option<int>, entry: int): nat {
    var budget := if available.Some? then Min(capitalPerTrade, available.value) else capitalPerTrade;
    if entry <= 0 || budget <= 0 then 0
    else if budget >= entry then
      var q := budget / entry;
      if q >= 1 then q else 1
    else 0
  }

  lemma {:induction false} QuotientIsTheLargestFit(budget: int, price: int)
    requires price > 0 && budget >= 0
    ensures budget / price * price <= budget < (budget / price + 1) * price
  {
  }

  /** The sized quantity is the largest whose cost fits the budget. */
  lemma {:induction false} SizedQuantityIsTheLargestFit(capitalPerTrade: int, available: Option<int>, entry: int, q: nat)
    requires entry > 0
    ensures var budget := if available.Some? then Min(capitalPerTrade, available.value) else capitalPerTrade;
            var sized := SizeQuantity(capitalPerTrade, available, entry);
            && (q <= sized <==> q == 0 || q * entry <= budget)
            && (sized > 0 ==> sized * entry <= budget)
  {
    var budget := if available.Some? then Min(capitalPerTrade, available.value) else capitalPerTrade;
    var sized := SizeQuantity(capitalPerTrade, available, entry);
    if budget >= entry {
      QuotientIsTheLargestFit(budget, entry);
      assert sized == budget / entry;
      if q <= sized {
        MultiplesAreOrdered(q, sized, entry);
      } else {
        MultiplesAreOrdered(sized + 1, q, entry);
      }
    } else if q > 0 {
      MultiplesAreOrdered(1, q, entry);
    }
  }

  lemma {:induction false} MultiplesAreOrdered(a: int, b: int, k: int)
    requires a <= b && k >= 0
    ensures a * k <= b * k
  {
  }

  // ---- The account --------------------------------------------------------

  datatype Account = Account(
    starting: int,
    available: int,
    used: int,
    realized: int,
    unrealized: int,
    daily: int,
    total: nat,
    winning: nat,
    losing: nat,
    consecutiveLosses: nat,
    paused: bool,
    pauseReason: Option<string>)

  function NewAccount(starting: int): Account {
    Account(starting, starting, 0, 0, 0, 0, 0, 0, 0, 0, false, None)
  }

  function Max0(x: int): int {
    if x >= 0 then x else 0
  }

  function AfterEntry(a: Account, capital: int): Account {
    a.(available := a.available - capital, used := a.used + capital)
  }

  function AfterClose(a: Account, capital: int, pnl: int): Account {
    a.(available := a.available + capital + pnl,
       used := Max0(a.used - capital),
       realized := a.realized + pnl,
       daily := a.daily + pnl,
       total := a.total + 1,
       winning := if pnl > 0 then a.winning + 1 else a.winning,
       losing := if pnl > 0 then a.losing else a.losing + 1,
       consecutiveLosses := if pnl > 0 then 0 else a.consecutiveLosses + 1)
  }

  function AfterReset(a: Account): Account {
    a.(daily := 0, unrealized := 0, consecutiveLosses := 0, paused := false, pauseReason := None)
  }

  /** The stored account document, updated in place by the P&L engine and the session manager. */
  class PaperAccount {
    const starting: int
    var available: int
    var used: int
    var realized: int
    var unrealized: int
    var daily: int
    var total: nat
    var winning: nat
    var losing: nat
    var consecutiveLosses: nat
    var paused: bool
    var pauseReason: Option<string>

    constructor (starting: int)
      ensures View() == NewAccount(starting)
    {
      this.starting, available := starting, starting;
      used, realized, unrealized, daily := 0, 0, 0, 0;
      total, winning, losing, consecutiveLosses := 0, 0, 0, 0;
      paused, pauseReason := false, None;
    }

    function View(): Account
      reads this
    {
      Account(starting, available, used, realized, unrealized, daily, total, winning, losing,
              consecutiveLosses, paused, pauseReason)
    }

    method ApplyEntry(capital: int)
      modifies this
      ensures View() == AfterEntry(old(View()), capital)
    {
      available := available - capital;
      used := used + capital;
    }

    method ApplyRealizedPnl(entry: int, quantity: int, pnl: int)
      modifies this
      ensures View() == AfterClose(old(View()), entry * quantity, pnl)
    {
      var returned := entry * quantity + pnl;
      available := available + returned;
      used := Max0(used - entry * quantity);
      realized := realized + pnl;
      daily := daily + pnl;
      total := total + 1;
      if pnl > 0 {
        winning := winning + 1;
        consecutiveLosses := 0;
      } else {
        losing := losing + 1;
        consecutiveLosses := consecutiveLosses + 1;
      }
    }

    method ResetDailyState()
      modifies this
      ensures View() == AfterReset(old(View()))
    {
      daily := 0;
      unrealized := 0;
      consecutiveLosses := 0;
      paused := false;
      pauseReason := None;
    }

    method Pause(reason: string)
      modifies this
      ensures View() == old(View()).(paused := true, pauseReason := Some(reason))
    {
      paused := true;
      pauseReason := Some(reason);
    }

    method Resume()
      modifies this
      ensures View() == old(View()).(paused := false, pauseReason := None)
    {
      paused := false;
      pauseReason := None;
    }
  }

  // ---- The entry gate -----------------------------------------------------

  datatype Limits = Limits(
    maxOpen: int,
    maxTradesPerDay: int,
    maxDailyLossPct: real,
    lossCooldown: int,
    maxPositionPct: real)

  datatype Context = Context(required: int, openCount: nat, heldForSymbol: bool, tradesToday: nat)

  datatype Rejection =
    | TradingPaused
    | DuplicatePosition
    | MaxOpenPositions
    | MaxDailyTrades
    | PositionSize
    | InsufficientCapital
    | DailyLoss
    | LossCooldown

  function Abs(x: real): real {
    if x >= 0.0 then x else -x
  }

  predicate DailyLossReached(l: Limits, a: Account) {
    (a.daily + a.unrealized) as real <= -Abs(a.starting as real * l.maxDailyLossPct / 100.0)
  }

  function PositionCap(l: Limits, starting: int): real {
    starting as real * l.maxPositionPct / 100.0
  }

  /** The first rule that fails, in the order they are applied. */
  function Gate(l: Limits, a: Account, c: Context): Option<Rejection> {
    if a.paused then Some(TradingPaused)
    else if c.heldForSymbol then Some(DuplicatePosition)
    else if c.openCount >= l.maxOpen then Some(MaxOpenPositions)
    else if c.tradesToday >= l.maxTradesPerDay then Some(MaxDailyTrades)
    else if c.required as real > PositionCap(l, a.starting) then Some(PositionSize)
    else if c.required > a.available then Some(InsufficientCapital)
    else if DailyLossReached(l, a) then Some(DailyLoss)
    else if a.consecutiveLosses >= l.lossCooldown then Some(LossCooldown)
    else None
  }

  // ---- One writer ---------------------------------------------------------

  datatype Engine = Engine(slippagePct: real, brokeragePerSide: real, capitalPerTrade: int, limits: Limits)

  datatype Position = Position(side: Side, quantity: nat, entry: int)

  function CapitalOf(p: Position): int {
    p.entry * p.quantity
  }

  /**
   Every position ever opened, by id in order of opening; the ids in the book; the P&L of
   every trade row; and how many rows there were at the last daily reset.
   */
  datatype World = World(account: Account, entries: seq<Position>, book: set<nat>, trades: seq<int>, resetAt: nat)

  datatype Action =
    | Open(trigger: real, side: Side, allocation: Option<int>, heldForSymbol: bool, tradesToday: nat)
    | Close(id: nat, reference: real)
    | Reset
    | PauseTrading(reason: string)
    | ResumeTrading
    | MarkToMarket(unrealized: int)

  /** The budget of an entry: the account's free capital, or less if the portfolio allots less. */
  function Budget(a: Account, allocation: Option<int>): int {
    if allocation.Some? && allocation.value > 0 then Min(a.available, allocation.value) else a.available
  }

  function Sized(e: Engine, w: World, trigger: real, side: Side, allocation: Option<int>): Position {
    var entry := EntryPrice(trigger, e.slippagePct, side);
    Position(side, SizeQuantity(e.capitalPerTrade, Some(Budget(w.account, allocation)), entry), entry)
  }

  predicate Admitted(e: Engine, w: World, heldForSymbol: bool, tradesToday: nat) {
    Gate(e.limits, w.account, Context(e.capitalPerTrade, |w.book|, heldForSymbol, tradesToday)).None?
  }

  function StepOpen(e: Engine, w: World, trigger: real, side: Side, allocation: Option<int>,
                    heldForSymbol: bool, tradesToday: nat): World {
    var p := Sized(e, w, trigger, side, allocation);
    if !Admitted(e, w, heldForSymbol, tradesToday) || p.quantity == 0 then w else
    w.(account := AfterEntry(w.account, CapitalOf(p)),
       entries := w.entries + [p],
       book := w.book + {|w.entries|})
  }

  function PnlOf(e: Engine, p: Position, reference: real): int {
    RealizedPnl(p.side, p.quantity, p.entry, ExitPrice(reference, e.slippagePct, p.side), e.brokeragePerSide * 2.0)
  }

  /** A close acts on the position its exit decision holds, whether or not the book still has it. */
  function StepClose(e: Engine, w: World, id: nat, reference: real): World {
    if id >= |w.entries| then w else
    var p := w.entries[id];
    var pnl := PnlOf(e, p, reference);
    w.(account := AfterClose(w.account, CapitalOf(p), pnl),
       book := w.book - {id},
       trades := w.trades + [pnl])
  }

  function Step(e: Engine, w: World, a: Action): World {
    match a
    case Open(trigger, side, allocation, held, today) => StepOpen(e, w, trigger, side, allocation, held, today)
    case Close(id, reference) => StepClose(e, w, id, reference)
    case Reset => w.(account := AfterReset(w.account), resetAt := |w.trades|)
    case PauseTrading(reason) => w.(account := w.account.(paused := true, pauseReason := Some(reason)))
    case ResumeTrading => w.(account := w.account.(paused := false, pauseReason := None))
    case MarkToMarket(u) => w.(account := w.account.(unrealized := u))
  }

  // ---- Conservation -------------------------------------------------------

  function Sum(s: seq<int>): int {
    if s == [] then 0 else Sum(s[..|s| - 1]) + s[|s| - 1]
  }

  function Wins(s: seq<int>): nat {
    if s == [] then 0 else Wins(s[..|s| - 1]) + if s[|s| - 1] > 0 then 1 else 0
  }

  /** How many trades at the end, back to the last reset at most, did not win. */
  function LosingRun(s: seq<int>, from: nat): nat {
    if |s| <= from || s[|s| - 1] > 0 then 0 else 1 + LosingRun(s[..|s| - 1], from)
  }

  /** The entry capital of the positions in the book, among the first `n` opened. */
  function Locked(entries: seq<Position>, book: set<nat>, n: nat): int
    requires n <= |entries|
  {
    if n == 0 then 0 else
    Locked(entries, book, n - 1) + if n - 1 in book then CapitalOf(entries[n - 1]) else 0
  }

  /** Free and locked money add up, and every counter is what the trade rows say it is. */
  ghost predicate Conserved(w: World) {
    var a := w.account;
    && a.available + a.used == a.starting + a.realized
    && a.used == Locked(w.entries, w.book, |w.entries|)
    && a.realized == Sum(w.trades)
    && a.total == |w.trades| == a.winning + a.losing
    && a.winning == Wins(w.trades)
    && w.resetAt <= |w.trades|
    && a.daily == Sum(w.trades) - Sum(w.trades[..w.resetAt])
    && a.consecutiveLosses == LosingRun(w.trades, w.resetAt)
  }

  ghost predicate WellFormed(w: World) {
    && (forall id :: id in w.book ==> id < |w.entries|)
    && (forall id :: 0 <= id < |w.entries| ==> w.entries[id].quantity > 0 && w.entries[id].entry > 0)
  }

  lemma {:induction false} LockedIgnoresTheRest(entries: seq<Position>, more: seq<Position>, book: set<nat>,
                                                other: set<nat>, n: nat)
    requires n <= |entries|
    requires forall id :: 0 <= id < n ==> (id in book <==> id in other)
    ensures Locked(entries + more, other, n) == Locked(entries, book, n)
  {
    if n > 0 {
      LockedIgnoresTheRest(entries, more, book, other, n - 1);
      assert (entries + more)[n - 1] == entries[n - 1];
    }
  }

  lemma {:induction false} LockedWithout(entries: seq<Position>, book: set<nat>, id: nat, n: nat)
    requires n <= |entries| && id < n
    ensures Locked(entries, book - {id}, n) == Locked(entries, book, n) - if id in book then CapitalOf(entries[id]) else 0
  {
    if id == n - 1 {
      LockedIgnoresTheRest(entries, [], book, book - {id}, n - 1);
      assert entries + [] == entries;
    } else {
      LockedWithout(entries, book, id, n - 1);
    }
  }

  lemma {:induction false} LockedIsNonNegative(entries: seq<Position>, book: set<nat>, n: nat)
    requires n <= |entries|
    requires forall id :: 0 <= id < |entries| ==> entries[id].quantity > 0 && entries[id].entry > 0
    ensures Locked(entries, book, n) >= 0
  {
    if n > 0 {
      LockedIsNonNegative(entries, book, n - 1);
      MultiplesAreOrdered(0, entries[n - 1].entry, entries[n - 1].quantity);
    }
  }

  lemma {:induction false} CapitalIsPositive(p: Position)
    requires p.quantity > 0 && p.entry > 0
    ensures CapitalOf(p) > 0
  {
    MultiplesAreOrdered(1, p.quantity, p.entry);
  }

  /** An accepted entry costs at most the free capital, so it never drives it below zero. */
  lemma {:induction false} EntryIsAffordable(e: Engine, w: World, trigger: real, side: Side, allocation: Option<int>,
                          held: bool, today: nat)
    ensures var after := StepOpen(e, w, trigger, side, allocation, held, today);
            after != w ==> 0 <= after.account.available < w.account.available
  {
    var after := StepOpen(e, w, trigger, side, allocation, held, today);
    if after != w {
      var p := Sized(e, w, trigger, side, allocation);
      SizedQuantityIsTheLargestFit(e.capitalPerTrade, Some(Budget(w.account, allocation)), p.entry, 0);
      CapitalIsPositive(p);
      assert CapitalOf(p) <= Budget(w.account, allocation) <= w.account.available;
    }
  }

  lemma {:induction false} OpenConserves(e: Engine, w: World, trigger: real, side: Side, allocation: Option<int>,
                                         held: bool, today: nat)
    requires Conserved(w) && WellFormed(w)
    ensures Conserved(StepOpen(e, w, trigger, side, allocation, held, today))
    ensures WellFormed(StepOpen(e, w, trigger, side, allocation, held, today))
  {
    var p := Sized(e, w, trigger, side, allocation);
    var id := |w.entries|;
    LockedIgnoresTheRest(w.entries, [p], w.book, w.book + {id}, id);
    assert (w.entries + [p])[id] == p;
    if p.quantity > 0 {
      assert p.entry > 0;
    }
  }

  /** Recording one more trade keeps every counter equal to what the rows say. */
  lemma {:induction false} TradeCounts(trades: seq<int>, pnl: int, resetAt: nat)
    requires resetAt <= |trades|
    ensures var after := trades + [pnl];
            && Sum(after) == Sum(trades) + pnl
            && Wins(after) == Wins(trades) + (if pnl > 0 then 1 else 0)
            && after[..resetAt] == trades[..resetAt]
            && LosingRun(after, resetAt) == (if pnl > 0 then 0 else LosingRun(trades, resetAt) + 1)
  {
    assert (trades + [pnl])[..|trades|] == trades;
  }

  /**
   A close keeps the ledger exactly when the position is still in the book. The program
   does not check this: a decision executed twice credits the entry capital twice.
   */
  lemma {:induction false} CloseConservesIffInBook(e: Engine, w: World, id: nat, reference: real)
    requires Conserved(w) && WellFormed(w) && id < |w.entries|
    ensures Conserved(StepClose(e, w, id, reference)) <==> id in w.book
    ensures WellFormed(StepClose(e, w, id, reference))
  {
    var p := w.entries[id];
    CapitalIsPositive(p);
    LockedWithout(w.entries, w.book, id, |w.entries|);
    LockedIsNonNegative(w.entries, w.book - {id}, |w.entries|);
    TradeCounts(w.trades, PnlOf(e, p, reference), w.resetAt);
  }

  /** The step closes a position the book no longer holds. */
  predicate ClosesAgain(w: World, a: Action) {
    a.Close? && a.id < |w.entries| && a.id !in w.book
  }

  // ---- Money beyond the ledger ---------------------------------------------

  /** Money the account has beyond what its entries and trades account for. */
  function Excess(w: World): int {
    w.account.available + Locked(w.entries, w.book, |w.entries|) - w.account.starting - w.account.realized
  }

  lemma {:induction false} CloseAddsExcess(e: Engine, w: World, id: nat, reference: real)
    requires id < |w.entries|
    ensures Excess(StepClose(e, w, id, reference)) == Excess(w) + if id in w.book then 0 else CapitalOf(w.entries[id])
  {
    LockedWithout(w.entries, w.book, id, |w.entries|);
  }

  lemma {:induction false} OpenAddsNoExcess(e: Engine, w: World, trigger: real, side: Side, allocation: Option<int>,
                                            held: bool, today: nat)
    requires WellFormed(w)
    ensures Excess(StepOpen(e, w, trigger, side, allocation, held, today)) == Excess(w)
    ensures WellFormed(StepOpen(e, w, trigger, side, allocation, held, today))
  {
    var p := Sized(e, w, trigger, side, allocation);
    LockedIgnoresTheRest(w.entries, [p], w.book, w.book + {|w.entries|}, |w.entries|);
    assert (w.entries + [p])[|w.entries|] == p;
  }

  lemma {:induction false} StepExcess(e: Engine, w: World, a: Action)
    requires WellFormed(w)
    ensures WellFormed(Step(e, w, a))
    ensures if ClosesAgain(w, a) then Excess(Step(e, w, a)) > Excess(w) else Excess(Step(e, w, a)) == Excess(w)
  {
    match a
    case Open(trigger, side, allocation, held, today) =>
      OpenAddsNoExcess(e, w, trigger, side, allocation, held, today);
    case Close(id, reference) =>
      if id < |w.entries| {
        CloseAddsExcess(e, w, id, reference);
        CapitalIsPositive(w.entries[id]);
      }
    case Reset =>
    case PauseTrading(_) =>
    case ResumeTrading =>
    case MarkToMarket(_) =>
  }

  // ---- What a step keeps ---------------------------------------------------

  lemma {:induction false} ResetConserves(w: World)
    requires Conserved(w)
    ensures Conserved(w.(account := AfterReset(w.account), resetAt := |w.trades|))
  {
    assert w.trades[..|w.trades|] == w.trades;
  }

  lemma {:induction false} StepConserves(e: Engine, w: World, a: Action)
    requires Conserved(w) && WellFormed(w) && !ClosesAgain(w, a)
    ensures Conserved(Step(e, w, a)) && WellFormed(Step(e, w, a))
  {
    match a
    case Open(trigger, side, allocation, held, today) =>
      OpenConserves(e, w, trigger, side, allocation, held, today);
    case Close(id, reference) =>
      if id < |w.entries| {
        CloseConservesIffInBook(e, w, id, reference);
      }
    case Reset => ResetConserves(w);
    case PauseTrading(_) =>
    case ResumeTrading =>
    case MarkToMarket(_) =>
  }

  /** In a conserved world the clamp is idle when a held position is closed. */
  lemma {:induction false} ClampIsIdle(w: World, id: nat)
    requires Conserved(w) && WellFormed(w) && id in w.book
    ensures w.account.used - CapitalOf(w.entries[id]) >= 0
  {
    LockedWithout(w.entries, w.book, id, |w.entries|);
    LockedIsNonNegative(w.entries, w.book - {id}, |w.entries|);
  }

  /** The gate lets an entry in only while the book is below its limit. */
  lemma {:induction false} BookSteps(e: Engine, w: World, a: Action)
    ensures |Step(e, w, a).book| <= |w.book| || |w.book| + 1 <= e.limits.maxOpen
    ensures |Step(e, w, a).book| <= |w.book| + 1
  {
    if a.Close? {
      assert w.book - {a.id} <= w.book;
      SubsetIsSmaller(w.book - {a.id}, w.book);
    }
  }

  lemma {:induction false} SubsetIsSmaller(a: set<nat>, b: set<nat>)
    requires a <= b
    ensures |a| <= |b|
  {
    assert b == a + (b - a);
  }

  // ---- What the steps do to the money --------------------------------------

  predicate Near(n: int, x: real) {
    -0.5 <= n as real - x <= 0.5
  }

  /** A fill at this price with the slippage against whoever buys, or against whoever sells. */
  predicate IsFill(price: int, quoted: real, pct: real, buying: bool) {
    Near(price, if buying then quoted * (1.0 + pct / 100.0) else quoted * (1.0 - pct / 100.0))
  }

  /** The profit is the cash received less the cash paid less the brokerage of both sides. */
  predicate IsProfit(pnl: int, paid: int, received: int, quantity: nat, brokeragePerSide: real) {
    Near(pnl, (received * quantity - paid * quantity) as real - 2.0 * brokeragePerSide)
  }

  /** A position `p` left at the price `exit` made `pnl`: a LONG buys first, a SHORT sells first. */
  predicate IsBooked(e: Engine, p: Position, reference: real, exit: int, pnl: int) {
    && IsFill(exit, reference, e.slippagePct, p.side.Short?)
    && (p.side.Long? ==> IsProfit(pnl, p.entry, exit, p.quantity, e.brokeragePerSide))
    && (p.side.Short? ==> IsProfit(pnl, exit, p.entry, p.quantity, e.brokeragePerSide))
  }

  lemma {:induction false} PricesAreFills(quoted: real, pct: real, side: Side)
    ensures IsFill(EntryPrice(quoted, pct, side), quoted, pct, side.Long?)
    ensures IsFill(ExitPrice(quoted, pct, side), quoted, pct, side.Short?)
  {
    assert Raised(quoted, pct) == quoted * (1.0 + pct / 100.0);
    assert Lowered(quoted, pct) == quoted * (1.0 - pct / 100.0);
  }

  lemma {:induction false} GrossIsReceivedLessPaid(quantity: nat, entry: int, exit: int)
    ensures Gross(Long, quantity, entry, exit) == exit * quantity - entry * quantity
    ensures Gross(Short, quantity, entry, exit) == entry * quantity - exit * quantity
  {
  }

  /** A close adds one trade row with the profit made, and credits the entry capital and that profit. */
  lemma {:induction false} CloseBooksTheProceeds(e: Engine, w: World, id: nat, reference: real)
    requires id < |w.entries|
    ensures var p, after := w.entries[id], StepClose(e, w, id, reference);
            && |after.trades| == |w.trades| + 1 && w.trades <= after.trades
            && (exists exit: int :: IsBooked(e, p, reference, exit, after.trades[|w.trades|]))
            && after.account.available == w.account.available + p.entry * p.quantity + after.trades[|w.trades|]
            && after.entries == w.entries && after.book == w.book - {id}
  {
    var p := w.entries[id];
    var exit := ExitPrice(reference, e.slippagePct, p.side);
    PricesAreFills(reference, e.slippagePct, p.side);
    GrossIsReceivedLessPaid(p.quantity, p.entry, exit);
    assert IsBooked(e, p, reference, exit, StepClose(e, w, id, reference).trades[|w.trades|]);
  }

  /** What the budget of an entry pays for. */
  predicate Affordable(e: Engine, a: Account, allocation: Option<int>, price: int, quantity: nat) {
    && quantity * price <= e.capitalPerTrade && quantity * price <= a.available
    && (allocation.Some? && allocation.value > 0 ==> quantity * price <= allocation.value)
  }

  /** An opened position is filled near the trigger, has as many shares as the budget pays for, and costs that much. */
  lemma {:induction false} OpenTakesTheCost(e: Engine, w: World, trigger: real, side: Side, allocation: Option<int>,
                                            held: bool, today: nat,
                         quantity: nat)
    requires StepOpen(e, w, trigger, side, allocation, held, today) != w
    ensures var after := StepOpen(e, w, trigger, side, allocation, held, today);
            && |after.entries| == |w.entries| + 1 && w.entries <= after.entries
            && after.book == w.book + {|w.entries|} && after.trades == w.trades
            && var p := after.entries[|w.entries|];
               && p.side == side && p.quantity > 0 && p.entry > 0
               && IsFill(p.entry, trigger, e.slippagePct, side.Long?)
               && (quantity <= p.quantity <==> quantity == 0 || Affordable(e, w.account, allocation, p.entry, quantity))
               && after.account == w.account.(available := w.account.available - p.entry * p.quantity,
                                              used := w.account.used + p.entry * p.quantity)
  {
    var p := Sized(e, w, trigger, side, allocation);
    SizedIsAffordable(e, w, trigger, side, allocation, quantity);
    PricesAreFills(trigger, e.slippagePct, side);
    assert StepOpen(e, w, trigger, side, allocation, held, today).entries == w.entries + [p];
  }

  lemma {:induction false} SizedIsAffordable(e: Engine, w: World, trigger: real, side: Side, allocation: Option<int>,
                                             quantity: nat)
    ensures var p := Sized(e, w, trigger, side, allocation);
            && p.side == side
            && (p.quantity > 0 ==>
                  && p.entry > 0
                  && (quantity <= p.quantity
                      <==> quantity == 0 || Affordable(e, w.account, allocation, p.entry, quantity)))
  {
    var p := Sized(e, w, trigger, side, allocation);
    if p.quantity > 0 {
      var available := Budget(w.account, allocation);
      SizedQuantityIsTheLargestFit(e.capitalPerTrade, Some(available), p.entry, quantity);
      WithinAllIff(quantity * p.entry, e.capitalPerTrade, w.account, allocation);
    }
  }

  lemma {:induction false} WithinAllIff(cost: int, capitalPerTrade: int, a: Account, allocation: Option<int>)
    ensures cost <= Min(capitalPerTrade, Budget(a, allocation))
            <==> && cost <= capitalPerTrade && cost <= a.available
                 && (allocation.Some? && allocation.value > 0 ==> cost <= allocation.value)
  {
  }

  /** Opening and closing by the two steps at one price costs the account at least the brokerage of both sides. */
  lemma {:induction false} OpenThenCloseLoses(e: Engine, w: World, price: real, side: Side, allocation: Option<int>,
                                              held: bool, today: nat)
    requires price >= 0.0 && e.slippagePct >= 0.0
    requires StepOpen(e, w, price, side, allocation, held, today) != w
    ensures var closed := StepClose(e, StepOpen(e, w, price, side, allocation, held, today), |w.entries|, price);
            && |closed.trades| == |w.trades| + 1
            && closed.trades[|w.trades|] as real <= 0.5 - 2.0 * e.brokeragePerSide
            && closed.account.available == w.account.available + closed.trades[|w.trades|]
            && closed.book == w.book - {|w.entries|}
  {
    var p := Sized(e, w, price, side, allocation);
    RoundTripLosesBrokerage(price, e.slippagePct, side, p.quantity, e.brokeragePerSide);
    assert (w.entries + [p])[|w.entries|] == p;
  }

  // ---- When an entry is refused --------------------------------------------

  /** What each rule of the gate forbids. */
  predicate Violates(l: Limits, a: Account, c: Context, r: Rejection) {
    match r
    case TradingPaused => a.paused
    case DuplicatePosition => c.heldForSymbol
    case MaxOpenPositions => c.openCount >= l.maxOpen
    case MaxDailyTrades => c.tradesToday >= l.maxTradesPerDay
    case PositionSize => c.required as real * 100.0 > a.starting as real * l.maxPositionPct
    case InsufficientCapital => a.available < c.required
    case DailyLoss =>
      // the day's profit is at or below minus the share of the starting capital, whatever its sign
      var profit, share := (a.daily + a.unrealized) as real * 100.0, a.starting as real * l.maxDailyLossPct;
      profit <= share && profit <= -share
    case LossCooldown => a.consecutiveLosses >= l.lossCooldown
  }

  function Rank(r: Rejection): nat {
    match r
    case TradingPaused => 1
    case DuplicatePosition => 2
    case MaxOpenPositions => 3
    case MaxDailyTrades => 4
    case PositionSize => 5
    case InsufficientCapital => 6
    case DailyLoss => 7
    case LossCooldown => 8
  }

  lemma {:induction false} NothingBefore(l: Limits, a: Account, c: Context, q: Rejection)
    ensures Gate(l, a, c).None? ==> !Violates(l, a, c, q)
    ensures Gate(l, a, c).Some? ==> Violates(l, a, c, Gate(l, a, c).value)
    ensures Gate(l, a, c).Some? && Rank(q) < Rank(Gate(l, a, c).value) ==> !Violates(l, a, c, q)
    ensures Gate(l, a, c).Some? && Rank(q) == Rank(Gate(l, a, c).value) ==> Gate(l, a, c) == Some(q)
  {
    DailyLossIff(l, a, c);
  }

  /** The gate refuses with a reason exactly when that rule is violated and none before it is. */
  lemma {:induction false} GateNamesTheFirstViolation(l: Limits, a: Account, c: Context, r: Rejection)
    ensures (Gate(l, a, c) == Some(r)
             <==> Violates(l, a, c, r) && forall q :: Rank(q) < Rank(r) ==> !Violates(l, a, c, q))
    ensures Gate(l, a, c).None? <==> forall q :: !Violates(l, a, c, q)
  {
    forall q: Rejection
      ensures Gate(l, a, c).None? ==> !Violates(l, a, c, q)
      ensures Gate(l, a, c).Some? && Rank(q) < Rank(Gate(l, a, c).value) ==> !Violates(l, a, c, q)
    {
      NothingBefore(l, a, c, q);
    }
    NothingBefore(l, a, c, r);
  }

  lemma {:induction false} DailyLossIff(l: Limits, a: Account, c: Context)
    ensures DailyLossReached(l, a) <==> Violates(l, a, c, DailyLoss)
    ensures c.required as real > PositionCap(l, a.starting) <==> Violates(l, a, c, PositionSize)
  {
  }

  /** An entry is opened exactly when no rule is violated and the budget pays for one share. */
  lemma {:induction false} EntryOpensIff(e: Engine, w: World, trigger: real, side: Side, allocation: Option<int>,
                                         held: bool, today: nat)
    ensures var price := EntryPrice(trigger, e.slippagePct, side);
            var c := Context(e.capitalPerTrade, |w.book|, held, today);
            (StepOpen(e, w, trigger, side, allocation, held, today) != w
             <==> (forall r :: !Violates(e.limits, w.account, c, r))
                  && price > 0 && Affordable(e, w.account, allocation, price, 1))
  {
    var price := EntryPrice(trigger, e.slippagePct, side);
    GateNamesTheFirstViolation(e.limits, w.account, Context(e.capitalPerTrade, |w.book|, held, today), TradingPaused);
    if price > 0 {
      SizedQuantityIsTheLargestFit(e.capitalPerTrade, Some(Budget(w.account, allocation)), price, 1);
    }
    if Admitted(e, w, held, today) && Sized(e, w, trigger, side, allocation).quantity != 0 {
      assert |StepOpen(e, w, trigger, side, allocation, held, today).entries| == |w.entries| + 1;
    }
  }

  // ---- What an entry had to pass ------------------------------------------

  /**
   An entry is opened only when every rule allows it, and then costs no more than the
   capital per trade, the free capital and the portfolio's allotment.
   */
  lemma {:induction false} EntryPassesEveryRule(e: Engine, w: World, trigger: real, side: Side, allocation: Option<int>,
                                                held: bool, today: nat)
    requires StepOpen(e, w, trigger, side, allocation, held, today) != w
    ensures var a, p := w.account, Sized(e, w, trigger, side, allocation);
            && !a.paused && !held && |w.book| < e.limits.maxOpen && today < e.limits.maxTradesPerDay
            && e.capitalPerTrade as real <= PositionCap(e.limits, a.starting)
            && e.capitalPerTrade <= a.available
            && !DailyLossReached(e.limits, a) && a.consecutiveLosses < e.limits.lossCooldown
            && 0 < CapitalOf(p) <= e.capitalPerTrade
            && (allocation.Some? && allocation.value > 0 ==> CapitalOf(p) <= allocation.value)
  {
    var p := Sized(e, w, trigger, side, allocation);
    CapitalIsPositive(p);
    SizedQuantityIsTheLargestFit(e.capitalPerTrade, Some(Budget(w.account, allocation)), p.entry, 0);
  }

  lemma {:induction false} NewEntryIsCapped(e: Engine, w: World, a: Action, id: nat)
    requires |w.entries| <= id < |Step(e, w, a).entries|
    ensures CapitalOf(Step(e, w, a).entries[id]) as real <= PositionCap(e.limits, w.account.starting)
  {
    EntryPassesEveryRule(e, w, a.trigger, a.side, a.allocation, a.heldForSymbol, a.tradesToday);
  }

  lemma {:induction false} EntriesStay(e: Engine, w: World, a: Action, id: nat)
    requires id < |w.entries|
    ensures id < |Step(e, w, a).entries| && Step(e, w, a).entries[id] == w.entries[id]
  {
  }

  // ---- Accounts that missed something ------------------------------------

  /** The account lacks a trade row, or has money its entries and trades do not account for. */
  predicate Behind(w: World) {
    w.account.total < |w.trades| || (w.account.total == |w.trades| && Excess(w) > 0)
  }

  lemma {:induction false} BehindIsNotConserved(w: World)
    requires Behind(w)
    ensures !Conserved(w)
  {
  }

  /** Nothing a writer does to such an account makes up for what it missed. */
  lemma {:induction false} StepStaysBehind(e: Engine, w: World, a: Action)
    requires WellFormed(w) && Behind(w)
    ensures Behind(Step(e, w, a))
  {
    StepExcess(e, w, a);
  }

  /** A second close leaves the account behind. */
  lemma {:induction false} SecondCloseIsBehind(e: Engine, w: World, a: Action)
    requires WellFormed(w) && Conserved(w) && ClosesAgain(w, a)
    ensures Behind(Step(e, w, a))
  {
    StepExcess(e, w, a);
  }
}
