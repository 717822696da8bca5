/**
 The portfolio gate and the allocation pipeline around it: eight rules on each candidate,
 then an update of the day's risk state and of the stored allocation row. Money is in whole
 paise.
 */
module PortfolioRisk {
  import opened Wrappers
  import opened Sums
  import opened Rounding
  import CapitalAllocation

  type Strategy = nat
  type Sector = nat
  type SignalId = nat

  datatype Limits = Limits(
    total: int,
    maxOpen: int,
    exposurePct: real,
    dailyLossPct: real,
    perTradePct: real,
    perStrategyPct: real,
    perSectorPct: real,
    maxCorrelated: int)

  datatype Context = Context(
    available: int,
    proposed: int,
    used: int,
    openPositions: int,
    strategyUsed: int,
    sector: Option<Sector>,
    sectorUsed: int,
    correlated: int)

  datatype Rejection =
    | Halted
    | DailyLoss
    | MaxOpenPositions
    | MaxExposure
    | MaxPerTrade
    | MaxPerStrategy
    | MaxPerSector
    | MaxCorrelated
    | InsufficientCapital

  function Abs(x: int): nat {
    if x >= 0 then x else -x
  }

  /** The share of the capital, zero when there is no capital. */
  function Share(amount: int, total: int): real {
    if total > 0 then amount as real / total as real else 0.0
  }

  function CheckHalt(l: Limits, dailyLoss: int, halted: bool): Option<Rejection> {
    if halted then Some(Halted)
    else if dailyLoss < 0 && Share(Abs(dailyLoss), l.total) >= l.dailyLossPct then Some(DailyLoss)
    else None
  }

  function CheckSector(l: Limits, c: Context): Option<Rejection> {
    if c.sector.None? then None
    else if (c.sectorUsed + c.proposed) as real > l.total as real * l.perSectorPct then Some(MaxPerSector)
    else if c.correlated >= l.maxCorrelated then Some(MaxCorrelated)
    else None
  }

  function TradeCap(l: Limits): real {
    l.total as real * l.perTradePct
  }

  predicate TradeTooLarge(l: Limits, proposed: int) {
    proposed as real > TradeCap(l)
  }

  /** The first rule that fails, in priority order. */
  function Evaluate(l: Limits, c: Context, dailyLoss: int, halted: bool): Option<Rejection> {
    if CheckHalt(l, dailyLoss, halted).Some? then CheckHalt(l, dailyLoss, halted)
    else if c.openPositions >= l.maxOpen then Some(MaxOpenPositions)
    else if Share(c.used + c.proposed, l.total) > l.exposurePct then Some(MaxExposure)
    else if TradeTooLarge(l, c.proposed) then Some(MaxPerTrade)
    else if (c.strategyUsed + c.proposed) as real > l.total as real * l.perStrategyPct then Some(MaxPerStrategy)
    else if CheckSector(l, c).Some? then CheckSector(l, c)
    else if c.available < c.proposed then Some(InsufficientCapital)
    else None
  }

  // ---- The pipeline -------------------------------------------------------

  /** The day's stored risk state. */
  datatype State = State(
    used: int,
    available: int,
    openPositions: int,
    approved: nat,
    rejected: nat,
    strategyExposure: map<Strategy, int>,
    sectorExposure: map<Sector, int>,
    realized: int,
    halted: bool)

  /** A stored allocation row, keyed by its signal. */
  datatype Row = Row(signal: SignalId, strategy: Strategy, sector: Option<Sector>, amount: int, approved: bool)

  datatype World = World(state: State, rows: seq<Row>)

  /** A candidate with the allocator's answer: an amount, or zero and a reason. */
  datatype Signal = Signal(id: SignalId, strategy: Strategy, sector: Option<Sector>, proposed: int, refused: bool)

  datatype Action = Process(signal: Signal) | SetDay(realized: int, halted: bool)

  /** A strategy or a sector, the two ways exposure is grouped. */
  datatype Group = OfStrategy(strategy: Strategy) | OfSector(sector: Sector)

  predicate InGroup(strategy: Strategy, sector: Option<Sector>, g: Group) {
    match g
    case OfStrategy(s) => strategy == s
    case OfSector(s) => sector == Some(s)
  }

  function Contribution(r: Row, g: Group): int {
    if r.approved && InGroup(r.strategy, r.sector, g) then r.amount else 0
  }

  /** The stored capital of a group: the sum over its approved rows. */
  function Capital(rows: seq<Row>, g: Group): int {
    if rows == [] then 0 else Capital(rows[..|rows| - 1], g) + Contribution(rows[|rows| - 1], g)
  }

  function CountIn(rows: seq<Row>, s: Sector): nat {
    if rows == [] then 0 else
    var last := rows[|rows| - 1];
    CountIn(rows[..|rows| - 1], s) + if last.approved && last.sector == Some(s) then 1 else 0
  }

  /** Replaces the row of the signal, or appends it. */
  function Upserted(rows: seq<Row>, row: Row): seq<Row> {
    if rows == [] then [row]
    else if rows[|rows| - 1].signal == row.signal then rows[..|rows| - 1] + [row]
    else Upserted(rows[..|rows| - 1], row) + [rows[|rows| - 1]]
  }

  function Find(rows: seq<Row>, id: SignalId): Option<Row> {
    if rows == [] then None
    else if rows[|rows| - 1].signal == id then Some(rows[|rows| - 1])
    else Find(rows[..|rows| - 1], id)
  }

  function At(m: map<nat, int>, k: nat): int {
    if k in m then m[k] else 0
  }

  /** The running exposure the risk state keeps for a group. */
  function Exposure(st: State, g: Group): int {
    match g
    case OfStrategy(s) => At(st.strategyExposure, s)
    case OfSector(s) => At(st.sectorExposure, s)
  }

  function ContextOf(w: World, sig: Signal): Context {
    Context(w.state.available, sig.proposed, w.state.used, w.state.openPositions,
            Capital(w.rows, OfStrategy(sig.strategy)),
            sig.sector,
            if sig.sector.Some? then Capital(w.rows, OfSector(sig.sector.value)) else 0,
            if sig.sector.Some? then CountIn(w.rows, sig.sector.value) else 0)
  }

  predicate Accepted(l: Limits, w: World, sig: Signal) {
    !(sig.proposed <= 0 && sig.refused)
    && Evaluate(l, ContextOf(w, sig), w.state.realized, w.state.halted).None?
  }

  function AfterApproval(l: Limits, st: State, sig: Signal): State {
    st.(used := st.used + sig.proposed,
        available := l.total - (st.used + sig.proposed),
        openPositions := st.openPositions + 1,
        approved := st.approved + 1,
        strategyExposure := st.strategyExposure[sig.strategy := At(st.strategyExposure, sig.strategy) + sig.proposed],
        sectorExposure := if sig.sector.None? then st.sectorExposure
                          else st.sectorExposure[sig.sector.value := At(st.sectorExposure, sig.sector.value) + sig.proposed])
  }

  /** The halt flag flips once the realized loss reaches the limit. */
  predicate LossReached(l: Limits, st: State) {
    st.realized < 0 && Abs(st.realized) as real >= l.total as real * l.dailyLossPct
  }

  function StepProcess(l: Limits, w: World, sig: Signal): World {
    var ok := Accepted(l, w, sig);
    var row := Row(sig.id, sig.strategy, sig.sector, if ok then sig.proposed else 0, ok);
    var st := if ok then AfterApproval(l, w.state, sig) else w.state.(rejected := w.state.rejected + 1);
    World(st.(halted := st.halted || LossReached(l, st)), Upserted(w.rows, row))
  }

  function Step(l: Limits, w: World, a: Action): World {
    match a
    case Process(sig) => StepProcess(l, w, sig)
    case SetDay(realized, halted) => w.(state := w.state.(realized := realized, halted := halted))
  }

  function Run(l: Limits, actions: seq<Action>, n: nat): World
    requires n <= |actions|
  {
    if n == 0 then World(State(0, l.total, 0, 0, 0, map[], map[], 0, false), [])
    else Step(l, Run(l, actions, n - 1), actions[n - 1])
  }

  // ---- Caps of every run --------------------------------------------------

  /** Limits as the settings give them: no negative capital, percentage or count. */
  predicate Sane(l: Limits) {
    && l.total >= 0 && l.maxOpen >= 0 && l.maxCorrelated >= 0
    && l.exposurePct >= 0.0 && l.perTradePct >= 0.0 && l.perStrategyPct >= 0.0 && l.perSectorPct >= 0.0
  }

  ghost predicate WithinCaps(l: Limits, st: State) {
    && st.used as real <= l.total as real * l.exposurePct
    && st.available == l.total - st.used && st.available >= 0
    && 0 <= st.openPositions <= l.maxOpen && st.openPositions == st.approved
    && st.used == SumOf(st.strategyExposure)
  }

  lemma {:induction false} ShareBound(amount: int, total: int, pct: real)
    requires total > 0 && Share(amount, total) <= pct
    ensures amount as real <= total as real * pct
  {
    var a, t := amount as real, total as real;
    assert a == a / t * t;
    assert (pct - a / t) * t >= 0.0;
  }

  lemma {:induction false} ExposureHolds(l: Limits, used: int, proposed: int)
    requires Sane(l) && used as real <= l.total as real * l.exposurePct
    requires Share(used + proposed, l.total) <= l.exposurePct
    requires proposed as real <= l.total as real * l.perTradePct
    ensures (used + proposed) as real <= l.total as real * l.exposurePct
  {
    if l.total > 0 {
      ShareBound(used + proposed, l.total, l.exposurePct);
    } else {
      assert l.total as real * l.perTradePct == 0.0;
    }
  }

  lemma {:induction false} StepKeepsCaps(l: Limits, w: World, sig: Signal)
    requires Sane(l) && WithinCaps(l, w.state)
    ensures WithinCaps(l, StepProcess(l, w, sig).state)
  {
    if Accepted(l, w, sig) {
      ExposureHolds(l, w.state.used, sig.proposed);
      SumAfterUpdate(w.state.strategyExposure, sig.strategy, At(w.state.strategyExposure, sig.strategy) + sig.proposed);
    }
  }

  lemma {:induction false} NothingIsWithinCaps(l: Limits)
    requires Sane(l)
    ensures WithinCaps(l, State(0, l.total, 0, 0, 0, map[], map[], 0, false))
  {
    assert l.total as real * l.exposurePct >= 0.0;
  }

  /**
   Over every run, repeated signals included: total exposure, open count and free capital
   stay within their limits and the used capital is the sum of the strategy exposures.
   */
  lemma {:induction false} CapsHoldInEveryRun(l: Limits, actions: seq<Action>, n: nat)
    requires Sane(l) && n <= |actions|
    ensures WithinCaps(l, Run(l, actions, n).state)
  {
    if n == 0 {
      NothingIsWithinCaps(l);
    } else {
      CapsHoldInEveryRun(l, actions, n - 1);
      if actions[n - 1].Process? {
        StepKeepsCaps(l, Run(l, actions, n - 1), actions[n - 1].signal);
      }
    }
  }

  // ---- Stored rows against running exposures ------------------------------

  /** The sums over stored rows, which the gate reads, are the exposures the state keeps. */
  ghost predicate Agrees(w: World) {
    forall g :: Capital(w.rows, g) == Exposure(w.state, g)
  }

  function Earlier(rows: seq<Row>, id: SignalId, g: Group): int {
    var earlier := Find(rows, id);
    if earlier.Some? then Contribution(earlier.value, g) else 0
  }

  lemma {:induction false} UpsertMovesCapital(rows: seq<Row>, row: Row, g: Group)
    ensures Capital(Upserted(rows, row), g) == Capital(rows, g) - Earlier(rows, row.signal, g) + Contribution(row, g)
  {
    if rows == [] {
      assert [row][..0] == [];
    } else {
      var k := |rows| - 1;
      if rows[k].signal == row.signal {
        assert (rows[..k] + [row])[..k] == rows[..k];
      } else {
        UpsertMovesCapital(rows[..k], row, g);
        var before := Upserted(rows[..k], row);
        assert (before + [rows[k]])[..|before|] == before;
      }
    }
  }

  lemma {:induction false} StepMovesExposure(l: Limits, w: World, sig: Signal, g: Group)
    ensures var after := StepProcess(l, w, sig);
            var gained := if Accepted(l, w, sig) && InGroup(sig.strategy, sig.sector, g) then sig.proposed else 0;
            && Exposure(after.state, g) == Exposure(w.state, g) + gained
            && Capital(after.rows, g) == Capital(w.rows, g) - Earlier(w.rows, sig.id, g) + gained
  {
    var ok := Accepted(l, w, sig);
    UpsertMovesCapital(w.rows, Row(sig.id, sig.strategy, sig.sector, if ok then sig.proposed else 0, ok), g);
  }

  /**
   Processing a signal keeps rows and exposures in agreement exactly when the signal has no
   stored row that carries capital: an upsert replaces that row, but nothing takes its
   capital back out of the running exposures.
   */
  lemma {:induction false} ProcessAgreesIff(l: Limits, w: World, sig: Signal)
    requires Agrees(w)
    ensures Agrees(StepProcess(l, w, sig)) <==>
            (Find(w.rows, sig.id).Some? && Find(w.rows, sig.id).value.approved ==> Find(w.rows, sig.id).value.amount == 0)
  {
    var after, earlier := StepProcess(l, w, sig), Find(w.rows, sig.id);
    forall g
      ensures Capital(after.rows, g) - Exposure(after.state, g) == -Earlier(w.rows, sig.id, g)
    {
      StepMovesExposure(l, w, sig, g);
      assert Capital(w.rows, g) == Exposure(w.state, g);
    }
    if earlier.Some? && earlier.value.approved && earlier.value.amount != 0 {
      var g := OfStrategy(earlier.value.strategy);
      assert Earlier(w.rows, sig.id, g) != 0;
      assert Capital(after.rows, g) != Exposure(after.state, g);
    }
  }

  function LimitOf(l: Limits, g: Group): real {
    l.total as real * if g.OfStrategy? then l.perStrategyPct else l.perSectorPct
  }

  /** Every group's running exposure and every sector's count are within their limits. */
  ghost predicate GroupCaps(l: Limits, w: World) {
    && (forall g :: Exposure(w.state, g) as real <= LimitOf(l, g))
    && (forall s :: CountIn(w.rows, s) <= l.maxCorrelated)
  }

  lemma {:induction false} UpsertCounts(rows: seq<Row>, row: Row, s: Sector)
    ensures CountIn(Upserted(rows, row), s)
            <= CountIn(rows, s) + (if row.approved && row.sector == Some(s) then 1 else 0)
  {
    if rows == [] {
      assert [row][..0] == [];
    } else {
      var k := |rows| - 1;
      if rows[k].signal == row.signal {
        assert (rows[..k] + [row])[..k] == rows[..k];
      } else {
        UpsertCounts(rows[..k], row, s);
        var before := Upserted(rows[..k], row);
        assert (before + [rows[k]])[..|before|] == before;
      }
    }
  }

  lemma {:induction false} AcceptedFits(l: Limits, w: World, sig: Signal, g: Group)
    requires Accepted(l, w, sig) && InGroup(sig.strategy, sig.sector, g)
    ensures (Capital(w.rows, g) + sig.proposed) as real <= LimitOf(l, g)
    ensures g.OfSector? ==> CountIn(w.rows, g.sector) < l.maxCorrelated
  {
    match g
    case OfStrategy(_) =>
    case OfSector(_) =>
      assert CheckSector(l, ContextOf(w, sig)).None?;
  }

  lemma {:induction false} StepKeepsGroupCaps(l: Limits, w: World, sig: Signal)
    requires Agrees(w) && GroupCaps(l, w)
    ensures GroupCaps(l, StepProcess(l, w, sig))
  {
    forall g
      ensures Exposure(StepProcess(l, w, sig).state, g) as real <= LimitOf(l, g)
    {
      StepMovesExposure(l, w, sig, g);
      assert Capital(w.rows, g) == Exposure(w.state, g) && Exposure(w.state, g) as real <= LimitOf(l, g);
      if Accepted(l, w, sig) && InGroup(sig.strategy, sig.sector, g) {
        AcceptedFits(l, w, sig, g);
      }
    }
    forall s
      ensures CountIn(StepProcess(l, w, sig).rows, s) <= l.maxCorrelated
    {
      StepKeepsCount(l, w, sig, s);
    }
  }

  lemma {:induction false} StepKeepsCount(l: Limits, w: World, sig: Signal, s: Sector)
    requires CountIn(w.rows, s) <= l.maxCorrelated
    ensures CountIn(StepProcess(l, w, sig).rows, s) <= l.maxCorrelated
  {
    var ok := Accepted(l, w, sig);
    UpsertCounts(w.rows, Row(sig.id, sig.strategy, sig.sector, if ok then sig.proposed else 0, ok), s);
    if ok && sig.sector == Some(s) {
      AcceptedFits(l, w, sig, OfSector(s));
    }
  }

  /** No processed signal has a stored row that carries capital. */
  ghost predicate FreshSignals(l: Limits, actions: seq<Action>, n: nat)
    requires n <= |actions|
  {
    n == 0 ||
    (FreshSignals(l, actions, n - 1) &&
     (actions[n - 1].Process? ==>
        var earlier := Find(Run(l, actions, n - 1).rows, actions[n - 1].signal.id);
        earlier.Some? && earlier.value.approved ==> earlier.value.amount == 0))
  }

  lemma {:induction false} NothingIsWithinGroupCaps(l: Limits)
    requires Sane(l)
    ensures Agrees(Run(l, [], 0)) && GroupCaps(l, Run(l, [], 0))
  {
    assert l.total as real * l.perStrategyPct >= 0.0 && l.total as real * l.perSectorPct >= 0.0;
  }

  /**
   Over every run of fresh signals, rows and exposures agree and no strategy, no sector and
   no sector count ever passes its limit.
   */
  lemma {:induction false} GroupCapsHold(l: Limits, actions: seq<Action>, n: nat)
    requires Sane(l) && n <= |actions| && FreshSignals(l, actions, n)
    ensures Agrees(Run(l, actions, n)) && GroupCaps(l, Run(l, actions, n))
  {
    if n == 0 {
      NothingIsWithinGroupCaps(l);
    } else {
      GroupCapsHold(l, actions, n - 1);
      var w := Run(l, actions, n - 1);
      if actions[n - 1].Process? {
        ProcessAgreesIff(l, w, actions[n - 1].signal);
        StepKeepsGroupCaps(l, w, actions[n - 1].signal);
      } else {
        DayKeepsGroups(l, w, actions[n - 1]);
      }
    }
  }

  lemma {:induction false} DayKeepsGroups(l: Limits, w: World, a: Action)
    requires a.SetDay? && Agrees(w) && GroupCaps(l, w)
    ensures Agrees(Step(l, w, a)) && GroupCaps(l, Step(l, w, a))
  {
    var after := Step(l, w, a);
    assert forall g :: Exposure(after.state, g) == Exposure(w.state, g);
  }

  // ---- Repeated signals ---------------------------------------------------

  /** The capital of a group in rows that repeated signals overwrote. */
  function Lost(l: Limits, actions: seq<Action>, n: nat, g: Group): int
    requires n <= |actions|
  {
    if n == 0 then 0 else
    Lost(l, actions, n - 1, g)
    + if actions[n - 1].Process? then Earlier(Run(l, actions, n - 1).rows, actions[n - 1].signal.id, g) else 0
  }

  /** No candidate proposes a negative amount. */
  predicate Proposes(actions: seq<Action>, n: nat)
    requires n <= |actions|
  {
    forall k :: 0 <= k < n && actions[k].Process? ==> actions[k].signal.proposed >= 0
  }

  predicate NoNegativeRows(rows: seq<Row>) {
    forall k :: 0 <= k < |rows| ==> rows[k].amount >= 0
  }

  lemma {:induction false} UpsertKeepsAmounts(rows: seq<Row>, row: Row)
    requires NoNegativeRows(rows) && row.amount >= 0
    ensures NoNegativeRows(Upserted(rows, row))
  {
    if rows != [] && rows[|rows| - 1].signal != row.signal {
      UpsertKeepsAmounts(rows[..|rows| - 1], row);
    }
  }

  lemma {:induction false} EarlierIsNonNegative(rows: seq<Row>, id: SignalId, g: Group)
    requires NoNegativeRows(rows)
    ensures Earlier(rows, id, g) >= 0
  {
    if rows != [] && rows[|rows| - 1].signal != id {
      EarlierIsNonNegative(rows[..|rows| - 1], id, g);
    }
  }

  /** What one candidate does to a group's stored capital and to what repeats have lost. */
  lemma {:induction false} StepKeepsStoredCap(l: Limits, w: World, sig: Signal, g: Group)
    requires NoNegativeRows(w.rows) && sig.proposed >= 0 && Capital(w.rows, g) as real <= LimitOf(l, g)
    ensures NoNegativeRows(StepProcess(l, w, sig).rows) && Earlier(w.rows, sig.id, g) >= 0
    ensures Capital(StepProcess(l, w, sig).rows, g) as real <= LimitOf(l, g)
  {
    var ok := Accepted(l, w, sig);
    UpsertKeepsAmounts(w.rows, Row(sig.id, sig.strategy, sig.sector, if ok then sig.proposed else 0, ok));
    EarlierIsNonNegative(w.rows, sig.id, g);
    StepMovesExposure(l, w, sig, g);
    if ok && InGroup(sig.strategy, sig.sector, g) {
      AcceptedFits(l, w, sig, g);
    }
  }

  /** A group's running exposure is its stored capital plus what repeated signals have overwritten. */
  lemma {:induction false} ExposureIsStoredPlusLost(l: Limits, actions: seq<Action>, n: nat, g: Group)
    requires n <= |actions|
    ensures Exposure(Run(l, actions, n).state, g) == Capital(Run(l, actions, n).rows, g) + Lost(l, actions, n, g)
  {
    if n > 0 {
      ExposureIsStoredPlusLost(l, actions, n - 1, g);
      if actions[n - 1].Process? {
        StepMovesExposure(l, Run(l, actions, n - 1), actions[n - 1].signal, g);
      }
    }
  }

  /** The stored capital of a group, and with it the sector count, stays within its limit, repeats included. */
  lemma {:induction false} StoredCapsHold(l: Limits, actions: seq<Action>, n: nat, g: Group)
    requires Sane(l) && n <= |actions| && Proposes(actions, n)
    ensures Capital(Run(l, actions, n).rows, g) as real <= LimitOf(l, g) && NoNegativeRows(Run(l, actions, n).rows)
    ensures Lost(l, actions, n, g) >= 0
    ensures g.OfSector? ==> CountIn(Run(l, actions, n).rows, g.sector) <= l.maxCorrelated
  {
    if n == 0 {
      NothingIsWithinGroupCaps(l);
      assert LimitOf(l, g) >= 0.0;
    } else {
      StoredCapsHold(l, actions, n - 1, g);
      if actions[n - 1].Process? {
        StepKeepsStoredCap(l, Run(l, actions, n - 1), actions[n - 1].signal, g);
        if g.OfSector? {
          StepKeepsCount(l, Run(l, actions, n - 1), actions[n - 1].signal, g.sector);
        }
      }
    }
  }

  /**
   In every run, repeated signals included, the stored capital keeps its limit; the running exposure
   keeps it exactly when the capital that repeats have overwritten fits beside the stored capital.
   */
  lemma {:induction false} GroupCapHoldsIff(l: Limits, actions: seq<Action>, n: nat, g: Group)
    requires Sane(l) && n <= |actions| && Proposes(actions, n)
    ensures var w, lost := Run(l, actions, n), Lost(l, actions, n, g);
            && lost >= 0 && Capital(w.rows, g) as real <= LimitOf(l, g)
            && (Exposure(w.state, g) as real <= LimitOf(l, g)
                <==> lost as real <= LimitOf(l, g) - Capital(w.rows, g) as real)
  {
    ExposureIsStoredPlusLost(l, actions, n, g);
    StoredCapsHold(l, actions, n, g);
  }

  /** Fresh signals lose nothing, which is the case of GroupCapsHold. */
  lemma {:induction false} FreshSignalsLoseNothing(l: Limits, actions: seq<Action>, n: nat, g: Group)
    requires n <= |actions| && FreshSignals(l, actions, n)
    ensures Lost(l, actions, n, g) == 0
  {
    if n > 0 {
      FreshSignalsLoseNothing(l, actions, n - 1, g);
    }
  }

  // ---- What fits is approved ----------------------------------------------

  /** What each rule forbids; a percentage of no capital counts as zero. */
  predicate Violates(l: Limits, c: Context, dailyLoss: int, halted: bool, r: Rejection) {
    match r
    case Halted => halted
    case DailyLoss => dailyLoss < 0 && AtLeast(-dailyLoss, l.total, l.dailyLossPct)
    case MaxOpenPositions => c.openPositions >= l.maxOpen
    case MaxExposure => Exceeds(c.used + c.proposed, l.total, l.exposurePct)
    case MaxPerTrade => c.proposed as real > l.total as real * l.perTradePct
    case MaxPerStrategy => (c.strategyUsed + c.proposed) as real > l.total as real * l.perStrategyPct
    case MaxPerSector => c.sector.Some? && (c.sectorUsed + c.proposed) as real > l.total as real * l.perSectorPct
    case MaxCorrelated => c.sector.Some? && c.correlated >= l.maxCorrelated
    case InsufficientCapital => c.proposed > c.available
  }

  predicate AtLeast(amount: int, total: int, pct: real) {
    if total > 0 then amount as real >= total as real * pct else pct <= 0.0
  }

  predicate Exceeds(amount: int, total: int, pct: real) {
    if total > 0 then amount as real > total as real * pct else pct < 0.0
  }

  function Rank(r: Rejection): nat {
    match r
    case Halted => 1
    case DailyLoss => 2
    case MaxOpenPositions => 3
    case MaxExposure => 4
    case MaxPerTrade => 5
    case MaxPerStrategy => 6
    case MaxPerSector => 7
    case MaxCorrelated => 8
    case InsufficientCapital => 9
  }

  lemma {:induction false} SharesCompare(amount: int, total: int, pct: real)
    ensures Share(amount, total) >= pct <==> AtLeast(amount, total, pct)
    ensures Share(amount, total) > pct <==> Exceeds(amount, total, pct)
  {
    if total > 0 {
      var a, t := amount as real, total as real;
      assert a == a / t * t;
      assert a / t >= pct ==> a / t * t >= pct * t;
      assert a / t > pct ==> a / t * t > pct * t;
      assert a / t <= pct ==> a / t * t <= pct * t;
      assert a / t < pct ==> a / t * t < pct * t;
    }
  }

  lemma {:induction false} NothingBefore(l: Limits, c: Context, loss: int, halted: bool, q: Rejection)
    ensures var found := Evaluate(l, c, loss, halted);
            && (found.None? ==> !Violates(l, c, loss, halted, q))
            && (found.Some? ==> Violates(l, c, loss, halted, found.value))
            && (found.Some? && Rank(q) < Rank(found.value) ==> !Violates(l, c, loss, halted, q))
            && (found.Some? && Rank(q) == Rank(found.value) ==> found == Some(q))
  {
    SharesCompare(Abs(loss), l.total, l.dailyLossPct);
    SharesCompare(c.used + c.proposed, l.total, l.exposurePct);
  }

  /** The gate refuses with a reason exactly when that rule is violated and none before it is. */
  lemma {:induction false} GateNamesTheFirstViolation(l: Limits, c: Context, loss: int, halted: bool, r: Rejection)
    ensures (Evaluate(l, c, loss, halted) == Some(r)
             <==> Violates(l, c, loss, halted, r)
                  && forall q :: Rank(q) < Rank(r) ==> !Violates(l, c, loss, halted, q))
    ensures Evaluate(l, c, loss, halted).None? <==> forall q :: !Violates(l, c, loss, halted, q)
  {
    forall q: Rejection
      ensures var found := Evaluate(l, c, loss, halted);
              && (found.None? ==> !Violates(l, c, loss, halted, q))
              && (found.Some? && Rank(q) < Rank(found.value) ==> !Violates(l, c, loss, halted, q))
    {
      NothingBefore(l, c, loss, halted, q);
    }
    NothingBefore(l, c, loss, halted, r);
  }

  /** A group has room for the candidate: for its amount, and in a sector for one more position. */
  predicate HasRoom(l: Limits, w: World, proposed: int, g: Group) {
    && (Capital(w.rows, g) + proposed) as real <= LimitOf(l, g)
    && (g.OfSector? ==> CountIn(w.rows, g.sector) < l.maxCorrelated)
  }

  /** The day is over: somebody halted it, or its realized loss is at the limit. */
  predicate DayIsOver(l: Limits, st: State) {
    st.halted || (st.realized < 0 && AtLeast(-st.realized, l.total, l.dailyLossPct))
  }

  lemma {:induction false} RoomIff(l: Limits, w: World, sig: Signal)
    ensures var c, loss, halted := ContextOf(w, sig), w.state.realized, w.state.halted;
            (GroupsFit(l, w, sig)
             <==> !Violates(l, c, loss, halted, MaxPerStrategy) && !Violates(l, c, loss, halted, MaxPerSector)
                  && !Violates(l, c, loss, halted, MaxCorrelated))
  {
    assert InGroup(sig.strategy, sig.sector, OfStrategy(sig.strategy));
    assert sig.sector.Some? ==> InGroup(sig.strategy, sig.sector, OfSector(sig.sector.value));
  }

  lemma {:induction false} TotalsFitIff(l: Limits, w: World, sig: Signal)
    requires Sane(l) && WithinCaps(l, w.state) && Standing(l, w.state, sig.proposed)
    ensures var c, loss, halted := ContextOf(w, sig), w.state.realized, w.state.halted;
            (TotalsFit(l, w.state, sig.proposed)
             <==> !Violates(l, c, loss, halted, MaxExposure) && !Violates(l, c, loss, halted, InsufficientCapital))
  {
    if l.total == 0 {
      assert l.total as real * l.perTradePct == 0.0 && l.total as real * l.exposurePct == 0.0;
    }
  }

  /** What the day, the open count and the cap of one trade demand. */
  predicate Standing(l: Limits, st: State, proposed: int) {
    !DayIsOver(l, st) && st.approved < l.maxOpen && proposed as real <= l.total as real * l.perTradePct
  }

  /** The used capital stays within the exposure cap and within the capital. */
  predicate TotalsFit(l: Limits, st: State, proposed: int) {
    (st.used + proposed) as real <= l.total as real * l.exposurePct && st.used + proposed <= l.total
  }

  ghost predicate GroupsFit(l: Limits, w: World, sig: Signal) {
    forall g :: InGroup(sig.strategy, sig.sector, g) ==> HasRoom(l, w, sig.proposed, g)
  }

  /** The candidate fits: what the allocator, the day, the trade, the totals and its groups demand. */
  ghost predicate FitsIn(l: Limits, w: World, sig: Signal) {
    && !(sig.refused && sig.proposed <= 0) && Standing(l, w.state, sig.proposed)
    && TotalsFit(l, w.state, sig.proposed) && GroupsFit(l, w, sig)
  }

  lemma {:induction false} StandingIff(l: Limits, w: World, sig: Signal)
    requires WithinCaps(l, w.state)
    ensures var c, loss, halted := ContextOf(w, sig), w.state.realized, w.state.halted;
            (Standing(l, w.state, sig.proposed)
             <==> !Violates(l, c, loss, halted, Halted) && !Violates(l, c, loss, halted, DailyLoss)
                  && !Violates(l, c, loss, halted, MaxOpenPositions) && !Violates(l, c, loss, halted, MaxPerTrade))
  {
  }

  /** The rules of the gate, in three groups. */
  lemma {:induction false} GateIff(l: Limits, w: World, sig: Signal)
    requires Sane(l) && WithinCaps(l, w.state)
    ensures Evaluate(l, ContextOf(w, sig), w.state.realized, w.state.halted).None?
            <==> Standing(l, w.state, sig.proposed) && TotalsFit(l, w.state, sig.proposed) && GroupsFit(l, w, sig)
  {
    NoViolationIff(l, ContextOf(w, sig), w.state.realized, w.state.halted);
    StandingIff(l, w, sig);
    RoomIff(l, w, sig);
    if Standing(l, w.state, sig.proposed) {
      TotalsFitIff(l, w, sig);
    }
  }

  lemma {:induction false} WithinCapsApprovedIff(l: Limits, w: World, sig: Signal)
    requires Sane(l) && WithinCaps(l, w.state)
    ensures Accepted(l, w, sig) <==> FitsIn(l, w, sig)
  {
    GateIff(l, w, sig);
  }

  /**
   In every reachable state a candidate is approved exactly when the allocator did not refuse it,
   the day is not over, it is within the cap of one trade, one more position is allowed, the used
   capital stays within the exposure cap and the capital, and each of its groups has room.
   */
  lemma {:induction false} ApprovedIff(l: Limits, actions: seq<Action>, n: nat, sig: Signal)
    requires Sane(l) && n <= |actions|
    ensures Accepted(l, Run(l, actions, n), sig) <==> FitsIn(l, Run(l, actions, n), sig)
  {
    CapsHoldInEveryRun(l, actions, n);
    WithinCapsApprovedIff(l, Run(l, actions, n), sig);
  }

  lemma {:induction false} NoViolationIff(l: Limits, c: Context, loss: int, halted: bool)
    ensures Evaluate(l, c, loss, halted).None?
            <==> && !Violates(l, c, loss, halted, Halted) && !Violates(l, c, loss, halted, DailyLoss)
                 && !Violates(l, c, loss, halted, MaxOpenPositions) && !Violates(l, c, loss, halted, MaxExposure)
                 && !Violates(l, c, loss, halted, MaxPerTrade) && !Violates(l, c, loss, halted, MaxPerStrategy)
                 && !Violates(l, c, loss, halted, MaxPerSector) && !Violates(l, c, loss, halted, MaxCorrelated)
                 && !Violates(l, c, loss, halted, InsufficientCapital)
  {
    SharesCompare(Abs(loss), l.total, l.dailyLossPct);
    SharesCompare(c.used + c.proposed, l.total, l.exposurePct);
  }

  // ---- What the counters count --------------------------------------------

  predicate Approves(l: Limits, actions: seq<Action>, k: nat) {
    k < |actions| && actions[k].Process? && Accepted(l, Run(l, actions, k), actions[k].signal)
  }

  function ApprovalCount(l: Limits, actions: seq<Action>, n: nat): nat
    requires n <= |actions|
  {
    if n == 0 then 0 else ApprovalCount(l, actions, n - 1) + if Approves(l, actions, n - 1) then 1 else 0
  }

  function CandidateCount(actions: seq<Action>, n: nat): nat
    requires n <= |actions|
  {
    if n == 0 then 0 else CandidateCount(actions, n - 1) + if actions[n - 1].Process? then 1 else 0
  }

  /** The capital of all candidates approved among the first `n` actions. */
  function Granted(l: Limits, actions: seq<Action>, n: nat): int
    requires n <= |actions|
  {
    if n == 0 then 0 else
    Granted(l, actions, n - 1) + if Approves(l, actions, n - 1) then actions[n - 1].signal.proposed else 0
  }

  /** Over every run each candidate is counted once, as approved or as rejected, and the used capital is what was granted. */
  lemma {:induction false} EveryCandidateIsCounted(l: Limits, actions: seq<Action>, n: nat)
    requires n <= |actions|
    ensures var st := Run(l, actions, n).state;
            && st.approved == ApprovalCount(l, actions, n)
            && st.rejected == CandidateCount(actions, n) - ApprovalCount(l, actions, n)
            && st.used == Granted(l, actions, n)
  {
    if n > 0 {
      EveryCandidateIsCounted(l, actions, n - 1);
    }
  }

  /** A sector's count is the number of its approved rows. */
  lemma {:induction false} CountIsTheApprovedRows(rows: seq<Row>, s: Sector)
    ensures CountIn(rows, s) == |set k: nat | k < |rows| && rows[k].approved && rows[k].sector == Some(s)|
  {
    var counted := set k: nat | k < |rows| && rows[k].approved && rows[k].sector == Some(s);
    if rows == [] {
      assert counted == {};
    } else {
      var n: nat := |rows| - 1;
      CountIsTheApprovedRows(rows[..n], s);
      var before := set k: nat | k < n && rows[..n][k].approved && rows[..n][k].sector == Some(s);
      assert n !in before;
      if rows[n].approved && rows[n].sector == Some(s) {
        assert counted == before + {n};
      } else {
        assert counted == before;
      }
    }
  }

  /** The row of a signal is stored under it, approved with its amount or refused with none. */
  lemma {:induction false} UpsertIsFound(rows: seq<Row>, row: Row, id: SignalId)
    ensures Find(Upserted(rows, row), id) == if id == row.signal then Some(row) else Find(rows, id)
  {
    if rows == [] {
      assert [row][..0] == [];
    } else {
      var k := |rows| - 1;
      if rows[k].signal == row.signal {
        assert (rows[..k] + [row])[..k] == rows[..k];
      } else {
        UpsertIsFound(rows[..k], row, id);
        var before := Upserted(rows[..k], row);
        assert (before + [rows[k]])[..|before|] == before;
      }
    }
  }

  // ---- Halting ------------------------------------------------------------

  /** A realized loss at the limit refuses every candidate, and one candidate later the portfolio is halted by it. */
  lemma {:induction false} LossHalts(l: Limits, w: World, sig: Signal)
    requires l.total > 0 && w.state.realized < 0 && -w.state.realized as real >= l.total as real * l.dailyLossPct
    ensures !Accepted(l, w, sig) && StepProcess(l, w, sig).state.halted
  {
    LossReachesShare(Abs(w.state.realized), l.total, l.dailyLossPct);
  }

  /** Processing a candidate halts the portfolio exactly at that loss, and changes neither loss nor flag otherwise. */
  lemma {:induction false} HaltsIff(l: Limits, w: World, sig: Signal)
    ensures var st, after := w.state, StepProcess(l, w, sig).state;
            && after.realized == st.realized
            && (after.halted
                <==> st.halted || (st.realized < 0 && -st.realized as real >= l.total as real * l.dailyLossPct))
  {
    assert w.state.realized < 0 ==> Abs(w.state.realized) == -w.state.realized;
  }

  lemma {:induction false} LossReachesShare(loss: int, total: int, pct: real)
    requires total > 0 && loss as real >= total as real * pct
    ensures Share(loss, total) >= pct
  {
    var a, t := loss as real, total as real;
    assert (a - t * pct) / t >= 0.0;
    assert t * pct / t == pct;
  }

  /** A halted portfolio approves nothing until somebody clears the flag. */
  lemma {:induction false} HaltedApprovesNothing(l: Limits, actions: seq<Action>, m: nat, n: nat)
    requires m <= n <= |actions| && Run(l, actions, m).state.halted
    requires forall k :: m <= k < n ==> actions[k].Process?
    ensures var before, after := Run(l, actions, m).state, Run(l, actions, n).state;
            && after.halted && after.used == before.used && after.available == before.available
            && after.approved == before.approved && after.rejected == before.rejected + (n - m)
            && after.strategyExposure == before.strategyExposure && after.sectorExposure == before.sectorExposure
    decreases n - m
  {
    if m < n {
      HaltedApprovesNothing(l, actions, m, n - 1);
      assert actions[n - 1].Process?;
    }
  }

  // ---- The allocator in front of the gate ---------------------------------

  /** The gate's per-trade rule would refuse what the allocator decided for the candidate. */
  predicate RefusesTheSize(l: Limits, s: CapitalAllocation.Settings, candidates: seq<CapitalAllocation.Candidate>,
                           available: real, m: CapitalAllocation.Method, k: nat) {
    k < |candidates| && TradeTooLarge(l, CapitalAllocation.Batch(s, candidates, available, m)[k].amount)
  }

  /**
   The allocator's cap and the gate's per-trade rule are the same share of the capital. The
   rule can still refuse an allocated amount exactly when the cap rounds past itself.
   */
  lemma {:induction false} PerTradeRuleFiresIff(l: Limits, s: CapitalAllocation.Settings)
    requires s.maxPerTrade == TradeCap(l) >= 0.0
    ensures (exists candidates, available, m, k :: RefusesTheSize(l, s, candidates, available, m, k))
            <==> Round(s.maxPerTrade) as real > s.maxPerTrade && s.minimum <= s.maxPerTrade
  {
    CapitalAllocation.CapIsPassedIff(s);
    if CapitalAllocation.CapIsPassable(s) {
      var candidates, available, m, k :| CapitalAllocation.PassesTheCap(s, candidates, available, m, k);
      SizeRuleIsTheCap(l, s, candidates, available, m, k);
    }
    if candidates, available, m, k :| RefusesTheSize(l, s, candidates, available, m, k) {
      SizeRuleIsTheCap(l, s, candidates, available, m, k);
    }
  }

  lemma {:induction false} SizeRuleIsTheCap(l: Limits, s: CapitalAllocation.Settings,
                                            candidates: seq<CapitalAllocation.Candidate>, available: real,
                                            m: CapitalAllocation.Method, k: nat)
    requires s.maxPerTrade == TradeCap(l)
    ensures RefusesTheSize(l, s, candidates, available, m, k)
            <==> CapitalAllocation.PassesTheCap(s, candidates, available, m, k)
  {
    if k < |candidates| {
      SameCap(l, s, CapitalAllocation.Batch(s, candidates, available, m)[k].amount);
    }
  }

  lemma {:induction false} SameCap(l: Limits, s: CapitalAllocation.Settings, amount: int)
    requires s.maxPerTrade == TradeCap(l)
    ensures TradeTooLarge(l, amount) <==> amount as real > s.maxPerTrade
  {
  }

  /** When the cap does not round past itself, the gate never refuses an allocated amount for its size. */
  lemma {:induction false} PerTradeRuleIsIdle(l: Limits, s: CapitalAllocation.Settings,
                                              candidates: seq<CapitalAllocation.Candidate>, available: real,
                                              m: CapitalAllocation.Method, k: nat, c: Context, loss: int, halted: bool)
    requires k < |candidates| && s.maxPerTrade == TradeCap(l) >= 0.0
    requires Round(s.maxPerTrade) as real <= s.maxPerTrade
    requires c.proposed == CapitalAllocation.Batch(s, candidates, available, m)[k].amount
    ensures Evaluate(l, c, loss, halted) != Some(MaxPerTrade)
  {
    if CapitalAllocation.PassesTheCap(s, candidates, available, m, k) {
      CapitalAllocation.PassingNeedsRounding(s, candidates, available, m, k);
    }
    SizeRuleIsTheCap(l, s, candidates, available, m, k);
  }

  // ---- A repeated signal --------------------------------------------------

  const GENEROUS := Limits(1000, 10, 1.0, 1.0, 1.0, 0.5, 1.0, 10)

  /**
   One signal processed three times: the second refusal overwrites the approved row with an
   empty one, so the third is approved again. The strategy then holds 800 of a capital of
   1000 against a limit of 500, and the stored rows show 400.
   */
  lemma {:induction false} RepeatedSignalPassesTheStrategyCap()
    ensures var sig := Signal(7, 1, None, 400, false);
            var w := Run(GENEROUS, [Process(sig), Process(sig), Process(sig)], 3);
            && Exposure(w.state, OfStrategy(1)) == 800
            && Capital(w.rows, OfStrategy(1)) == 400
            && LimitOf(GENEROUS, OfStrategy(1)) == 500.0
  {
    var sig := Signal(7, 1, None, 400, false);
    var run := [Process(sig), Process(sig), Process(sig)];
    var g := OfStrategy(1);
    var w0, w1, w2 := Run(GENEROUS, run, 0), Run(GENEROUS, run, 1), Run(GENEROUS, run, 2);
    assert Capital([], g) == 0;
    assert Accepted(GENEROUS, w0, sig);
    assert w1.rows == [Row(7, 1, None, 400, true)];
    OneRow(w1.rows[0], g);
    assert !Accepted(GENEROUS, w1, sig);
    OneRowIsReplaced(w1.rows[0], Row(7, 1, None, 0, false));
    assert w2.rows == [Row(7, 1, None, 0, false)];
    OneRow(w2.rows[0], g);
    assert Accepted(GENEROUS, w2, sig);
    OneRowIsReplaced(w2.rows[0], Row(7, 1, None, 400, true));
  }

  lemma {:induction false} OneRow(row: Row, g: Group)
    ensures Capital([row], g) == Contribution(row, g)
  {
    assert [row][..0] == [];
    assert Capital([], g) == 0;
  }

  lemma {:induction false} OneRowIsReplaced(row: Row, next: Row)
    requires row.signal == next.signal
    ensures Upserted([row], next) == [next]
  {
    assert [row][..0] == [];
  }
}
