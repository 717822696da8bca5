/**
 The lifecycle of a live order: the allowed-transition map, the in-place transition and
 its audit row, the stored copy, and what every run of transition attempts keeps.
 */
module OrderStates {
  import opened Wrappers

  datatype Status = Pending | Open | PartiallyFilled | Filled | Cancelled | Rejected

  /** The allowed-transition map. */
  function Successors(s: Status): set<Status> {
    match s
    case Pending => {Open, Rejected, Cancelled, Filled, PartiallyFilled}
    case Open => {PartiallyFilled, Filled, Cancelled, Rejected}
    case PartiallyFilled => {PartiallyFilled, Filled, Cancelled}
    case Filled => {}
    case Cancelled => {}
    case Rejected => {}
  }

  predicate Allowed(from: Status, to: Status) {
    to in Successors(from)
  }

  predicate Terminal(s: Status) {
    Successors(s) == {}
  }

  /** The arguments of one attempt; `None` where the caller passes nothing. */
  datatype Request = Request(
    to: Status,
    reason: Option<string>,
    brokerOrderId: Option<string>,
    executedPrice: Option<real>,
    filledQuantity: Option<int>,
    rejectionReason: Option<string>)

  datatype AuditRow = AuditRow(from: Status, request: Request)

  datatype Order = Order(
    status: Status,
    brokerOrderId: Option<string>,
    executedPrice: Option<real>,
    filledQuantity: int,
    rejectionReason: Option<string>,
    transitions: seq<AuditRow>)

  const NEW_ORDER := Order(Pending, None, None, 0, None, [])

  datatype Refusal = InvalidTransition(from: Status, to: Status) | DatabaseFailure

  /** Whether an optional text counts as present: `None` and the empty text do not. */
  predicate Present(s: Option<string>) {
    s.Some? && s.value != ""
  }

  function FirstPresent(a: Option<string>, b: Option<string>): string {
    if Present(a) then a.value else if Present(b) then b.value else "rejected_by_broker"
  }

  function Max(a: int, b: int): int {
    if a >= b then a else b
  }

  /** The order after an accepted transition. */
  function Applied(o: Order, r: Request): Order {
    Order(
      r.to,
      if r.brokerOrderId.Some? && !Present(o.brokerOrderId) then r.brokerOrderId else o.brokerOrderId,
      if r.executedPrice.Some? then r.executedPrice else o.executedPrice,
      if r.filledQuantity.Some? then Max(o.filledQuantity, r.filledQuantity.value) else o.filledQuantity,
      if r.to == Rejected then Some(FirstPresent(r.rejectionReason, r.reason)) else o.rejectionReason,
      o.transitions + [AuditRow(o.status, r)])
  }

  /** The order after an attempt: a transition outside the map changes nothing. */
  function Attempted(o: Order, r: Request): Order {
    if Allowed(o.status, r.to) then Applied(o, r) else o
  }

  class LiveOrder {
    const quantity: int
    var status: Status
    var brokerOrderId: Option<string>
    var executedPrice: Option<real>
    var filledQuantity: int
    var rejectionReason: Option<string>
    var transitions: seq<AuditRow>

    constructor (quantity: int)
      ensures View() == NEW_ORDER && this.quantity == quantity
    {
      this.quantity := quantity;
      status, brokerOrderId, executedPrice := Pending, None, None;
      filledQuantity, rejectionReason, transitions := 0, None, [];
    }

    function View(): Order
      reads this
    {
      Order(status, brokerOrderId, executedPrice, filledQuantity, rejectionReason, transitions)
    }
  }

  class OrderStateMachine {
    /** The stored documents, by order. */
    var stored: map<LiveOrder, Order>

    constructor ()
      ensures stored == map[]
    {
      stored := map[];
    }

    /**
     Moves an order in place. A transition outside the map is refused before anything is
     written; a failing store (`storeUp` false) is reported after the order in memory has
     already moved.
     */
    method Transition(order: LiveOrder, r: Request, persist: bool, storeUp: bool)
      returns (outcome: Result<AuditRow, Refusal>)
      modifies this, order
      ensures order.View() == Attempted(old(order.View()), r)
      ensures outcome == if !Allowed(old(order.status), r.to) then Err(InvalidTransition(old(order.status), r.to))
                         else if persist && !storeUp then Err(DatabaseFailure)
                         else Ok(AuditRow(old(order.status), r))
      ensures stored == if outcome.Ok? && persist then old(stored)[order := order.View()] else old(stored)
    {
      var from := order.status;
      if !Allowed(from, r.to) {
        return Err(InvalidTransition(from, r.to));
      }
      order.status := r.to;
      if r.brokerOrderId.Some? && !Present(order.brokerOrderId) {
        order.brokerOrderId := r.brokerOrderId;
      }
      if r.executedPrice.Some? {
        order.executedPrice := r.executedPrice;
      }
      if r.filledQuantity.Some? {
        order.filledQuantity := Max(order.filledQuantity, r.filledQuantity.value);
      }
      if r.to == Rejected {
        order.rejectionReason := Some(FirstPresent(r.rejectionReason, r.reason));
      }
      var row := AuditRow(from, r);
      order.transitions := order.transitions + [row];
      if persist {
        if !storeUp {
          return Err(DatabaseFailure);
        }
        stored := stored[order := order.View()];
      }
      return Ok(row);
    }
  }

  // ---- Runs ---------------------------------------------------------------

  /** One attempt as the rest of the program makes it. */
  datatype Attempt = Attempt(request: Request, persist: bool, storeUp: bool)

  /** The order in memory and its stored copy, if there is one. */
  datatype Pair = Pair(memory: Order, stored: Option<Order>)

  function Stepped(p: Pair, a: Attempt): Pair {
    var after := Attempted(p.memory, a.request);
    Pair(after,
         if Allowed(p.memory.status, a.request.to) && a.persist && a.storeUp then Some(after) else p.stored)
  }

  /** The pair after the first `n` attempts on a new, just inserted order. */
  function Run(attempts: seq<Attempt>, n: nat): Pair
    requires n <= |attempts|
  {
    if n == 0 then Pair(NEW_ORDER, Some(NEW_ORDER)) else Stepped(Run(attempts, n - 1), attempts[n - 1])
  }

  // ---- An order is its audit log ------------------------------------------

  function StatusOf(log: seq<AuditRow>): Status {
    Before(log, |log|)
  }

  /** Every row starts where the one before it ended, along an allowed edge. */
  predicate ConnectedPath(log: seq<AuditRow>) {
    forall i :: 0 <= i < |log| ==> Linked(log, i)
  }

  predicate Linked(log: seq<AuditRow>, i: nat)
    requires i < |log|
  {
    log[i].from == Before(log, i) && Allowed(log[i].from, log[i].request.to)
  }

  /** The status the order had before row `i`. */
  function Before(log: seq<AuditRow>, i: nat): Status
    requires i <= |log|
  {
    if i == 0 then Pending else log[i - 1].request.to
  }

  /** The first broker id with any text; failing that, an empty one if one was given. */
  function BrokerIdOf(log: seq<AuditRow>): Option<string> {
    if log == [] then None else
    var before, given := BrokerIdOf(log[..|log| - 1]), log[|log| - 1].request.brokerOrderId;
    if Present(before) then before else if given.Some? then given else before
  }

  /** The largest fill reported so far, never below zero. */
  function FillOf(log: seq<AuditRow>): int {
    if log == [] then 0 else
    var before, given := FillOf(log[..|log| - 1]), log[|log| - 1].request.filledQuantity;
    if given.Some? then Max(before, given.value) else before
  }

  function PriceOf(log: seq<AuditRow>): Option<real> {
    if log == [] then None else
    var given := log[|log| - 1].request.executedPrice;
    if given.Some? then given else PriceOf(log[..|log| - 1])
  }

  function RejectionOf(log: seq<AuditRow>): Option<string> {
    if log == [] || StatusOf(log) != Rejected then None else
    var last := log[|log| - 1].request;
    Some(FirstPresent(last.rejectionReason, last.reason))
  }

  /** Every field of the order can be read off its audit log, which is a connected path. */
  predicate Replayable(o: Order) {
    && ConnectedPath(o.transitions)
    && o.status == StatusOf(o.transitions)
    && o.brokerOrderId == BrokerIdOf(o.transitions)
    && o.executedPrice == PriceOf(o.transitions)
    && o.filledQuantity == FillOf(o.transitions)
    && o.rejectionReason == RejectionOf(o.transitions)
  }

  lemma {:induction false} LogGrows(log: seq<AuditRow>, row: AuditRow)
    requires ConnectedPath(log) && row.from == StatusOf(log) && Allowed(row.from, row.request.to)
    ensures ConnectedPath(log + [row])
  {
    var grown := log + [row];
    forall i | 0 <= i < |grown|
      ensures Linked(grown, i)
    {
      assert Before(grown, i) == Before(log, i);
      assert i < |log| ==> Linked(log, i);
    }
  }

  lemma {:induction false} AppliedIsReplayable(o: Order, r: Request)
    requires Replayable(o) && Allowed(o.status, r.to)
    ensures Replayable(Applied(o, r))
  {
    var row := AuditRow(o.status, r);
    LogGrows(o.transitions, row);
    assert (o.transitions + [row])[..|o.transitions|] == o.transitions;
    assert o.status != Rejected;
  }

  /**
   The audit trail, over every run of attempts: the order in memory and the stored copy
   can both be replayed from their logs, and the stored log is a prefix of the log in
   memory, so a failed write loses rows from the end only.
   */
  lemma {:induction false} AuditTrail(attempts: seq<Attempt>, n: nat)
    requires n <= |attempts|
    ensures var p := Run(attempts, n);
            && Replayable(p.memory)
            && p.stored.Some? && Replayable(p.stored.value)
            && p.stored.value.transitions <= p.memory.transitions
  {
    if n > 0 {
      AuditTrail(attempts, n - 1);
      var p, r := Run(attempts, n - 1), attempts[n - 1].request;
      if Allowed(p.memory.status, r.to) {
        AppliedIsReplayable(p.memory, r);
      }
    }
  }

  /** Terminal statuses absorb; along a run fills never fall and a broker id with text stays. */
  lemma {:induction false} RunsAreMonotone(attempts: seq<Attempt>, m: nat, n: nat)
    requires m <= n <= |attempts|
    ensures var o, p := Run(attempts, m).memory, Run(attempts, n).memory;
            && o.transitions <= p.transitions
            && o.filledQuantity <= p.filledQuantity
            && (Present(o.brokerOrderId) ==> p.brokerOrderId == o.brokerOrderId)
            && (Terminal(o.status) ==> p == o)
    decreases n - m
  {
    if m < n {
      RunsAreMonotone(attempts, m, n - 1);
    }
  }

  /** How far an order has come: nothing, working, partly done, over. */
  function Stage(s: Status): nat {
    match s
    case Pending => 0
    case Open => 1
    case PartiallyFilled => 2
    case _ => 3
  }

  /** An order only goes forward, except from one partial fill to the next; and what is partly filled is not rejected. */
  predicate MayFollow(from: Status, to: Status) {
    && (Stage(from) < Stage(to) || (from == PartiallyFilled && to == PartiallyFilled))
    && (from == PartiallyFilled ==> to != Rejected)
  }

  /** The transition map is exactly that, and in every reachable state an attempt moves the order exactly then. */
  lemma {:induction false} AttemptMovesIff(attempts: seq<Attempt>, n: nat)
    requires n < |attempts|
    ensures forall from, to :: Allowed(from, to) <==> MayFollow(from, to)
    ensures var o, p, to := Run(attempts, n).memory, Run(attempts, n + 1).memory, attempts[n].request.to;
            && (if MayFollow(o.status, to) then p.status == to && |p.transitions| == |o.transitions| + 1 else p == o)
  {
    forall from, to
      ensures Allowed(from, to) <==> MayFollow(from, to)
    {
      EdgeIff(from, to);
    }
    assert Run(attempts, n + 1) == Stepped(Run(attempts, n), attempts[n]);
  }

  lemma {:induction false} EdgeIff(from: Status, to: Status)
    ensures Allowed(from, to) <==> MayFollow(from, to)
  {
  }

  /** Along every run an order never goes back, and once partly filled it ends filled or cancelled, never rejected. */
  lemma {:induction false} PartlyFilledIsNotRejected(attempts: seq<Attempt>, m: nat, n: nat)
    requires m <= n <= |attempts|
    ensures var o, p := Run(attempts, m).memory, Run(attempts, n).memory;
            && Stage(o.status) <= Stage(p.status)
            && (o.status == PartiallyFilled ==> p.status in {PartiallyFilled, Filled, Cancelled})
    decreases n - m
  {
    if m < n {
      PartlyFilledIsNotRejected(attempts, m, n - 1);
      EdgeIff(Run(attempts, n - 1).memory.status, attempts[n - 1].request.to);
    }
  }

  /** Attempt `k` moved the order, was to be stored, and the store was up. */
  predicate Wrote(attempts: seq<Attempt>, k: nat)
    requires k < |attempts|
  {
    MayFollow(Run(attempts, k).memory.status, attempts[k].request.to) && attempts[k].persist && attempts[k].storeUp
  }

  /** In every run the stored copy is the order as it was right after the last such attempt, or when new. */
  lemma {:induction false} StoredIsTheLastWritten(attempts: seq<Attempt>, m: nat, n: nat)
    requires m <= n <= |attempts| && (m == 0 || Wrote(attempts, m - 1))
    requires forall k :: m <= k < n ==> !Wrote(attempts, k)
    ensures Run(attempts, n).stored == Some(Run(attempts, m).memory)
    decreases n
  {
    if n > 0 {
      EdgeIff(Run(attempts, n - 1).memory.status, attempts[n - 1].request.to);
      if m < n {
        StoredIsTheLastWritten(attempts, m, n - 1);
        assert !Wrote(attempts, n - 1);
      }
    }
  }

  /** A rejection reason is present, with text, exactly on rejected orders. */
  lemma {:induction false} RejectionReasonIffRejected(attempts: seq<Attempt>, n: nat)
    requires n <= |attempts|
    ensures var o := Run(attempts, n).memory;
            (o.rejectionReason.Some? <==> o.status == Rejected) &&
            (o.rejectionReason.Some? ==> o.rejectionReason.value != "")
  {
    AuditTrail(attempts, n);
  }

  // ---- Fills against the ordered quantity ---------------------------------

  lemma {:induction false} FillIsBounded(log: seq<AuditRow>, quantity: nat)
    ensures FillOf(log) <= quantity <==>
            forall i :: 0 <= i < |log| ==>
              log[i].request.filledQuantity.Some? ==> log[i].request.filledQuantity.value <= quantity
  {
    if log != [] {
      var k := |log| - 1;
      FillIsBounded(log[..k], quantity);
      assert forall i :: 0 <= i < k ==> log[..k][i] == log[i];
    }
  }

  /**
   The transition does not compare a fill with the ordered quantity. The filled quantity
   stays within it exactly when every accepted report does.
   */
  lemma {:induction false} FilledWithinQuantity(attempts: seq<Attempt>, n: nat, quantity: nat)
    requires n <= |attempts|
    ensures var o := Run(attempts, n).memory;
            o.filledQuantity <= quantity <==>
            forall i :: 0 <= i < |o.transitions| ==>
              var f := o.transitions[i].request.filledQuantity; f.Some? ==> f.value <= quantity
  {
    AuditTrail(attempts, n);
    FillIsBounded(Run(attempts, n).memory.transitions, quantity);
  }

  function Fill(q: int): Request {
    Request(PartiallyFilled, None, None, None, Some(q), None)
  }

  /** Whatever quantity was ordered, a report of one more is recorded. */
  lemma {:induction false} OverfillIsAccepted(quantity: nat)
    ensures Run([Attempt(Fill(quantity + 1), true, true)], 1).memory.filledQuantity > quantity
  {
    assert Run([Attempt(Fill(quantity + 1), true, true)], 0) == Pair(NEW_ORDER, Some(NEW_ORDER));
  }

  // ---- Length of a run ----------------------------------------------------

  /** Every accepted partial fill reports strictly more than the rows before it, up to `quantity`. */
  predicate FillsRise(log: seq<AuditRow>, quantity: int) {
    forall i :: 0 <= i < |log| && log[i].request.to == PartiallyFilled ==>
      var f := log[i].request.filledQuantity;
      f.Some? && FillOf(log[..i]) < f.value <= quantity
  }

  function Weight(s: Status): nat {
    match s
    case Pending => 0
    case Open => 1
    case PartiallyFilled => 1
    case Filled => 2
    case Cancelled => 2
    case Rejected => 2
  }

  lemma {:induction false} PrefixKeepsPath(log: seq<AuditRow>, quantity: int)
    requires log != [] && ConnectedPath(log) && FillsRise(log, quantity)
    ensures ConnectedPath(log[..|log| - 1]) && FillsRise(log[..|log| - 1], quantity)
    ensures log[|log| - 1].from == StatusOf(log[..|log| - 1])
  {
    var before := log[..|log| - 1];
    assert Linked(log, |log| - 1);
    forall i | 0 <= i < |before|
      ensures Linked(before, i)
    {
      assert Linked(log, i);
    }
    assert forall i :: 0 <= i < |before| ==> before[i] == log[i] && before[..i] == log[..i];
  }

  function PartialFills(log: seq<AuditRow>): nat {
    if log == [] then 0 else
    PartialFills(log[..|log| - 1]) + if log[|log| - 1].request.to == PartiallyFilled then 1 else 0
  }

  lemma {:induction false} PathIsShort(log: seq<AuditRow>, quantity: nat)
    requires ConnectedPath(log) && FillsRise(log, quantity)
    ensures PartialFills(log) <= FillOf(log) && PartialFills(log) <= quantity
    ensures |log| <= PartialFills(log) + Weight(StatusOf(log))
  {
    if log != [] {
      PrefixKeepsPath(log, quantity);
      PathIsShort(log[..|log| - 1], quantity);
      assert Linked(log, |log| - 1);
    }
  }

  /**
   With rising partial fills bounded by the quantity a run makes at most quantity + 2
   transitions, whatever is attempted.
   */
  lemma {:induction false} RunIsShort(attempts: seq<Attempt>, n: nat, quantity: nat)
    requires n <= |attempts|
    requires FillsRise(Run(attempts, n).memory.transitions, quantity)
    ensures |Run(attempts, n).memory.transitions| <= quantity + 2
  {
    AuditTrail(attempts, n);
    PathIsShort(Run(attempts, n).memory.transitions, quantity);
  }

  /** Without rising fills nothing bounds a run: repeated equal partial fills are all accepted. */
  lemma {:induction false} EqualFillsNeverEnd(attempts: seq<Attempt>, n: nat)
    requires n <= |attempts|
    requires forall i :: 0 <= i < |attempts| ==> attempts[i].request == Fill(1)
    ensures var o := Run(attempts, n).memory;
            |o.transitions| == n && o.status == if n == 0 then Pending else PartiallyFilled
  {
    if n > 0 {
      EqualFillsNeverEnd(attempts, n - 1);
      assert attempts[n - 1].request == Fill(1);
    }
  }
}
