/**
 The check-then-insert-then-submit protocol for entry orders, as interleaved steps of any
 number of concurrent calls on any number of engines over one order store.

 Each step is what a call does between two suspension points. The store answers with an
 arbitrary success, failure or lost reply; safety rails, risk, sizing and broker answers
 are arbitrary; a call may die at any point; other services write orders in between.
 */
module OrderProtocol {
  import opened Wrappers
  import opened OrderStates

  type OrderId = nat
  type CallId = nat

  type SignalId = nat
  type BrokerName = nat

  /**
   What the compound unique index holds for an order. Every stored order names its broker, so
   an order without a signal id is indexed too, under the null signal.
   */
  datatype Key = Key(signal: Option<SignalId>, broker: BrokerName)

  datatype Row = Row(key: Key, status: Status)

  datatype Outcome =
    | Disabled
    | Blocked
    | Duplicate
    | NotSized
    | Raised(stored: Option<OrderId>)
    | RefusedByBroker(id: OrderId)
    | Accepted(id: OrderId)

  /** Where a call stands, and the order it has stored if any. */
  datatype Phase =
    | Waiting
    | Guarding
    | Gating
    | Inserting
    | Stored(id: OrderId)
    | LoggedIn(id: OrderId)
    | Sent(id: OrderId)
    | Accepting(id: OrderId)
    | Refusing(id: OrderId)
    | Ended(outcome: Outcome)

  datatype Call = Call(key: Key, engine: nat, phase: Phase)

  /** What the outside can observe: a row was inserted, the broker was called. */
  datatype Note = Inserted(id: OrderId, key: Key) | Placed(id: OrderId, key: Key)

  datatype LockName = LockName(engine: nat, key: Key)

  /** `locking` is false when the in-process locks are taken away altogether. */
  datatype World = World(
    locking: bool,
    store: map<OrderId, Row>,
    calls: map<CallId, Call>,
    locks: map<LockName, CallId>,
    log: seq<Note>)

  datatype StoreReply = Up | Down | ReplyLost
  datatype BrokerReply = TakenOn | TurnedDown | Unexpected

  datatype Action =
    | Begin(c: CallId, key: Key, engine: nat, enabled: bool)
    | Acquire(c: CallId)
    | Guard(c: CallId, safe: bool)
    | Gate(c: CallId, passed: bool)
    | Insert(c: CallId, id: OrderId, reply: StoreReply)
    | Login(c: CallId, healthy: bool)
    | Submit(c: CallId)
    | Answer(c: CallId, answer: BrokerReply)
    | Record(c: CallId, reply: StoreReply)
    | Die(c: CallId)
    | OtherUpsert(order: OrderId, key: Key, status: Status)

  // ---- The store ----------------------------------------------------------

  /** The unique index holds a row for this key. */
  predicate Taken(store: map<OrderId, Row>, key: Key) {
    exists id :: id in store && store[id].key == key
  }

  /** The duplicate guard refuses: an order for the key exists that is not rejected. */
  predicate ActedOn(store: map<OrderId, Row>, key: Key) {
    exists id :: id in store && store[id].key == key && store[id].status != Rejected
  }

  /** A write by order id that keeps the row's key, if the row exists. */
  function Overwritten(store: map<OrderId, Row>, id: OrderId, status: Status): map<OrderId, Row> {
    if id in store then store[id := Row(store[id].key, status)] else store
  }

  // ---- Steps --------------------------------------------------------------

  predicate At(w: World, c: CallId, phase: Phase) {
    c in w.calls && w.calls[c].phase == phase
  }

  function NameOf(call: Call): LockName {
    LockName(call.engine, call.key)
  }

  function Moved(w: World, c: CallId, phase: Phase): World
    requires c in w.calls
  {
    w.(calls := w.calls[c := w.calls[c].(phase := phase)])
  }

  /** The call returns or raises, leaving the `async with lock` block. */
  function Finished(w: World, c: CallId, outcome: Outcome): World
    requires c in w.calls
  {
    var name := NameOf(w.calls[c]);
    var released := if name in w.locks && w.locks[name] == c then w.locks - {name} else w.locks;
    Moved(w, c, Ended(outcome)).(locks := released)
  }

  function StepBegin(w: World, c: CallId, key: Key, engine: nat, enabled: bool): World {
    if c in w.calls then w else
    w.(calls := w.calls[c := Call(key, engine, if enabled then Waiting else Ended(Disabled))])
  }

  function StepAcquire(w: World, c: CallId): World {
    if !At(w, c, Waiting) then w else
    var name := NameOf(w.calls[c]);
    if !w.locking then Moved(w, c, Guarding)
    else if name in w.locks then w
    else Moved(w, c, Guarding).(locks := w.locks[name := c])
  }

  function StepGuard(w: World, c: CallId, safe: bool): World {
    if !At(w, c, Guarding) then w
    else if !safe then Finished(w, c, Blocked)
    else if ActedOn(w.store, w.calls[c].key) then Finished(w, c, Duplicate)
    else Moved(w, c, Gating)
  }

  function StepGate(w: World, c: CallId, passed: bool): World {
    if !At(w, c, Gating) then w
    else if passed then Moved(w, c, Inserting) else Finished(w, c, NotSized)
  }

  function StepInsert(w: World, c: CallId, id: OrderId, reply: StoreReply): World {
    if !At(w, c, Inserting) then w
    else if reply == Down then Finished(w, c, Raised(None))
    else
      var key := w.calls[c].key;
      if id in w.store || Taken(w.store, key) then Finished(w, c, Duplicate)
      else
        var after := w.(store := w.store[id := Row(key, Pending)], log := w.log + [Inserted(id, key)]);
        if reply == Up then Moved(after, c, Stored(id)) else Finished(after, c, Raised(None))
  }

  function StepLogin(w: World, c: CallId, healthy: bool): World {
    if !(c in w.calls && w.calls[c].phase.Stored?) then w else
    var id := w.calls[c].phase.id;
    Moved(w, c, if healthy then LoggedIn(id) else Refusing(id))
  }

  function StepSubmit(w: World, c: CallId): World {
    if !(c in w.calls && w.calls[c].phase.LoggedIn?) then w else
    var id := w.calls[c].phase.id;
    Moved(w.(log := w.log + [Placed(id, w.calls[c].key)]), c, Sent(id))
  }

  function StepAnswer(w: World, c: CallId, answer: BrokerReply): World {
    if !(c in w.calls && w.calls[c].phase.Sent?) then w else
    var id := w.calls[c].phase.id;
    match answer
    case TakenOn => Moved(w, c, Accepting(id))
    case TurnedDown => Moved(w, c, Refusing(id))
    case Unexpected => Finished(w, c, Raised(Some(id)))
  }

  function StepRecord(w: World, c: CallId, reply: StoreReply): World {
    if !(c in w.calls && (w.calls[c].phase.Accepting? || w.calls[c].phase.Refusing?)) then w else
    var phase := w.calls[c].phase;
    var after := if reply == Down then w else
                 w.(store := Overwritten(w.store, phase.id, if phase.Accepting? then Open else Rejected));
    Finished(after, c, if reply != Up then Raised(Some(phase.id))
                       else if phase.Accepting? then Accepted(phase.id) else RefusedByBroker(phase.id))
  }

  function StepDie(w: World, c: CallId): World {
    if !(c in w.calls && !w.calls[c].phase.Ended?) then w else
    Finished(w, c, Raised(OrderOf(w.calls[c].phase)))
  }

  /** Any other service writing an order by its id; the unique index guards a new row. */
  function StepOther(w: World, id: OrderId, key: Key, status: Status): World {
    if id in w.store then w.(store := Overwritten(w.store, id, status))
    else if Taken(w.store, key) then w
    else w.(store := w.store[id := Row(key, status)])
  }

  function Step(w: World, a: Action): World {
    match a
    case Begin(c, key, engine, enabled) => StepBegin(w, c, key, engine, enabled)
    case Acquire(c) => StepAcquire(w, c)
    case Guard(c, safe) => StepGuard(w, c, safe)
    case Gate(c, passed) => StepGate(w, c, passed)
    case Insert(c, id, reply) => StepInsert(w, c, id, reply)
    case Login(c, healthy) => StepLogin(w, c, healthy)
    case Submit(c) => StepSubmit(w, c)
    case Answer(c, answer) => StepAnswer(w, c, answer)
    case Record(c, reply) => StepRecord(w, c, reply)
    case Die(c) => StepDie(w, c)
    case OtherUpsert(id, key, status) => StepOther(w, id, key, status)
  }

  function Run(locking: bool, actions: seq<Action>, n: nat): World
    requires n <= |actions|
  {
    if n == 0 then World(locking, map[], map[], map[], [])
    else Step(Run(locking, actions, n - 1), actions[n - 1])
  }

  // ---- What every state keeps ---------------------------------------------

  function OrderOf(p: Phase): Option<OrderId> {
    match p
    case Stored(id) => Some(id)
    case LoggedIn(id) => Some(id)
    case Sent(id) => Some(id)
    case Accepting(id) => Some(id)
    case Refusing(id) => Some(id)
    case Ended(Accepted(id)) => Some(id)
    case Ended(RefusedByBroker(id)) => Some(id)
    case Ended(Raised(stored)) => stored
    case _ => None
  }

  /** The call holds a stored order that it has not sent yet. */
  predicate Unsent(p: Phase) {
    p.Stored? || p.LoggedIn?
  }

  /** The broker was certainly called for this order. */
  predicate SentFor(p: Phase) {
    p.Sent? || p.Accepting? || (p.Ended? && p.outcome.Accepted?)
  }

  predicate Critical(p: Phase) {
    !p.Waiting? && !p.Ended?
  }

  ghost predicate UniqueKeys(store: map<OrderId, Row>) {
    forall i, j :: i in store && j in store && store[i].key == store[j].key ==> i == j
  }

  ghost predicate Owns(calls: map<CallId, Call>, store: map<OrderId, Row>) {
    forall c :: c in calls && OrderOf(calls[c].phase).Some? ==>
      var id := OrderOf(calls[c].phase).value;
      id in store && store[id].key == calls[c].key
  }

  ghost predicate SingleOwner(calls: map<CallId, Call>) {
    forall c, d ::
      (c in calls && d in calls && OrderOf(calls[c].phase).Some?
       && OrderOf(calls[c].phase) == OrderOf(calls[d].phase)) ==> c == d
  }

  ghost predicate InsertedBefore(log: seq<Note>, id: OrderId, key: Key, n: nat) {
    exists m :: 0 <= m < n && m < |log| && log[m] == Inserted(id, key)
  }

  /** Every row stays under the key it was inserted with, and a broker call comes after it. */
  ghost predicate LogMatchesStore(log: seq<Note>, store: map<OrderId, Row>) {
    forall n :: 0 <= n < |log| ==>
      && log[n].id in store && store[log[n].id].key == log[n].key
      && (log[n].Placed? ==> InsertedBefore(log, log[n].id, log[n].key, n))
  }

  ghost predicate NotPlaced(log: seq<Note>, id: OrderId) {
    forall n :: 0 <= n < |log| && log[n].Placed? ==> log[n].id != id
  }

  ghost predicate UnsentIsFresh(calls: map<CallId, Call>, log: seq<Note>) {
    forall c :: c in calls && Unsent(calls[c].phase) ==>
      InsertedBefore(log, calls[c].phase.id, calls[c].key, |log|) && NotPlaced(log, calls[c].phase.id)
  }

  ghost predicate SentIsLogged(calls: map<CallId, Call>, log: seq<Note>) {
    forall c :: c in calls && SentFor(calls[c].phase) ==>
      Placed(OrderOf(calls[c].phase).value, calls[c].key) in log
  }

  ghost predicate PlacedOnce(log: seq<Note>) {
    forall m, n :: 0 <= m < n < |log| && log[m].Placed? && log[n].Placed? ==> log[m].id != log[n].id
  }

  ghost predicate LocksHold(calls: map<CallId, Call>, locks: map<LockName, CallId>) {
    forall c :: c in calls && Critical(calls[c].phase) ==>
      NameOf(calls[c]) in locks && locks[NameOf(calls[c])] == c
  }

  ghost predicate Safe(w: World) {
    && UniqueKeys(w.store) && Owns(w.calls, w.store) && SingleOwner(w.calls)
    && LogMatchesStore(w.log, w.store) && UnsentIsFresh(w.calls, w.log)
    && SentIsLogged(w.calls, w.log) && PlacedOnce(w.log)
    && (w.locking ==> LocksHold(w.calls, w.locks))
  }

  /** A call moves on without touching store or log, keeping or letting go of its order. */
  lemma {:induction false} MoveIsSafe(w: World, c: CallId, phase: Phase)
    requires Safe(w) && c in w.calls
    requires OrderOf(phase).None? || OrderOf(phase) == OrderOf(w.calls[c].phase)
    requires Unsent(phase) ==> Unsent(w.calls[c].phase)
    requires SentFor(phase) ==> SentFor(w.calls[c].phase)
    requires Critical(phase) ==> Critical(w.calls[c].phase)
    ensures Safe(Moved(w, c, phase))
  {
  }

  lemma {:induction false} FinishIsSafe(w: World, c: CallId, outcome: Outcome)
    requires Safe(w) && c in w.calls
    requires OrderOf(Ended(outcome)).None? || OrderOf(Ended(outcome)) == OrderOf(w.calls[c].phase)
    requires outcome.Accepted? ==> SentFor(w.calls[c].phase)
    ensures Safe(Finished(w, c, outcome))
  {
    MoveIsSafe(w, c, Ended(outcome));
  }

  lemma {:induction false} OverwriteIsSafe(w: World, id: OrderId, status: Status)
    requires Safe(w)
    ensures Safe(w.(store := Overwritten(w.store, id, status)))
  {
  }

  /** A new row under a free key, whoever stores it. */
  lemma {:induction false} NewRowIsSafe(w: World, id: OrderId, row: Row)
    requires Safe(w) && id !in w.store
    requires !Taken(w.store, row.key)
    ensures Safe(w.(store := w.store[id := row]))
  {
  }

  lemma {:induction false} InsertIsSafe(w: World, c: CallId, id: OrderId, reply: StoreReply)
    requires Safe(w)
    ensures Safe(StepInsert(w, c, id, reply))
  {
    if At(w, c, Inserting) {
      var key := w.calls[c].key;
      if reply == Down {
        FinishIsSafe(w, c, Raised(None));
      } else if id in w.store || Taken(w.store, key) {
        FinishIsSafe(w, c, Duplicate);
      } else {
        NewRowIsSafe(w, id, Row(key, Pending));
        var stored := w.(store := w.store[id := Row(key, Pending)]);
        var noted := stored.(log := w.log + [Inserted(id, key)]);
        NoteIsSafe(stored, id, key);
        if reply == Up {
          StoredIsSafe(noted, w, c, id);
        } else {
          FinishIsSafe(noted, c, Raised(None));
        }
      }
    }
  }

  lemma {:induction false} NoteIsSafe(w: World, id: OrderId, key: Key)
    requires Safe(w) && id in w.store && w.store[id].key == key
    ensures Safe(w.(log := w.log + [Inserted(id, key)]))
  {
    var note := Inserted(id, key);
    LogGrows(w.log, note);
    NoteKeepsLog(w.log, note, w.store);
    NoteKeepsCalls(w.calls, w.log, note);
  }

  /** What was inserted, placed or not placed stays so. */
  lemma {:induction false} LogGrows(log: seq<Note>, note: Note)
    ensures forall id, key, n :: InsertedBefore(log, id, key, n) ==> InsertedBefore(log + [note], id, key, n)
    ensures forall id :: NotPlaced(log, id) && note != Placed(id, note.key) ==> NotPlaced(log + [note], id)
  {
    var after := log + [note];
    forall id: OrderId, key: Key, n: nat | InsertedBefore(log, id, key, n)
      ensures InsertedBefore(after, id, key, n)
    {
      var m :| 0 <= m < n && m < |log| && log[m] == Inserted(id, key);
      assert after[m] == Inserted(id, key);
    }
  }

  lemma {:induction false} NoteKeepsLog(log: seq<Note>, note: Note, store: map<OrderId, Row>)
    requires LogMatchesStore(log, store) && PlacedOnce(log)
    requires note.id in store && store[note.id].key == note.key
    requires note.Placed? ==> InsertedBefore(log, note.id, note.key, |log|) && NotPlaced(log, note.id)
    ensures LogMatchesStore(log + [note], store) && PlacedOnce(log + [note])
  {
    LogGrows(log, note);
  }

  lemma {:induction false} NoteKeepsCalls(calls: map<CallId, Call>, log: seq<Note>, note: Note)
    requires UnsentIsFresh(calls, log) && SentIsLogged(calls, log)
    requires note.Placed? ==> forall c :: c in calls && Unsent(calls[c].phase) ==> calls[c].phase.id != note.id
    ensures UnsentIsFresh(calls, log + [note]) && SentIsLogged(calls, log + [note])
  {
    LogGrows(log, note);
    var after := log + [note];
    forall c | c in calls && Unsent(calls[c].phase)
      ensures InsertedBefore(after, calls[c].phase.id, calls[c].key, |after|)
    {
      assert InsertedBefore(after, calls[c].phase.id, calls[c].key, |log|);
    }
  }

  /** The inserting call becomes the owner of a row no call or note mentioned before. */
  lemma {:induction false} StoredIsSafe(noted: World, before: World, c: CallId, id: OrderId)
    requires Safe(noted) && Safe(before) && c in before.calls && before.calls[c].phase == Inserting
    requires id !in before.store && id in noted.store && noted.store[id].key == before.calls[c].key
    requires noted.calls == before.calls && noted.log == before.log + [Inserted(id, before.calls[c].key)]
    ensures Safe(Moved(noted, c, Stored(id)))
  {
    StoredIsUnsent(noted, before, c, id);
    StoredHasOneOwner(noted, before, c, id);
  }

  lemma {:induction false} StoredIsUnsent(noted: World, before: World, c: CallId, id: OrderId)
    requires UnsentIsFresh(noted.calls, noted.log) && SentIsLogged(noted.calls, noted.log)
    requires LogMatchesStore(before.log, before.store) && c in before.calls && id !in before.store
    requires noted.calls == before.calls && noted.log == before.log + [Inserted(id, before.calls[c].key)]
    ensures var calls := Moved(noted, c, Stored(id)).calls;
            UnsentIsFresh(calls, noted.log) && SentIsLogged(calls, noted.log)
  {
    assert noted.log[|before.log|] == Inserted(id, before.calls[c].key);
    assert InsertedBefore(noted.log, id, before.calls[c].key, |noted.log|);
    assert NotPlaced(noted.log, id);
  }

  lemma {:induction false} StoredHasOneOwner(noted: World, before: World, c: CallId, id: OrderId)
    requires Owns(before.calls, before.store) && Owns(noted.calls, noted.store) && SingleOwner(before.calls)
    requires c in before.calls && id !in before.store && noted.calls == before.calls
    requires id in noted.store && noted.store[id].key == before.calls[c].key
    ensures var calls := Moved(noted, c, Stored(id)).calls;
            Owns(calls, noted.store) && SingleOwner(calls)
  {
    forall d | d in before.calls
      ensures OrderOf(before.calls[d].phase) != Some(id)
    {
    }
  }

  lemma {:induction false} PlacedIsSafe(w: World, id: OrderId, key: Key)
    requires Safe(w) && id in w.store && w.store[id].key == key && InsertedBefore(w.log, id, key, |w.log|)
    requires NotPlaced(w.log, id)
    requires forall c :: c in w.calls && Unsent(w.calls[c].phase) ==> w.calls[c].phase.id != id
    ensures Safe(w.(log := w.log + [Placed(id, key)]))
  {
    NoteKeepsLog(w.log, Placed(id, key), w.store);
    NoteKeepsCalls(w.calls, w.log, Placed(id, key));
  }

  /** The note and the move are one step, so the call is moved first, to a phase that claims no note. */
  lemma {:induction false} SubmitIsSafe(w: World, c: CallId)
    requires Safe(w)
    ensures Safe(StepSubmit(w, c))
  {
    if c in w.calls && w.calls[c].phase.LoggedIn? {
      var id, key := w.calls[c].phase.id, w.calls[c].key;
      MoveIsSafe(w, c, Refusing(id));
      var moved := Moved(w, c, Refusing(id));
      PlacedIsSafe(moved, id, key);
      var noted := moved.(log := w.log + [Placed(id, key)]);
      SentIsSafe(noted, c, id, |w.log|);
      MovedTwice(w.(log := noted.log), c, Refusing(id), Sent(id));
    }
  }

  lemma {:induction false} MovedTwice(w: World, c: CallId, p: Phase, q: Phase)
    requires c in w.calls
    ensures Moved(Moved(w, c, p), c, q) == Moved(w, c, q)
  {
  }

  lemma {:induction false} SentIsSafe(w: World, c: CallId, id: OrderId, n: nat)
    requires Safe(w) && At(w, c, Refusing(id)) && n < |w.log| && w.log[n] == Placed(id, w.calls[c].key)
    ensures Safe(Moved(w, c, Sent(id)))
  {
  }

  lemma {:induction false} BeginIsSafe(w: World, c: CallId, key: Key, engine: nat, enabled: bool)
    requires Safe(w)
    ensures Safe(StepBegin(w, c, key, engine, enabled))
  {
    if c !in w.calls {
      var started := StepBegin(w, c, key, engine, enabled);
      assert OrderOf(started.calls[c].phase) == None;
      assert forall d :: d in w.calls ==> d != c && started.calls[d] == w.calls[d];
    }
  }

  lemma {:induction false} AcquireIsSafe(w: World, c: CallId)
    requires Safe(w)
    ensures Safe(StepAcquire(w, c))
  {
  }

  lemma {:induction false} GuardIsSafe(w: World, c: CallId, safe: bool)
    requires Safe(w)
    ensures Safe(StepGuard(w, c, safe))
  {
    if At(w, c, Guarding) {
      FinishIsSafe(w, c, if safe then Duplicate else Blocked);
      MoveIsSafe(w, c, Gating);
    }
  }

  lemma {:induction false} GateIsSafe(w: World, c: CallId, passed: bool)
    requires Safe(w)
    ensures Safe(StepGate(w, c, passed))
  {
    if At(w, c, Gating) {
      FinishIsSafe(w, c, NotSized);
      MoveIsSafe(w, c, Inserting);
    }
  }

  lemma {:induction false} LoginIsSafe(w: World, c: CallId, healthy: bool)
    requires Safe(w)
    ensures Safe(StepLogin(w, c, healthy))
  {
    if c in w.calls && w.calls[c].phase.Stored? {
      var id := w.calls[c].phase.id;
      MoveIsSafe(w, c, if healthy then LoggedIn(id) else Refusing(id));
    }
  }

  lemma {:induction false} AnswerIsSafe(w: World, c: CallId, answer: BrokerReply)
    requires Safe(w)
    ensures Safe(StepAnswer(w, c, answer))
  {
    if c in w.calls && w.calls[c].phase.Sent? {
      var id := w.calls[c].phase.id;
      FinishIsSafe(w, c, Raised(Some(id)));
      MoveIsSafe(w, c, if answer == TakenOn then Accepting(id) else Refusing(id));
    }
  }

  lemma {:induction false} DieIsSafe(w: World, c: CallId)
    requires Safe(w)
    ensures Safe(StepDie(w, c))
  {
    if c in w.calls && !w.calls[c].phase.Ended? {
      FinishIsSafe(w, c, Raised(OrderOf(w.calls[c].phase)));
    }
  }

  lemma {:induction false} OtherIsSafe(w: World, id: OrderId, key: Key, status: Status)
    requires Safe(w)
    ensures Safe(StepOther(w, id, key, status))
  {
    OverwriteIsSafe(w, id, status);
    if id !in w.store && !Taken(w.store, key) {
      NewRowIsSafe(w, id, Row(key, status));
    }
  }

  lemma {:induction false} RecordIsSafe(w: World, c: CallId, reply: StoreReply)
    requires Safe(w)
    ensures Safe(StepRecord(w, c, reply))
  {
    if c in w.calls && (w.calls[c].phase.Accepting? || w.calls[c].phase.Refusing?) {
      var phase := w.calls[c].phase;
      var status := if phase.Accepting? then Open else Rejected;
      OverwriteIsSafe(w, phase.id, status);
      var after := if reply == Down then w else w.(store := Overwritten(w.store, phase.id, status));
      FinishIsSafe(after, c, if reply != Up then Raised(Some(phase.id))
                             else if phase.Accepting? then Accepted(phase.id) else RefusedByBroker(phase.id));
    }
  }

  lemma {:induction false} StepIsSafe(w: World, a: Action)
    requires Safe(w)
    ensures Safe(Step(w, a))
  {
    match a
    case Begin(c, key, engine, enabled) => BeginIsSafe(w, c, key, engine, enabled);
    case Acquire(c) => AcquireIsSafe(w, c);
    case Guard(c, safe) => GuardIsSafe(w, c, safe);
    case Gate(c, passed) => GateIsSafe(w, c, passed);
    case Insert(c, id, reply) => InsertIsSafe(w, c, id, reply);
    case Login(c, healthy) => LoginIsSafe(w, c, healthy);
    case Submit(c) => SubmitIsSafe(w, c);
    case Answer(c, answer) => AnswerIsSafe(w, c, answer);
    case Record(c, reply) => RecordIsSafe(w, c, reply);
    case Die(c) => DieIsSafe(w, c);
    case OtherUpsert(id, key, status) => OtherIsSafe(w, id, key, status);
  }

  lemma {:induction false} RunIsSafe(locking: bool, actions: seq<Action>, n: nat)
    requires n <= |actions|
    ensures Safe(Run(locking, actions, n))
  {
    if n > 0 {
      RunIsSafe(locking, actions, n - 1);
      StepIsSafe(Run(locking, actions, n - 1), actions[n - 1]);
    }
  }

  // ---- Main results -------------------------------------------------------

  /**
   At most once, under every interleaving, with or without the in-process locks: a key has
   at most one stored order and at most one broker call, every broker call follows the
   insert of the row it is for, and an accepted call did reach the broker.
   */
  lemma {:induction false} AtMostOnce(locking: bool, actions: seq<Action>)
    ensures var w := Run(locking, actions, |actions|);
            && (forall i, j :: i in w.store && j in w.store && i != j ==> w.store[i].key != w.store[j].key)
            && (forall m, n :: 0 <= m < n < |w.log| && w.log[m].Placed? && w.log[n].Placed?
                               ==> w.log[m].key != w.log[n].key)
            && (forall n :: 0 <= n < |w.log| && w.log[n].Placed?
                            ==> InsertedBefore(w.log, w.log[n].id, w.log[n].key, n))
            && (forall c :: c in w.calls && w.calls[c].phase.Ended? && w.calls[c].phase.outcome.Accepted?
                            ==> Placed(w.calls[c].phase.outcome.id, w.calls[c].key) in w.log)
  {
    RunIsSafe(locking, actions, |actions|);
    var w := Run(locking, actions, |actions|);
    forall m, n | 0 <= m < n < |w.log| && w.log[m].Placed? && w.log[n].Placed?
      ensures w.log[m].key != w.log[n].key
    {
      PlacedKeysDiffer(w, m, n);
    }
  }

  lemma {:induction false} PlacedKeysDiffer(w: World, m: nat, n: nat)
    requires UniqueKeys(w.store) && LogMatchesStore(w.log, w.store) && PlacedOnce(w.log)
    requires m < n < |w.log| && w.log[m].Placed? && w.log[n].Placed?
    ensures w.log[m].key != w.log[n].key
  {
    assert w.log[m].id != w.log[n].id;
    assert w.store[w.log[m].id].key == w.log[m].key && w.store[w.log[n].id].key == w.log[n].key;
  }

  lemma {:induction false} StepKeepsLocking(w: World, a: Action)
    ensures Step(w, a).locking == w.locking
  {
  }

  lemma {:induction false} LockingIsFixed(locking: bool, actions: seq<Action>, n: nat)
    requires n <= |actions|
    ensures Run(locking, actions, n).locking == locking
  {
    if n > 0 {
      LockingIsFixed(locking, actions, n - 1);
      StepKeepsLocking(Run(locking, actions, n - 1), actions[n - 1]);
    }
  }

  /** With the locks, two calls of one engine for one key are never both past the lock. */
  lemma {:induction false} MutualExclusion(actions: seq<Action>, c: CallId, d: CallId)
    requires var w := Run(true, actions, |actions|);
             && c in w.calls && d in w.calls && NameOf(w.calls[c]) == NameOf(w.calls[d])
             && Critical(w.calls[c].phase) && Critical(w.calls[d].phase)
    ensures c == d
  {
    RunIsSafe(true, actions, |actions|);
    LockingIsFixed(true, actions, |actions|);
  }

  /** The key has a row and no call is still on its way to the broker with it. */
  ghost predicate Spent(w: World, key: Key) {
    && Taken(w.store, key)
    && forall c :: c in w.calls && w.calls[c].key == key ==> !Unsent(w.calls[c].phase)
  }

  lemma {:induction false} StaysTaken(w: World, a: Action, key: Key)
    requires Taken(w.store, key)
    ensures Taken(Step(w, a).store, key)
  {
    var id :| id in w.store && w.store[id].key == key;
    assert id in Step(w, a).store && Step(w, a).store[id].key == key;
  }

  lemma {:induction false} NoneBecomesUnsent(w: World, a: Action, key: Key)
    requires Spent(w, key)
    ensures forall c :: c in Step(w, a).calls && Step(w, a).calls[c].key == key ==> !Unsent(Step(w, a).calls[c].phase)
  {
  }

  lemma {:induction false} NothingIsPlaced(w: World, a: Action, key: Key)
    requires Spent(w, key)
    ensures w.log <= Step(w, a).log
    ensures forall n :: |w.log| <= n < |Step(w, a).log| ==> Step(w, a).log[n] != Placed(Step(w, a).log[n].id, key)
  {
  }

  /**
   A spent key stays spent: whatever happens next, the broker is never called for it again.
   In particular a signal whose order was rejected is not retried, although the duplicate
   guard lets it through.
   */
  lemma {:induction false} SpentForever(locking: bool, actions: seq<Action>, m: nat, n: nat, key: Key)
    requires m <= n <= |actions| && Spent(Run(locking, actions, m), key)
    ensures var before, after := Run(locking, actions, m).log, Run(locking, actions, n).log;
            && Spent(Run(locking, actions, n), key)
            && before <= after
            && forall k :: |before| <= k < |after| ==> after[k] != Placed(after[k].id, key)
    decreases n - m
  {
    if m < n {
      SpentForever(locking, actions, m, n - 1, key);
      var w, a := Run(locking, actions, n - 1), actions[n - 1];
      StaysTaken(w, a, key);
      NoneBecomesUnsent(w, a, key);
      NothingIsPlaced(w, a, key);
    }
  }

  /** A rejected row passes the guard, and the insert then refuses whatever id is drawn. */
  lemma {:induction false} RejectedIsStoppedByTheInsert(w: World, c: CallId, id: OrderId, drawn: OrderId)
    requires Safe(w) && At(w, c, Guarding)
    requires id in w.store && w.store[id] == Row(w.calls[c].key, Rejected)
    ensures var gated := Step(Step(w, Guard(c, true)), Gate(c, true));
            var after := Step(gated, Insert(c, drawn, Up));
            && At(gated, c, Inserting)
            && At(after, c, Ended(Duplicate)) && after.store == w.store && after.log == w.log
  {
    RejectedPassesTheGuard(w, c, id);
    var gated := Step(Step(w, Guard(c, true)), Gate(c, true));
    assert Taken(gated.store, w.calls[c].key);
  }

  lemma {:induction false} RejectedPassesTheGuard(w: World, c: CallId, id: OrderId)
    requires Safe(w) && At(w, c, Guarding)
    requires id in w.store && w.store[id] == Row(w.calls[c].key, Rejected)
    ensures Step(Step(w, Guard(c, true)), Gate(c, true)) == Moved(w, c, Inserting)
  {
    assert !ActedOn(w.store, w.calls[c].key);
    MovedTwice(w, c, Gating, Inserting);
  }

  // ---- Orders written by other services -----------------------------------

  ghost predicate KeyInserted(log: seq<Note>, key: Key) {
    exists k :: 0 <= k < |log| && log[k] == Inserted(log[k].id, key)
  }

  /** Another service writes an order of this key under an id the store does not know. */
  predicate OffersNew(w: World, a: Action, key: Key) {
    a.OtherUpsert? && a.key == key && a.order !in w.store
  }

  ghost predicate Offered(locking: bool, actions: seq<Action>, n: nat, key: Key)
    requires n <= |actions|
  {
    exists m :: 0 <= m < n && OfferedAt(locking, actions, m, key)
  }

  predicate OfferedAt(locking: bool, actions: seq<Action>, m: nat, key: Key)
    requires m < |actions|
  {
    OffersNew(Run(locking, actions, m), actions[m], key)
  }

  /** Only an insert or a new order of the key takes it, and then it is taken for good. */
  lemma {:induction false} StepTakes(w: World, a: Action, key: Key)
    requires Safe(w)
    ensures (Taken(Step(w, a).store, key)
             <==> Taken(w.store, key) || KeyInserted(Step(w, a).log, key) || OffersNew(w, a, key))
    ensures KeyInserted(w.log, key) ==> KeyInserted(Step(w, a).log, key)
  {
    StepIsSafe(w, a);
    StepKeepsLog(w, a);
    if KeyInserted(Step(w, a).log, key) {
      InsertedIsTaken(Step(w, a), key);
    }
    if Taken(w.store, key) {
      StaysTaken(w, a, key);
    } else if Taken(Step(w, a).store, key) {
      NewlyTaken(w, a, key);
    }
    if OffersNew(w, a, key) {
      OfferTakes(w, a, key);
    }
  }

  lemma {:induction false} OfferTakes(w: World, a: Action, key: Key)
    requires OffersNew(w, a, key)
    ensures Taken(Step(w, a).store, key)
  {
    if !Taken(w.store, key) {
      assert Step(w, a).store[a.order].key == key;
    }
  }

  lemma {:induction false} NewlyTaken(w: World, a: Action, key: Key)
    requires !Taken(w.store, key) && Taken(Step(w, a).store, key)
    ensures OffersNew(w, a, key) || KeyInserted(Step(w, a).log, key)
  {
    var id :| id in Step(w, a).store && Step(w, a).store[id].key == key;
    WhereRowsComeFrom(w, a, id);
  }

  /** A row was there before under its key, or this step inserted or offered it. */
  lemma {:induction false} WhereRowsComeFrom(w: World, a: Action, id: OrderId)
    requires id in Step(w, a).store
    ensures var key := Step(w, a).store[id].key;
            || (id in w.store && w.store[id].key == key)
            || OffersNew(w, a, key) || KeyInserted(Step(w, a).log, key)
  {
    if a.Insert? {
      InsertedRow(w, a, id);
    } else if a.Record? {
      RecordKeepsKeys(w, a.c, a.reply, id);
    } else if !a.OtherUpsert? {
      QuietStepKeepsRows(w, a);
    }
  }

  lemma {:induction false} InsertedRow(w: World, a: Action, id: OrderId)
    requires a.Insert? && id in Step(w, a).store
    ensures (id in w.store && w.store[id].key == Step(w, a).store[id].key)
            || KeyInserted(Step(w, a).log, Step(w, a).store[id].key)
  {
    if id !in w.store {
      assert Step(w, a).log[|w.log|] == Inserted(id, Step(w, a).store[id].key);
    }
  }

  lemma {:induction false} RecordKeepsKeys(w: World, c: CallId, reply: StoreReply, id: OrderId)
    requires id in StepRecord(w, c, reply).store
    ensures id in w.store && w.store[id].key == StepRecord(w, c, reply).store[id].key
  {
  }

  lemma {:induction false} InsertedIsTaken(w: World, key: Key)
    requires Safe(w) && KeyInserted(w.log, key)
    ensures Taken(w.store, key)
  {
    var k :| 0 <= k < |w.log| && w.log[k] == Inserted(w.log[k].id, key);
    assert w.store[w.log[k].id].key == key;
  }

  lemma {:induction false} StepKeepsLog(w: World, a: Action)
    ensures w.log <= Step(w, a).log
  {
  }

  /** A key is taken exactly when some call inserted its order or another service offered one. */
  lemma {:induction false} TakenIff(locking: bool, actions: seq<Action>, n: nat, key: Key)
    requires n <= |actions|
    ensures (Taken(Run(locking, actions, n).store, key)
             <==> KeyInserted(Run(locking, actions, n).log, key) || Offered(locking, actions, n, key))
  {
    if n > 0 {
      var w, a := Run(locking, actions, n - 1), actions[n - 1];
      RunIsSafe(locking, actions, n - 1);
      TakenIff(locking, actions, n - 1, key);
      StepTakes(w, a, key);
      OfferedNext(locking, actions, n, key);
    }
  }

  lemma {:induction false} OfferedNext(locking: bool, actions: seq<Action>, n: nat, key: Key)
    requires 0 < n <= |actions|
    ensures (Offered(locking, actions, n, key)
             <==> Offered(locking, actions, n - 1, key) || OfferedAt(locking, actions, n - 1, key))
  {
  }

  /**
   When an exit, or any other order written by id, is stored: in every reachable state a write
   under a new id is refused exactly when its key was inserted by an entry call or offered
   before, and otherwise adds its row and nothing else.
   */
  lemma {:induction false} NewOrderIsStoredIff(locking: bool, actions: seq<Action>, n: nat, id: OrderId, key: Key,
                                               status: Status)
    requires n <= |actions| && id !in Run(locking, actions, n).store
    ensures var w := Run(locking, actions, n);
            var after := Step(w, OtherUpsert(id, key, status));
            if KeyInserted(w.log, key) || Offered(locking, actions, n, key) then after == w
            else after == w.(store := w.store[id := Row(key, status)]) && after != w
  {
    TakenIff(locking, actions, n, key);
    NewOrderStep(Run(locking, actions, n), id, key, status);
  }

  lemma {:induction false} NewOrderStep(w: World, id: OrderId, key: Key, status: Status)
    requires id !in w.store
    ensures var after := Step(w, OtherUpsert(id, key, status));
            if Taken(w.store, key) then after == w
            else after == w.(store := w.store[id := Row(key, status)]) && after != w
  {
    assert Taken(w.store, key) || id in StepOther(w, id, key, status).store;
  }

  /**
   An exit order that carries the signal id and broker of an accepted entry is a new row under
   a taken key: it is refused then and at any later time.
   */
  lemma {:induction false} ExitUnderTheEntryKeyIsRefused(locking: bool, actions: seq<Action>, m: nat, n: nat, c: CallId,
                                                         exitId: OrderId,
                                      status: Status)
    requires m <= n <= |actions| && WasAccepted(Run(locking, actions, m), c)
    ensures var w, key := Run(locking, actions, n), Run(locking, actions, m).calls[c].key;
            exitId !in w.store ==> Step(w, OtherUpsert(exitId, key, status)) == w
  {
    RunIsSafe(locking, actions, m);
    var w := Run(locking, actions, m);
    var id := w.calls[c].phase.outcome.id;
    assert id in w.store && w.store[id].key == w.calls[c].key;
    TakenForever(locking, actions, m, n, w.calls[c].key);
    if exitId !in Run(locking, actions, n).store {
      NewOrderStep(Run(locking, actions, n), exitId, w.calls[c].key, status);
    }
  }

  predicate WasAccepted(w: World, c: CallId) {
    c in w.calls && w.calls[c].phase.Ended? && w.calls[c].phase.outcome.Accepted?
  }

  lemma {:induction false} RunNext(locking: bool, actions: seq<Action>, n: nat)
    requires n < |actions|
    ensures Run(locking, actions, n + 1) == Step(Run(locking, actions, n), actions[n])
  {
  }

  lemma {:induction false} TakenForever(locking: bool, actions: seq<Action>, m: nat, n: nat, key: Key)
    requires m <= n <= |actions| && Taken(Run(locking, actions, m).store, key)
    ensures Taken(Run(locking, actions, n).store, key)
  {
    if m < n {
      TakenForever(locking, actions, m, n - 1, key);
      StaysTaken(Run(locking, actions, n - 1), actions[n - 1], key);
    }
  }

  /** Once a broker has an order without a signal id, a second one is refused forever. */
  lemma {:induction false} SecondUnsignedOrderIsRefused(locking: bool, actions: seq<Action>, m: nat, n: nat,
                                                        broker: BrokerName,
                                     id: OrderId, status: Status)
    requires m < n <= |actions| && id !in Run(locking, actions, n).store
    requires OfferedAt(locking, actions, m, Key(None, broker))
    ensures var w := Run(locking, actions, n);
            Step(w, OtherUpsert(id, Key(None, broker), status)) == w
  {
    RunNext(locking, actions, m);
    OfferTakes(Run(locking, actions, m), actions[m], Key(None, broker));
    TakenForever(locking, actions, m + 1, n, Key(None, broker));
    NewOrderStep(Run(locking, actions, n), id, Key(None, broker), status);
  }

  lemma {:induction false} NothingPlacedForUnsent(w: World, c: CallId, n: nat)
    requires Safe(w) && c in w.calls && Unsent(w.calls[c].phase) && n < |w.log|
    ensures w.log[n] != Placed(w.log[n].id, w.calls[c].key)
  {
    assert w.store[w.log[n].id].key == w.log[n].key;
    assert w.store[w.calls[c].phase.id].key == w.calls[c].key;
  }

  lemma {:induction false} OnlyUnsentForItsKey(w: World, c: CallId, d: CallId)
    requires Safe(w) && c in w.calls && d in w.calls && w.calls[c].key == w.calls[d].key
    requires Unsent(w.calls[c].phase) && Unsent(w.calls[d].phase)
    ensures c == d
  {
    assert w.store[w.calls[c].phase.id].key == w.store[w.calls[d].phase.id].key;
  }

  /** An order whose broker login failed is never sent, then or later, by any call. */
  lemma {:induction false} FailedLoginIsNeverSent(locking: bool, actions: seq<Action>, m: nat, n: nat, c: CallId)
    requires m < n <= |actions| && actions[m] == Login(c, false)
    requires c in Run(locking, actions, m).calls && Run(locking, actions, m).calls[c].phase.Stored?
    ensures var key, log := Run(locking, actions, m).calls[c].key, Run(locking, actions, n).log;
            forall k :: 0 <= k < |log| ==> log[k] != Placed(log[k].id, key)
  {
    RunIsSafe(locking, actions, m);
    var w := Run(locking, actions, m);
    RunNext(locking, actions, m);
    FailedLoginSpends(w, c);
    SpentForever(locking, actions, m + 1, n, w.calls[c].key);
    forall k | 0 <= k < |w.log|
      ensures w.log[k] != Placed(w.log[k].id, w.calls[c].key)
    {
      NothingPlacedForUnsent(w, c, k);
    }
  }

  lemma {:induction false} FailedLoginSpends(w: World, c: CallId)
    requires Safe(w) && c in w.calls && w.calls[c].phase.Stored?
    ensures Spent(Step(w, Login(c, false)), w.calls[c].key) && Step(w, Login(c, false)).log == w.log
  {
    var key, after := w.calls[c].key, Step(w, Login(c, false));
    assert after == Moved(w, c, Refusing(w.calls[c].phase.id));
    forall d | d in after.calls && after.calls[d].key == key
      ensures !Unsent(after.calls[d].phase)
    {
      if d != c && Unsent(w.calls[d].phase) {
        OnlyUnsentForItsKey(w, c, d);
      }
    }
    assert w.store[w.calls[c].phase.id].key == key;
  }

  // ---- One engine on its own ----------------------------------------------

  /** All calls run on one engine and nobody else writes orders. */
  ghost predicate Alone(actions: seq<Action>) {
    forall k :: 0 <= k < |actions| ==>
      !actions[k].OtherUpsert? && (actions[k].Begin? ==> actions[k].engine == 0)
  }

  predicate PastTheGuard(p: Phase) {
    p.Gating? || p.Inserting?
  }

  ghost predicate GuardStands(w: World) {
    forall c :: c in w.calls && PastTheGuard(w.calls[c].phase) ==> !ActedOn(w.store, w.calls[c].key)
  }

  ghost predicate OneEngine(w: World) {
    forall c :: c in w.calls ==> w.calls[c].engine == 0
  }

  /** The recorded outcome of a call is the status of its row. */
  ghost predicate OutcomesStored(w: World) {
    forall c :: c in w.calls && w.calls[c].phase.Ended? ==>
      var o := w.calls[c].phase.outcome;
      && (o.Accepted? ==> o.id in w.store && w.store[o.id].status == Open)
      && (o.RefusedByBroker? ==> o.id in w.store && w.store[o.id].status == Rejected)
  }

  lemma {:induction false} SameKeyInside(w: World, c: CallId, d: CallId)
    requires Safe(w) && w.locking && OneEngine(w) && c in w.calls && d in w.calls
    requires w.calls[c].key == w.calls[d].key && Critical(w.calls[c].phase) && Critical(w.calls[d].phase)
    ensures c == d
  {
    assert NameOf(w.calls[c]) == NameOf(w.calls[d]);
  }

  /** A row written on behalf of one call does not undo the guard of another. */
  lemma {:induction false} WriteKeepsGuard(w: World, c: CallId, id: OrderId, status: Status)
    requires Safe(w) && w.locking && OneEngine(w) && GuardStands(w) && c in w.calls
    requires Critical(w.calls[c].phase) && !PastTheGuard(w.calls[c].phase)
    requires OrderOf(w.calls[c].phase) == Some(id)
    ensures GuardStands(w.(store := Overwritten(w.store, id, status)))
  {
    var after := w.(store := Overwritten(w.store, id, status));
    forall d | d in w.calls && PastTheGuard(w.calls[d].phase)
      ensures !ActedOn(after.store, w.calls[d].key)
    {
      if w.calls[d].key == w.calls[c].key {
        SameKeyInside(w, c, d);
      }
    }
  }

  lemma {:induction false} InsertKeepsGuard(w: World, c: CallId, id: OrderId, reply: StoreReply)
    requires Safe(w) && w.locking && OneEngine(w) && GuardStands(w)
    ensures GuardStands(StepInsert(w, c, id, reply))
  {
    var after := StepInsert(w, c, id, reply);
    forall d | d in after.calls && PastTheGuard(after.calls[d].phase)
      ensures !ActedOn(after.store, after.calls[d].key)
    {
      if At(w, c, Inserting) && after.store != w.store && w.calls[d].key == w.calls[c].key {
        SameKeyInside(w, c, d);
      }
    }
  }

  lemma {:induction false} RecordKeepsGuard(w: World, c: CallId, reply: StoreReply)
    requires Safe(w) && w.locking && OneEngine(w) && GuardStands(w)
    ensures GuardStands(StepRecord(w, c, reply))
  {
    if c in w.calls && (w.calls[c].phase.Accepting? || w.calls[c].phase.Refusing?) && reply != Down {
      var id, status := w.calls[c].phase.id, if w.calls[c].phase.Accepting? then Open else Rejected;
      WriteKeepsGuard(w, c, id, status);
    }
  }

  lemma {:induction false} QuietStepKeepsRows(w: World, a: Action)
    requires !a.Insert? && !a.Record? && !a.OtherUpsert?
    ensures Step(w, a).store == w.store
  {
  }

  /** Nothing after the gate puts a call back between the guard and the insert. */
  lemma {:induction false} LaterStepsPassNobody(w: World, a: Action, d: CallId)
    requires !a.Begin? && !a.Acquire? && !a.Guard? && !a.Gate?
    requires d in Step(w, a).calls && PastTheGuard(Step(w, a).calls[d].phase)
    ensures d in w.calls && Step(w, a).calls[d].key == w.calls[d].key && PastTheGuard(w.calls[d].phase)
  {
  }

  /** Only the guard lets a call past it. */
  lemma {:induction false} OnlyTheGuardPasses(w: World, a: Action, d: CallId)
    requires d in Step(w, a).calls && PastTheGuard(Step(w, a).calls[d].phase)
    ensures d in w.calls && Step(w, a).calls[d].key == w.calls[d].key
    ensures PastTheGuard(w.calls[d].phase) || !ActedOn(w.store, w.calls[d].key)
  {
    if !a.Begin? && !a.Acquire? && !a.Guard? && !a.Gate? {
      LaterStepsPassNobody(w, a, d);
    }
  }

  lemma {:induction false} QuietStepKeepsGuard(w: World, a: Action)
    requires GuardStands(w) && !a.Insert? && !a.Record? && !a.OtherUpsert?
    ensures GuardStands(Step(w, a))
  {
    QuietStepKeepsRows(w, a);
    forall d | d in Step(w, a).calls && PastTheGuard(Step(w, a).calls[d].phase)
      ensures !ActedOn(w.store, Step(w, a).calls[d].key)
    {
      OnlyTheGuardPasses(w, a, d);
    }
  }

  lemma {:induction false} StepKeepsEngine(w: World, a: Action)
    requires OneEngine(w) && (a.Begin? ==> a.engine == 0)
    ensures OneEngine(Step(w, a))
  {
  }

  lemma {:induction false} StepKeepsGuard(w: World, a: Action)
    requires Safe(w) && w.locking && OneEngine(w) && GuardStands(w) && !a.OtherUpsert?
    ensures GuardStands(Step(w, a))
  {
    if a.Insert? {
      InsertKeepsGuard(w, a.c, a.id, a.reply);
    } else if a.Record? {
      RecordKeepsGuard(w, a.c, a.reply);
    } else {
      QuietStepKeepsGuard(w, a);
    }
  }

  /**
   On one engine with its locks, what the duplicate guard saw still holds at the insert: the
   insert refuses a signal only over a rejected row, never over a live order.
   */
  lemma {:induction false} GuardHoldsUntilInsert(actions: seq<Action>, n: nat)
    requires n <= |actions| && Alone(actions)
    ensures OneEngine(Run(true, actions, n)) && GuardStands(Run(true, actions, n))
  {
    if n > 0 {
      GuardHoldsUntilInsert(actions, n - 1);
      RunIsSafe(true, actions, n - 1);
      LockingIsFixed(true, actions, n - 1);
      StepKeepsEngine(Run(true, actions, n - 1), actions[n - 1]);
      StepKeepsGuard(Run(true, actions, n - 1), actions[n - 1]);
    }
  }

  ghost predicate RejectedHolds(store: map<OrderId, Row>, key: Key) {
    exists id :: id in store && store[id] == Row(key, Rejected)
  }

  /**
   On one engine with its locks the insert ends as a duplicate exactly when the drawn id is
   taken or a rejected order holds the key: never over a live order of the same signal.
   */
  lemma {:induction false} InsertRefusesIff(actions: seq<Action>, n: nat, c: CallId, id: OrderId, reply: StoreReply)
    requires n <= |actions| && Alone(actions) && reply != Down
    requires At(Run(true, actions, n), c, Inserting)
    ensures var w := Run(true, actions, n);
            (At(StepInsert(w, c, id, reply), c, Ended(Duplicate))
             <==> id in w.store || RejectedHolds(w.store, w.calls[c].key))
  {
    GuardHoldsUntilInsert(actions, n);
    var w := Run(true, actions, n);
    assert !ActedOn(w.store, w.calls[c].key);
    if Taken(w.store, w.calls[c].key) {
      var r :| r in w.store && w.store[r].key == w.calls[c].key;
      assert w.store[r] == Row(w.calls[c].key, Rejected);
    }
  }

  /** The call's own row is overwritten; no other call's outcome speaks of it. */
  lemma {:induction false} OverwriteKeepsOutcomes(w: World, c: CallId, status: Status)
    requires Safe(w) && OutcomesStored(w) && c in w.calls && !w.calls[c].phase.Ended?
    requires OrderOf(w.calls[c].phase).Some?
    ensures OutcomesStored(w.(store := Overwritten(w.store, OrderOf(w.calls[c].phase).value, status)))
  {
    var id := OrderOf(w.calls[c].phase).value;
    forall d | d in w.calls && w.calls[d].phase.Ended?
      ensures OrderOf(w.calls[d].phase) != Some(id)
    {
    }
  }

  lemma {:induction false} FinishStoresOutcome(w: World, c: CallId, o: Outcome)
    requires OutcomesStored(w) && c in w.calls
    requires o.Accepted? ==> o.id in w.store && w.store[o.id].status == Open
    requires o.RefusedByBroker? ==> o.id in w.store && w.store[o.id].status == Rejected
    ensures OutcomesStored(Finished(w, c, o))
  {
  }

  lemma {:induction false} RecordStoresOutcome(w: World, c: CallId, reply: StoreReply)
    requires Safe(w) && OutcomesStored(w)
    ensures OutcomesStored(StepRecord(w, c, reply))
  {
    if c in w.calls && (w.calls[c].phase.Accepting? || w.calls[c].phase.Refusing?) {
      var phase := w.calls[c].phase;
      var status := if phase.Accepting? then Open else Rejected;
      OverwriteKeepsOutcomes(w, c, status);
      var after := if reply == Down then w else w.(store := Overwritten(w.store, phase.id, status));
      FinishStoresOutcome(after, c, if reply != Up then Raised(Some(phase.id))
                                    else if phase.Accepting? then Accepted(phase.id) else RefusedByBroker(phase.id));
    }
  }

  lemma {:induction false} MoveKeepsOutcomes(w: World, c: CallId, phase: Phase)
    requires OutcomesStored(w) && c in w.calls && !phase.Ended?
    ensures OutcomesStored(Moved(w, c, phase))
  {
  }

  lemma {:induction false} InsertStoresOutcomes(w: World, c: CallId, id: OrderId, reply: StoreReply)
    requires OutcomesStored(w)
    ensures OutcomesStored(StepInsert(w, c, id, reply))
  {
    if At(w, c, Inserting) {
      var key := w.calls[c].key;
      var after := w.(store := w.store[id := Row(key, Pending)], log := w.log + [Inserted(id, key)]);
      if reply == Down {
        FinishStoresOutcome(w, c, Raised(None));
      } else if id in w.store || Taken(w.store, key) {
        FinishStoresOutcome(w, c, Duplicate);
      } else {
        assert OutcomesStored(after);
        MoveKeepsOutcomes(after, c, Stored(id));
        FinishStoresOutcome(after, c, Raised(None));
      }
    }
  }

  /** The steps before the insert, which touch no row. */
  lemma {:induction false} EarlyStepStoresOutcomes(w: World, a: Action)
    requires OutcomesStored(w) && (a.Begin? || a.Acquire? || a.Guard? || a.Gate?)
    ensures OutcomesStored(Step(w, a))
  {
    if a.c in w.calls {
      FinishStoresOutcome(w, a.c, Blocked);
      FinishStoresOutcome(w, a.c, Duplicate);
      FinishStoresOutcome(w, a.c, NotSized);
      MoveKeepsOutcomes(w, a.c, Guarding);
      MoveKeepsOutcomes(w, a.c, Gating);
      MoveKeepsOutcomes(w, a.c, Inserting);
    }
  }

  /** The steps after it, up to the recording of the answer. */
  lemma {:induction false} LateStepStoresOutcomes(w: World, a: Action)
    requires OutcomesStored(w) && (a.Login? || a.Submit? || a.Answer? || a.Die?)
    ensures OutcomesStored(Step(w, a))
  {
    if a.c in w.calls && !w.calls[a.c].phase.Ended? {
      FinishStoresOutcome(w, a.c, Raised(OrderOf(w.calls[a.c].phase)));
      if OrderOf(w.calls[a.c].phase).Some? {
        var id := OrderOf(w.calls[a.c].phase).value;
        MoveKeepsOutcomes(w, a.c, LoggedIn(id));
        MoveKeepsOutcomes(w, a.c, Refusing(id));
        MoveKeepsOutcomes(w, a.c, Accepting(id));
        MoveKeepsOutcomes(w.(log := w.log + [Placed(id, w.calls[a.c].key)]), a.c, Sent(id));
      }
    }
  }

  lemma {:induction false} StepStoresOutcomes(w: World, a: Action)
    requires Safe(w) && OutcomesStored(w) && !a.OtherUpsert?
    ensures OutcomesStored(Step(w, a))
  {
    if a.Record? {
      RecordStoresOutcome(w, a.c, a.reply);
    } else if a.Insert? {
      InsertStoresOutcomes(w, a.c, a.id, a.reply);
    } else if a.Begin? || a.Acquire? || a.Guard? || a.Gate? {
      EarlyStepStoresOutcomes(w, a);
    } else {
      LateStepStoresOutcomes(w, a);
    }
  }

  /** Without other writers an accepted call's row is OPEN and a refused call's row is REJECTED, in every state. */
  lemma {:induction false} OutcomesAreStored(locking: bool, actions: seq<Action>, n: nat)
    requires n <= |actions| && forall k :: 0 <= k < |actions| ==> !actions[k].OtherUpsert?
    ensures OutcomesStored(Run(locking, actions, n))
  {
    if n > 0 {
      OutcomesAreStored(locking, actions, n - 1);
      RunIsSafe(locking, actions, n - 1);
      StepStoresOutcomes(Run(locking, actions, n - 1), actions[n - 1]);
    }
  }

  // ---- Which step leads to which outcome ----------------------------------

  /** The store or the guard would meet this call's signal again: its drawn id or its key is taken. */
  predicate Collides(w: World, c: CallId, id: OrderId) {
    c in w.calls && (id in w.store || Taken(w.store, w.calls[c].key))
  }

  /** The one way to each phase: what the outside does, and where it must meet the call. */
  predicate Brings(w: World, a: Action, c: CallId, p: Phase) {
    match p
    case Waiting => c !in w.calls && a.Begin? && a.c == c && a.enabled
    case Guarding => At(w, c, Waiting) && a == Acquire(c) && (w.locking ==> NameOf(w.calls[c]) !in w.locks)
    case Gating => At(w, c, Guarding) && a == Guard(c, true) && !ActedOn(w.store, w.calls[c].key)
    case Inserting => At(w, c, Gating) && a == Gate(c, true)
    case Stored(id) => At(w, c, Inserting) && a == Insert(c, id, Up) && !Collides(w, c, id)
    case LoggedIn(id) => At(w, c, Stored(id)) && a == Login(c, true)
    case Sent(id) => At(w, c, LoggedIn(id)) && a == Submit(c)
    case Accepting(id) => At(w, c, Sent(id)) && a == Answer(c, TakenOn)
    case Refusing(id) =>
      (At(w, c, Sent(id)) && a == Answer(c, TurnedDown)) || (At(w, c, Stored(id)) && a == Login(c, false))
    case Ended(o) => BringsOutcome(w, a, c, o)
  }

  predicate BringsOutcome(w: World, a: Action, c: CallId, o: Outcome) {
    match o
    case Disabled => c !in w.calls && a.Begin? && a.c == c && !a.enabled
    case Blocked => At(w, c, Guarding) && a == Guard(c, false)
    case Duplicate =>
      || (At(w, c, Guarding) && a == Guard(c, true) && ActedOn(w.store, w.calls[c].key))
      || (At(w, c, Inserting) && a.Insert? && a.c == c && a.reply != Down && Collides(w, c, a.id))
    case NotSized => At(w, c, Gating) && a == Gate(c, false)
    case Accepted(id) => At(w, c, Accepting(id)) && a == Record(c, Up)
    case RefusedByBroker(id) => At(w, c, Refusing(id)) && a == Record(c, Up)
    case Raised(None) =>
      || (c in w.calls && a == Die(c) && !w.calls[c].phase.Ended? && OrderOf(w.calls[c].phase).None?)
      || (At(w, c, Inserting) && a.Insert? && a.c == c
          && (a.reply == Down || (a.reply == ReplyLost && !Collides(w, c, a.id))))
    case Raised(Some(id)) =>
      || (c in w.calls && a == Die(c) && !w.calls[c].phase.Ended? && OrderOf(w.calls[c].phase) == Some(id))
      || (At(w, c, Sent(id)) && a == Answer(c, Unexpected))
      || ((At(w, c, Accepting(id)) || At(w, c, Refusing(id))) && a.Record? && a.c == c && a.reply != Up)
  }

  lemma {:induction false} EntryBringsIff(w: World, a: Action, c: CallId, p: Phase)
    requires (a.Begin? || a.Acquire?) && !At(w, c, p)
    ensures At(Step(w, a), c, p) <==> Brings(w, a, c, p)
  {
  }

  lemma {:induction false} GuardBringsIff(w: World, a: Action, c: CallId, p: Phase)
    requires a.Guard? && !At(w, c, p)
    ensures At(Step(w, a), c, p) <==> Brings(w, a, c, p)
  {
  }

  lemma {:induction false} GateBringsIff(w: World, a: Action, c: CallId, p: Phase)
    requires a.Gate? && !At(w, c, p)
    ensures At(Step(w, a), c, p) <==> Brings(w, a, c, p)
  {
  }

  lemma {:induction false} InsertBringsIff(w: World, a: Action, c: CallId, p: Phase)
    requires a.Insert? && !At(w, c, p)
    ensures At(Step(w, a), c, p) <==> Brings(w, a, c, p)
  {
    if !At(w, a.c, Inserting) || a.c != c {
      assert c in Step(w, a).calls <==> c in w.calls;
      assert c in w.calls ==> Step(w, a).calls[c] == w.calls[c];
    } else {
      InsertMoves(w, a, c);
    }
  }

  /** Where the insert takes the call that is at it. */
  lemma {:induction false} InsertMoves(w: World, a: Action, c: CallId)
    requires a.Insert? && a.c == c && At(w, c, Inserting)
    ensures At(Step(w, a), c, if a.reply == Down then Ended(Raised(None))
                              else if Collides(w, c, a.id) then Ended(Duplicate)
                              else if a.reply == Up then Stored(a.id) else Ended(Raised(None)))
  {
  }

  lemma {:induction false} SubmitBringsIff(w: World, a: Action, c: CallId, p: Phase)
    requires (a.Login? || a.Submit?) && !At(w, c, p)
    ensures At(Step(w, a), c, p) <==> Brings(w, a, c, p)
  {
  }

  lemma {:induction false} AnswerBringsIff(w: World, a: Action, c: CallId, p: Phase)
    requires a.Answer? && !At(w, c, p)
    ensures At(Step(w, a), c, p) <==> Brings(w, a, c, p)
  {
  }

  lemma {:induction false} RecordBringsIff(w: World, a: Action, c: CallId, p: Phase)
    requires (a.Record? || a.OtherUpsert?) && !At(w, c, p)
    ensures At(Step(w, a), c, p) <==> Brings(w, a, c, p)
  {
  }

  lemma {:induction false} DeathBringsIff(w: World, a: Action, c: CallId, p: Phase)
    requires a.Die? && !At(w, c, p)
    ensures At(Step(w, a), c, p) <==> Brings(w, a, c, p)
  {
  }

  /** A call comes to stand at a phase exactly by the step that may bring it there. */
  lemma {:induction false} StepBringsIff(w: World, a: Action, c: CallId, p: Phase)
    requires !At(w, c, p)
    ensures At(Step(w, a), c, p) <==> Brings(w, a, c, p)
  {
    if a.Begin? || a.Acquire? {
      EntryBringsIff(w, a, c, p);
    } else if a.Guard? {
      GuardBringsIff(w, a, c, p);
    } else if a.Gate? {
      GateBringsIff(w, a, c, p);
    } else if a.Insert? {
      InsertBringsIff(w, a, c, p);
    } else if a.Login? || a.Submit? {
      SubmitBringsIff(w, a, c, p);
    } else if a.Answer? {
      AnswerBringsIff(w, a, c, p);
    } else if a.Die? {
      DeathBringsIff(w, a, c, p);
    } else {
      RecordBringsIff(w, a, c, p);
    }
  }

  predicate Brought(locking: bool, actions: seq<Action>, m: nat, c: CallId, p: Phase) {
    m < |actions| && Brings(Run(locking, actions, m), actions[m], c, p)
  }

  /** In every reachable state, each call was brought to where it stands by the one step that may do so. */
  lemma {:induction false} EveryPhaseHasItsCause(locking: bool, actions: seq<Action>, n: nat, c: CallId)
    requires n <= |actions| && c in Run(locking, actions, n).calls
    ensures exists m: nat :: m < n && Brought(locking, actions, m, c, Run(locking, actions, n).calls[c].phase)
  {
    if n > 0 {
      var w, p := Run(locking, actions, n - 1), Run(locking, actions, n).calls[c].phase;
      if At(w, c, p) {
        EveryPhaseHasItsCause(locking, actions, n - 1, c);
      } else {
        StepBringsIff(w, actions[n - 1], c, p);
        assert Brought(locking, actions, n - 1, c, p);
      }
    }
  }

  /** Action number `m` was `a`, and it met the call at `p`. */
  predicate Met(locking: bool, actions: seq<Action>, m: nat, c: CallId, p: Phase, a: Action) {
    m < |actions| && actions[m] == a && At(Run(locking, actions, m), c, p)
  }

  /** A call at or past the acceptance of its order was taken on by the broker before. */
  lemma {:induction false} AcceptanceHasItsAnswer(locking: bool, actions: seq<Action>, n: nat, c: CallId, id: OrderId)
    requires n <= |actions|
    requires At(Run(locking, actions, n), c, Accepting(id)) || At(Run(locking, actions, n), c, Ended(Accepted(id)))
    ensures exists m: nat :: m < n && Met(locking, actions, m, c, Sent(id), Answer(c, TakenOn))
    decreases n
  {
    var p := Run(locking, actions, n).calls[c].phase;
    EveryPhaseHasItsCause(locking, actions, n, c);
    var m: nat :| m < n && Brought(locking, actions, m, c, p);
    if p.Ended? {
      AcceptanceHasItsAnswer(locking, actions, m, c, id);
    } else {
      assert Met(locking, actions, m, c, Sent(id), Answer(c, TakenOn));
    }
  }

  /** A call at or past the refusal of its order was turned down by the broker or never logged in. */
  lemma {:induction false} RefusalHasItsAnswer(locking: bool, actions: seq<Action>, n: nat, c: CallId, id: OrderId)
    requires n <= |actions|
    requires At(Run(locking, actions, n), c, Refusing(id)) || At(Run(locking, actions, n), c, Ended(RefusedByBroker(id)))
    ensures exists m: nat :: m < n && (Met(locking, actions, m, c, Sent(id), Answer(c, TurnedDown))
                                       || Met(locking, actions, m, c, Stored(id), Login(c, false)))
    decreases n
  {
    var p := Run(locking, actions, n).calls[c].phase;
    EveryPhaseHasItsCause(locking, actions, n, c);
    var m: nat :| m < n && Brought(locking, actions, m, c, p);
    if p.Ended? {
      RefusalHasItsAnswer(locking, actions, m, c, id);
    } else {
      assert (Met(locking, actions, m, c, Sent(id), Answer(c, TurnedDown))
              || Met(locking, actions, m, c, Stored(id), Login(c, false)));
    }
  }

  /** Where an order the broker took on, or turned down, can still stand. */
  predicate Settled(p: Phase, id: OrderId, taken: bool) {
    || p == Ended(Raised(Some(id)))
    || p == (if taken then Accepting(id) else Refusing(id))
    || p == Ended(if taken then Accepted(id) else RefusedByBroker(id))
  }

  lemma {:induction false} StepKeepsSettled(w: World, a: Action, c: CallId, id: OrderId, taken: bool)
    requires c in w.calls && Settled(w.calls[c].phase, id, taken)
    ensures c in Step(w, a).calls && Settled(Step(w, a).calls[c].phase, id, taken)
  {
    StepKeepsCalls(w, a, c);
    var p := Step(w, a).calls[c].phase;
    if !At(w, c, p) {
      StepBringsIff(w, a, c, p);
      BroughtFromSettled(w, a, c, p, id, taken);
    }
  }

  lemma {:induction false} StepKeepsCalls(w: World, a: Action, c: CallId)
    requires c in w.calls
    ensures c in Step(w, a).calls
  {
  }

  lemma {:induction false} BroughtFromSettled(w: World, a: Action, c: CallId, p: Phase, id: OrderId, taken: bool)
    requires c in w.calls && Settled(w.calls[c].phase, id, taken) && Brings(w, a, c, p)
    ensures Settled(p, id, taken)
  {
  }

  lemma {:induction false} SettledForever(locking: bool, actions: seq<Action>, m: nat, n: nat, c: CallId, id: OrderId,
                                          taken: bool)
    requires m <= n <= |actions| && c in Run(locking, actions, m).calls
    requires Settled(Run(locking, actions, m).calls[c].phase, id, taken)
    ensures c in Run(locking, actions, n).calls && Settled(Run(locking, actions, n).calls[c].phase, id, taken)
    decreases n - m
  {
    if m < n {
      SettledForever(locking, actions, m, n - 1, c, id, taken);
      StepKeepsSettled(Run(locking, actions, n - 1), actions[n - 1], c, id, taken);
    }
  }

  /**
   The answer settles the call: once the broker took the order on, the call can only end accepted
   or by an exception; once it turned the order down or the login failed, only refused or by one.
   */
  lemma {:induction false} AnswerSettles(locking: bool, actions: seq<Action>, m: nat, n: nat, c: CallId, id: OrderId)
    requires m < n <= |actions|
    ensures Met(locking, actions, m, c, Sent(id), Answer(c, TakenOn))
            ==> c in Run(locking, actions, n).calls && Settled(Run(locking, actions, n).calls[c].phase, id, true)
    ensures (Met(locking, actions, m, c, Sent(id), Answer(c, TurnedDown))
             || Met(locking, actions, m, c, Stored(id), Login(c, false)))
            ==> c in Run(locking, actions, n).calls && Settled(Run(locking, actions, n).calls[c].phase, id, false)
  {
    var w := Run(locking, actions, m);
    RunNext(locking, actions, m);
    if Met(locking, actions, m, c, Sent(id), Answer(c, TakenOn)) {
      StepBringsIff(w, actions[m], c, Accepting(id));
      SettledForever(locking, actions, m + 1, n, c, id, true);
    } else if (Met(locking, actions, m, c, Sent(id), Answer(c, TurnedDown))
               || Met(locking, actions, m, c, Stored(id), Login(c, false))) {
      StepBringsIff(w, actions[m], c, Refusing(id));
      SettledForever(locking, actions, m + 1, n, c, id, false);
    }
  }

  // ---- Rows and locks of the calls in flight ------------------------------

  /** The order of every call between its insert and its record is still PENDING. */
  ghost predicate UnrecordedPending(w: World) {
    forall c :: c in w.calls && !w.calls[c].phase.Ended? && OrderOf(w.calls[c].phase).Some? ==>
      var id := OrderOf(w.calls[c].phase).value;
      id in w.store && w.store[id] == Row(w.calls[c].key, Pending)
  }

  lemma {:induction false} InsertKeepsPending(w: World, a: Action)
    requires Safe(w) && UnrecordedPending(w) && a.Insert?
    ensures UnrecordedPending(Step(w, a))
  {
  }

  lemma {:induction false} RecordKeepsPending(w: World, a: Action)
    requires Safe(w) && UnrecordedPending(w) && a.Record?
    ensures UnrecordedPending(Step(w, a))
  {
    var after := Step(w, a);
    forall d | d in after.calls && !after.calls[d].phase.Ended? && OrderOf(after.calls[d].phase).Some?
      ensures var id := OrderOf(after.calls[d].phase).value;
              id in after.store && after.store[id] == Row(after.calls[d].key, Pending)
    {
      assert d in w.calls && after.calls[d] == w.calls[d];
      if a.c in w.calls && d != a.c {
        assert OrderOf(w.calls[d].phase) != OrderOf(w.calls[a.c].phase);
      }
    }
  }

  lemma {:induction false} QuietStepKeepsPending(w: World, a: Action)
    requires UnrecordedPending(w) && !a.Insert? && !a.Record? && !a.OtherUpsert?
    ensures UnrecordedPending(Step(w, a))
  {
    QuietStepKeepsRows(w, a);
    var after := Step(w, a);
    forall d | d in after.calls && !after.calls[d].phase.Ended? && OrderOf(after.calls[d].phase).Some?
      ensures var id := OrderOf(after.calls[d].phase).value;
              id in after.store && after.store[id] == Row(after.calls[d].key, Pending)
    {
      QuietStepKeepsOrders(w, a, d);
    }
  }

  lemma {:induction false} QuietStepKeepsOrders(w: World, a: Action, d: CallId)
    requires !a.Insert? && !a.Record? && d in Step(w, a).calls
    requires !Step(w, a).calls[d].phase.Ended? && OrderOf(Step(w, a).calls[d].phase).Some?
    ensures d in w.calls && !w.calls[d].phase.Ended? && Step(w, a).calls[d].key == w.calls[d].key
    ensures OrderOf(w.calls[d].phase) == OrderOf(Step(w, a).calls[d].phase)
  {
  }

  /** Without other writers an order stays PENDING from its insert to the record of its answer. */
  lemma {:induction false} UnrecordedIsPending(locking: bool, actions: seq<Action>, n: nat)
    requires n <= |actions| && forall k :: 0 <= k < |actions| ==> !actions[k].OtherUpsert?
    ensures UnrecordedPending(Run(locking, actions, n))
  {
    if n > 0 {
      UnrecordedIsPending(locking, actions, n - 1);
      RunIsSafe(locking, actions, n - 1);
      var w, a := Run(locking, actions, n - 1), actions[n - 1];
      if a.Insert? {
        InsertKeepsPending(w, a);
      } else if a.Record? {
        RecordKeepsPending(w, a);
      } else {
        QuietStepKeepsPending(w, a);
      }
    }
  }

  /** The call is inside the lock of this name. */
  predicate Inside(w: World, c: CallId, name: LockName) {
    c in w.calls && NameOf(w.calls[c]) == name && Critical(w.calls[c].phase)
  }

  /** Every held lock is held by a call that is still inside. */
  ghost predicate LocksAreLive(w: World) {
    forall name :: name in w.locks ==> Inside(w, w.locks[name], name)
  }

  lemma {:induction false} EntryKeepsLive(w: World, a: Action)
    requires LocksAreLive(w) && (a.Begin? || a.Acquire? || a.Guard? || a.Gate?)
    ensures LocksAreLive(Step(w, a))
  {
  }

  lemma {:induction false} InsertKeepsLive(w: World, a: Action)
    requires LocksAreLive(w) && (a.Insert? || a.OtherUpsert?)
    ensures LocksAreLive(Step(w, a))
  {
  }

  lemma {:induction false} BrokerKeepsLive(w: World, a: Action)
    requires LocksAreLive(w) && (a.Login? || a.Submit? || a.Answer?)
    ensures LocksAreLive(Step(w, a))
  {
  }

  lemma {:induction false} EndKeepsLive(w: World, a: Action)
    requires LocksAreLive(w) && (a.Record? || a.Die?)
    ensures LocksAreLive(Step(w, a))
  {
  }

  /** However calls end, a lock is held exactly while some call of its engine and key is inside. */
  lemma {:induction false} LockIsHeldIff(actions: seq<Action>, n: nat, name: LockName)
    requires n <= |actions|
    ensures name in Run(true, actions, n).locks <==> exists c :: Inside(Run(true, actions, n), c, name)
  {
    LocksStayLive(actions, n);
    RunIsSafe(true, actions, n);
    LockingIsFixed(true, actions, n);
    var w := Run(true, actions, n);
    if name in w.locks {
      assert Inside(w, w.locks[name], name);
    }
  }

  lemma {:induction false} LocksStayLive(actions: seq<Action>, n: nat)
    requires n <= |actions|
    ensures LocksAreLive(Run(true, actions, n))
  {
    if n > 0 {
      LocksStayLive(actions, n - 1);
      var w, a := Run(true, actions, n - 1), actions[n - 1];
      if a.Begin? || a.Acquire? || a.Guard? || a.Gate? {
        EntryKeepsLive(w, a);
      } else if a.Insert? || a.OtherUpsert? {
        InsertKeepsLive(w, a);
      } else if a.Record? || a.Die? {
        EndKeepsLive(w, a);
      } else {
        BrokerKeepsLive(w, a);
      }
    }
  }

  // ---- A signal nobody has acted on goes through --------------------------

  function Checked(w: World, c: CallId, key: Key, engine: nat): World {
    Step(Step(Step(Step(w, Begin(c, key, engine, true)), Acquire(c)), Guard(c, true)), Gate(c, true))
  }

  function SentOff(w: World, c: CallId, id: OrderId): World {
    Step(Step(Step(w, Insert(c, id, Up)), Login(c, true)), Submit(c))
  }

  function Answered(w: World, c: CallId, answer: BrokerReply): World {
    Step(Step(w, Answer(c, answer)), Record(c, Up))
  }

  lemma {:induction false} ChecksPass(w: World, c: CallId, key: Key, engine: nat)
    requires c !in w.calls && !Taken(w.store, key) && LockName(engine, key) !in w.locks
    ensures var checked := Checked(w, c, key, engine);
            && checked.store == w.store && checked.log == w.log
            && c in checked.calls && checked.calls[c] == Call(key, engine, Inserting)
            && checked.locks == if w.locking then w.locks[LockName(engine, key) := c] else w.locks
  {
    assert !ActedOn(w.store, key);
  }

  lemma {:induction false} SubmissionPasses(w: World, c: CallId, id: OrderId)
    requires At(w, c, Inserting) && !Collides(w, c, id)
    ensures var sent, key := SentOff(w, c, id), w.calls[c].key;
            && sent.store == w.store[id := Row(key, Pending)]
            && sent.log == w.log + [Inserted(id, key), Placed(id, key)]
            && c in sent.calls && sent.calls[c] == w.calls[c].(phase := Sent(id)) && sent.locks == w.locks
  {
  }

  /** A recorded answer is in the row and in the outcome, and the call lets go of its lock. */
  lemma {:induction false} AnswerIsRecorded(w: World, c: CallId, id: OrderId)
    requires At(w, c, Sent(id)) && id in w.store && w.store[id].key == w.calls[c].key
    ensures var taken, key := Answered(w, c, TakenOn), w.calls[c].key;
            At(taken, c, Ended(Accepted(id))) && taken.store == w.store[id := Row(key, Open)]
    ensures var refused, key := Answered(w, c, TurnedDown), w.calls[c].key;
            At(refused, c, Ended(RefusedByBroker(id))) && refused.store == w.store[id := Row(key, Rejected)]
    ensures forall answer | answer != Unexpected :: Answered(w, c, answer).log == w.log
    ensures forall answer | answer != Unexpected && NameOf(w.calls[c]) in w.locks && w.locks[NameOf(w.calls[c])] == c ::
              Answered(w, c, answer).locks == w.locks - {NameOf(w.calls[c])}
    ensures forall answer | answer != Unexpected && NameOf(w.calls[c]) !in w.locks ::
              Answered(w, c, answer).locks == w.locks
  {
  }

  /**
   A signal nobody has acted on, whose lock is free, goes through whenever nothing outside fails:
   one new OPEN row, one insert and one broker call, an accepted outcome and the lock free again.
   */
  lemma {:induction false} NewSignalGoesThrough(w: World, c: CallId, key: Key, engine: nat, id: OrderId)
    requires c !in w.calls && !Taken(w.store, key) && id !in w.store && LockName(engine, key) !in w.locks
    ensures var after := Answered(SentOff(Checked(w, c, key, engine), c, id), c, TakenOn);
            && At(after, c, Ended(Accepted(id)))
            && after.store == w.store[id := Row(key, Open)]
            && after.log == w.log + [Inserted(id, key), Placed(id, key)]
            && after.locks == w.locks
  {
    ChecksPass(w, c, key, engine);
    SubmissionPasses(Checked(w, c, key, engine), c, id);
    AnswerIsRecorded(SentOff(Checked(w, c, key, engine), c, id), c, id);
  }

  // ---- The idempotency key ------------------------------------------------

  datatype Side = Buy | Sell

  function SideText(s: Side): string {
    if s == Buy then "BUY" else "SELL"
  }

  /** The signal id: upper-cased symbol, ISO date of ten characters and side. */
  function SignalKey(symbol: string, date: string, side: Side): string {
    symbol + "|" + date + "|" + SideText(side)
  }

  /** No two signals share an id, whatever characters a symbol contains. */
  lemma {:induction false} SignalKeyIsInjective(s: string, d: string, a: Side, t: string, e: string, b: Side)
    requires |d| == |e| == 10 && SignalKey(s, d, a) == SignalKey(t, e, b)
    ensures s == t && d == e && a == b
  {
    var x, y := SignalKey(s, d, a), SignalKey(t, e, b);
    assert x[|x| - 1] == SideText(a)[|SideText(a)| - 1] && y[|y| - 1] == SideText(b)[|SideText(b)| - 1];
    assert |s| == |t|;
    assert s == x[..|s|] == y[..|t|] == t;
    assert d == x[|s| + 1..|s| + 11] == y[|t| + 1..|t| + 11] == e;
  }
}
