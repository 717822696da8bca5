/**
 The paper account under concurrent writers. Every writer reads the whole account document and
 later writes the whole document back: entries and exits under one lock, daily resets, pauses,
 resumes and marks to market outside it. Reads and writes of any number of writers interleave
 freely here, which covers the lock, and a write of the account may fail or lose its reply after
 the position or the trade row is already stored.
 */
module PaperWriters {
  import opened Wrappers
  import opened Rounding
  import opened PaperLedger

  type WriterId = nat

  /** An account document, and how many trade rows it knew at the reset its figures count from. */
  datatype Copy = Copy(account: Account, since: nat)

  datatype Reply = Up | Down | ReplyLost

  datatype Event =
    | Read(writer: WriterId)
    | Write(writer: WriterId, action: Action, reply: Reply)

  /** The stored account, the copies writers hold, and the rows and the book they share. */
  datatype Desk = Desk(
    stored: Copy,
    copies: map<WriterId, Copy>,
    entries: seq<Position>,
    book: set<nat>,
    trades: seq<int>,
    resetAt: nat)

  /** The desk as the holder of one copy sees it. */
  function Seen(d: Desk, x: Copy): World {
    World(x.account, d.entries, d.book, d.trades, x.since)
  }

  predicate AddsRow(e: Engine, w: World, a: Action) {
    match a
    case Open(trigger, side, allocation, held, today) =>
      Admitted(e, w, held, today) && Sized(e, w, trigger, side, allocation).quantity > 0
    case Close(id, _) => id < |w.entries|
    case _ => false
  }

  /** A refused entry and an exit of an unknown position write nothing. */
  predicate Acts(e: Engine, w: World, a: Action) {
    (a.Open? || a.Close?) ==> AddsRow(e, w, a)
  }

  /**
   A writer applies its action to the copy it holds. The position or the trade row is stored
   before the account; an exit leaves the book only once the account write has returned.
   */
  function Written(e: Engine, d: Desk, c: WriterId, a: Action, reply: Reply): Desk
    requires c in d.copies
  {
    var before := Seen(d, d.copies[c]);
    if !Acts(e, before, a) then d.(copies := d.copies - {c}) else
    var after := Step(e, before, a);
    Desk(if reply.Down? then d.stored else Copy(after.account, after.resetAt),
         d.copies - {c},
         after.entries,
         if a.Close? && !reply.Up? then d.book else after.book,
         after.trades,
         if a.Reset? && !reply.Down? then |d.trades| else d.resetAt)
  }

  function Handled(e: Engine, d: Desk, ev: Event): Desk {
    match ev
    case Read(c) => d.(copies := d.copies[c := d.stored])
    case Write(c, a, reply) => if c in d.copies then Written(e, d, c, a, reply) else d
  }

  function Run(e: Engine, starting: int, evs: seq<Event>, n: nat): Desk
    requires n <= |evs|
  {
    if n == 0 then Desk(Copy(NewAccount(starting), 0), map[], [], {}, [], 0)
    else Handled(e, Run(e, starting, evs, n - 1), evs[n - 1])
  }

  /** The stored account is what entries, book, trade rows and the last reset say it is. */
  ghost predicate Balanced(d: Desk) {
    Conserved(Seen(d, Copy(d.stored.account, d.resetAt)))
  }

  // ---- Which accounts have missed nothing ---------------------------------

  /** The event adds an entry or a trade row. */
  predicate RowAt(e: Engine, starting: int, evs: seq<Event>, m: nat)
    requires m < |evs|
  {
    var d, ev := Run(e, starting, evs, m), evs[m];
    ev.Write? && ev.writer in d.copies && AddsRow(e, Seen(d, d.copies[ev.writer]), ev.action)
  }

  /** The event writes the account, or tries to. */
  predicate WritesAt(e: Engine, starting: int, evs: seq<Event>, m: nat)
    requires m < |evs|
  {
    var d, ev := Run(e, starting, evs, m), evs[m];
    ev.Write? && ev.writer in d.copies && Acts(e, Seen(d, d.copies[ev.writer]), ev.action)
  }

  /** An exit of a position that the book no longer holds, or keeps because the reply was lost. */
  predicate SpoiltAt(e: Engine, starting: int, evs: seq<Event>, m: nat)
    requires m < |evs|
  {
    var ev := evs[m];
    ev.Write? && ev.action.Close? && (ev.action.id !in Run(e, starting, evs, m).book || !ev.reply.Up?)
  }

  /**
   Every entry and trade row of the first `n` events has gone into the stored account: each
   write that counted was made from a copy that had missed none, no account write failed over a
   row already stored, and no position was closed twice.
   */
  ghost predicate StoredIsWhole(e: Engine, starting: int, evs: seq<Event>, n: nat)
    requires n <= |evs|
    decreases n
  {
    n == 0 ||
    if !WritesAt(e, starting, evs, n - 1) then StoredIsWhole(e, starting, evs, n - 1)
    else if evs[n - 1].reply.Down? then StoredIsWhole(e, starting, evs, n - 1) && !RowAt(e, starting, evs, n - 1)
    else CopyIsWhole(e, starting, evs, n - 1, evs[n - 1].writer) && !SpoiltAt(e, starting, evs, n - 1)
  }

  /** The writer read an account that was whole, and no row was added since. */
  ghost predicate CopyIsWhole(e: Engine, starting: int, evs: seq<Event>, n: nat, c: WriterId)
    requires n <= |evs|
    decreases n
  {
    n > 0 &&
    if evs[n - 1] == Read(c) then StoredIsWhole(e, starting, evs, n - 1)
    else CopyIsWhole(e, starting, evs, n - 1, c) && !RowAt(e, starting, evs, n - 1)
  }

  // ---- The invariant ------------------------------------------------------

  ghost predicate Stands(d: Desk, x: Copy, whole: bool) {
    if whole then Conserved(Seen(d, x)) else Behind(Seen(d, x))
  }

  /** A copy that did not write: it has missed the row, if one was added. */
  lemma {:induction false} OthersStand(e: Engine, d: Desk, c: WriterId, a: Action, reply: Reply, z: Copy, whole: bool)
    requires c in d.copies && WellFormed(Seen(d, z)) && Stands(d, z, whole)
    ensures var d', row := Written(e, d, c, a, reply), AddsRow(e, Seen(d, d.copies[c]), a);
            WellFormed(Seen(d', z)) && Stands(d', z, whole && !row)
  {
    if AddsRow(e, Seen(d, d.copies[c]), a) && a.Open? {
      MissedEntry(e, d, c, a, reply, z);
    }
  }

  lemma {:induction false} MissedEntry(e: Engine, d: Desk, c: WriterId, a: Action, reply: Reply, z: Copy)
    requires c in d.copies && WellFormed(Seen(d, z)) && a.Open? && AddsRow(e, Seen(d, d.copies[c]), a)
    ensures var d' := Written(e, d, c, a, reply);
            && WellFormed(Seen(d', z)) && d'.trades == d.trades
            && Excess(Seen(d', z)) > Excess(Seen(d, z))
  {
    var p := Sized(e, Seen(d, d.copies[c]), a.trigger, a.side, a.allocation);
    var id := |d.entries|;
    LockedIgnoresTheRest(d.entries, [p], d.book, d.book + {id}, id);
    assert (d.entries + [p])[id] == p;
    CapitalIsPositive(p);
  }

  /** The copy that wrote. */
  lemma {:induction false} WriterStands(e: Engine, d: Desk, c: WriterId, a: Action, reply: Reply, whole: bool)
    requires c in d.copies && WellFormed(Seen(d, d.copies[c])) && Stands(d, d.copies[c], whole)
    requires Acts(e, Seen(d, d.copies[c]), a) && !reply.Down?
    ensures var d' := Written(e, d, c, a, reply);
            Stands(d', d'.stored, whole && !(a.Close? && (a.id !in d.book || !reply.Up?)))
  {
    var w := Seen(d, d.copies[c]);
    StepExcess(e, w, a);
    if whole {
      if ClosesAgain(w, a) {
        SecondCloseIsBehind(e, w, a);
      } else {
        StepConserves(e, w, a);
      }
    } else {
      StepStaysBehind(e, w, a);
    }
    if a.Close? && !reply.Up? {
      KeptInTheBook(e, w, a.id, a.reference);
    }
  }

  /** An exit whose position stays in the book counts the entry capital as free and as locked. */
  lemma {:induction false} KeptInTheBook(e: Engine, w: World, id: nat, reference: real)
    requires WellFormed(w) && id < |w.entries|
    ensures Excess(StepClose(e, w, id, reference).(book := w.book)) == Excess(w) + CapitalOf(w.entries[id])
    ensures CapitalOf(w.entries[id]) > 0
  {
    CapitalIsPositive(w.entries[id]);
  }

  ghost predicate AllStand(e: Engine, starting: int, evs: seq<Event>, n: nat)
    requires n <= |evs|
  {
    var d := Run(e, starting, evs, n);
    && WellFormed(Seen(d, d.stored)) && Stands(d, d.stored, StoredIsWhole(e, starting, evs, n))
    && forall c :: c in d.copies ==> Stands(d, d.copies[c], CopyIsWhole(e, starting, evs, n, c))
  }

  lemma {:induction false} RunStands(e: Engine, starting: int, evs: seq<Event>, n: nat)
    requires n <= |evs|
    ensures AllStand(e, starting, evs, n)
  {
    if n > 0 {
      RunStands(e, starting, evs, n - 1);
      EventStands(e, starting, evs, n);
    }
  }

  lemma {:induction false} EventStands(e: Engine, starting: int, evs: seq<Event>, n: nat)
    requires 0 < n <= |evs| && AllStand(e, starting, evs, n - 1)
    ensures AllStand(e, starting, evs, n)
  {
    var d, ev := Run(e, starting, evs, n - 1), evs[n - 1];
    if ev.Write? && ev.writer in d.copies {
      var c := ev.writer;
      OthersStand(e, d, c, ev.action, ev.reply, d.stored, StoredIsWhole(e, starting, evs, n - 1));
      if Acts(e, Seen(d, d.copies[c]), ev.action) && !ev.reply.Down? {
        WriterStands(e, d, c, ev.action, ev.reply, CopyIsWhole(e, starting, evs, n - 1, c));
      }
      forall t | t in d.copies && t != c
        ensures Stands(Run(e, starting, evs, n), d.copies[t], CopyIsWhole(e, starting, evs, n, t))
      {
        OthersStand(e, d, c, ev.action, ev.reply, d.copies[t], CopyIsWhole(e, starting, evs, n - 1, t));
      }
    }
  }

  // ---- Exactly which runs conserve ----------------------------------------

  /** Two resets leave the same per-day figures. */
  ghost predicate SameFigures(trades: seq<int>, r: nat, s: nat) {
    && r <= |trades| && s <= |trades|
    && Sum(trades[..r]) == Sum(trades[..s]) && LosingRun(trades, r) == LosingRun(trades, s)
  }

  /**
   For every interleaving of writers, with failing account writes: free and locked money add up
   and every counter is that of the trade rows exactly when the stored account has missed no
   entry and no trade row, and the last reset it knows gives the figures of the last reset.
   */
  lemma {:induction false} LedgerIsConservedIff(e: Engine, starting: int, evs: seq<Event>, n: nat)
    requires n <= |evs|
    ensures var d := Run(e, starting, evs, n);
            (Balanced(d) <==> StoredIsWhole(e, starting, evs, n) && SameFigures(d.trades, d.stored.since, d.resetAt))
  {
    RunStands(e, starting, evs, n);
    var d := Run(e, starting, evs, n);
    if !StoredIsWhole(e, starting, evs, n) {
      BehindIsNotConserved(Seen(d, Copy(d.stored.account, d.resetAt)));
    }
  }

  // ---- One writer at a time -----------------------------------------------

  predicate DirectAt(evs: seq<Event>, m: nat)
    requires m < |evs|
  {
    evs[m].Write? ==> m > 0 && evs[m - 1] == Read(evs[m].writer) && evs[m].reply.Up?
  }

  /** Each write directly follows its own read, and succeeds. */
  ghost predicate OneAtATime(evs: seq<Event>, n: nat)
    requires n <= |evs|
  {
    forall m :: 0 <= m < n ==> DirectAt(evs, m)
  }

  predicate SecondCloseAt(e: Engine, starting: int, evs: seq<Event>, m: nat)
    requires m < |evs|
  {
    WritesAt(e, starting, evs, m) && evs[m].action.Close? && evs[m].action.id !in Run(e, starting, evs, m).book
  }

  ghost predicate ClosesHeldPositions(e: Engine, starting: int, evs: seq<Event>, n: nat)
    requires n <= |evs|
  {
    forall m :: 0 <= m < n ==> !SecondCloseAt(e, starting, evs, m)
  }

  /** Writers that never overlap conserve the ledger exactly when no position is closed twice. */
  lemma {:induction false} OneAtATimeConservesIff(e: Engine, starting: int, evs: seq<Event>, n: nat)
    requires n <= |evs| && OneAtATime(evs, n)
    ensures Balanced(Run(e, starting, evs, n)) <==> ClosesHeldPositions(e, starting, evs, n)
  {
    WholeOneAtATime(e, starting, evs, n);
    LedgerIsConservedIff(e, starting, evs, n);
    RunStands(e, starting, evs, n);
  }

  lemma {:induction false} WholeOneAtATime(e: Engine, starting: int, evs: seq<Event>, n: nat)
    requires n <= |evs| && OneAtATime(evs, n)
    ensures StoredIsWhole(e, starting, evs, n) <==> ClosesHeldPositions(e, starting, evs, n)
    ensures Run(e, starting, evs, n).stored.since == Run(e, starting, evs, n).resetAt
  {
    if n > 0 {
      WholeOneAtATime(e, starting, evs, n - 1);
      HeldSoFar(e, starting, evs, n);
      assert DirectAt(evs, n - 1);
      if evs[n - 1].Write? {
        JustRead(e, starting, evs, n - 1, evs[n - 1].writer);
      }
    }
  }

  lemma {:induction false} HeldSoFar(e: Engine, starting: int, evs: seq<Event>, n: nat)
    requires 0 < n <= |evs|
    ensures (ClosesHeldPositions(e, starting, evs, n)
             <==> ClosesHeldPositions(e, starting, evs, n - 1) && !SecondCloseAt(e, starting, evs, n - 1))
  {
  }

  lemma {:induction false} JustRead(e: Engine, starting: int, evs: seq<Event>, n: nat, c: WriterId)
    requires 0 < n <= |evs| && evs[n - 1] == Read(c)
    ensures var d := Run(e, starting, evs, n);
            c in d.copies && d.copies[c] == d.stored
    ensures CopyIsWhole(e, starting, evs, n, c) <==> StoredIsWhole(e, starting, evs, n)
  {
  }

  // ---- Overlapping writers ------------------------------------------------

  /** The event resets the stored account. */
  predicate ResetAt(e: Engine, starting: int, evs: seq<Event>, m: nat)
    requires m < |evs|
  {
    WritesAt(e, starting, evs, m) && evs[m].action.Reset? && !evs[m].reply.Down?
  }

  /** No row was added and no reset written since the writer last read the account. */
  ghost predicate IsCurrent(e: Engine, starting: int, evs: seq<Event>, n: nat, c: WriterId)
    requires n <= |evs|
  {
    n > 0 &&
    (evs[n - 1] == Read(c)
     || (IsCurrent(e, starting, evs, n - 1, c) && !RowAt(e, starting, evs, n - 1) && !ResetAt(e, starting, evs, n - 1)))
  }

  predicate FailsAt(e: Engine, starting: int, evs: seq<Event>, m: nat)
    requires m < |evs|
  {
    RowAt(e, starting, evs, m) && (evs[m].reply.Down? || SpoiltAt(e, starting, evs, m))
  }

  ghost predicate InOrderAt(e: Engine, starting: int, evs: seq<Event>, m: nat)
    requires m < |evs|
  {
    WritesAt(e, starting, evs, m) ==> IsCurrent(e, starting, evs, m, evs[m].writer) && !FailsAt(e, starting, evs, m)
  }

  /** Every write is made from a current copy, no account write fails over a stored row, no position is closed twice. */
  ghost predicate InOrder(e: Engine, starting: int, evs: seq<Event>, n: nat)
    requires n <= |evs|
  {
    forall m :: 0 <= m < n ==> InOrderAt(e, starting, evs, m)
  }

  /** Overlapping writers conserve the ledger while none of them writes a copy that has missed a row or a reset. */
  lemma {:induction false} LedgerIsConserved(e: Engine, starting: int, evs: seq<Event>, n: nat)
    requires n <= |evs| && InOrder(e, starting, evs, n)
    ensures Balanced(Run(e, starting, evs, n))
  {
    CurrentIsWhole(e, starting, evs, n, 0);
    LedgerIsConservedIff(e, starting, evs, n);
    RunStands(e, starting, evs, n);
  }

  lemma {:induction false} CurrentIsWhole(e: Engine, starting: int, evs: seq<Event>, n: nat, c: WriterId)
    requires n <= |evs| && InOrder(e, starting, evs, n)
    ensures var d := Run(e, starting, evs, n);
            && StoredIsWhole(e, starting, evs, n) && d.stored.since == d.resetAt
            && (IsCurrent(e, starting, evs, n, c) && c in d.copies ==>
                  CopyIsWhole(e, starting, evs, n, c) && d.copies[c].since == d.resetAt)
  {
    if n > 0 {
      CurrentIsWhole(e, starting, evs, n - 1, c);
      assert InOrderAt(e, starting, evs, n - 1);
      if evs[n - 1].Write? {
        CurrentIsWhole(e, starting, evs, n - 1, evs[n - 1].writer);
      }
    }
  }

  // ---- Late writes --------------------------------------------------------

  ghost predicate NoRows(e: Engine, starting: int, evs: seq<Event>, k: nat, n: nat)
    requires n <= |evs|
  {
    forall m :: k <= m < n ==> !RowAt(e, starting, evs, m)
  }

  ghost predicate NoResets(e: Engine, starting: int, evs: seq<Event>, k: nat, n: nat)
    requires n <= |evs|
  {
    forall m :: k <= m < n ==> !ResetAt(e, starting, evs, m)
  }

  predicate OtherWriter(evs: seq<Event>, m: nat, c: WriterId)
    requires m < |evs|
  {
    evs[m].writer != c
  }

  /** The writer reads at `k` and does nothing else before `n`. */
  ghost predicate HoldsFrom(evs: seq<Event>, k: nat, n: nat, c: WriterId)
    requires k < n <= |evs|
  {
    evs[k] == Read(c) && forall m :: k < m < n ==> OtherWriter(evs, m, c)
  }

  /** What the writer holds, whether it is whole, and what happened to rows and resets meanwhile. */
  lemma {:induction false} Meanwhile(e: Engine, starting: int, evs: seq<Event>, k: nat, n: nat, c: WriterId)
    requires k < n <= |evs| && HoldsFrom(evs, k, n, c)
    ensures var read, now := Run(e, starting, evs, k), Run(e, starting, evs, n);
            && c in now.copies && now.copies[c] == read.stored
            && (CopyIsWhole(e, starting, evs, n, c)
                <==> StoredIsWhole(e, starting, evs, k) && NoRows(e, starting, evs, k, n))
            && (NoRows(e, starting, evs, k, n) ==>
                  && now.trades == read.trades
                  && now.resetAt == if NoResets(e, starting, evs, k, n) then read.resetAt else |read.trades|)
  {
    if n == k + 1 {
      assert NoRows(e, starting, evs, k, n) && NoResets(e, starting, evs, k, n) by {
        assert !RowAt(e, starting, evs, k) && !ResetAt(e, starting, evs, k);
      }
    } else {
      Meanwhile(e, starting, evs, k, n - 1, c);
      NothingSoFar(e, starting, evs, k, n);
      assert OtherWriter(evs, n - 1, c);
      EventOfAnother(e, starting, evs, n, c);
    }
  }

  lemma {:induction false} EventOfAnother(e: Engine, starting: int, evs: seq<Event>, n: nat, c: WriterId)
    requires 0 < n <= |evs| && evs[n - 1].writer != c && c in Run(e, starting, evs, n - 1).copies
    ensures var d, d' := Run(e, starting, evs, n - 1), Run(e, starting, evs, n);
            && c in d'.copies && d'.copies[c] == d.copies[c]
            && (CopyIsWhole(e, starting, evs, n, c)
                <==> CopyIsWhole(e, starting, evs, n - 1, c) && !RowAt(e, starting, evs, n - 1))
            && (!RowAt(e, starting, evs, n - 1) ==>
                  && d'.trades == d.trades
                  && d'.resetAt == if ResetAt(e, starting, evs, n - 1) then |d.trades| else d.resetAt)
  {
  }

  lemma {:induction false} NothingSoFar(e: Engine, starting: int, evs: seq<Event>, k: nat, n: nat)
    requires k < n <= |evs|
    ensures NoRows(e, starting, evs, k, n) <==> NoRows(e, starting, evs, k, n - 1) && !RowAt(e, starting, evs, n - 1)
    ensures NoResets(e, starting, evs, k, n) <==> NoResets(e, starting, evs, k, n - 1) && !ResetAt(e, starting, evs, n - 1)
  {
  }

  /**
   A pause, resume, mark or reset that reads a balanced account at `k` and writes it back at `n`,
   whatever other writers do in between: the account is balanced afterwards exactly when no entry
   and no trade row was added meanwhile and, unless it is itself a reset, it undoes no reset of
   figures that were not zero.
   */
  lemma {:induction false} LateWriteConservesIff(e: Engine, starting: int, evs: seq<Event>, k: nat, n: nat)
    requires k < n < |evs| && evs[n].Write? && HoldsFrom(evs, k, n, evs[n].writer)
    requires !evs[n].action.Open? && !evs[n].action.Close? && !evs[n].reply.Down?
    requires Balanced(Run(e, starting, evs, k))
    ensures var read := Run(e, starting, evs, k).stored.account;
            (Balanced(Run(e, starting, evs, n + 1))
             <==> && NoRows(e, starting, evs, k, n)
                  && (|| evs[n].action.Reset? || NoResets(e, starting, evs, k, n)
                      || (read.daily == 0 && read.consecutiveLosses == 0)))
  {
    Meanwhile(e, starting, evs, k, n, evs[n].writer);
    LedgerIsConservedIff(e, starting, evs, k);
    LedgerIsConservedIff(e, starting, evs, n + 1);
    RunStands(e, starting, evs, k);
    LateWrite(e, starting, evs, n);
    var read := Run(e, starting, evs, k);
    assert read.trades[..|read.trades|] == read.trades;
  }

  lemma {:induction false} LateWrite(e: Engine, starting: int, evs: seq<Event>, n: nat)
    requires n < |evs| && evs[n].Write? && evs[n].writer in Run(e, starting, evs, n).copies
    requires !evs[n].action.Open? && !evs[n].action.Close? && !evs[n].reply.Down?
    ensures var d, after := Run(e, starting, evs, n), Run(e, starting, evs, n + 1);
            && after.trades == d.trades
            && after.stored.since == (if evs[n].action.Reset? then |d.trades| else d.copies[evs[n].writer].since)
            && after.resetAt == (if evs[n].action.Reset? then |d.trades| else d.resetAt)
            && (StoredIsWhole(e, starting, evs, n + 1) <==> CopyIsWhole(e, starting, evs, n, evs[n].writer))
  {
  }

  // ---- Rows that are missed for good --------------------------------------

  ghost predicate NothingIsWhole(e: Engine, starting: int, evs: seq<Event>, n: nat)
    requires n <= |evs|
  {
    !StoredIsWhole(e, starting, evs, n) && forall c: WriterId :: !CopyIsWhole(e, starting, evs, n, c)
  }

  /**
   An entry or exit whose account write fails after its row is stored, and a second close, are
   never made up for: the account is not balanced at any later time.
   */
  lemma {:induction false} FailedRowIsForever(e: Engine, starting: int, evs: seq<Event>, m: nat, n: nat)
    requires m < n <= |evs| && FailsAt(e, starting, evs, m)
    ensures !Balanced(Run(e, starting, evs, n))
  {
    NeverWholeAgain(e, starting, evs, m, n);
    LedgerIsConservedIff(e, starting, evs, n);
  }

  lemma {:induction false} NeverWholeAgain(e: Engine, starting: int, evs: seq<Event>, m: nat, n: nat)
    requires m < n <= |evs| && FailsAt(e, starting, evs, m)
    ensures NothingIsWhole(e, starting, evs, n)
  {
    if n > m + 1 {
      NeverWholeAgain(e, starting, evs, m, n - 1);
    }
  }

  // ---- Concrete runs ------------------------------------------------------

  /** The default settings, in units of 1/10000 rupee. */
  const DEFAULTS := Engine(0.05, 200_000.0, 1_000_000_000, Limits(5, 10, 2.0, 3, 20.0))
  const DEFAULT_CAPITAL := 10_000_000_000

  /** With them a first LONG entry at Rs 100 is admitted and takes Rs 99,949.95. */
  lemma {:induction false} FirstEntry()
    ensures var w, entry := World(NewAccount(DEFAULT_CAPITAL), [], {}, [], 0), Open(1_000_000.0, Long, None, false, 0);
            && AddsRow(DEFAULTS, w, entry)
            && Step(DEFAULTS, w, entry).entries == [Position(Long, 999, 1_000_500)]
            && Step(DEFAULTS, w, entry).account.used == 999_499_500
  {
    var w := World(NewAccount(DEFAULT_CAPITAL), [], {}, [], 0);
    assert Raised(1_000_000.0, 0.05) == 1_000_500.0;
    assert EntryPrice(1_000_000.0, 0.05, Long) == 1_000_500;
    assert !DailyLossReached(DEFAULTS.limits, w.account);
    assert Admitted(DEFAULTS, w, false, 0);
  }

  lemma {:induction false} RunNext(e: Engine, starting: int, evs: seq<Event>, n: nat)
    requires n < |evs|
    ensures Run(e, starting, evs, n + 1) == Handled(e, Run(e, starting, evs, n), evs[n])
  {
  }

  /**
   A pause, resume, mark or reset that reads the new account before a first entry and writes after it
   frees the capital the open position holds, whatever the settings and the prices.
   */
  lemma {:induction false} LateWriteLosesAnEntry(e: Engine, starting: int, opening: Action, late: Action, evs: seq<Event>)
    requires opening.Open? && AddsRow(e, World(NewAccount(starting), [], {}, [], 0), opening)
    requires !late.Open? && !late.Close?
    requires evs == [Read(0), Read(1), Write(1, opening, Up), Write(0, late, Up)]
    ensures var before, after := Run(e, starting, evs, 3), Run(e, starting, evs, 4);
            && |after.entries| == 1 && after.book == {0}
            && Balanced(before) && before.stored.account.used == CapitalOf(after.entries[0]) > 0
            && after.stored.account.used == 0 && after.stored.account.available == starting && !Balanced(after)
  {
    var d2, d3 := Run(e, starting, evs, 2), Run(e, starting, evs, 3);
    RunNext(e, starting, evs, 0);
    RunNext(e, starting, evs, 1);
    RunNext(e, starting, evs, 2);
    RunNext(e, starting, evs, 3);
    EntryOverCopy(e, d2, opening);
    LateOverEntry(e, d3, late);
  }

  /** A first entry while another writer holds the new account. */
  lemma {:induction false} EntryOverCopy(e: Engine, d: Desk, opening: Action)
    requires d.entries == [] && d.book == {} && d.trades == [] && d.resetAt == 0
    requires d.stored == Copy(NewAccount(d.stored.account.starting), 0)
    requires 0 in d.copies && 1 in d.copies && d.copies[0] == d.copies[1] == d.stored
    requires opening.Open? && AddsRow(e, Seen(d, d.stored), opening)
    ensures var after := Written(e, d, 1, opening, Up);
            && 0 in after.copies && after.copies[0] == d.stored
            && |after.entries| == 1 && after.book == {0} && after.trades == [] && Balanced(after)
            && after.stored.account.used == CapitalOf(after.entries[0]) > 0
            && Behind(Seen(after, d.stored))
  {
    FirstIsBalanced(e, d);
    OpenConserves(e, Seen(d, d.stored), opening.trigger, opening.side, opening.allocation,
                  opening.heldForSymbol, opening.tradesToday);
    MissedEntry(e, d, 1, opening, Up, d.stored);
    var after := Written(e, d, 1, opening, Up);
    assert after.book == {0};
    CapitalIsPositive(after.entries[0]);
  }

  lemma {:induction false} LateOverEntry(e: Engine, d: Desk, late: Action)
    requires !late.Open? && !late.Close? && 0 in d.copies && WellFormed(Seen(d, d.copies[0]))
    requires d.copies[0] == Copy(NewAccount(d.copies[0].account.starting), 0) && Behind(Seen(d, d.copies[0]))
    ensures var after := Written(e, d, 0, late, Up);
            && after.entries == d.entries && after.book == d.book && !Balanced(after)
            && after.stored.account.used == 0 && after.stored.account.available == d.copies[0].account.starting
  {
    WriterStands(e, d, 0, late, Up, false);
    var after := Written(e, d, 0, late, Up);
    BehindIsNotConserved(Seen(after, Copy(after.stored.account, after.resetAt)));
  }

  lemma {:induction false} FirstIsBalanced(e: Engine, d: Desk)
    requires d.entries == [] && d.book == {} && d.trades == []
    requires d.stored == Copy(NewAccount(d.stored.account.starting), 0)
    ensures Conserved(Seen(d, d.stored)) && WellFormed(Seen(d, d.stored))
  {
  }

  /** Two exits of the first position: the account ends with its entry capital too much, whatever the prices. */
  lemma {:induction false} SecondCloseCreditsAgain(e: Engine, starting: int, opening: Action, first: real, second: real,
                                                   evs: seq<Event>)
    requires opening.Open? && AddsRow(e, World(NewAccount(starting), [], {}, [], 0), opening)
    requires evs == [Read(0), Write(0, opening, Up), Read(0), Write(0, Close(0, first), Up),
                     Read(0), Write(0, Close(0, second), Up)]
    ensures var closed, again := Run(e, starting, evs, 4), Run(e, starting, evs, 6);
            && Balanced(closed) && !Balanced(again) && |again.entries| == 1
            && Excess(Seen(again, again.stored)) == CapitalOf(again.entries[0]) > 0
  {
    var start := World(NewAccount(starting), [], {}, [], 0);
    TwoCloses(e, start, opening, first, second);
    AtomicPair(e, starting, evs, 0, opening);
    AtomicPair(e, starting, evs, 2, Close(0, first));
    AtomicPair(e, starting, evs, 4, Close(0, second));
  }

  lemma {:induction false} TwoCloses(e: Engine, start: World, opening: Action, first: real, second: real)
    requires opening.Open? && AddsRow(e, start, opening)
    requires start == World(NewAccount(start.account.starting), [], {}, [], 0)
    ensures var entered := Step(e, start, opening);
            var closed := Step(e, entered, Close(0, first));
            var again := Step(e, closed, Close(0, second));
            && |entered.entries| == 1 && closed.entries == again.entries == entered.entries
            && entered.resetAt == closed.resetAt == again.resetAt == 0
            && Conserved(closed) && !Conserved(again) && Excess(again) == CapitalOf(again.entries[0]) > 0
  {
    OpenConserves(e, start, opening.trigger, opening.side, opening.allocation, opening.heldForSymbol, opening.tradesToday);
    var entered := Step(e, start, opening);
    assert entered.book == {0};
    CloseConservesIffInBook(e, entered, 0, first);
    var closed := Step(e, entered, Close(0, first));
    assert closed.book == {};
    CloseAddsExcess(e, closed, 0, second);
    CapitalIsPositive(entered.entries[0]);
    CloseConservesIffInBook(e, closed, 0, second);
  }

  /** A read and its write with nothing in between are one step on the stored account. */
  lemma {:induction false} AtomicPair(e: Engine, starting: int, evs: seq<Event>, n: nat, a: Action)
    requires n + 1 < |evs| && evs[n] == Read(0) && evs[n + 1] == Write(0, a, Up)
    requires (a.Open? || a.Close?) && AddsRow(e, Seen(Run(e, starting, evs, n), Run(e, starting, evs, n).stored), a)
    ensures var d, after := Run(e, starting, evs, n), Run(e, starting, evs, n + 2);
            Seen(after, after.stored) == Step(e, Seen(d, d.stored), a) && after.resetAt == d.resetAt
  {
    RunNext(e, starting, evs, n);
    RunNext(e, starting, evs, n + 1);
  }

  // ---- Caps of every run --------------------------------------------------

  /** The gate keeps the number of open positions within its limit, whatever writers and failures do. */
  lemma {:induction false} OpenCountIsCapped(e: Engine, starting: int, evs: seq<Event>, n: nat)
    requires n <= |evs| && e.limits.maxOpen >= 0
    ensures |Run(e, starting, evs, n).book| <= e.limits.maxOpen
  {
    if n > 0 {
      OpenCountIsCapped(e, starting, evs, n - 1);
      var d, ev := Run(e, starting, evs, n - 1), evs[n - 1];
      if ev.Write? && ev.writer in d.copies {
        BookSteps(e, Seen(d, d.copies[ev.writer]), ev.action);
      }
    }
  }

  lemma {:induction false} StartingIsFixed(e: Engine, starting: int, evs: seq<Event>, n: nat)
    requires n <= |evs|
    ensures var d := Run(e, starting, evs, n);
            d.stored.account.starting == starting && forall c :: c in d.copies ==> d.copies[c].account.starting == starting
  {
    if n > 0 {
      StartingIsFixed(e, starting, evs, n - 1);
    }
  }

  /** In every run no position is larger than its share of the starting capital. */
  lemma {:induction false} PositionSizeIsCapped(e: Engine, starting: int, evs: seq<Event>, n: nat, id: nat)
    requires n <= |evs| && id < |Run(e, starting, evs, n).entries|
    ensures CapitalOf(Run(e, starting, evs, n).entries[id]) as real <= PositionCap(e.limits, starting)
  {
    if n > 0 {
      var d, ev := Run(e, starting, evs, n - 1), evs[n - 1];
      if id < |d.entries| {
        PositionSizeIsCapped(e, starting, evs, n - 1, id);
        assert Run(e, starting, evs, n).entries[id] == d.entries[id];
      } else {
        StartingIsFixed(e, starting, evs, n - 1);
        NewEntryIsCapped(e, Seen(d, d.copies[ev.writer]), ev.action, id);
      }
    }
  }
}
