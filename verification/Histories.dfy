/** Where the rows of a run come from: the submit behind every reading that has left DRAFT, and the
    purchase behind every order, with what each of them asked for. */
module Histories {
  import opened Database
  import opened Statements
  import opened Atomic
  import opened Handlers
  import opened PaymentLaws
  import opened ReadCommitted
  import opened ReadingEngine
  import opened Safety
  import LedgerLaws
  import Outcomes

  /** One step of the run commits `op`. */
  ghost predicate CommitsAt(run: seq<Server>, i: nat, op: Op, seen: Seen) {
    i + 1 < |run| && Effect(op, run[i].sys.db, seen) == Some(run[i + 1].sys.db)
  }

  /** A step of a run that changes the tables commits a transaction that its handler wanted. */
  lemma ChangeIsCommit(run: seq<Server>, i: nat) returns (x: Handler, op: Op, seen: Seen)
    requires IsRun(run) && i + 1 < |run| && run[i].sys.db != run[i + 1].sys.db
    ensures CommitsAt(run, i, op, seen) && Wants(x, op) && HandlerOk(run[i].sys.db.rows, x)
  {
    hide Steps, Consistent, Effect, Wants, HandlerOk, LedgerLaws.MoneyInv, PayInv;
    RunsAreSafe(run, i);
    assert CanStep(run[i], run[i + 1]);
    var e :| Steps(run[i], e, run[i + 1]);
    Refines(run[i], e, run[i + 1]);
    var m :| Moves(run[i].sys, m, run[i + 1].sys);
    op, x := m.op, run[i].sys.handlers[m.h];
    seen :| Effect(op, run[i].sys.db, seen) == Some(run[i + 1].sys.db);
  }

  // ---------- Readings ----------

  /** Only a submit takes a reading out of DRAFT. */
  lemma OnlySubmitsLeaveDraft(db: Db, x: Handler, op: Op, seen: Seen, r: ReadingId)
    requires Wants(x, op) && HandlerOk(db.rows, x) && Effect(op, db, seen).Some?
    requires !HasLeftDraft(db.rows, r) && HasLeftDraft(Effect(op, db, seen).value.rows, r)
    ensures op.Submit? && op.reading == r
  {
    hide Effect, Evolves, HasDelivery, IsSettled;
    var db' := Effect(op, db, seen).value;
    EffectFramed(op, db, seen);
    assert MayWrite(op, ReadingK(r)) || SameRow(db.rows, db'.rows, ReadingK(r));
    Outcomes.StatusSays(db, op, seen);
    Outcomes.InsertSays(db, op, seen);
  }

  /** A submit as the tables show it: `free` says that an ad unlock paid. */
  ghost predicate SubmittedAt(run: seq<Server>, i: nat, op: Op, free: bool) {
    && i + 1 < |run| && op.Submit? && (free ==> op.adUnlockable)
    && Outcomes.CanSubmit(run[i].sys.db, op.user, op.reading, op.cost, op.draws, free)
    && Outcomes.Submits(run[i].sys.db, op.user, op.reading, op.cost, op.draws, free, run[i + 1].sys.db)
  }

  /** What a submit leaves for ever: the owner, the cards as drawn, and what was reserved. */
  ghost predicate KeepsSubmit(db: Db, op: Op, free: bool)
    requires op.Submit?
  {
    var r := op.reading;
    var paid := if free then 0 else op.cost;
    && HasLeftDraft(db.rows, r) && db.rows[ReadingK(r)].user == op.user
    && (op.draws.Some? ==> Outcomes.Has(db, DrawsK(r), DrawsRow(op.draws.value)))
    && ReservationK(r) in db.rows && db.rows[ReservationK(r)].user == op.user && db.rows[ReservationK(r)].amount == paid
    && EntryK(ReservationKey(r)) in db.rows && db.rows[EntryK(ReservationKey(r))].entry.user == op.user
    && db.rows[EntryK(ReservationKey(r))].entry.amount == -paid
  }

  lemma SubmitsKeep(db: Db, op: Op, free: bool, db': Db)
    requires op.Submit? && Outcomes.Submits(db, op.user, op.reading, op.cost, op.draws, free, db')
    ensures KeepsSubmit(db', op, free)
  {
    hide Outcomes.Only;
  }

  lemma SubmitLasts(db: Db, op: Op, free: bool, db': Db)
    requires op.Submit? && KeepsSubmit(db, op, free) && Evolves(db.rows, db'.rows)
    ensures KeepsSubmit(db', op, free)
  {
    var r := op.reading;
    assert Later(db.rows[ReadingK(r)], db'.rows[ReadingK(r)]);
    assert Later(db.rows[ReservationK(r)], db'.rows[ReservationK(r)]);
    assert Later(db.rows[EntryK(ReservationKey(r))], db'.rows[EntryK(ReservationKey(r))]);
    if op.draws.Some? {
      assert Later(db.rows[DrawsK(r)], db'.rows[DrawsK(r)]);
    }
  }

  /** A submitted reading keeps its cards, its owner and what was reserved for it in every later state. */
  lemma SubmittedStays(run: seq<Server>, i: nat, j: nat, op: Op, free: bool)
    requires IsRun(run) && i < j < |run| && SubmittedAt(run, i, op, free)
    ensures KeepsSubmit(run[j].sys.db, op, free)
  {
    hide IsRun, Outcomes.Submits, Outcomes.CanSubmit, KeepsSubmit, Evolves;
    SubmitsKeep(run[i].sys.db, op, free, run[i + 1].sys.db);
    RunsMoveForward(run, i + 1, j);
    SubmitLasts(run[i + 1].sys.db, op, free, run[j].sys.db);
  }

  /** Every reading that has left DRAFT was submitted at an earlier step, and is as that submit asked. */
  lemma {:induction false} ReadingsWereSubmitted(run: seq<Server>, j: nat, r: ReadingId)
    returns (i: nat, op: Op, free: bool)
    requires IsRun(run) && j < |run| && HasLeftDraft(run[j].sys.db.rows, r)
    ensures i < j && SubmittedAt(run, i, op, free) && op.reading == r && KeepsSubmit(run[j].sys.db, op, free)
    decreases j
  {
    hide Outcomes.Submits, Outcomes.CanSubmit, KeepsSubmit, Effect, Wants, HandlerOk, CanStep;
    assert j > 0;
    var before := run[j - 1].sys.db;
    if HasLeftDraft(before.rows, r) {
      i, op, free := ReadingsWereSubmitted(run, j - 1, r);
    } else {
      var x, want, seen := ChangeIsCommit(run, j - 1);
      OnlySubmitsLeaveDraft(before, x, want, seen, r);
      Outcomes.SubmitSays(before, want, seen);
      i, op, free := j - 1, want, want.adUnlockable && seen.hit;
    }
    SubmittedStays(run, i, j, op, free);
  }

  // ---------- Orders ----------

  lemma PaymentsAddNoOrder(db: Db, op: Op, seen: Seen, o: OrderId)
    requires (op.Approve? || op.Terminate?) && Effect(op, db, seen).Some?
    ensures OrderK(o) in Effect(op, db, seen).value.rows ==> OrderK(o) in db.rows
  {
  }

  /** Only a purchase creates an order. */
  lemma OnlyPurchasesOrder(db: Db, op: Op, seen: Seen, o: OrderId)
    requires Effect(op, db, seen).Some? && OrderK(o) !in db.rows && OrderK(o) in Effect(op, db, seen).value.rows
    ensures op.CreateOrder? && op.order == o
  {
    hide Effect, Evolves;
    EffectFramed(op, db, seen);
    assert MayWrite(op, OrderK(o)) || SameRow(db.rows, Effect(op, db, seen).value.rows, OrderK(o));
    if op.Approve? || op.Terminate? {
      PaymentsAddNoOrder(db, op, seen, o);
    }
  }

  /** A purchase as the tables show it: `used` is the offer that discounted it. */
  ghost predicate OrderedAt(run: seq<Server>, i: nat, op: Op, used: Option<OfferId>) {
    && i + 1 < |run| && op.CreateOrder? && (used.Some? ==> used == op.pick)
    && Outcomes.Orders(run[i].sys.db, op.order, op.user, op.package, used, run[i + 1].sys.db)
  }

  /** What a purchase leaves for ever: the buyer, and all that the package offered. */
  ghost predicate KeepsOrder(db: Db, op: Op, used: Option<OfferId>)
    requires op.CreateOrder?
  {
    && OrderK(op.order) in db.rows
    && var order := db.rows[OrderK(op.order)];
       && order.user == op.user && order.pkg == op.package.code && order.credits == op.package.credits
       && order.listCents == op.package.cents && order.currency == op.package.currency && order.offer == used
       && (if used.None? then order.cents == op.package.cents
           else order.pkg == "BASICO_FUEGO" && -50 < 100 * order.cents - 80 * op.package.cents <= 50)
  }

  /** In every later state the order is as it was bought: credits, list price and currency of the package,
      and its price, or four fifths of it to the nearest cent for a flash offer. */
  lemma OrderedStays(run: seq<Server>, i: nat, j: nat, op: Op, used: Option<OfferId>)
    requires IsRun(run) && i < j < |run| && OrderedAt(run, i, op, used)
    ensures KeepsOrder(run[j].sys.db, op, used)
  {
    hide IsRun, Outcomes.Only, Outcomes.CanUse, Outcomes.IsDiscounted;
    PricesAreFrozen(run, i + 1, j, op.order);
  }

  /** Every order of a run was bought at an earlier step, and is as that purchase asked. */
  lemma {:induction false} OrdersWereBought(run: seq<Server>, j: nat, o: OrderId)
    returns (i: nat, op: Op, used: Option<OfferId>)
    requires IsRun(run) && j < |run| && OrderK(o) in run[j].sys.db.rows
    ensures i < j && OrderedAt(run, i, op, used) && op.order == o && KeepsOrder(run[j].sys.db, op, used)
    decreases j
  {
    hide Outcomes.Orders, KeepsOrder, Effect, Wants, HandlerOk, CanStep;
    assert j > 0;
    var before := run[j - 1].sys.db;
    if OrderK(o) in before.rows {
      i, op, used := OrdersWereBought(run, j - 1, o);
    } else {
      var x, want, seen := ChangeIsCommit(run, j - 1);
      OnlyPurchasesOrder(before, want, seen, o);
      Outcomes.PurchaseSays(before, want, seen);
      i, op, used := j - 1, want, if seen.hit then want.pick else None;
    }
    OrderedStays(run, i, j, op, used);
  }

  /** A paid order has credited its buyer, once, with exactly the credits of the package it was bought as. */
  lemma PurchasesAreCredited(run: seq<Server>, j: nat, o: OrderId) returns (i: nat, op: Op, e: Entry)
    requires IsRun(run) && j < |run| && IsPaid(run[j].sys.db.rows, o)
    ensures i < j && (exists used :: OrderedAt(run, i, op, used)) && op.order == o
    ensures e in run[j].sys.db.ledger && e.key == PurchaseKey(o) && Count(run[j].sys.db.ledger, PurchaseKey(o)) == 1
    ensures e.user == op.user && e.amount == op.package.credits
  {
    hide IsRun, OrderedAt, Count, IsApproved;
    var used;
    i, op, used := OrdersWereBought(run, j, o);
    OrdersAreSafe(run, j, j, o);
    e :| e in run[j].sys.db.ledger && e.key == PurchaseKey(o)
         && e.user == run[j].sys.db.rows[OrderK(o)].user && e.amount == run[j].sys.db.rows[OrderK(o)].credits;
  }
}
