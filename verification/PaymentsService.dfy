/** `PaymentsService`: checkouts, webhook deliveries and the confirmation on return. */
module PaymentsService {
  import opened Database
  import opened Statements
  import opened Atomic
  import opened Tables
  import Outcomes
  import opened WalletService

  type EventId = nat

  datatype ProviderStatus = WompiPending | WompiApproved | WompiDeclined | WompiError | WompiVoided

  /** What the provider says about one payment reference. */
  datatype Transaction = Transaction(reference: PaymentId, status: ProviderStatus, cents: int, currency: string)

  function Terminal(status: ProviderStatus): Option<FinalState> {
    match status
    case WompiPending => None
    case WompiApproved => Some(Approved)
    case WompiDeclined => Some(Declined)
    case WompiError => Some(Errored)
    case WompiVoided => Some(Declined)
  }

  predicate SameAmount(db: Db, t: Transaction)
    requires PaymentK(t.reference) in db.rows
  {
    db.rows[PaymentK(t.reference)].cents == t.cents && db.rows[PaymentK(t.reference)].currency == t.currency
  }

  /** The order of a payment has not been paid or cancelled. */
  predicate Cancellable(db: Db, p: PaymentId)
    requires PaymentK(p) in db.rows
  {
    var o := db.rows[PaymentK(p)].order;
    OrderK(o) in db.rows && db.rows[OrderK(o)].paid == Unpaid
  }

  /** The transaction that a final provider status starts; `None` is its rollback. */
  function Resolution(db: Db, p: PaymentId, to: FinalState): Option<Db>
    requires PaymentK(p) in db.rows
  {
    if to == Approved then ApprovePayment(db, p) else TerminatePayment(db, p, to, Cancellable(db, p))
  }

  /** The tables after one verified provider transaction, whoever brought it. */
  function Process(db: Db, t: Transaction): Db {
    if PaymentK(t.reference) !in db.rows || !SameAmount(db, t) || Terminal(t.status).None? then db
    else
      var resolved := Resolution(db, t.reference, Terminal(t.status).value);
      if resolved.Some? then resolved.value else db
  }

  /** What one verified provider transaction does, by its status. */
  ghost predicate Follows(db: Db, t: Transaction, db': Db) {
    var p := t.reference;
    if !Outcomes.IsPending(db, p) || db.rows[PaymentK(p)].cents != t.cents
       || db.rows[PaymentK(p)].currency != t.currency
    then db' == db
    else
      match t.status
      case WompiPending => db' == db
      case WompiApproved => if Outcomes.CanApprove(db, p) then Outcomes.Approves(db, p, db') else db' == db
      case WompiDeclined => Outcomes.Closes(db, p, Declined, IsUnpaid(db, p), db')
      case WompiVoided => Outcomes.Closes(db, p, Declined, IsUnpaid(db, p), db')
      case WompiError => Outcomes.Closes(db, p, Errored, IsUnpaid(db, p), db')
  }

  ghost predicate IsUnpaid(db: Db, p: PaymentId)
    requires PaymentK(p) in db.rows
  {
    var o := OrderK(db.rows[PaymentK(p)].order);
    o in db.rows && db.rows[o].paid == Unpaid
  }

  lemma ApprovesPending(db: Db, p: PaymentId)
    ensures Outcomes.CanApprove(db, p) ==> Outcomes.IsPending(db, p)
  {
  }

  lemma ProcessFollows(db: Db, t: Transaction)
    ensures Follows(db, t, Process(db, t))
  {
    hide Outcomes.Approves, Outcomes.CanApprove, Outcomes.Closes, Atomic.ApprovePayment, TerminatePayment;
    if PaymentK(t.reference) in db.rows {
      Outcomes.ApproveSays(db, t.reference);
      Outcomes.TerminateSays(db, t.reference, Declined, Cancellable(db, t.reference));
      Outcomes.TerminateSays(db, t.reference, Errored, Cancellable(db, t.reference));
    }
  }

  class PaymentsService {
    const prisma: Store
    const wallet: WalletService
    var events: set<EventId>

    constructor (wallet: WalletService)
      ensures prisma == wallet.prisma && this.wallet == wallet && events == {}
    {
      prisma, this.wallet, events := wallet.prisma, wallet, {};
    }

    /** `p` is the fresh reference of this attempt. */
    method CreateCheckoutIntent(u: UserId, o: OrderId, p: PaymentId) returns (ok: bool)
      modifies prisma`rows
      ensures var db := old(prisma.Now());
              var open := OrderK(o) in db.rows && db.rows[OrderK(o)].paid == Unpaid;
              Atomically(db, if open then CheckoutOrder(db, p, o, u) else None, ok, prisma.Now())
      ensures ok <==> OrderK(o) in old(prisma.rows) && old(prisma.rows)[OrderK(o)].user == u
                      && old(prisma.rows)[OrderK(o)].paid == Unpaid && PaymentK(p) !in old(prisma.rows)
      ensures if ok then Outcomes.ChecksOut(old(prisma.Now()), p, o, u, prisma.Now())
              else prisma.Now() == old(prisma.Now())
    {
      Outcomes.CheckoutSays(prisma.Now(), p, o, u);
      hide Outcomes.ChecksOut;
      if OrderK(o) !in prisma.rows || prisma.rows[OrderK(o)].user != u || prisma.rows[OrderK(o)].paid != Unpaid {
        return false;
      }
      var order := prisma.rows[OrderK(o)];
      ok := prisma.Insert(PaymentK(p), PaymentRow(o, order.cents, order.currency, InProgress));
    }

    method ApprovePayment(p: PaymentId) returns (ok: bool)
      requires PaymentK(p) in prisma.rows && wallet.prisma == prisma
      modifies prisma
      ensures Atomically(old(prisma.Now()), Atomic.ApprovePayment(old(prisma.Now()), p), ok, prisma.Now())
      ensures ok <==> Outcomes.IsPending(old(prisma.Now()), p) ==> Outcomes.CanApprove(old(prisma.Now()), p)
      ensures if Outcomes.CanApprove(old(prisma.Now()), p) then Outcomes.Approves(old(prisma.Now()), p, prisma.Now())
              else prisma.Now() == old(prisma.Now())
    {
      Outcomes.ApproveSays(prisma.Now(), p);
      ApprovesPending(prisma.Now(), p);
      hide Outcomes.Approves, Outcomes.CanApprove;
      var before := prisma.Now();
      if prisma.rows[PaymentK(p)].state != InProgress {
        return true;
      }
      prisma.rows := prisma.rows[PaymentK(p) := prisma.rows[PaymentK(p)].(state := Approved)];
      var o := prisma.rows[PaymentK(p)].order;
      if OrderK(o) !in prisma.rows {
        prisma.Rollback(before);
        return false;
      }
      var order := prisma.rows[OrderK(o)];
      prisma.rows := prisma.rows[OrderK(o) := order.(paid := Paid)];
      ok := wallet.CreditPurchase(order.user, o, order.credits);
      if !ok {
        prisma.Rollback(before);
      }
    }

    method MarkPaymentTerminal(p: PaymentId, to: Failure)
      requires PaymentK(p) in prisma.rows
      modifies prisma`rows
      ensures TerminatePayment(old(prisma.Now()), p, to, Cancellable(old(prisma.Now()), p)) == Some(prisma.Now())
      ensures var db := old(prisma.Now());
              if Outcomes.IsPending(db, p) then Outcomes.Closes(db, p, to, IsUnpaid(db, p), prisma.Now())
              else prisma.Now() == db
    {
      Outcomes.TerminateSays(prisma.Now(), p, to, Cancellable(prisma.Now(), p));
      hide Outcomes.Closes;
      if prisma.rows[PaymentK(p)].state != InProgress {
        return;
      }
      prisma.rows := prisma.rows[PaymentK(p) := prisma.rows[PaymentK(p)].(state := to)];
      var o := prisma.rows[PaymentK(p)].order;
      if OrderK(o) in prisma.rows && prisma.rows[OrderK(o)].paid == Unpaid {
        prisma.rows := prisma.rows[OrderK(o) := prisma.rows[OrderK(o)].(paid := Cancelled)];
      }
    }

    /** A delivery with a valid signature. The event row commits on its own: `stop` says that the process
        stopped after it, or that the payment transaction aborted. `ok` is false when the delivery threw. */
    method HandleWebhook(e: EventId, t: Transaction, stop: bool) returns (ok: bool)
      requires wallet.prisma == prisma
      modifies prisma, this`events
      ensures events == old(events) + {e}
      ensures prisma.Now() == if e in old(events) || stop then old(prisma.Now()) else Process(old(prisma.Now()), t)
      ensures if e in old(events) || stop then prisma.Now() == old(prisma.Now())
              else Follows(old(prisma.Now()), t, prisma.Now())
    {
      ProcessFollows(prisma.Now(), t);
      hide Follows;
      if e in events {
        return true;
      }
      events := events + {e};
      if stop {
        return false;
      }
      if PaymentK(t.reference) !in prisma.rows {
        return true;
      }
      ok := Resolve(t.reference, t);
    }

    /** The check of amount and currency, then the transaction that the mapped status asks for. */
    method Resolve(p: PaymentId, t: Transaction) returns (ok: bool)
      requires wallet.prisma == prisma && PaymentK(p) in prisma.rows && t.reference == p
      modifies prisma
      ensures prisma.Now() == Process(old(prisma.Now()), t)
      ensures Follows(old(prisma.Now()), t, prisma.Now())
    {
      ProcessFollows(prisma.Now(), t);
      hide Follows;
      var payment := prisma.rows[PaymentK(p)];
      if payment.cents != t.cents || payment.currency != t.currency {
        return true;
      }
      var to := Terminal(t.status);
      if to == None {
        return true;
      }
      if to.value == Approved {
        ok := ApprovePayment(p);
      } else {
        MarkPaymentTerminal(p, to.value);
        ok := true;
      }
    }

    /** `latest` is the newest pending payment of the order, and `t` the provider's answer. */
    method ConfirmFromReturn(u: UserId, o: OrderId, latest: Option<PaymentId>, t: Option<Transaction>)
      returns (ok: bool)
      requires wallet.prisma == prisma
      requires latest.Some? ==> InFlight(prisma.Now(), latest.value) && prisma.rows[PaymentK(latest.value)].order == o
      modifies prisma
      ensures var db := old(prisma.Now());
              var mine := OrderK(o) in db.rows && db.rows[OrderK(o)].user == u;
              prisma.Now() == if mine && t.Some? && latest == Some(t.value.reference) then Process(db, t.value) else db
      ensures var db := old(prisma.Now());
              if OrderK(o) in db.rows && db.rows[OrderK(o)].user == u && t.Some? && latest == Some(t.value.reference)
              then Follows(db, t.value, prisma.Now())
              else prisma.Now() == db
    {
      if t.Some? {
        ProcessFollows(prisma.Now(), t.value);
      }
      hide Follows;
      if OrderK(o) !in prisma.rows || prisma.rows[OrderK(o)].user != u {
        return false;
      }
      if latest == None || t == None || t.value.reference != latest.value {
        return true;
      }
      ok := Resolve(latest.value, t.value);
    }
  }
}
