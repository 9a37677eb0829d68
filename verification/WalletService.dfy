/** `WalletService`, statement by statement, over the tables that it updates in place. */
module WalletService {
  import opened Database
  import opened Statements
  import opened Atomic
  import opened Tables
  import Outcomes

  /** How `reserveCreditsForReading` ends; all but the first are exceptions. */
  datatype Charge = Charged | NoWallet | Insufficient | AlreadySubmitted | DuplicateEntry

  class WalletService {
    const prisma: Store
    const initialBonus: nat

    constructor (prisma: Store, initialBonus: nat)
      ensures this.prisma == prisma && this.initialBonus == initialBonus
    {
      this.prisma, this.initialBonus := prisma, initialBonus;
    }

    method CreateWalletWithBonus(u: UserId) returns (ok: bool)
      modifies prisma
      ensures Atomically(old(prisma.Now()), OpenWallet(old(prisma.Now()), u, initialBonus), ok, prisma.Now())
      ensures ok <==> Outcomes.CanOpen(old(prisma.Now()), u, initialBonus)
      ensures if ok then Outcomes.Opens(old(prisma.Now()), u, initialBonus, prisma.Now())
              else prisma.Now() == old(prisma.Now())
    {
      Outcomes.OpenSays(prisma.Now(), u, initialBonus, Seen(0, true));
      hide Outcomes.Opens, Outcomes.CanOpen;
      var before := prisma.Now();
      ok := prisma.Insert(WalletK(u), WalletRow(initialBonus));
      if ok && initialBonus > 0 {
        ok := prisma.Log(BonusKey(u), u, initialBonus, initialBonus);
        if !ok {
          prisma.Rollback(before);
        }
      }
    }

    /** Runs inside the caller's transaction, which rolls back when the result is an exception. */
    method ReserveCreditsForReading(u: UserId, r: ReadingId, amount: nat) returns (charge: Charge)
      modifies prisma
      ensures charge.Charged? <==> Reserve(old(prisma.Now()), u, r, amount).Some?
      ensures charge.Charged? ==> Reserve(old(prisma.Now()), u, r, amount) == Some(prisma.Now())
      ensures charge.Charged? ==>
                && Outcomes.Reserves(old(prisma.Now()), u, r, amount, prisma.Now())
                && Outcomes.Only(old(prisma.Now()), prisma.Now(),
                                 {WalletK(u), ReservationK(r), EntryK(ReservationKey(r))})
      ensures charge.NoWallet? <==> WalletK(u) !in old(prisma.rows)
      ensures charge.Insufficient? <==> WalletK(u) in old(prisma.rows) && Balance(old(prisma.Now()), u) < amount
      ensures charge.AlreadySubmitted? <==>
              WalletK(u) in old(prisma.rows) && Balance(old(prisma.Now()), u) >= amount
              && ReservationK(r) in old(prisma.rows)
    {
      Outcomes.ReserveSays(prisma.Now(), u, r, amount);
      hide Record, Outcomes.Reserves, Outcomes.Only, Outcomes.CanReserve;
      if WalletK(u) !in prisma.rows {
        return NoWallet;
      }
      var debited := prisma.Debit(u, amount);
      if !debited {
        return Insufficient;
      }
      var updated := prisma.rows[WalletK(u)].balance;
      var inserted := prisma.Insert(ReservationK(r), ReservationRow(u, amount, Active));
      if !inserted {
        return AlreadySubmitted;
      }
      var logged := prisma.Log(ReservationKey(r), u, 0 - amount, updated);
      charge := if logged then Charged else DuplicateEntry;
    }

    method ConfirmConsumption(r: ReadingId) returns (ok: bool)
      modifies prisma
      ensures var db := old(prisma.Now());
              var u := if ReservationK(r) in db.rows then db.rows[ReservationK(r)].user else 0;
              && Atomically(db, ConfirmHold(db, r, Balance(db, u)), ok, prisma.Now())
              && (ok <==> Outcomes.CanConsume(db, r))
              && (if ok then Outcomes.Consumes(db, r, Balance(db, u), prisma.Now()) else prisma.Now() == db)
    {
      ghost var holder := if ReservationK(r) in prisma.rows then prisma.rows[ReservationK(r)].user else 0;
      Outcomes.ConsumeSays(prisma.Now(), r, Balance(prisma.Now(), holder));
      hide Outcomes.Consumes, Outcomes.CanConsume;
      var before := prisma.Now();
      if ReservationK(r) !in prisma.rows || prisma.rows[ReservationK(r)].hold != Active {
        return true;
      }
      prisma.rows := prisma.rows[ReservationK(r) := prisma.rows[ReservationK(r)].(hold := Consumed)];
      var reservation := prisma.rows[ReservationK(r)];
      if WalletK(reservation.user) !in prisma.rows {
        prisma.Rollback(before);
        return false;
      }
      ok := prisma.Log(ConsumptionKey(r), reservation.user, 0, prisma.rows[WalletK(reservation.user)].balance);
      if !ok {
        prisma.Rollback(before);
      }
    }

    method ReleaseReservation(r: ReadingId) returns (ok: bool)
      modifies prisma
      ensures Atomically(old(prisma.Now()), ReleaseHold(old(prisma.Now()), r), ok, prisma.Now())
      ensures ok <==> Outcomes.CanReturn(old(prisma.Now()), r)
      ensures if ok then Outcomes.Returns(old(prisma.Now()), r, prisma.Now()) else prisma.Now() == old(prisma.Now())
    {
      Outcomes.ReturnSays(prisma.Now(), r);
      hide Outcomes.Returns, Outcomes.CanReturn;
      var before := prisma.Now();
      if ReservationK(r) !in prisma.rows || prisma.rows[ReservationK(r)].hold != Active {
        return true;
      }
      prisma.rows := prisma.rows[ReservationK(r) := prisma.rows[ReservationK(r)].(hold := Released)];
      var reservation := prisma.rows[ReservationK(r)];
      var u := reservation.user;
      ok := prisma.Credit(u, reservation.amount);
      if ok {
        ok := prisma.Log(ReleaseKey(r), u, reservation.amount, prisma.rows[WalletK(u)].balance);
      }
      if !ok {
        prisma.Rollback(before);
      }
    }

    /** Runs inside the caller's transaction. */
    method CreditPurchase(u: UserId, o: OrderId, credits: nat) returns (ok: bool)
      modifies prisma
      ensures var credited := Credited(old(prisma.Now()), u, credits);
              && ok == (credited.Some? && EntryK(PurchaseKey(o)) !in credited.value.rows)
              && (ok ==>
                    var e := Entry(PurchaseKey(o), u, credits, Balance(credited.value, u));
                    prisma.Now() == Post(credited.value, e))
      ensures ok <==> WalletK(u) in old(prisma.rows) && EntryK(PurchaseKey(o)) !in old(prisma.rows)
      ensures ok ==>
                var balance := old(prisma.rows)[WalletK(u)].balance + credits;
                && Outcomes.Has(prisma.Now(), WalletK(u), WalletRow(balance))
                && Outcomes.Logs(old(prisma.Now()), prisma.Now(), Entry(PurchaseKey(o), u, credits, balance))
                && Outcomes.Only(old(prisma.Now()), prisma.Now(), {WalletK(u), EntryK(PurchaseKey(o))})
    {
      ok := prisma.Credit(u, credits);
      if !ok {
        return false;
      }
      ok := prisma.Log(PurchaseKey(o), u, credits, prisma.rows[WalletK(u)].balance);
    }

    /** An adjustment of zero is refused before the transaction starts. */
    method AdjustCredits(u: UserId, amount: int, id: AdjustmentId) returns (ok: bool)
      modifies prisma
      ensures var db := old(prisma.Now());
              && Atomically(db, if amount == 0 then None else AdjustBalance(db, u, amount, id), ok, prisma.Now())
              && (ok <==> amount != 0 && Outcomes.CanAdjust(db, u, amount, id))
              && (if ok then Outcomes.Adjusts(db, u, amount, id, prisma.Now()) else prisma.Now() == db)
    {
      Outcomes.AdjustSays(prisma.Now(), u, amount, id);
      hide Outcomes.Adjusts, Outcomes.CanAdjust, Debited, Credited, InsertRow, Record;
      var before := prisma.Now();
      if amount == 0 || WalletK(u) !in prisma.rows {
        return false;
      }
      if amount < 0 {
        ok := prisma.Debit(u, -amount);
      } else {
        ok := prisma.Credit(u, amount);
      }
      if !ok {
        return false;
      }
      var updated := prisma.rows[WalletK(u)].balance;
      ok := prisma.Log(AdjustmentKey(id), u, amount, updated);
      if ok {
        ok := prisma.Insert(AuditK(id), AuditRow(u, amount, updated));
      }
      if !ok {
        prisma.Rollback(before);
      }
    }
  }
}
