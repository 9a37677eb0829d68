/** What holds in every state of every run, with transactions interleaved statement by statement,
    handlers stopping anywhere, and jobs, callbacks, deliveries and retries arriving in any number. */
module Safety {
  import opened Database
  import opened Statements
  import opened Atomic
  import opened Sums
  import opened LedgerLaws
  import opened PaymentLaws
  import opened EntitlementLaws
  import opened FailedReadings
  import opened Handlers
  import opened OrdersService
  import opened ReadingEngine
  import opened ReadCommitted
  import Replay

  ghost predicate Safe(s: System) {
    MoneyInv(s.db) && PayInv(s.db.rows) && AdsInv(s.db.rows) && EngineInv(s)
  }

  lemma SafeIdle()
    ensures Safe(Idle)
  {
    assert PaidPrices(map[]) == map[] && ApprovedAmounts(map[]) == map[];
    forall u ensures Conserved(EmptyDb, u) {
      assert Holds(map[], u) == map[];
    }
    forall u, kind ensures AdsConserved(map[], u, kind) {
      assert Rewards(map[], u, kind) == {} && Offers(map[], u) == {};
    }
  }

  lemma SafeNext(s: System, s': System)
    requires Safe(s) && Next(s, s')
    ensures Safe(s') && Evolves(s.db.rows, s'.db.rows) && s.db.ledger <= s'.db.ledger
  {
    hide MoneyInv, PayInv, AdsInv, EngineInv;
    var m :| Moves(s, m, s');
    EngineKeeps(s, m, s');
    if m.Commit? {
      var seen :| Effect(m.op, s.db, seen) == Some(s'.db);
      MoneyKeeps(m.op, s.db, seen);
      PayKeeps(m.op, s.db, seen);
      AdsKeeps(m.op, s.db, seen);
      EffectFramed(m.op, s.db, seen);
    } else {
      assert s'.db == s.db;
    }
  }

  ghost predicate CanStep(s: Server, s': Server) {
    exists e :: Steps(s, e, s')
  }

  ghost predicate IsRun(run: seq<Server>) {
    && |run| > 0 && run[0] == Server(Idle, map[])
    && forall i | 0 <= i < |run| - 1 :: CanStep(run[i], run[i + 1])
  }

  /** The main invariant: every state of every interleaved run is safe. */
  lemma {:induction false} RunsAreSafe(run: seq<Server>, i: nat)
    requires IsRun(run) && i < |run|
    ensures Consistent(run[i]) && Safe(run[i].sys)
    decreases i
  {
    hide Safe, Steps, Consistent;
    if i == 0 {
      SafeIdle();
      assert Consistent(run[0]) by {
        EmptyConsistent();
      }
    } else {
      RunsAreSafe(run, i - 1);
      assert CanStep(run[i - 1], run[i - 1 + 1]);
      var e :| Steps(run[i - 1], e, run[i]);
      Refines(run[i - 1], e, run[i]);
      if run[i].sys != run[i - 1].sys {
        SafeNext(run[i - 1].sys, run[i].sys);
      }
    }
  }

  lemma EmptyConsistent()
    ensures Consistent(Server(Idle, map[]))
  {
  }

  /** Nothing final is ever undone, and no ledger entry is ever changed or removed. */
  lemma {:induction false} RunsMoveForward(run: seq<Server>, i: nat, j: nat)
    requires IsRun(run) && i <= j < |run|
    ensures Evolves(run[i].sys.db.rows, run[j].sys.db.rows) && run[i].sys.db.ledger <= run[j].sys.db.ledger
    decreases j
  {
    hide Safe, Steps, Consistent, Later;
    if i == j {
      Replay.EvolvesReflexive(run[i].sys.db.rows);
    } else {
      RunsMoveForward(run, i, j - 1);
      RunsAreSafe(run, j - 1);
      assert CanStep(run[j - 1], run[j - 1 + 1]);
      var e :| Steps(run[j - 1], e, run[j]);
      Refines(run[j - 1], e, run[j]);
      if run[j].sys != run[j - 1].sys {
        SafeNext(run[j - 1].sys, run[j].sys);
        Replay.EvolvesTransitive(run[i].sys.db.rows, run[j - 1].sys.db.rows, run[j].sys.db.rows);
      }
    }
  }

  // ---------- The guarantees, in the terms of the services ----------

  /** How many ledger entries carry an idempotency key. */
  function Count(ledger: seq<Entry>, k: IdemKey): nat {
    if ledger == [] then 0
    else Count(ledger[..|ledger| - 1], k) + if ledger[|ledger| - 1].key == k then 1 else 0
  }

  lemma {:induction false} CountKeys(ledger: seq<Entry>, k: IdemKey)
    requires forall i, j | 0 <= i < j < |ledger| :: ledger[i].key != ledger[j].key
    ensures Count(ledger, k) == if exists e :: e in ledger && e.key == k then 1 else 0
  {
    if ledger != [] {
      var init, last := ledger[..|ledger| - 1], ledger[|ledger| - 1];
      CountKeys(init, k);
      assert forall e :: e in ledger <==> e in init || e == last;
      if last.key == k {
        assert last in ledger;
      }
    }
  }

  lemma CountEntry(db: Db, k: IdemKey)
    requires Indexed(db)
    ensures Count(db.ledger, k) == if EntryK(k) in db.rows then 1 else 0
  {
    CountKeys(db.ledger, k);
    if e :| e in db.ledger && e.key == k {
      var i :| 0 <= i < |db.ledger| && db.ledger[i] == e;
      assert EntryK(db.ledger[i].key) in db.rows;
    }
  }

  /** No balance is negative, each equals the sum of its ledger, `balanceAfter` chains, and no credit
      appears or disappears. */
  lemma MoneyIsSafe(run: seq<Server>, i: nat, u: UserId)
    requires IsRun(run) && i < |run|
    ensures var db := run[i].sys.db;
            && 0 <= Balance(db, u) == Sum(db.ledger, OfUser(u))
            && Balance(db, u) + Held(db.rows, u) == Sum(db.ledger, IncomeOf(u))
            && Chained(db.ledger)
  {
    RunsAreSafe(run, i);
    assert Conserved(run[i].sys.db, u);
  }

  /** A reading is charged once when it leaves DRAFT, settled at most once, and its entries sum to
      minus the amount it still holds; a terminal reading is settled; kept credits mean a delivery. */
  lemma ReadingsAreSafe(run: seq<Server>, i: nat, r: ReadingId)
    requires IsRun(run) && i < |run|
    ensures var db := run[i].sys.db;
            && Count(db.ledger, ReservationKey(r)) == (if HasLeftDraft(db.rows, r) then 1 else 0)
            && Count(db.ledger, ConsumptionKey(r)) + Count(db.ledger, ReleaseKey(r))
               == (if IsSettled(db.rows, r) then 1 else 0)
            && (HasLeftDraft(db.rows, r) <==> ReservationK(r) in db.rows)
            && Sum(db.ledger, OfReading(r)) == -Owed(db.rows, r)
            && (ReadingK(r) in db.rows && db.rows[ReadingK(r)].status in {Completed, Failed} ==> IsSettled(db.rows, r))
            && (ReservationK(r) in db.rows && db.rows[ReservationK(r)].hold == Consumed ==> HasDelivery(db.rows, r))
            && (ReadingK(r) in db.rows && db.rows[ReadingK(r)].status == Completed ==> HasDelivery(db.rows, r))
  {
    RunsAreSafe(run, i);
    var db := run[i].sys.db;
    assert HoldOk(db, r) && ReadingOk(db.rows, r);
    CountEntry(db, ReservationKey(r));
    CountEntry(db, ConsumptionKey(r));
    CountEntry(db, ReleaseKey(r));
  }

  /** In every run a reading that has left DRAFT can be settled: neither settlement can roll back. */
  lemma RunsAreSettleable(run: seq<Server>, i: nat, r: ReadingId)
    requires IsRun(run) && i < |run| && HasLeftDraft(run[i].sys.db.rows, r)
    ensures IsSettleable(run[i].sys.db, r)
    ensures ReleaseHold(run[i].sys.db, r).Some? && forall balance :: ConfirmHold(run[i].sys.db, r, balance).Some?
  {
    hide IsRun, PayInv, AdsInv, Consistent;
    RunsAreSafe(run, i);
    assert HoldOk(run[i].sys.db, r) && ReadingOk(run[i].sys.db.rows, r);
  }

  /** In every run a FAILED reading has had its credits back exactly when no consumption was ever
      recorded for it; otherwise they pay for the interpretation that is stored. */
  lemma FailedIsReleasedIff(run: seq<Server>, i: nat, r: ReadingId)
    requires IsRun(run) && i < |run|
    requires ReadingK(r) in run[i].sys.db.rows && run[i].sys.db.rows[ReadingK(r)].status == Failed
    ensures var db := run[i].sys.db;
            && ReservationK(r) in db.rows
            && (db.rows[ReservationK(r)].hold == Released <==>
                  forall j: nat | j <= i :: Count(run[j].sys.db.ledger, ConsumptionKey(r)) == 0)
            && (db.rows[ReservationK(r)].hold != Released ==> HasDelivery(db.rows, r))
  {
    hide IsRun, Count, MoneyInv, PayInv, AdsInv, EngineInv, HasDelivery, Evolves, Consistent;
    ReadingsAreSafe(run, i, r);
    ConsumptionSays(run, i, r);
    forall j: nat | j <= i
      ensures Count(run[j].sys.db.ledger, ConsumptionKey(r)) <= Count(run[i].sys.db.ledger, ConsumptionKey(r))
    {
      ConsumptionStays(run, j, i, r);
    }
  }

  lemma ConsumptionSays(run: seq<Server>, i: nat, r: ReadingId)
    requires IsRun(run) && i < |run| && ReservationK(r) in run[i].sys.db.rows
    ensures Count(run[i].sys.db.ledger, ConsumptionKey(r)) ==
            if run[i].sys.db.rows[ReservationK(r)].hold == Consumed then 1 else 0
  {
    hide IsRun, Count, PayInv, AdsInv, EngineInv, Consistent;
    RunsAreSafe(run, i);
    assert HoldOk(run[i].sys.db, r);
    CountEntry(run[i].sys.db, ConsumptionKey(r));
  }

  lemma ConsumptionStays(run: seq<Server>, j: nat, i: nat, r: ReadingId)
    requires IsRun(run) && j <= i < |run|
    ensures Count(run[j].sys.db.ledger, ConsumptionKey(r)) <= Count(run[i].sys.db.ledger, ConsumptionKey(r))
  {
    hide IsRun, Count, PayInv, AdsInv, EngineInv, Consistent;
    RunsAreSafe(run, j);
    RunsAreSafe(run, i);
    RunsMoveForward(run, j, i);
    CountEntry(run[j].sys.db, ConsumptionKey(r));
    CountEntry(run[i].sys.db, ConsumptionKey(r));
  }

  /** Whatever jobs, crashes and retries follow, a submitted reading never takes credits again. */
  lemma RetriesNeverCharge(run: seq<Server>, i: nat, j: nat, r: ReadingId)
    requires IsRun(run) && i <= j < |run| && HasLeftDraft(run[i].sys.db.rows, r)
    ensures Sum(run[j].sys.db.ledger, OfReading(r)) >= Sum(run[i].sys.db.ledger, OfReading(r))
    ensures Count(run[j].sys.db.ledger, ReservationKey(r)) == 1
  {
    RunsMoveForward(run, i, j);
    ReadingsAreSafe(run, i, r);
    ReadingsAreSafe(run, j, r);
    var rows, rows' := run[i].sys.db.rows, run[j].sys.db.rows;
    assert Later(rows[ReservationK(r)], rows'[ReservationK(r)]) && Later(rows[ReadingK(r)], rows'[ReadingK(r)]);
    RunsAreSafe(run, i);
    assert HoldOk(run[i].sys.db, r);
  }

  lemma PurchasePosted(db: Db, o: OrderId)
    requires MoneyInv(db) && PayInv(db.rows)
    ensures Count(db.ledger, PurchaseKey(o)) == (if IsPaid(db.rows, o) then 1 else 0)
    ensures IsPaid(db.rows, o) ==>
              exists e :: e in db.ledger && e.key == PurchaseKey(o)
                          && e.user == db.rows[OrderK(o)].user && e.amount == db.rows[OrderK(o)].credits
  {
    hide Chained;
    PaidOnce(db.rows, o);
    CountEntry(db, PurchaseKey(o));
    if IsPaid(db.rows, o) {
      assert OrderOk(db.rows, o);
      assert db.rows[EntryK(PurchaseKey(o))].entry in db.ledger;
    }
  }

  lemma PaidStays(rows: Rows, rows': Rows, o: OrderId)
    requires Evolves(rows, rows') && IsPaid(rows, o)
    ensures IsPaid(rows', o)
  {
    assert Later(rows[OrderK(o)], rows'[OrderK(o)]);
  }

  /** PAID iff exactly one payment is approved iff exactly one PURCHASE entry exists, which is worth
      the order's credits; a paid order stays paid; and revenue equals the approved payments. */
  lemma OrdersAreSafe(run: seq<Server>, i: nat, j: nat, o: OrderId)
    requires IsRun(run) && i <= j < |run|
    ensures var db := run[i].sys.db;
            && (IsPaid(db.rows, o) <==>
                  exists p :: IsApproved(db.rows, p, o) && forall q | IsApproved(db.rows, q, o) :: q == p)
            && Count(db.ledger, PurchaseKey(o)) == (if IsPaid(db.rows, o) then 1 else 0)
            && (IsPaid(db.rows, o) ==>
                  exists e :: e in db.ledger && e.key == PurchaseKey(o)
                              && e.user == db.rows[OrderK(o)].user && e.amount == db.rows[OrderK(o)].credits)
            && Total(PaidPrices(db.rows)) == Total(ApprovedAmounts(db.rows))
            && (IsPaid(db.rows, o) ==> IsPaid(run[j].sys.db.rows, o))
  {
    hide MoneyInv, PayInv, AdsInv, EngineInv, IsRun, Count, Evolves, IsPaid, IsApproved, PaidPrices, ApprovedAmounts;
    RunsAreSafe(run, i);
    RunsMoveForward(run, i, j);
    PaidOnce(run[i].sys.db.rows, o);
    PurchasePosted(run[i].sys.db, o);
    if IsPaid(run[i].sys.db.rows, o) {
      PaidStays(run[i].sys.db.rows, run[j].sys.db.rows, o);
    }
  }

  /** The price of every order, for ever: the list price of its package, or four fifths of it rounded
      to a cent and paid for with a flash offer. */
  lemma PricesAreFrozen(run: seq<Server>, i: nat, j: nat, o: OrderId)
    requires IsRun(run) && i <= j < |run| && OrderK(o) in run[i].sys.db.rows
    ensures var order := run[i].sys.db.rows[OrderK(o)];
            && 0 <= order.cents <= order.listCents
            && (if order.discount.Some? then -50 < 100 * order.cents - 80 * order.listCents <= 50
                else order.cents == order.listCents)
            && (order.discount.Some? ==> order.pkg == "BASICO_FUEGO")
            && OrderK(o) in run[j].sys.db.rows
            && run[j].sys.db.rows[OrderK(o)] == order.(paid := run[j].sys.db.rows[OrderK(o)].paid)
  {
    hide IsRun, MoneyInv, PayInv, EngineInv, Consistent, Discounted;
    RunsAreSafe(run, i);
    RunsMoveForward(run, i, j);
    var rows := run[i].sys.db.rows;
    var order := rows[OrderK(o)];
    assert DiscountOk(rows, o) && Later(order, run[j].sys.db.rows[OrderK(o)]);
    if order.discount.Some? {
      assert OfferOk(rows, order.offer.value);
      PriceIsRounded(order.listCents, FLASH_OFFER_PERCENT);
    }
  }

  /** The completed ads in a counter, and the unlocks taken from it. */
  ghost function Counter(rows: Rows, u: UserId, kind: RewardType): (nat, nat) {
    if ProgressK(u, kind) in rows then (rows[ProgressK(u, kind)].count, rows[ProgressK(u, kind)].taken) else (0, 0)
  }

  /** Ads are conserved, and every two completed flash ads discount at most one order. */
  lemma AdsAreSafe(run: seq<Server>, i: nat, u: UserId, kind: RewardType)
    requires IsRun(run) && i < |run|
    ensures var rows := run[i].sys.db.rows;
            var (count, taken) := Counter(rows, u, kind);
            && (kind == FlashOfferUnlock ==>
                  count < 2 && 2 * |Offers(rows, u)| + count == |Rewards(rows, u, FlashOfferUnlock)|)
            && (kind == DailyCardUnlock ==> taken + count <= |Rewards(rows, u, DailyCardUnlock)|)
            && (kind == TarotReadingUnlock ==> 5 * taken + count <= |Rewards(rows, u, TarotReadingUnlock)|)
            && (forall s :: SessionOk(rows, s)) && (forall o :: DiscountOk(rows, o)) && (forall f :: OfferOk(rows, f))
            && 2 * |Discounts(rows, u)| <= |Rewards(rows, u, FlashOfferUnlock)|
  {
    RunsAreSafe(run, i);
    assert AdsConserved(run[i].sys.db.rows, u, kind);
    DiscountsAreEarned(run[i].sys.db.rows, u);
  }
}
