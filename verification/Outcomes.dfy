/** What each transaction asks of the tables and writes to them, row by row: when it commits, the rows
    after it, the wallet transactions it adds, and that no other row changes. */
module Outcomes {
  import opened Database
  import opened Statements
  import opened Atomic

  ghost predicate Has(db: Db, k: Key, row: Row) {
    k in db.rows && db.rows[k] == row
  }

  /** Every row but those is as before. */
  ghost predicate Only(db: Db, db': Db, keys: set<Key>) {
    forall k | k !in keys :: SameRow(db.rows, db'.rows, k)
  }

  /** One new wallet transaction, under a key that was free. */
  ghost predicate Logs(db: Db, db': Db, e: Entry) {
    EntryK(e.key) !in db.rows && Has(db', EntryK(e.key), EntryRow(e)) && db'.ledger == db.ledger + [e]
  }

  // ---------- Wallets ----------

  ghost predicate CanOpen(db: Db, u: UserId, bonus: nat) {
    WalletK(u) !in db.rows && (bonus > 0 ==> EntryK(BonusKey(u)) !in db.rows)
  }

  ghost predicate Opens(db: Db, u: UserId, bonus: nat, db': Db) {
    && Has(db', WalletK(u), WalletRow(bonus))
    && (if bonus > 0 then Logs(db, db', Entry(BonusKey(u), u, bonus, bonus)) else db'.ledger == db.ledger)
    && Only(db, db', {WalletK(u)} + if bonus > 0 then {EntryK(BonusKey(u))} else {})
  }

  lemma OpenSays(db: Db, u: UserId, bonus: nat, seen: Seen)
    ensures var effect := Effect(CreateWallet(u, bonus), db, seen);
            (effect.Some? <==> CanOpen(db, u, bonus)) && (effect.Some? ==> Opens(db, u, bonus, effect.value))
  {
  }

  ghost predicate CanAdjust(db: Db, u: UserId, amount: int, id: AdjustmentId) {
    && WalletK(u) in db.rows && (amount < 0 ==> db.rows[WalletK(u)].balance + amount >= 0)
    && EntryK(AdjustmentKey(id)) !in db.rows && AuditK(id) !in db.rows
  }

  /** The wallet moves by the signed amount, which the entry and the audit row record. */
  ghost predicate Adjusts(db: Db, u: UserId, amount: int, id: AdjustmentId, db': Db) {
    && WalletK(u) in db.rows
    && var balance := db.rows[WalletK(u)].balance + amount;
       && Has(db', WalletK(u), WalletRow(balance))
       && Logs(db, db', Entry(AdjustmentKey(id), u, amount, balance))
       && Has(db', AuditK(id), AuditRow(u, amount, balance))
       && Only(db, db', {WalletK(u), EntryK(AdjustmentKey(id)), AuditK(id)})
  }

  lemma AdjustSays(db: Db, u: UserId, amount: int, id: AdjustmentId)
    ensures var effect := AdjustBalance(db, u, amount, id);
            && (effect.Some? <==> CanAdjust(db, u, amount, id))
            && (effect.Some? ==> Adjusts(db, u, amount, id, effect.value))
  {
  }

  // ---------- Readings ----------

  ghost predicate CanReserve(db: Db, u: UserId, r: ReadingId, amount: int) {
    && WalletK(u) in db.rows && db.rows[WalletK(u)].balance >= amount
    && ReservationK(r) !in db.rows && EntryK(ReservationKey(r)) !in db.rows
  }

  /** The amount leaves the wallet for an ACTIVE reservation of the reading. */
  ghost predicate Reserves(db: Db, u: UserId, r: ReadingId, amount: int, db': Db) {
    && WalletK(u) in db.rows && ReservationK(r) !in db.rows
    && var balance := db.rows[WalletK(u)].balance - amount;
       && Has(db', WalletK(u), WalletRow(balance))
       && Has(db', ReservationK(r), ReservationRow(u, amount, Active))
       && Logs(db, db', Entry(ReservationKey(r), u, -amount, balance))
  }

  lemma ReserveSays(db: Db, u: UserId, r: ReadingId, amount: int)
    ensures var effect := Reserve(db, u, r, amount);
            && (effect.Some? <==> CanReserve(db, u, r, amount))
            && (effect.Some? ==>
                  && Reserves(db, u, r, amount, effect.value)
                  && Only(db, effect.value, {WalletK(u), ReservationK(r), EntryK(ReservationKey(r))}))
  {
  }

  /** `free` says that an ad unlock pays. */
  ghost predicate CanSubmit(db: Db, u: UserId, r: ReadingId, cost: nat, draws: Option<seq<TarotDraw>>, free: bool) {
    && ReadingK(r) in db.rows && db.rows[ReadingK(r)].user == u
    && (free ==> ProgressK(u, TarotReadingUnlock) in db.rows && db.rows[ProgressK(u, TarotReadingUnlock)].count >= 5)
    && CanReserve(db, u, r, if free then 0 else cost)
    && (draws.Some? ==> DrawsK(r) !in db.rows)
  }

  /** The reading is PENDING, its cards are stored as drawn, and it is paid by a full ad counter, or
      else by credits. */
  ghost predicate Submits(db: Db, u: UserId, r: ReadingId, cost: nat, draws: Option<seq<TarotDraw>>, free: bool,
                          db': Db)
  {
    var counter := ProgressK(u, TarotReadingUnlock);
    && Has(db', ReadingK(r), ReadingRow(u, Pending))
    && Reserves(db, u, r, if free then 0 else cost, db')
    && (draws.Some? ==> Has(db', DrawsK(r), DrawsRow(draws.value)))
    && (free ==> counter in db.rows && Has(db', counter, ProgressRow(0, db.rows[counter].taken + 1)))
    && Only(db, db', {ReadingK(r), WalletK(u), ReservationK(r), EntryK(ReservationKey(r))}
                     + (if draws.Some? then {DrawsK(r)} else {}) + (if free then {counter} else {}))
  }

  /** The last two statements of a submit. */
  lemma PendingSays(db: Db, r: ReadingId, draws: Option<seq<TarotDraw>>)
    ensures var drawn := if draws.Some? then InsertRow(db, DrawsK(r), DrawsRow(draws.value)) else Some(db);
            var effect := if drawn.None? then None else SetReading(drawn.value, r, Pending);
            && (effect.Some? <==> ReadingK(r) in db.rows && (draws.Some? ==> DrawsK(r) !in db.rows))
            && (effect.Some? ==>
                  && Has(effect.value, ReadingK(r), ReadingRow(db.rows[ReadingK(r)].user, Pending))
                  && (draws.Some? ==> Has(effect.value, DrawsK(r), DrawsRow(draws.value)))
                  && effect.value.ledger == db.ledger
                  && Only(db, effect.value, {ReadingK(r)} + if draws.Some? then {DrawsK(r)} else {}))
  {
  }

  /** A transaction in three parts that touch different rows. */
  lemma SubmitPasses(db: Db, db1: Db, db2: Db, db': Db, u: UserId, r: ReadingId, cost: nat,
                     draws: Option<seq<TarotDraw>>, free: bool)
    requires if free then Spends(db, u, TarotReadingUnlock, db1) else db1 == db
    requires Reserves(db1, u, r, if free then 0 else cost, db2)
    requires Only(db1, db2, {WalletK(u), ReservationK(r), EntryK(ReservationKey(r))})
    requires ReadingK(r) in db2.rows && Has(db', ReadingK(r), ReadingRow(u, Pending))
    requires draws.Some? ==> Has(db', DrawsK(r), DrawsRow(draws.value))
    requires db'.ledger == db2.ledger && Only(db2, db', {ReadingK(r)} + if draws.Some? then {DrawsK(r)} else {})
    ensures Submits(db, u, r, cost, draws, free, db')
  {
    hide Only, IsUnlocked;
    var counter := ProgressK(u, TarotReadingUnlock);
    var late := {ReadingK(r)} + if draws.Some? then {DrawsK(r)} else {};
    if !free {
      Itself(db);
    }
    SubmitOnly(db, db1, db2, db', u, r, draws, free);
    SpentLeaves(db, u, r, db1);
    Untouched(db1, db2, {WalletK(u), ReservationK(r), EntryK(ReservationKey(r))}, counter);
    Untouched(db2, db', late, counter);
    Untouched(db2, db', late, WalletK(u));
    Untouched(db2, db', late, ReservationK(r));
    Untouched(db2, db', late, EntryK(ReservationKey(r)));
  }

  lemma Itself(db: Db)
    ensures Only(db, db, {})
  {
  }

  lemma Untouched(db: Db, db': Db, keys: set<Key>, k: Key)
    requires Only(db, db', keys) && k !in keys
    ensures SameRow(db.rows, db'.rows, k)
  {
  }

  lemma SubmitReadingSays(db: Db, u: UserId, r: ReadingId, cost: nat, draws: Option<seq<TarotDraw>>, free: bool)
    ensures var effect := SubmitReading(db, u, r, cost, draws, free);
            && (effect.Some? <==> CanSubmit(db, u, r, cost, draws, free))
            && (effect.Some? ==> Submits(db, u, r, cost, draws, free, effect.value))
  {
    hide Reserve, SpendUnlock, InsertRow, SetReading, Spends, Submits, Has, Logs, HasUnlock, AdsRequired;
    SpendSays(db, u, TarotReadingUnlock);
    var spent := SpendUnlock(db, u, TarotReadingUnlock);
    var db1 := if free && spent.Some? then spent.value else db;
    var paid := if free then 0 else cost;
    SpentLeaves(db, u, r, db1);
    ReserveSays(db1, u, r, paid);
    if Reserve(db1, u, r, paid).Some? {
      var db2 := Reserve(db1, u, r, paid).value;
      assert SameRow(db1.rows, db2.rows, ReadingK(r)) && SameRow(db1.rows, db2.rows, DrawsK(r));
      PendingSays(db2, r, draws);
      if SubmitReading(db, u, r, cost, draws, free).Some? {
        SubmitPasses(db, db1, db2, SubmitReading(db, u, r, cost, draws, free).value, u, r, cost, draws, free);
      }
    }
  }

  lemma SpentLeaves(db: Db, u: UserId, r: ReadingId, db1: Db)
    requires db1 == db || Spends(db, u, TarotReadingUnlock, db1)
    ensures SameRow(db.rows, db1.rows, ReadingK(r)) && SameRow(db.rows, db1.rows, DrawsK(r))
    ensures SameRow(db.rows, db1.rows, WalletK(u)) && SameRow(db.rows, db1.rows, ReservationK(r))
    ensures SameRow(db.rows, db1.rows, EntryK(ReservationKey(r)))
    ensures IsUnlocked(db, u, TarotReadingUnlock) <==>
            ProgressK(u, TarotReadingUnlock) in db.rows && db.rows[ProgressK(u, TarotReadingUnlock)].count >= 5
  {
    assert IsPrice(TarotReadingUnlock, 5);
  }

  lemma SubmitOnly(db: Db, db1: Db, db2: Db, db': Db, u: UserId, r: ReadingId, draws: Option<seq<TarotDraw>>,
                   free: bool)
    requires Only(db, db1, if free then {ProgressK(u, TarotReadingUnlock)} else {})
    requires Only(db1, db2, {WalletK(u), ReservationK(r), EntryK(ReservationKey(r))})
    requires Only(db2, db', {ReadingK(r)} + if draws.Some? then {DrawsK(r)} else {})
    ensures Only(db, db', {ReadingK(r), WalletK(u), ReservationK(r), EntryK(ReservationKey(r))}
                          + (if draws.Some? then {DrawsK(r)} else {})
                          + (if free then {ProgressK(u, TarotReadingUnlock)} else {}))
  {
    forall k | k !in {ReadingK(r), WalletK(u), ReservationK(r), EntryK(ReservationKey(r))}
               && (draws.Some? ==> k != DrawsK(r)) && (free ==> k != ProgressK(u, TarotReadingUnlock))
      ensures SameRow(db.rows, db'.rows, k)
    {
      assert SameRow(db.rows, db1.rows, k) && SameRow(db1.rows, db2.rows, k) && SameRow(db2.rows, db'.rows, k);
    }
  }

  lemma SubmitSays(db: Db, op: Op, seen: Seen)
    requires op.Submit?
    ensures var Submit(u, r, cost, ads, draws) := op;
            var effect := Effect(op, db, seen);
            && (effect.Some? <==> CanSubmit(db, u, r, cost, draws, ads && seen.hit))
            && (effect.Some? ==> Submits(db, u, r, cost, draws, ads && seen.hit, effect.value))
  {
    hide SubmitReading, CanSubmit, Submits;
    SubmitReadingSays(db, op.user, op.reading, op.cost, op.draws, op.adUnlockable && seen.hit);
  }

  ghost predicate IsActive(db: Db, r: ReadingId) {
    ReservationK(r) in db.rows && db.rows[ReservationK(r)].hold == Active
  }

  ghost predicate CanConsume(db: Db, r: ReadingId) {
    IsActive(db, r) ==> WalletK(db.rows[ReservationK(r)].user) in db.rows && EntryK(ConsumptionKey(r)) !in db.rows
  }

  /** An ACTIVE reservation becomes CONSUMED, and no credits move. */
  ghost predicate Consumes(db: Db, r: ReadingId, balance: int, db': Db) {
    if !IsActive(db, r) then db' == db
    else
      var ReservationRow(u, amount, _) := db.rows[ReservationK(r)];
      && Has(db', ReservationK(r), ReservationRow(u, amount, Consumed))
      && Logs(db, db', Entry(ConsumptionKey(r), u, 0, balance))
      && Only(db, db', {ReservationK(r), EntryK(ConsumptionKey(r))})
  }

  lemma ConsumeSays(db: Db, r: ReadingId, balance: int)
    ensures var effect := ConfirmHold(db, r, balance);
            (effect.Some? <==> CanConsume(db, r)) && (effect.Some? ==> Consumes(db, r, balance, effect.value))
  {
  }

  ghost predicate CanReturn(db: Db, r: ReadingId) {
    IsActive(db, r) ==> WalletK(db.rows[ReservationK(r)].user) in db.rows && EntryK(ReleaseKey(r)) !in db.rows
  }

  /** An ACTIVE reservation becomes RELEASED, and its amount goes back to the wallet it came from. */
  ghost predicate Returns(db: Db, r: ReadingId, db': Db) {
    if !IsActive(db, r) then db' == db
    else
      var ReservationRow(u, amount, _) := db.rows[ReservationK(r)];
      && WalletK(u) in db.rows
      && var balance := db.rows[WalletK(u)].balance + amount;
         && Has(db', ReservationK(r), ReservationRow(u, amount, Released))
         && Has(db', WalletK(u), WalletRow(balance))
         && Logs(db, db', Entry(ReleaseKey(r), u, amount, balance))
         && Only(db, db', {ReservationK(r), WalletK(u), EntryK(ReleaseKey(r))})
  }

  lemma ReturnSays(db: Db, r: ReadingId)
    ensures var effect := ReleaseHold(db, r);
            (effect.Some? <==> CanReturn(db, r)) && (effect.Some? ==> Returns(db, r, effect.value))
  {
  }

  /** One status of one reading changes. */
  ghost predicate Marks(db: Db, r: ReadingId, to: ReadingStatus, db': Db) {
    && ReadingK(r) in db.rows && Has(db', ReadingK(r), ReadingRow(db.rows[ReadingK(r)].user, to))
    && Only(db, db', {ReadingK(r)}) && db'.ledger == db.ledger
  }

  /** The status writes of jobs, callbacks and retries. */
  lemma StatusSays(db: Db, op: Op, seen: Seen)
    ensures var effect := Effect(op, db, seen);
            match op
            case StartProcessing(r) =>
              (effect.Some? <==> ReadingK(r) in db.rows) && (effect.Some? ==> Marks(db, r, Processing, effect.value))
            case Finish(r, verdict) =>
              && (effect.Some? <==> ReadingK(r) in db.rows)
              && (effect.Some? ==> Marks(db, r, if verdict == Delivered then Completed else Failed, effect.value))
            case MarkFailed(r) =>
              if ReadingK(r) in db.rows && db.rows[ReadingK(r)].status != Completed
              then effect.Some? && Marks(db, r, Failed, effect.value)
              else effect == Some(db)
            case Retry(r) =>
              && (effect.Some? <==> ReadingK(r) in db.rows && db.rows[ReadingK(r)].status != Draft)
              && (effect.Some? ==> Marks(db, r, Pending, effect.value))
            case _ => true
  {
  }

  /** The inserts of new readings, executions and sessions. */
  lemma InsertSays(db: Db, op: Op, seen: Seen)
    ensures var effect := Effect(op, db, seen);
            match op
            case CreateReading(r, u) =>
              && (effect.Some? <==> ReadingK(r) !in db.rows)
              && (effect.Some? ==> Inserts(db, ReadingK(r), ReadingRow(u, Draft), effect.value))
            case RecordExecution(id, r, task, checks) =>
              var verdict := if checks == Checks(true, true, true, true, true) then Delivered else Rejected;
              && (effect.Some? <==> ExecutionK(id) !in db.rows)
              && (effect.Some? ==> Inserts(db, ExecutionK(id), ExecutionRow(r, task, checks, verdict), effect.value))
            case OpenSession(s, u, kind) =>
              && (effect.Some? <==> SessionK(s) !in db.rows)
              && (effect.Some? ==> Inserts(db, SessionK(s), SessionRow(u, kind, Created), effect.value))
            case _ => true
  {
  }

  ghost predicate Inserts(db: Db, k: Key, row: Row, db': Db) {
    k !in db.rows && Has(db', k, row) && Only(db, db', {k}) && db'.ledger == db.ledger
  }

  // ---------- Orders and payments ----------

  /** The offer is still there for this user and package. */
  ghost predicate CanUse(db: Db, f: OfferId, u: UserId, pkg: string) {
    && OfferK(f) in db.rows && !db.rows[OfferK(f)].consumed
    && db.rows[OfferK(f)].user == u && db.rows[OfferK(f)].pkg == pkg
  }

  /** `price` is the list price less the percentage, to the nearest cent. */
  predicate IsDiscounted(price: int, cents: nat, percent: nat) {
    -50 < 100 * price - cents * (100 - percent) <= 50
  }

  /** The order freezes what the package offers: its credits, its currency, and its price or the
      discounted one of the offer `used`, which is consumed. */
  ghost predicate Orders(db: Db, o: OrderId, u: UserId, pkg: Package, used: Option<OfferId>, db': Db) {
    && OrderK(o) !in db.rows && OrderK(o) in db'.rows && db'.ledger == db.ledger
    && var OrderRow(buyer, code, listCents, discount, offer, credits, cents, currency, paid) := db'.rows[OrderK(o)];
       && buyer == u && code == pkg.code && listCents == pkg.cents && credits == pkg.credits
       && currency == pkg.currency && paid == Unpaid && offer == used
       && (if used.None? then discount == None && cents == pkg.cents && Only(db, db', {OrderK(o)})
           else
             var f := OfferK(used.value);
             && CanUse(db, used.value, u, pkg.code) && discount == Some(db.rows[f].percent)
             && IsDiscounted(cents, pkg.cents, db.rows[f].percent)
             && Has(db', f, OfferRow(u, pkg.code, db.rows[f].percent, true))
             && Only(db, db', {OrderK(o), f}))
  }

  lemma OrderSays(db: Db, o: OrderId, u: UserId, pkg: Package, pick: Option<OfferId>, took: bool)
    ensures var effect := PlaceOrder(db, o, u, pkg, pick, took);
            var used := if took then pick else None;
            && (effect.Some? <==> OrderK(o) !in db.rows && (used.Some? ==> CanUse(db, used.value, u, pkg.code)))
            && (effect.Some? ==> Orders(db, o, u, pkg, used, effect.value))
  {
    hide Discounted;
    if took && pick.Some? && OfferK(pick.value) in db.rows {
      RoundsToNearest(pkg.cents, db.rows[OfferK(pick.value)].percent);
    }
  }

  lemma PurchaseSays(db: Db, op: Op, seen: Seen)
    requires op.CreateOrder?
    ensures var CreateOrder(o, u, pkg, pick) := op;
            var effect := Effect(op, db, seen);
            var used := if seen.hit then pick else None;
            && (effect.Some? <==> OrderK(o) !in db.rows && (used.Some? ==> CanUse(db, used.value, u, pkg.code)))
            && (effect.Some? ==> Orders(db, o, u, pkg, used, effect.value))
  {
    hide PlaceOrder, Orders, CanUse;
    OrderSays(db, op.order, op.user, op.package, op.pick, seen.hit);
  }

  lemma RoundsToNearest(cents: nat, percent: nat)
    ensures IsDiscounted(Discounted(cents, percent), cents, percent)
  {
    var exact := cents * (100 - percent);
    var p := (exact * 2 + 100) / 200;
    assert 200 * p <= exact * 2 + 100 < 200 * p + 200;
    assert Discounted(cents, percent) == p;
  }

  /** A payment of the user's own order, at its frozen price. */
  ghost predicate ChecksOut(db: Db, p: PaymentId, o: OrderId, u: UserId, db': Db) {
    && OrderK(o) in db.rows && db.rows[OrderK(o)].user == u
    && Inserts(db, PaymentK(p), PaymentRow(o, db.rows[OrderK(o)].cents, db.rows[OrderK(o)].currency, InProgress), db')
  }

  lemma CheckoutSays(db: Db, p: PaymentId, o: OrderId, u: UserId)
    ensures var effect := CheckoutOrder(db, p, o, u);
            && (effect.Some? <==> OrderK(o) in db.rows && db.rows[OrderK(o)].user == u && PaymentK(p) !in db.rows)
            && (effect.Some? ==> ChecksOut(db, p, o, u, effect.value))
  {
  }

  ghost predicate IsPending(db: Db, p: PaymentId) {
    PaymentK(p) in db.rows && db.rows[PaymentK(p)].state == InProgress
  }

  ghost predicate CanApprove(db: Db, p: PaymentId) {
    && IsPending(db, p)
    && var o := db.rows[PaymentK(p)].order;
       && OrderK(o) in db.rows && WalletK(db.rows[OrderK(o)].user) in db.rows && EntryK(PurchaseKey(o)) !in db.rows
  }

  /** The payment is approved, its order paid, and the buyer richer by the order's credits. */
  ghost predicate Approves(db: Db, p: PaymentId, db': Db) {
    && CanApprove(db, p)
    && var o := db.rows[PaymentK(p)].order;
       var order := db.rows[OrderK(o)];
       var balance := db.rows[WalletK(order.user)].balance + order.credits;
       && Has(db', PaymentK(p), db.rows[PaymentK(p)].(state := Approved))
       && Has(db', OrderK(o), order.(paid := Paid))
       && Has(db', WalletK(order.user), WalletRow(balance))
       && Logs(db, db', Entry(PurchaseKey(o), order.user, order.credits, balance))
       && Only(db, db', {PaymentK(p), OrderK(o), WalletK(order.user), EntryK(PurchaseKey(o))})
  }

  lemma ApproveSays(db: Db, p: PaymentId)
    requires PaymentK(p) in db.rows
    ensures var effect := ApprovePayment(db, p);
            if !IsPending(db, p) then effect == Some(db)
            else (effect.Some? <==> CanApprove(db, p)) && (effect.Some? ==> Approves(db, p, effect.value))
  {
  }

  /** The payment takes a final status without approval; `cancel` says that its order was unpaid, and
      is cancelled with it. */
  ghost predicate Closes(db: Db, p: PaymentId, to: PaymentStatus, cancel: bool, db': Db) {
    && IsPending(db, p) && db'.ledger == db.ledger
    && Has(db', PaymentK(p), db.rows[PaymentK(p)].(state := to))
    && var o := OrderK(db.rows[PaymentK(p)].order);
       if cancel then
         && o in db.rows && db.rows[o].paid == Unpaid && Has(db', o, db.rows[o].(paid := Cancelled))
         && Only(db, db', {PaymentK(p), o})
       else Only(db, db', {PaymentK(p)})
  }

  lemma TerminateSays(db: Db, p: PaymentId, to: Failure, cancel: bool)
    requires PaymentK(p) in db.rows
    ensures var effect := TerminatePayment(db, p, to, cancel);
            var o := OrderK(db.rows[PaymentK(p)].order);
            if !IsPending(db, p) then effect == Some(db)
            else
              && (effect.Some? <==> (cancel ==> o in db.rows && db.rows[o].paid == Unpaid))
              && (effect.Some? ==> Closes(db, p, to, cancel, effect.value))
  {
  }

  // ---------- Ads ----------

  /** Completed ads that an unlock costs: one for the daily card, five for a reading, two for an offer. */
  predicate IsPrice(kind: RewardType, ads: nat) {
    match kind
    case DailyCardUnlock => ads == 1
    case TarotReadingUnlock => ads == 5
    case FlashOfferUnlock => ads == 2
  }

  lemma PricesSay(kind: RewardType)
    ensures IsPrice(kind, AdsRequired(kind))
  {
  }

  /** A full counter. */
  ghost predicate IsUnlocked(db: Db, u: UserId, kind: RewardType) {
    ProgressK(u, kind) in db.rows && forall ads | IsPrice(kind, ads) :: db.rows[ProgressK(u, kind)].count >= ads
  }

  /** A full counter is emptied, and nothing else changes. */
  ghost predicate Spends(db: Db, u: UserId, kind: RewardType, db': Db) {
    && IsUnlocked(db, u, kind) && db'.ledger == db.ledger
    && Has(db', ProgressK(u, kind), ProgressRow(0, db.rows[ProgressK(u, kind)].taken + 1))
    && Only(db, db', {ProgressK(u, kind)})
  }

  lemma SpendSays(db: Db, u: UserId, kind: RewardType)
    ensures var effect := SpendUnlock(db, u, kind);
            (effect.Some? <==> IsUnlocked(db, u, kind)) && (effect.Some? ==> Spends(db, u, kind, effect.value))
            && (HasUnlock(db, u, kind) <==> IsUnlocked(db, u, kind))
  {
    PricesSay(kind);
  }

  ghost predicate IsOpenSession(db: Db, s: SessionId) {
    SessionK(s) in db.rows && (db.rows[SessionK(s)].progress == Created || db.rows[SessionK(s)].progress == Started)
  }

  /** The count of the user's counter for that kind; there is none before the first ad. */
  ghost function AdsSeen(db: Db, u: UserId, kind: RewardType): nat {
    if ProgressK(u, kind) in db.rows then db.rows[ProgressK(u, kind)].count else 0
  }

  ghost function AdsTaken(db: Db, u: UserId, kind: RewardType): nat {
    if ProgressK(u, kind) in db.rows then db.rows[ProgressK(u, kind)].taken else 0
  }

  /** The second flash ad of a cycle. */
  ghost predicate EarnsFlash(db: Db, u: UserId, kind: RewardType) {
    kind == FlashOfferUnlock && AdsSeen(db, u, kind) >= 1
  }

  /** The counter grows by one, and a second flash ad empties it and grants 20% off BASICO_FUEGO. */
  ghost predicate Counts(db: Db, u: UserId, kind: RewardType, f: OfferId, db': Db) {
    var counter := ProgressK(u, kind);
    && db'.ledger == db.ledger
    && if EarnsFlash(db, u, kind) then
         && Has(db', counter, ProgressRow(0, AdsTaken(db, u, kind)))
         && Has(db', OfferK(f), OfferRow(u, "BASICO_FUEGO", 20, false))
         && Only(db, db', {counter, OfferK(f)})
       else
         && Has(db', counter, ProgressRow(AdsSeen(db, u, kind) + 1, AdsTaken(db, u, kind)))
         && Only(db, db', {counter})
  }

  ghost predicate CanReward(db: Db, s: SessionId, f: OfferId) {
    && IsOpenSession(db, s) && RewardK(s) !in db.rows
    && (EarnsFlash(db, db.rows[SessionK(s)].user, db.rows[SessionK(s)].kind) ==> OfferK(f) !in db.rows)
  }

  /** The session is completed and rewarded, its counter grows by one, and a second flash ad empties it
      and grants 20% off BASICO_FUEGO. */
  ghost predicate Completes(db: Db, s: SessionId, f: OfferId, db': Db) {
    && IsOpenSession(db, s) && db'.ledger == db.ledger
    && var SessionRow(u, kind, _) := db.rows[SessionK(s)];
       var counter := ProgressK(u, kind);
       && Has(db', SessionK(s), SessionRow(u, kind, Rewarded)) && Has(db', RewardK(s), RewardRow(u, kind))
       && (if EarnsFlash(db, u, kind) then
             && Has(db', counter, ProgressRow(0, AdsTaken(db, u, kind)))
             && Has(db', OfferK(f), OfferRow(u, "BASICO_FUEGO", 20, false))
             && Only(db, db', {SessionK(s), RewardK(s), counter, OfferK(f)})
           else
             && Has(db', counter, ProgressRow(AdsSeen(db, u, kind) + 1, AdsTaken(db, u, kind)))
             && Only(db, db', {SessionK(s), RewardK(s), counter}))
  }

  lemma CompleteSays(db: Db, s: SessionId, f: OfferId)
    requires IsOpenSession(db, s)
    ensures var effect := RewardSession(db, s, f);
            (effect.Some? <==> CanReward(db, s, f)) && (effect.Some? ==> Completes(db, s, f, effect.value))
  {
  }

  /** The other transactions: adjustments, settlements, checkouts, payments, unlocks and completed ads. */
  lemma TransactionsSay(db: Db, op: Op, seen: Seen)
    ensures var effect := Effect(op, db, seen);
            match op
            case Adjust(u, amount, id) =>
              && (effect.Some? <==> CanAdjust(db, u, amount, id))
              && (effect.Some? ==> Adjusts(db, u, amount, id, effect.value))
            case Confirm(r) =>
              (effect.Some? <==> CanConsume(db, r)) && (effect.Some? ==> Consumes(db, r, seen.balance, effect.value))
            case Release(r) =>
              (effect.Some? <==> CanReturn(db, r)) && (effect.Some? ==> Returns(db, r, effect.value))
            case Checkout(p, o, u) =>
              && (effect.Some? <==> OrderK(o) in db.rows && db.rows[OrderK(o)].user == u && PaymentK(p) !in db.rows)
              && (effect.Some? ==> ChecksOut(db, p, o, u, effect.value))
            case Approve(p) =>
              if IsPending(db, p)
              then (effect.Some? <==> CanApprove(db, p)) && (effect.Some? ==> Approves(db, p, effect.value))
              else effect == if PaymentK(p) in db.rows then Some(db) else None
            case Terminate(p, to) =>
              if IsPending(db, p) then
                var o := OrderK(db.rows[PaymentK(p)].order);
                && (effect.Some? <==> (seen.hit ==> o in db.rows && db.rows[o].paid == Unpaid))
                && (effect.Some? ==> Closes(db, p, to, seen.hit, effect.value))
              else effect == if PaymentK(p) in db.rows then Some(db) else None
            case CompleteSession(s, f) =>
              if IsOpenSession(db, s)
              then (effect.Some? <==> CanReward(db, s, f)) && (effect.Some? ==> Completes(db, s, f, effect.value))
              else effect == if SessionK(s) in db.rows then Some(db) else None
            case TakeDailyUnlock(u) =>
              if seen.hit then
                && (effect.Some? <==> IsUnlocked(db, u, DailyCardUnlock))
                && (effect.Some? ==> Spends(db, u, DailyCardUnlock, effect.value))
              else effect == Some(db)
            case _ => true
  {
    hide CanAdjust, Adjusts, CanConsume, Consumes, CanReturn, Returns, ChecksOut, CanApprove, Approves, Closes, CanReward,
         Completes, IsUnlocked, Spends, AdjustBalance, ConfirmHold, ReleaseHold, CheckoutOrder, SpendUnlock;
    match op
    case Adjust(u, amount, id) => AdjustSays(db, u, amount, id);
    case Confirm(r) => ConsumeSays(db, r, seen.balance);
    case Release(r) => ReturnSays(db, r);
    case Checkout(p, o, u) => CheckoutSays(db, p, o, u);
    case Approve(p) =>
      if PaymentK(p) in db.rows {
        ApproveSays(db, p);
      }
    case Terminate(p, to) =>
      if PaymentK(p) in db.rows {
        TerminateSays(db, p, to, seen.hit);
      }
    case CompleteSession(s, f) =>
      if IsOpenSession(db, s) {
        CompleteSays(db, s, f);
      }
    case TakeDailyUnlock(u) => SpendSays(db, u, DailyCardUnlock);
    case _ =>
  }

  /** An open session expires. */
  ghost predicate Expires(db: Db, s: SessionId, db': Db) {
    && SessionK(s) in db.rows && Has(db', SessionK(s), db.rows[SessionK(s)].(progress := Expired))
    && Only(db, db', {SessionK(s)}) && db'.ledger == db.ledger
  }

  lemma ExpireSays(db: Db, s: SessionId, seen: Seen)
    ensures var effect := Effect(ExpireSession(s), db, seen);
            effect.Some? && if IsOpenSession(db, s) then Expires(db, s, effect.value) else effect.value == db
  {
  }
}
