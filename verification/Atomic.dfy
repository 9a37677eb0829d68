/** What each transaction does to the committed database, as one step. `None` is a rollback.

    Two things a transaction acts on can differ from the state it commits on, and are parameters:
    a balance read without a lock, and whether a conditional update it may skip found its row. */
module Atomic {
  import opened Database
  import opened Statements

  datatype Seen = Seen(balance: int, hit: bool)

  function InsertRow(db: Db, k: Key, row: Row): Option<Db>
    requires Fits(k, row)
  {
    if k in db.rows then None else Some(Put(db, k, row))
  }

  /** Appends a wallet transaction under its unique idempotency key. */
  function Record(db: Db, key: IdemKey, u: UserId, amount: int, balanceAfter: int): Option<Db> {
    if EntryK(key) in db.rows then None else Some(Post(db, Entry(key, u, amount, balanceAfter)))
  }

  function Balance(db: Db, u: UserId): int {
    if WalletK(u) in db.rows then db.rows[WalletK(u)].balance else 0
  }

  /** Takes credits from a wallet, never below zero. */
  function Debited(db: Db, u: UserId, amount: int): Option<Db> {
    if WalletK(u) !in db.rows || Balance(db, u) < amount then None
    else Some(Put(db, WalletK(u), WalletRow(Balance(db, u) - amount)))
  }

  function Credited(db: Db, u: UserId, amount: int): Option<Db> {
    if WalletK(u) !in db.rows then None else Some(Put(db, WalletK(u), WalletRow(Balance(db, u) + amount)))
  }

  function OpenWallet(db: Db, u: UserId, bonus: nat): Option<Db> {
    var db1 :- InsertRow(db, WalletK(u), WalletRow(bonus));
    if bonus > 0 then Record(db1, BonusKey(u), u, bonus, bonus) else Some(db1)
  }

  function AdjustBalance(db: Db, u: UserId, amount: int, id: AdjustmentId): Option<Db> {
    var db1 :- if amount < 0 then Debited(db, u, -amount) else Credited(db, u, amount);
    var db2 :- Record(db1, AdjustmentKey(id), u, amount, Balance(db1, u));
    InsertRow(db2, AuditK(id), AuditRow(u, amount, Balance(db1, u)))
  }

  function Reserve(db: Db, u: UserId, r: ReadingId, amount: int): Option<Db> {
    var db1 :- Debited(db, u, amount);
    var db2 :- InsertRow(db1, ReservationK(r), ReservationRow(u, amount, Active));
    Record(db2, ReservationKey(r), u, -amount, Balance(db1, u))
  }

  predicate HasUnlock(db: Db, u: UserId, kind: RewardType) {
    ProgressK(u, kind) in db.rows && db.rows[ProgressK(u, kind)].count >= AdsRequired(kind)
  }

  function SpendUnlock(db: Db, u: UserId, kind: RewardType): Option<Db> {
    if !HasUnlock(db, u, kind) then None
    else Some(Put(db, ProgressK(u, kind), ProgressRow(0, db.rows[ProgressK(u, kind)].taken + 1)))
  }

  function SetReading(db: Db, r: ReadingId, to: Submitted): Option<Db> {
    if ReadingK(r) !in db.rows then None else Some(Put(db, ReadingK(r), db.rows[ReadingK(r)].(status := to)))
  }

  /** One submit: an ad unlock pays when there is one, credits otherwise. */
  function SubmitReading(db: Db, u: UserId, r: ReadingId, cost: nat, draws: Option<seq<TarotDraw>>,
                         free: bool): Option<Db> {
    if ReadingK(r) !in db.rows || db.rows[ReadingK(r)].user != u then None
    else
      var db1 :- if free then SpendUnlock(db, u, TarotReadingUnlock) else Some(db);
      var db2 :- Reserve(db1, u, r, if free then 0 else cost);
      var db3 :- if draws.Some? then InsertRow(db2, DrawsK(r), DrawsRow(draws.value)) else Some(db2);
      SetReading(db3, r, Pending)
  }

  predicate IsHeld(db: Db, r: ReadingId) {
    ReservationK(r) in db.rows && db.rows[ReservationK(r)].hold == Active
  }

  /** Closes an ACTIVE reservation. */
  function Closed(db: Db, r: ReadingId, to: Settled): Db
    requires IsHeld(db, r)
  {
    Put(db, ReservationK(r), db.rows[ReservationK(r)].(hold := to))
  }

  /** Consuming moves no money: the credits left the wallet when they were reserved. */
  function ConfirmHold(db: Db, r: ReadingId, balance: int): Option<Db> {
    if !IsHeld(db, r) then Some(db)
    else
      var held := db.rows[ReservationK(r)];
      if WalletK(held.user) !in db.rows then None
      else Record(Closed(db, r, Consumed), ConsumptionKey(r), held.user, 0, balance)
  }

  function ReleaseHold(db: Db, r: ReadingId): Option<Db> {
    if !IsHeld(db, r) then Some(db)
    else
      var held := db.rows[ReservationK(r)];
      var db1 :- Credited(Closed(db, r, Released), held.user, held.amount);
      Record(db1, ReleaseKey(r), held.user, held.amount, Balance(db1, held.user))
  }

  predicate InFlight(db: Db, p: PaymentId) {
    PaymentK(p) in db.rows && db.rows[PaymentK(p)].state == InProgress
  }

  function Settle(db: Db, p: PaymentId, to: FinalState): Db
    requires InFlight(db, p)
  {
    Put(db, PaymentK(p), db.rows[PaymentK(p)].(state := to))
  }

  function SetOrder(db: Db, o: OrderId, to: OrderStatus): Option<Db> {
    if OrderK(o) !in db.rows then None else Some(Put(db, OrderK(o), db.rows[OrderK(o)].(paid := to)))
  }

  function ApprovePayment(db: Db, p: PaymentId): Option<Db> {
    if PaymentK(p) !in db.rows then None
    else if !InFlight(db, p) then Some(db)
    else
      var o := db.rows[PaymentK(p)].order;
      var db1 :- SetOrder(Settle(db, p, Approved), o, Paid);
      var order := db1.rows[OrderK(o)];
      var db2 :- Credited(db1, order.user, order.credits);
      Record(db2, PurchaseKey(o), order.user, order.credits, Balance(db2, order.user))
  }

  /** `cancel` says whether the order was still unpaid when its update ran. */
  function TerminatePayment(db: Db, p: PaymentId, to: FinalState, cancel: bool): Option<Db> {
    if PaymentK(p) !in db.rows then None
    else if !InFlight(db, p) then Some(db)
    else
      var o := db.rows[PaymentK(p)].order;
      if !cancel then Some(Settle(db, p, to))
      else if OrderK(o) !in db.rows || db.rows[OrderK(o)].paid != Unpaid then None
      else SetOrder(Settle(db, p, to), o, Cancelled)
  }

  predicate Usable(db: Db, f: OfferId, u: UserId, pkg: string) {
    OfferK(f) in db.rows && db.rows[OfferK(f)].user == u && db.rows[OfferK(f)].pkg == pkg
    && !db.rows[OfferK(f)].consumed
  }

  function PlaceOrder(db: Db, o: OrderId, u: UserId, pkg: Package, pick: Option<OfferId>, took: bool): Option<Db> {
    if pick.None? || !took then InsertRow(db, OrderK(o), NewOrder(u, pkg, None, pick))
    else if !Usable(db, pick.value, u, pkg.code) then None
    else
      var offer := db.rows[OfferK(pick.value)];
      InsertRow(Put(db, OfferK(pick.value), offer.(consumed := true)), OrderK(o),
                NewOrder(u, pkg, Some(offer.percent), pick))
  }

  function CheckoutOrder(db: Db, p: PaymentId, o: OrderId, u: UserId): Option<Db> {
    if OrderK(o) !in db.rows || db.rows[OrderK(o)].user != u then None
    else InsertRow(db, PaymentK(p), PaymentRow(o, db.rows[OrderK(o)].cents, db.rows[OrderK(o)].currency, InProgress))
  }

  /** The counter of a user, zero when there is none yet. */
  function Progress(rows: Rows, u: UserId, kind: RewardType): (row: Row)
    ensures row.ProgressRow?
  {
    if ProgressK(u, kind) in rows then rows[ProgressK(u, kind)] else ProgressRow(0, 0)
  }

  predicate IsOpen(db: Db, s: SessionId) {
    SessionK(s) in db.rows && Open(db.rows[SessionK(s)])
  }

  /** A completed ad session: its reward, its counter and, every second flash ad, an offer. */
  function RewardSession(db: Db, s: SessionId, f: OfferId): Option<Db> {
    if SessionK(s) !in db.rows then None
    else if !IsOpen(db, s) then Some(db)
    else
      var SessionRow(u, kind, _) := db.rows[SessionK(s)];
      var db1 := Put(db, SessionK(s), SessionRow(u, kind, Rewarded));
      var db2 :- InsertRow(db1, RewardK(s), RewardRow(u, kind));
      var ProgressRow(count, taken) := Progress(db2.rows, u, kind);
      if kind == FlashOfferUnlock && count + 1 >= AdsRequired(FlashOfferUnlock) then
        var db3 := Put(db2, ProgressK(u, kind), ProgressRow(0, taken));
        InsertRow(db3, OfferK(f), OfferRow(u, FLASH_OFFER_PACKAGE, FLASH_OFFER_PERCENT, false))
      else Some(Put(db2, ProgressK(u, kind), ProgressRow(count + 1, taken)))
  }

  function Effect(op: Op, db: Db, seen: Seen): Option<Db> {
    match op
    case CreateWallet(u, n) => OpenWallet(db, u, n)
    case Adjust(u, a, id) => AdjustBalance(db, u, a, id)
    case Submit(u, r, cost, ads, draws) => SubmitReading(db, u, r, cost, draws, ads && seen.hit)
    case Confirm(r) => ConfirmHold(db, r, seen.balance)
    case Release(r) => ReleaseHold(db, r)
    case CreateReading(r, u) => InsertRow(db, ReadingK(r), ReadingRow(u, Draft))
    case StartProcessing(r) => SetReading(db, r, Processing)
    case RecordExecution(id, r, task, c) => InsertRow(db, ExecutionK(id), ExecutionRow(r, task, c, Verdicts(c)))
    case Finish(r, v) => SetReading(db, r, Final(v))
    case MarkFailed(r) =>
      if ReadingK(r) in db.rows && db.rows[ReadingK(r)].status != Completed then SetReading(db, r, Failed) else Some(db)
    case Retry(r) =>
      if ReadingK(r) in db.rows && db.rows[ReadingK(r)].status == Draft then None else SetReading(db, r, Pending)
    case CreateOrder(o, u, pkg, pick) => PlaceOrder(db, o, u, pkg, pick, seen.hit)
    case Checkout(p, o, u) => CheckoutOrder(db, p, o, u)
    case Approve(p) => ApprovePayment(db, p)
    case Terminate(p, to) => TerminatePayment(db, p, to, seen.hit)
    case OpenSession(s, u, k) => InsertRow(db, SessionK(s), SessionRow(u, k, Created))
    case ExpireSession(s) =>
      Some(if IsOpen(db, s) then Put(db, SessionK(s), db.rows[SessionK(s)].(progress := Expired)) else db)
    case CompleteSession(s, f) => RewardSession(db, s, f)
    case TakeDailyUnlock(u) => if seen.hit then SpendUnlock(db, u, DailyCardUnlock) else Some(db)
  }

  /** `op` can commit on `db` and leave `db'`. */
  ghost predicate Committed(op: Op, db: Db, db': Db) {
    exists seen :: Effect(op, db, seen) == Some(db')
  }

  // ---------- What a transaction may write, and how rows move ----------

  predicate MayWrite(op: Op, k: Key) {
    match op
    case CreateWallet(u, _) => k == WalletK(u) || k == EntryK(BonusKey(u))
    case Adjust(u, _, id) => k == WalletK(u) || k == EntryK(AdjustmentKey(id)) || k == AuditK(id)
    case Submit(u, r, _, _, _) =>
      k == ProgressK(u, TarotReadingUnlock) || k == WalletK(u) || k == ReservationK(r) || k == EntryK(ReservationKey(r))
      || k == DrawsK(r) || k == ReadingK(r)
    case Confirm(r) => k == ReservationK(r) || k == EntryK(ConsumptionKey(r))
    case Release(r) => k == ReservationK(r) || k.WalletK? || k == EntryK(ReleaseKey(r))
    case CreateReading(r, _) => k == ReadingK(r)
    case StartProcessing(r) => k == ReadingK(r)
    case RecordExecution(id, _, _, _) => k == ExecutionK(id)
    case Finish(r, _) => k == ReadingK(r)
    case MarkFailed(r) => k == ReadingK(r)
    case Retry(r) => k == ReadingK(r)
    case CreateOrder(o, _, _, pick) => k == OrderK(o) || (pick.Some? && k == OfferK(pick.value))
    case Checkout(p, _, _) => k == PaymentK(p)
    case Approve(p) => k == PaymentK(p) || k.OrderK? || k.WalletK? || (k.EntryK? && k.idem.PurchaseKey?)
    case Terminate(p, _) => k == PaymentK(p) || k.OrderK?
    case OpenSession(s, _, _) => k == SessionK(s)
    case ExpireSession(s) => k == SessionK(s)
    case CompleteSession(s, f) => k == SessionK(s) || k == RewardK(s) || k.ProgressK? || k == OfferK(f)
    case TakeDailyUnlock(u) => k == ProgressK(u, DailyCardUnlock)
  }

  /** Only those rows change, they move forward, and the ledger is append-only. */
  ghost predicate Framed(op: Op, db: Db, db': Db) {
    (forall k | !MayWrite(op, k) :: SameRow(db.rows, db'.rows, k)) && Evolves(db.rows, db'.rows)
    && db.ledger <= db'.ledger
  }

  /** Readings, wallets and sessions: the transactions of one or two rows. */
  predicate Short(op: Op) {
    !(op.Adjust? || op.Submit? || op.Confirm? || op.Release? || op.CreateOrder? || op.Approve? || op.Terminate?
      || op.CompleteSession?)
  }

  lemma PutFramed(op: Op, db: Db, k: Key, row: Row)
    requires MayWrite(op, k) && Fits(k, row) && (k in db.rows ==> Later(db.rows[k], row))
    ensures Framed(op, db, Put(db, k, row))
  {
    hide MayWrite;
    forall x | x in db.rows ensures Later(db.rows[x], db.rows[x]) {
    }
  }

  lemma MoreFramed(op: Op, db: Db, db1: Db, k: Key, row: Row)
    requires Framed(op, db, db1) && MayWrite(op, k) && Fits(k, row) && (k in db1.rows ==> Later(db1.rows[k], row))
    ensures Framed(op, db, Put(db1, k, row))
  {
    hide MayWrite;
    forall x | x in db.rows ensures Later(db.rows[x], Put(db1, k, row).rows[x]) {
      assert Later(db.rows[x], db1.rows[x]);
    }
  }

  lemma PostFramed(op: Op, db: Db, db1: Db, e: Entry)
    requires Framed(op, db, db1) && MayWrite(op, EntryK(e.key)) && EntryK(e.key) !in db1.rows
    ensures Framed(op, db, Post(db1, e))
  {
    hide MayWrite, Later;
  }

  lemma WalletFramed(op: Op, db: Db)
    requires op.CreateWallet? && OpenWallet(db, op.user, op.bonus).Some?
    ensures Framed(op, db, OpenWallet(db, op.user, op.bonus).value)
  {
  }

  lemma NothingFramed(op: Op, db: Db)
    ensures Framed(op, db, db)
  {
  }

  lemma ShortFramed(op: Op, db: Db, seen: Seen)
    requires Short(op) && Effect(op, db, seen).Some?
    ensures Framed(op, db, Effect(op, db, seen).value)
  {
    hide OpenWallet, Framed;
    NothingFramed(op, db);
    match op
    case CreateWallet(_, _) => WalletFramed(op, db);
    case CreateReading(r, u) => PutFramed(op, db, ReadingK(r), ReadingRow(u, Draft));
    case RecordExecution(id, r, task, c) => PutFramed(op, db, ExecutionK(id), ExecutionRow(r, task, c, Verdicts(c)));
    case OpenSession(s, u, k) => PutFramed(op, db, SessionK(s), SessionRow(u, k, Created));
    case Checkout(p, o, _) =>
      PutFramed(op, db, PaymentK(p), PaymentRow(o, db.rows[OrderK(o)].cents, db.rows[OrderK(o)].currency, InProgress));
    case ExpireSession(s) =>
      if IsOpen(db, s) {
        PutFramed(op, db, SessionK(s), db.rows[SessionK(s)].(progress := Expired));
      }
    case TakeDailyUnlock(u) =>
      if seen.hit {
        var k := ProgressK(u, DailyCardUnlock);
        PutFramed(op, db, k, ProgressRow(0, db.rows[k].taken + 1));
      }
    case StartProcessing(r) => PutFramed(op, db, ReadingK(r), db.rows[ReadingK(r)].(status := Processing));
    case Finish(r, v) => PutFramed(op, db, ReadingK(r), db.rows[ReadingK(r)].(status := Final(v)));
    case MarkFailed(r) =>
      if Effect(op, db, seen).value != db {
        PutFramed(op, db, ReadingK(r), db.rows[ReadingK(r)].(status := Failed));
      }
    case Retry(r) => PutFramed(op, db, ReadingK(r), db.rows[ReadingK(r)].(status := Pending));
  }

  lemma ReserveTouches(db: Db, u: UserId, r: ReadingId, amount: int)
    requires Reserve(db, u, r, amount).Some?
    ensures forall k | k != WalletK(u) && k != ReservationK(r) && k != EntryK(ReservationKey(r)) ::
              SameRow(db.rows, Reserve(db, u, r, amount).value.rows, k)
  {
  }

  lemma ReserveFramed(op: Op, db: Db, db1: Db, amount: int)
    requires op.Submit? && Framed(op, db, db1) && Reserve(db1, op.user, op.reading, amount).Some?
    ensures Framed(op, db, Reserve(db1, op.user, op.reading, amount).value)
  {
  }

  lemma UnlockFramed(op: Op, db: Db, free: bool)
    requires op.Submit? && (free ==> SpendUnlock(db, op.user, TarotReadingUnlock).Some?)
    ensures Framed(op, db, if free then SpendUnlock(db, op.user, TarotReadingUnlock).value else db)
  {
  }

  lemma DrawsFramed(op: Op, db: Db, db1: Db)
    requires op.Submit? && op.draws.Some? && Framed(op, db, db1)
    requires InsertRow(db1, DrawsK(op.reading), DrawsRow(op.draws.value)).Some?
    ensures Framed(op, db, InsertRow(db1, DrawsK(op.reading), DrawsRow(op.draws.value)).value)
  {
  }

  lemma PendingFramed(op: Op, db: Db, db1: Db)
    requires op.Submit? && Framed(op, db, db1) && SetReading(db1, op.reading, Pending).Some?
    ensures Framed(op, db, SetReading(db1, op.reading, Pending).value)
  {
  }

  lemma SubmitFramed(op: Op, db: Db, free: bool)
    requires op.Submit? && SubmitReading(db, op.user, op.reading, op.cost, op.draws, free).Some?
    ensures Framed(op, db, SubmitReading(db, op.user, op.reading, op.cost, op.draws, free).value)
  {
    hide Reserve, Framed, InsertRow, SetReading;
    var db1 := if free then SpendUnlock(db, op.user, TarotReadingUnlock).value else db;
    UnlockFramed(op, db, free);
    var db2 := Reserve(db1, op.user, op.reading, if free then 0 else op.cost).value;
    ReserveFramed(op, db, db1, if free then 0 else op.cost);
    if op.draws.Some? {
      DrawsFramed(op, db, db2);
      PendingFramed(op, db, InsertRow(db2, DrawsK(op.reading), DrawsRow(op.draws.value)).value);
    } else {
      PendingFramed(op, db, db2);
    }
  }

  lemma AdjustFramed(op: Op, db: Db)
    requires op.Adjust? && AdjustBalance(db, op.user, op.amount, op.adjustment).Some?
    ensures Framed(op, db, AdjustBalance(db, op.user, op.amount, op.adjustment).value)
  {
  }

  lemma ConfirmFramed(op: Op, db: Db, balance: int)
    requires op.Confirm? && ConfirmHold(db, op.reading, balance).Some?
    ensures Framed(op, db, ConfirmHold(db, op.reading, balance).value)
  {
  }

  lemma ReleaseFramed(op: Op, db: Db)
    requires op.Release? && ReleaseHold(db, op.reading).Some?
    ensures Framed(op, db, ReleaseHold(db, op.reading).value)
  {
  }

  lemma SettleFramed(op: Op, db: Db, p: PaymentId, to: FinalState)
    requires MayWrite(op, PaymentK(p)) && InFlight(db, p)
    ensures Framed(op, db, Settle(db, p, to))
  {
    hide Framed, MayWrite;
    NothingFramed(op, db);
    MoreFramed(op, db, db, PaymentK(p), db.rows[PaymentK(p)].(state := to));
  }

  lemma PayFramed(op: Op, db: Db, db1: Db, o: OrderId)
    requires Framed(op, db, db1) && MayWrite(op, OrderK(o)) && SetOrder(db1, o, Paid).Some?
    ensures Framed(op, db, SetOrder(db1, o, Paid).value)
  {
    hide Framed, MayWrite;
    MoreFramed(op, db, db1, OrderK(o), db1.rows[OrderK(o)].(paid := Paid));
  }

  lemma CreditFramed(op: Op, db: Db, db1: Db, u: UserId, amount: int)
    requires Framed(op, db, db1) && MayWrite(op, WalletK(u)) && Credited(db1, u, amount).Some?
    ensures Framed(op, db, Credited(db1, u, amount).value)
  {
    hide Framed, MayWrite;
    MoreFramed(op, db, db1, WalletK(u), WalletRow(Balance(db1, u) + amount));
  }

  lemma ApproveFramed(op: Op, db: Db)
    requires op.Approve? && ApprovePayment(db, op.payment).Some?
    ensures Framed(op, db, ApprovePayment(db, op.payment).value)
  {
    hide Framed, Settle, Credited, Post;
    NothingFramed(op, db);
    if InFlight(db, op.payment) {
      var o := db.rows[PaymentK(op.payment)].order;
      var db1 := Settle(db, op.payment, Approved);
      SettleFramed(op, db, op.payment, Approved);
      var db2 := SetOrder(db1, o, Paid).value;
      PayFramed(op, db, db1, o);
      var order := db2.rows[OrderK(o)];
      var db3 := Credited(db2, order.user, order.credits).value;
      CreditFramed(op, db, db2, order.user, order.credits);
      PostFramed(op, db, db3, Entry(PurchaseKey(o), order.user, order.credits, Balance(db3, order.user)));
    }
  }

  lemma TerminateFramed(op: Op, db: Db, cancel: bool)
    requires op.Terminate? && TerminatePayment(db, op.payment, op.outcome, cancel).Some?
    ensures Framed(op, db, TerminatePayment(db, op.payment, op.outcome, cancel).value)
  {
  }

  lemma OrderFramed(op: Op, db: Db, took: bool)
    requires op.CreateOrder? && PlaceOrder(db, op.order, op.user, op.package, op.pick, took).Some?
    ensures Framed(op, db, PlaceOrder(db, op.order, op.user, op.package, op.pick, took).value)
  {
  }

  lemma InsertFramed(op: Op, db: Db, db1: Db, k: Key, row: Row)
    requires Framed(op, db, db1) && MayWrite(op, k) && Fits(k, row) && InsertRow(db1, k, row).Some?
    ensures Framed(op, db, InsertRow(db1, k, row).value)
  {
    hide Framed, MayWrite;
    MoreFramed(op, db, db1, k, row);
  }

  lemma ProgressFramed(op: Op, db: Db, db1: Db, u: UserId, kind: RewardType, count: nat)
    requires Framed(op, db, db1) && MayWrite(op, ProgressK(u, kind))
    ensures Framed(op, db, Put(db1, ProgressK(u, kind), ProgressRow(count, Progress(db1.rows, u, kind).taken)))
  {
    hide Framed, MayWrite;
    MoreFramed(op, db, db1, ProgressK(u, kind), ProgressRow(count, Progress(db1.rows, u, kind).taken));
  }

  lemma SessionFramed(op: Op, db: Db)
    requires op.CompleteSession? && RewardSession(db, op.session, op.offer).Some?
    ensures Framed(op, db, RewardSession(db, op.session, op.offer).value)
  {
    hide Framed, Put, InsertRow, Progress;
    NothingFramed(op, db);
    if IsOpen(db, op.session) {
      var SessionRow(u, kind, _) := db.rows[SessionK(op.session)];
      PutFramed(op, db, SessionK(op.session), SessionRow(u, kind, Rewarded));
      var db1 := Put(db, SessionK(op.session), SessionRow(u, kind, Rewarded));
      InsertFramed(op, db, db1, RewardK(op.session), RewardRow(u, kind));
      var db2 := InsertRow(db1, RewardK(op.session), RewardRow(u, kind)).value;
      var ProgressRow(count, taken) := Progress(db2.rows, u, kind);
      ProgressFramed(op, db, db2, u, kind, count + 1);
      if kind == FlashOfferUnlock && count + 1 >= AdsRequired(FlashOfferUnlock) {
        ProgressFramed(op, db, db2, u, kind, 0);
        var db3 := Put(db2, ProgressK(u, kind), ProgressRow(0, taken));
        InsertFramed(op, db, db3, OfferK(op.offer), OfferRow(u, FLASH_OFFER_PACKAGE, FLASH_OFFER_PERCENT, false));
      }
    }
  }

  /** Every transaction moves rows forward only: a settled reservation, a paid order, a final
      payment, a rewarded session and a consumed offer stay so. */
  lemma EffectFramed(op: Op, db: Db, seen: Seen)
    requires Effect(op, db, seen).Some?
    ensures Framed(op, db, Effect(op, db, seen).value)
  {
    hide Framed, SubmitReading, AdjustBalance, ConfirmHold, ReleaseHold, ApprovePayment, TerminatePayment, PlaceOrder,
         RewardSession;
    match op
    case Submit(_, _, _, ads, _) => SubmitFramed(op, db, ads && seen.hit);
    case Adjust(_, _, _) => AdjustFramed(op, db);
    case Confirm(_) => ConfirmFramed(op, db, seen.balance);
    case Release(_) => ReleaseFramed(op, db);
    case Approve(_) => ApproveFramed(op, db);
    case Terminate(_, _) => TerminateFramed(op, db, seen.hit);
    case CreateOrder(_, _, _, _) => OrderFramed(op, db, seen.hit);
    case CompleteSession(_, _) => SessionFramed(op, db);
    case _ => ShortFramed(op, db, seen);
  }
}
