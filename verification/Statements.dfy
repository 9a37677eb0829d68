/** Every transaction of the protocol as the list of statements it sends, and what one statement
    does inside its transaction. */
module Statements {
  import opened Database

  /** Everything a client can ask the database to do atomically. */
  datatype Op =
    | CreateWallet(user: UserId, bonus: nat)
    | Adjust(user: UserId, amount: int, adjustment: AdjustmentId)
    | Submit(user: UserId, reading: ReadingId, cost: nat, adUnlockable: bool, draws: Option<seq<TarotDraw>>)
    | Confirm(reading: ReadingId)
    | Release(reading: ReadingId)
    | CreateReading(reading: ReadingId, user: UserId)
    | StartProcessing(reading: ReadingId)
    | RecordExecution(execution: ExecutionId, reading: ReadingId, task: Task, checks: Checks)
    | Finish(reading: ReadingId, verdict: Verdict)
    | MarkFailed(reading: ReadingId)
    | Retry(reading: ReadingId)
    | CreateOrder(order: OrderId, user: UserId, package: Package, pick: Option<OfferId>)
    | Checkout(payment: PaymentId, order: OrderId, user: UserId)
    | Approve(payment: PaymentId)
    | Terminate(payment: PaymentId, outcome: Failure)
    | OpenSession(session: SessionId, user: UserId, kind: RewardType)
    | ExpireSession(session: SessionId)
    | CompleteSession(session: SessionId, offer: OfferId)
    | TakeDailyUnlock(user: UserId)

  datatype Stmt =
    | Insert(key: Key, row: Row)
    | FindWallet
    | FindDraft(reading: ReadingId)
    | FindUnfinished(reading: ReadingId)
    | FindFailed(reading: ReadingId)
    | FindPayment(payment: PaymentId)
    | FindOrder
    | FindUnpaidOrder(order: OrderId)
    | FindSession(session: SessionId)
    | FindOffer(pick: Option<OfferId>, pkg: string)
    | Debit
    | Credit
    | ReadBack
    | ReadBalance
    | Hold(reading: ReadingId)
    | CloseHold(reading: ReadingId, to: Settled)
    | WriteEntry(idem: IdemKey, sign: int)
    | WriteBonus
    | WritePurchase
    | WriteAudit(adjustment: AdjustmentId, amount: int)
    | InsertDraws(reading: ReadingId, draws: Option<seq<TarotDraw>>)
    | SetStatus(reading: ReadingId, status: Submitted)
    | FailUnlessCompleted(reading: ReadingId)
    | TakeUnlock(allowed: bool, kind: RewardType)
    | ClosePayment(payment: PaymentId, state: FinalState)
    | PayOrder
    | CancelOrder
    | InsertPayment(payment: PaymentId, order: OrderId)
    | ConsumeOffer(pick: Option<OfferId>)
    | InsertOrder(order: OrderId, package: Package, pick: Option<OfferId>)
    | CloseSession(session: SessionId)
    | ExpireOpen(session: SessionId)
    | InsertReward(session: SessionId)
    | BumpProgress
    | ResetFlash
    | GrantOffer(offer: OfferId)

  /** The variables of a transaction body. */
  datatype Locals = Locals(user: UserId, amount: int, seen: int, order: OrderId, kind: RewardType,
                           currency: string, discount: Option<nat>)

  /** What a statement found under its key when it ran. */
  datatype Obs = Absent | Present(row: Row)

  /** The outcome of one statement: at most one row written, or one wallet transaction appended.
      `Stop` is an early return before any write, `Abort` an exception. */
  datatype Done = Skip(l: Locals) | Wrote(k: Key, row: Row, l: Locals) | Logged(e: Entry, l: Locals) | Stop | Abort

  /** A transaction body so far: rows written but not committed, entries to append, variables. */
  datatype Trace = Running(p: Rows, log: seq<Entry>, l: Locals) | Stopped | Aborted

  type Submitted = s: ReadingStatus | s != Draft witness Pending
  type Settled = h: HoldStatus | h != Active witness Consumed
  type Failure = s: PaymentStatus | s == Declined || s == Errored witness Declined
  type FinalState = s: PaymentStatus | s != InProgress witness Approved

  function Verdicts(c: Checks): Verdict {
    if c.safeQuestion && c.answered && c.json && c.schema && c.clean then Delivered else Rejected
  }

  function Final(v: Verdict): Submitted {
    if v == Delivered then Completed else Failed
  }

  /** Math.round(price * (100 - percent) / 100): halves round up. */
  function Discounted(cents: nat, percent: nat): int {
    (cents * (100 - percent) * 2 + 100) / 200
  }

  /** The order of one purchase: credits and price frozen from the package, less a consumed offer. */
  function NewOrder(user: UserId, pkg: Package, discount: Option<nat>, pick: Option<OfferId>): Row {
    OrderRow(user, pkg.code, pkg.cents, discount, if discount.Some? then pick else None, pkg.credits,
             if discount.Some? then Discounted(pkg.cents, discount.value) else pkg.cents, pkg.currency, Unpaid)
  }

  function Start(op: Op): Locals {
    var l := Locals(0, 0, 0, 0, DailyCardUnlock, "", None);
    match op
    case CreateWallet(u, n) => l.(user := u, amount := n, seen := n)
    case Adjust(u, a, _) => l.(user := u, amount := if a < 0 then -a else a)
    case Submit(u, _, c, _, _) => l.(user := u, amount := c)
    case CreateOrder(_, u, _, _) => l.(user := u)
    case Checkout(_, _, u) => l.(user := u)
    case TakeDailyUnlock(u) => l.(user := u)
    case _ => l
  }

  function Program(op: Op): seq<Stmt> {
    match op
    case CreateWallet(u, n) => [Insert(WalletK(u), WalletRow(n)), WriteBonus]
    case Adjust(u, a, id) =>
      if a < 0 then [FindWallet, Debit, ReadBack, WriteEntry(AdjustmentKey(id), -1), WriteAudit(id, a)]
      else [FindWallet, Credit, WriteEntry(AdjustmentKey(id), 1), WriteAudit(id, a)]
    case Submit(u, r, _, ads, draws) =>
      [FindDraft(r), TakeUnlock(ads, TarotReadingUnlock), FindWallet, Debit, ReadBack, Hold(r),
       WriteEntry(ReservationKey(r), -1), InsertDraws(r, draws), SetStatus(r, Pending)]
    case Confirm(r) => [CloseHold(r, Consumed), ReadBalance, WriteEntry(ConsumptionKey(r), 0)]
    case Release(r) => [CloseHold(r, Released), Credit, WriteEntry(ReleaseKey(r), 1)]
    case CreateReading(r, u) => [Insert(ReadingK(r), ReadingRow(u, Draft))]
    case StartProcessing(r) => [FindUnfinished(r), SetStatus(r, Processing)]
    case RecordExecution(id, r, task, c) => [Insert(ExecutionK(id), ExecutionRow(r, task, c, Verdicts(c)))]
    case Finish(r, v) => [SetStatus(r, Final(v))]
    case MarkFailed(r) => [FailUnlessCompleted(r)]
    case Retry(r) => [FindFailed(r), SetStatus(r, Pending)]
    case CreateOrder(o, _, pkg, pick) => [FindOffer(pick, pkg.code), ConsumeOffer(pick), InsertOrder(o, pkg, pick)]
    case Checkout(p, o, _) => [FindUnpaidOrder(o), InsertPayment(p, o)]
    case Approve(p) =>
      [FindPayment(p), ClosePayment(p, Approved), FindOrder, PayOrder, FindWallet, Credit, WritePurchase]
    case Terminate(p, s) => [FindPayment(p), ClosePayment(p, s), CancelOrder]
    case OpenSession(s, u, k) => [Insert(SessionK(s), SessionRow(u, k, Created))]
    case ExpireSession(s) => [ExpireOpen(s)]
    case CompleteSession(s, f) =>
      [FindSession(s), CloseSession(s), InsertReward(s), BumpProgress, ResetFlash, GrantOffer(f)]
    case TakeDailyUnlock(_) => [TakeUnlock(true, DailyCardUnlock)]
  }

  /** The one row a statement reads or writes. */
  function KeyOf(s: Stmt, l: Locals): Key {
    match s
    case Insert(k, _) => k
    case FindWallet => WalletK(l.user)
    case FindDraft(r) => ReadingK(r)
    case FindUnfinished(r) => ReadingK(r)
    case FindFailed(r) => ReadingK(r)
    case FindPayment(p) => PaymentK(p)
    case FindOrder => OrderK(l.order)
    case FindUnpaidOrder(o) => OrderK(o)
    case FindSession(s) => SessionK(s)
    case FindOffer(pick, _) => OfferK(if pick.Some? then pick.value else 0)
    case Debit => WalletK(l.user)
    case Credit => WalletK(l.user)
    case ReadBack => WalletK(l.user)
    case ReadBalance => WalletK(l.user)
    case Hold(r) => ReservationK(r)
    case CloseHold(r, _) => ReservationK(r)
    case WriteEntry(i, _) => EntryK(i)
    case WriteBonus => EntryK(BonusKey(l.user))
    case WritePurchase => EntryK(PurchaseKey(l.order))
    case WriteAudit(id, _) => AuditK(id)
    case InsertDraws(r, _) => DrawsK(r)
    case SetStatus(r, _) => ReadingK(r)
    case FailUnlessCompleted(r) => ReadingK(r)
    case TakeUnlock(_, k) => ProgressK(l.user, k)
    case ClosePayment(p, _) => PaymentK(p)
    case PayOrder => OrderK(l.order)
    case CancelOrder => OrderK(l.order)
    case InsertPayment(p, _) => PaymentK(p)
    case ConsumeOffer(pick) => OfferK(if pick.Some? then pick.value else 0)
    case InsertOrder(o, _, _) => OrderK(o)
    case CloseSession(s) => SessionK(s)
    case ExpireOpen(s) => SessionK(s)
    case InsertReward(s) => RewardK(s)
    case BumpProgress => ProgressK(l.user, l.kind)
    case ResetFlash => ProgressK(l.user, l.kind)
    case GrantOffer(f) => OfferK(f)
  }

  /** Plain SELECTs take no lock; every other statement locks the row that it writes. */
  predicate Locks(s: Stmt) {
    !(s.ReadBack? || s.FindWallet? || s.FindDraft? || s.FindUnfinished? || s.FindFailed? || s.FindPayment?
      || s.FindOrder? || s.FindUnpaidOrder? || s.FindSession? || s.FindOffer? || s.ReadBalance?)
  }

  /** INSERT under a unique index. */
  function InsertNew(view: Rows, k: Key, row: Row, l: Locals): Done
    requires Fits(k, row)
  {
    if k in view then Abort else Wrote(k, row, l)
  }

  function Log(view: Rows, e: Entry, l: Locals): Done {
    if EntryK(e.key) in view then Abort else Logged(e, l)
  }

  /** A SELECT found a row, which may have moved on since. */
  predicate Found(view: Rows, o: Obs, k: Key) {
    o.Present? && Fits(k, o.row) && k in view && Later(o.row, view[k])
  }

  predicate Open(row: Row) {
    row.SessionRow? && (row.progress == Created || row.progress == Started)
  }

  predicate EarnsOffer(l: Locals) {
    l.kind == FlashOfferUnlock && l.seen >= AdsRequired(FlashOfferUnlock)
  }

  /** SELECTs: `o` is what they found. */
  function Find(s: Stmt, view: Rows, l: Locals, o: Obs): Done
    requires !Locks(s)
  {
    var k := KeyOf(s, l);
    if s.ReadBack? then (if k in view then Skip(l.(seen := view[k].balance)) else Abort)
    else if s.FindOffer? && s.pick.None? then Skip(l)
    else if !Found(view, o, k) then Abort
    else match s
      case FindWallet => Skip(l)
      case FindDraft(_) => if o.row.status == Draft && o.row.user == l.user then Skip(l) else Abort
      case FindUnfinished(_) => if o.row.status != Completed then Skip(l) else Abort
      case FindFailed(_) => if o.row.status == Failed then Skip(l) else Abort
      case FindPayment(_) => Skip(l.(order := o.row.order))
      case FindOrder => Skip(l.(user := o.row.user, amount := o.row.credits))
      case FindUnpaidOrder(_) =>
        if o.row.user == l.user && o.row.paid == Unpaid
        then Skip(l.(amount := o.row.cents, currency := o.row.currency)) else Abort
      case FindSession(_) => if Open(o.row) then Skip(l.(user := o.row.user, kind := o.row.kind)) else Abort
      case FindOffer(_, pkg) =>
        if o.row.user == l.user && o.row.pkg == pkg && !o.row.consumed then Skip(l) else Abort
      case ReadBalance => Skip(l.(seen := o.row.balance))
  }

  /** INSERTs, each under a unique key. */
  function Create(s: Stmt, view: Rows, l: Locals): Done {
    var k := KeyOf(s, l);
    match s
    case Insert(_, row) => if Fits(k, row) then InsertNew(view, k, row, l) else Abort
    case Hold(_) => InsertNew(view, k, ReservationRow(l.user, l.amount, Active), l)
    case WriteEntry(i, sign) => Log(view, Entry(i, l.user, sign * l.amount, l.seen), l)
    case WriteBonus => if l.amount > 0 then Log(view, Entry(BonusKey(l.user), l.user, l.amount, l.seen), l) else Skip(l)
    case WritePurchase => Log(view, Entry(PurchaseKey(l.order), l.user, l.amount, l.seen), l)
    case WriteAudit(_, a) => InsertNew(view, k, AuditRow(l.user, a, l.seen), l)
    case InsertDraws(_, draws) => if draws.None? then Skip(l) else InsertNew(view, k, DrawsRow(draws.value), l)
    case InsertPayment(_, order) => InsertNew(view, k, PaymentRow(order, l.amount, l.currency, InProgress), l)
    case InsertOrder(_, pkg, pick) => InsertNew(view, k, NewOrder(l.user, pkg, l.discount, pick), l)
    case InsertReward(_) => InsertNew(view, k, RewardRow(l.user, l.kind), l)
    case GrantOffer(_) =>
      if EarnsOffer(l) then InsertNew(view, k, OfferRow(l.user, FLASH_OFFER_PACKAGE, FLASH_OFFER_PERCENT, false), l)
      else Skip(l)
    case _ => Abort
  }

  /** UPDATEs by primary key: an exception when the row is missing. */
  function Update(s: Stmt, view: Rows, l: Locals): Done {
    var k := KeyOf(s, l);
    if s.BumpProgress? then
      var row := if k in view then view[k] else ProgressRow(0, 0);
      Wrote(k, ProgressRow(row.count + 1, row.taken), l.(seen := row.count + 1))
    else if k !in view then Abort
    else match s
      case Debit => if view[k].balance >= l.amount then Wrote(k, WalletRow(view[k].balance - l.amount), l) else Abort
      case Credit => var b := view[k].balance + l.amount; Wrote(k, WalletRow(b), l.(seen := b))
      case SetStatus(_, to) => Wrote(k, view[k].(status := to), l)
      case PayOrder => Wrote(k, view[k].(paid := Paid), l)
      case _ => Abort
  }

  /** Conditional UPDATEs whose miss ends the transaction before it wrote anything. */
  function Close(s: Stmt, view: Rows, l: Locals): Done {
    var k := KeyOf(s, l);
    if k !in view then Stop
    else
      var row := view[k];
      match s
      case CloseHold(_, to) =>
        if row.hold == Active then Wrote(k, row.(hold := to), l.(user := row.user, amount := row.amount)) else Stop
      case FailUnlessCompleted(_) => if row.status != Completed then Wrote(k, row.(status := Failed), l) else Stop
      case ClosePayment(_, to) => if row.state == InProgress then Wrote(k, row.(state := to), l) else Stop
      case CloseSession(_) => if Open(row) then Wrote(k, row.(progress := Rewarded), l) else Stop
      case ExpireOpen(_) => if Open(row) then Wrote(k, row.(progress := Expired), l) else Stop
      case _ => Abort
  }

  predicate Hits(s: Stmt, row: Row) {
    match s
    case TakeUnlock(allowed, kind) => allowed && row.ProgressRow? && row.count >= AdsRequired(kind)
    case CancelOrder => row.OrderRow? && row.paid == Unpaid
    case ConsumeOffer(pick) => pick.Some? && row.OfferRow? && !row.consumed
    case _ => false
  }

  /** Conditional UPDATEs after which the transaction goes on, hit or miss: `o` tells which it was,
      and a hit finds the condition true on the locked row. */
  function Maybe(s: Stmt, view: Rows, l: Locals, o: Obs): Done {
    var k := KeyOf(s, l);
    if s.ResetFlash? then
      if !EarnsOffer(l) then Skip(l)
      else if k in view then Wrote(k, ProgressRow(0, view[k].taken), l)
      else Abort
    else if o.Absent? || !Fits(k, o.row) || !Hits(s, o.row) then Skip(l)
    else if k !in view || !Hits(s, view[k]) then Abort
    else
      var row := view[k];
      match s
      case TakeUnlock(_, _) => Wrote(k, ProgressRow(0, row.taken + 1), l.(amount := 0))
      case CancelOrder => Wrote(k, row.(paid := Cancelled), l)
      case ConsumeOffer(_) => Wrote(k, row.(consumed := true), l.(discount := Some(row.percent)))
      case _ => Abort
  }

  /** What one statement does, on the rows its transaction sees: its own writes over the committed
      rows. `o` is what it found under its key when it ran; a row read without a lock may have moved. */
  function Do(s: Stmt, view: Rows, l: Locals, o: Obs): Done {
    if !Locks(s) then Find(s, view, l, o)
    else match s
      case Debit | Credit | SetStatus(_, _) | PayOrder | BumpProgress => Update(s, view, l)
      case CloseHold(_, _) | FailUnlessCompleted(_) | ClosePayment(_, _) | CloseSession(_) | ExpireOpen(_) =>
        Close(s, view, l)
      case TakeUnlock(_, _) | CancelOrder | ConsumeOffer(_) | ResetFlash => Maybe(s, view, l, o)
      case _ => Create(s, view, l)
  }

  predicate Fine(d: Done) {
    d.Skip? || (d.Wrote? && Fits(d.k, d.row)) || d.Logged?
  }

  /** Runs one more statement of a transaction. A transaction only reads back a row it has written. */
  function Exec(s: Stmt, rows: Rows, t: Trace, o: Obs): Trace
    requires t.Running?
  {
    if s.ReadBack? && KeyOf(s, t.l) !in t.p then Aborted
    else
      var d := Do(s, rows + t.p, t.l, o);
      match d
      case Skip(l) => t.(l := l)
      case Wrote(k, row, l) => if Fits(k, row) then Running(t.p[k := row], t.log, l) else Aborted
      case Logged(e, l) => Running(t.p[EntryK(e.key) := EntryRow(e)], t.log + [e], l)
      case Stop => Stopped
      case Abort => Aborted
  }
}
