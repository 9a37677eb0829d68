/** The tables the money and entitlement protocol shares (prisma/schema.prisma).

    A table row lives under a `Key`; a unique index of the schema is a key constructor, so
    "violates the unique index" is "the key is already present". Identifiers stand for UUIDs. */
module Database {
  type UserId = nat
  type ReadingId = nat
  type OrderId = nat
  type PaymentId = nat
  type SessionId = nat
  type OfferId = nat
  type ExecutionId = nat
  type AdjustmentId = nat

  /** `None` is the exception that rolls a transaction back; `:-` propagates it. */
  datatype Option<+T> = None | Some(value: T) {
    predicate IsFailure() {
      None?
    }

    function PropagateFailure<U>(): Option<U>
      requires None?
    {
      None
    }

    function Extract(): T
      requires Some?
    {
      value
    }
  }

  datatype RewardType = DailyCardUnlock | TarotReadingUnlock | FlashOfferUnlock

  /** Completed ads that one unlock of each kind costs. */
  function AdsRequired(kind: RewardType): nat {
    match kind
    case DailyCardUnlock => 1
    case TarotReadingUnlock => 5
    case FlashOfferUnlock => 2
  }

  const FLASH_OFFER_PACKAGE := "BASICO_FUEGO"
  const FLASH_OFFER_PERCENT: nat := 20

  datatype ReadingStatus = Draft | Pending | Processing | Completed | Failed
  datatype HoldStatus = Active | Consumed | Released
  datatype OrderStatus = Unpaid | Paid | Cancelled
  datatype PaymentStatus = InProgress | Approved | Declined | Errored
  datatype SessionStatus = Created | Started | Rewarded | Expired

  datatype Orientation = Upright | Reversed
  datatype TarotDraw = TarotDraw(position: string, card: nat, orientation: Orientation)

  /** What the orchestrator established about one provider answer. */
  datatype Checks = Checks(safeQuestion: bool, answered: bool, json: bool, schema: bool, clean: bool)

  /** The two prompts run for a reading: its interpretation, and the legibility of an uploaded palm. */
  datatype Task = Interpretation | Legibility

  datatype Verdict = Delivered | Rejected

  /** `credits` and `cents` of a package are copied into the order that buys it. */
  datatype Package = Package(code: string, credits: nat, cents: nat, currency: string)

  /** The idempotency key of a ledger entry. Its constructor is also the entry's type column. */
  datatype IdemKey =
    | BonusKey(user: UserId)
    | ReservationKey(reading: ReadingId)
    | ConsumptionKey(reading: ReadingId)
    | ReleaseKey(reading: ReadingId)
    | PurchaseKey(order: OrderId)
    | AdjustmentKey(adjustment: AdjustmentId)

  datatype Entry = Entry(key: IdemKey, user: UserId, amount: int, balanceAfter: int)

  datatype Key =
    | WalletK(user: UserId)
    | ReservationK(reading: ReadingId)
    | EntryK(idem: IdemKey)
    | ReadingK(reading: ReadingId)
    | DrawsK(reading: ReadingId)
    | ExecutionK(execution: ExecutionId)
    | OrderK(order: OrderId)
    | PaymentK(payment: PaymentId)
    | SessionK(session: SessionId)
    | RewardK(session: SessionId)
    | ProgressK(user: UserId, kind: RewardType)
    | OfferK(offer: OfferId)
    | AuditK(adjustment: AdjustmentId)

  /** Three columns are history the tables do not store: `taken` counts the unlocks consumed
      from a counter, `listCents` is the package price an order froze, and `offer` is the flash
      offer that an order consumed. No statement reads them. */
  datatype Row =
    | WalletRow(balance: int)
    | ReservationRow(user: UserId, amount: int, hold: HoldStatus)
    | EntryRow(entry: Entry)
    | ReadingRow(user: UserId, status: ReadingStatus)
    | DrawsRow(draws: seq<TarotDraw>)
    | ExecutionRow(reading: ReadingId, task: Task, checks: Checks, verdict: Verdict)
    | OrderRow(user: UserId, pkg: string, listCents: nat, discount: Option<nat>, offer: Option<OfferId>,
               credits: nat, cents: int, currency: string, paid: OrderStatus)
    | PaymentRow(order: OrderId, cents: int, currency: string, state: PaymentStatus)
    | SessionRow(user: UserId, kind: RewardType, progress: SessionStatus)
    | RewardRow(user: UserId, kind: RewardType)
    | ProgressRow(count: nat, taken: nat)
    | OfferRow(user: UserId, pkg: string, percent: nat, consumed: bool)
    | AuditRow(user: UserId, amount: int, balanceAfter: int)

  /** The row has the columns of the table its key belongs to. */
  predicate Fits(k: Key, row: Row) {
    match k
    case WalletK(_) => row.WalletRow?
    case ReservationK(_) => row.ReservationRow?
    case EntryK(_) => row.EntryRow?
    case ReadingK(_) => row.ReadingRow?
    case DrawsK(_) => row.DrawsRow?
    case ExecutionK(_) => row.ExecutionRow?
    case OrderK(_) => row.OrderRow?
    case PaymentK(_) => row.PaymentRow?
    case SessionK(_) => row.SessionRow?
    case RewardK(_) => row.RewardRow?
    case ProgressK(_, _) => row.ProgressRow?
    case OfferK(_) => row.OfferRow?
    case AuditK(_) => row.AuditRow?
  }

  type Rows = m: map<Key, Row> | forall k | k in m :: Fits(k, m[k]) witness map[]

  /** The committed database. `ledger` lists the wallet transactions in commit order. */
  datatype Db = Db(rows: Rows, ledger: seq<Entry>)

  const EmptyDb := Db(map[], [])

  function Put(db: Db, k: Key, row: Row): Db
    requires Fits(k, row)
  {
    db.(rows := db.rows[k := row])
  }

  /** Inserts one wallet transaction: the row under its unique key, and the entry in commit order. */
  function Post(db: Db, e: Entry): Db {
    Db(db.rows[EntryK(e.key) := EntryRow(e)], db.ledger + [e])
  }

  /** The order in which a row may evolve: fixed columns stay, and a status that is final stays. */
  predicate Later(a: Row, b: Row) {
    match a
    case WalletRow(_) => b.WalletRow?
    case ReservationRow(u, n, h) => b.ReservationRow? && b.user == u && b.amount == n && (h != Active ==> b.hold == h)
    case EntryRow(_) => a == b
    case ReadingRow(u, s) => b.ReadingRow? && b.user == u && (s != Draft ==> b.status != Draft)
    case DrawsRow(_) => a == b
    case ExecutionRow(_, _, _, _) => a == b
    case OrderRow(_, _, _, _, _, _, _, _, p) =>
      b.OrderRow? && b == a.(paid := b.paid) && (p == Paid ==> b.paid == Paid) && (p != Unpaid ==> b.paid != Unpaid)
    case PaymentRow(_, _, _, s) => b.PaymentRow? && b == a.(state := b.state) && (s != InProgress ==> b.state == s)
    case SessionRow(_, _, s) =>
      b.SessionRow? && b == a.(progress := b.progress) && (s == Rewarded || s == Expired ==> b.progress == s)
    case RewardRow(_, _) => a == b
    case ProgressRow(_, n) => b.ProgressRow? && b.taken >= n
    case OfferRow(_, _, _, c) => b.OfferRow? && b == a.(consumed := b.consumed) && (c ==> b.consumed)
    case AuditRow(_, _, _) => a == b
  }

  /** No row disappears, and every row only moves forward. */
  ghost predicate Evolves(rows: Rows, rows': Rows) {
    forall k | k in rows :: k in rows' && Later(rows[k], rows'[k])
  }

  ghost predicate SameRow(rows: Rows, rows': Rows, k: Key) {
    (k in rows <==> k in rows') && (k in rows ==> rows[k] == rows'[k])
  }
}
