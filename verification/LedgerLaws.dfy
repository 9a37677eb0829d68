/** The money of the system: balances, the ledger, and the reservations of readings. */
module LedgerLaws {
  import opened Database
  import opened Statements
  import opened Atomic
  import opened Sums

  // ---------- The ledger reconciles with the balances ----------

  /** The unique index holds exactly the entries of the ledger. */
  ghost predicate Indexed(db: Db) {
    && (forall i | 0 <= i < |db.ledger| :: EntryK(db.ledger[i].key) in db.rows
                                           && db.rows[EntryK(db.ledger[i].key)] == EntryRow(db.ledger[i]))
    && (forall k | EntryK(k) in db.rows :: db.rows[EntryK(k)].entry.key == k && db.rows[EntryK(k)].entry in db.ledger)
    && (forall i, j | 0 <= i < j < |db.ledger| :: db.ledger[i].key != db.ledger[j].key)
  }

  ghost predicate Reconciled(db: Db) {
    forall u :: 0 <= Balance(db, u) == Sum(db.ledger, OfUser(u))
  }

  /** `balanceAfter` is the running balance of the wallet, for every entry but a CONSUMPTION,
      whose balance is read without a lock. */
  ghost predicate Chained(ledger: seq<Entry>) {
    forall i | 0 <= i < |ledger| && !ledger[i].key.ConsumptionKey? ::
      ledger[i].balanceAfter == Sum(ledger[..i + 1], OfUser(ledger[i].user))
  }

  ghost predicate LedgerInv(db: Db) {
    Indexed(db) && Reconciled(db) && Chained(db.ledger)
  }

  // ---------- Reservations ----------

  ghost predicate HasEntry(db: Db, k: IdemKey) {
    EntryK(k) in db.rows
  }

  /** Credits that a reading has taken out of its wallet and not given back. */
  ghost function Owed(rows: Rows, r: ReadingId): int {
    if ReservationK(r) in rows && rows[ReservationK(r)].hold != Released then rows[ReservationK(r)].amount else 0
  }

  /** No reservation, no entry; one reservation, one RESERVATION entry of its amount, and the one
      settling entry that its status names. */
  ghost predicate Paired(db: Db, r: ReadingId) {
    if ReservationK(r) !in db.rows then
      !HasEntry(db, ReservationKey(r)) && !HasEntry(db, ConsumptionKey(r)) && !HasEntry(db, ReleaseKey(r))
    else
      var ReservationRow(u, amount, hold) := db.rows[ReservationK(r)];
      && amount >= 0
      && HasEntry(db, ReservationKey(r))
      && db.rows[EntryK(ReservationKey(r))].entry.user == u
         && db.rows[EntryK(ReservationKey(r))].entry.amount == -amount
      && (HasEntry(db, ConsumptionKey(r)) <==> hold == Consumed)
      && (HasEntry(db, ReleaseKey(r)) <==> hold == Released)
  }

  ghost predicate HoldOk(db: Db, r: ReadingId) {
    Paired(db, r) && Sum(db.ledger, OfReading(r)) == -Owed(db.rows, r)
  }

  /** Credits out of a wallet on account of reservations that were not given back. */
  ghost function Holds(rows: Rows, u: UserId): map<Key, int> {
    map k | k in rows && k.ReservationK? && rows[k].user == u && rows[k].hold != Released :: rows[k].amount
  }

  ghost function Held(rows: Rows, u: UserId): int {
    Total(Holds(rows, u))
  }

  ghost predicate Conserved(db: Db, u: UserId) {
    Balance(db, u) + Held(db.rows, u) == Sum(db.ledger, IncomeOf(u))
  }

  ghost predicate HoldInv(db: Db) {
    (forall r :: HoldOk(db, r)) && (forall u :: Conserved(db, u))
  }

  ghost predicate MoneyInv(db: Db) {
    LedgerInv(db) && HoldInv(db)
  }

  // ---------- Frames ----------

  predicate IsMoney(k: Key) {
    k.WalletK? || k.ReservationK? || k.EntryK?
  }

  /** Nothing about money differs. */
  ghost predicate SameMoney(db: Db, db': Db) {
    db'.ledger == db.ledger && forall k | IsMoney(k) :: SameRow(db.rows, db'.rows, k)
  }

  lemma HoldsExcept(rows: Rows, rows': Rows, u: UserId, r: ReadingId)
    requires forall x | x != r :: SameRow(rows, rows', ReservationK(x))
    ensures Holds(rows', u) - {ReservationK(r)} == Holds(rows, u) - {ReservationK(r)}
    ensures SameRow(rows, rows', ReservationK(r)) ==> Holds(rows', u) == Holds(rows, u)
  {
    forall k: Key | k.ReservationK? && k != ReservationK(r) ensures SameRow(rows, rows', k) {
      assert SameRow(rows, rows', ReservationK(k.reading));
    }
  }

  lemma MoneyFrame(db: Db, db': Db)
    requires MoneyInv(db) && SameMoney(db, db')
    ensures MoneyInv(db')
  {
    forall u ensures Balance(db', u) == Balance(db, u) && Conserved(db', u) {
      assert SameRow(db.rows, db'.rows, WalletK(u)) && SameRow(db.rows, db'.rows, ReservationK(0));
      forall x ensures SameRow(db.rows, db'.rows, ReservationK(x)) {
        assert IsMoney(ReservationK(x));
      }
      HoldsExcept(db.rows, db'.rows, u, 0);
      assert Conserved(db, u);
    }
    forall r ensures HoldOk(db', r) {
      assert HoldOk(db, r);
      assert SameRow(db.rows, db'.rows, ReservationK(r));
      assert SameRow(db.rows, db'.rows, EntryK(ReservationKey(r)));
      assert SameRow(db.rows, db'.rows, EntryK(ConsumptionKey(r)));
      assert SameRow(db.rows, db'.rows, EntryK(ReleaseKey(r)));
    }
    forall k: IdemKey ensures SameRow(db.rows, db'.rows, EntryK(k)) {
      assert IsMoney(EntryK(k));
    }
  }

  // ---------- Appending one entry ----------

  /** `db'` has one more entry, and the wallet of its user moved by its amount. */
  ghost predicate Appends(db: Db, e: Entry, db': Db) {
    && EntryK(e.key) !in db.rows
    && db'.ledger == db.ledger + [e]
    && (forall k :: EntryK(k) in db'.rows <==> (EntryK(k) in db.rows || k == e.key))
    && (forall k | EntryK(k) in db'.rows ::
          db'.rows[EntryK(k)] == if k == e.key then EntryRow(e) else db.rows[EntryK(k)])
    && (forall u :: Balance(db', u) == Balance(db, u) + if u == e.user then e.amount else 0)
  }

  lemma AppendIndexed(db: Db, e: Entry, db': Db)
    requires Indexed(db) && Appends(db, e, db')
    ensures Indexed(db')
  {
    forall i | 0 <= i < |db'.ledger|
      ensures EntryK(db'.ledger[i].key) in db'.rows && db'.rows[EntryK(db'.ledger[i].key)] == EntryRow(db'.ledger[i])
      ensures i < |db.ledger| ==> db'.ledger[i].key != e.key
    {
      if i < |db.ledger| {
        assert db'.ledger[i] == db.ledger[i];
      }
    }
    forall k | EntryK(k) in db'.rows
      ensures db'.rows[EntryK(k)].entry.key == k && db'.rows[EntryK(k)].entry in db'.ledger
    {
      if k == e.key {
        assert db'.ledger[|db.ledger|] == e;
      } else {
        assert db.rows[EntryK(k)].entry in db.ledger;
      }
    }
  }

  lemma AppendChained(ledger: seq<Entry>, e: Entry)
    requires Chained(ledger) && (e.key.ConsumptionKey? || e.balanceAfter == Sum(ledger + [e], OfUser(e.user)))
    ensures Chained(ledger + [e])
  {
    var ledger' := ledger + [e];
    forall i | 0 <= i < |ledger'| && !ledger'[i].key.ConsumptionKey?
      ensures ledger'[i].balanceAfter == Sum(ledger'[..i + 1], OfUser(ledger'[i].user))
    {
      if i < |ledger| {
        assert ledger'[..i + 1] == ledger[..i + 1];
      } else {
        assert ledger'[..i + 1] == ledger';
      }
    }
  }

  lemma AppendLedger(db: Db, e: Entry, db': Db)
    requires LedgerInv(db) && Appends(db, e, db')
    requires Balance(db', e.user) >= 0
    requires e.key.ConsumptionKey? || e.balanceAfter == Balance(db', e.user)
    ensures LedgerInv(db')
  {
    hide Indexed, Chained;
    AppendIndexed(db, e, db');
    forall u ensures 0 <= Balance(db', u) == Sum(db'.ledger, OfUser(u)) {
      SumAppend(db.ledger, e, OfUser(u));
    }
    AppendChained(db.ledger, e);
  }

  /** An entry about something else leaves the reservation of `r` paired with its entries. */
  lemma AppendUnrelated(db: Db, e: Entry, db': Db, r: ReadingId)
    requires HoldOk(db, r) && Appends(db, e, db') && !About(e.key, r) && SameRow(db.rows, db'.rows, ReservationK(r))
    ensures HoldOk(db', r)
  {
    SumAppend(db.ledger, e, OfReading(r));
    forall k | About(k, r) ensures SameRow(db.rows, db'.rows, EntryK(k)) {
    }
    assert About(ReservationKey(r), r) && About(ConsumptionKey(r), r) && About(ReleaseKey(r), r);
  }

  /** Entries that are not about readings leave every reservation as it was. */
  lemma AppendIncome(db: Db, e: Entry, db': Db)
    requires MoneyInv(db) && Appends(db, e, db') && IsIncome(e.key)
    requires Balance(db', e.user) >= 0 && e.balanceAfter == Balance(db', e.user)
    requires forall r :: SameRow(db.rows, db'.rows, ReservationK(r))
    ensures MoneyInv(db')
  {
    hide Paired, Indexed, Chained, Holds;
    AppendLedger(db, e, db');
    forall r ensures HoldOk(db', r) {
      assert HoldOk(db, r);
      AppendUnrelated(db, e, db', r);
    }
    forall u ensures Conserved(db', u) {
      assert Conserved(db, u);
      SumAppend(db.ledger, e, IncomeOf(u));
      HoldsExcept(db.rows, db'.rows, u, 0);
    }
  }

  lemma HeldChanges(rows: Rows, rows': Rows, r: ReadingId, u: UserId)
    requires forall x | x != r :: SameRow(rows, rows', ReservationK(x))
    requires ReservationK(r) in rows'
             && (ReservationK(r) in rows ==> rows[ReservationK(r)].user == rows'[ReservationK(r)].user)
    ensures Held(rows', u) ==
            Held(rows, u) + if u == rows'[ReservationK(r)].user then Owed(rows', r) - Owed(rows, r) else 0
  {
    HoldsExcept(rows, rows', u, r);
    TotalPut(Holds(rows, u), ReservationK(r), 0);
    TotalPut(Holds(rows', u), ReservationK(r), 0);
  }

  /** Entries about reading `r` come with a change of its reservation. */
  lemma AppendHold(db: Db, e: Entry, db': Db, r: ReadingId)
    requires MoneyInv(db) && Appends(db, e, db') && About(e.key, r)
    requires Balance(db', e.user) >= 0 && (e.key.ConsumptionKey? || e.balanceAfter == Balance(db', e.user))
    requires forall x | x != r :: SameRow(db.rows, db'.rows, ReservationK(x))
    requires ReservationK(r) in db'.rows && db'.rows[ReservationK(r)].user == e.user
    requires ReservationK(r) in db.rows ==> db.rows[ReservationK(r)].user == e.user
    requires Paired(db', r) && e.amount == Owed(db.rows, r) - Owed(db'.rows, r)
    ensures MoneyInv(db')
  {
    hide Indexed, Chained, Holds;
    AppendLedger(db, e, db');
    forall x ensures HoldOk(db', x) {
      assert HoldOk(db, x);
      if x == r {
        SumAppend(db.ledger, e, OfReading(x));
      } else {
        AppendUnrelated(db, e, db', x);
      }
    }
    forall u ensures Conserved(db', u) {
      assert Conserved(db, u);
      SumAppend(db.ledger, e, IncomeOf(u));
      HeldChanges(db.rows, db'.rows, r, u);
    }
  }

  // ---------- Every transaction keeps the laws of money ----------

  lemma Solvent(db: Db, u: UserId)
    requires MoneyInv(db)
    ensures Balance(db, u) >= 0
  {
    hide Indexed, Chained, Holds;
  }

  lemma OpenWalletKeeps(db: Db, u: UserId, bonus: nat)
    requires MoneyInv(db) && OpenWallet(db, u, bonus).Some?
    ensures MoneyInv(OpenWallet(db, u, bonus).value)
  {
    hide Paired, Indexed, Chained, Holds;
    var db' := OpenWallet(db, u, bonus).value;
    if bonus > 0 {
      AppendIncome(db, Entry(BonusKey(u), u, bonus, bonus), db');
    } else {
      EmptyWalletKeeps(db, u);
    }
  }

  /** A wallet at zero is as good as none. */
  lemma EmptyWalletKeeps(db: Db, u: UserId)
    requires MoneyInv(db) && WalletK(u) !in db.rows
    ensures MoneyInv(Put(db, WalletK(u), WalletRow(0)))
  {
    hide Chained;
    var db' := Put(db, WalletK(u), WalletRow(0));
    forall r ensures HoldOk(db', r) {
      assert HoldOk(db, r);
    }
    forall v ensures Balance(db', v) == Balance(db, v) && Conserved(db', v) {
      assert Conserved(db, v);
      HoldsExcept(db.rows, db'.rows, v, 0);
    }
  }

  /** What an adjustment writes to the wallets and the ledger. */
  lemma AdjustAppends(db: Db, u: UserId, amount: int, id: AdjustmentId) returns (e: Entry)
    requires AdjustBalance(db, u, amount, id).Some? && Balance(db, u) >= 0
    ensures e == Entry(AdjustmentKey(id), u, amount, Balance(db, u) + amount)
    ensures var db' := AdjustBalance(db, u, amount, id).value;
            && Appends(db, e, db') && IsIncome(e.key) && 0 <= e.balanceAfter == Balance(db', e.user)
            && forall r :: SameRow(db.rows, db'.rows, ReservationK(r))
  {
    e := Entry(AdjustmentKey(id), u, amount, Balance(db, u) + amount);
  }

  lemma AdjustKeeps(db: Db, u: UserId, amount: int, id: AdjustmentId)
    requires MoneyInv(db) && AdjustBalance(db, u, amount, id).Some?
    ensures MoneyInv(AdjustBalance(db, u, amount, id).value)
  {
    hide MoneyInv, AdjustBalance, Appends;
    Solvent(db, u);
    var e := AdjustAppends(db, u, amount, id);
    AppendIncome(db, e, AdjustBalance(db, u, amount, id).value);
  }

  /** What a reservation writes. */
  lemma ReserveAppends(db: Db, u: UserId, r: ReadingId, amount: nat) returns (e: Entry)
    requires Reserve(db, u, r, amount).Some?
    ensures e == Entry(ReservationKey(r), u, 0 - amount, Balance(db, u) - amount) && 0 <= e.balanceAfter
    ensures var db' := Reserve(db, u, r, amount).value;
            && Appends(db, e, db') && e.balanceAfter == Balance(db', u)
            && ReservationK(r) !in db.rows && ReservationK(r) in db'.rows
            && db'.rows[ReservationK(r)] == ReservationRow(u, amount, Active)
            && forall x | x != r :: SameRow(db.rows, db'.rows, ReservationK(x))
  {
    e := Entry(ReservationKey(r), u, 0 - amount, Balance(db, u) - amount);
  }

  lemma ReserveKeeps(db: Db, u: UserId, r: ReadingId, amount: nat)
    requires MoneyInv(db) && Reserve(db, u, r, amount).Some?
    ensures MoneyInv(Reserve(db, u, r, amount).value)
  {
    hide Indexed, Chained, Holds, Reserve, Sum;
    assert HoldOk(db, r);
    var e := ReserveAppends(db, u, r, amount);
    AppendHold(db, e, Reserve(db, u, r, amount).value, r);
  }

  lemma ConfirmKeeps(db: Db, r: ReadingId, balance: int)
    requires MoneyInv(db) && ConfirmHold(db, r, balance).Some?
    ensures MoneyInv(ConfirmHold(db, r, balance).value)
  {
    hide Indexed, Chained, Holds;
    assert HoldOk(db, r);
    if IsHeld(db, r) {
      var u := db.rows[ReservationK(r)].user;
      AppendHold(db, Entry(ConsumptionKey(r), u, 0, balance), ConfirmHold(db, r, balance).value, r);
    }
  }

  /** What a release writes. */
  lemma ReleaseAppends(db: Db, r: ReadingId) returns (e: Entry)
    requires IsHeld(db, r) && ReleaseHold(db, r).Some?
    ensures var db' := ReleaseHold(db, r).value;
            var held := db.rows[ReservationK(r)];
            && Appends(db, e, db') && e.key == ReleaseKey(r) && e.user == held.user && e.amount == held.amount
            && e.balanceAfter == Balance(db', e.user) == Balance(db, e.user) + e.amount
            && ReservationK(r) in db'.rows && db'.rows[ReservationK(r)] == held.(hold := Released)
            && forall x | x != r :: SameRow(db.rows, db'.rows, ReservationK(x))
  {
    var held := db.rows[ReservationK(r)];
    e := Entry(ReleaseKey(r), held.user, held.amount, Balance(db, held.user) + held.amount);
  }

  lemma ReleaseKeeps(db: Db, r: ReadingId)
    requires MoneyInv(db) && ReleaseHold(db, r).Some?
    ensures MoneyInv(ReleaseHold(db, r).value)
  {
    hide Indexed, Chained, Holds, Sum;
    if IsHeld(db, r) {
      hide ReleaseHold;
      assert HoldOk(db, r);
      var e := ReleaseAppends(db, r);
      Solvent(db, e.user);
      AppendHold(db, e, ReleaseHold(db, r).value, r);
    }
  }

  /** What an approval writes to the wallets and the ledger. */
  lemma ApproveAppends(db: Db, p: PaymentId) returns (e: Entry)
    requires InFlight(db, p) && ApprovePayment(db, p).Some?
    ensures var db' := ApprovePayment(db, p).value;
            && Appends(db, e, db') && IsIncome(e.key) && e.amount >= 0
            && e.balanceAfter == Balance(db', e.user) == Balance(db, e.user) + e.amount
            && forall r :: SameRow(db.rows, db'.rows, ReservationK(r))
  {
    var o := db.rows[PaymentK(p)].order;
    var order := db.rows[OrderK(o)];
    e := Entry(PurchaseKey(o), order.user, order.credits, Balance(db, order.user) + order.credits);
  }

  lemma ApproveKeeps(db: Db, p: PaymentId)
    requires MoneyInv(db) && ApprovePayment(db, p).Some?
    ensures MoneyInv(ApprovePayment(db, p).value)
  {
    if InFlight(db, p) {
      var e := ApproveAppends(db, p);
      hide MoneyInv, ApprovePayment, Appends;
      Solvent(db, e.user);
      AppendIncome(db, e, ApprovePayment(db, p).value);
    }
  }

  lemma SubmitKeeps(db: Db, u: UserId, r: ReadingId, cost: nat, draws: Option<seq<TarotDraw>>, free: bool)
    requires MoneyInv(db) && SubmitReading(db, u, r, cost, draws, free).Some?
    ensures MoneyInv(SubmitReading(db, u, r, cost, draws, free).value)
  {
    hide MoneyInv, Reserve;
    var db1 := if free then SpendUnlock(db, u, TarotReadingUnlock).value else db;
    MoneyFrame(db, db1);
    var db2 := Reserve(db1, u, r, if free then 0 else cost).value;
    ReserveKeeps(db1, u, r, if free then 0 else cost);
    MoneyFrame(db2, SubmitReading(db, u, r, cost, draws, free).value);
  }

  predicate MovesMoney(op: Op) {
    op.CreateWallet? || op.Adjust? || op.Submit? || op.Confirm? || op.Release? || op.Approve?
  }

  lemma MoneyNeutral(op: Op, db: Db, seen: Seen)
    requires !MovesMoney(op) && Effect(op, db, seen).Some?
    ensures SameMoney(db, Effect(op, db, seen).value)
  {
    hide OpenWallet, AdjustBalance, SubmitReading, ConfirmHold, ReleaseHold, ApprovePayment;
    EffectFramed(op, db, seen);
  }

  lemma MoneyKeeps(op: Op, db: Db, seen: Seen)
    requires MoneyInv(db) && Effect(op, db, seen).Some?
    ensures MoneyInv(Effect(op, db, seen).value)
  {
    hide MoneyInv, SameMoney, OpenWallet, AdjustBalance, SubmitReading, ConfirmHold, ReleaseHold, ApprovePayment,
         RewardSession;
    match op
    case CreateWallet(u, n) => OpenWalletKeeps(db, u, n);
    case Adjust(u, a, id) => AdjustKeeps(db, u, a, id);
    case Submit(u, r, cost, ads, draws) => SubmitKeeps(db, u, r, cost, draws, ads && seen.hit);
    case Confirm(r) => ConfirmKeeps(db, r, seen.balance);
    case Release(r) => ReleaseKeeps(db, r);
    case Approve(p) => ApproveKeeps(db, p);
    case _ =>
      MoneyNeutral(op, db, seen);
      MoneyFrame(db, Effect(op, db, seen).value);
  }
}
