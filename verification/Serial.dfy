/** A transaction whose statements ran interleaved with others commits exactly what it would have
    done had it run alone at the moment of its commit. */
module Serial {
  import opened Database
  import opened Statements
  import opened Atomic
  import opened Replay

  ghost function Then(db: Db, d: Done): Db
    requires Fine(d)
  {
    match d
    case Skip(_) => db
    case Wrote(k, row, _) => Put(db, k, row)
    case Logged(e, _) => Post(db, e)
  }

  /** One statement of a transaction running alone. */
  ghost predicate Did(s: Stmt, db: Db, l: Locals, o: Obs, db': Db, l': Locals) {
    var d := Do(s, db.rows, l, o);
    Fine(d) && db' == Then(db, d) && l' == d.l
  }

  lemma PutLast(db: Db, t: Trace, k: Key, row: Row, l: Locals)
    requires t.Running? && Fits(k, row)
    ensures Apply(db, Running(t.p[k := row], t.log, l)) == Put(Apply(db, t), k, row)
  {
    assert db.rows + t.p[k := row] == (db.rows + t.p)[k := row];
  }

  lemma PostLast(db: Db, t: Trace, e: Entry, l: Locals)
    requires t.Running?
    ensures Apply(db, Running(t.p[EntryK(e.key) := EntryRow(e)], t.log + [e], l)) == Post(Apply(db, t), e)
  {
    assert db.rows + t.p[EntryK(e.key) := EntryRow(e)] == (db.rows + t.p)[EntryK(e.key) := EntryRow(e)];
    assert db.ledger + (t.log + [e]) == (db.ledger + t.log) + [e];
  }

  lemma AloneSkips(s: Stmt, db: Db, t: Trace, o: Obs, l: Locals)
    requires t.Running? && Do(s, db.rows + t.p, t.l, o) == Skip(l)
    ensures Did(s, Apply(db, t), t.l, o, Apply(db, t.(l := l)), l)
  {
    hide Do;
  }

  lemma AloneWrites(s: Stmt, db: Db, t: Trace, o: Obs, k: Key, row: Row, l: Locals)
    requires t.Running? && Fits(k, row) && Do(s, db.rows + t.p, t.l, o) == Wrote(k, row, l)
    ensures Did(s, Apply(db, t), t.l, o, Apply(db, Running(t.p[k := row], t.log, l)), l)
  {
    hide Do, Fits;
    PutLast(db, t, k, row, l);
  }

  lemma AloneLogs(s: Stmt, db: Db, t: Trace, o: Obs, e: Entry, l: Locals)
    requires t.Running? && Do(s, db.rows + t.p, t.l, o) == Logged(e, l)
    ensures Did(s, Apply(db, t), t.l, o, Apply(db, Running(t.p[EntryK(e.key) := EntryRow(e)], t.log + [e], l)), l)
  {
    hide Do;
    PostLast(db, t, e, l);
  }

  lemma Alone(s: Stmt, db: Db, t: Trace, o: Obs)
    requires t.Running? && Exec(s, db.rows, t, o).Running?
    ensures var t' := Exec(s, db.rows, t, o); Did(s, Apply(db, t), t.l, o, Apply(db, t'), t'.l)
  {
    hide Do, Did, Apply, KeyOf, Fits;
    match Do(s, db.rows + t.p, t.l, o)
    case Skip(l) => AloneSkips(s, db, t, o, l);
    case Wrote(k, row, l) => AloneWrites(s, db, t, o, k, row, l);
    case Logged(e, l) => AloneLogs(s, db, t, o, e, l);
    case _ =>
  }

  ghost function Full(op: Op, obs: seq<Obs>, n: nat, rows: Rows): Trace
    requires n <= |obs| <= |Program(op)|
  {
    Rerun(Program(op), Start(op), obs, n, rows)
  }

  /** The states a completed transaction goes through when it runs alone. */
  lemma {:induction false} Stages(op: Op, obs: seq<Obs>, n: nat, db: Db) returns (dbs: seq<Db>, ls: seq<Locals>)
    requires n <= |obs| <= |Program(op)| && Full(op, obs, n, db.rows).Running?
    ensures |dbs| == |ls| == n + 1 && dbs[0] == db && ls[0] == Start(op)
    ensures dbs[n] == Apply(db, Full(op, obs, n, db.rows)) && ls[n] == Full(op, obs, n, db.rows).l
    ensures forall i | 0 <= i < n :: Did(Program(op)[i], dbs[i], ls[i], obs[i], dbs[i + 1], ls[i + 1])
  {
    hide Do, Exec, Did, Program;
    if n == 0 {
      dbs, ls := [db], [Start(op)];
      assert db.rows + map[] == db.rows && db.ledger + [] == db.ledger;
    } else {
      dbs, ls := Stages(op, obs, n - 1, db);
      Alone(Program(op)[n - 1], db, Full(op, obs, n - 1, db.rows), obs[n - 1]);
      dbs, ls := dbs + [Apply(db, Full(op, obs, n, db.rows))], ls + [Full(op, obs, n, db.rows).l];
    }
  }

  lemma WalletFound(db: Db, l: Locals, o: Obs, db': Db, l': Locals)
    requires Did(FindWallet, db, l, o, db', l')
    ensures db' == db && l' == l && WalletK(l.user) in db.rows
  {
  }

  lemma CreditDone(db: Db, l: Locals, o: Obs, db': Db, l': Locals)
    requires Did(Credit, db, l, o, db', l')
    ensures Credited(db, l.user, l.amount) == Some(db') && l' == l.(seen := Balance(db', l.user))
  {
  }

  lemma EntryWritten(i: IdemKey, sign: int, db: Db, l: Locals, o: Obs, db': Db, l': Locals)
    requires Did(WriteEntry(i, sign), db, l, o, db', l')
    ensures Record(db, i, l.user, sign * l.amount, l.seen) == Some(db') && l' == l
  {
  }

  lemma HoldClosed(r: ReadingId, to: Settled, db: Db, l: Locals, o: Obs, db': Db, l': Locals)
    requires Did(CloseHold(r, to), db, l, o, db', l')
    ensures IsHeld(db, r) && db' == Closed(db, r, to)
    ensures l' == l.(user := db.rows[ReservationK(r)].user, amount := db.rows[ReservationK(r)].amount)
  {
  }

  lemma SubmitPrologue(u: UserId, r: ReadingId, ads: bool, dbs: seq<Db>, ls: seq<Locals>, o: seq<Obs>)
    requires |dbs| >= 4 && |ls| >= 4 && |o| >= 4 && ls[0].user == u
    requires Did(FindDraft(r), dbs[0], ls[0], o[0], dbs[1], ls[1])
    requires Did(TakeUnlock(ads, TarotReadingUnlock), dbs[1], ls[1], o[1], dbs[2], ls[2])
    requires Did(FindWallet, dbs[2], ls[2], o[2], dbs[3], ls[3])
    ensures ReadingK(r) in dbs[0].rows && dbs[0].rows[ReadingK(r)].user == u && ls[3].user == u
    ensures || (dbs[3] == dbs[0] && ls[3] == ls[0])
            || (ads && SpendUnlock(dbs[0], u, TarotReadingUnlock) == Some(dbs[3]) && ls[3].amount == 0)
  {
  }

  lemma DebitStages(u: UserId, dbs: seq<Db>, ls: seq<Locals>, o: seq<Obs>)
    requires |dbs| >= 8 && |ls| >= 8 && |o| >= 8 && ls[3].user == u
    requires Did(Debit, dbs[3], ls[3], o[3], dbs[4], ls[4])
    requires Did(ReadBack, dbs[4], ls[4], o[4], dbs[5], ls[5])
    ensures Debited(dbs[3], u, ls[3].amount) == Some(dbs[5]) && ls[5] == ls[3].(seen := Balance(dbs[5], u))
  {
    hide Did;
    DebitDone(dbs[3], ls[3], o[3], dbs[4], ls[4]);
    BalanceRead(dbs[4], ls[4], o[4], dbs[5], ls[5]);
  }

  lemma HoldStages(u: UserId, r: ReadingId, dbs: seq<Db>, ls: seq<Locals>, o: seq<Obs>)
    requires |dbs| >= 8 && |ls| >= 8 && |o| >= 8 && ls[5].user == u
    requires Did(Hold(r), dbs[5], ls[5], o[5], dbs[6], ls[6])
    requires Did(WriteEntry(ReservationKey(r), -1), dbs[6], ls[6], o[6], dbs[7], ls[7])
    ensures InsertRow(dbs[5], ReservationK(r), ReservationRow(u, ls[5].amount, Active)) == Some(dbs[6])
    ensures Record(dbs[6], ReservationKey(r), u, -ls[5].amount, ls[5].seen) == Some(dbs[7])
  {
  }

  lemma ReserveStages(u: UserId, r: ReadingId, dbs: seq<Db>, ls: seq<Locals>, o: seq<Obs>)
    requires |dbs| >= 8 && |ls| >= 8 && |o| >= 8 && ls[3].user == u
    requires Did(Debit, dbs[3], ls[3], o[3], dbs[4], ls[4])
    requires Did(ReadBack, dbs[4], ls[4], o[4], dbs[5], ls[5])
    requires Did(Hold(r), dbs[5], ls[5], o[5], dbs[6], ls[6])
    requires Did(WriteEntry(ReservationKey(r), -1), dbs[6], ls[6], o[6], dbs[7], ls[7])
    ensures Reserve(dbs[3], u, r, ls[3].amount) == Some(dbs[7])
  {
    hide Did;
    DebitStages(u, dbs, ls, o);
    HoldStages(u, r, dbs, ls, o);
  }

  lemma SubmitEpilogue(r: ReadingId, draws: Option<seq<TarotDraw>>, dbs: seq<Db>, ls: seq<Locals>, o: seq<Obs>)
    requires |dbs| >= 10 && |ls| >= 10 && |o| >= 9
    requires Did(InsertDraws(r, draws), dbs[7], ls[7], o[7], dbs[8], ls[8])
    requires Did(SetStatus(r, Pending), dbs[8], ls[8], o[8], dbs[9], ls[9])
    ensures (if draws.Some? then InsertRow(dbs[7], DrawsK(r), DrawsRow(draws.value)) else Some(dbs[7])) == Some(dbs[8])
    ensures SetReading(dbs[8], r, Pending) == Some(dbs[9])
  {
  }

  lemma SerialSubmit(op: Op, obs: seq<Obs>, db: Db) returns (seen: Seen)
    requires op.Submit? && |obs| == 9 && Full(op, obs, 9, db.rows).Running?
    ensures Effect(op, db, seen) == Some(Apply(db, Full(op, obs, 9, db.rows)))
  {
    hide Did, Reserve, SpendUnlock, SetReading, InsertRow, Full;
    var Submit(u, r, cost, ads, draws) := op;
    var dbs, ls := Stages(op, obs, 9, db);
    SubmitPrologue(u, r, ads, dbs, ls, obs);
    ReserveStages(u, r, dbs, ls, obs);
    SubmitEpilogue(r, draws, dbs, ls, obs);
    seen := Seen(0, ads && SpendUnlock(db, u, TarotReadingUnlock) == Some(dbs[3]) && ls[3].amount == 0);
  }

  lemma AdjustStages(u: UserId, a: int, id: AdjustmentId, dbs: seq<Db>, ls: seq<Locals>, o: seq<Obs>, n: nat)
    requires |dbs| == |ls| >= n + 3 && |o| >= n + 2 && ls[n].user == u
    requires WalletK(u) in dbs[n].rows && ls[n].seen == Balance(dbs[n], u)
    requires ls[n].amount == if a < 0 then -a else a
    requires Did(WriteEntry(AdjustmentKey(id), if a < 0 then -1 else 1), dbs[n], ls[n], o[n], dbs[n + 1], ls[n + 1])
    requires Did(WriteAudit(id, a), dbs[n + 1], ls[n + 1], o[n + 1], dbs[n + 2], ls[n + 2])
    ensures Record(dbs[n], AdjustmentKey(id), u, a, Balance(dbs[n], u)) == Some(dbs[n + 1])
    ensures InsertRow(dbs[n + 1], AuditK(id), AuditRow(u, a, Balance(dbs[n], u))) == Some(dbs[n + 2])
  {
  }

  lemma DebitDone(db: Db, l: Locals, o: Obs, db': Db, l': Locals)
    requires Did(Debit, db, l, o, db', l')
    ensures Debited(db, l.user, l.amount) == Some(db') && l' == l
  {
  }

  lemma BalanceRead(db: Db, l: Locals, o: Obs, db': Db, l': Locals)
    requires Did(ReadBack, db, l, o, db', l')
    ensures db' == db && l' == l.(seen := Balance(db, l.user))
  {
  }

  lemma MoveStages(u: UserId, a: int, dbs: seq<Db>, ls: seq<Locals>, o: seq<Obs>)
    requires |dbs| == |ls| >= 4 && |o| >= 3 && ls[0].user == u && ls[0].amount == if a < 0 then -a else a
    requires Did(FindWallet, dbs[0], ls[0], o[0], dbs[1], ls[1])
    requires Did(if a < 0 then Debit else Credit, dbs[1], ls[1], o[1], dbs[2], ls[2])
    requires a < 0 ==> Did(ReadBack, dbs[2], ls[2], o[2], dbs[3], ls[3])
    ensures var n := if a < 0 then 3 else 2;
            && (if a < 0 then Debited(dbs[0], u, -a) else Credited(dbs[0], u, a)) == Some(dbs[n])
            && WalletK(u) in dbs[n].rows && ls[n] == ls[0].(seen := Balance(dbs[n], u))
  {
    hide Did;
    WalletFound(dbs[0], ls[0], o[0], dbs[1], ls[1]);
    if a < 0 {
      DebitDone(dbs[1], ls[1], o[1], dbs[2], ls[2]);
      BalanceRead(dbs[2], ls[2], o[2], dbs[3], ls[3]);
    } else {
      CreditDone(dbs[1], ls[1], o[1], dbs[2], ls[2]);
    }
  }

  lemma SerialAdjust(op: Op, obs: seq<Obs>, db: Db)
    requires op.Adjust? && |obs| == |Program(op)| && Full(op, obs, |obs|, db.rows).Running?
    ensures forall seen :: Effect(op, db, seen) == Some(Apply(db, Full(op, obs, |obs|, db.rows)))
  {
    hide Did, Debited, Credited, Record, InsertRow, Full;
    var dbs, ls := Stages(op, obs, |obs|, db);
    MoveStages(op.user, op.amount, dbs, ls, obs);
    AdjustStages(op.user, op.amount, op.adjustment, dbs, ls, obs, if op.amount < 0 then 3 else 2);
  }

  lemma ApproveStages(p: PaymentId, to: FinalState, dbs: seq<Db>, ls: seq<Locals>, o: seq<Obs>)
    requires |dbs| == |ls| >= 3 && |o| >= 2
    requires Did(FindPayment(p), dbs[0], ls[0], o[0], dbs[1], ls[1])
    requires Did(ClosePayment(p, to), dbs[1], ls[1], o[1], dbs[2], ls[2])
    ensures InFlight(dbs[0], p) && dbs[2] == Settle(dbs[0], p, to) && ls[2].order == dbs[0].rows[PaymentK(p)].order
  {
  }

  lemma PayStages(dbs: seq<Db>, ls: seq<Locals>, o: seq<Obs>)
    requires |dbs| == |ls| >= 5 && |o| >= 4
    requires Did(FindOrder, dbs[2], ls[2], o[2], dbs[3], ls[3])
    requires Did(PayOrder, dbs[3], ls[3], o[3], dbs[4], ls[4])
    ensures SetOrder(dbs[2], ls[2].order, Paid) == Some(dbs[4])
    ensures var order := dbs[4].rows[OrderK(ls[2].order)];
            ls[4] == ls[2].(user := order.user, amount := order.credits)
  {
  }

  lemma PurchaseWritten(db: Db, l: Locals, o: Obs, db': Db, l': Locals)
    requires Did(WritePurchase, db, l, o, db', l')
    ensures Record(db, PurchaseKey(l.order), l.user, l.amount, l.seen) == Some(db')
  {
  }

  lemma PurchaseStages(dbs: seq<Db>, ls: seq<Locals>, o: seq<Obs>)
    requires |dbs| == |ls| >= 8 && |o| >= 7
    requires Did(FindWallet, dbs[4], ls[4], o[4], dbs[5], ls[5])
    requires Did(Credit, dbs[5], ls[5], o[5], dbs[6], ls[6])
    requires Did(WritePurchase, dbs[6], ls[6], o[6], dbs[7], ls[7])
    ensures Credited(dbs[4], ls[4].user, ls[4].amount) == Some(dbs[6])
    ensures Record(dbs[6], PurchaseKey(ls[4].order), ls[4].user, ls[4].amount, Balance(dbs[6], ls[4].user))
            == Some(dbs[7])
  {
    hide Did;
    WalletFound(dbs[4], ls[4], o[4], dbs[5], ls[5]);
    CreditDone(dbs[5], ls[5], o[5], dbs[6], ls[6]);
    PurchaseWritten(dbs[6], ls[6], o[6], dbs[7], ls[7]);
  }

  lemma SerialApprove(op: Op, obs: seq<Obs>, db: Db)
    requires op.Approve? && |obs| == 7 && Full(op, obs, 7, db.rows).Running?
    ensures forall seen :: Effect(op, db, seen) == Some(Apply(db, Full(op, obs, 7, db.rows)))
  {
    hide Did, Settle, SetOrder, Credited, Record, Full;
    var dbs, ls := Stages(op, obs, 7, db);
    ApproveStages(op.payment, Approved, dbs, ls, obs);
    PayStages(dbs, ls, obs);
    PurchaseStages(dbs, ls, obs);
  }

  lemma CancelStages(dbs: seq<Db>, ls: seq<Locals>, o: seq<Obs>)
    requires |dbs| == |ls| >= 4 && |o| >= 3
    requires Did(CancelOrder, dbs[2], ls[2], o[2], dbs[3], ls[3])
    ensures dbs[3] == dbs[2] || (OrderK(ls[2].order) in dbs[2].rows && dbs[2].rows[OrderK(ls[2].order)].paid == Unpaid
                                 && SetOrder(dbs[2], ls[2].order, Cancelled) == Some(dbs[3]))
  {
  }

  lemma SerialTerminate(op: Op, obs: seq<Obs>, db: Db) returns (seen: Seen)
    requires op.Terminate? && |obs| == 3 && Full(op, obs, 3, db.rows).Running?
    ensures Effect(op, db, seen) == Some(Apply(db, Full(op, obs, 3, db.rows)))
  {
    hide Did, SetOrder, Full;
    var dbs, ls := Stages(op, obs, 3, db);
    ApproveStages(op.payment, op.outcome, dbs, ls, obs);
    CancelStages(dbs, ls, obs);
    seen := Seen(0, dbs[3] != dbs[2]);
  }

  lemma RewardedStages(s: SessionId, dbs: seq<Db>, ls: seq<Locals>, o: seq<Obs>)
    requires |dbs| == |ls| >= 3 && |o| >= 2
    requires Did(FindSession(s), dbs[0], ls[0], o[0], dbs[1], ls[1])
    requires Did(CloseSession(s), dbs[1], ls[1], o[1], dbs[2], ls[2])
    ensures IsOpen(dbs[0], s)
    ensures var SessionRow(u, kind, _) := dbs[0].rows[SessionK(s)];
            dbs[2] == Put(dbs[0], SessionK(s), SessionRow(u, kind, Rewarded)) && ls[2].user == u && ls[2].kind == kind
  {
  }

  lemma RewardInserted(s: SessionId, db: Db, l: Locals, o: Obs, db': Db, l': Locals)
    requires Did(InsertReward(s), db, l, o, db', l')
    ensures InsertRow(db, RewardK(s), RewardRow(l.user, l.kind)) == Some(db') && l' == l
  {
  }

  lemma ProgressBumped(db: Db, l: Locals, o: Obs, db': Db, l': Locals)
    requires Did(BumpProgress, db, l, o, db', l')
    ensures var ProgressRow(count, taken) := Progress(db.rows, l.user, l.kind);
            && db' == Put(db, ProgressK(l.user, l.kind), ProgressRow(count + 1, taken))
            && l' == l.(seen := count + 1)
  {
  }

  lemma BumpStages(s: SessionId, dbs: seq<Db>, ls: seq<Locals>, o: seq<Obs>)
    requires |dbs| == |ls| >= 5 && |o| >= 4
    requires Did(InsertReward(s), dbs[2], ls[2], o[2], dbs[3], ls[3])
    requires Did(BumpProgress, dbs[3], ls[3], o[3], dbs[4], ls[4])
    ensures InsertRow(dbs[2], RewardK(s), RewardRow(ls[2].user, ls[2].kind)) == Some(dbs[3])
    ensures var ProgressRow(count, taken) := Progress(dbs[3].rows, ls[2].user, ls[2].kind);
            && dbs[4] == Put(dbs[3], ProgressK(ls[2].user, ls[2].kind), ProgressRow(count + 1, taken))
            && ls[4] == ls[2].(seen := count + 1)
  {
    hide Did;
    RewardInserted(s, dbs[2], ls[2], o[2], dbs[3], ls[3]);
    ProgressBumped(dbs[3], ls[3], o[3], dbs[4], ls[4]);
  }

  lemma ResetStages(dbs: seq<Db>, ls: seq<Locals>, o: seq<Obs>)
    requires |dbs| == |ls| >= 6 && |o| >= 5
    requires Did(ResetFlash, dbs[4], ls[4], o[4], dbs[5], ls[5])
    ensures ls[5] == ls[4]
    ensures var k := ProgressK(ls[4].user, ls[4].kind);
            if EarnsOffer(ls[4]) then k in dbs[4].rows && dbs[5] == Put(dbs[4], k, ProgressRow(0, dbs[4].rows[k].taken))
            else dbs[5] == dbs[4]
  {
  }

  lemma OfferStages(f: OfferId, dbs: seq<Db>, ls: seq<Locals>, o: seq<Obs>)
    requires |dbs| == |ls| >= 7 && |o| >= 6
    requires Did(GrantOffer(f), dbs[5], ls[5], o[5], dbs[6], ls[6])
    ensures if EarnsOffer(ls[5])
            then InsertRow(dbs[5], OfferK(f), OfferRow(ls[5].user, FLASH_OFFER_PACKAGE, FLASH_OFFER_PERCENT, false))
                 == Some(dbs[6])
            else dbs[6] == dbs[5]
  {
  }

  lemma GrantStages(f: OfferId, u: UserId, kind: RewardType, row: Row, dbs: seq<Db>, ls: seq<Locals>, o: seq<Obs>)
    requires |dbs| == |ls| >= 7 && |o| >= 6 && row.ProgressRow? && dbs[4] == Put(dbs[3], ProgressK(u, kind), row)
    requires ls[4].user == u && ls[4].kind == kind && ls[4].seen == row.count
    requires Did(ResetFlash, dbs[4], ls[4], o[4], dbs[5], ls[5])
    requires Did(GrantOffer(f), dbs[5], ls[5], o[5], dbs[6], ls[6])
    ensures if EarnsOffer(ls[4])
            then InsertRow(Put(dbs[3], ProgressK(u, kind), ProgressRow(0, row.taken)), OfferK(f),
                           OfferRow(u, FLASH_OFFER_PACKAGE, FLASH_OFFER_PERCENT, false)) == Some(dbs[6])
            else dbs[6] == dbs[4]
  {
    hide Did, InsertRow, EarnsOffer;
    ResetStages(dbs, ls, o);
    OfferStages(f, dbs, ls, o);
    assert Put(Put(dbs[3], ProgressK(u, kind), row), ProgressK(u, kind), ProgressRow(0, row.taken))
        == Put(dbs[3], ProgressK(u, kind), ProgressRow(0, row.taken));
  }

  lemma SerialCompleteSession(op: Op, obs: seq<Obs>, db: Db)
    requires op.CompleteSession? && |obs| == 6 && Full(op, obs, 6, db.rows).Running?
    ensures forall seen :: Effect(op, db, seen) == Some(Apply(db, Full(op, obs, 6, db.rows)))
  {
    hide Did, InsertRow, Full;
    var dbs, ls := Stages(op, obs, 6, db);
    RewardedStages(op.session, dbs, ls, obs);
    BumpStages(op.session, dbs, ls, obs);
    var SessionRow(u, kind, _) := db.rows[SessionK(op.session)];
    var row := Progress(dbs[3].rows, u, kind);
    GrantStages(op.offer, u, kind, ProgressRow(row.count + 1, row.taken), dbs, ls, obs);
  }

  lemma ConfirmStages(r: ReadingId, dbs: seq<Db>, ls: seq<Locals>, o: seq<Obs>)
    requires |dbs| == |ls| >= 4 && |o| >= 3
    requires Did(CloseHold(r, Consumed), dbs[0], ls[0], o[0], dbs[1], ls[1])
    requires Did(ReadBalance, dbs[1], ls[1], o[1], dbs[2], ls[2])
    requires Did(WriteEntry(ConsumptionKey(r), 0), dbs[2], ls[2], o[2], dbs[3], ls[3])
    ensures ConfirmHold(dbs[0], r, ls[2].seen) == Some(dbs[3])
  {
  }

  lemma ReleaseStages(r: ReadingId, dbs: seq<Db>, ls: seq<Locals>, o: seq<Obs>)
    requires |dbs| == |ls| >= 4 && |o| >= 3
    requires Did(CloseHold(r, Released), dbs[0], ls[0], o[0], dbs[1], ls[1])
    requires Did(Credit, dbs[1], ls[1], o[1], dbs[2], ls[2])
    requires Did(WriteEntry(ReleaseKey(r), 1), dbs[2], ls[2], o[2], dbs[3], ls[3])
    ensures ReleaseHold(dbs[0], r) == Some(dbs[3])
  {
    hide Did;
    HoldClosed(r, Released, dbs[0], ls[0], o[0], dbs[1], ls[1]);
    CreditDone(dbs[1], ls[1], o[1], dbs[2], ls[2]);
    EntryWritten(ReleaseKey(r), 1, dbs[2], ls[2], o[2], dbs[3], ls[3]);
  }

  lemma SerialSettle(op: Op, obs: seq<Obs>, db: Db) returns (seen: Seen)
    requires (op.Confirm? || op.Release?) && |obs| == 3 && Full(op, obs, 3, db.rows).Running?
    ensures Effect(op, db, seen) == Some(Apply(db, Full(op, obs, 3, db.rows)))
  {
    hide Full, Did, ConfirmHold, ReleaseHold;
    var dbs, ls := Stages(op, obs, 3, db);
    if op.Confirm? {
      ConfirmStages(op.reading, dbs, ls, obs);
    } else {
      ReleaseStages(op.reading, dbs, ls, obs);
    }
    seen := Seen(ls[2].seen, false);
  }

  lemma OfferFound(u: UserId, pkg: string, pick: Option<OfferId>, db: Db, l: Locals, o: Obs, db': Db, l': Locals)
    requires l.user == u && Did(FindOffer(pick, pkg), db, l, o, db', l')
    ensures db' == db && l' == l
    ensures pick.Some? ==> OfferK(pick.value) in db.rows && db.rows[OfferK(pick.value)].user == u
                           && db.rows[OfferK(pick.value)].pkg == pkg
  {
  }

  lemma OfferConsumed(pick: Option<OfferId>, db: Db, l: Locals, o: Obs, db': Db, l': Locals)
    requires Did(ConsumeOffer(pick), db, l, o, db', l')
    ensures if db' == db then l' == l
            else pick.Some? && OfferK(pick.value) in db.rows && !db.rows[OfferK(pick.value)].consumed
                 && db' == Put(db, OfferK(pick.value), db.rows[OfferK(pick.value)].(consumed := true))
                 && l' == l.(discount := Some(db.rows[OfferK(pick.value)].percent))
  {
    if pick.Some? && OfferK(pick.value) in db.rows && !db.rows[OfferK(pick.value)].consumed {
      var k := OfferK(pick.value);
      assert Put(db, k, db.rows[k].(consumed := true)).rows[k].consumed;
    }
  }

  lemma OrderInserted(o: OrderId, pkg: Package, pick: Option<OfferId>, db: Db, l: Locals, obs: Obs, db': Db, l': Locals)
    requires Did(InsertOrder(o, pkg, pick), db, l, obs, db', l')
    ensures InsertRow(db, OrderK(o), NewOrder(l.user, pkg, l.discount, pick)) == Some(db')
  {
  }

  lemma OrderStages(o: OrderId, u: UserId, pkg: Package, pick: Option<OfferId>, dbs: seq<Db>, ls: seq<Locals>,
                    obs: seq<Obs>)
    requires |dbs| == |ls| >= 4 && |obs| >= 3 && ls[0].user == u && ls[0].discount == None
    requires Did(FindOffer(pick, pkg.code), dbs[0], ls[0], obs[0], dbs[1], ls[1])
    requires Did(ConsumeOffer(pick), dbs[1], ls[1], obs[1], dbs[2], ls[2])
    requires Did(InsertOrder(o, pkg, pick), dbs[2], ls[2], obs[2], dbs[3], ls[3])
    ensures PlaceOrder(dbs[0], o, u, pkg, pick, dbs[2] != dbs[1]) == Some(dbs[3])
  {
    hide Did, NewOrder, InsertRow;
    OfferFound(u, pkg.code, pick, dbs[0], ls[0], obs[0], dbs[1], ls[1]);
    OfferConsumed(pick, dbs[1], ls[1], obs[1], dbs[2], ls[2]);
    OrderInserted(o, pkg, pick, dbs[2], ls[2], obs[2], dbs[3], ls[3]);
  }

  lemma SerialOrder(op: Op, obs: seq<Obs>, db: Db) returns (seen: Seen)
    requires op.CreateOrder? && |obs| == 3 && Full(op, obs, 3, db.rows).Running?
    ensures Effect(op, db, seen) == Some(Apply(db, Full(op, obs, 3, db.rows)))
  {
    hide Full, Did, PlaceOrder;
    var dbs, ls := Stages(op, obs, 3, db);
    OrderStages(op.order, op.user, op.package, op.pick, dbs, ls, obs);
    seen := Seen(0, dbs[2] != dbs[1]);
  }

  lemma WalletStages(u: UserId, n: nat, dbs: seq<Db>, ls: seq<Locals>, o: seq<Obs>)
    requires |dbs| == |ls| >= 3 && |o| >= 2 && ls[0].user == u && ls[0].amount == ls[0].seen == n
    requires Did(Insert(WalletK(u), WalletRow(n)), dbs[0], ls[0], o[0], dbs[1], ls[1])
    requires Did(WriteBonus, dbs[1], ls[1], o[1], dbs[2], ls[2])
    ensures OpenWallet(dbs[0], u, n) == Some(dbs[2])
  {
  }

  lemma SerialWallet(op: Op, obs: seq<Obs>, db: Db)
    requires op.CreateWallet? && |obs| == 2 && Full(op, obs, 2, db.rows).Running?
    ensures forall seen :: Effect(op, db, seen) == Some(Apply(db, Full(op, obs, 2, db.rows)))
  {
    hide Full, Did, OpenWallet;
    var dbs, ls := Stages(op, obs, 2, db);
    WalletStages(op.user, op.bonus, dbs, ls, obs);
  }

  lemma StatusStages(find: Stmt, r: ReadingId, to: Submitted, dbs: seq<Db>, ls: seq<Locals>, o: seq<Obs>)
    requires |dbs| == |ls| >= 3 && |o| >= 2 && (find == FindUnfinished(r) || find == FindFailed(r))
    requires Did(find, dbs[0], ls[0], o[0], dbs[1], ls[1])
    requires Did(SetStatus(r, to), dbs[1], ls[1], o[1], dbs[2], ls[2])
    ensures SetReading(dbs[0], r, to) == Some(dbs[2])
    ensures find.FindFailed? ==> ReadingK(r) in dbs[0].rows && dbs[0].rows[ReadingK(r)].status != Draft
  {
  }

  lemma SerialStatus(op: Op, obs: seq<Obs>, db: Db)
    requires (op.StartProcessing? || op.Retry?) && |obs| == 2 && Full(op, obs, 2, db.rows).Running?
    ensures forall seen :: Effect(op, db, seen) == Some(Apply(db, Full(op, obs, 2, db.rows)))
  {
    hide Full, Did, SetReading;
    var dbs, ls := Stages(op, obs, 2, db);
    StatusStages(Program(op)[0], op.reading, if op.Retry? then Pending else Processing, dbs, ls, obs);
  }

  lemma CheckoutStages(p: PaymentId, order: OrderId, u: UserId, dbs: seq<Db>, ls: seq<Locals>, o: seq<Obs>)
    requires |dbs| == |ls| >= 3 && |o| >= 2 && ls[0].user == u
    requires Did(FindUnpaidOrder(order), dbs[0], ls[0], o[0], dbs[1], ls[1])
    requires Did(InsertPayment(p, order), dbs[1], ls[1], o[1], dbs[2], ls[2])
    ensures CheckoutOrder(dbs[0], p, order, u) == Some(dbs[2])
  {
  }

  lemma SerialCheckout(op: Op, obs: seq<Obs>, db: Db)
    requires op.Checkout? && |obs| == 2 && Full(op, obs, 2, db.rows).Running?
    ensures forall seen :: Effect(op, db, seen) == Some(Apply(db, Full(op, obs, 2, db.rows)))
  {
    hide Full, Did, CheckoutOrder;
    var dbs, ls := Stages(op, obs, 2, db);
    CheckoutStages(op.payment, op.order, op.user, dbs, ls, obs);
  }

  lemma SerialInsert(op: Op, obs: seq<Obs>, db: Db)
    requires op.CreateReading? || op.RecordExecution? || op.OpenSession?
    requires |obs| == 1 && Full(op, obs, 1, db.rows).Running?
    ensures forall seen :: Effect(op, db, seen) == Some(Apply(db, Full(op, obs, 1, db.rows)))
  {
    hide Full;
    var dbs, ls := Stages(op, obs, 1, db);
    assert Did(Program(op)[0], dbs[0], ls[0], obs[0], dbs[1], ls[1]);
  }

  lemma UpdateStage(op: Op, db: Db, l: Locals, o: Obs, db': Db, l': Locals, seen: Seen)
    requires op.Finish? || op.MarkFailed? || op.ExpireSession?
    requires Did(Program(op)[0], db, l, o, db', l')
    ensures Effect(op, db, seen) == Some(db')
  {
    hide Find, Create, Maybe;
  }

  lemma SerialUpdate(op: Op, obs: seq<Obs>, db: Db)
    requires op.Finish? || op.MarkFailed? || op.ExpireSession?
    requires |obs| == 1 && Full(op, obs, 1, db.rows).Running?
    ensures forall seen :: Effect(op, db, seen) == Some(Apply(db, Full(op, obs, 1, db.rows)))
  {
    hide Full, Did, Effect;
    var dbs, ls := Stages(op, obs, 1, db);
    forall seen ensures Effect(op, db, seen) == Some(Apply(db, Full(op, obs, 1, db.rows))) {
      UpdateStage(op, dbs[0], ls[0], obs[0], dbs[1], ls[1], seen);
    }
  }

  lemma SerialUnlock(op: Op, obs: seq<Obs>, db: Db) returns (seen: Seen)
    requires op.TakeDailyUnlock? && |obs| == 1 && Full(op, obs, 1, db.rows).Running?
    ensures Effect(op, db, seen) == Some(Apply(db, Full(op, obs, 1, db.rows)))
  {
    hide Full;
    var dbs, ls := Stages(op, obs, 1, db);
    assert Did(TakeUnlock(true, DailyCardUnlock), dbs[0], ls[0], obs[0], dbs[1], ls[1]);
    seen := Seen(0, dbs[1] != db);
  }

  /** Every completed transaction is one atomic step on the state it commits on. */
  lemma Serializable(op: Op, obs: seq<Obs>, db: Db)
    requires |obs| == |Program(op)| && Full(op, obs, |obs|, db.rows).Running?
    ensures Committed(op, db, Apply(db, Full(op, obs, |obs|, db.rows)))
  {
    hide Full, Effect;
    var seen := Seen(0, false);
    match op {
      case CreateWallet(_, _) => SerialWallet(op, obs, db);
      case Adjust(_, _, _) => SerialAdjust(op, obs, db);
      case Submit(_, _, _, _, _) => seen := SerialSubmit(op, obs, db);
      case Confirm(_) => seen := SerialSettle(op, obs, db);
      case Release(_) => seen := SerialSettle(op, obs, db);
      case StartProcessing(_) => SerialStatus(op, obs, db);
      case Retry(_) => SerialStatus(op, obs, db);
      case CreateReading(_, _) => SerialInsert(op, obs, db);
      case RecordExecution(_, _, _, _) => SerialInsert(op, obs, db);
      case OpenSession(_, _, _) => SerialInsert(op, obs, db);
      case Finish(_, _) => SerialUpdate(op, obs, db);
      case MarkFailed(_) => SerialUpdate(op, obs, db);
      case ExpireSession(_) => SerialUpdate(op, obs, db);
      case CreateOrder(_, _, _, _) => seen := SerialOrder(op, obs, db);
      case Checkout(_, _, _) => SerialCheckout(op, obs, db);
      case Approve(_) => SerialApprove(op, obs, db);
      case Terminate(_, _) => seen := SerialTerminate(op, obs, db);
      case CompleteSession(_, _) => SerialCompleteSession(op, obs, db);
      case TakeDailyUnlock(_) => seen := SerialUnlock(op, obs, db);
    }
    assert Effect(op, db, seen) == Some(Apply(db, Full(op, obs, |obs|, db.rows)));
  }

  lemma StopsAt(s: Stmt, view: Rows, l: Locals, o: Obs)
    requires Do(s, view, l, o).Stop?
    ensures s.CloseHold? || s.FailUnlessCompleted? || s.ClosePayment? || s.CloseSession? || s.ExpireOpen?
    ensures var k := KeyOf(s, l);
            k in view ==> match s
                          case CloseHold(_, _) => view[k].hold != Active
                          case FailUnlessCompleted(_) => view[k].status == Completed
                          case ClosePayment(_, _) => view[k].state != InProgress
                          case _ => !Open(view[k])
  {
  }

  lemma FoundStage(s: Stmt, db: Db, l: Locals, o: Obs, db': Db, l': Locals)
    requires (s.FindPayment? || s.FindSession?) && Did(s, db, l, o, db', l')
    ensures db' == db && KeyOf(s, l) in db.rows
  {
  }

  predicate NothingToDo(op: Op, db: Db) {
    match op
    case Confirm(r) => !IsHeld(db, r)
    case Release(r) => !IsHeld(db, r)
    case MarkFailed(r) => ReadingK(r) in db.rows ==> db.rows[ReadingK(r)].status == Completed
    case Approve(p) => PaymentK(p) in db.rows && !InFlight(db, p)
    case Terminate(p, _) => PaymentK(p) in db.rows && !InFlight(db, p)
    case ExpireSession(s) => !IsOpen(db, s)
    case CompleteSession(s, _) => SessionK(s) in db.rows && !IsOpen(db, s)
    case _ => false
  }

  lemma IdleEffect(op: Op, db: Db)
    requires NothingToDo(op, db)
    ensures Effect(op, db, Seen(0, false)) == Some(db)
  {
  }

  /** A transaction that returns early wrote nothing, and at that moment had nothing to do. */
  lemma StopIsIdle(op: Op, obs: seq<Obs>, o: Obs, db: Db)
    requires |obs| < |Program(op)| && Full(op, obs, |obs|, db.rows).Running?
    requires Exec(Program(op)[|obs|], db.rows, Full(op, obs, |obs|, db.rows), o).Stopped?
    ensures Committed(op, db, db)
  {
    hide Do, Did, Full, Effect;
    var n := |obs|;
    var s := Program(op)[n];
    var t := Full(op, obs, n, db.rows);
    StopsAt(s, db.rows + t.p, t.l, o);
    var dbs, ls := Stages(op, obs, n, db);
    if n == 1 {
      FoundStage(Program(op)[0], dbs[0], ls[0], obs[0], dbs[1], ls[1]);
    }
    assert dbs[n] == db && Apply(db, t).rows == db.rows;
    assert NothingToDo(op, db);
    IdleEffect(op, db);
  }
}
