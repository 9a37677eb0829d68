/** Readings across submits, jobs that crash and run again, failure callbacks and retries. */
module ReadingEngine {
  import opened Database
  import opened Statements
  import opened Atomic
  import opened Handlers

  ghost predicate HasLeftDraft(rows: Rows, r: ReadingId) {
    ReadingK(r) in rows && rows[ReadingK(r)].status != Draft
  }

  ghost predicate IsSettled(rows: Rows, r: ReadingId) {
    ReservationK(r) in rows && rows[ReservationK(r)].hold != Active
  }

  /** A stored interpretation of the reading that passed every check. */
  ghost predicate IsDelivery(rows: Rows, id: ExecutionId, r: ReadingId) {
    && ExecutionK(id) in rows
    && var ExecutionRow(reading, task, checks, verdict) := rows[ExecutionK(id)];
       reading == r && task == Interpretation && verdict == Delivered
       && checks.json && checks.schema && checks.clean && checks.safeQuestion && checks.answered
  }

  ghost predicate HasDelivery(rows: Rows, r: ReadingId) {
    exists id :: IsDelivery(rows, id, r)
  }

  /** A reading has a reservation exactly when it has left DRAFT; a terminal status comes after the
      reservation was settled; COMPLETED, or credits kept, means delivered work; and a reservation has a
      wallet to return to. */
  ghost predicate ReadingOk(rows: Rows, r: ReadingId) {
    && (HasLeftDraft(rows, r) <==> ReservationK(r) in rows)
    && (HasLeftDraft(rows, r) ==> rows[ReservationK(r)].user == rows[ReadingK(r)].user)
    && (ReservationK(r) in rows ==> WalletK(rows[ReservationK(r)].user) in rows)
    && (HasLeftDraft(rows, r) && rows[ReadingK(r)].status in {Completed, Failed} ==> IsSettled(rows, r))
    && (HasLeftDraft(rows, r) && rows[ReadingK(r)].status == Completed ==> HasDelivery(rows, r))
    && (ReservationK(r) in rows && rows[ReservationK(r)].hold == Consumed ==> HasDelivery(rows, r))
  }

  /** What a handler can rely on, wherever it stopped. */
  ghost predicate HandlerOk(rows: Rows, x: Handler) {
    match x
    case Request(op) => Standalone(op)
    case Submitting(op) => op.Submit?
    case Enqueueing(r) => HasLeftDraft(rows, r)
    case Job(r, phase) =>
      && HasLeftDraft(rows, r)
      && (phase == Settling(Delivered) || phase == Closing(Delivered) ==> HasDelivery(rows, r))
      && (phase.Closing? ==> IsSettled(rows, r))
    case JobFailed(r, released) => HasLeftDraft(rows, r) && (released ==> IsSettled(rows, r))
    case Retrying(_) => true
  }

  ghost predicate EngineInv(s: System) {
    && (forall r :: ReadingOk(s.db.rows, r))
    && (forall h | h in s.handlers :: HandlerOk(s.db.rows, s.handlers[h]))
    && (forall r | r in s.jobs :: HasLeftDraft(s.db.rows, r))
  }

  // ---------- Facts about a reading that last ----------

  lemma FactsLast(rows: Rows, rows': Rows, r: ReadingId)
    requires Evolves(rows, rows')
    ensures HasLeftDraft(rows, r) ==> HasLeftDraft(rows', r)
    ensures IsSettled(rows, r) ==> IsSettled(rows', r)
    ensures HasDelivery(rows, r) ==> HasDelivery(rows', r)
  {
    if ReadingK(r) in rows {
      assert Later(rows[ReadingK(r)], rows'[ReadingK(r)]);
    }
    if ReservationK(r) in rows {
      assert Later(rows[ReservationK(r)], rows'[ReservationK(r)]);
    }
    if HasDelivery(rows, r) {
      var id :| IsDelivery(rows, id, r);
      assert Later(rows[ExecutionK(id)], rows'[ExecutionK(id)]);
      assert IsDelivery(rows', id, r);
    }
  }

  lemma HandlerLasts(rows: Rows, rows': Rows, x: Handler)
    requires Evolves(rows, rows') && HandlerOk(rows, x)
    ensures HandlerOk(rows', x)
  {
    hide HasLeftDraft, IsSettled, HasDelivery;
    match x
    case Request(_) =>
    case Submitting(_) =>
    case Enqueueing(r) => FactsLast(rows, rows', r);
    case Job(r, _) => FactsLast(rows, rows', r);
    case JobFailed(r, _) => FactsLast(rows, rows', r);
    case Retrying(_) =>
  }

  lemma OtherReading(op: Op, db: Db, db': Db, r: ReadingId)
    requires Framed(op, db, db') && ReadingOk(db.rows, r)
    requires !MayWrite(op, ReadingK(r)) && !MayWrite(op, ReservationK(r))
    ensures ReadingOk(db'.rows, r)
  {
    FactsLast(db.rows, db'.rows, r);
  }

  // ---------- What each transaction of the engine does to its reading ----------

  /** What a reservation means for its reading, whose row it leaves alone. */
  lemma ReserveReads(db: Db, u: UserId, r: ReadingId, amount: int)
    requires Reserve(db, u, r, amount).Some?
    ensures var rows := Reserve(db, u, r, amount).value.rows;
            && ReservationK(r) !in db.rows && ReservationK(r) in rows
            && rows[ReservationK(r)] == ReservationRow(u, amount, Active)
            && WalletK(u) in rows && SameRow(db.rows, rows, ReadingK(r))
  {
  }

  lemma PendingReads(db: Db, u: UserId, r: ReadingId, draws: Option<seq<TarotDraw>>)
    requires ReadingK(r) in db.rows && db.rows[ReadingK(r)].user == u && WalletK(u) in db.rows
    requires ReservationK(r) in db.rows && db.rows[ReservationK(r)].user == u && db.rows[ReservationK(r)].hold == Active
    requires draws.Some? ==> InsertRow(db, DrawsK(r), DrawsRow(draws.value)).Some?
    ensures var db' := if draws.Some? then InsertRow(db, DrawsK(r), DrawsRow(draws.value)).value else db;
            && SetReading(db', r, Pending).Some?
            && ReadingOk(SetReading(db', r, Pending).value.rows, r)
            && HasLeftDraft(SetReading(db', r, Pending).value.rows, r)
  {
  }

  lemma SubmitReads(db: Db, u: UserId, r: ReadingId, cost: nat, draws: Option<seq<TarotDraw>>, free: bool)
    requires ReadingOk(db.rows, r) && SubmitReading(db, u, r, cost, draws, free).Some?
    ensures ReadingOk(SubmitReading(db, u, r, cost, draws, free).value.rows, r)
    ensures HasLeftDraft(SubmitReading(db, u, r, cost, draws, free).value.rows, r)
  {
    var db1 := if free then SpendUnlock(db, u, TarotReadingUnlock).value else db;
    assert SameRow(db.rows, db1.rows, ReadingK(r));
    hide Reserve, InsertRow, SetReading, SpendUnlock, ReadingOk, HasLeftDraft;
    ReserveReads(db1, u, r, if free then 0 else cost);
    PendingReads(Reserve(db1, u, r, if free then 0 else cost).value, u, r, draws);
  }

  lemma ConfirmReads(db: Db, r: ReadingId, balance: int)
    requires ReadingOk(db.rows, r) && HasDelivery(db.rows, r) && HasLeftDraft(db.rows, r)
             && ConfirmHold(db, r, balance).Some?
    ensures ReadingOk(ConfirmHold(db, r, balance).value.rows, r) && IsSettled(ConfirmHold(db, r, balance).value.rows, r)
  {
    var id :| IsDelivery(db.rows, id, r);
    assert IsDelivery(ConfirmHold(db, r, balance).value.rows, id, r);
  }

  lemma ReleaseReads(db: Db, r: ReadingId)
    requires ReadingOk(db.rows, r) && HasLeftDraft(db.rows, r) && ReleaseHold(db, r).Some?
    ensures ReadingOk(ReleaseHold(db, r).value.rows, r) && IsSettled(ReleaseHold(db, r).value.rows, r)
  {
    if HasDelivery(db.rows, r) {
      var id :| IsDelivery(db.rows, id, r);
      assert IsDelivery(ReleaseHold(db, r).value.rows, id, r);
    }
  }

  lemma StatusReads(db: Db, r: ReadingId, to: Submitted)
    requires ReadingOk(db.rows, r) && HasLeftDraft(db.rows, r) && (to in {Completed, Failed} ==> IsSettled(db.rows, r))
    requires to == Completed ==> HasDelivery(db.rows, r)
    ensures ReadingOk(SetReading(db, r, to).value.rows, r) && HasLeftDraft(SetReading(db, r, to).value.rows, r)
  {
    if HasDelivery(db.rows, r) {
      var id :| IsDelivery(db.rows, id, r);
      assert IsDelivery(SetReading(db, r, to).value.rows, id, r);
    }
  }

  // ---------- Every move of the system keeps the engine's laws ----------

  /** What holds after handler `x` commits `op`. */
  ghost predicate Served(rows': Rows, x: Handler, op: Op)
    requires Wants(x, op)
  {
    (forall r :: ReadingOk(rows', r)) && (After(x, op).Some? ==> HandlerOk(rows', After(x, op).value))
  }

  lemma OthersStay(op: Op, db: Db, db': Db, r: ReadingId)
    requires Framed(op, db, db') && (forall x :: ReadingOk(db.rows, x)) && ReadingOk(db'.rows, r)
    requires forall x | x != r :: !MayWrite(op, ReadingK(x)) && !MayWrite(op, ReservationK(x))
    ensures forall x :: ReadingOk(db'.rows, x)
  {
    hide ReadingOk, Framed, MayWrite;
    forall x ensures ReadingOk(db'.rows, x) {
      if x != r {
        OtherReading(op, db, db', x);
      }
    }
  }

  lemma RequestServed(db: Db, op: Op, seen: Seen)
    requires (forall r :: ReadingOk(db.rows, r)) && Standalone(op) && Effect(op, db, seen).Some?
    ensures forall r :: ReadingOk(Effect(op, db, seen).value.rows, r)
  {
    hide ReadingOk, Effect, Framed;
    var db' := Effect(op, db, seen).value;
    EffectFramed(op, db, seen);
    if op.CreateReading? {
      CreateReads(db, op.reading, op.user, seen);
      OthersStay(op, db, db', op.reading);
    } else {
      forall r ensures ReadingOk(db'.rows, r) {
        OtherReading(op, db, db', r);
      }
    }
  }

  lemma CreateReads(db: Db, r: ReadingId, u: UserId, seen: Seen)
    requires ReadingOk(db.rows, r) && Effect(CreateReading(r, u), db, seen).Some?
    ensures ReadingOk(Effect(CreateReading(r, u), db, seen).value.rows, r)
  {
  }

  lemma SubmitServed(db: Db, op: Op, seen: Seen)
    requires (forall r :: ReadingOk(db.rows, r)) && op.Submit? && Effect(op, db, seen).Some?
    ensures Served(Effect(op, db, seen).value.rows, Submitting(op), op)
  {
    hide ReadingOk, SubmitReading, Framed;
    EffectFramed(op, db, seen);
    SubmitReads(db, op.user, op.reading, op.cost, op.draws, op.adUnlockable && seen.hit);
    OthersStay(op, db, Effect(op, db, seen).value, op.reading);
  }

  lemma CallServed(db: Db, r: ReadingId, op: Op, seen: Seen)
    requires (forall x :: ReadingOk(db.rows, x)) && HandlerOk(db.rows, Job(r, Calling)) && Wants(Job(r, Calling), op)
    requires Effect(op, db, seen).Some?
    ensures Served(Effect(op, db, seen).value.rows, Job(r, Calling), op)
  {
    hide ReadingOk, Framed;
    var db' := Effect(op, db, seen).value;
    EffectFramed(op, db, seen);
    forall x ensures ReadingOk(db'.rows, x) {
      OtherReading(op, db, db', x);
    }
    FactsLast(db.rows, db'.rows, r) by {
      assert Framed(op, db, db') ==> Evolves(db.rows, db'.rows);
    }
    if Verdicts(op.checks) == Delivered {
      assert IsDelivery(db'.rows, op.execution, r);
    }
  }

  lemma SettleServed(db: Db, r: ReadingId, v: Verdict, op: Op, seen: Seen)
    requires (forall x :: ReadingOk(db.rows, x)) && HandlerOk(db.rows, Job(r, Settling(v)))
             && Wants(Job(r, Settling(v)), op)
    requires Effect(op, db, seen).Some?
    ensures Served(Effect(op, db, seen).value.rows, Job(r, Settling(v)), op)
  {
    hide ReadingOk, ConfirmHold, ReleaseHold, HasDelivery, IsSettled, HasLeftDraft;
    var db' := Effect(op, db, seen).value;
    EffectFramed(op, db, seen);
    FactsLast(db.rows, db'.rows, r);
    if v == Delivered {
      ConfirmReads(db, r, seen.balance);
    } else {
      ReleaseReads(db, r);
    }
    OthersStay(op, db, db', r);
  }

  lemma LoadServed(db: Db, r: ReadingId, seen: Seen)
    requires (forall x :: ReadingOk(db.rows, x)) && HasLeftDraft(db.rows, r) && SetReading(db, r, Processing).Some?
    ensures Served(SetReading(db, r, Processing).value.rows, Job(r, Loading), StartProcessing(r))
  {
    hide ReadingOk;
    EffectFramed(StartProcessing(r), db, seen);
    StatusReads(db, r, Processing);
    OthersStay(StartProcessing(r), db, SetReading(db, r, Processing).value, r);
  }

  lemma FinishServed(db: Db, r: ReadingId, v: Verdict, seen: Seen)
    requires (forall x :: ReadingOk(db.rows, x)) && HandlerOk(db.rows, Job(r, Closing(v)))
             && SetReading(db, r, Final(v)).Some?
    ensures Served(SetReading(db, r, Final(v)).value.rows, Job(r, Closing(v)), Finish(r, v))
  {
    hide ReadingOk, HasDelivery, IsSettled;
    EffectFramed(Finish(r, v), db, seen);
    StatusReads(db, r, Final(v));
    OthersStay(Finish(r, v), db, SetReading(db, r, Final(v)).value, r);
  }

  lemma FailServed(db: Db, r: ReadingId, seen: Seen)
    requires (forall x :: ReadingOk(db.rows, x)) && HandlerOk(db.rows, JobFailed(r, true))
    ensures Served(Effect(MarkFailed(r), db, seen).value.rows, JobFailed(r, true), MarkFailed(r))
  {
    hide ReadingOk, IsSettled;
    EffectFramed(MarkFailed(r), db, seen);
    StatusReads(db, r, Failed);
    OthersStay(MarkFailed(r), db, Effect(MarkFailed(r), db, seen).value, r);
  }

  lemma RetryServed(db: Db, r: ReadingId, seen: Seen)
    requires (forall x :: ReadingOk(db.rows, x)) && Effect(Retry(r), db, seen).Some?
    ensures Served(Effect(Retry(r), db, seen).value.rows, Retrying(r), Retry(r))
  {
    hide ReadingOk;
    EffectFramed(Retry(r), db, seen);
    StatusReads(db, r, Pending);
    OthersStay(Retry(r), db, Effect(Retry(r), db, seen).value, r);
  }

  lemma ReleaseServed(db: Db, r: ReadingId, seen: Seen)
    requires (forall x :: ReadingOk(db.rows, x)) && HandlerOk(db.rows, JobFailed(r, false)) && ReleaseHold(db, r).Some?
    ensures Served(ReleaseHold(db, r).value.rows, JobFailed(r, false), Release(r))
  {
    hide ReadingOk, ReleaseHold, HasLeftDraft;
    var db' := ReleaseHold(db, r).value;
    EffectFramed(Release(r), db, seen);
    FactsLast(db.rows, db'.rows, r);
    ReleaseReads(db, r);
    OthersStay(Release(r), db, db', r);
  }

  lemma CommitServed(db: Db, x: Handler, op: Op, seen: Seen)
    requires (forall r :: ReadingOk(db.rows, r)) && HandlerOk(db.rows, x) && Wants(x, op) && Effect(op, db, seen).Some?
    ensures Served(Effect(op, db, seen).value.rows, x, op)
  {
    hide ReadingOk, HasDelivery, IsSettled;
    match x {
      case Request(_) => RequestServed(db, op, seen);
      case Submitting(_) => SubmitServed(db, op, seen);
      case Job(r, phase) => {
        match phase {
          case Loading => LoadServed(db, r, seen);
          case Calling => CallServed(db, r, op, seen);
          case Settling(v) => SettleServed(db, r, v, op, seen);
          case Closing(v) => FinishServed(db, r, v, seen);
        }
      }
      case JobFailed(r, released) => {
        if released {
          FailServed(db, r, seen);
        } else {
          ReleaseServed(db, r, seen);
        }
      }
      case Retrying(r) => RetryServed(db, r, seen);
    }
  }

  /** Every move of the system keeps the engine's laws, wherever its handlers stop. */
  lemma EngineKeeps(s: System, m: Move, s': System)
    requires EngineInv(s) && Moves(s, m, s')
    ensures EngineInv(s')
  {
    hide ReadingOk, HandlerOk;
    match m {
      case Commit(h, op) => {
        var seen :| Effect(op, s.db, seen) == Some(s'.db);
        var x := s.handlers[h];
        CommitServed(s.db, x, op, seen);
        EffectFramed(op, s.db, seen);
        forall g | g in s'.handlers ensures HandlerOk(s'.db.rows, s'.handlers[g]) {
          if g != h {
            HandlerLasts(s.db.rows, s'.db.rows, s.handlers[g]);
          }
        }
        forall r | r in s'.jobs ensures HasLeftDraft(s'.db.rows, r) {
          FactsLast(s.db.rows, s'.db.rows, r);
        }
      }
      case Arrive(h, x) => Arrives(s, x);
      case Enqueue(h) => assert HasLeftDraft(s.db.rows, s.handlers[h].reading) by {
          Enqueues(s.db.rows, s.handlers[h]);
        }
      case Halt(_) =>
    }
  }

  lemma Arrives(s: System, x: Handler)
    requires EngineInv(s) && CanStart(s, x)
    ensures HandlerOk(s.db.rows, x)
  {
  }

  lemma Enqueues(rows: Rows, x: Handler)
    requires HandlerOk(rows, x) && x.Enqueueing?
    ensures HasLeftDraft(rows, x.reading)
  {
  }
}
