/** When a FAILED reading has had its credits back, and when it has not. */
module FailedReadings {
  import opened Database
  import opened Statements
  import opened Atomic
  import opened Handlers
  import opened ReadingsService
  import Replay

  predicate IsFailed(rows: Rows, r: ReadingId) {
    ReadingK(r) in rows && rows[ReadingK(r)].status == Failed
  }

  predicate IsReturned(rows: Rows, r: ReadingId) {
    ReservationK(r) in rows && rows[ReservationK(r)].hold == Released
  }

  predicate IsKept(rows: Rows, r: ReadingId) {
    ReservationK(r) in rows && rows[ReservationK(r)].hold == Consumed
  }

  /** A submitted reading whose settling entries have not been written while its credits are held. */
  predicate IsSettleable(db: Db, r: ReadingId) {
    && ReadingK(r) in db.rows && ReservationK(r) in db.rows && WalletK(db.rows[ReservationK(r)].user) in db.rows
    && (IsHeld(db, r) ==> EntryK(ConsumptionKey(r)) !in db.rows && EntryK(ReleaseKey(r)) !in db.rows)
  }

  // ---------- One settlement ----------

  /** The first settlement of a reservation decides for ever, whatever commits after it: a later one,
      of either kind, changes nothing. */
  lemma SettlementIsFinal(db: Db, r: ReadingId, verdict: Verdict, seen: Seen, later: Rows)
    requires ReservationK(r) in db.rows
    requires var settled := Effect(if verdict == Delivered then Confirm(r) else Release(r), db, seen);
             settled.Some? && Evolves(settled.value.rows, later)
    ensures ReservationK(r) in later
    ensures IsReturned(later, r) <==>
            if IsHeld(db, r) then verdict == Rejected else db.rows[ReservationK(r)].hold == Released
  {
    var rows := Effect(if verdict == Delivered then Confirm(r) else Release(r), db, seen).value.rows;
    assert Later(rows[ReservationK(r)], later[ReservationK(r)]);
  }

  lemma Releases(db: Db, r: ReadingId) returns (settled: Db)
    requires IsSettleable(db, r)
    ensures ReleaseHold(db, r) == Some(settled)
    ensures IsSettleable(settled, r) && settled.rows[ReadingK(r)] == db.rows[ReadingK(r)]
    ensures settled.rows[ReservationK(r)].hold ==
            if db.rows[ReservationK(r)].hold == Active then Released else db.rows[ReservationK(r)].hold
  {
    settled := ReleaseHold(db, r).value;
  }

  lemma Confirms(db: Db, r: ReadingId, balance: int) returns (settled: Db)
    requires IsSettleable(db, r)
    ensures ConfirmHold(db, r, balance) == Some(settled)
    ensures IsSettleable(settled, r) && settled.rows[ReadingK(r)] == db.rows[ReadingK(r)]
    ensures settled.rows[ReservationK(r)].hold ==
            if db.rows[ReservationK(r)].hold == Active then Consumed else db.rows[ReservationK(r)].hold
  {
    settled := ConfirmHold(db, r, balance).value;
  }

  lemma Sets(db: Db, r: ReadingId, to: Submitted)
    requires IsSettleable(db, r)
    ensures SetReading(db, r, to).Some?
    ensures var db' := SetReading(db, r, to).value;
            IsSettleable(db', r) && db'.rows[ReservationK(r)] == db.rows[ReservationK(r)]
            && db'.rows[ReadingK(r)].status == to
  {
  }

  // ---------- One run ----------

  /** One more transaction of a run that is not its last. */
  lemma RunsOn(db: Db, x: Handler, steps: nat, id: ExecutionId, checks: Checks, db': Db, next: Handler)
    requires (x.Job? || x.JobFailed?) && steps > 0
    requires Effect(NextOp(x, id, checks), db, Undisturbed(db, x)) == Some(db')
    requires After(x, NextOp(x, id, checks)) == Some(next)
    ensures RunJob(db, x, steps, id, checks) == RunJob(db', next, steps - 1, id, checks)
  {
    hide Effect;
  }

  lemma RunsLast(db: Db, x: Handler, steps: nat, id: ExecutionId, checks: Checks, db': Db)
    requires (x.Job? || x.JobFailed?) && steps > 0
    requires Effect(NextOp(x, id, checks), db, Undisturbed(db, x)) == Some(db')
    requires After(x, NextOp(x, id, checks)) == None
    ensures RunJob(db, x, steps, id, checks) == (db', None)
  {
    hide Effect;
  }

  lemma RunsOut(db: Db, x: Handler, id: ExecutionId, checks: Checks)
    requires x.Job? || x.JobFailed?
    ensures RunJob(db, x, 0, id, checks) == (db, Some(x))
  {
  }

  /** The failure callback of a reading that is not COMPLETED ends FAILED, and returns the credits
      exactly when they were not consumed before. */
  lemma CallbackReturnsIff(db: Db, r: ReadingId, id: ExecutionId, checks: Checks)
    requires IsSettleable(db, r) && db.rows[ReadingK(r)].status != Completed
    ensures var rows := RunJob(db, JobFailed(r, false), 2, id, checks).0.rows;
            && IsFailed(rows, r)
            && (IsReturned(rows, r) <==> db.rows[ReservationK(r)].hold != Consumed)
            && (IsKept(rows, r) <==> db.rows[ReservationK(r)].hold == Consumed)
  {
    hide RunJob, ReleaseHold, SetReading, IsSettleable;
    var settled := Releases(db, r);
    Sets(settled, r, Failed);
    RunsOn(db, JobFailed(r, false), 2, id, checks, settled, JobFailed(r, true));
    SettleableExists(settled, r);
    RunsLast(settled, JobFailed(r, true), 1, id, checks, SetReading(settled, r, Failed).value);
    SettleableExists(SetReading(settled, r, Failed).value, r);
  }

  lemma SettleableExists(db: Db, r: ReadingId)
    requires IsSettleable(db, r)
    ensures ReadingK(r) in db.rows && ReservationK(r) in db.rows
  {
  }

  /** And on a COMPLETED reading it writes no status. */
  lemma CallbackKeepsCompleted(db: Db, r: ReadingId, id: ExecutionId, checks: Checks)
    requires IsSettleable(db, r) && db.rows[ReadingK(r)].status == Completed
    ensures var rows := RunJob(db, JobFailed(r, false), 2, id, checks).0.rows;
            ReadingK(r) in rows && rows[ReadingK(r)].status == Completed
  {
    hide RunJob, ReleaseHold, SetReading, IsSettleable;
    var settled := Releases(db, r);
    RunsOn(db, JobFailed(r, false), 2, id, checks, settled, JobFailed(r, true));
    SettleableExists(settled, r);
    RunsLast(settled, JobFailed(r, true), 1, id, checks, settled);
  }

  /** From its answer on, a job ends COMPLETED or FAILED as the answer says. A rejected one returns the
      credits exactly when they were not consumed before. */
  lemma AnsweredJobReturnsIff(db: Db, r: ReadingId, steps: nat, id: ExecutionId, checks: Checks, verdict: Verdict)
    requires IsSettleable(db, r) && steps >= 2
    ensures var after := RunJob(db, Job(r, Settling(verdict)), steps, id, checks).0;
            && IsSettleable(after, r)
            && after.rows[ReadingK(r)].status == (if verdict == Delivered then Completed else Failed)
            && (IsFailed(after.rows, r) <==> verdict == Rejected)
            && (verdict == Rejected ==> (IsReturned(after.rows, r) <==> db.rows[ReservationK(r)].hold != Consumed))
            && (verdict == Delivered ==> (IsReturned(after.rows, r) <==> db.rows[ReservationK(r)].hold == Released))
  {
    hide RunJob, ReleaseHold, ConfirmHold, SetReading, IsSettleable;
    SettleableExists(db, r);
    var settled := Settles(db, r, verdict, id, checks, steps);
    Sets(settled, r, Final(verdict));
    RunsLast(settled, Job(r, Closing(verdict)), steps - 1, id, checks, SetReading(settled, r, Final(verdict)).value);
    SettleableExists(SetReading(settled, r, Final(verdict)).value, r);
  }

  /** The settling transaction of a job. */
  lemma Settles(db: Db, r: ReadingId, verdict: Verdict, id: ExecutionId, checks: Checks, steps: nat)
    returns (settled: Db)
    requires IsSettleable(db, r) && steps > 0
    ensures RunJob(db, Job(r, Settling(verdict)), steps, id, checks)
         == RunJob(settled, Job(r, Closing(verdict)), steps - 1, id, checks)
    ensures IsSettleable(settled, r) && settled.rows[ReadingK(r)] == db.rows[ReadingK(r)]
    ensures var hold := db.rows[ReservationK(r)].hold;
            settled.rows[ReservationK(r)].hold ==
            if hold != Active then hold else if verdict == Delivered then Consumed else Released
  {
    hide RunJob, ReleaseHold, ConfirmHold, IsSettleable;
    SettleableExists(db, r);
    if verdict == Delivered {
      settled := Confirms(db, r, Undisturbed(db, Job(r, Settling(verdict))).balance);
    } else {
      settled := Releases(db, r);
    }
    SettleableExists(settled, r);
    RunsOn(db, Job(r, Settling(verdict)), steps, id, checks, settled, Job(r, Closing(verdict)));
  }

  /** The transactions of a job up to its stored answer. */
  lemma Answers(db: Db, r: ReadingId, steps: nat, id: ExecutionId, checks: Checks) returns (stored: Db)
    requires IsSettleable(db, r) && ExecutionK(id) !in db.rows && steps >= 2
    ensures RunJob(db, Job(r, Loading), steps, id, checks)
         == RunJob(stored, Job(r, Settling(Verdicts(checks))), steps - 2, id, checks)
    ensures IsSettleable(stored, r) && stored.rows[ReadingK(r)].status == Processing
    ensures stored.rows[ReservationK(r)] == db.rows[ReservationK(r)]
    ensures ExecutionK(id) in stored.rows
            && stored.rows[ExecutionK(id)] == ExecutionRow(r, Interpretation, checks, Verdicts(checks))
  {
    hide RunJob, SetReading, IsSettleable, Verdicts;
    var loaded := Loads(db, r, steps, id, checks);
    stored := Put(loaded, ExecutionK(id), ExecutionRow(r, Interpretation, checks, Verdicts(checks)));
    Stored(loaded, r, id, checks);
    RunsOn(loaded, Job(r, Calling), steps - 1, id, checks, stored, Job(r, Settling(Verdicts(checks))));
  }

  lemma Stored(db: Db, r: ReadingId, id: ExecutionId, checks: Checks)
    requires IsSettleable(db, r)
    ensures var stored := Put(db, ExecutionK(id), ExecutionRow(r, Interpretation, checks, Verdicts(checks)));
            && IsSettleable(stored, r) && stored.rows[ReservationK(r)] == db.rows[ReservationK(r)]
            && stored.rows[ReadingK(r)] == db.rows[ReadingK(r)]
  {
  }

  /** Its first transaction. */
  lemma Loads(db: Db, r: ReadingId, steps: nat, id: ExecutionId, checks: Checks) returns (loaded: Db)
    requires IsSettleable(db, r) && steps >= 1
    ensures RunJob(db, Job(r, Loading), steps, id, checks) == RunJob(loaded, Job(r, Calling), steps - 1, id, checks)
    ensures IsSettleable(loaded, r) && loaded.rows[ReadingK(r)].status == Processing
    ensures loaded.rows[ReservationK(r)] == db.rows[ReservationK(r)]
    ensures ExecutionK(id) in loaded.rows <==> ExecutionK(id) in db.rows
  {
    hide RunJob, IsSettleable;
    Sets(db, r, Processing);
    SettleableExists(db, r);
    loaded := SetReading(db, r, Processing).value;
    RunsOn(db, Job(r, Loading), steps, id, checks, loaded, Job(r, Calling));
  }

  lemma {:induction false} RunJobEvolves(db: Db, x: Handler, steps: nat, id: ExecutionId, checks: Checks)
    requires x.Job? || x.JobFailed?
    ensures Evolves(db.rows, RunJob(db, x, steps, id, checks).0.rows)
    decreases steps
  {
    hide Effect, Evolves;
    Replay.EvolvesReflexive(db.rows);
    if steps > 0 {
      var op := NextOp(x, id, checks);
      var effect := Effect(op, db, Undisturbed(db, x));
      if effect.Some? {
        EffectFramed(op, db, Undisturbed(db, x));
        var next := After(x, op);
        if next.Some? {
          RunJobEvolves(effect.value, next.value, steps - 1, id, checks);
          var rows := RunJob(effect.value, next.value, steps - 1, id, checks).0.rows;
          Replay.EvolvesTransitive(db.rows, effect.value.rows, rows);
        }
      }
    }
  }

  /** A stored answer survives the rest of the job, and its callback. */
  lemma AnswerStays(db: Db, x: Handler, steps: nat, r: ReadingId, id: ExecutionId, checks: Checks)
    requires (x.Job? || x.JobFailed?) && ExecutionK(id) in db.rows
    ensures var rows := RunJob(RunJob(db, x, steps, id, checks).0, JobFailed(r, false), 2, id, checks).0.rows;
            ExecutionK(id) in rows && rows[ExecutionK(id)] == db.rows[ExecutionK(id)]
  {
    hide RunJob;
    var stopped := RunJob(db, x, steps, id, checks).0;
    RunJobEvolves(db, x, steps, id, checks);
    RunJobEvolves(stopped, JobFailed(r, false), 2, id, checks);
    var rows := RunJob(stopped, JobFailed(r, false), 2, id, checks).0.rows;
    assert Later(db.rows[ExecutionK(id)], stopped.rows[ExecutionK(id)]);
    assert Later(stopped.rows[ExecutionK(id)], rows[ExecutionK(id)]);
  }

  /** A job on a held reading that stops after any number of transactions, followed by its failure
      callback: COMPLETED once a delivered answer was carried through; FAILED with the credits kept
      exactly when it stopped between confirming the consumption and writing COMPLETED; FAILED with the
      credits returned in every other case. */
  lemma StoppedJobReturnsIff(db: Db, r: ReadingId, steps: nat, id: ExecutionId, checks: Checks)
    requires IsSettleable(db, r) && IsHeld(db, r) && db.rows[ReadingK(r)].status != Completed
    requires ExecutionK(id) !in db.rows
    ensures var stopped := RunJob(db, Job(r, Loading), steps, id, checks).0;
            var rows := RunJob(stopped, JobFailed(r, false), 2, id, checks).0.rows;
            && (IsFailed(rows, r) <==> !(steps >= 4 && Verdicts(checks) == Delivered))
            && (IsFailed(rows, r) && IsKept(rows, r) <==> steps == 3 && Verdicts(checks) == Delivered)
            && (IsFailed(rows, r) && !IsKept(rows, r) ==> IsReturned(rows, r))
            && (steps >= 2 ==> ExecutionK(id) in rows
                               && rows[ExecutionK(id)] == ExecutionRow(r, Interpretation, checks, Verdicts(checks)))
  {
    hide RunJob, IsSettleable, Verdicts;
    var stopped := RunJob(db, Job(r, Loading), steps, id, checks).0;
    SettleableExists(db, r);
    if steps == 0 {
      RunsOut(db, Job(r, Loading), id, checks);
    } else if steps == 1 {
      var loaded := Loads(db, r, steps, id, checks);
      RunsOut(loaded, Job(r, Calling), id, checks);
    } else {
      var stored := Answers(db, r, steps, id, checks);
      var verdict := Verdicts(checks);
      AnswerStays(stored, Job(r, Settling(verdict)), steps - 2, r, id, checks);
      if steps == 2 {
        RunsOut(stored, Job(r, Settling(verdict)), id, checks);
      } else if steps == 3 {
        var settled := Settles(stored, r, verdict, id, checks, 1);
        RunsOut(settled, Job(r, Closing(verdict)), id, checks);
      } else {
        AnsweredJobReturnsIff(stored, r, steps - 2, id, checks, verdict);
      }
    }
    SettleableExists(stopped, r);
    if stopped.rows[ReadingK(r)].status == Completed {
      CallbackKeepsCompleted(stopped, r, id, checks);
    } else {
      CallbackReturnsIff(stopped, r, id, checks);
    }
  }

  /** The failing input: a job that stops after confirming the consumption, and is then reported as
      failed for good. */
  lemma FailedCanBeConsumed(db: Db, r: ReadingId, id: ExecutionId, checks: Checks)
    requires IsSettleable(db, r) && IsHeld(db, r) && db.rows[ReadingK(r)].status != Completed
    requires ExecutionK(id) !in db.rows
    requires Verdicts(checks) == Delivered
    ensures var stopped := RunJob(db, Job(r, Loading), 3, id, checks).0;
            var rows := RunJob(stopped, JobFailed(r, false), 2, id, checks).0.rows;
            && IsFailed(rows, r) && IsKept(rows, r)
            && ExecutionK(id) in rows && rows[ExecutionK(id)] == ExecutionRow(r, Interpretation, checks, Delivered)
  {
    hide RunJob;
    StoppedJobReturnsIff(db, r, 3, id, checks);
  }

  // ---------- Two jobs for one reading ----------

  /** Two jobs overlap and neither stops: the one whose answer was delivered confirms, the one whose
      answer was rejected finds nothing to release, and writes FAILED last. */
  lemma OverlapKeepsCredits(s: System, h: HandlerId, g: HandlerId, r: ReadingId) returns (path: seq<System>)
    requires IsSettleable(s.db, r) && IsHeld(s.db, r) && h != g && h in s.handlers && g in s.handlers
    requires s.handlers[h] == Job(r, Settling(Delivered)) && s.handlers[g] == Job(r, Settling(Rejected))
    ensures |path| == 5 && path[0] == s && forall i | 0 <= i < 4 :: Next(path[i], path[i + 1])
    ensures path[4].handlers == s.handlers - {h} - {g}
    ensures IsFailed(path[4].db.rows, r) && IsKept(path[4].db.rows, r)
  {
    hide IsSettleable, ReleaseHold, ConfirmHold, SetReading, Next;
    var db1 := Confirms(s.db, r, 0);
    var db2 := Releases(db1, r);
    Sets(db2, r, Completed);
    var db3 := SetReading(db2, r, Completed).value;
    Sets(db3, r, Failed);
    var db4 := SetReading(db3, r, Failed).value;
    SettleableExists(s.db, r);
    SettleableExists(db1, r);
    SettleableExists(db2, r);
    SettleableExists(db4, r);
    var s1 := SettleCommits(s, h, r, Delivered, db1);
    var s2 := SettleCommits(s1, g, r, Rejected, db2);
    var s3 := CloseCommits(s2, h, r, Delivered, db3);
    var s4 := CloseCommits(s3, g, r, Rejected, db4);
    assert s4.handlers == s.handlers - {h} - {g};
    path := [s, s1, s2, s3, s4];
  }

  /** A job commits its settlement. */
  lemma SettleCommits(s: System, h: HandlerId, r: ReadingId, verdict: Verdict, db: Db) returns (s': System)
    requires h in s.handlers && s.handlers[h] == Job(r, Settling(verdict))
    requires Some(db) == if verdict == Delivered then ConfirmHold(s.db, r, 0) else ReleaseHold(s.db, r)
    ensures Next(s, s') && s' == System(db, s.handlers[h := Job(r, Closing(verdict))], s.jobs)
  {
    hide ConfirmHold, ReleaseHold;
    s' := System(db, s.handlers[h := Job(r, Closing(verdict))], s.jobs);
    var op := if verdict == Delivered then Confirm(r) else Release(r);
    assert Effect(op, s.db, Seen(0, false)) == Some(db);
    assert Moves(s, Commit(h, op), s');
  }

  /** A job commits its status, and ends. */
  lemma CloseCommits(s: System, h: HandlerId, r: ReadingId, verdict: Verdict, db: Db) returns (s': System)
    requires h in s.handlers && s.handlers[h] == Job(r, Closing(verdict))
    requires SetReading(s.db, r, Final(verdict)) == Some(db)
    ensures Next(s, s') && s' == System(db, s.handlers - {h}, s.jobs)
  {
    hide SetReading;
    s' := System(db, s.handlers - {h}, s.jobs);
    assert Effect(Finish(r, verdict), s.db, Seen(0, false)) == Some(db);
    assert Moves(s, Commit(h, Finish(r, verdict)), s');
  }
}
