/** `ReadingsService.submit` and `performRetry`, the reading processors and the queue consumer. */
module ReadingsService {
  import opened Database
  import opened Statements
  import opened Atomic
  import opened Tables
  import opened Handlers
  import opened RewardsService
  import PalmImages
  import Outcomes
  import opened WalletService

  const AD_UNLOCKABLE_SERVICE := "TAROT_THREE"

  datatype Answer = Accepted | AlreadyAccepted | Refused

  predicate PaidByAds(db: Db, u: UserId, code: string) {
    code == AD_UNLOCKABLE_SERVICE && HasUnlock(db, u, TarotReadingUnlock)
  }

  function Price(db: Db, u: UserId, code: string, cost: nat): nat {
    if PaidByAds(db, u, code) then 0 else cost
  }

  /** What a submit does to the tables once its reads have passed. */
  function SubmitEffect(db: Db, u: UserId, r: ReadingId, code: string, cost: nat, draws: seq<TarotDraw>): Option<Db> {
    SubmitReading(db, u, r, cost, if PalmImages.IsPalm(code) then None else Some(draws), PaidByAds(db, u, code))
  }

  predicate IsDraftOf(db: Db, u: UserId, r: ReadingId) {
    ReadingK(r) in db.rows && db.rows[ReadingK(r)] == ReadingRow(u, Draft)
  }

  /** What a submit asks and does. A full ad counter pays for the three-card service, credits for any
      other and for an empty one; a palm reading has no cards. */
  ghost predicate IsSubmit(db: Db, u: UserId, r: ReadingId, code: string, cost: nat, ready: bool, draws: seq<TarotDraw>,
                           accepted: bool, db': Db)
  {
    var counter := ProgressK(u, TarotReadingUnlock);
    var free := code == "TAROT_THREE" && counter in db.rows && db.rows[counter].count >= 5;
    var cards := if code == "PALM_BASIC" || code == "PALM_COMPLETE" then None else Some(draws);
    && (accepted <==> ready && Outcomes.Has(db, ReadingK(r), ReadingRow(u, Draft))
                      && Outcomes.CanSubmit(db, u, r, cost, cards, free))
    && (if accepted then Outcomes.Submits(db, u, r, cost, cards, free, db') else db' == db)
  }

  lemma SubmitSays(db: Db, u: UserId, r: ReadingId, code: string, cost: nat, ready: bool, draws: seq<TarotDraw>)
    ensures var effect := if IsDraftOf(db, u, r) && ready then SubmitEffect(db, u, r, code, cost, draws) else None;
            IsSubmit(db, u, r, code, cost, ready, draws, effect.Some?, if effect.Some? then effect.value else db)
  {
    hide SubmitReading, Outcomes.Submits, Outcomes.CanSubmit;
    var cards := if PalmImages.IsPalm(code) then None else Some(draws);
    Outcomes.SubmitReadingSays(db, u, r, cost, cards, PaidByAds(db, u, code));
  }

  class ReadingsService {
    const prisma: Store
    const wallet: WalletService
    const rewards: RewardsService
    var queue: set<ReadingId>

    constructor (wallet: WalletService, rewards: RewardsService)
      ensures prisma == wallet.prisma && this.wallet == wallet && this.rewards == rewards && queue == {}
    {
      prisma, this.wallet, this.rewards, queue := wallet.prisma, wallet, rewards, {};
    }

    /** `ready` is the outcome of the reads on other tables: the validated palm images, or the
        answered form and the spread; `draws` is what the draw engine produced. */
    method Submit(u: UserId, r: ReadingId, code: string, cost: nat, ready: bool, draws: seq<TarotDraw>)
      returns (answer: Answer)
      requires wallet.prisma == prisma && rewards.prisma == prisma
      modifies prisma, this`queue
      ensures var db := old(prisma.Now());
              var effect := if IsDraftOf(db, u, r) && ready then SubmitEffect(db, u, r, code, cost, draws) else None;
              && Atomically(db, effect, answer == Accepted, prisma.Now())
              && queue == old(queue) + (if answer == Accepted then {r} else {})
              && (answer == AlreadyAccepted <==>
                    (IsDraftOf(db, u, r) && ready && WalletK(u) in db.rows
                     && Balance(db, u) >= Price(db, u, code, cost) && ReservationK(r) in db.rows))
      ensures IsSubmit(old(prisma.Now()), u, r, code, cost, ready, draws, answer == Accepted, prisma.Now())
    {
      hide SubmitEffect, IsSubmit, Price, Balance;
      SubmitSays(prisma.Now(), u, r, code, cost, ready, draws);
      if ReadingK(r) !in prisma.rows || prisma.rows[ReadingK(r)] != ReadingRow(u, Draft) || !ready {
        return Refused;
      }
      answer := SubmitDraft(u, r, code, cost, draws);
      if answer == Accepted {
        queue := queue + {r};
      }
    }

    /** The transaction of a submit. */
    method SubmitDraft(u: UserId, r: ReadingId, code: string, cost: nat, draws: seq<TarotDraw>) returns (answer: Answer)
      requires wallet.prisma == prisma && rewards.prisma == prisma && IsDraftOf(prisma.Now(), u, r)
      modifies prisma
      ensures var db := old(prisma.Now());
              && Atomically(db, SubmitEffect(db, u, r, code, cost, draws), answer == Accepted, prisma.Now())
              && (answer == AlreadyAccepted <==>
                    (WalletK(u) in db.rows && Balance(db, u) >= Price(db, u, code, cost) && ReservationK(r) in db.rows))
    {
      hide Reserve, Outcomes.Reserves, Outcomes.Only, Outcomes.Spends, Outcomes.IsUnlocked;
      var before := prisma.Now();
      var creditCost := cost;
      if code == AD_UNLOCKABLE_SERVICE {
        var unlocked := rewards.TryConsumeUnlock(u, TarotReadingUnlock);
        if unlocked {
          creditCost := 0;
        }
      }
      ghost var unpaid := prisma.Now();
      var charge := wallet.ReserveCreditsForReading(u, r, creditCost);
      if charge != Charged {
        prisma.Rollback(before);
        return if charge == AlreadySubmitted then AlreadyAccepted else Refused;
      }
      ReserveTouches(unpaid, u, r, creditCost);
      assert SameRow(unpaid.rows, prisma.rows, ReadingK(r));
      if !PalmImages.IsPalm(code) {
        var inserted := prisma.Insert(DrawsK(r), DrawsRow(draws));
        if !inserted {
          prisma.Rollback(before);
          return Refused;
        }
      }
      prisma.rows := prisma.rows[ReadingK(r) := prisma.rows[ReadingK(r)].(status := Pending)];
      return Accepted;
    }

    /** A retry touches neither the wallet nor the reservation. */
    method PerformRetry(r: ReadingId) returns (ok: bool)
      modifies prisma`rows, this`queue
      ensures ok <==> ReadingK(r) in old(prisma.rows) && old(prisma.rows)[ReadingK(r)].status == Failed
      ensures prisma.Now() == if ok then SetReading(old(prisma.Now()), r, Pending).value else old(prisma.Now())
      ensures queue == old(queue) + if ok then {r} else {}
      ensures if ok then Outcomes.Marks(old(prisma.Now()), r, Pending, prisma.Now())
              else prisma.Now() == old(prisma.Now())
    {
      if ReadingK(r) !in prisma.rows || prisma.rows[ReadingK(r)].status != Failed {
        return false;
      }
      prisma.rows := prisma.rows[ReadingK(r) := prisma.rows[ReadingK(r)].(status := Pending)];
      queue := queue + {r};
      return true;
    }
  }

  // ---------- The job of a reading ----------

  /** The transaction a job or its failure callback sends next; `id` and `checks` are what the AI
      call of this run will store. */
  function NextOp(x: Handler, id: ExecutionId, checks: Checks): Op
    requires x.Job? || x.JobFailed?
    ensures Wants(x, NextOp(x, id, checks))
  {
    match x
    case Job(r, phase) => (
      match phase
      case Loading => StartProcessing(r)
      case Calling => RecordExecution(id, r, Interpretation, checks)
      case Settling(v) => if v == Delivered then Confirm(r) else Release(r)
      case Closing(v) => Finish(r, v))
    case JobFailed(r, released) => if released then MarkFailed(r) else Release(r)
  }

  /** The holder's balance, as a run that nothing interleaves with reads it. */
  function Undisturbed(db: Db, x: Handler): Seen
    requires x.Job? || x.JobFailed?
  {
    var r := x.reading;
    Seen(if ReservationK(r) in db.rows then Balance(db, db.rows[ReservationK(r)].user) else 0, true)
  }

  /** The tables, and where the run stands, after at most `steps` transactions. `None` is the end:
      the run returned, or an exception reached the queue. */
  function RunJob(db: Db, x: Handler, steps: nat, id: ExecutionId, checks: Checks): (Db, Option<Handler>)
    requires x.Job? || x.JobFailed?
    decreases steps
  {
    if steps == 0 then (db, Some(x))
    else
      var op := NextOp(x, id, checks);
      var effect := Effect(op, db, Undisturbed(db, x));
      if effect.None? then (db, None)
      else
        var next := After(x, op);
        if next.None? then (effect.value, None) else RunJob(effect.value, next.value, steps - 1, id, checks)
  }

  class ReadingProcessor {
    const prisma: Store
    const wallet: WalletService

    constructor (wallet: WalletService)
      ensures prisma == wallet.prisma && this.wallet == wallet
    {
      prisma, this.wallet := wallet.prisma, wallet;
    }

    /** `processReading`, stopped after `steps` transactions; the tarot and the palm processor differ
        only in what they send to the AI, whose answer is `checks`. */
    method ProcessReading(r: ReadingId, steps: nat, id: ExecutionId, checks: Checks) returns (rest: Option<Handler>)
      requires wallet.prisma == prisma
      modifies prisma
      ensures var db := old(prisma.Now());
              if ReadingK(r) !in db.rows || db.rows[ReadingK(r)].status == Completed
              then prisma.Now() == db && rest == None
              else (prisma.Now(), rest) == RunJob(db, Job(r, Loading), steps, id, checks)
    {
      if ReadingK(r) !in prisma.rows || prisma.rows[ReadingK(r)].status == Completed {
        return None;
      }
      if steps == 0 {
        return Some(Job(r, Loading));
      }
      prisma.rows := prisma.rows[ReadingK(r) := prisma.rows[ReadingK(r)].(status := Processing)];
      if steps == 1 {
        return Some(Job(r, Calling));
      }
      var verdict := Verdicts(checks);
      var stored := prisma.Insert(ExecutionK(id), ExecutionRow(r, Interpretation, checks, verdict));
      if !stored {
        return None;
      }
      if steps == 2 {
        return Some(Job(r, Settling(verdict)));
      }
      rest := FinishReading(r, steps, id, checks, verdict);
    }

    /** From the AI's answer on: settle the credits first, then write the status. */
    method FinishReading(r: ReadingId, steps: nat, id: ExecutionId, checks: Checks, verdict: Verdict)
      returns (rest: Option<Handler>)
      requires wallet.prisma == prisma && steps > 2 && ReadingK(r) in prisma.rows
      modifies prisma
      ensures (prisma.Now(), rest) == RunJob(old(prisma.Now()), Job(r, Settling(verdict)), steps - 2, id, checks)
    {
      var settled;
      if verdict == Delivered {
        settled := wallet.ConfirmConsumption(r);
      } else {
        settled := wallet.ReleaseReservation(r);
      }
      if !settled {
        return None;
      }
      if steps == 3 {
        return Some(Job(r, Closing(verdict)));
      }
      prisma.rows := prisma.rows[ReadingK(r) := prisma.rows[ReadingK(r)].(status := Final(verdict))];
      return None;
    }

    /** `ReadingProcessingConsumer.onFailed`: nothing before the last attempt; then release, then FAILED. */
    method OnFailed(r: ReadingId, attemptsMade: nat, maxAttempts: nat, steps: nat, id: ExecutionId, checks: Checks)
      returns (rest: Option<Handler>)
      requires wallet.prisma == prisma
      modifies prisma
      ensures attemptsMade < maxAttempts ==> prisma.Now() == old(prisma.Now()) && rest == None
      ensures attemptsMade >= maxAttempts ==>
                (prisma.Now(), rest) == RunJob(old(prisma.Now()), JobFailed(r, false), steps, id, checks)
    {
      if attemptsMade < maxAttempts {
        return None;
      }
      if steps == 0 {
        return Some(JobFailed(r, false));
      }
      var released := wallet.ReleaseReservation(r);
      if !released {
        return None;
      }
      if steps == 1 {
        return Some(JobFailed(r, true));
      }
      if ReadingK(r) in prisma.rows && prisma.rows[ReadingK(r)].status != Completed {
        prisma.rows := prisma.rows[ReadingK(r) := prisma.rows[ReadingK(r)].(status := Failed)];
      }
      return None;
    }
  }

  /** A run stopped anywhere is a path of the system's moves: what holds in every reachable state
      holds after any prefix of the code above. */
  lemma {:induction false} RunsAreMoves(s: System, h: HandlerId, steps: nat, id: ExecutionId, checks: Checks)
    returns (path: seq<System>)
    requires h in s.handlers && (s.handlers[h].Job? || s.handlers[h].JobFailed?)
    ensures |path| > 0 && path[0] == s && forall i | 0 <= i < |path| - 1 :: Next(path[i], path[i + 1])
    ensures var (db, rest) := RunJob(s.db, s.handlers[h], steps, id, checks);
            path[|path| - 1] == System(db, Resume(s.handlers, h, rest), s.jobs)
    decreases steps
  {
    var x := s.handlers[h];
    if steps == 0 {
      assert Resume(s.handlers, h, Some(x)) == s.handlers;
      return [s];
    }
    var op := NextOp(x, id, checks);
    var effect := Effect(op, s.db, Undisturbed(s.db, x));
    if effect.None? {
      var stopped := s.(handlers := s.handlers - {h});
      assert Moves(s, Halt(h), stopped);
      return [s, stopped];
    }
    var next := System(effect.value, Resume(s.handlers, h, After(x, op)), s.jobs);
    assert Committed(op, s.db, effect.value);
    assert Moves(s, Commit(h, op), next);
    if After(x, op).None? {
      return [s, next];
    }
    var tail := RunsAreMoves(next, h, steps - 1, id, checks);
    var rest := RunJob(next.db, next.handlers[h], steps - 1, id, checks).1;
    assert Resume(next.handlers, h, rest) == Resume(s.handlers, h, rest);
    return [s] + tail;
  }
}
