/** `RewardsService`: rewarded ad sessions, their counters, and the unlocks they pay for. */
module RewardsService {
  import opened Database
  import opened Statements
  import opened Atomic
  import opened Tables
  import Outcomes

  const FLASH_OFFER_DAILY_LIMIT: nat := 1

  datatype Callback = Granted | SessionNotFound | AlreadyCompleted | NotReusable | TooLate

  /** The answer to a completion callback, from the session it names. `late` says that the session's
      expiry has passed, `clash` that a unique index refused the reward or the offer. */
  function Outcome(db: Db, s: SessionId, late: bool, clash: bool): Callback {
    if SessionK(s) !in db.rows then SessionNotFound
    else if db.rows[SessionK(s)].progress == Rewarded then AlreadyCompleted
    else if !IsOpen(db, s) then NotReusable
    else if late then TooLate
    else if clash then AlreadyCompleted
    else Granted
  }

  /** The counter after one more ad, and the flash offer when it closes a cycle of ads. */
  function Bumped(db: Db, u: UserId, kind: RewardType, f: OfferId): Option<Db> {
    var ProgressRow(count, taken) := Progress(db.rows, u, kind);
    if kind == FlashOfferUnlock && count + 1 >= AdsRequired(FlashOfferUnlock) then
      InsertRow(Put(db, ProgressK(u, kind), ProgressRow(0, taken)), OfferK(f),
                OfferRow(u, FLASH_OFFER_PACKAGE, FLASH_OFFER_PERCENT, false))
    else Some(Put(db, ProgressK(u, kind), ProgressRow(count + 1, taken)))
  }

  lemma RewardIsBump(db: Db, s: SessionId, f: OfferId)
    requires IsOpen(db, s)
    ensures var SessionRow(u, kind, _) := db.rows[SessionK(s)];
            var inserted := InsertRow(Put(db, SessionK(s), SessionRow(u, kind, Rewarded)), RewardK(s),
                                      RewardRow(u, kind));
            RewardSession(db, s, f) == if inserted.None? then None else Bumped(inserted.value, u, kind, f)
  {
  }

  /** How a completion callback is answered, and what it does. */
  ghost predicate Registers(db: Db, s: SessionId, f: OfferId, late: bool, answer: Callback, db': Db) {
    if SessionK(s) !in db.rows then answer == SessionNotFound && db' == db
    else if db.rows[SessionK(s)].progress == Rewarded then answer == AlreadyCompleted && db' == db
    else if db.rows[SessionK(s)].progress == Expired then answer == NotReusable && db' == db
    else if late then answer == TooLate && Outcomes.Expires(db, s, db')
    else if Outcomes.CanReward(db, s, f) then answer == Granted && Outcomes.Completes(db, s, f, db')
    else answer == AlreadyCompleted && db' == db
  }

  lemma ExpireIs(db: Db, s: SessionId)
    requires IsOpen(db, s)
    ensures Effect(ExpireSession(s), db, Seen(0, true))
         == Some(Put(db, SessionK(s), db.rows[SessionK(s)].(progress := Expired)))
  {
  }

  lemma RegisterSays(db: Db, s: SessionId, f: OfferId, late: bool)
    ensures var answer := Outcome(db, s, late, RewardSession(db, s, f).None?);
            Registers(db, s, f, late, answer,
                      match answer
                      case Granted => RewardSession(db, s, f).value
                      case TooLate => Effect(ExpireSession(s), db, Seen(0, true)).value
                      case _ => db)
  {
    hide RewardSession, Outcomes.CanReward, Outcomes.Completes, Outcomes.Expires;
    if IsOpen(db, s) {
      Outcomes.CompleteSays(db, s, f);
      Outcomes.ExpireSays(db, s, Seen(0, true));
    }
  }

  class RewardsService {
    const prisma: Store

    constructor (prisma: Store)
      ensures this.prisma == prisma
    {
      this.prisma := prisma;
    }

    /** `s` is the fresh id; `completedToday` counts the flash ads the user completed since midnight. */
    method CreateSession(s: SessionId, u: UserId, kind: RewardType, completedToday: nat) returns (ok: bool)
      modifies prisma`rows
      ensures var allowed := kind == FlashOfferUnlock ==> completedToday < AdsRequired(kind) * FLASH_OFFER_DAILY_LIMIT;
              var db := old(prisma.Now());
              var created := InsertRow(db, SessionK(s), SessionRow(u, kind, Created));
              Atomically(db, if allowed then created else None, ok, prisma.Now())
      ensures ok <==> SessionK(s) !in old(prisma.rows) && (kind == FlashOfferUnlock ==> completedToday < 2)
      ensures if ok then Outcomes.Inserts(old(prisma.Now()), SessionK(s), SessionRow(u, kind, Created), prisma.Now())
              else prisma.Now() == old(prisma.Now())
    {
      if kind == FlashOfferUnlock {
        var unlocksEarnedToday := completedToday / AdsRequired(FlashOfferUnlock);
        if unlocksEarnedToday >= FLASH_OFFER_DAILY_LIMIT {
          return false;
        }
      }
      ok := prisma.Insert(SessionK(s), SessionRow(u, kind, Created));
    }

    /** One conditional update, so an unlock is consumed once. */
    method TryConsumeUnlock(u: UserId, kind: RewardType) returns (unlocked: bool)
      modifies prisma`rows
      ensures unlocked == HasUnlock(old(prisma.Now()), u, kind)
      ensures prisma.Now() == if unlocked then SpendUnlock(old(prisma.Now()), u, kind).value else old(prisma.Now())
      ensures unlocked <==> Outcomes.IsUnlocked(old(prisma.Now()), u, kind)
      ensures if unlocked then Outcomes.Spends(old(prisma.Now()), u, kind, prisma.Now())
              else prisma.Now() == old(prisma.Now())
    {
      Outcomes.SpendSays(prisma.Now(), u, kind);
      hide Outcomes.Spends, Outcomes.IsUnlocked;
      var k := ProgressK(u, kind);
      unlocked := k in prisma.rows && prisma.rows[k].count >= AdsRequired(kind);
      if unlocked {
        prisma.rows := prisma.rows[k := ProgressRow(0, prisma.rows[k].taken + 1)];
      }
    }

    /** `f` is the fresh id of an offer this session may earn. */
    method RegisterCompletedSession(s: SessionId, f: OfferId, late: bool) returns (answer: Callback)
      modifies prisma
      ensures var db := old(prisma.Now());
              && answer == Outcome(db, s, late, RewardSession(db, s, f).None?)
              && prisma.Now() == (match answer
                                  case Granted => RewardSession(db, s, f).value
                                  case TooLate => Effect(ExpireSession(s), db, Seen(0, true)).value
                                  case _ => db)
      ensures Registers(old(prisma.Now()), s, f, late, answer, prisma.Now())
    {
      RegisterSays(prisma.Now(), s, f, late);
      if IsOpen(prisma.Now(), s) {
        ExpireIs(prisma.Now(), s);
      }
      hide RewardSession, Registers, Effect;
      if SessionK(s) !in prisma.rows {
        return SessionNotFound;
      }
      var session := prisma.rows[SessionK(s)];
      if session.progress == Rewarded {
        return AlreadyCompleted;
      }
      if session.progress != Created && session.progress != Started {
        return NotReusable;
      }
      if late {
        prisma.rows := prisma.rows[SessionK(s) := session.(progress := Expired)];
        return TooLate;
      }
      var ok := RewardOnce(s, f);
      return if ok then Granted else AlreadyCompleted;
    }

    /** The transaction of a completed session. */
    method RewardOnce(s: SessionId, f: OfferId) returns (ok: bool)
      requires IsOpen(prisma.Now(), s)
      modifies prisma
      ensures Atomically(old(prisma.Now()), RewardSession(old(prisma.Now()), s, f), ok, prisma.Now())
    {
      hide RewardSession, Bumped;
      var before := prisma.Now();
      var session := prisma.rows[SessionK(s)];
      RewardIsBump(before, s, f);
      prisma.rows := prisma.rows[SessionK(s) := session.(progress := Rewarded)];
      ok := prisma.Insert(RewardK(s), RewardRow(session.user, session.kind));
      if ok {
        ok := BumpProgress(session.user, session.kind, f);
      }
      if !ok {
        prisma.Rollback(before);
      }
    }

    /** The counter upsert, and the flash offer when it closes a cycle of ads. */
    method BumpProgress(u: UserId, kind: RewardType, f: OfferId) returns (ok: bool)
      modifies prisma`rows
      ensures var bumped := Bumped(old(prisma.Now()), u, kind, f);
              ok == bumped.Some? && (ok ==> prisma.Now() == bumped.value)
      ensures ok <==> Outcomes.EarnsFlash(old(prisma.Now()), u, kind) ==> OfferK(f) !in old(prisma.rows)
      ensures ok ==> Outcomes.Counts(old(prisma.Now()), u, kind, f, prisma.Now())
    {
      var k := ProgressK(u, kind);
      var ProgressRow(count, taken) := Progress(prisma.rows, u, kind);
      prisma.rows := prisma.rows[k := ProgressRow(count + 1, taken)];
      if kind == FlashOfferUnlock && prisma.rows[k].count >= AdsRequired(FlashOfferUnlock) {
        prisma.rows := prisma.rows[k := ProgressRow(0, taken)];
        assert prisma.Now() == Put(old(prisma.Now()), k, ProgressRow(0, taken));
        ok := prisma.Insert(OfferK(f), OfferRow(u, FLASH_OFFER_PACKAGE, FLASH_OFFER_PERCENT, false));
      } else {
        ok := true;
      }
    }
  }
}
