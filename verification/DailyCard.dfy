/** `DailyCardService.getTodaysCard`: free for the first days of an account, then one ad a day. A
    request is one step, and the cache loses nothing before it expires. */
module DailyCard {
  import opened Database
  import opened Statements
  import opened Atomic
  import opened Tables
  import opened DrawEngine
  import opened RewardsService
  import Outcomes

  const MS_PER_DAY: int := 24 * 60 * 60 * 1000
  const CACHE_TTL_MS: int := 24 * 60 * 60 * 1000
  const FREE_DAYS: int := 5

  /** The number of the UTC day, which is what the date in the cache key says. */
  function Day(time: int): int {
    time / MS_PER_DAY
  }

  /** The first four bytes and the fifth byte of the HMAC of user and date. */
  datatype Digest = Digest(head: nat, fifth: nat)

  datatype Answer = Shown(day: int, card: Card, orientation: Orientation) | Locked(requiredAds: nat) | Unavailable

  datatype Slip = Slip(answer: Answer, until: int)

  /** What a request reads and writes: the tables, the cache, and when each account was created. */
  datatype Desk = Desk(db: Db, cache: map<(UserId, int), Slip>, createdAt: map<UserId, int>)

  /** A request at `time`. `deck` is the active deck, empty when there is none. */
  datatype Visit = Visit(user: UserId, time: int, deck: seq<Card>, digest: Digest)

  predicate IsCached(s: Desk, v: Visit) {
    (v.user, Day(v.time)) in s.cache && v.time < s.cache[(v.user, Day(v.time))].until
  }

  predicate IsFree(createdAt: int, today: int) {
    (today - createdAt) / MS_PER_DAY + 1 <= FREE_DAYS
  }

  /** The request takes an unlock. */
  predicate Spends(s: Desk, v: Visit) {
    !IsCached(s, v) && v.user in s.createdAt && !IsFree(s.createdAt[v.user], v.time)
    && HasUnlock(s.db, v.user, DailyCardUnlock)
  }

  function Build(v: Visit): Answer
    requires v.deck != []
  {
    Shown(Day(v.time), v.deck[v.digest.head % |v.deck|], if v.digest.fifth % 2 == 0 then Upright else Reversed)
  }

  function AnswerTo(s: Desk, v: Visit): Answer {
    if IsCached(s, v) then s.cache[(v.user, Day(v.time))].answer
    else if v.user !in s.createdAt then Unavailable
    else if !IsFree(s.createdAt[v.user], v.time) && !Spends(s, v) then Locked(AdsRequired(DailyCardUnlock))
    else if v.deck == [] then Unavailable
    else Build(v)
  }

  function Serve(s: Desk, v: Visit): Desk {
    var paid := if Spends(s, v) then s.(db := SpendUnlock(s.db, v.user, DailyCardUnlock).value) else s;
    if IsCached(s, v) || !AnswerTo(s, v).Shown? then paid
    else paid.(cache := s.cache[(v.user, Day(v.time)) := Slip(AnswerTo(s, v), v.time + CACHE_TTL_MS)])
  }

  /** What one request is answered, what it pays and what it caches. The days are of 86400000
      milliseconds, the first five of an account are free, and every other costs one unlock. */
  ghost predicate IsVisit(s: Desk, v: Visit, answer: Answer, s': Desk) {
    var key := (v.user, v.time / 86400000);
    if key in s.cache && v.time < s.cache[key].until then answer == s.cache[key].answer && s' == s
    else if v.user !in s.createdAt then answer == Unavailable && s' == s
    else
      var free := v.time < s.createdAt[v.user] + 5 * 86400000;
      if !free && !Outcomes.IsUnlocked(s.db, v.user, DailyCardUnlock) then answer == Locked(1) && s' == s
      else
        && s'.createdAt == s.createdAt
        && (if free then s'.db == s.db else Outcomes.Spends(s.db, v.user, DailyCardUnlock, s'.db))
        && if v.deck == [] then answer == Unavailable && s'.cache == s.cache
           else
             && answer == Shown(v.time / 86400000, v.deck[v.digest.head % |v.deck|],
                                if v.digest.fifth % 2 == 0 then Upright else Reversed)
             && s'.cache == s.cache[key := Slip(answer, v.time + 86400000)]
  }

  lemma FreeDays(createdAt: int, today: int)
    ensures IsFree(createdAt, today) <==> today < createdAt + 5 * 86400000
  {
  }

  lemma VisitSays(s: Desk, v: Visit)
    ensures IsVisit(s, v, AnswerTo(s, v), Serve(s, v))
  {
    hide IsFree, HasUnlock, SpendUnlock, Outcomes.Spends, Outcomes.IsUnlocked;
    Outcomes.SpendSays(s.db, v.user, DailyCardUnlock);
    if v.user in s.createdAt {
      FreeDays(s.createdAt[v.user], v.time);
    }
  }

  class DailyCardService {
    const rewards: RewardsService
    const createdAt: map<UserId, int>
    var cache: map<(UserId, int), Slip>

    constructor (rewards: RewardsService, createdAt: map<UserId, int>)
      ensures this.rewards == rewards && this.createdAt == createdAt && cache == map[]
    {
      this.rewards, this.createdAt, cache := rewards, createdAt, map[];
    }

    function Now(): Desk
      reads this, rewards.prisma
    {
      Desk(rewards.prisma.Now(), cache, createdAt)
    }

    method GetTodaysCard(u: UserId, today: int, deck: seq<Card>, digest: Digest) returns (answer: Answer)
      modifies rewards.prisma`rows, this`cache
      ensures answer == AnswerTo(old(Now()), Visit(u, today, deck, digest))
      ensures Now() == Serve(old(Now()), Visit(u, today, deck, digest))
      ensures IsVisit(old(Now()), Visit(u, today, deck, digest), answer, Now())
    {
      VisitSays(Now(), Visit(u, today, deck, digest));
      hide IsVisit;
      var cacheKey := (u, Day(today));
      if cacheKey in cache && today < cache[cacheKey].until {
        return cache[cacheKey].answer;
      }
      if u !in createdAt {
        return Unavailable;
      }
      var daysSinceRegistration := (today - createdAt[u]) / MS_PER_DAY + 1;
      if daysSinceRegistration > FREE_DAYS {
        var unlockedNow := rewards.TryConsumeUnlock(u, DailyCardUnlock);
        if !unlockedNow {
          return Locked(AdsRequired(DailyCardUnlock));
        }
      }
      if deck == [] {
        return Unavailable;
      }
      var cardIndex := digest.head % |deck|;
      var orientation := if digest.fifth % 2 == 0 then Upright else Reversed;
      answer := Shown(Day(today), deck[cardIndex], orientation);
      cache := cache[cacheKey := Slip(answer, today + CACHE_TTL_MS)];
    }
  }

  // ---------- Over every run ----------

  /** Any transaction but the one that only a request for the daily card sends. */
  type OtherOp = op: Op | !op.TakeDailyUnlock? witness CreateWallet(0, 0)

  /** A request, or any other transaction of the system: completed ads, submits, orders. */
  datatype Event = Request(visit: Visit) | Other(op: OtherOp, seen: Seen)

  function Step(s: Desk, e: Event): Desk {
    match e
    case Request(v) => Serve(s, v)
    case Other(op, seen) =>
      var effect := Effect(op, s.db, seen);
      if effect.Some? then s.(db := effect.value) else s
  }

  function Run(s: Desk, events: seq<Event>): Desk {
    if events == [] then s else Step(Run(s, events[..|events| - 1]), events[|events| - 1])
  }

  /** An entry outlives the day it is for. */
  ghost predicate OutlivesDay(s: Desk) {
    forall k | k in s.cache :: s.cache[k].answer.Shown? && s.cache[k].until >= (k.1 + 1) * MS_PER_DAY
  }

  lemma DayBounds(time: int)
    ensures Day(time) * MS_PER_DAY <= time < (Day(time) + 1) * MS_PER_DAY
  {
  }

  /** No step touches an entry on its own day, and every card shown has one. */
  lemma StepKeepsSlips(s: Desk, e: Event)
    requires OutlivesDay(s)
    ensures OutlivesDay(Step(s, e))
    ensures forall k | k in s.cache :: k in Step(s, e).cache && Step(s, e).cache[k] == s.cache[k]
    ensures e.Request? && AnswerTo(s, e.visit).Shown? ==>
              var k := (e.visit.user, Day(e.visit.time));
              k in Step(s, e).cache && Step(s, e).cache[k].answer == AnswerTo(s, e.visit)
  {
    hide Effect, SpendUnlock, Build;
    if e.Request? {
      DayBounds(e.visit.time);
    }
  }

  lemma {:induction false} RunKeepsSlips(s: Desk, events: seq<Event>, more: seq<Event>)
    requires OutlivesDay(Run(s, events)) && events <= more
    ensures OutlivesDay(Run(s, more))
    ensures forall k | k in Run(s, events).cache ::
              k in Run(s, more).cache && Run(s, more).cache[k] == Run(s, events).cache[k]
    decreases |more|
  {
    hide Step;
    if more != events {
      RunKeepsSlips(s, events, more[..|more| - 1]);
      StepKeepsSlips(Run(s, more[..|more| - 1]), more[|more| - 1]);
    }
  }

  /** The card a user was shown on a day is the card the user is shown for the rest of that day, and
      the rest of the day takes no unlock. */
  lemma SameCardAllDay(s: Desk, events: seq<Event>, i: nat, j: nat)
    requires s.cache == map[] && i < j < |events| && events[i].Request? && events[j].Request?
    requires events[i].visit.user == events[j].visit.user && Day(events[i].visit.time) == Day(events[j].visit.time)
    requires AnswerTo(Run(s, events[..i]), events[i].visit).Shown?
    ensures AnswerTo(Run(s, events[..j]), events[j].visit) == AnswerTo(Run(s, events[..i]), events[i].visit)
    ensures !Spends(Run(s, events[..j]), events[j].visit)
  {
    hide Step, Build, HasUnlock, IsFree;
    var v, w := events[i].visit, events[j].visit;
    assert events[..0] == [];
    RunKeepsSlips(s, [], events[..i]);
    StepKeepsSlips(Run(s, events[..i]), events[i]);
    assert events[..i + 1][..i] == events[..i] && events[..i + 1][i] == events[i];
    RunKeepsSlips(s, events[..i + 1], events[..j]);
    DayBounds(w.time);
  }

  /** A day takes at most one unlock, unless a request that took one then failed for want of a deck. */
  lemma OneUnlockADay(s: Desk, events: seq<Event>, i: nat, j: nat)
    requires s.cache == map[] && i < j < |events| && events[i].Request? && events[j].Request?
    requires events[i].visit.user == events[j].visit.user && Day(events[i].visit.time) == Day(events[j].visit.time)
    requires Spends(Run(s, events[..i]), events[i].visit) && Spends(Run(s, events[..j]), events[j].visit)
    ensures events[i].visit.deck == []
  {
    if events[i].visit.deck != [] {
      SameCardAllDay(s, events, i, j);
    }
  }

  /** A spent unlock buys its day's card exactly when a deck is found: without one the unlock is gone
      and the day is not paid. */
  lemma SpentUnlockShowsIff(s: Desk, v: Visit)
    requires Spends(s, v)
    ensures !HasUnlock(Serve(s, v).db, v.user, DailyCardUnlock)
    ensures v.deck != [] <==> AnswerTo(s, v).Shown? && IsCached(Serve(s, v), v)
  {
    DayBounds(v.time);
  }

  // ---------- A request whose look at the cache comes too early ----------

  /** The payment of a request that missed the cache and is out of its free days, whenever it runs. */
  function PayLate(db: Db, u: UserId): Db {
    if HasUnlock(db, u, DailyCardUnlock) then SpendUnlock(db, u, DailyCardUnlock).value else db
  }

  /** What such a request writes into the cache once it has paid. */
  function CacheLate(s: Desk, v: Visit): Desk
    requires v.deck != []
  {
    s.(cache := s.cache[(v.user, Day(v.time)) := Slip(Build(v), v.time + CACHE_TTL_MS)])
  }

  /** Two requests that both missed the cache: the second pays again exactly when another unlock is
      there when it pays, whatever the cache holds by then. */
  lemma LatePaymentIsSafeIff(db: Db, u: UserId)
    ensures PayLate(db, u) == db <==> !HasUnlock(db, u, DailyCardUnlock)
  {
    if HasUnlock(db, u, DailyCardUnlock) {
      assert PayLate(db, u).rows[ProgressK(u, DailyCardUnlock)] != db.rows[ProgressK(u, DailyCardUnlock)];
    }
  }

  /** Only a completed session fills a counter: overlapping requests pay twice only if an ad was
      completed between their payments. */
  lemma {:induction false} OverlapPaysOnce(db: Db, u: UserId, between: seq<(OtherOp, Seen)>)
    requires HasUnlock(db, u, DailyCardUnlock) && forall a | a in between :: !a.0.CompleteSession?
    ensures !HasUnlock(Between(PayLate(db, u), between), u, DailyCardUnlock)
    decreases |between|
  {
    if between != [] {
      var last := |between| - 1;
      var before := Between(PayLate(db, u), between[..last]);
      OverlapPaysOnce(db, u, between[..last]);
      var effect := Effect(between[last].0, before, between[last].1);
      assert between[last] in between;
      if effect.Some? {
        EffectFramed(between[last].0, before, between[last].1);
        assert !MayWrite(between[last].0, ProgressK(u, DailyCardUnlock));
        assert SameRow(before.rows, effect.value.rows, ProgressK(u, DailyCardUnlock));
      }
    }
  }

  /** Other transactions that commit between two payments. */
  function Between(db: Db, ops: seq<(OtherOp, Seen)>): Db {
    if ops == [] then db
    else
      var last := |ops| - 1;
      var before := Between(db, ops[..last]);
      var effect := Effect(ops[last].0, before, ops[last].1);
      if effect.Some? then effect.value else before
  }

  /** The request that writes the cache last is the one that the rest of the day shows. */
  lemma LastCardStays(s: Desk, v: Visit, w: Visit)
    requires v.deck != [] && w.deck != [] && v.user == w.user && Day(v.time) == Day(w.time)
    ensures AnswerTo(CacheLate(CacheLate(s, v), w), v) == Build(w)
    ensures Build(v) == Build(w) <==> AnswerTo(CacheLate(CacheLate(s, v), w), v) == AnswerTo(CacheLate(s, v), v)
  {
    DayBounds(v.time);
    DayBounds(w.time);
  }
}
