/** Rewarded ads: sessions become counters, counters become unlocks or flash offers, and offers
    become discounted orders. */
module EntitlementLaws {
  import opened Database
  import opened Statements
  import opened Atomic
  import opened Sums

  ghost function Rewards(rows: Rows, u: UserId, kind: RewardType): set<Key> {
    set k | k in rows && k.RewardK? && rows[k].user == u && rows[k].kind == kind
  }

  ghost function Offers(rows: Rows, u: UserId): set<Key> {
    set k | k in rows && k.OfferK? && rows[k].user == u
  }

  ghost function Discounts(rows: Rows, u: UserId): set<Key> {
    set k | k in rows && k.OrderK? && rows[k].user == u && rows[k].discount.Some?
  }

  /** A completed session has its reward transaction, and only a completed one has. */
  ghost predicate SessionOk(rows: Rows, s: SessionId) {
    && (RewardK(s) in rows <==> SessionK(s) in rows && rows[SessionK(s)].progress == Rewarded)
    && (RewardK(s) in rows ==> rows[RewardK(s)] == RewardRow(rows[SessionK(s)].user, rows[SessionK(s)].kind))
  }

  /** Every completed ad is in the counter, in an offer, or behind a consumed unlock. */
  ghost predicate AdsConserved(rows: Rows, u: UserId, kind: RewardType) {
    var ProgressRow(count, taken) := Progress(rows, u, kind);
    if kind == FlashOfferUnlock then
      count < AdsRequired(kind) && AdsRequired(kind) * |Offers(rows, u)| + count == |Rewards(rows, u, kind)|
    else
      AdsRequired(kind) * taken + count <= |Rewards(rows, u, kind)|
  }

  /** A discounted order used a consumed offer of the same user and package, at that offer's percentage. */
  ghost predicate DiscountOk(rows: Rows, o: OrderId) {
    OrderK(o) in rows ==>
      var order := rows[OrderK(o)];
      && (order.discount.Some? <==> order.offer.Some?)
      && (if order.discount.Some? then order.cents == Discounted(order.listCents, order.discount.value)
          else order.cents == order.listCents)
      && (order.offer.Some? ==>
            && OfferK(order.offer.value) in rows
            && rows[OfferK(order.offer.value)] == OfferRow(order.user, order.pkg, order.discount.value, true))
  }

  ghost predicate Uses(rows: Rows, o: OrderId, f: OfferId) {
    OrderK(o) in rows && rows[OrderK(o)].offer == Some(f)
  }

  /** A consumed offer was used by exactly one order; every offer is the one flash offer there is. */
  ghost predicate OfferOk(rows: Rows, f: OfferId) {
    && (OfferK(f) in rows ==> rows[OfferK(f)].percent == FLASH_OFFER_PERCENT
                              && rows[OfferK(f)].pkg == FLASH_OFFER_PACKAGE)
    && (OfferK(f) in rows && rows[OfferK(f)].consumed ==> exists o :: Uses(rows, o, f))
    && (forall o, x | Uses(rows, o, f) && Uses(rows, x, f) :: o == x)
  }

  ghost predicate AdsInv(rows: Rows) {
    && (forall s :: SessionOk(rows, s))
    && (forall u, kind :: AdsConserved(rows, u, kind))
    && (forall o :: DiscountOk(rows, o))
    && (forall f :: OfferOk(rows, f))
  }

  // ---------- Consequences ----------

  /** Discounted orders are at most half of the completed flash ads. */
  lemma DiscountsAreEarned(rows: Rows, u: UserId)
    requires AdsInv(rows)
    ensures 2 * |Discounts(rows, u)| <= |Rewards(rows, u, FlashOfferUnlock)|
  {
    forall k | k in Discounts(rows, u) ensures rows[k].offer.Some? && OfferK(rows[k].offer.value) in Offers(rows, u) {
      assert DiscountOk(rows, k.order);
    }
    var used := map k | k in Discounts(rows, u) :: OfferK(rows[k].offer.value);
    forall a, b | a in used && b in used && a != b ensures used[a] != used[b] {
      assert OfferOk(rows, rows[a].offer.value);
      assert Uses(rows, a.order, rows[a].offer.value) && Uses(rows, b.order, rows[b].offer.value);
    }
    InjectionSize(Discounts(rows, u), used, Offers(rows, u));
    assert AdsConserved(rows, u, FlashOfferUnlock);
  }

  // ---------- Transactions that leave ads and offers alone ----------

  predicate AboutAds(k: Key) {
    k.SessionK? || k.RewardK? || k.ProgressK? || k.OfferK?
  }

  ghost predicate SameOrders(rows: Rows, rows': Rows) {
    forall o :: (OrderK(o) in rows <==> OrderK(o) in rows')
                && (OrderK(o) in rows ==> rows'[OrderK(o)] == rows[OrderK(o)].(paid := rows'[OrderK(o)].paid))
  }

  ghost predicate SameAds(rows: Rows, rows': Rows) {
    forall k | AboutAds(k) :: SameRow(rows, rows', k)
  }

  lemma SessionsFrame(rows: Rows, rows': Rows, s: SessionId)
    requires SessionOk(rows, s) && SameRow(rows, rows', SessionK(s)) && SameRow(rows, rows', RewardK(s))
    ensures SessionOk(rows', s)
  {
  }

  lemma CountersFrame(rows: Rows, rows': Rows, u: UserId, kind: RewardType)
    requires AdsConserved(rows, u, kind) && SameRow(rows, rows', ProgressK(u, kind))
    requires Rewards(rows', u, kind) == Rewards(rows, u, kind) && Offers(rows', u) == Offers(rows, u)
    ensures AdsConserved(rows', u, kind)
  {
  }

  lemma AdsFrame(rows: Rows, rows': Rows)
    requires AdsInv(rows) && SameAds(rows, rows') && SameOrders(rows, rows')
    ensures AdsInv(rows')
  {
    forall s ensures SessionOk(rows', s) {
      assert AboutAds(SessionK(s)) && AboutAds(RewardK(s));
      assert SessionOk(rows, s);
      SessionsFrame(rows, rows', s);
    }
    forall u, kind ensures AdsConserved(rows', u, kind) {
      assert AboutAds(ProgressK(u, kind)) && AdsConserved(rows, u, kind);
      forall k: Key | k.RewardK? || k.OfferK? ensures SameRow(rows, rows', k) {
        assert AboutAds(k);
      }
      assert Rewards(rows', u, kind) == Rewards(rows, u, kind);
      assert Offers(rows', u) == Offers(rows, u);
      CountersFrame(rows, rows', u, kind);
    }
    forall f: OfferId ensures SameRow(rows, rows', OfferK(f)) {
      assert AboutAds(OfferK(f));
    }
    OrdersFrame(rows, rows');
  }

  lemma OrdersFrame(rows: Rows, rows': Rows)
    requires (forall o :: DiscountOk(rows, o)) && (forall f :: OfferOk(rows, f)) && SameOrders(rows, rows')
    requires forall f :: OfferK(f) in rows ==> SameRow(rows, rows', OfferK(f))
    requires forall f :: OfferK(f) in rows' && OfferK(f) !in rows ==>
                           rows'[OfferK(f)] == OfferRow(rows'[OfferK(f)].user, FLASH_OFFER_PACKAGE,
                                                        FLASH_OFFER_PERCENT, false)
    ensures (forall o :: DiscountOk(rows', o)) && (forall f :: OfferOk(rows', f))
  {
    forall o ensures DiscountOk(rows', o) {
      assert DiscountOk(rows, o);
    }
    forall o, f ensures Uses(rows', o, f) <==> Uses(rows, o, f) {
    }
    forall f ensures OfferOk(rows', f) {
      assert OfferOk(rows, f);
      if OfferK(f) in rows && rows[OfferK(f)].consumed {
        var o :| Uses(rows, o, f);
        assert Uses(rows', o, f);
      }
    }
  }

  // ---------- Transactions on ads and offers ----------

  lemma SpendKeepsAds(db: Db, u: UserId, kind: RewardType)
    requires AdsInv(db.rows) && SpendUnlock(db, u, kind).Some? && kind != FlashOfferUnlock
    ensures AdsInv(SpendUnlock(db, u, kind).value.rows)
  {
    var rows, rows' := db.rows, SpendUnlock(db, u, kind).value.rows;
    forall s ensures SessionOk(rows', s) {
      assert SessionOk(rows, s);
    }
    forall v, k ensures AdsConserved(rows', v, k) {
      assert AdsConserved(rows, v, k);
      assert Rewards(rows', v, k) == Rewards(rows, v, k) && Offers(rows', v) == Offers(rows, v);
    }
    OrdersFrame(rows, rows');
  }

  /** A session is opened, or expires. */
  lemma SessionKeepsAds(rows: Rows, s: SessionId, row: Row)
    requires AdsInv(rows) && row.SessionRow? && row.progress != Rewarded
    requires SessionK(s) in rows ==> rows[SessionK(s)].progress != Rewarded
    ensures AdsInv(rows[SessionK(s) := row])
  {
    var rows' := rows[SessionK(s) := row];
    forall x ensures SessionOk(rows', x) {
      assert SessionOk(rows, x);
    }
    forall u, kind ensures AdsConserved(rows', u, kind) {
      assert AdsConserved(rows, u, kind);
      assert Rewards(rows', u, kind) == Rewards(rows, u, kind) && Offers(rows', u) == Offers(rows, u);
    }
    OrdersFrame(rows, rows');
  }

  /** What one completed session changes. */
  ghost predicate Rewards1(rows: Rows, s: SessionId, f: OfferId, rows': Rows) {
    && SessionK(s) in rows && Open(rows[SessionK(s)]) && RewardK(s) !in rows
    && var SessionRow(u, kind, _) := rows[SessionK(s)];
       var ProgressRow(count, taken) := Progress(rows, u, kind);
       var grant := kind == FlashOfferUnlock && count + 1 >= AdsRequired(kind);
       var offer := OfferRow(u, FLASH_OFFER_PACKAGE, FLASH_OFFER_PERCENT, false);
       && (grant ==> OfferK(f) !in rows)
       && var rows1 := rows[SessionK(s) := SessionRow(u, kind, Rewarded)][RewardK(s) := RewardRow(u, kind)];
          var rows2 := rows1[ProgressK(u, kind) := ProgressRow(if grant then 0 else count + 1, taken)];
          rows' == if grant then rows2[OfferK(f) := offer] else rows2
  }

  lemma CompleteRewards(db: Db, s: SessionId, f: OfferId)
    requires RewardSession(db, s, f).Some?
    ensures if IsOpen(db, s) then Rewards1(db.rows, s, f, RewardSession(db, s, f).value.rows)
            else RewardSession(db, s, f).value == db
  {
  }

  lemma RewardSets(rows: Rows, s: SessionId, f: OfferId, rows': Rows, u: UserId, kind: RewardType)
    requires Rewards1(rows, s, f, rows')
    ensures var SessionRow(v, k, _) := rows[SessionK(s)];
            && Rewards(rows', u, kind) == Rewards(rows, u, kind) + (if u == v && kind == k then {RewardK(s)} else {})
            && Offers(rows', u) == Offers(rows, u) +
                 if u == v && OfferK(f) in rows' && OfferK(f) !in rows then {OfferK(f)} else {}
  {
  }

  lemma RewardCounter(rows: Rows, s: SessionId, f: OfferId, rows': Rows, u: UserId, kind: RewardType)
    requires Rewards1(rows, s, f, rows')
    ensures var SessionRow(v, k, _) := rows[SessionK(s)];
            var ProgressRow(count, taken) := Progress(rows, u, kind);
            if u == v && kind == k then
              var grant := kind == FlashOfferUnlock && count + 1 >= AdsRequired(kind);
              && Progress(rows', u, kind) == ProgressRow(if grant then 0 else count + 1, taken)
              && (grant <==> OfferK(f) in rows' && OfferK(f) !in rows)
            else Progress(rows', u, kind) == ProgressRow(count, taken)
                 && (OfferK(f) in rows' && OfferK(f) !in rows ==> k == FlashOfferUnlock)
    ensures RewardK(s) !in rows
  {
  }

  /** The arithmetic of a counter that took one more ad, or none. */
  lemma OneMoreAd(rows: Rows, rows': Rows, u: UserId, kind: RewardType, grant: bool)
    requires AdsConserved(rows, u, kind)
    requires var ProgressRow(count, taken) := Progress(rows, u, kind);
             (|| (&& Progress(rows', u, kind) == ProgressRow(count, taken)
                  && |Rewards(rows', u, kind)| == |Rewards(rows, u, kind)|
                  && (kind == FlashOfferUnlock ==> |Offers(rows', u)| == |Offers(rows, u)|))
              || (&& grant == (kind == FlashOfferUnlock && count + 1 >= AdsRequired(kind))
                  && Progress(rows', u, kind) == ProgressRow(if grant then 0 else count + 1, taken)
                  && |Rewards(rows', u, kind)| == |Rewards(rows, u, kind)| + 1
                  && |Offers(rows', u)| == |Offers(rows, u)| + (if grant then 1 else 0)))
    ensures AdsConserved(rows', u, kind)
  {
    hide Progress, Rewards, Offers;
  }

  lemma RewardKeepsCounters(rows: Rows, s: SessionId, f: OfferId, rows': Rows, u: UserId, kind: RewardType)
    requires AdsConserved(rows, u, kind) && Rewards1(rows, s, f, rows')
    ensures AdsConserved(rows', u, kind)
  {
    hide Rewards, Offers, Progress, AdsConserved, Fits;
    RewardSets(rows, s, f, rows', u, kind);
    RewardCounter(rows, s, f, rows', u, kind);
    RewardsExist(rows, u, kind);
    AddOne(Rewards(rows, u, kind), RewardK(s));
    AddOne(Offers(rows, u), OfferK(f));
    if rows[SessionK(s)].user == u && rows[SessionK(s)].kind == kind {
      OneMoreAd(rows, rows', u, kind, OfferK(f) in rows' && OfferK(f) !in rows);
    } else {
      OneMoreAd(rows, rows', u, kind, false);
    }
  }

  lemma AddOne(keys: set<Key>, k: Key)
    ensures k !in keys ==> |keys + {k}| == |keys| + 1
  {
  }

  lemma RewardsExist(rows: Rows, u: UserId, kind: RewardType)
    ensures Rewards(rows, u, kind) <= rows.Keys && Offers(rows, u) <= rows.Keys
  {
  }

  lemma RewardKeepsSessions(rows: Rows, s: SessionId, f: OfferId, rows': Rows)
    requires (forall x :: SessionOk(rows, x)) && Rewards1(rows, s, f, rows')
    ensures forall x :: SessionOk(rows', x)
  {
    forall x ensures SessionOk(rows', x) {
      assert SessionOk(rows, x);
    }
  }

  lemma RewardFramesOrders(rows: Rows, s: SessionId, f: OfferId, rows': Rows)
    requires Rewards1(rows, s, f, rows')
    ensures SameOrders(rows, rows')
    ensures forall x :: OfferK(x) in rows ==> SameRow(rows, rows', OfferK(x))
    ensures forall x :: OfferK(x) in rows' && OfferK(x) !in rows ==>
              rows'[OfferK(x)] == OfferRow(rows'[OfferK(x)].user, FLASH_OFFER_PACKAGE, FLASH_OFFER_PERCENT, false)
  {
  }

  lemma RewardKeepsAds(rows: Rows, s: SessionId, f: OfferId, rows': Rows)
    requires AdsInv(rows) && Rewards1(rows, s, f, rows')
    ensures AdsInv(rows')
  {
    hide SessionOk, AdsConserved, DiscountOk, OfferOk, Rewards1, SameOrders;
    RewardKeepsSessions(rows, s, f, rows');
    forall u, kind ensures AdsConserved(rows', u, kind) {
      RewardKeepsCounters(rows, s, f, rows', u, kind);
    }
    RewardFramesOrders(rows, s, f, rows');
    OrdersFrame(rows, rows');
  }

  /** What one new order changes: at most the offer it consumes. */
  ghost predicate Places(rows: Rows, o: OrderId, rows': Rows) {
    && OrderK(o) !in rows && OrderK(o) in rows' && DiscountOk(rows', o)
    && (forall k | k != OrderK(o) && !(k.OfferK? && rows'[OrderK(o)].offer == Some(k.offer)) :: SameRow(rows, rows', k))
    && (rows'[OrderK(o)].offer.Some? ==>
          var k := OfferK(rows'[OrderK(o)].offer.value);
          k in rows && !rows[k].consumed && k in rows' && rows'[k] == rows[k].(consumed := true))
  }

  lemma OrderPlaces(db: Db, o: OrderId, u: UserId, pkg: Package, pick: Option<OfferId>, took: bool)
    requires PlaceOrder(db, o, u, pkg, pick, took).Some?
    ensures Places(db.rows, o, PlaceOrder(db, o, u, pkg, pick, took).value.rows)
  {
    hide Discounted;
  }

  lemma PlaceKeepsCounters(rows: Rows, o: OrderId, rows': Rows)
    requires Places(rows, o, rows') && (forall s :: SessionOk(rows, s)) && (forall u, k :: AdsConserved(rows, u, k))
    ensures (forall s :: SessionOk(rows', s)) && (forall u, k :: AdsConserved(rows', u, k))
  {
    hide DiscountOk;
    forall s ensures SessionOk(rows', s) {
      assert SessionOk(rows, s);
      assert SameRow(rows, rows', SessionK(s)) && SameRow(rows, rows', RewardK(s));
    }
    forall k: Key | k.OfferK? || k.RewardK?
      ensures (k in rows <==> k in rows') && (k in rows ==> rows'[k].user == rows[k].user)
    {
      assert SameRow(rows, rows', k) || (k.OfferK? && rows'[OrderK(o)].offer == Some(k.offer));
    }
    forall k: Key | k.RewardK? ensures SameRow(rows, rows', k) {
    }
    forall u, k ensures AdsConserved(rows', u, k) {
      assert AdsConserved(rows, u, k) && SameRow(rows, rows', ProgressK(u, k));
      assert Rewards(rows', u, k) == Rewards(rows, u, k) && Offers(rows', u) == Offers(rows, u);
    }
  }

  lemma PlaceKeepsOffers(rows: Rows, o: OrderId, rows': Rows)
    requires Places(rows, o, rows') && (forall x :: DiscountOk(rows, x)) && (forall f :: OfferOk(rows, f))
    ensures (forall x :: DiscountOk(rows', x)) && (forall f :: OfferOk(rows', f))
  {
    hide Discounted;
    forall x: OrderId | x != o ensures DiscountOk(rows', x) {
      assert DiscountOk(rows, x) && SameRow(rows, rows', OrderK(x));
      if OrderK(x) in rows && rows[OrderK(x)].offer.Some? {
        assert SameRow(rows, rows', OfferK(rows[OrderK(x)].offer.value));
      }
    }
    forall x: OrderId, f: OfferId | x != o ensures Uses(rows', x, f) <==> Uses(rows, x, f) {
      assert SameRow(rows, rows', OrderK(x));
    }
    forall f: OfferId ensures OfferOk(rows', f) {
      assert OfferOk(rows, f);
      if rows'[OrderK(o)].offer == Some(f) {
        assert Uses(rows', o, f);
        forall x: OrderId ensures !Uses(rows, x, f) {
          assert DiscountOk(rows, x);
        }
      } else {
        assert SameRow(rows, rows', OfferK(f)) && !Uses(rows', o, f);
        if OfferK(f) in rows && rows[OfferK(f)].consumed {
          var x: OrderId :| Uses(rows, x, f);
          assert Uses(rows', x, f);
        }
      }
    }
  }

  lemma PlaceKeepsAds(db: Db, o: OrderId, u: UserId, pkg: Package, pick: Option<OfferId>, took: bool)
    requires AdsInv(db.rows) && PlaceOrder(db, o, u, pkg, pick, took).Some?
    ensures AdsInv(PlaceOrder(db, o, u, pkg, pick, took).value.rows)
  {
    hide PlaceOrder, Places, SessionOk, AdsConserved, DiscountOk, OfferOk;
    var rows' := PlaceOrder(db, o, u, pkg, pick, took).value.rows;
    OrderPlaces(db, o, u, pkg, pick, took);
    PlaceKeepsCounters(db.rows, o, rows');
    PlaceKeepsOffers(db.rows, o, rows');
  }

  predicate MovesAds(op: Op) {
    op.Submit? || op.CreateOrder? || op.OpenSession? || op.ExpireSession? || op.CompleteSession? || op.TakeDailyUnlock?
  }

  lemma OthersKeepAds(op: Op, db: Db, db': Db)
    requires AdsInv(db.rows) && !MovesAds(op) && Framed(op, db, db')
    requires op.Approve? || op.Terminate? ==> forall o :: OrderK(o) in db'.rows ==> OrderK(o) in db.rows
    ensures AdsInv(db'.rows)
  {
    forall o ensures (OrderK(o) in db.rows <==> OrderK(o) in db'.rows)
                     && (OrderK(o) in db.rows ==>
                          db'.rows[OrderK(o)] == db.rows[OrderK(o)].(paid := db'.rows[OrderK(o)].paid))
    {
      if !(op.Approve? || op.Terminate?) {
        assert !MayWrite(op, OrderK(o));
      } else if OrderK(o) in db.rows {
        assert Later(db.rows[OrderK(o)], db'.rows[OrderK(o)]);
      }
    }
    AdsFrame(db.rows, db'.rows);
  }

  lemma SubmitKeepsAds(db: Db, u: UserId, r: ReadingId, cost: nat, draws: Option<seq<TarotDraw>>, free: bool)
    requires AdsInv(db.rows) && SubmitReading(db, u, r, cost, draws, free).Some?
    ensures AdsInv(SubmitReading(db, u, r, cost, draws, free).value.rows)
  {
    hide AdsInv, Reserve;
    var db1 := if free then SpendUnlock(db, u, TarotReadingUnlock).value else db;
    if free {
      SpendKeepsAds(db, u, TarotReadingUnlock);
    }
    ReserveTouches(db1, u, r, if free then 0 else cost);
    var db2 := Reserve(db1, u, r, if free then 0 else cost).value;
    var rows' := SubmitReading(db, u, r, cost, draws, free).value.rows;
    assert forall o: OrderId :: SameRow(db1.rows, db2.rows, OrderK(o));
    forall k | AboutAds(k) ensures SameRow(db1.rows, rows', k) {
      assert SameRow(db1.rows, db2.rows, k);
    }
    AdsFrame(db1.rows, rows');
  }

  lemma AdsKeeps(op: Op, db: Db, seen: Seen)
    requires AdsInv(db.rows) && Effect(op, db, seen).Some?
    ensures AdsInv(Effect(op, db, seen).value.rows)
  {
    hide AdsInv, SubmitReading, PlaceOrder, RewardSession, Rewards1, MayWrite, SpendUnlock, OpenWallet, AdjustBalance,
         ConfirmHold, ReleaseHold, Framed;
    match op
    case Submit(u, r, cost, ads, draws) => SubmitKeepsAds(db, u, r, cost, draws, ads && seen.hit);
    case CreateOrder(o, u, pkg, pick) => PlaceKeepsAds(db, o, u, pkg, pick, seen.hit);
    case OpenSession(s, u, k) => SessionKeepsAds(db.rows, s, SessionRow(u, k, Created));
    case ExpireSession(s) =>
      if IsOpen(db, s) {
        SessionKeepsAds(db.rows, s, db.rows[SessionK(s)].(progress := Expired));
      }
    case CompleteSession(s, f) =>
      CompleteRewards(db, s, f);
      if IsOpen(db, s) {
        RewardKeepsAds(db.rows, s, f, RewardSession(db, s, f).value.rows);
      }
    case TakeDailyUnlock(u) =>
      if seen.hit {
        SpendKeepsAds(db, u, DailyCardUnlock);
      }
    case _ =>
      EffectFramed(op, db, seen);
      OthersKeepAds(op, db, Effect(op, db, seen).value);
  }
}
