/** `OrdersService.create`: the price and the credits of a purchase are frozen when it is ordered. */
module OrdersService {
  import opened Database
  import opened Statements
  import opened Atomic
  import opened Tables
  import Outcomes

  /** The frozen price never exceeds the list price and is the exact discount rounded to a whole
      cent; the bounds leave one integer, so this defines the rounding. */
  lemma PriceIsRounded(cents: nat, percent: nat)
    requires percent <= 100
    ensures 0 <= Discounted(cents, percent) <= cents
    ensures -50 < 100 * Discounted(cents, percent) - cents * (100 - percent) <= 50
    ensures forall p: int | -50 < 100 * p - cents * (100 - percent) <= 50 :: p == Discounted(cents, percent)
  {
    var exact := cents * (100 - percent);
    assert 0 <= exact <= 100 * cents by {
      Scaled(cents, percent);
    }
    assert exact * 2 == cents * (100 - percent) * 2;
    var p := Discounted(cents, percent);
    assert 200 * p <= exact * 2 + 100 < 200 * p + 200;
  }

  lemma Scaled(cents: nat, percent: nat)
    requires percent <= 100
    ensures 0 <= cents * (100 - percent) <= 100 * cents
  {
    assert cents * (100 - percent) == 100 * cents - cents * percent;
  }

  class OrdersService {
    const prisma: Store

    constructor (prisma: Store)
      ensures this.prisma == prisma
    {
      this.prisma := prisma;
    }

    /** `o` is the fresh id; `active` is the newest unexpired offer of the user for this package that
        was still unconsumed when it was looked up. */
    method Create(o: OrderId, u: UserId, pkg: Package, active: Option<OfferId>) returns (ok: bool)
      requires active.Some? ==>
                 OfferK(active.value) in prisma.rows
                 && prisma.rows[OfferK(active.value)].user == u && prisma.rows[OfferK(active.value)].pkg == pkg.code
      modifies prisma`rows
      ensures var db := old(prisma.Now());
              Atomically(db, PlaceOrder(db, o, u, pkg, active, active.Some? && !db.rows[OfferK(active.value)].consumed),
                         ok, prisma.Now())
      ensures var db := old(prisma.Now());
              var used := if active.Some? && !db.rows[OfferK(active.value)].consumed then active else None;
              && (ok <==> OrderK(o) !in db.rows)
              && (if ok then Outcomes.Orders(db, o, u, pkg, used, prisma.Now()) else prisma.Now() == db)
    {
      Outcomes.OrderSays(prisma.Now(), o, u, pkg, active, active.Some? && !prisma.rows[OfferK(active.value)].consumed);
      hide Outcomes.Orders;
      var before := prisma.rows;
      var priceCents: int := pkg.cents;
      var discountAppliedPercent: Option<nat> := None;
      var consumed: Option<OfferId> := None;
      if active.Some? {
        var offer := prisma.rows[OfferK(active.value)];
        if !offer.consumed {
          prisma.rows := prisma.rows[OfferK(active.value) := offer.(consumed := true)];
          discountAppliedPercent, consumed := Some(offer.percent), active;
          priceCents := Discounted(pkg.cents, offer.percent);
        }
      }
      ok := prisma.Insert(OrderK(o), OrderRow(u, pkg.code, pkg.cents, discountAppliedPercent, consumed,
                                              pkg.credits, priceCents, pkg.currency, Unpaid));
      if !ok {
        prisma.rows := before;
      }
    }
  }
}
