/** Orders, their payments, and the one credit that a paid order is worth. */
module PaymentLaws {
  import opened Database
  import opened Statements
  import opened Atomic
  import opened Sums

  ghost predicate IsApproved(rows: Rows, p: PaymentId, o: OrderId) {
    PaymentK(p) in rows && rows[PaymentK(p)].order == o && rows[PaymentK(p)].state == Approved
  }

  ghost predicate IsPaid(rows: Rows, o: OrderId) {
    OrderK(o) in rows && rows[OrderK(o)].paid == Paid
  }

  /** A payment asks for the frozen price of its order, and is approved only if the order is paid. */
  ghost predicate PaymentOk(rows: Rows, p: PaymentId) {
    PaymentK(p) in rows ==>
      var PaymentRow(o, cents, currency, state) := rows[PaymentK(p)];
      && OrderK(o) in rows && rows[OrderK(o)].cents == cents && rows[OrderK(o)].currency == currency
      && (state == Approved ==> IsPaid(rows, o))
  }

  /** PAID, one PURCHASE entry of the order's credits, and an approved payment come together. */
  ghost predicate OrderOk(rows: Rows, o: OrderId) {
    && (IsPaid(rows, o) <==> EntryK(PurchaseKey(o)) in rows)
    && (IsPaid(rows, o) ==> rows[EntryK(PurchaseKey(o))].entry.user == rows[OrderK(o)].user
                            && rows[EntryK(PurchaseKey(o))].entry.amount == rows[OrderK(o)].credits)
    && (IsPaid(rows, o) ==> exists p :: IsApproved(rows, p, o))
  }

  ghost predicate OneApproval(rows: Rows) {
    forall p, q, o | IsApproved(rows, p, o) && IsApproved(rows, q, o) :: p == q
  }

  ghost function PaidPrices(rows: Rows): map<Key, int> {
    map k | k in rows && k.OrderK? && rows[k].paid == Paid :: rows[k].cents
  }

  ghost function ApprovedAmounts(rows: Rows): map<Key, int> {
    map k | k in rows && k.PaymentK? && rows[k].state == Approved :: rows[k].cents
  }

  ghost predicate PayInv(rows: Rows) {
    && (forall p :: PaymentOk(rows, p))
    && (forall o :: OrderOk(rows, o))
    && OneApproval(rows)
    && Total(PaidPrices(rows)) == Total(ApprovedAmounts(rows))
  }

  /** For one order: PAID iff exactly one payment is approved iff its PURCHASE entry exists. */
  lemma PaidOnce(rows: Rows, o: OrderId)
    requires PayInv(rows)
    ensures IsPaid(rows, o) <==> exists p :: IsApproved(rows, p, o) && forall q | IsApproved(rows, q, o) :: q == p
    ensures IsPaid(rows, o) <==> EntryK(PurchaseKey(o)) in rows
    ensures IsPaid(rows, o) ==> rows[EntryK(PurchaseKey(o))].entry.amount == rows[OrderK(o)].credits
    ensures Total(PaidPrices(rows)) == Total(ApprovedAmounts(rows))
  {
    assert OrderOk(rows, o);
    if p :| IsApproved(rows, p, o) {
      assert PaymentOk(rows, p);
    }
  }

  /** A second approval of a paid order rolls back whole. */
  lemma SecondApprovalFails(db: Db, p: PaymentId)
    requires PayInv(db.rows) && InFlight(db, p) && IsPaid(db.rows, db.rows[PaymentK(p)].order)
    ensures ApprovePayment(db, p) == None
  {
    assert OrderOk(db.rows, db.rows[PaymentK(p)].order);
  }

  // ---------- The one transaction that pays ----------

  /** Payment `p` is approved, its order paid, and the PURCHASE entry written; nothing else about payments. */
  ghost predicate Pays(rows: Rows, p: PaymentId, rows': Rows) {
    && PaymentK(p) in rows && rows[PaymentK(p)].state == InProgress
    && var o := rows[PaymentK(p)].order;
       && OrderK(o) in rows && EntryK(PurchaseKey(o)) !in rows
       && PaymentK(p) in rows' && rows'[PaymentK(p)] == rows[PaymentK(p)].(state := Approved)
       && OrderK(o) in rows' && rows'[OrderK(o)] == rows[OrderK(o)].(paid := Paid)
       && EntryK(PurchaseKey(o)) in rows'
       && rows'[EntryK(PurchaseKey(o))].entry.user == rows[OrderK(o)].user
       && rows'[EntryK(PurchaseKey(o))].entry.amount == rows[OrderK(o)].credits
       && (forall q | q != p :: SameRow(rows, rows', PaymentK(q)))
       && (forall x | x != o :: SameRow(rows, rows', OrderK(x)) && SameRow(rows, rows', EntryK(PurchaseKey(x))))
  }

  lemma ApprovePays(db: Db, p: PaymentId)
    requires ApprovePayment(db, p).Some?
    ensures if InFlight(db, p) then Pays(db.rows, p, ApprovePayment(db, p).value.rows)
              else ApprovePayment(db, p).value == db
  {
  }

  lemma PaysOrders(rows: Rows, p: PaymentId, rows': Rows)
    requires PayInv(rows) && Pays(rows, p, rows')
    ensures !IsPaid(rows, rows[PaymentK(p)].order)
    ensures forall o :: OrderOk(rows', o)
  {
    var o := rows[PaymentK(p)].order;
    assert OrderOk(rows, o);
    forall x ensures OrderOk(rows', x) {
      assert OrderOk(rows, x);
      if x == o {
        assert IsApproved(rows', p, o);
      } else if IsPaid(rows, x) {
        var q :| IsApproved(rows, q, x);
        assert SameRow(rows, rows', PaymentK(q));
        assert IsApproved(rows', q, x);
      }
    }
  }

  lemma PaysPayments(rows: Rows, p: PaymentId, rows': Rows)
    requires PayInv(rows) && Pays(rows, p, rows') && !IsPaid(rows, rows[PaymentK(p)].order)
    ensures (forall q :: PaymentOk(rows', q)) && OneApproval(rows')
  {
    var o := rows[PaymentK(p)].order;
    forall q ensures PaymentOk(rows', q) {
      assert PaymentOk(rows, q);
      if q != p {
        assert SameRow(rows, rows', PaymentK(q));
      }
    }
    forall q, x | q != p && IsApproved(rows', q, x) ensures IsApproved(rows, q, x) && x != o {
      assert SameRow(rows, rows', PaymentK(q)) && PaymentOk(rows, q);
    }
  }

  lemma PaysTotals(rows: Rows, p: PaymentId, rows': Rows)
    requires PayInv(rows) && Pays(rows, p, rows') && !IsPaid(rows, rows[PaymentK(p)].order)
    ensures Total(PaidPrices(rows')) == Total(ApprovedAmounts(rows'))
  {
    var o := rows[PaymentK(p)].order;
    var price := rows[OrderK(o)].cents;
    forall k: Key | k.OrderK? && k != OrderK(o) ensures SameRow(rows, rows', k) {
      assert SameRow(rows, rows', OrderK(k.order));
    }
    forall k: Key | k.PaymentK? && k != PaymentK(p) ensures SameRow(rows, rows', k) {
      assert SameRow(rows, rows', PaymentK(k.payment));
    }
    assert PaidPrices(rows') == PaidPrices(rows)[OrderK(o) := price];
    assert ApprovedAmounts(rows') == ApprovedAmounts(rows)[PaymentK(p) := price] by {
      assert PaymentOk(rows, p);
    }
    TotalPut(PaidPrices(rows), OrderK(o), price);
    TotalPut(ApprovedAmounts(rows), PaymentK(p), price);
  }

  lemma PaysKeeps(rows: Rows, p: PaymentId, rows': Rows)
    requires PayInv(rows) && Pays(rows, p, rows')
    ensures PayInv(rows')
  {
    hide Pays, PaymentOk, OrderOk, PaidPrices, ApprovedAmounts;
    PaysOrders(rows, p, rows');
    PaysPayments(rows, p, rows');
    PaysTotals(rows, p, rows');
  }

  // ---------- Every other transaction ----------

  /** Changes that neither pay an order nor approve a payment. */
  ghost predicate Unpaying(rows: Rows, rows': Rows) {
    && Evolves(rows, rows')
    && (forall o :: SameRow(rows, rows', EntryK(PurchaseKey(o))))
    && (forall o :: IsPaid(rows', o) <==> IsPaid(rows, o))
    && (forall p, o :: IsApproved(rows', p, o) <==> IsApproved(rows, p, o))
    && (forall p | PaymentK(p) in rows' && PaymentK(p) !in rows :: PaymentOk(rows', p))
  }

  lemma UnpayingKeeps(rows: Rows, rows': Rows)
    requires PayInv(rows) && Unpaying(rows, rows')
    ensures PayInv(rows')
  {
    forall p ensures PaymentOk(rows', p) {
      assert PaymentOk(rows, p);
      if PaymentK(p) in rows {
        var row, row' := rows[PaymentK(p)], rows'[PaymentK(p)];
        assert Later(row, row') && Later(rows[OrderK(row.order)], rows'[OrderK(row.order)]);
        assert row'.state == Approved ==> IsApproved(rows', p, row'.order);
      }
    }
    forall o ensures OrderOk(rows', o) {
      assert OrderOk(rows, o);
      assert SameRow(rows, rows', EntryK(PurchaseKey(o)));
      if IsPaid(rows, o) {
        assert Later(rows[OrderK(o)], rows'[OrderK(o)]);
        var p :| IsApproved(rows, p, o);
        assert IsApproved(rows', p, o);
      }
    }
    forall p, q, o | IsApproved(rows', p, o) && IsApproved(rows', q, o) ensures p == q {
      assert IsApproved(rows, p, o) && IsApproved(rows, q, o);
    }
    SameTotals(rows, rows');
  }

  lemma SameTotals(rows: Rows, rows': Rows)
    requires Unpaying(rows, rows')
    ensures PaidPrices(rows') == PaidPrices(rows) && ApprovedAmounts(rows') == ApprovedAmounts(rows)
  {
    forall k: Key | k.OrderK? ensures k in PaidPrices(rows') <==> k in PaidPrices(rows) {
      assert IsPaid(rows', k.order) <==> IsPaid(rows, k.order);
    }
    forall k: Key | k in PaidPrices(rows) ensures PaidPrices(rows')[k] == PaidPrices(rows)[k] {
      assert Later(rows[k], rows'[k]);
    }
    forall k: Key | k.PaymentK? ensures k in ApprovedAmounts(rows') <==> k in ApprovedAmounts(rows) {
      if k in rows {
        assert IsApproved(rows', k.payment, rows[k].order) <==> IsApproved(rows, k.payment, rows[k].order);
        assert Later(rows[k], rows'[k]);
      } else if k in rows' {
        assert IsApproved(rows', k.payment, rows'[k].order) <==> IsApproved(rows, k.payment, rows'[k].order);
      }
    }
    forall k: Key | k in ApprovedAmounts(rows) ensures ApprovedAmounts(rows')[k] == ApprovedAmounts(rows)[k] {
      assert Later(rows[k], rows'[k]);
    }
  }

  lemma OthersUnpaying(op: Op, db: Db, seen: Seen)
    requires !op.Approve? && Effect(op, db, seen).Some?
    ensures Unpaying(db.rows, Effect(op, db, seen).value.rows)
  {
    hide Effect;
    var rows, rows' := db.rows, Effect(op, db, seen).value.rows;
    EffectFramed(op, db, seen);
    if op.Checkout? || op.Terminate? || op.CreateOrder? {
      OrdersUnpaying(op, db, seen);
    } else {
      forall o: OrderId ensures SameRow(rows, rows', OrderK(o)) && SameRow(rows, rows', EntryK(PurchaseKey(o))) {
        assert !MayWrite(op, OrderK(o)) && !MayWrite(op, EntryK(PurchaseKey(o)));
      }
      forall p: PaymentId ensures SameRow(rows, rows', PaymentK(p)) {
        assert !MayWrite(op, PaymentK(p));
      }
      assert forall o :: IsPaid(rows', o) <==> IsPaid(rows, o) by {
        assert forall o :: SameRow(rows, rows', OrderK(o));
      }
      assert forall p, o :: IsApproved(rows', p, o) <==> IsApproved(rows, p, o) by {
        assert forall p :: SameRow(rows, rows', PaymentK(p));
      }
    }
  }

  lemma OrdersUnpaying(op: Op, db: Db, seen: Seen)
    requires op.Checkout? || op.Terminate? || op.CreateOrder?
    requires Effect(op, db, seen).Some? && Framed(op, db, Effect(op, db, seen).value)
    ensures Unpaying(db.rows, Effect(op, db, seen).value.rows)
  {
    hide MayWrite;
    var rows, rows' := db.rows, Effect(op, db, seen).value.rows;
    assert forall o :: IsPaid(rows', o) <==> IsPaid(rows, o);
  }

  lemma PayKeeps(op: Op, db: Db, seen: Seen)
    requires PayInv(db.rows) && Effect(op, db, seen).Some?
    ensures PayInv(Effect(op, db, seen).value.rows)
  {
    hide PayInv, Unpaying, Pays, ApprovePayment;
    var rows' := Effect(op, db, seen).value.rows;
    if op.Approve? {
      ApprovePays(db, op.payment);
      if InFlight(db, op.payment) {
        PaysKeeps(db.rows, op.payment, rows');
      }
    } else {
      OthersUnpaying(op, db, seen);
      UnpayingKeeps(db.rows, rows');
    }
  }
}
