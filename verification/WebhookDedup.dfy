/** What the table of webhook events does to money. A delivery commits its event row first and runs the
    payment transaction later; in between it may stop, and the transaction may abort. */
module WebhookDedup {
  import opened Database
  import opened Statements
  import opened Atomic
  import opened PaymentsService
  import Replay

  type DeliveryId = nat

  /** `Receive` inserts the event row, `Settle` is everything after it, `Drop` is a crash or an aborted
      payment transaction. `Other` is any other transaction: checkouts, confirmations, submits. */
  datatype Action =
    | Receive(h: DeliveryId, event: EventId)
    | Settle(h: DeliveryId)
    | Drop(h: DeliveryId)
    | Other(op: Op, seen: Seen)

  /** The tables, the recorded events, and the deliveries past their event row. */
  datatype Inbox = Inbox(db: Db, events: set<EventId>, open: map<DeliveryId, EventId>)

  function After(db: Db, op: Op, seen: Seen): Db {
    var effect := Effect(op, db, seen);
    if effect.Some? then effect.value else db
  }

  /** One action with (`dedup`) or without the check for an event already received. `content` is
      what each event says: the event id names transaction, status and timestamp. */
  function Take(dedup: bool, s: Inbox, a: Action, content: EventId -> Transaction): Inbox {
    match a
    case Receive(h, e) =>
      if dedup && e in s.events then s.(open := s.open - {h}) else Inbox(s.db, s.events + {e}, s.open[h := e])
    case Settle(h) => if h in s.open then Inbox(Process(s.db, content(s.open[h])), s.events, s.open - {h}) else s
    case Drop(h) => s.(open := s.open - {h})
    case Other(op, seen) => s.(db := After(s.db, op, seen))
  }

  function Run(dedup: bool, s: Inbox, trace: seq<Action>, content: EventId -> Transaction): Inbox {
    if trace == [] then s
    else Take(dedup, Run(dedup, s, trace[..|trace| - 1], content), trace[|trace| - 1], content)
  }

  function Start(db: Db): Inbox {
    Inbox(db, {}, map[])
  }

  /** What `HandleWebhook` does to the tables and the recorded events is these two actions. */
  lemma DeliveryIsTwoActions(s: Inbox, h: DeliveryId, e: EventId, content: EventId -> Transaction, stop: bool)
    requires h !in s.open
    ensures var s' := Take(true, Take(true, s, Receive(h, e), content), if stop then Drop(h) else Settle(h), content);
            && s'.events == s.events + {e} && s'.open == s.open
            && s'.db == if e in s.events || stop then s.db else Process(s.db, content(e))
  {
    assert s.open - {h} == s.open && s.open[h := e] - {h} == s.open;
  }

  // ---------- When one skipped delivery costs nothing ----------

  /** What a later repetition of `t` would find nothing to do about. */
  predicate HasNothingToDo(db: Db, t: Transaction) {
    var k := PaymentK(t.reference);
    !(&& k in db.rows && SameAmount(db, t) && Terminal(t.status).Some? && InFlight(db, t.reference)
      && (Terminal(t.status) == Some(Approved) ==>
            var o := OrderK(db.rows[k].order);
            o in db.rows && WalletK(db.rows[o].user) in db.rows && EntryK(PurchaseKey(db.rows[k].order)) !in db.rows))
  }

  /** The exact guard of one skip. */
  lemma SkipIsFreeIff(db: Db, t: Transaction)
    ensures Process(db, t) == db <==> HasNothingToDo(db, t)
  {
    var k := PaymentK(t.reference);
    if !HasNothingToDo(db, t) {
      assert Process(db, t).rows[k].state != InProgress;
    }
  }

  // ---------- When all of them do ----------

  /** Action `n` is the second half of a delivery that the check skipped. */
  ghost predicate Skipped(db: Db, trace: seq<Action>, n: nat, content: EventId -> Transaction)
    requires n < |trace|
  {
    && trace[n].Settle?
    && trace[n].h in Run(false, Start(db), trace[..n], content).open
    && trace[n].h !in Run(true, Start(db), trace[..n], content).open
  }

  ghost function Event(db: Db, trace: seq<Action>, n: nat, content: EventId -> Transaction): EventId
    requires n < |trace| && Skipped(db, trace, n, content)
  {
    Run(false, Start(db), trace[..n], content).open[trace[n].h]
  }

  /** With and without the check, the tables are the same after every action up to `n`. */
  ghost predicate Agrees(db: Db, trace: seq<Action>, n: nat, content: EventId -> Transaction)
    requires n <= |trace|
  {
    Run(true, Start(db), trace[..n], content).db == Run(false, Start(db), trace[..n], content).db
  }

  /** Every skip up to `n` found nothing to do in the tables as they were. */
  ghost predicate SkipsAreFree(db: Db, trace: seq<Action>, n: nat, content: EventId -> Transaction)
    requires n <= |trace|
  {
    forall m: nat | m < n && Skipped(db, trace, m, content) ::
      HasNothingToDo(Run(true, Start(db), trace[..m], content).db, content(Event(db, trace, m, content)))
  }

  lemma Unroll(dedup: bool, s: Inbox, trace: seq<Action>, n: nat, content: EventId -> Transaction)
    requires n < |trace|
    ensures Run(dedup, s, trace[..n + 1], content) == Take(dedup, Run(dedup, s, trace[..n], content), trace[n], content)
  {
    assert trace[..n + 1][..n] == trace[..n];
  }

  /** The deliveries open with the check are open without it, for the same events. */
  lemma {:induction false} OpenWithout(db: Db, trace: seq<Action>, n: nat, content: EventId -> Transaction)
    requires n <= |trace|
    ensures var s, s' := Run(true, Start(db), trace[..n], content), Run(false, Start(db), trace[..n], content);
            forall h | h in s.open :: h in s'.open && s'.open[h] == s.open[h] && s.open[h] in s.events
  {
    hide Process, After;
    if n > 0 {
      OpenWithout(db, trace, n - 1, content);
      Unroll(true, Start(db), trace, n - 1, content);
      Unroll(false, Start(db), trace, n - 1, content);
    }
  }

  /** One action keeps the tables equal exactly when it is no skip that had something to do. */
  lemma AgreesNext(db: Db, trace: seq<Action>, n: nat, content: EventId -> Transaction)
    requires n < |trace| && Agrees(db, trace, n, content)
    ensures Agrees(db, trace, n + 1, content) <==>
            (Skipped(db, trace, n, content) ==>
               HasNothingToDo(Run(true, Start(db), trace[..n], content).db, content(Event(db, trace, n, content))))
  {
    hide Process, After, HasNothingToDo, Run;
    Unroll(true, Start(db), trace, n, content);
    Unroll(false, Start(db), trace, n, content);
    OpenWithout(db, trace, n, content);
    var s := Run(true, Start(db), trace[..n], content);
    if Skipped(db, trace, n, content) {
      SkipIsFreeIff(s.db, content(Event(db, trace, n, content)));
    }
  }

  /** For every trace of deliveries, with any duplicates, stops and aborts, among any other transactions:
      payments, orders, wallets and ledger are the same with and without the check, at every moment,
      exactly when each repetition that the check skips would have found nothing to do. */
  lemma {:induction false} DedupIsFreeIff(db: Db, trace: seq<Action>, n: nat, content: EventId -> Transaction)
    requires n <= |trace|
    ensures (forall m: nat | m <= n :: Agrees(db, trace, m, content)) <==> SkipsAreFree(db, trace, n, content)
  {
    hide Agrees, Skipped, HasNothingToDo, Run;
    if n == 0 {
      assert Agrees(db, trace, 0, content) by {
        NothingYet(db, trace, content);
      }
    } else {
      DedupIsFreeIff(db, trace, n - 1, content);
      if forall m: nat | m <= n - 1 :: Agrees(db, trace, m, content) {
        assert Agrees(db, trace, n - 1, content);
        AgreesNext(db, trace, n - 1, content);
        assert SkipsAreFree(db, trace, n, content) <==>
               (Skipped(db, trace, n - 1, content) ==>
                  HasNothingToDo(Run(true, Start(db), trace[..n - 1], content).db,
                                 content(Event(db, trace, n - 1, content))));
      }
    }
  }

  lemma NothingYet(db: Db, trace: seq<Action>, content: EventId -> Transaction)
    ensures Agrees(db, trace, 0, content)
  {
    assert trace[..0] == [];
  }

  // ---------- Overlapping duplicates that are caught up with ----------

  /** Settling an event twice in a row is settling it once. */
  lemma ProcessIsIdempotent(db: Db, t: Transaction)
    ensures Process(Process(db, t), t) == Process(db, t)
  {
    hide ApprovePayment, TerminatePayment;
    if Process(db, t) != db {
      ResolvedIsFinal(db, t.reference, Terminal(t.status).value);
    }
  }

  lemma ResolvedIsFinal(db: Db, p: PaymentId, to: FinalState)
    requires PaymentK(p) in db.rows && Resolution(db, p, to).Some?
    ensures var db' := Resolution(db, p, to).value;
            PaymentK(p) in db'.rows && !InFlight(db', p) && Resolution(db', p, to) == Some(db')
            && db'.rows[PaymentK(p)].cents == db.rows[PaymentK(p)].cents
            && db'.rows[PaymentK(p)].currency == db.rows[PaymentK(p)].currency
  {
  }

  /** Action `k` changes no table, with the check or without. */
  ghost predicate Quiet(db: Db, trace: seq<Action>, k: nat, content: EventId -> Transaction)
    requires k < |trace|
  {
    && Run(true, Start(db), trace[..k + 1], content).db == Run(true, Start(db), trace[..k], content).db
    && Run(false, Start(db), trace[..k + 1], content).db == Run(false, Start(db), trace[..k], content).db
  }

  /** The delivery that recorded the event of the skip at `m` is itself settled at `n`, and no table
      changes in between: the two deliveries overlapped. */
  ghost predicate CatchesUp(db: Db, trace: seq<Action>, m: nat, n: nat, content: EventId -> Transaction)
    requires m < n < |trace| && Skipped(db, trace, m, content)
  {
    && trace[n].Settle?
    && trace[n].h in Run(true, Start(db), trace[..n], content).open
    && Run(true, Start(db), trace[..n], content).open[trace[n].h] == Event(db, trace, m, content)
    && forall k: nat | m < k < n :: Quiet(db, trace, k, content)
  }

  ghost predicate IsCaughtUp(db: Db, trace: seq<Action>, m: nat, content: EventId -> Transaction)
    requires m < |trace| && Skipped(db, trace, m, content)
  {
    exists n: nat :: m < n < |trace| && CatchesUp(db, trace, m, n, content)
  }

  lemma {:induction false} QuietThroughout(db: Db, trace: seq<Action>, m: nat, n: nat, content: EventId -> Transaction)
    requires m < n < |trace| && forall k: nat | m < k < n :: Quiet(db, trace, k, content)
    ensures Run(true, Start(db), trace[..n], content).db == Run(true, Start(db), trace[..m + 1], content).db
    ensures Run(false, Start(db), trace[..n], content).db == Run(false, Start(db), trace[..m + 1], content).db
    decreases n
  {
    hide Run;
    if m + 1 < n {
      QuietThroughout(db, trace, m, n - 1, content);
      assert Quiet(db, trace, n - 1, content);
    }
  }

  /** An overlapping duplicate that is caught up with leaves no difference. */
  lemma CatchUpAgrees(db: Db, trace: seq<Action>, m: nat, n: nat, content: EventId -> Transaction)
    requires m < n < |trace| && Agrees(db, trace, m, content)
    requires Skipped(db, trace, m, content) && CatchesUp(db, trace, m, n, content)
    ensures Agrees(db, trace, n + 1, content)
  {
    hide Run, Process;
    var t := content(Event(db, trace, m, content));
    Unroll(true, Start(db), trace, m, content);
    Unroll(false, Start(db), trace, m, content);
    QuietThroughout(db, trace, m, n, content);
    OpenWithout(db, trace, n, content);
    Unroll(true, Start(db), trace, n, content);
    Unroll(false, Start(db), trace, n, content);
    ProcessIsIdempotent(Run(true, Start(db), trace[..m], content).db, t);
  }

  /** In the end the tables are the same with and without the check when each repetition that it skips
      had nothing to do, or overlapped with the delivery that recorded the event. */
  lemma {:induction false} AgreesInTheEnd(db: Db, trace: seq<Action>, n: nat, content: EventId -> Transaction)
    requires n <= |trace| && Agrees(db, trace, n, content)
    requires forall m: nat | n <= m < |trace| && Skipped(db, trace, m, content) ::
               || HasNothingToDo(Run(true, Start(db), trace[..m], content).db, content(Event(db, trace, m, content)))
               || IsCaughtUp(db, trace, m, content)
    ensures Run(true, Start(db), trace, content).db == Run(false, Start(db), trace, content).db
    decreases |trace| - n
  {
    hide Run, Skipped, HasNothingToDo, CatchesUp;
    if n == |trace| {
      assert trace[..n] == trace;
    } else {
      AgreesNext(db, trace, n, content);
      if Agrees(db, trace, n + 1, content) {
        AgreesInTheEnd(db, trace, n + 1, content);
      } else {
        var m: nat :| n < m < |trace| && CatchesUp(db, trace, n, m, content);
        CatchUpAgrees(db, trace, n, m, content);
        AgreesInTheEnd(db, trace, m + 1, content);
      }
    }
  }

  /** From the start of a trace. */
  lemma DedupIsFreeInTheEnd(db: Db, trace: seq<Action>, content: EventId -> Transaction)
    requires forall m: nat | m < |trace| && Skipped(db, trace, m, content) ::
               || HasNothingToDo(Run(true, Start(db), trace[..m], content).db, content(Event(db, trace, m, content)))
               || IsCaughtUp(db, trace, m, content)
    ensures Run(true, Start(db), trace, content).db == Run(false, Start(db), trace, content).db
  {
    hide Run, Skipped, HasNothingToDo, CatchesUp;
    NothingYet(db, trace, content);
    AgreesInTheEnd(db, trace, 0, content);
  }

  // ---------- Deliveries that are carried through ----------

  /** The payment of a delivery exists, and its buyer has a wallet. */
  predicate Deliverable(rows: Rows, t: Transaction) {
    && PaymentK(t.reference) in rows
    && OrderK(rows[PaymentK(t.reference)].order) in rows
    && WalletK(rows[OrderK(rows[PaymentK(t.reference)].order)].user) in rows
  }

  /** Delivering `t` again can change nothing, now or later. */
  ghost predicate Spent(db: Db, t: Transaction) {
    && PaymentK(t.reference) in db.rows
    && (|| !SameAmount(db, t)
        || Terminal(t.status).None?
        || !InFlight(db, t.reference)
        || (Terminal(t.status) == Some(Approved)
            && EntryK(PurchaseKey(db.rows[PaymentK(t.reference)].order)) in db.rows))
  }

  lemma SpentHasNothingToDo(db: Db, t: Transaction)
    requires Spent(db, t)
    ensures HasNothingToDo(db, t)
  {
  }

  lemma SpentLasts(rows: Rows, rows': Rows, db: Db, db': Db, t: Transaction)
    requires db.rows == rows && db'.rows == rows' && Evolves(rows, rows') && Spent(db, t)
    ensures Spent(db', t)
  {
    var k := PaymentK(t.reference);
    assert Later(rows[k], rows'[k]);
  }

  /** Once the payment transaction of a deliverable event has run, to its commit or to its refusal by
      the unique key of the purchase, the event is spent. */
  lemma SettledIsSpent(db: Db, t: Transaction)
    requires Deliverable(db.rows, t)
    ensures Spent(Process(db, t), t)
  {
  }

  lemma TakeEvolves(dedup: bool, s: Inbox, a: Action, content: EventId -> Transaction)
    ensures Evolves(s.db.rows, Take(dedup, s, a, content).db.rows)
  {
    hide Process, After, Evolves;
    Replay.EvolvesReflexive(s.db.rows);
    match a
    case Settle(h) =>
      if h in s.open {
        ProcessEvolves(s.db, content(s.open[h]));
      }
    case Other(op, seen) => AfterEvolves(s.db, op, seen);
    case _ =>
  }

  lemma {:induction false} SpentThroughout(dedup: bool, s: Inbox, trace: seq<Action>, m: nat, n: nat,
                                           content: EventId -> Transaction, t: Transaction)
    requires m <= n <= |trace| && Spent(Run(dedup, s, trace[..m], content).db, t)
    ensures Spent(Run(dedup, s, trace[..n], content).db, t)
    decreases n
  {
    hide Spent, Run, Take, Evolves;
    if m < n {
      SpentThroughout(dedup, s, trace, m, n - 1, content, t);
      Unroll(dedup, s, trace, n - 1, content);
      var before, after := Run(dedup, s, trace[..n - 1], content), Run(dedup, s, trace[..n], content);
      TakeEvolves(dedup, before, trace[n - 1], content);
      SpentLasts(before.db.rows, after.db.rows, before.db, after.db, t);
    }
  }

  /** Before action `n`, some delivery of event `e` that the check let through was carried to its end,
      and its payment row existed by then. */
  ghost predicate CarriedThrough(db: Db, trace: seq<Action>, n: nat, e: EventId, content: EventId -> Transaction)
    requires n <= |trace|
  {
    exists m: nat :: m < n && Carries(db, trace, m, e, content)
  }

  ghost predicate Carries(db: Db, trace: seq<Action>, m: nat, e: EventId, content: EventId -> Transaction)
    requires m < |trace|
  {
    var s := Run(true, Start(db), trace[..m], content);
    trace[m].Settle? && trace[m].h in s.open && s.open[trace[m].h] == e && Deliverable(s.db.rows, content(e))
  }

  lemma CarriedIsSpent(db: Db, trace: seq<Action>, n: nat, e: EventId, content: EventId -> Transaction)
    requires n <= |trace| && CarriedThrough(db, trace, n, e, content)
    ensures Spent(Run(true, Start(db), trace[..n], content).db, content(e))
  {
    hide Spent, Process, Run, Deliverable;
    var m: nat :| m < n && Carries(db, trace, m, e, content);
    var s := Run(true, Start(db), trace[..m], content);
    Unroll(true, Start(db), trace, m, content);
    SettledIsSpent(s.db, content(e));
    SpentThroughout(true, Start(db), trace, m + 1, n, content, content(e));
  }

  /** The check decides nothing when no recorded event is dropped: before each repetition that it skips
      is settled, the delivery that recorded the event was carried through, or the event was spent. */
  lemma DedupDecidesNothing(db: Db, trace: seq<Action>, content: EventId -> Transaction)
    requires forall n: nat | n < |trace| && Skipped(db, trace, n, content) ::
               var e := Event(db, trace, n, content);
               CarriedThrough(db, trace, n, e, content)
               || Spent(Run(true, Start(db), trace[..n], content).db, content(e))
    ensures forall n: nat | n <= |trace| :: Agrees(db, trace, n, content)
  {
    hide Agrees, Spent, HasNothingToDo, Skipped, CarriedThrough, Run;
    forall n: nat | n < |trace| && Skipped(db, trace, n, content)
      ensures HasNothingToDo(Run(true, Start(db), trace[..n], content).db, content(Event(db, trace, n, content)))
    {
      var e := Event(db, trace, n, content);
      if CarriedThrough(db, trace, n, e, content) {
        CarriedIsSpent(db, trace, n, e, content);
      }
      SpentHasNothingToDo(Run(true, Start(db), trace[..n], content).db, content(e));
    }
    DedupIsFreeIff(db, trace, |trace|, content);
  }

  lemma ProcessEvolves(db: Db, t: Transaction)
    ensures Evolves(db.rows, Process(db, t).rows)
  {
    hide ApprovePayment, TerminatePayment;
    var p := t.reference;
    Replay.EvolvesReflexive(db.rows);
    if PaymentK(p) in db.rows && SameAmount(db, t) && Terminal(t.status).Some? {
      var to := Terminal(t.status).value;
      if Resolution(db, p, to).Some? {
        var op := if to == Approved then Approve(p) else Terminate(p, to);
        var seen := Seen(0, Cancellable(db, p));
        assert Effect(op, db, seen) == Resolution(db, p, to);
        EffectFramed(op, db, seen);
      }
    }
  }

  lemma AfterEvolves(db: Db, op: Op, seen: Seen)
    ensures Evolves(db.rows, After(db, op, seen).rows)
  {
    hide Effect;
    Replay.EvolvesReflexive(db.rows);
    if Effect(op, db, seen).Some? {
      EffectFramed(op, db, seen);
    }
  }

  // ---------- Deliveries that are not ----------

  /** A delivery that stops after its event row, or whose payment transaction aborts, and is repeated:
      with the check the repetition is skipped and the tables never change; without it they do what the
      event says. The two agree exactly when the event had nothing to do. */
  lemma StoppedDeliveryIsLost(db: Db, h: DeliveryId, g: DeliveryId, e: EventId, content: EventId -> Transaction)
    ensures var trace := [Receive(h, e), Drop(h), Receive(g, e), Settle(g)];
            && Run(true, Start(db), trace, content).db == db
            && Run(false, Start(db), trace, content).db == Process(db, content(e))
            && (Process(db, content(e)) == db <==> HasNothingToDo(db, content(e)))
  {
    hide Process, HasNothingToDo;
    var trace := [Receive(h, e), Drop(h), Receive(g, e), Settle(g)];
    forall dedup: bool ensures Run(dedup, Start(db), trace, content) == Four(dedup, db, trace, content) {
      RunFour(dedup, db, trace, content);
    }
    SkipIsFreeIff(db, content(e));
  }

  function Four(dedup: bool, db: Db, trace: seq<Action>, content: EventId -> Transaction): Inbox
    requires |trace| == 4
  {
    var s := Take(dedup, Take(dedup, Start(db), trace[0], content), trace[1], content);
    Take(dedup, Take(dedup, s, trace[2], content), trace[3], content)
  }

  lemma RunFour(dedup: bool, db: Db, trace: seq<Action>, content: EventId -> Transaction)
    requires |trace| == 4
    ensures Run(dedup, Start(db), trace, content) == Four(dedup, db, trace, content)
  {
    hide Take;
    assert trace[..4] == trace && trace[..0] == [];
    Unroll(dedup, Start(db), trace, 3, content);
    Unroll(dedup, Start(db), trace, 2, content);
    Unroll(dedup, Start(db), trace, 1, content);
    Unroll(dedup, Start(db), trace, 0, content);
  }

  /** An approval that is delivered before its payment row exists is lost in the same way, carried
      through or not: `op` then creates the payment, and the repetition is skipped. */
  lemma EarlyDeliveryIsLost(db: Db, h: DeliveryId, g: DeliveryId, e: EventId, op: Op, seen: Seen,
                            content: EventId -> Transaction)
    requires PaymentK(content(e).reference) !in db.rows
    ensures var trace := [Receive(h, e), Settle(h), Other(op, seen), Receive(g, e)];
            var later := After(db, op, seen);
            && Run(true, Start(db), trace + [Settle(g)], content).db == later
            && Run(false, Start(db), trace + [Settle(g)], content).db == Process(later, content(e))
            && (Process(later, content(e)) == later <==> HasNothingToDo(later, content(e)))
  {
    var trace := [Receive(h, e), Settle(h), Other(op, seen), Receive(g, e)];
    assert Process(db, content(e)) == db;
    hide Process, HasNothingToDo, After, Run;
    forall dedup: bool ensures Run(dedup, Start(db), trace + [Settle(g)], content)
                               == Take(dedup, Four(dedup, db, trace, content), Settle(g), content)
    {
      RunFour(dedup, db, trace, content);
      Unroll(dedup, Start(db), trace + [Settle(g)], 4, content);
      assert (trace + [Settle(g)])[..4] == trace && (trace + [Settle(g)])[..5] == trace + [Settle(g)];
    }
    SkipIsFreeIff(After(db, op, seen), content(e));
  }

  /** A paid order that is never credited: its one approval stopped after the event row. */
  lemma StoppedApprovalCosts(h: DeliveryId, g: DeliveryId)
    ensures var order := OrderRow(1, "PACK", 100, None, None, 10, 100, "COP", Unpaid);
            var payment := PaymentRow(1, 100, "COP", InProgress);
            var db := Db(map[WalletK(1) := WalletRow(0), OrderK(1) := order, PaymentK(1) := payment], []);
            var content := (e: EventId) => Transaction(1, WompiApproved, 100, "COP");
            var trace := [Receive(h, 7), Drop(h), Receive(g, 7), Settle(g)];
            && Balance(Run(true, Start(db), trace, content).db, 1) == 0
            && Balance(Run(false, Start(db), trace, content).db, 1) == 10
  {
    var order := OrderRow(1, "PACK", 100, None, None, 10, 100, "COP", Unpaid);
    var payment := PaymentRow(1, 100, "COP", InProgress);
    var db := Db(map[WalletK(1) := WalletRow(0), OrderK(1) := order, PaymentK(1) := payment], []);
    var content := (e: EventId) => Transaction(1, WompiApproved, 100, "COP");
    assert Deliverable(db.rows, content(7)) && InFlight(db, 1) && SameAmount(db, content(7));
    hide Run, Process, HasNothingToDo, Deliverable, SameAmount;
    StoppedDeliveryIsLost(db, h, g, 7, content);
    Credits(db, content(7));
  }

  lemma Credits(db: Db, t: Transaction)
    requires Deliverable(db.rows, t) && InFlight(db, t.reference) && SameAmount(db, t)
             && Terminal(t.status) == Some(Approved)
    requires EntryK(PurchaseKey(db.rows[PaymentK(t.reference)].order)) !in db.rows
    ensures var order := db.rows[OrderK(db.rows[PaymentK(t.reference)].order)];
            Balance(Process(db, t), order.user) == Balance(db, order.user) + order.credits
  {
  }
}
