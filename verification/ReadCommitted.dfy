/** The same system with transaction bodies interleaved statement by statement under READ COMMITTED
    (section 13.2.1 of the PostgreSQL documentation): a plain SELECT sees the last committed row or
    the transaction's own write, a statement that writes waits for the lock of its row and then works
    on that row's last committed version, a conditional UPDATE that matches no committed row waits for
    nobody, and locks are held to the end of the transaction. */
module ReadCommitted {
  import opened Database
  import opened Statements
  import opened Atomic
  import opened Replay
  import opened Serial
  import opened Handlers

  /** An open transaction: its statements so far, what each found, and what it has not committed. */
  datatype Tx = Tx(op: Op, obs: seq<Obs>, t: Trace)

  /** Each handler has at most one transaction open. */
  datatype Server = Server(sys: System, txs: map<HandlerId, Tx>)

  datatype Event =
    | Begin(h: HandlerId, op: Op)
    | Statement(h: HandlerId)
    | CommitTx(h: HandlerId)
    | Rollback(h: HandlerId)
    | Other(m: Move)

  predicate Locked(s: Server, h: HandlerId, k: Key) {
    exists g :: g in s.txs && g != h && s.txs[g].t.Running? && k in s.txs[g].t.p
  }

  ghost predicate Steps(s: Server, e: Event, s': Server) {
    match e
    case Begin(h, op) =>
      && h in s.sys.handlers && h !in s.txs && Wants(s.sys.handlers[h], op)
      && s' == s.(txs := s.txs[h := Tx(op, [], Running(map[], [], Start(op)))])
    case Statement(h) => h in s.txs && Advances(s, h, s')
    case CommitTx(h) =>
      && h in s.txs && h in s.sys.handlers && s.txs[h].t.Running?
      && |s.txs[h].obs| == |Program(s.txs[h].op)| && Wants(s.sys.handlers[h], s.txs[h].op)
      && s' == Server(System(Apply(s.sys.db, s.txs[h].t),
                             Resume(s.sys.handlers, h, After(s.sys.handlers[h], s.txs[h].op)), s.sys.jobs),
                      s.txs - {h})
    case Rollback(h) => h in s.txs && s' == Dropped(s, h)
    case Other(m) => !m.Commit? && m.h !in s.txs && Moves(s.sys, m, s'.sys) && s'.txs == s.txs
  }

  function Dropped(s: Server, h: HandlerId): Server {
    Server(s.sys.(handlers := s.sys.handlers - {h}), s.txs - {h})
  }

  /** One more statement of an open transaction: only one that writes needs the lock. An early return
      commits on the spot: the transaction holds no lock by then, so nobody can tell when its COMMIT
      arrives. */
  ghost predicate Advances(s: Server, h: HandlerId, s': Server)
    requires h in s.txs
  {
    var tx := s.txs[h];
    && tx.t.Running? && h in s.sys.handlers && |tx.obs| < |Program(tx.op)| && Wants(s.sys.handlers[h], tx.op)
    && var stmt := Program(tx.op)[|tx.obs|];
       var k := KeyOf(stmt, tx.t.l);
       var view := s.sys.db.rows + tx.t.p;
       var o := if k in view then Present(view[k]) else Absent;
       var t := Exec(stmt, s.sys.db.rows, tx.t, o);
       && (t.Running? && k in t.p ==> !Locked(s, h, k))
       && match t
          case Running(_, _, _) => s' == s.(txs := s.txs[h := Tx(tx.op, tx.obs + [o], t)])
          case Stopped =>
            s' == Server(s.sys.(handlers := Resume(s.sys.handlers, h, After(s.sys.handlers[h], tx.op))), s.txs - {h})
          case Aborted => s' == Dropped(s, h)
  }

  /** Each open transaction is what its statements would give on the rows committed now. */
  ghost predicate Current(s: Server, h: HandlerId)
    requires h in s.txs
  {
    var tx := s.txs[h];
    && h in s.sys.handlers && Wants(s.sys.handlers[h], tx.op)
    && |tx.obs| <= |Program(tx.op)| && tx.t.Running? && Full(tx.op, tx.obs, |tx.obs|, s.sys.db.rows) == tx.t
  }

  /** No row is written by two open transactions. */
  ghost predicate Exclusive(s: Server) {
    forall h, k | h in s.txs && s.txs[h].t.Running? && k in s.txs[h].t.p :: !Locked(s, h, k)
  }

  ghost predicate Consistent(s: Server) {
    (forall h | h in s.txs :: Current(s, h)) && Exclusive(s)
  }

  /** Other transactions survive a commit that respects their locks. */
  lemma StaysCurrent(s: Server, h: HandlerId, g: HandlerId, s': Server)
    requires Consistent(s) && h in s.txs && g in s.txs && g != h && Steps(s, CommitTx(h), s')
    ensures g in s'.txs && Current(s', g)
  {
    hide Exec, Program, Start;
    var tx := s.txs[g];
    var t := s.txs[h].t;
    assert Current(s, h) && Current(s, g);
    RerunExtends(Program(s.txs[h].op), Start(s.txs[h].op), s.txs[h].obs, |s.txs[h].obs|, s.sys.db.rows);
    ApplyEvolves(s.sys.db, t);
    forall k | k in tx.t.p ensures k !in t.p {
      assert !Locked(s, g, k);
    }
    RerunStable(Program(tx.op), Start(tx.op), tx.obs, |tx.obs|, s.sys.db.rows, s'.sys.db.rows);
  }

  lemma ExecWrites(stmt: Stmt, rows: Rows, t: Trace, o: Obs)
    requires t.Running? && Exec(stmt, rows, t, o).Running?
    ensures forall k | k in Exec(stmt, rows, t, o).p :: k in t.p || k == KeyOf(stmt, t.l)
  {
    hide Do, KeyOf;
    DoSound(stmt, rows + t.p, t.l, o);
  }

  lemma AdvanceConsistent(s: Server, h: HandlerId, s': Server)
    requires Consistent(s) && h in s.txs && Advances(s, h, s') && h in s'.txs && s'.sys == s.sys
    ensures Consistent(s')
  {
    hide Exec, Program, Start, KeyOf;
    var tx, tx' := s.txs[h], s'.txs[h];
    assert Current(s, h);
    var n := |tx.obs|;
    var stmt := Program(tx.op)[n];
    assert tx'.t == Exec(stmt, s.sys.db.rows, tx.t, tx'.obs[n]) && tx'.obs[..n] == tx.obs;
    RerunPrefix(Program(tx.op), Start(tx.op), tx.obs, tx'.obs, n, s.sys.db.rows);
    assert Current(s', h);
    ExecWrites(stmt, s.sys.db.rows, tx.t, tx'.obs[n]);
    forall g | g in s'.txs && g != h ensures Current(s', g) {
      assert Current(s, g);
    }
    forall g, k | g in s'.txs && s'.txs[g].t.Running? && k in s'.txs[g].t.p ensures !Locked(s', g, k) {
      if g == h {
        assert k in tx.t.p ==> !Locked(s, h, k);
      } else {
        assert !Locked(s, g, k);
        assert k !in tx.t.p;
        assert k in tx'.t.p ==> Locked(s, h, k);
      }
    }
  }

  lemma CloseConsistent(s: Server, h: HandlerId, s': Server)
    requires Consistent(s) && h in s.txs && s'.txs == s.txs - {h}
    requires forall g | g in s'.txs :: Current(s', g)
    ensures Consistent(s')
  {
    hide Exec, Program, Start;
    forall g, k | g in s'.txs && s'.txs[g].t.Running? && k in s'.txs[g].t.p ensures !Locked(s', g, k) {
      assert !Locked(s, g, k);
    }
  }

  /** A transaction leaves (early return, rollback) without touching the committed rows. */
  lemma LeaveConsistent(s: Server, h: HandlerId, s': Server)
    requires Consistent(s) && h in s.txs && s'.txs == s.txs - {h} && s'.sys.db == s.sys.db
    requires forall g | g != h && g in s.sys.handlers :: g in s'.sys.handlers && s'.sys.handlers[g] == s.sys.handlers[g]
    ensures Consistent(s')
  {
    hide Exec, Program, Start, Full;
    forall g | g in s'.txs ensures Current(s', g) {
      assert Current(s, g);
    }
    CloseConsistent(s, h, s');
  }

  /** A statement changes nothing that is committed, or ends its transaction as one atomic step. */
  lemma StatementRefines(s: Server, h: HandlerId, s': Server)
    requires Consistent(s) && Steps(s, Statement(h), s')
    ensures Consistent(s') && (s'.sys == s.sys || Next(s.sys, s'.sys))
  {
    hide Exec, Program, Start, Full, KeyOf, Committed;
    var tx := s.txs[h];
    assert Current(s, h);
    if h in s'.txs {
      AdvanceConsistent(s, h, s');
    } else {
      LeaveConsistent(s, h, s');
      if s' == Dropped(s, h) {
        assert Moves(s.sys, Halt(h), s'.sys);
      } else {
        var stmt := Program(tx.op)[|tx.obs|];
        var view := s.sys.db.rows + tx.t.p;
        var k := KeyOf(stmt, tx.t.l);
        StopIsIdle(tx.op, tx.obs, if k in view then Present(view[k]) else Absent, s.sys.db);
        assert Moves(s.sys, Commit(h, tx.op), s'.sys);
      }
    }
  }

  lemma CommitRefines(s: Server, h: HandlerId, s': Server)
    requires Consistent(s) && Steps(s, CommitTx(h), s')
    ensures Consistent(s') && Next(s.sys, s'.sys)
  {
    hide Exec, Program, Start, Full, Committed;
    var tx := s.txs[h];
    assert Current(s, h);
    Serializable(tx.op, tx.obs, s.sys.db);
    assert Moves(s.sys, Commit(h, tx.op), s'.sys);
    forall g | g in s'.txs ensures Current(s', g) {
      StaysCurrent(s, h, g, s');
    }
    CloseConsistent(s, h, s');
  }

  lemma OtherRefines(s: Server, e: Event, s': Server)
    requires Consistent(s) && (e.Begin? || e.Other?) && Steps(s, e, s')
    ensures Consistent(s') && (s'.sys == s.sys || Next(s.sys, s'.sys))
  {
    hide Exec, Program, Start, Committed;
    forall g | g in s'.txs ensures Current(s', g) {
      if g in s.txs {
        assert Current(s, g);
      }
    }
    forall g, k | g in s'.txs && s'.txs[g].t.Running? && k in s'.txs[g].t.p ensures !Locked(s', g, k) {
      assert !Locked(s, g, k);
    }
  }

  /** READ COMMITTED refines the system of atomic transactions: one interleaved step is one atomic
      transaction, a step of a handler, or nothing. */
  lemma Refines(s: Server, e: Event, s': Server)
    requires Consistent(s) && Steps(s, e, s')
    ensures Consistent(s') && (s'.sys == s.sys || Next(s.sys, s'.sys))
  {
    hide Exec, Program, Start, Full, Committed, Advances;
    match e
    case Statement(h) => StatementRefines(s, h, s');
    case CommitTx(h) => CommitRefines(s, h, s');
    case Rollback(h) =>
      assert Current(s, h);
      LeaveConsistent(s, h, s');
      assert Moves(s.sys, Halt(h), s'.sys);
    case _ => OtherRefines(s, e, s');
  }
}
