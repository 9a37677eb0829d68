/** What a transaction under READ COMMITTED has done so far is a function of the committed rows it
    has locked: running its statements again on the current rows gives the same writes. */
module Replay {
  import opened Database
  import opened Statements

  /** The first `n` statements of a transaction, run with nothing in between. */
  ghost function Rerun(prog: seq<Stmt>, l: Locals, obs: seq<Obs>, n: nat, rows: Rows): Trace
    requires n <= |obs| <= |prog|
  {
    if n == 0 then Running(map[], [], l)
    else
      var t := Rerun(prog, l, obs, n - 1, rows);
      if t.Running? then Exec(prog[n - 1], rows, t, obs[n - 1]) else t
  }

  /** COMMIT. */
  ghost function Apply(db: Db, t: Trace): Db
    requires t.Running?
  {
    Db(db.rows + t.p, db.ledger + t.log)
  }

  ghost predicate Agree(rows: Rows, rows': Rows, keys: set<Key>) {
    forall k | k in keys :: SameRow(rows, rows', k)
  }

  ghost predicate Forward(rows: Rows, p: Rows) {
    forall k | k in p && k in rows :: Later(rows[k], p[k])
  }

  lemma LaterTransitive(a: Row, b: Row, c: Row)
    requires Later(a, b) && Later(b, c)
    ensures Later(a, c)
  {
  }

  lemma EvolvesReflexive(rows: Rows)
    ensures Evolves(rows, rows)
  {
  }

  lemma EvolvesTransitive(a: Rows, b: Rows, c: Rows)
    requires Evolves(a, b) && Evolves(b, c)
    ensures Evolves(a, c)
  {
    forall k | k in a ensures k in c && Later(a[k], c[k]) {
      LaterTransitive(a[k], b[k], c[k]);
    }
  }

  /** What a statement writes is under the key it locks and moves that row forward. */
  ghost predicate Sound(s: Stmt, view: Rows, l: Locals, d: Done) {
    match d
    case Wrote(k, row, _) => k == KeyOf(s, l) && Fits(k, row) && (k in view ==> Later(view[k], row))
    case Logged(e, _) => EntryK(e.key) == KeyOf(s, l) && EntryK(e.key) !in view
    case _ => true
  }

  lemma CreateSound(s: Stmt, view: Rows, l: Locals)
    ensures Sound(s, view, l, Create(s, view, l))
  {
  }

  lemma UpdateSound(s: Stmt, view: Rows, l: Locals)
    ensures Sound(s, view, l, Update(s, view, l))
  {
  }

  lemma CloseSound(s: Stmt, view: Rows, l: Locals)
    ensures Sound(s, view, l, Close(s, view, l))
  {
  }

  lemma MaybeSound(s: Stmt, view: Rows, l: Locals, o: Obs)
    ensures Sound(s, view, l, Maybe(s, view, l, o))
  {
  }

  lemma FindSound(s: Stmt, view: Rows, l: Locals, o: Obs)
    requires !Locks(s)
    ensures var d := Find(s, view, l, o); d.Skip? || d.Abort?
  {
  }

  lemma DoSound(s: Stmt, view: Rows, l: Locals, o: Obs)
    ensures Sound(s, view, l, Do(s, view, l, o))
    ensures !Locks(s) ==> !Do(s, view, l, o).Wrote? && !Do(s, view, l, o).Logged? && !Do(s, view, l, o).Stop?
  {
    hide Create, Update, Close, Maybe, Find;
    CreateSound(s, view, l);
    UpdateSound(s, view, l);
    CloseSound(s, view, l);
    MaybeSound(s, view, l, o);
    if !Locks(s) {
      FindSound(s, view, l, o);
    }
  }

  lemma ExecForward(s: Stmt, rows: Rows, t: Trace, o: Obs)
    requires t.Running? && Forward(rows, t.p) && Exec(s, rows, t, o).Running?
    ensures Forward(rows, Exec(s, rows, t, o).p) && t.p.Keys <= Exec(s, rows, t, o).p.Keys
  {
    hide Do;
    DoSound(s, rows + t.p, t.l, o);
    var d := Do(s, rows + t.p, t.l, o);
    if d.Wrote? && d.k in rows && d.k in t.p {
      LaterTransitive(rows[d.k], t.p[d.k], d.row);
    }
  }

  lemma MaybeLocal(s: Stmt, view: Rows, view': Rows, l: Locals, o: Obs)
    requires !Maybe(s, view, l, o).Abort?
    requires Maybe(s, view, l, o).Wrote? ==> SameRow(view, view', KeyOf(s, l))
    ensures Maybe(s, view', l, o) == Maybe(s, view, l, o)
  {
  }

  lemma CreateLocal(s: Stmt, view: Rows, view': Rows, l: Locals)
    requires Create(s, view, l).Skip? || SameRow(view, view', KeyOf(s, l))
    ensures Create(s, view', l) == Create(s, view, l)
  {
  }

  lemma UpdateLocal(s: Stmt, view: Rows, view': Rows, l: Locals)
    requires var d := Update(s, view, l); d.Skip? || ((d.Wrote? || d.Logged?) && SameRow(view, view', KeyOf(s, l)))
    ensures Update(s, view', l) == Update(s, view, l)
  {
    hide KeyOf;
  }

  lemma CloseLocal(s: Stmt, view: Rows, view': Rows, l: Locals)
    requires var d := Close(s, view, l); d.Skip? || ((d.Wrote? || d.Logged?) && SameRow(view, view', KeyOf(s, l)))
    ensures Close(s, view', l) == Close(s, view, l)
  {
  }

  /** The one row a locking statement looks at is the row it writes, unless it does nothing. */
  lemma DoLocal(s: Stmt, view: Rows, view': Rows, l: Locals, o: Obs)
    requires Locks(s)
    requires var d := Do(s, view, l, o);
             d.Skip? || ((d.Wrote? || d.Logged?) && SameRow(view, view', KeyOf(s, l)))
    ensures Do(s, view', l, o) == Do(s, view, l, o)
  {
    hide Create, Maybe, Update, Close;
    match s
    case Debit | Credit | SetStatus(_, _) | PayOrder | BumpProgress => UpdateLocal(s, view, view', l);
    case CloseHold(_, _) | FailUnlessCompleted(_) | ClosePayment(_, _) | CloseSession(_) | ExpireOpen(_) =>
      CloseLocal(s, view, view', l);
    case TakeUnlock(_, _) | CancelOrder | ConsumeOffer(_) | ResetFlash => MaybeLocal(s, view, view', l, o);
    case _ => CreateLocal(s, view, view', l);
  }

  lemma FindStable(s: Stmt, view: Rows, view': Rows, l: Locals, o: Obs)
    requires !Locks(s) && Find(s, view, l, o).Skip? && Evolves(view, view')
    requires s.ReadBack? ==> SameRow(view, view', KeyOf(s, l))
    ensures Find(s, view', l, o) == Find(s, view, l, o)
  {
    var k := KeyOf(s, l);
    if Found(view, o, k) {
      LaterTransitive(o.row, view[k], view'[k]);
    }
  }

  lemma ViewsEvolve(rows: Rows, rows': Rows, p: Rows)
    requires Evolves(rows, rows')
    ensures Evolves(rows + p, rows' + p)
  {
    forall k | k in p ensures Later(p[k], p[k]) {
    }
  }

  lemma DoFinds(s: Stmt, view: Rows, l: Locals, o: Obs)
    requires !Locks(s)
    ensures Do(s, view, l, o) == Find(s, view, l, o)
  {
    hide Find;
  }

  lemma LocksStable(s: Stmt, rows: Rows, rows': Rows, t: Trace, o: Obs)
    requires t.Running? && Exec(s, rows, t, o).Running? && Locks(s)
    requires Agree(rows, rows', Exec(s, rows, t, o).p.Keys)
    ensures Do(s, rows' + t.p, t.l, o) == Do(s, rows + t.p, t.l, o)
  {
    hide Do, KeyOf, Later, Locks;
    DoSound(s, rows + t.p, t.l, o);
    DoLocal(s, rows + t.p, rows' + t.p, t.l, o);
  }

  lemma FindsStable(s: Stmt, rows: Rows, rows': Rows, t: Trace, o: Obs)
    requires t.Running? && Exec(s, rows, t, o).Running? && !Locks(s) && Evolves(rows, rows')
    ensures Do(s, rows' + t.p, t.l, o) == Do(s, rows + t.p, t.l, o)
  {
    hide Do, KeyOf, Find, Later, Locks;
    DoSound(s, rows + t.p, t.l, o);
    ViewsEvolve(rows, rows', t.p);
    DoFinds(s, rows + t.p, t.l, o);
    DoFinds(s, rows' + t.p, t.l, o);
    FindStable(s, rows + t.p, rows' + t.p, t.l, o);
  }

  /** A statement that ran once runs the same on any later state that agrees on its locked rows. */
  lemma ExecStable(s: Stmt, rows: Rows, rows': Rows, t: Trace, o: Obs)
    requires t.Running? && Exec(s, rows, t, o).Running?
    requires Evolves(rows, rows') && Agree(rows, rows', Exec(s, rows, t, o).p.Keys)
    ensures Exec(s, rows', t, o) == Exec(s, rows, t, o)
  {
    hide Do, KeyOf, Later, Locks, Evolves, Agree, Fits;
    if Locks(s) {
      LocksStable(s, rows, rows', t, o);
    } else {
      FindsStable(s, rows, rows', t, o);
    }
  }

  /** Writes only accumulate and only move rows forward. */
  lemma {:induction false} RerunExtends(prog: seq<Stmt>, l: Locals, obs: seq<Obs>, n: nat, rows: Rows)
    requires n <= |obs| <= |prog| && Rerun(prog, l, obs, n, rows).Running?
    ensures Forward(rows, Rerun(prog, l, obs, n, rows).p)
    ensures n > 0 ==> Rerun(prog, l, obs, n - 1, rows).Running?
                      && Rerun(prog, l, obs, n - 1, rows).p.Keys <= Rerun(prog, l, obs, n, rows).p.Keys
  {
    hide Exec;
    if n > 0 {
      RerunExtends(prog, l, obs, n - 1, rows);
      ExecForward(prog[n - 1], rows, Rerun(prog, l, obs, n - 1, rows), obs[n - 1]);
    }
  }

  /** Other transactions may commit: as long as they leave the locked rows alone, rerunning on the
      new state gives the same writes. This is what makes the moment of commit the serialization point. */
  lemma {:induction false} RerunStable(prog: seq<Stmt>, l: Locals, obs: seq<Obs>, n: nat, rows: Rows, rows': Rows)
    requires n <= |obs| <= |prog| && Rerun(prog, l, obs, n, rows).Running?
    requires Evolves(rows, rows') && Agree(rows, rows', Rerun(prog, l, obs, n, rows).p.Keys)
    ensures Rerun(prog, l, obs, n, rows') == Rerun(prog, l, obs, n, rows)
  {
    hide Exec;
    if n > 0 {
      RerunExtends(prog, l, obs, n, rows);
      RerunStable(prog, l, obs, n - 1, rows, rows');
      ExecStable(prog[n - 1], rows, rows', Rerun(prog, l, obs, n - 1, rows), obs[n - 1]);
    }
  }

  lemma {:induction false} RerunPrefix(prog: seq<Stmt>, l: Locals, obs: seq<Obs>, more: seq<Obs>, n: nat, rows: Rows)
    requires n <= |obs| <= |more| <= |prog| && more[..|obs|] == obs
    ensures Rerun(prog, l, more, n, rows) == Rerun(prog, l, obs, n, rows)
  {
    hide Exec;
    if n > 0 {
      assert more[n - 1] == more[..|obs|][n - 1] == obs[n - 1];
      RerunPrefix(prog, l, obs, more, n - 1, rows);
    }
  }

  /** A commit only moves rows forward. */
  lemma ApplyEvolves(db: Db, t: Trace)
    requires t.Running? && Forward(db.rows, t.p)
    ensures Evolves(db.rows, Apply(db, t).rows)
  {
    forall k | k in db.rows ensures k in Apply(db, t).rows && Later(db.rows[k], Apply(db, t).rows[k]) {
      if k in t.p {
        assert Later(db.rows[k], t.p[k]);
      } else {
        var row := db.rows[k];
        assert Later(row, row);
      }
    }
  }
}
