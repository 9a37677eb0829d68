/** The tables as code reaches them: mutable, shared by the services of one process. */
module Tables {
  import opened Database
  import opened Statements
  import opened Atomic

  /** The connection of one process: the tables as the open transaction sees them. */
  class Store {
    var rows: Rows
    var ledger: seq<Entry>

    constructor ()
      ensures Now() == EmptyDb
    {
      rows, ledger := map[], [];
    }

    function Now(): Db
      reads this
    {
      Db(rows, ledger)
    }

    /** INSERT under a unique key. */
    method Insert(k: Key, row: Row) returns (ok: bool)
      requires Fits(k, row)
      modifies this`rows
      ensures ok == InsertRow(old(Now()), k, row).Some?
      ensures rows == if ok then old(rows)[k := row] else old(rows)
      ensures ok ==> Now() == InsertRow(old(Now()), k, row).value
    {
      ok := k !in rows;
      if ok {
        rows := rows[k := row];
      }
    }

    /** Appends a wallet transaction. */
    method Log(key: IdemKey, u: UserId, amount: int, balanceAfter: int) returns (ok: bool)
      modifies this
      ensures ok == Record(old(Now()), key, u, amount, balanceAfter).Some?
      ensures Now() == if ok then Post(old(Now()), Entry(key, u, amount, balanceAfter)) else old(Now())
      ensures ok ==> Now() == Record(old(Now()), key, u, amount, balanceAfter).value
    {
      var e := Entry(key, u, amount, balanceAfter);
      ok := EntryK(key) !in rows;
      if ok {
        rows := rows[EntryK(key) := EntryRow(e)];
        ledger := ledger + [e];
      }
    }

    /** UPDATE of a wallet that holds at least `amount`. */
    method Debit(u: UserId, amount: nat) returns (ok: bool)
      modifies this`rows
      ensures ok == Debited(old(Now()), u, amount).Some?
      ensures Now() == if ok then Debited(old(Now()), u, amount).value else old(Now())
    {
      ok := WalletK(u) in rows && rows[WalletK(u)].balance >= amount;
      if ok {
        rows := rows[WalletK(u) := WalletRow(rows[WalletK(u)].balance - amount)];
      }
    }

    /** UPDATE of a wallet by its key. */
    method Credit(u: UserId, amount: int) returns (ok: bool)
      modifies this`rows
      ensures ok == Credited(old(Now()), u, amount).Some?
      ensures Now() == if ok then Credited(old(Now()), u, amount).value else old(Now())
    {
      ok := WalletK(u) in rows;
      if ok {
        rows := rows[WalletK(u) := WalletRow(rows[WalletK(u)].balance + amount)];
      }
    }

    method Rollback(before: Db)
      modifies this
      ensures Now() == before
    {
      rows, ledger := before.rows, before.ledger;
    }
  }

  /** The result of a transaction on the tables: its effect, or nothing. */
  predicate Atomically(before: Db, effect: Option<Db>, ok: bool, after: Db) {
    ok == effect.Some? && after == if ok then effect.value else before
  }
}
