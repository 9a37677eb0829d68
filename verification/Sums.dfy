/** Totals over maps and over the ledger. */
module Sums {
  import opened Database

  /** The sum of the values of a map. */
  ghost function Total<K(!new)>(m: map<K, int>): int
    decreases |m|
  {
    if m == map[] then 0
    else
      var k :| k in m;
      m[k] + Total(m - {k})
  }

  lemma {:induction false} TotalRemove<K(!new)>(m: map<K, int>, k: K)
    requires k in m
    ensures Total(m) == m[k] + Total(m - {k})
    decreases |m|
  {
    var j :| j in m && Total(m) == m[j] + Total(m - {j});
    if j != k {
      TotalRemove(m - {j}, k);
      TotalRemove(m - {k}, j);
      assert m - {j} - {k} == m - {k} - {j};
    }
  }

  lemma TotalPut<K(!new)>(m: map<K, int>, k: K, v: int)
    ensures Total(m[k := v]) == Total(m - {k}) + v
    ensures Total(m) == Total(m - {k}) + if k in m then m[k] else 0
  {
    TotalRemove(m[k := v], k);
    assert m[k := v] - {k} == m - {k};
    if k in m {
      TotalRemove(m, k);
    } else {
      assert m - {k} == m;
    }
  }

  /** A set that maps one to one into another is no larger. */
  lemma {:induction false} InjectionSize<A(!new), B(!new)>(s: set<A>, f: map<A, B>, t: set<B>)
    requires forall a | a in s :: a in f && f[a] in t
    requires forall a, b | a in s && b in s && a != b :: f[a] != f[b]
    ensures |s| <= |t|
    decreases s
  {
    if a :| a in s {
      InjectionSize(s - {a}, f, t - {f[a]});
    }
  }

  /** Which ledger entries a sum is over. */
  datatype Selector = OfUser(user: UserId) | IncomeOf(user: UserId) | OfReading(reading: ReadingId)

  predicate IsIncome(k: IdemKey) {
    k.BonusKey? || k.PurchaseKey? || k.AdjustmentKey?
  }

  predicate About(k: IdemKey, r: ReadingId) {
    k == ReservationKey(r) || k == ConsumptionKey(r) || k == ReleaseKey(r)
  }

  predicate Selects(sel: Selector, e: Entry) {
    match sel
    case OfUser(u) => e.user == u
    case IncomeOf(u) => e.user == u && IsIncome(e.key)
    case OfReading(r) => About(e.key, r)
  }

  function Sum(ledger: seq<Entry>, sel: Selector): int {
    if ledger == [] then 0
    else
      var e := ledger[|ledger| - 1];
      Sum(ledger[..|ledger| - 1], sel) + if Selects(sel, e) then e.amount else 0
  }

  lemma SumAppend(ledger: seq<Entry>, e: Entry, sel: Selector)
    ensures Sum(ledger + [e], sel) == Sum(ledger, sel) + if Selects(sel, e) then e.amount else 0
  {
    assert (ledger + [e])[..|ledger|] == ledger;
  }
}
