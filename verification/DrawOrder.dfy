/** The order of a reading's cards: drawn in the order of the spread, stored without an order, and
    sorted again by the prompt, the reading's detail and the public summary. */
module DrawOrder {
  import opened Database
  import opened DrawEngine

  /** A position of a spread; `code` is unique within it, `orderIndex` need not be. */
  datatype Position = Position(code: string, orderIndex: int)

  /** `new Map(positions.map(p => [p.code, p.orderIndex]))`. */
  function OrderMap(positions: seq<Position>): map<string, int> {
    if positions == [] then map[]
    else
      var last := positions[|positions| - 1];
      OrderMap(positions[..|positions| - 1])[last.code := last.orderIndex]
  }

  /** `positionOrder.get(draw.position) ?? 0`. */
  function Rank(order: map<string, int>, d: TarotDraw): int {
    if d.position in order then order[d.position] else 0
  }

  /** Puts `d` behind every draw that does not rank after it. */
  function Insert(order: map<string, int>, sorted: seq<TarotDraw>, d: TarotDraw): seq<TarotDraw> {
    if sorted == [] then [d]
    else
      var n := |sorted| - 1;
      if Rank(order, sorted[n]) <= Rank(order, d) then sorted + [d]
      else Insert(order, sorted[..n], d) + [sorted[n]]
  }

  /** The stable sort by rank, of a copy. */
  function SortDraws(order: map<string, int>, draws: seq<TarotDraw>): seq<TarotDraw> {
    if draws == [] then []
    else Insert(order, SortDraws(order, draws[..|draws| - 1]), draws[|draws| - 1])
  }

  predicate Ascending(order: map<string, int>, draws: seq<TarotDraw>) {
    forall i, j | 0 <= i < j < |draws| :: Rank(order, draws[i]) <= Rank(order, draws[j])
  }

  /** The same draws, in any order. */
  predicate Reordered(a: seq<TarotDraw>, b: seq<TarotDraw>) {
    multiset(a) == multiset(b)
  }

  // ---------- The sort ----------

  lemma SnocAscends(order: map<string, int>, sorted: seq<TarotDraw>, d: TarotDraw)
    requires Ascending(order, sorted) && forall x | x in sorted :: Rank(order, x) <= Rank(order, d)
    ensures Ascending(order, sorted + [d])
  {
    hide Rank;
  }

  lemma {:induction false} InsertReorders(order: map<string, int>, sorted: seq<TarotDraw>, d: TarotDraw)
    ensures Reordered(Insert(order, sorted, d), sorted + [d])
    ensures forall x :: x in Insert(order, sorted, d) <==> x in sorted || x == d
  {
    hide Rank;
    if sorted != [] {
      var n := |sorted| - 1;
      InsertReorders(order, sorted[..n], d);
      assert sorted == sorted[..n] + [sorted[n]];
    }
  }

  lemma {:induction false} InsertAscends(order: map<string, int>, sorted: seq<TarotDraw>, d: TarotDraw)
    requires Ascending(order, sorted)
    ensures Ascending(order, Insert(order, sorted, d))
  {
    hide Rank;
    if sorted != [] {
      var n := |sorted| - 1;
      if Rank(order, sorted[n]) <= Rank(order, d) {
        SnocAscends(order, sorted, d);
      } else {
        InsertAscends(order, sorted[..n], d);
        InsertReorders(order, sorted[..n], d);
        SnocAscends(order, Insert(order, sorted[..n], d), sorted[n]);
      }
    }
  }

  lemma {:induction false} SortSorts(order: map<string, int>, draws: seq<TarotDraw>)
    ensures Ascending(order, SortDraws(order, draws)) && Reordered(SortDraws(order, draws), draws)
  {
    if draws != [] {
      var n := |draws| - 1;
      SortSorts(order, draws[..n]);
      InsertAscends(order, SortDraws(order, draws[..n]), draws[n]);
      InsertReorders(order, SortDraws(order, draws[..n]), draws[n]);
      assert draws == draws[..n] + [draws[n]];
    }
  }

  lemma {:induction false} SortKeepsSorted(order: map<string, int>, draws: seq<TarotDraw>)
    requires Ascending(order, draws)
    ensures SortDraws(order, draws) == draws
  {
    if draws != [] {
      hide Rank;
      var n := |draws| - 1;
      SortKeepsSorted(order, draws[..n]);
      assert n > 0 ==> Rank(order, draws[n - 1]) <= Rank(order, draws[n]);
      assert draws == draws[..n] + [draws[n]];
    }
  }

  // ---------- When the order survives ----------

  /** The draws ascend, and draws of equal rank are the same draw. */
  predicate Recoverable(order: map<string, int>, draws: seq<TarotDraw>) {
    forall i, j | 0 <= i < j < |draws| ::
      Rank(order, draws[i]) < Rank(order, draws[j]) || draws[i] == draws[j]
  }

  lemma SameLength(a: seq<TarotDraw>, b: seq<TarotDraw>)
    requires Reordered(b, a)
    ensures |a| == |b|
  {
    assert |multiset(a)| == |a| && |multiset(b)| == |b|;
  }

  lemma PrefixReorders(a: seq<TarotDraw>, b: seq<TarotDraw>, n: nat)
    requires Reordered(b, a) && |a| == |b| == n + 1 && a[n] == b[n]
    ensures Reordered(b[..n], a[..n])
  {
    assert a == a[..n] + [a[n]] && b == b[..n] + [b[n]];
    assert multiset(a[..n]) == multiset(a) - multiset{a[n]};
    assert multiset(b[..n]) == multiset(b) - multiset{b[n]};
  }

  lemma LastAgrees(order: map<string, int>, a: seq<TarotDraw>, b: seq<TarotDraw>, n: nat)
    requires Recoverable(order, a) && Ascending(order, b) && Reordered(b, a) && |a| == |b| == n + 1
    ensures a[n] == b[n]
  {
    hide Rank;
    assert b[n] in multiset(a) && a[n] in multiset(b);
    var i :| 0 <= i < |a| && a[i] == b[n];
    var j :| 0 <= j < |b| && b[j] == a[n];
    assert i < n ==> Rank(order, a[i]) < Rank(order, a[n]) || a[i] == a[n];
    assert j < n ==> Rank(order, b[j]) <= Rank(order, b[n]);
  }

  /** Only one arrangement of such draws ascends. */
  lemma {:induction false} AscendingIsUnique(order: map<string, int>, a: seq<TarotDraw>, b: seq<TarotDraw>)
    requires Recoverable(order, a) && Ascending(order, b) && Reordered(b, a)
    ensures a == b
    decreases |a|
  {
    hide Rank;
    SameLength(a, b);
    if a != [] {
      var n := |a| - 1;
      LastAgrees(order, a, b, n);
      PrefixReorders(a, b, n);
      AscendingIsUnique(order, a[..n], b[..n]);
      assert a == a[..n] + [a[n]] && b == b[..n] + [b[n]];
    }
  }

  lemma SwapReorders(draws: seq<TarotDraw>, i: nat, j: nat) returns (swapped: seq<TarotDraw>)
    requires i < j < |draws|
    ensures swapped == draws[i := draws[j]][j := draws[i]] && Reordered(swapped, draws)
  {
    swapped := draws[i := draws[j]][j := draws[i]];
    assert draws == draws[..i] + [draws[i]] + draws[i + 1..j] + [draws[j]] + draws[j + 1..];
    assert swapped == draws[..i] + [draws[j]] + draws[i + 1..j] + [draws[i]] + draws[j + 1..];
  }

  /** The order comes back from every arrangement exactly when no two different draws rank alike. */
  lemma OrderSurvivesIff(order: map<string, int>, draws: seq<TarotDraw>)
    ensures Recoverable(order, draws) <==> forall stored | Reordered(stored, draws) :: SortDraws(order, stored) == draws
  {
    if Recoverable(order, draws) {
      forall stored | Reordered(stored, draws) ensures SortDraws(order, stored) == draws {
        SortSorts(order, stored);
        AscendingIsUnique(order, draws, SortDraws(order, stored));
      }
    } else {
      var i, j :| 0 <= i < j < |draws| && !(Rank(order, draws[i]) < Rank(order, draws[j]) || draws[i] == draws[j]);
      SortSorts(order, draws);
      if Ascending(order, draws) {
        var swapped := SwapReorders(draws, i, j);
        assert Rank(order, draws[i]) == Rank(order, draws[j]);
        SwapAscends(order, draws, i, j);
        SortKeepsSorted(order, swapped);
        assert swapped[i] != draws[i];
      } else {
        assert Reordered(draws, draws) && SortDraws(order, draws) != draws;
      }
    }
  }

  lemma SwapAscends(order: map<string, int>, draws: seq<TarotDraw>, i: nat, j: nat)
    requires i < j < |draws| && Ascending(order, draws) && Rank(order, draws[i]) == Rank(order, draws[j])
    ensures Ascending(order, draws[i := draws[j]][j := draws[i]])
  {
    var swapped := draws[i := draws[j]][j := draws[i]];
    assert forall k | 0 <= k < |draws| :: Rank(order, swapped[k]) == Rank(order, draws[k]);
  }

  // ---------- From the engine to the three views ----------

  /** The positions as `submitTarotReading` reads them: by order index, ascending. */
  predicate Spread(positions: seq<Position>) {
    && (forall i, j | 0 <= i < j < |positions| :: positions[i].code != positions[j].code)
    && (forall i, j | 0 <= i < j < |positions| :: positions[i].orderIndex <= positions[j].orderIndex)
  }

  predicate DistinctIndexes(positions: seq<Position>) {
    forall i, j | 0 <= i < j < |positions| :: positions[i].orderIndex != positions[j].orderIndex
  }

  lemma {:induction false} OrderMapHas(positions: seq<Position>, i: nat)
    requires i < |positions| && forall a, b | 0 <= a < b < |positions| :: positions[a].code != positions[b].code
    ensures positions[i].code in OrderMap(positions)
            && OrderMap(positions)[positions[i].code] == positions[i].orderIndex
  {
    if i < |positions| - 1 {
      OrderMapHas(positions[..|positions| - 1], i);
    }
  }

  /** One draw per position, in the order of the spread: what the draw engine returns. */
  predicate DrawnFor(positions: seq<Position>, draws: seq<TarotDraw>) {
    |draws| == |positions| && forall i | 0 <= i < |draws| :: draws[i].position == positions[i].code
  }

  /** What the prompt, the detail and the public summary show is a view of each draw, in this order. */
  function Views<T>(positions: seq<Position>, stored: seq<TarotDraw>, view: TarotDraw -> T): seq<T> {
    var sorted := SortDraws(OrderMap(positions), stored);
    seq(|sorted|, i requires 0 <= i < |sorted| => view(sorted[i]))
  }

  /** When the order indexes of a spread are distinct, every view shows the cards in the order in
      which the engine drew them, whatever order the database returns them in. When they are not,
      some stored order shows two cards swapped. */
  lemma ViewsKeepTheOrder<T>(positions: seq<Position>, draws: seq<TarotDraw>, stored: seq<TarotDraw>,
                             view: TarotDraw -> T)
    requires Spread(positions) && DrawnFor(positions, draws) && Reordered(stored, draws)
    ensures DistinctIndexes(positions) ==>
              Views(positions, stored, view) == seq(|draws|, i requires 0 <= i < |draws| => view(draws[i]))
    ensures DistinctIndexes(positions) <==>
              forall other | Reordered(other, draws) :: SortDraws(OrderMap(positions), other) == draws
  {
    var order := OrderMap(positions);
    forall i: nat | i < |draws| ensures Rank(order, draws[i]) == positions[i].orderIndex {
      OrderMapHas(positions, i);
    }
    OrderSurvivesIff(order, draws);
    assert DistinctIndexes(positions) <==> Recoverable(order, draws) by {
      forall i: nat, j: nat | i < j < |draws|
        ensures draws[i] != draws[j]
        ensures Rank(order, draws[i]) == positions[i].orderIndex && Rank(order, draws[j]) == positions[j].orderIndex
      {
        assert draws[i].position == positions[i].code && draws[j].position == positions[j].code;
      }
    }
  }

  /** The draw of `submitTarotReading`, and its way through the database: `T` is what a view shows. */
  method DrawSpread(deck: seq<Card>, positions: seq<Position>, choices: seq<nat>, flips: seq<bool>)
    returns (drawing: Drawing)
    requires Spread(positions)
    requires |positions| <= |deck| ==> |choices| == |flips| == |positions| && Choices(choices, |deck|)
    ensures drawing.Drawn? <==> 0 < |positions| <= |deck|
    ensures drawing.Drawn? ==>
              && DrawnFor(positions, drawing.draws)
              && (forall j | 0 <= j < |positions| :: drawing.draws[j].card == Picks(deck, choices)[j])
              && (DistinctIndexes(positions) ==>
                    forall stored | Reordered(stored, drawing.draws) ::
                      SortDraws(OrderMap(positions), stored) == drawing.draws)
  {
    var codes := seq(|positions|, i requires 0 <= i < |positions| => positions[i].code);
    drawing := Draw(deck, codes, choices, flips);
    if drawing.Drawn? {
      ViewsKeepTheOrder(positions, drawing.draws, drawing.draws, d => d);
    }
  }
}
