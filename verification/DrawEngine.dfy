/** `DrawEngineService.draw`: cards drawn one by one, without replacement, from a shrinking pool. */
module DrawEngine {
  import opened Database

  type Card = nat

  datatype Drawing = NoPositions | DeckTooSmall | Drawn(draws: seq<TarotDraw>)

  predicate Distinct(cards: seq<Card>) {
    forall i, j | 0 <= i < j < |cards| :: cards[i] != cards[j]
  }

  /** The random indexes a deck of `n` cards admits: the `j`-th is below `n - j`. */
  predicate Choices(choices: seq<nat>, n: nat) {
    |choices| <= n && forall j | 0 <= j < |choices| :: choices[j] < n - j
  }

  function Without(deck: seq<Card>, i: nat): seq<Card>
    requires i < |deck|
  {
    deck[..i] + deck[i + 1..]
  }

  /** The cards that a choice vector draws. */
  function Picks(deck: seq<Card>, choices: seq<nat>): (cards: seq<Card>)
    requires Choices(choices, |deck|)
    ensures |cards| == |choices|
  {
    if choices == [] then [] else [deck[choices[0]]] + Picks(Without(deck, choices[0]), choices[1..])
  }

  /** The pool that they leave. */
  function Pool(deck: seq<Card>, choices: seq<nat>): (pool: seq<Card>)
    requires Choices(choices, |deck|)
    ensures |pool| == |deck| - |choices|
  {
    if choices == [] then deck else Pool(Without(deck, choices[0]), choices[1..])
  }

  // ---------- Drawn and remaining cards are the deck ----------

  lemma OneCardOut(deck: seq<Card>, i: nat)
    requires i < |deck|
    ensures multiset{deck[i]} + multiset(Without(deck, i)) == multiset(deck)
  {
    assert deck == deck[..i] + [deck[i]] + deck[i + 1..];
  }

  lemma {:induction false} NoCardIsLost(deck: seq<Card>, choices: seq<nat>)
    requires Choices(choices, |deck|)
    ensures multiset(Picks(deck, choices)) + multiset(Pool(deck, choices)) == multiset(deck)
    decreases |choices|
  {
    if choices != [] {
      var i := choices[0];
      var rest := Without(deck, i);
      NoCardIsLost(rest, choices[1..]);
      OneCardOut(deck, i);
      var tail := Picks(rest, choices[1..]);
      assert multiset([deck[i]] + tail) == multiset{deck[i]} + multiset(tail);
    }
  }

  lemma WithoutDistinct(deck: seq<Card>, i: nat)
    requires Distinct(deck) && i < |deck|
    ensures Distinct(Without(deck, i)) && deck[i] !in Without(deck, i)
    ensures forall c :: c in Without(deck, i) <==> c in deck && c != deck[i]
  {
    forall c | c in deck && c != deck[i] ensures c in Without(deck, i) {
      var j :| 0 <= j < |deck| && deck[j] == c;
      assert Without(deck, i)[if j < i then j else j - 1] == c;
    }
  }

  lemma {:induction false} PicksAreDistinct(deck: seq<Card>, choices: seq<nat>)
    requires Distinct(deck) && Choices(choices, |deck|)
    ensures Distinct(Picks(deck, choices)) && forall c | c in Picks(deck, choices) :: c in deck
    decreases |choices|
  {
    if choices != [] {
      WithoutDistinct(deck, choices[0]);
      PicksAreDistinct(Without(deck, choices[0]), choices[1..]);
    }
  }

  // ---------- Choice vectors and outcomes correspond one to one ----------

  /** The only index vector that draws `cards`, in this order. */
  function Indexes(deck: seq<Card>, cards: seq<Card>): (choices: seq<nat>)
    requires Distinct(deck) && Distinct(cards) && forall c | c in cards :: c in deck
    ensures Choices(choices, |deck|) && |choices| == |cards|
    decreases |cards|
  {
    if cards == [] then []
    else
      assert cards[0] in deck;
      var i := IndexOf(deck, cards[0]);
      WithoutDistinct(deck, i);
      [i] + Indexes(Without(deck, i), cards[1..])
  }

  function IndexOf(deck: seq<Card>, c: Card): (i: nat)
    requires c in deck
    ensures i < |deck| && deck[i] == c
  {
    if deck[0] == c then 0 else IndexOf(deck[1..], c) + 1
  }

  /** Every sequence of distinct cards is drawn by some choice vector. */
  lemma {:induction false} EveryHandIsDrawn(deck: seq<Card>, cards: seq<Card>)
    requires Distinct(deck) && Distinct(cards) && forall c | c in cards :: c in deck
    ensures Picks(deck, Indexes(deck, cards)) == cards
    decreases |cards|
  {
    if cards != [] {
      var i := IndexOf(deck, cards[0]);
      WithoutDistinct(deck, i);
      EveryHandIsDrawn(Without(deck, i), cards[1..]);
      assert Indexes(deck, cards)[1..] == Indexes(Without(deck, i), cards[1..]);
    }
  }

  /** And by only one: with uniform indexes every hand is equally likely. */
  lemma {:induction false} EachHandIsDrawnOnce(deck: seq<Card>, choices: seq<nat>)
    requires Distinct(deck) && Choices(choices, |deck|)
    ensures Distinct(Picks(deck, choices)) && (forall c | c in Picks(deck, choices) :: c in deck)
    ensures Indexes(deck, Picks(deck, choices)) == choices
    decreases |choices|
  {
    PicksAreDistinct(deck, choices);
    if choices != [] {
      var i := choices[0];
      WithoutDistinct(deck, i);
      EachHandIsDrawnOnce(Without(deck, i), choices[1..]);
      assert IndexOf(deck, deck[i]) == i;
      assert Picks(deck, choices)[1..] == Picks(Without(deck, i), choices[1..]);
    }
  }

  // ---------- The loop ----------

  lemma {:induction false} PickOneMore(deck: seq<Card>, choices: seq<nat>, n: nat)
    requires Choices(choices, |deck|) && n < |choices|
    ensures Choices(choices[..n], |deck|) && Choices(choices[..n + 1], |deck|)
    ensures choices[n] < |Pool(deck, choices[..n])|
    ensures Picks(deck, choices[..n + 1]) == Picks(deck, choices[..n]) + [Pool(deck, choices[..n])[choices[n]]]
    ensures Pool(deck, choices[..n + 1]) == Without(Pool(deck, choices[..n]), choices[n])
    decreases n
  {
    if n == 0 {
      assert choices[..1] == [choices[0]] && choices[..0] == [];
      assert choices[..1][1..] == [];
    } else {
      PickOneMore(Without(deck, choices[0]), choices[1..], n - 1);
      assert choices[..n][1..] == choices[1..][..n - 1] && choices[..n + 1][1..] == choices[1..][..n];
    }
  }

  function Facing(flip: bool): Orientation {
    if flip then Reversed else Upright
  }

  /** The pools of a draw: the deck, and after each pick the pool without the card at the index drawn. */
  ghost predicate Shrinks(deck: seq<Card>, choices: seq<nat>, pools: seq<seq<Card>>) {
    && |pools| == |choices| + 1 && pools[0] == deck
    && forall j | 0 <= j < |choices| ::
         choices[j] < |pools[j]| && pools[j + 1] == pools[j][..choices[j]] + pools[j][choices[j] + 1..]
  }

  lemma {:induction false} PoolsShrink(deck: seq<Card>, choices: seq<nat>) returns (pools: seq<seq<Card>>)
    requires Choices(choices, |deck|)
    ensures Shrinks(deck, choices, pools)
    ensures forall j | 0 <= j < |choices| :: Picks(deck, choices)[j] == pools[j][choices[j]]
    decreases |choices|
  {
    if choices == [] {
      return [deck];
    }
    var rest := PoolsShrink(Without(deck, choices[0]), choices[1..]);
    pools := [deck] + rest;
  }

  /** `choices` and `flips` are what `randomInt` returns. Each position gets one card, in order. */
  method Draw(deck: seq<Card>, positions: seq<string>, choices: seq<nat>, flips: seq<bool>) returns (drawing: Drawing)
    requires |positions| <= |deck| ==> |choices| == |flips| == |positions| && Choices(choices, |deck|)
    ensures drawing.NoPositions? <==> positions == []
    ensures drawing.DeckTooSmall? <==> |positions| > |deck|
    ensures drawing.Drawn? ==>
              && |drawing.draws| == |positions|
              && forall j | 0 <= j < |positions| ::
                   drawing.draws[j] == TarotDraw(positions[j], Picks(deck, choices)[j],
                                                if flips[j] then Reversed else Upright)
    ensures drawing.Drawn? ==>
              exists pools :: Shrinks(deck, choices, pools)
                              && forall j | 0 <= j < |choices| :: drawing.draws[j].card == pools[j][choices[j]]
  {
    if |positions| == 0 {
      return NoPositions;
    }
    if |positions| > |deck| {
      return DeckTooSmall;
    }
    var pool := deck;
    var draws: seq<TarotDraw> := [];
    for i := 0 to |positions|
      invariant Choices(choices[..i], |deck|) && pool == Pool(deck, choices[..i])
      invariant |draws| == i
      invariant forall j | 0 <= j < i ::
                  draws[j] == TarotDraw(positions[j], Picks(deck, choices[..i])[j], Facing(flips[j]))
    {
      PickOneMore(deck, choices, i);
      var index := choices[i];
      var card := pool[index];
      pool := pool[..index] + pool[index + 1..];
      var orientation := Facing(flips[i]);
      draws := draws + [TarotDraw(positions[i], card, orientation)];
    }
    assert choices[..|positions|] == choices;
    ghost var pools := PoolsShrink(deck, choices);
    return Drawn(draws);
  }
}
