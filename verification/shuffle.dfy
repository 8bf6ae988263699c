/**
 * The shuffle at the end of newDeck: for each position i, draw
 * j = rand.Intn(i + 1) and swap cards i and j. The draws are an explicit
 * input, one per position, each in [0, i] as rand.Intn(i + 1) guarantees.
 */
module Shuffle {
  import opened DeckTypes
  import opened Cards

  /** One draw per position, the draw for position i lying in [0, i]. */
  predicate ValidChoices(choices: seq<int>, n: int) {
    |choices| == n && forall i :: 0 <= i < n ==> 0 <= choices[i] <= i
  }

  /** `s` with the entries at i and j exchanged. */
  function Swap<T>(s: seq<T>, i: int, j: int): (r: seq<T>)
    requires 0 <= i < |s| && 0 <= j < |s|
    ensures |r| == |s| && r[i] == s[j] && r[j] == s[i]
    ensures forall k :: 0 <= k < |s| && k != i && k != j ==> r[k] == s[k]
  {
    seq(|s|, k requires 0 <= k < |s| => if k == i then s[j] else if k == j then s[i] else s[k])
  }

  /** A swap rearranges the entries without adding or losing any. */
  lemma SwapPermutes<T>(s: seq<T>, i: int, j: int)
    requires 0 <= i < |s| && 0 <= j < |s|
    ensures multiset(Swap(s, i, j)) == multiset(s)
  {
    assert Swap(s, i, j) == s[i := s[j]][j := s[i]];
  }

  /** The cards after the first n rounds of the swap loop. */
  function ShuffleFirst(cards: seq<DeckCard>, choices: seq<int>, n: nat): (r: seq<DeckCard>)
    requires ValidChoices(choices, |cards|) && n <= |cards|
    ensures |r| == |cards|
  {
    if n == 0 then cards
    else Swap(ShuffleFirst(cards, choices, n - 1), n - 1, choices[n - 1])
  }

  /** Every prefix of the swap loop rearranges the cards: same length, same multiset. */
  lemma {:induction false} ShuffleFirstPermutes(cards: seq<DeckCard>, choices: seq<int>, n: nat)
    requires ValidChoices(choices, |cards|) && n <= |cards|
    ensures multiset(ShuffleFirst(cards, choices, n)) == multiset(cards)
  {
    if n > 0 {
      var before := ShuffleFirst(cards, choices, n - 1);
      var j := choices[n - 1];
      ShuffleFirstPermutes(cards, choices, n - 1);
      SwapPermutes(before, n - 1, j);
      assert ShuffleFirst(cards, choices, n) == Swap(before, n - 1, j);
    }
  }

  /** The cards after the whole swap loop. */
  function Shuffled(cards: seq<DeckCard>, choices: seq<int>): seq<DeckCard>
    requires ValidChoices(choices, |cards|)
  {
    ShuffleFirst(cards, choices, |cards|)
  }

  /** The deck newDeck returns for the given draws. */
  function FreshDeck(choices: seq<int>): seq<DeckCard>
    requires ValidChoices(choices, DeckSize)
  {
    OrderedDeckIsFull();
    Shuffled(OrderedDeck(), choices)
  }

  /** The swap loop of newDeck, in place over an array. */
  method ShuffleCards(cards: seq<DeckCard>, choices: seq<int>) returns (r: seq<DeckCard>)
    requires ValidChoices(choices, |cards|)
    ensures r == Shuffled(cards, choices)
    ensures multiset(r) == multiset(cards)
  {
    var a := ArrayOf(cards);
    for i := 0 to a.Length
      invariant a[..] == ShuffleFirst(cards, choices, i)
    {
      SwapInPlace(a, i, choices[i]);
    }
    r := a[..];
    ShuffleFirstPermutes(cards, choices, |cards|);
  }

  /** A new array holding the given cards. */
  method ArrayOf(cards: seq<DeckCard>) returns (a: array<DeckCard>)
    ensures fresh(a) && a[..] == cards
  {
    a := new DeckCard[|cards|](k requires 0 <= k < |cards| => cards[k]);
  }

  /** One round of the loop: `cards[i], cards[j] = cards[j], cards[i]`. */
  method SwapInPlace(a: array<DeckCard>, i: int, j: int)
    requires 0 <= i < a.Length && 0 <= j < a.Length
    modifies a
    ensures a[..] == Swap(old(a[..]), i, j)
  {
    a[i], a[j] := a[j], a[i];
  }

  /** newDeck: build the ordered deck, then shuffle it with the given draws. */
  method NewDeck(choices: seq<int>) returns (cards: seq<DeckCard>)
    requires ValidChoices(choices, DeckSize)
    ensures cards == FreshDeck(choices)
    ensures IsFullDeck(cards)
    ensures multiset(cards) == multiset(OrderedDeck())
  {
    var ordered := BuildOrderedDeck();
    cards := ShuffleCards(ordered, choices);
    FreshDeckIsFull(choices);
  }

  /** Whatever the draws, the shuffled deck is a full deck: 52 distinct standard cards. */
  lemma FreshDeckIsFull(choices: seq<int>)
    requires ValidChoices(choices, DeckSize)
    ensures IsFullDeck(FreshDeck(choices))
    ensures multiset(FreshDeck(choices)) == multiset(OrderedDeck())
  {
    OrderedDeckIsFull();
    ShuffleFirstPermutes(OrderedDeck(), choices, DeckSize);
    PermutationOfFullDeck(OrderedDeck(), FreshDeck(choices));
  }

  /**
   * Sanity check on the draw model: draws that always pick the current
   * position swap every card with itself and leave the factory order intact.
   */
  lemma {:induction false} IdentityDrawsKeepOrder(cards: seq<DeckCard>, choices: seq<int>, n: nat)
    requires ValidChoices(choices, |cards|) && n <= |cards|
    requires forall i :: 0 <= i < |cards| ==> choices[i] == i
    ensures ShuffleFirst(cards, choices, n) == cards
  {
    if n > 0 {
      IdentityDrawsKeepOrder(cards, choices, n - 1);
    }
  }
}
