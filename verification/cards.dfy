/**
 * The factory-ordered deck: getSuits, getRanks and the nested loops at the
 * start of newDeck, which append one card per suit and rank, suits outer and
 * ranks inner.
 */
module Cards {
  import opened Multisets
  import opened DeckTypes

  const SuitCount := 4
  const RankCount := 13
  const DeckSize := SuitCount * RankCount

  /** The four suits, in the order the deck is built. */
  function Suits(): (r: seq<string>)
    ensures |r| == SuitCount && Distinct(r)
  {
    ["♠", "♥", "♦", "♣"]
  }

  /** The thirteen ranks, two up to ace, in the order the deck is built. */
  function Ranks(): (r: seq<string>)
    ensures |r| == RankCount && Distinct(r)
  {
    var r := ["2", "3", "4", "5", "6", "7", "8", "9", "10", "J", "Q", "K", "A"];
    // Only "10" has two characters; stating the lengths lets the solver tell the literals apart cheaply.
    assert forall i :: 0 <= i < |r| ==> |r[i]| == (if i == 8 then 2 else 1);
    r
  }

  /** A card of the standard deck: a known suit with a known rank. */
  predicate IsStandardCard(c: DeckCard) {
    c.suit in Suits() && c.rank in Ranks()
  }

  /** A full deck: 52 cards, no duplicates, and exactly the standard cards. */
  ghost predicate IsFullDeck(cards: seq<DeckCard>) {
    && |cards| == DeckSize
    && Distinct(cards)
    && forall c :: c in cards <==> IsStandardCard(c)
  }

  /** The cards the inner loop appends for one suit: one per rank, in rank order. */
  function Row(suit: string, ranks: seq<string>): seq<DeckCard> {
    if |ranks| == 0 then []
    else Row(suit, ranks[..|ranks| - 1]) + [DeckCard(suit, ranks[|ranks| - 1])]
  }

  /** The cards the outer loop appends: one row per suit, in suit order. */
  function Rows(suits: seq<string>, ranks: seq<string>): seq<DeckCard> {
    if |suits| == 0 then []
    else Rows(suits[..|suits| - 1], ranks) + Row(suits[|suits| - 1], ranks)
  }

  /** The deck before shuffling. */
  function OrderedDeck(): seq<DeckCard> {
    Rows(Suits(), Ranks())
  }

  /** Index layout of the ordered deck (see OrderedDeckLayout). */
  predicate IsOrderedLayout(cards: seq<DeckCard>) {
    && |cards| == DeckSize
    && forall s, r :: 0 <= s < SuitCount && 0 <= r < RankCount ==>
         cards[s * RankCount + r] == DeckCard(Suits()[s], Ranks()[r])
  }

  // ---------------------------------------------------------------------------
  // Construction as newDeck performs it

  /** The nested append loops of newDeck, before the shuffle. */
  method BuildOrderedDeck() returns (cards: seq<DeckCard>)
    ensures cards == OrderedDeck()
    ensures IsOrderedLayout(cards)
    ensures IsFullDeck(cards)
  {
    var suits := Suits();
    var ranks := Ranks();
    cards := [];
    for si := 0 to |suits|
      invariant cards == Rows(suits[..si], ranks)
    {
      for ri := 0 to |ranks|
        invariant cards == Rows(suits[..si], ranks) + Row(suits[si], ranks[..ri])
      {
        assert ranks[..ri + 1][..ri] == ranks[..ri];
        cards := cards + [DeckCard(suits[si], ranks[ri])];
      }
      assert ranks[..|ranks|] == ranks;
      assert suits[..si + 1][..si] == suits[..si];
    }
    assert suits[..|suits|] == suits;
    OrderedDeckLayout();
    OrderedDeckIsFull();
  }

  // ---------------------------------------------------------------------------
  // Layout

  lemma {:induction false} RowLength(suit: string, ranks: seq<string>)
    ensures |Row(suit, ranks)| == |ranks|
  {
    if |ranks| > 0 {
      RowLength(suit, ranks[..|ranks| - 1]);
    }
  }

  lemma {:induction false} RowsLength(suits: seq<string>, ranks: seq<string>)
    ensures |Rows(suits, ranks)| == |suits| * |ranks|
  {
    if |suits| > 0 {
      RowsLength(suits[..|suits| - 1], ranks);
      RowLength(suits[|suits| - 1], ranks);
      assert (|suits| - 1) * |ranks| + |ranks| == |suits| * |ranks|;
    }
  }

  /** The r-th card of a suit's row carries that suit and the r-th rank. */
  lemma {:induction false} RowIndex(suit: string, ranks: seq<string>, r: int)
    requires 0 <= r < |ranks|
    ensures |Row(suit, ranks)| == |ranks|
    ensures Row(suit, ranks)[r] == DeckCard(suit, ranks[r])
  {
    RowLength(suit, ranks);
    if r < |ranks| - 1 {
      RowIndex(suit, ranks[..|ranks| - 1], r);
    }
  }

  /** Card `s * |ranks| + r` of the rows is suit s with rank r. */
  lemma {:induction false} RowsIndex(suits: seq<string>, ranks: seq<string>, s: int, r: int)
    requires 0 <= s < |suits| && 0 <= r < |ranks|
    ensures 0 <= s * |ranks| + r < |Rows(suits, ranks)|
    ensures Rows(suits, ranks)[s * |ranks| + r] == DeckCard(suits[s], ranks[r])
  {
    var n, m := |suits|, |ranks|;
    var prefix := suits[..n - 1];
    RowsLength(suits, ranks);
    RowsLength(prefix, ranks);
    RowLength(suits[n - 1], ranks);
    assert Rows(suits, ranks) == Rows(prefix, ranks) + Row(suits[n - 1], ranks);
    if s < n - 1 {
      assert (s + 1) * m <= (n - 1) * m by { MulMonotone(s + 1, n - 1, m); }
      RowsIndex(prefix, ranks, s, r);
    } else {
      assert s * m == |Rows(prefix, ranks)|;
      RowIndex(suits[n - 1], ranks, r);
    }
  }

  lemma MulMonotone(a: int, b: int, m: nat)
    requires a <= b
    ensures a * m <= b * m
  {
  }

  /** Before the shuffle, card `s * 13 + r` is suit s with rank r, for all 52 positions. */
  lemma OrderedDeckLayout()
    ensures IsOrderedLayout(OrderedDeck())
  {
    RowsLength(Suits(), Ranks());
    forall s, r | 0 <= s < SuitCount && 0 <= r < RankCount
      ensures OrderedDeck()[s * RankCount + r] == DeckCard(Suits()[s], Ranks()[r])
    {
      RowsIndex(Suits(), Ranks(), s, r);
    }
  }

  // ---------------------------------------------------------------------------
  // Every combination exactly once

  /** With distinct ranks, a row holds each card of its suit and those ranks once. */
  lemma {:induction false} RowMultiplicity(suit: string, ranks: seq<string>, c: DeckCard)
    requires Distinct(ranks)
    ensures multiset(Row(suit, ranks))[c] == if c.suit == suit && c.rank in ranks then 1 else 0
  {
    if |ranks| > 0 {
      var prefix := ranks[..|ranks| - 1];
      var last := ranks[|ranks| - 1];
      assert Distinct(prefix) by {
        forall i, j | 0 <= i < j < |prefix| ensures prefix[i] != prefix[j] {
          assert prefix[i] == ranks[i] && prefix[j] == ranks[j];
        }
      }
      assert last !in prefix by {
        forall k | 0 <= k < |prefix| ensures prefix[k] != last {
          assert prefix[k] == ranks[k];
        }
      }
      assert ranks == prefix + [last];
      RowMultiplicity(suit, prefix, c);
      assert multiset(Row(suit, ranks)) == multiset(Row(suit, prefix)) + multiset{DeckCard(suit, last)};
    }
  }

  /** With distinct suits and ranks, the rows hold every suit-rank pair exactly once. */
  lemma {:induction false} RowsMultiplicity(suits: seq<string>, ranks: seq<string>, c: DeckCard)
    requires Distinct(suits) && Distinct(ranks)
    ensures multiset(Rows(suits, ranks))[c] == if c.suit in suits && c.rank in ranks then 1 else 0
  {
    if |suits| > 0 {
      var prefix := suits[..|suits| - 1];
      var last := suits[|suits| - 1];
      assert Distinct(prefix) by {
        forall i, j | 0 <= i < j < |prefix| ensures prefix[i] != prefix[j] {
          assert prefix[i] == suits[i] && prefix[j] == suits[j];
        }
      }
      assert last !in prefix by {
        forall k | 0 <= k < |prefix| ensures prefix[k] != last {
          assert prefix[k] == suits[k];
        }
      }
      assert suits == prefix + [last];
      RowsMultiplicity(prefix, ranks, c);
      RowMultiplicity(last, ranks, c);
      assert multiset(Rows(suits, ranks)) == multiset(Rows(prefix, ranks)) + multiset(Row(last, ranks));
    }
  }

  /**
   * A full deck is exactly a 52-card sequence in which each standard card
   * occurs once and nothing else occurs.
   */
  lemma FullDeckMultiplicity(cards: seq<DeckCard>)
    ensures IsFullDeck(cards) <==>
      |cards| == DeckSize && forall c :: multiset(cards)[c] == if IsStandardCard(c) then 1 else 0
  {
    if IsFullDeck(cards) {
      forall c ensures multiset(cards)[c] == if IsStandardCard(c) then 1 else 0 {
        DistinctMultiplicity(cards, c);
      }
    }
    if |cards| == DeckSize && forall c :: multiset(cards)[c] == if IsStandardCard(c) then 1 else 0 {
      DistinctIffMultiplicityAtMostOne(cards);
      assert forall c :: c in cards <==> multiset(cards)[c] > 0;
    }
  }

  /** The ordered deck is a full deck: 52 cards, no duplicates, no omissions. */
  lemma OrderedDeckIsFull()
    ensures IsFullDeck(OrderedDeck())
  {
    RowsLength(Suits(), Ranks());
    forall c ensures multiset(OrderedDeck())[c] == if IsStandardCard(c) then 1 else 0 {
      RowsMultiplicity(Suits(), Ranks(), c);
    }
    FullDeckMultiplicity(OrderedDeck());
  }

  /** Any rearrangement of a full deck is again a full deck. */
  lemma PermutationOfFullDeck(a: seq<DeckCard>, b: seq<DeckCard>)
    requires IsFullDeck(a) && multiset(a) == multiset(b)
    ensures IsFullDeck(b)
  {
    FullDeckMultiplicity(a);
    assert |b| == |multiset(b)| == |multiset(a)| == |a|;
    FullDeckMultiplicity(b);
  }
}
