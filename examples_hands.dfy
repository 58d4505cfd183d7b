/** The scenarios of the source's test module, and the quirks of the
    comparison, as lemmas about concrete hands. Each scenario is stated twice:
    on the cards (already in rank order, so the chain of tests reads them as
    given) and on the hand holding them. */
module HandExamples {
  import opened Cmp
  import opened Cards
  import opened HandTypes
  import opened RankSort
  import opened SortedHands
  import opened Hands

  /** Five cards whose ranks never go down are rank-sorted. */
  lemma SortedFive(s: seq<Card>)
    requires |s| == 5
    requires Code(s[0].rank) <= Code(s[1].rank) <= Code(s[2].rank) <= Code(s[3].rank) <= Code(s[4].rank)
    ensures SortedByRank(s)
  {
  }

  /** A hand given already in rank order is classified on its own cards. */
  lemma HandTypeOfSortedInput(h: Hand)
    requires SortedByRank(h.cards)
    ensures HandTypeOf(h) == Classify(h.cards)
  {
    SortedPermutationsSameRanks(h.cards, SortByRank(h.cards));
    FlushPermutationInvariant(h.cards, SortByRank(h.cards));
    ClassifyReadsRanksAndFlush(h.cards, SortByRank(h.cards));
  }

  /** `test_straight_flush`. */
  lemma StraightFlushCards(s: seq<Card>)
    requires s == [Card(Two, Spade), Card(Three, Spade), Card(Four, Spade), Card(Five, Spade), Card(Six, Spade)]
    ensures SortedByRank(s)
    ensures Classify(s) == StraightFlush(Other)
  {
    SortedFive(s);
  }

  lemma StraightFlushExample(h: Hand)
    requires h.cards == [Card(Two, Spade), Card(Three, Spade), Card(Four, Spade), Card(Five, Spade), Card(Six, Spade)]
    ensures HandTypeOf(h) == StraightFlush(Other)
  {
    StraightFlushCards(h.cards);
    HandTypeOfSortedInput(h);
  }

  /** `test_flush`. */
  lemma FlushCards(s: seq<Card>)
    requires s == [Card(Two, Spade), Card(Three, Spade), Card(Four, Spade), Card(Five, Spade), Card(Seven, Spade)]
    ensures SortedByRank(s)
    ensures Classify(s) == Flush
  {
    SortedFive(s);
  }

  lemma FlushExample(h: Hand)
    requires h.cards == [Card(Two, Spade), Card(Three, Spade), Card(Four, Spade), Card(Five, Spade), Card(Seven, Spade)]
    ensures HandTypeOf(h) == Flush
  {
    FlushCards(h.cards);
    HandTypeOfSortedInput(h);
  }

  /** `test_four_of_a_kind`. */
  lemma FourOfAKindCards(s: seq<Card>)
    requires s == [Card(Two, Spade), Card(Two, Heart), Card(Two, Diamond), Card(Two, Club), Card(Seven, Spade)]
    ensures SortedByRank(s)
    ensures Classify(s) == FourOfAKind
  {
    SortedFive(s);
  }

  lemma FourOfAKindExample(h: Hand)
    requires h.cards == [Card(Two, Spade), Card(Two, Heart), Card(Two, Diamond), Card(Two, Club), Card(Seven, Spade)]
    ensures HandTypeOf(h) == FourOfAKind
  {
    FourOfAKindCards(h.cards);
    HandTypeOfSortedInput(h);
  }

  /** `test_full_house`. */
  lemma FullHouseCards(s: seq<Card>)
    requires s == [Card(Two, Spade), Card(Two, Heart), Card(Two, Diamond), Card(Three, Club), Card(Three, Spade)]
    ensures SortedByRank(s)
    ensures Classify(s) == FullHouse
  {
    SortedFive(s);
  }

  lemma FullHouseExample(h: Hand)
    requires h.cards == [Card(Two, Spade), Card(Two, Heart), Card(Two, Diamond), Card(Three, Club), Card(Three, Spade)]
    ensures HandTypeOf(h) == FullHouse
  {
    FullHouseCards(h.cards);
    HandTypeOfSortedInput(h);
  }

  /** `test_straight`. */
  lemma StraightCards(s: seq<Card>)
    requires s == [Card(Two, Spade), Card(Three, Spade), Card(Four, Spade), Card(Five, Spade), Card(Six, Heart)]
    ensures SortedByRank(s)
    ensures Classify(s) == Straight(Other)
  {
    SortedFive(s);
  }

  lemma StraightExample(h: Hand)
    requires h.cards == [Card(Two, Spade), Card(Three, Spade), Card(Four, Spade), Card(Five, Spade), Card(Six, Heart)]
    ensures HandTypeOf(h) == Straight(Other)
  {
    StraightCards(h.cards);
    HandTypeOfSortedInput(h);
  }

  /** `test_ace_low_straight`. */
  lemma AceLowStraightCards(s: seq<Card>)
    requires s == [Card(Two, Spade), Card(Three, Spade), Card(Four, Spade), Card(Five, Spade), Card(Ace, Heart)]
    ensures SortedByRank(s)
    ensures Classify(s) == Straight(AceLow)
  {
    SortedFive(s);
  }

  lemma AceLowStraightExample(h: Hand)
    requires h.cards == [Card(Two, Spade), Card(Three, Spade), Card(Four, Spade), Card(Five, Spade), Card(Ace, Heart)]
    ensures HandTypeOf(h) == Straight(AceLow)
  {
    AceLowStraightCards(h.cards);
    HandTypeOfSortedInput(h);
  }

  /** `test_three_of_a_kind`. */
  lemma ThreeOfAKindCards(s: seq<Card>)
    requires s == [Card(Two, Spade), Card(Two, Heart), Card(Two, Diamond), Card(Three, Club), Card(Four, Spade)]
    ensures SortedByRank(s)
    ensures Classify(s) == ThreeOfAKind
  {
    SortedFive(s);
  }

  lemma ThreeOfAKindExample(h: Hand)
    requires h.cards == [Card(Two, Spade), Card(Two, Heart), Card(Two, Diamond), Card(Three, Club), Card(Four, Spade)]
    ensures HandTypeOf(h) == ThreeOfAKind
  {
    ThreeOfAKindCards(h.cards);
    HandTypeOfSortedInput(h);
  }

  /** `test_two_pair`. */
  lemma TwoPairCards(s: seq<Card>)
    requires s == [Card(Two, Spade), Card(Two, Heart), Card(Three, Diamond), Card(Three, Club), Card(Four, Spade)]
    ensures SortedByRank(s)
    ensures Classify(s) == TwoPair
  {
    SortedFive(s);
  }

  lemma TwoPairExample(h: Hand)
    requires h.cards == [Card(Two, Spade), Card(Two, Heart), Card(Three, Diamond), Card(Three, Club), Card(Four, Spade)]
    ensures HandTypeOf(h) == TwoPair
  {
    TwoPairCards(h.cards);
    HandTypeOfSortedInput(h);
  }

  /** `test_pair`. */
  lemma PairCards(s: seq<Card>)
    requires s == [Card(Two, Spade), Card(Two, Heart), Card(Three, Diamond), Card(Four, Club), Card(Five, Spade)]
    ensures SortedByRank(s)
    ensures Classify(s) == Pair
  {
    SortedFive(s);
  }

  lemma PairExample(h: Hand)
    requires h.cards == [Card(Two, Spade), Card(Two, Heart), Card(Three, Diamond), Card(Four, Club), Card(Five, Spade)]
    ensures HandTypeOf(h) == Pair
  {
    PairCards(h.cards);
    HandTypeOfSortedInput(h);
  }

  /** `test_high_card`. */
  lemma HighCardCards(s: seq<Card>)
    requires s == [Card(Two, Spade), Card(Three, Heart), Card(Four, Diamond), Card(Five, Club), Card(Seven, Spade)]
    ensures SortedByRank(s)
    ensures Classify(s) == HighCard
  {
    SortedFive(s);
  }

  lemma HighCardExample(h: Hand)
    requires h.cards == [Card(Two, Spade), Card(Three, Heart), Card(Four, Diamond), Card(Five, Club), Card(Seven, Spade)]
    ensures HandTypeOf(h) == HighCard
  {
    HighCardCards(h.cards);
    HandTypeOfSortedInput(h);
  }

  /** Ten to Ace of one suit. */
  lemma RoyalFlushCards(s: seq<Card>)
    requires s == [Card(Ten, Heart), Card(Jack, Heart), Card(Queen, Heart), Card(King, Heart), Card(Ace, Heart)]
    ensures SortedByRank(s)
    ensures Classify(s) == RoyalFlush
  {
    SortedFive(s);
  }

  lemma RoyalFlushExample(h: Hand)
    requires h.cards == [Card(Ten, Heart), Card(Jack, Heart), Card(Queen, Heart), Card(King, Heart), Card(Ace, Heart)]
    ensures HandTypeOf(h) == RoyalFlush
  {
    RoyalFlushCards(h.cards);
    HandTypeOfSortedInput(h);
  }

  /** The ace-low straight flush carries the `Other` payload. */
  lemma AceLowStraightFlushCards(s: seq<Card>)
    requires s == [Card(Two, Club), Card(Three, Club), Card(Four, Club), Card(Five, Club), Card(Ace, Club)]
    ensures SortedByRank(s)
    ensures Classify(s) == StraightFlush(Other)
  {
    SortedFive(s);
  }

  lemma AceLowStraightFlushExample(h: Hand)
    requires h.cards == [Card(Two, Club), Card(Three, Club), Card(Four, Club), Card(Five, Club), Card(Ace, Club)]
    ensures HandTypeOf(h) == StraightFlush(Other)
  {
    AceLowStraightFlushCards(h.cards);
    HandTypeOfSortedInput(h);
  }

  /** The first hand of `test_hand_ace_low_straight_vs_ace_high_straight`. */
  lemma MixedWheelCards(s: seq<Card>)
    requires s == [Card(Two, Spade), Card(Three, Heart), Card(Four, Diamond), Card(Five, Club), Card(Ace, Spade)]
    ensures SortedByRank(s)
    ensures Classify(s) == Straight(AceLow)
  {
    SortedFive(s);
  }

  lemma MixedWheelExample(h: Hand)
    requires h.cards == [Card(Two, Spade), Card(Three, Heart), Card(Four, Diamond), Card(Five, Club), Card(Ace, Spade)]
    ensures HandTypeOf(h) == Straight(AceLow)
  {
    MixedWheelCards(h.cards);
    HandTypeOfSortedInput(h);
  }

  /** The second hand of `test_hand_ace_low_straight_vs_ace_high_straight`. */
  lemma MixedBroadwayCards(s: seq<Card>)
    requires s == [Card(Ten, Spade), Card(Jack, Heart), Card(Queen, Diamond), Card(King, Club), Card(Ace, Spade)]
    ensures SortedByRank(s)
    ensures Classify(s) == Straight(Other)
  {
    SortedFive(s);
  }

  lemma MixedBroadwayExample(h: Hand)
    requires h.cards == [Card(Ten, Spade), Card(Jack, Heart), Card(Queen, Diamond), Card(King, Club), Card(Ace, Spade)]
    ensures HandTypeOf(h) == Straight(Other)
  {
    MixedBroadwayCards(h.cards);
    HandTypeOfSortedInput(h);
  }

  /** The second hand of `test_hand_ace_low_straight_vs_standard_straight`. */
  lemma MixedSixHighStraightCards(s: seq<Card>)
    requires s == [Card(Two, Spade), Card(Three, Heart), Card(Four, Diamond), Card(Five, Club), Card(Six, Spade)]
    ensures SortedByRank(s)
    ensures Classify(s) == Straight(Other)
  {
    SortedFive(s);
  }

  lemma MixedSixHighStraightExample(h: Hand)
    requires h.cards == [Card(Two, Spade), Card(Three, Heart), Card(Four, Diamond), Card(Five, Club), Card(Six, Spade)]
    ensures HandTypeOf(h) == Straight(Other)
  {
    MixedSixHighStraightCards(h.cards);
    HandTypeOfSortedInput(h);
  }

  /** The first hand of `test_hand_ace_low_straight_vs_standard_straight`, after sorting. */
  lemma SortedWheelCards(s: seq<Card>)
    requires s == [Card(Two, Heart), Card(Three, Diamond), Card(Four, Club), Card(Five, Spade), Card(Ace, Spade)]
    ensures SortedByRank(s)
    ensures Classify(s) == Straight(AceLow)
  {
    SortedFive(s);
  }

  lemma SortedWheelExample(h: Hand)
    requires h.cards == [Card(Two, Heart), Card(Three, Diamond), Card(Four, Club), Card(Five, Spade), Card(Ace, Spade)]
    ensures HandTypeOf(h) == Straight(AceLow)
  {
    SortedWheelCards(h.cards);
    HandTypeOfSortedInput(h);
  }

  /** `test_high_card` with the Two of Hearts for the Two of Spades. */
  lemma MixedHighCardCards(s: seq<Card>)
    requires s == [Card(Two, Heart), Card(Three, Heart), Card(Four, Diamond), Card(Five, Club), Card(Seven, Spade)]
    ensures SortedByRank(s)
    ensures Classify(s) == HighCard
  {
    SortedFive(s);
  }

  lemma MixedHighCardExample(h: Hand)
    requires h.cards == [Card(Two, Heart), Card(Three, Heart), Card(Four, Diamond), Card(Five, Club), Card(Seven, Spade)]
    ensures HandTypeOf(h) == HighCard
  {
    MixedHighCardCards(h.cards);
    HandTypeOfSortedInput(h);
  }

  /** Moving the first card to the end keeps the same cards. */
  lemma RotatedCards(s: seq<Card>)
    requires |s| == 5
    ensures multiset(s) == multiset([s[1], s[2], s[3], s[4], s[0]])
  {
    assert s == [s[0]] + s[1..];
    assert s[1..] + [s[0]] == [s[1], s[2], s[3], s[4], s[0]];
  }

  /** The wheel given Ace first carries the wheel's ranks, in mixed suits. */
  lemma AceFirstWheelCards(s: seq<Card>)
    requires s == [Card(Ace, Spade), Card(Two, Heart), Card(Three, Diamond), Card(Four, Club), Card(Five, Spade)]
    ensures HasRanks(s, WheelRanks)
    ensures !AllSameSuit(s)
  {
    assert s[1].rank == WheelRanks[0] && s[2].rank == WheelRanks[1] && s[3].rank == WheelRanks[2];
    assert s[4].rank == WheelRanks[3] && s[0].rank == WheelRanks[4];
    assert forall k :: 0 <= k < 5 ==> CarriesRank(s, WheelRanks[k]);
  }

  /** The order of the input does not matter to the category: the wheel given Ace first. */
  lemma AceFirstWheelExample(h: Hand)
    requires h.cards == [Card(Ace, Spade), Card(Two, Heart), Card(Three, Diamond), Card(Four, Club), Card(Five, Spade)]
    ensures HandTypeOf(h) == Straight(AceLow)
  {
    AceFirstWheelCards(h.cards);
    AceLowStraightInAnyOrder(h);
  }

  /** A straight flush is above a flush. */
  lemma StraightFlushAboveFlush(a: Hand, b: Hand)
    requires HandTypeOf(a) == StraightFlush(Other) && HandTypeOf(b) == Flush
    ensures HandPartialCmp(a, b) == Some(Greater)
  {
    StraightFlushBeatsFlush(a, b);
  }

  /** `test_hand_strength_straight_flush_vs_flush`. */
  lemma StraightFlushBeatsFlushExample(a: Hand, b: Hand)
    requires a.cards == [Card(Two, Spade), Card(Three, Spade), Card(Four, Spade), Card(Five, Spade), Card(Six, Spade)]
    requires b.cards == [Card(Two, Spade), Card(Three, Spade), Card(Four, Spade), Card(Five, Spade), Card(Seven, Spade)]
    ensures HandPartialCmp(a, b) == Some(Greater)
  {
    StraightFlushExample(a);
    FlushExample(b);
    StraightFlushAboveFlush(a, b);
  }

  /** An ace-low straight is below a straight of the other kind. */
  lemma AceLowBelowOtherStraight(a: Hand, b: Hand)
    requires HandTypeOf(a) == Straight(AceLow) && HandTypeOf(b) == Straight(Other)
    ensures HandPartialCmp(a, b) == Some(Less)
  {
    AceLowStraightLosesToOtherStraights(a, b);
  }

  /** `test_hand_ace_low_straight_vs_ace_high_straight`. */
  lemma AceLowBelowAceHighStraightExample(a: Hand, b: Hand)
    requires a.cards == [Card(Two, Spade), Card(Three, Heart), Card(Four, Diamond), Card(Five, Club), Card(Ace, Spade)]
    requires b.cards == [Card(Ten, Spade), Card(Jack, Heart), Card(Queen, Diamond), Card(King, Club), Card(Ace, Spade)]
    ensures HandPartialCmp(a, b) == Some(Less)
  {
    MixedWheelExample(a);
    MixedBroadwayExample(b);
    AceLowBelowOtherStraight(a, b);
  }

  /** Compared card by card, a sequence opening with an Ace is above one opening with a Two. */
  lemma AceFirstCardsAbove(x: seq<Card>, y: seq<Card>)
    requires x != [] && y != [] && x[0].rank == Ace && y[0].rank == Two
    ensures CardsPartialCmp(x, y) == Some(Greater)
  {
  }

  /** `test_hand_ace_low_straight_vs_standard_straight`: the ace-low hand is
      given Ace first; it is below Two-to-Six because the categories differ in
      their payload, although its cards compared one by one put it above. */
  lemma AceLowBelowSixHighStraightExample(a: Hand, b: Hand)
    requires a.cards == [Card(Ace, Spade), Card(Two, Heart), Card(Three, Diamond), Card(Four, Club), Card(Five, Spade)]
    requires b.cards == [Card(Two, Spade), Card(Three, Heart), Card(Four, Diamond), Card(Five, Club), Card(Six, Spade)]
    ensures HandPartialCmp(a, b) == Some(Less)
    ensures CardsPartialCmp(a.cards, b.cards) == Some(Greater)
  {
    AceFirstWheelExample(a);
    MixedSixHighStraightExample(b);
    AceLowBelowOtherStraight(a, b);
    AceFirstCardsAbove(a.cards, b.cards);
  }

  /** The same five cards in two orders. */
  lemma ReorderedCards(a: Hand, b: Hand)
    requires a.cards == [Card(Two, Spade), Card(Three, Heart), Card(Four, Diamond), Card(Five, Club), Card(Seven, Spade)]
    requires b.cards == [Card(Seven, Spade), Card(Two, Spade), Card(Three, Heart), Card(Four, Diamond), Card(Five, Club)]
    ensures multiset(a.cards) == multiset(b.cards)
  {
    RotatedCards(b.cards);
  }

  /** The first of the sorted order opens with a Two, the second with a Seven. */
  lemma ReorderedFirstRanks(a: Hand, b: Hand)
    requires a.cards == [Card(Two, Spade), Card(Three, Heart), Card(Four, Diamond), Card(Five, Club), Card(Seven, Spade)]
    requires b.cards == [Card(Seven, Spade), Card(Two, Spade), Card(Three, Heart), Card(Four, Diamond), Card(Five, Club)]
    ensures Code(a.cards[0].rank) < Code(b.cards[0].rank)
  {
  }

  /** In one category, a hand whose first card is of lower rank loses. */
  lemma LowerFirstRankLoses(a: Hand, b: Hand)
    requires HandTypeOf(a) == HandTypeOf(b)
    requires Code(a.cards[0].rank) < Code(b.cards[0].rank)
    ensures HandPartialCmp(a, b) == Some(Less)
  {
  }

  /** The tie-break reads the cards in input order, not sorted: the same five
      cards given in two orders compare unequal. */
  lemma TieBreakReadsInputOrder(a: Hand, b: Hand)
    requires a.cards == [Card(Two, Spade), Card(Three, Heart), Card(Four, Diamond), Card(Five, Club), Card(Seven, Spade)]
    requires b.cards == [Card(Seven, Spade), Card(Two, Spade), Card(Three, Heart), Card(Four, Diamond), Card(Five, Club)]
    ensures multiset(a.cards) == multiset(b.cards)
    ensures HandPartialCmp(a, b) == Some(Less)
  {
    ReorderedCards(a, b);
    HandTypePermutationInvariant(a, b);
    ReorderedFirstRanks(a, b);
    LowerFirstRankLoses(a, b);
  }

  /** Hands of one category whose cards carry the same ranks position by position compare `Equal`. */
  lemma SameCategoryAndRanksCompareEqual(a: Hand, b: Hand)
    requires HandTypeOf(a) == HandTypeOf(b) && SameRanks(a.cards, b.cards)
    ensures HandPartialCmp(a, b) == Some(Equal)
  {
    HandComparisonMeaning(a, b);
  }

  /** Two hands whose cards differ only in the suit of the first one. */
  lemma OnlyFirstSuitDiffers(a: Hand, b: Hand)
    requires a.cards == [Card(Two, Spade), Card(Three, Heart), Card(Four, Diamond), Card(Five, Club), Card(Seven, Spade)]
    requires b.cards == [Card(Two, Heart), Card(Three, Heart), Card(Four, Diamond), Card(Five, Club), Card(Seven, Spade)]
    ensures SameRanks(a.cards, b.cards)
    ensures a != b
  {
    assert a.cards[0] != b.cards[0];
  }

  /** Two hands that differ only in suits compare `Equal` yet are not `==`. */
  lemma HandOrderCoarserThanEquality(a: Hand, b: Hand)
    requires a.cards == [Card(Two, Spade), Card(Three, Heart), Card(Four, Diamond), Card(Five, Club), Card(Seven, Spade)]
    requires b.cards == [Card(Two, Heart), Card(Three, Heart), Card(Four, Diamond), Card(Five, Club), Card(Seven, Spade)]
    ensures HandPartialCmp(a, b) == Some(Equal)
    ensures a != b
  {
    HighCardExample(a);
    MixedHighCardExample(b);
    OnlyFirstSuitDiffers(a, b);
    SameCategoryAndRanksCompareEqual(a, b);
  }

  /** `Hand::new` on four and on six cards. */
  lemma NewHandRejectsWrongSizes()
    ensures NewHand([Card(Two, Spade), Card(Three, Heart), Card(Four, Diamond), Card(Five, Club)]) == Err(())
    ensures NewHand([Card(Two, Spade), Card(Three, Heart), Card(Four, Diamond), Card(Five, Club), Card(Seven, Spade), Card(Nine, Club)]) == Err(())
  {
  }
}
