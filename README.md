# Five-card poker hands: classification and comparison

A Dafny model of the rs-pokerhand library: playing cards, the ten hand
categories, how a hand of five cards is classified, and how two hands are
ordered.

- `cmp.dfy` (module `Cmp`): `Ordering`, `Option` and `Result` from Rust's
  core library, and the integer comparison that derived orderings come down to.
- `card.dfy` (module `Cards`): `Rank` with its explicit codes `Two = 0` …
  `Ace = 12`, `Suit`, and `Card`. A card's `partial_cmp` and `cmp` compare
  ranks only.
- `hand_type.dfy` (module `HandTypes`): `StraightType`, `HandType` and the
  derived `PartialOrd`. Variants compare by declaration order first; two
  straights, or two straight flushes, then compare by their payload, `AceLow`
  below `Other`. `StrengthOrder` lists all twelve values weakest first. The
  derived order is proved to be exactly the order of that list.
- `sort.dfy` (module `RankSort`): the sort inside `hand_type`.
  - `SortInPlace` is an in-place insertion sort on an array, proved to
    produce a rank-sorted permutation.
  - `SortByRank` is a functional insertion sort; the specification of a
    hand's category, `HandTypeOf`, sorts with it.
  - `SortedPermutationsSameRanks` proves that any two rank-sorted
    permutations of the same cards carry the same rank at every position.
    Both sorts give such permutations, so they carry the same ranks and the
    chain gives the same category on either. It does not matter which order
    a sort leaves cards of equal rank in.
- `sorted_hand.dfy` (module `SortedHands`): the nine `SortedHand::is_*`
  tests, written as the positional slice patterns of the source, and the
  if/else chain of `hand_type` (`Classify`).
  - `Matches` gives each category an independent meaning that reads no
    fixed position: "some three cards share a rank", "the cards carry Ten,
    Jack, Queen, King and Ace in some order", "five distinct ranks whose
    codes lie within four of one another".
  - On sorted cards, each test is proved equivalent to its meaning.
  - The chain is proved to return the strongest category that matches.
- `hand.dfy` (module `Hands`): `Hand` holds exactly five cards, in input
  order.
  - `NewHand` models `Hand::new`.
  - `ClassifyHand` models `hand_type`. It copies the cards into a buffer,
    sorts the buffer in place, then runs the chain, and is proved equal to
    the specification `HandTypeOf`.
  - `RoyalFlushInAnyOrder` and `AceLowStraightInAnyOrder` state those two
    categories over the cards as given, in any input order.
  - `HandPartialCmp` models `PartialOrd for Hand`, and `CardsPartialCmp`
    models the slice comparison on `Vec<Card>` that it falls back on.
- `examples_hands.dfy` (module `HandExamples`): every scenario of the source's
  test module, proved about concrete hands. It adds the quirks of the
  comparison:
  - the tie-break reads input order;
  - hands that differ only in suits compare `Equal` without being `==`;
  - an ace-low straight given Ace first loses to Two-to-Six although its
    cards, compared one by one, are higher.

Behaviour of the code that the model keeps:
- The `StraightType` payload takes part when two hands' categories are
  compared (src/hand.rs:193-194), so an ace-low straight loses to every
  other straight.
- Equal categories compare the stored cards in input order
  (src/hand.rs:196), not sorted.
- `is_straight_flush` always tags the result `Other`, the ace-low straight
  flush included (src/hand.rs:86).
- `Hand::new` checks only the number of cards; duplicate cards are not
  rejected (src/hand.rs:29-37).

## Model

| member | source | states |
|---|---|---|
| Cmp.CmpInt | src/card.rs:1 | the derived integer comparison answers Less, Equal or Greater exactly when the first operand is smaller, equal or larger |
| Cmp.CmpIntAntisymmetric | src/card.rs:1 | swapping the operands of an integer comparison reverses its answer |
| Cards.Code | src/card.rs:2-16 | every rank's explicit code is at most 12 |
| Cards.FromCode | src/card.rs:2-16 | every code from 0 to 12 is the code of some rank |
| Cards.FromCodeOfCode | src/card.rs:2-16 | decoding a rank's code gives the rank back |
| Cards.CodeInjective | src/card.rs:2-16 | two ranks have equal codes exactly when they are the same rank |
| Cards.CodesAreDeclarationPositions | src/card.rs:2-16 | the i-th declared rank has code i, each rank's successor has code one more, and the 13 ranks are all declared |
| Cards.RankOrderIsDeclarationOrder | src/card.rs:1-16 | `RankCmp`, the derived rank order, is declaration order: Two < Three < … < King < Ace |
| Cards.CardCmpIgnoresSuit | src/card.rs:35-39 | `CardCmp` gives the same answer whatever the two cards' suits; Equal exactly for equal ranks, Less exactly for a lower code |
| Cards.CardPartialCmpAgreesWithCmp | src/card.rs:29-33 | `CardPartialCmp`, a card's `partial_cmp`, never answers None and agrees with `CardCmp` |
| Cards.CardCmpTotalPreorder | src/card.rs:35-39 | `CardCmp` is reflexive, reverses when the operands are swapped (so it is total), and is transitive, strictly and non-strictly |
| Cards.CardOrderCoarserThanEquality | src/card.rs:26-38 | equal cards compare Equal, but Ace of Spades and Ace of Hearts compare Equal without being equal |
| RankSort.InsertByRank | src/hand.rs:41 | inserting into a rank-sorted sequence gives a rank-sorted sequence holding the old cards plus the new one |
| RankSort.SortByRank | src/hand.rs:41 | the reference sort returns a rank-sorted permutation of its input |
| RankSort.Swap | src/hand.rs:41 | exchanging two cells changes just those two and keeps the multiset of cards |
| RankSort.SinkIntoPlace | src/hand.rs:41 | moving card `i` down into the sorted prefix before it makes the first `i + 1` cells sorted, keeps the multiset of cards and leaves every cell after `i` unchanged |
| RankSort.SortInPlace | src/hand.rs:40-41 | sorting the buffer in place leaves it rank-sorted and a permutation of its old contents |
| RankSort.SortedWindowConstant | src/hand.rs:92-188 | in sorted cards, equal ranks at both ends of a window mean one rank throughout it |
| RankSort.SortedPermutationsSameRanks | src/hand.rs:40-42 | any two rank-sorted permutations of the same cards carry the same rank at every position |
| HandTypes.Discriminant | src/hand.rs:9-21 | every variant has a declaration position below 10 |
| HandTypes.HandTypePartialCmp | src/hand.rs:3-21 | the derived order of hand types always answers, and answers Equal exactly for equal hand types (payload included) |
| HandTypes.Strength | src/hand.rs:3-21 | every hand type stands at some position of `StrengthOrder` |
| HandTypes.DerivedOrderIsStrengthOrder | src/hand.rs:3-21 | `HandTypePartialCmp`, the derived order (discriminant, then the payload through `StraightTypePartialCmp`, AceLow < Other), is the order of positions in `StrengthOrder` |
| HandTypes.StrengthOrderIsInjective | src/hand.rs:9-21 | `StrengthOrder` lists each hand type once |
| HandTypes.HandTypeOrderIsTotalOrder | src/hand.rs:3-21 | `HandTypePartialCmp` reverses when the operands are swapped, and its Less is transitive |
| SortedHands.FlushIff | src/hand.rs:124-131 | `IsFlush` matches exactly five cards of one suit |
| SortedHands.PairIff | src/hand.rs:180-188 | on sorted cards, `IsPair`'s four adjacent windows find a pair exactly when some two cards share a rank |
| SortedHands.ThreeOfAKindIff | src/hand.rs:150-163 | on sorted cards, `IsThreeOfAKind`'s three windows find a triple exactly when some three cards share a rank |
| SortedHands.FourOfAKindIff | src/hand.rs:92-106 | on sorted cards, `IsFourOfAKind`'s two windows find a quad exactly when some four cards share a rank |
| SortedHands.FullHouseIff | src/hand.rs:108-122 | on sorted cards, `IsFullHouse`'s two patterns match exactly when every card shares its rank with another card |
| SortedHands.TwoPairIff | src/hand.rs:165-178 | on sorted cards, `IsTwoPair`'s three patterns match exactly when two disjoint pairs of cards each share a rank |
| SortedHands.RanksAreHasRanks | src/hand.rs:73-82 | cards that carry given ranks position by position carry each of those ranks |
| SortedHands.SortedHasRanks | src/hand.rs:73-82 | five sorted cards that carry five strictly ascending ranks in any order carry them position by position |
| SortedHands.LowerRankSitsLower | src/hand.rs:41 | in sorted cards, a card of lower rank sits at a lower index |
| SortedHands.SortedRanksAreIff | src/hand.rs:73-82 | on sorted cards, the fixed-position rank pattern of five ascending ranks matches exactly when the cards carry those ranks in any order |
| SortedHands.RunIsConsecutive | src/hand.rs:133-148 | sorted cards with five distinct ranks within four codes of one another have consecutive codes |
| SortedHands.ConsecutiveIsRun | src/hand.rs:133-148 | five consecutive codes are five distinct ranks within four codes of one another |
| SortedHands.StraightIff | src/hand.rs:133-148 | on sorted cards, `IsStraight` answers AceLow exactly when the cards carry Two, Three, Four, Five and Ace in any order, and Other exactly for five distinct ranks whose codes lie within four of one another; no other wrap-around |
| SortedHands.RoyalFlushIff | src/hand.rs:73-82 | on sorted cards, `IsRoyalFlush` matches exactly five cards of one suit that carry Ten, Jack, Queen, King and Ace in any order |
| SortedHands.StraightFlushIff | src/hand.rs:84-90 | on sorted cards, `IsStraightFlush` matches exactly five cards of one suit that are the wheel in any order or a run, and its payload is never AceLow |
| SortedHands.StraightHasNoPair | src/hand.rs:133-148 | whenever `IsStraight` matches, `IsPair` does not |
| SortedHands.ClassifyIsStrongestPassed | src/hand.rs:44-64 | `Classify` returns a category whose test passes, and no test of a stronger category passes |
| SortedHands.PassesTestIffMatches | src/hand.rs:73-188 | on sorted cards, each category's positional test is equivalent to the category's meaning |
| SortedHands.ClassifyIsStrongestMatch | src/hand.rs:44-64 | on sorted cards, the category `Classify` returns describes the cards and no stronger category does |
| SortedHands.RepeatedRanksBeatFlush | src/hand.rs:44-53 | `Classify` reports a flush that holds four cards of one rank as FourOfAKind |
| SortedHands.ClassifyNeverAceLowStraightFlush | src/hand.rs:44-64 | `Classify` never answers `StraightFlush(AceLow)` |
| SortedHands.ClassifyRoyalFlush | src/hand.rs:44-47 | `Classify` answers RoyalFlush exactly when `IsRoyalFlush` matches |
| SortedHands.ClassifyAceLowStraight | src/hand.rs:44-64 | `Classify` answers `Straight(AceLow)` exactly when `IsStraight` answers AceLow and `IsFlush` does not match |
| SortedHands.RankTestsReadRanks | src/hand.rs:92-188 | every test except the flush test gives the same answer on cards with the same ranks |
| SortedHands.ClassifyReadsRanksAndFlush | src/hand.rs:44-188 | `Classify` gives the same category to cards with the same ranks and the same flush status |
| SortedHands.FlushPermutationInvariant | src/hand.rs:124-131 | whether the cards are a flush does not depend on their order |
| SortedHands.HasRanksPermutationInvariant | src/hand.rs:39-42 | whether cards carry given ranks does not depend on their order |
| Hands.NewHand | src/hand.rs:29-37 | succeeds exactly for five cards and keeps them in input order; any other length is `Err(())` |
| Hands.ClassifyHand | src/hand.rs:39-65 | copying the cards into a buffer, sorting it in place and running the chain gives `HandTypeOf`, whichever order equal ranks end up in |
| Hands.HandTypePermutationInvariant | src/hand.rs:39-42 | `HandTypeOf` does not depend on the order of a hand's cards |
| Hands.HandTypeIsStrongestMatch | src/hand.rs:39-65 | `HandTypeOf` gives a category that describes the hand's sorted cards, and no stronger category does |
| Hands.RoyalFlushInAnyOrder | src/hand.rs:39-82 | `HandTypeOf` answers RoyalFlush exactly when the hand's cards, in any input order, are of one suit and carry Ten, Jack, Queen, King and Ace |
| Hands.AceLowStraightInAnyOrder | src/hand.rs:39-65 | `HandTypeOf` answers `Straight(AceLow)` exactly when the hand's cards, in any input order, carry Two, Three, Four, Five and Ace and are not all of one suit |
| Hands.NoAceLowStraightFlush | src/hand.rs:84-90 | `HandTypeOf` never answers `StraightFlush(AceLow)` |
| Hands.CardsPartialCmp | src/hand.rs:196 | the slice comparison of card vectors never answers None |
| Hands.CardsPartialCmpEqualIff | src/hand.rs:196 | on vectors of one length, Equal exactly when every position has the same rank |
| Hands.CardsPartialCmpLessIff | src/hand.rs:196 | on vectors of one length, Less exactly when the first differing rank of the left vector is lower |
| Hands.CardsPartialCmpReverse | src/hand.rs:196 | swapping the vectors reverses the slice comparison |
| Hands.CardsPartialCmpIsRankLex | src/hand.rs:196 | on vectors of one length, the slice comparison is the lexicographic order of the ranks; suits never count |
| Hands.HandPartialCmp | src/hand.rs:191-198 | comparing two hands never answers None |
| Hands.HandComparisonMeaning | src/hand.rs:191-198 | the stronger category wins; in one category, the input-order ranks decide lexicographically; Equal exactly for one category and the same ranks position by position |
| Hands.HandComparisonAntisymmetric | src/hand.rs:191-198 | swapping two hands reverses their comparison |
| Hands.RankLexLessTransitive | src/hand.rs:196 | the lexicographic rank order is transitive |
| Hands.HandComparisonTransitive | src/hand.rs:191-198 | Less on hands is transitive |
| Hands.AceLowStraightLosesToOtherStraights | src/hand.rs:193-194 | an ace-low straight loses to a straight of kind Other and to every stronger category, whatever the cards |
| Hands.StraightFlushBeatsFlush | src/hand.rs:193-194 | every straight flush beats every flush |
| HandExamples.SortedFive | src/hand.rs:41 | five cards whose ranks never go down are rank-sorted |
| HandExamples.HandTypeOfSortedInput | src/hand.rs:39-65 | a hand given in rank order is classified on its own cards |
| HandExamples.StraightFlushCards | src/hand.rs:206-219 | the chain classifies 2-6 of Spades as `StraightFlush(Other)` |
| HandExamples.StraightFlushExample | src/hand.rs:206-219 | the hand 2-6 of Spades is `StraightFlush(Other)` |
| HandExamples.FlushCards | src/hand.rs:222-232 | the chain classifies 2, 3, 4, 5, 7 of Spades as Flush |
| HandExamples.FlushExample | src/hand.rs:222-232 | the hand 2, 3, 4, 5, 7 of Spades is a Flush |
| HandExamples.FourOfAKindCards | src/hand.rs:235-245 | the chain classifies four Twos and a Seven as FourOfAKind |
| HandExamples.FourOfAKindExample | src/hand.rs:235-245 | the hand of four Twos and a Seven is FourOfAKind |
| HandExamples.FullHouseCards | src/hand.rs:248-258 | the chain classifies three Twos and two Threes as FullHouse |
| HandExamples.FullHouseExample | src/hand.rs:248-258 | the hand of three Twos and two Threes is a FullHouse |
| HandExamples.StraightCards | src/hand.rs:261-271 | the chain classifies 2-6 of mixed suits as `Straight(Other)` |
| HandExamples.StraightExample | src/hand.rs:261-271 | the hand 2-6 of mixed suits is `Straight(Other)` |
| HandExamples.AceLowStraightCards | src/hand.rs:274-284 | the chain classifies 2, 3, 4, 5, Ace of mixed suits as `Straight(AceLow)` |
| HandExamples.AceLowStraightExample | src/hand.rs:274-284 | the hand 2, 3, 4, 5, Ace of mixed suits is `Straight(AceLow)` |
| HandExamples.ThreeOfAKindCards | src/hand.rs:287-297 | the chain classifies three Twos, a Three and a Four as ThreeOfAKind |
| HandExamples.ThreeOfAKindExample | src/hand.rs:287-297 | the hand of three Twos, a Three and a Four is ThreeOfAKind |
| HandExamples.TwoPairCards | src/hand.rs:300-310 | the chain classifies two Twos, two Threes and a Four as TwoPair |
| HandExamples.TwoPairExample | src/hand.rs:300-310 | the hand of two Twos, two Threes and a Four is TwoPair |
| HandExamples.PairCards | src/hand.rs:313-323 | the chain classifies two Twos, a Three, a Four and a Five as Pair |
| HandExamples.PairExample | src/hand.rs:313-323 | the hand of two Twos, a Three, a Four and a Five is a Pair |
| HandExamples.HighCardCards | src/hand.rs:326-336 | the chain classifies 2, 3, 4, 5, 7 of mixed suits as HighCard |
| HandExamples.HighCardExample | src/hand.rs:326-336 | the hand 2, 3, 4, 5, 7 of mixed suits is HighCard |
| HandExamples.RoyalFlushCards | src/hand.rs:73-82 | the chain classifies Ten to Ace of Hearts as RoyalFlush |
| HandExamples.RoyalFlushExample | src/hand.rs:73-82 | the hand Ten to Ace of Hearts is a RoyalFlush |
| HandExamples.AceLowStraightFlushCards | src/hand.rs:84-90 | the chain classifies 2, 3, 4, 5, Ace of Clubs as `StraightFlush(Other)` |
| HandExamples.AceLowStraightFlushExample | src/hand.rs:84-90 | the ace-low straight flush hand is `StraightFlush(Other)` |
| HandExamples.MixedWheelCards | src/hand.rs:362-382 | the chain classifies the mixed-suit 2, 3, 4, 5, Ace as `Straight(AceLow)` |
| HandExamples.MixedWheelExample | src/hand.rs:362-382 | the first hand of the ace-low against ace-high test is `Straight(AceLow)` |
| HandExamples.MixedBroadwayCards | src/hand.rs:362-382 | the chain classifies the mixed-suit Ten to Ace as `Straight(Other)` |
| HandExamples.MixedBroadwayExample | src/hand.rs:362-382 | the second hand of the ace-low against ace-high test is `Straight(Other)` |
| HandExamples.MixedSixHighStraightCards | src/hand.rs:385-405 | the chain classifies the mixed-suit 2 to 6 as `Straight(Other)` |
| HandExamples.MixedSixHighStraightExample | src/hand.rs:385-405 | the second hand of the ace-low against standard straight test is `Straight(Other)` |
| HandExamples.SortedWheelCards | src/hand.rs:385-405 | the chain classifies the sorted first hand of that test as `Straight(AceLow)` |
| HandExamples.SortedWheelExample | src/hand.rs:385-405 | that hand, given sorted, is `Straight(AceLow)` |
| HandExamples.MixedHighCardCards | src/hand.rs:326-336 | the chain classifies 2, 3, 4, 5, 7 with two Hearts as HighCard |
| HandExamples.MixedHighCardExample | src/hand.rs:326-336 | that hand is HighCard |
| HandExamples.RotatedCards | src/hand.rs:39-42 | moving the first of five cards to the end keeps the same cards |
| HandExamples.AceFirstWheelCards | src/hand.rs:385-405 | the wheel given Ace first carries Two, Three, Four, Five and Ace and is not all of one suit |
| HandExamples.AceFirstWheelExample | src/hand.rs:385-405 | the wheel given Ace first is still `Straight(AceLow)` |
| HandExamples.StraightFlushAboveFlush | src/hand.rs:193-194 | a `StraightFlush(Other)` hand is above a Flush hand |
| HandExamples.StraightFlushBeatsFlushExample | src/hand.rs:339-359 | 2-6 of Spades beats 2, 3, 4, 5, 7 of Spades |
| HandExamples.AceLowBelowOtherStraight | src/hand.rs:193-194 | a `Straight(AceLow)` hand is below a `Straight(Other)` hand |
| HandExamples.AceLowBelowAceHighStraightExample | src/hand.rs:362-382 | the ace-low straight is below the ace-high straight |
| HandExamples.AceFirstCardsAbove | src/hand.rs:196 | card by card, a vector opening with an Ace is above one opening with a Two |
| HandExamples.AceLowBelowSixHighStraightExample | src/hand.rs:385-405 | the wheel given Ace first is below Two-to-Six, although its cards compared one by one are above |
| HandExamples.ReorderedCards | src/hand.rs:196 | the two hands of the tie-break example hold the same cards |
| HandExamples.ReorderedFirstRanks | src/hand.rs:196 | the first of them opens with a lower rank than the second |
| HandExamples.LowerFirstRankLoses | src/hand.rs:193-196 | in one category, the hand whose first input card has the lower rank loses |
| HandExamples.TieBreakReadsInputOrder | src/hand.rs:196 | the same five cards in two input orders compare Less, not Equal: the tie-break reads the input order |
| HandExamples.SameCategoryAndRanksCompareEqual | src/hand.rs:193-196 | hands of one category with the same ranks position by position compare Equal |
| HandExamples.OnlyFirstSuitDiffers | src/hand.rs:23-26 | two hands that differ only in one suit have the same ranks and are not `==` |
| HandExamples.HandOrderCoarserThanEquality | src/hand.rs:191-198 | two hands that differ only in a suit compare Equal yet are not `==` |
| HandExamples.NewHandRejectsWrongSizes | src/hand.rs:29-37 | `Hand::new` gives `Err(())` on four and on six cards |

## Left out

- `Debug` derives: they only format values.
- `sort` of the standard library: `SortInPlace` is an insertion sort that stands in for it. The model proves that every rank-sorted order of the same cards gives the same category, so the algorithm and its stability do not matter.
- `clone` and `to_vec`: copying the cards is modelled by value semantics (`Hand` holds a sequence) and by the array copy in `ClassifyHand`.
- The trait-coherence laws between `Hand`'s derived `==` and its `partial_cmp`: they do not hold (`HandOrderCoarserThanEquality` shows two hands for which they fail), and nothing in the source relies on them.
- `u8` arithmetic in `is_straight` is modelled on unbounded integers: the largest code is 12, so `code + 1` is at most 13 and cannot wrap.
- Kicker rules, duplicate-card rejection and a sorted tie-break are not in the source, so they are not in the model.
- There is no I/O, concurrency or floating point in the source.
