/** A hand of five cards: construction, classification (`hand_type`) and the
    comparison `PartialOrd for Hand`. */
module Hands {
  import opened Cmp
  import opened Cards
  import opened HandTypes
  import opened RankSort
  import opened SortedHands

  /** Exactly five cards, in the order they were given. */
  type FiveCards = s: seq<Card> | |s| == 5
    witness [Card(Two, Spade), Card(Three, Spade), Card(Four, Spade), Card(Five, Spade), Card(Six, Spade)]

  /** `Hand { cards }`; derived equality is structural (input order and suits). */
  datatype Hand = Hand(cards: FiveCards)

  /** `Hand::new`: five cards make a hand holding them in input order; any other
      number is the error `Err(())`. Duplicate cards are not rejected. */
  function NewHand(cards: seq<Card>): (r: Result<Hand, ()>)
    ensures r.Ok? <==> |cards| == 5
    ensures r.Ok? ==> r.value.cards == cards
    ensures r.Err? ==> r == Err(())
  {
    if |cards| == 5 then Ok(Hand(cards)) else Err(())
  }

  /** The category of a hand: its cards sorted by rank, then the chain of tests. */
  function HandTypeOf(h: Hand): HandType {
    Classify(SortByRank(h.cards))
  }

  /** `Hand::hand_type`: clones the cards into a local buffer, sorts it in place
      and runs the chain of tests on the result. Whichever rank-sorted order the
      sort leaves equal ranks in, the answer is the specified one. */
  method ClassifyHand(h: Hand) returns (t: HandType)
    ensures t == HandTypeOf(h)
  {
    var buffer := new Card[5](i requires 0 <= i < 5 => h.cards[i]);
    assert buffer[..] == h.cards;
    SortInPlace(buffer);
    var sorted := buffer[..];
    SortedPermutationsSameRanks(sorted, SortByRank(h.cards));
    FlushPermutationInvariant(sorted, SortByRank(h.cards));
    ClassifyReadsRanksAndFlush(sorted, SortByRank(h.cards));
    t := Classify(sorted);
  }

  /** The category of a hand does not depend on the order of its cards. */
  lemma HandTypePermutationInvariant(a: Hand, b: Hand)
    requires multiset(a.cards) == multiset(b.cards)
    ensures HandTypeOf(a) == HandTypeOf(b)
  {
    var sa, sb := SortByRank(a.cards), SortByRank(b.cards);
    SortedPermutationsSameRanks(sa, sb);
    FlushPermutationInvariant(sa, sb);
    ClassifyReadsRanksAndFlush(sa, sb);
  }

  /** The category of a hand is the strongest category that describes its cards. */
  lemma HandTypeIsStrongestMatch(h: Hand)
    ensures Matches(HandTypeOf(h), SortByRank(h.cards))
    ensures forall i :: Strength(HandTypeOf(h)) < i < |StrengthOrder| ==>
              !Matches(StrengthOrder[i], SortByRank(h.cards))
  {
    ClassifyIsStrongestMatch(SortByRank(h.cards));
  }

  /** A hand is a royal flush exactly when its cards, in whatever order they
      were given, are of one suit and are Ten, Jack, Queen, King and Ace. */
  lemma RoyalFlushInAnyOrder(h: Hand)
    ensures HandTypeOf(h) == RoyalFlush <==>
            AllSameSuit(h.cards) && HasRanks(h.cards, RoyalRanks)
  {
    var sorted := SortByRank(h.cards);
    ClassifyRoyalFlush(sorted);
    RoyalFlushIff(sorted);
    FlushPermutationInvariant(sorted, h.cards);
    HasRanksPermutationInvariant(sorted, h.cards, RoyalRanks);
  }

  /** A hand is an ace-low straight exactly when its cards, in whatever order
      they were given, are Two, Three, Four, Five and Ace, not all of one
      suit (of one suit they make a straight flush). */
  lemma AceLowStraightInAnyOrder(h: Hand)
    ensures HandTypeOf(h) == Straight(AceLow) <==>
            !AllSameSuit(h.cards) && HasRanks(h.cards, WheelRanks)
  {
    var sorted := SortByRank(h.cards);
    ClassifyAceLowStraight(sorted);
    StraightIff(sorted);
    FlushIff(sorted);
    FlushIff(h.cards);
    FlushPermutationInvariant(sorted, h.cards);
    HasRanksPermutationInvariant(sorted, h.cards, WheelRanks);
  }

  /** No hand is ever classified as an ace-low straight flush. */
  lemma NoAceLowStraightFlush(h: Hand)
    ensures HandTypeOf(h) != StraightFlush(AceLow)
  {
    ClassifyNeverAceLowStraightFlush(SortByRank(h.cards));
  }

  /** `PartialOrd for [Card]` (used through `Vec`): the first position where
      the cards' `partial_cmp` is not `Some(Equal)` decides; when one sequence
      is a prefix of the other, the lengths decide. */
  function CardsPartialCmp(x: seq<Card>, y: seq<Card>): (r: Option<Ordering>)
    ensures r.Some?
    decreases |x|
  {
    if x == [] || y == [] then Some(CmpInt(|x|, |y|))
    else match CardPartialCmp(x[0], y[0])
      case Some(Equal) => CardsPartialCmp(x[1..], y[1..])
      case other => other
  }

  /** Cards `x` and `y` have the same ranks before position `k`. */
  predicate RanksAgreeBelow(x: seq<Card>, y: seq<Card>, k: nat)
    requires k <= |x| && k <= |y|
  {
    forall i :: 0 <= i < k ==> x[i].rank == y[i].rank
  }

  /** `x` is below `y` by rank at the first position where their ranks differ. */
  ghost predicate RankLexLess(x: seq<Card>, y: seq<Card>) {
    exists k :: 0 <= k < |x| && k < |y| && RanksAgreeBelow(x, y, k) && Code(x[k].rank) < Code(y[k].rank)
  }

  /** For sequences of one length, the slice comparison answers Equal exactly
      when every rank agrees. */
  lemma {:induction false} CardsPartialCmpEqualIff(x: seq<Card>, y: seq<Card>)
    requires |x| == |y|
    ensures CardsPartialCmp(x, y) == Some(Equal) <==> SameRanks(x, y)
    decreases |x|
  {
    if x != [] {
      CodeInjective(x[0].rank, y[0].rank);
      CardsPartialCmpEqualIff(x[1..], y[1..]);
      if x[0].rank == y[0].rank {
        if SameRanks(x[1..], y[1..]) {
          forall i | 0 <= i < |x| ensures x[i].rank == y[i].rank {
            if i > 0 { assert x[1..][i - 1] == x[i] && y[1..][i - 1] == y[i]; }
          }
        }
        if SameRanks(x, y) {
          forall i | 0 <= i < |x| - 1 ensures x[1..][i].rank == y[1..][i].rank {
            assert x[1..][i] == x[i + 1] && y[1..][i] == y[i + 1];
          }
        }
      }
    }
  }

  /** Agreeing below `k` is agreeing on the first card and, after it, below `k - 1`. */
  lemma AgreeBelowShift(x: seq<Card>, y: seq<Card>, k: nat)
    requires 0 < k <= |x| && k <= |y|
    ensures RanksAgreeBelow(x, y, k) <==> x[0].rank == y[0].rank && RanksAgreeBelow(x[1..], y[1..], k - 1)
  {
    if x[0].rank == y[0].rank && RanksAgreeBelow(x[1..], y[1..], k - 1) {
      forall i | 0 < i < k ensures x[i].rank == y[i].rank {
        assert x[1..][i - 1] == x[i] && y[1..][i - 1] == y[i];
      }
    }
    if RanksAgreeBelow(x, y, k) {
      forall i | 0 <= i < k - 1 ensures x[1..][i].rank == y[1..][i].rank {
        assert x[1..][i] == x[i + 1] && y[1..][i] == y[i + 1];
      }
    }
  }

  /** For sequences of one length, the slice comparison answers Less exactly
      when the first differing rank of `x` is the lower one. */
  lemma {:induction false} CardsPartialCmpLessIff(x: seq<Card>, y: seq<Card>)
    requires |x| == |y|
    ensures CardsPartialCmp(x, y) == Some(Less) <==> RankLexLess(x, y)
    decreases |x|
  {
    if x != [] {
      CodeInjective(x[0].rank, y[0].rank);
      CardsPartialCmpLessIff(x[1..], y[1..]);
      if x[0].rank == y[0].rank {
        if RankLexLess(x, y) {
          var k :| 0 <= k < |x| && k < |y| && RanksAgreeBelow(x, y, k) && Code(x[k].rank) < Code(y[k].rank);
          AgreeBelowShift(x, y, k);
          assert x[1..][k - 1] == x[k] && y[1..][k - 1] == y[k];
        }
        if RankLexLess(x[1..], y[1..]) {
          var k :| 0 <= k < |x| - 1 && RanksAgreeBelow(x[1..], y[1..], k) && Code(x[1..][k].rank) < Code(y[1..][k].rank);
          AgreeBelowShift(x, y, k + 1);
        }
      } else {
        assert RanksAgreeBelow(x, y, 0);
        if RankLexLess(x, y) {
          var k :| 0 <= k < |x| && k < |y| && RanksAgreeBelow(x, y, k) && Code(x[k].rank) < Code(y[k].rank);
          assert k == 0;
        }
      }
    }
  }

  /** Swapping the operands of the slice comparison reverses its answer. */
  lemma {:induction false} CardsPartialCmpReverse(x: seq<Card>, y: seq<Card>)
    requires |x| == |y|
    ensures CardsPartialCmp(y, x) == Some(CardsPartialCmp(x, y).value.Reverse())
    decreases |x|
  {
    if x != [] {
      CardsPartialCmpReverse(x[1..], y[1..]);
    }
  }

  /** For sequences of one length, the slice comparison is the lexicographic
      order of the rank sequences: Equal exactly when every rank agrees, Less
      exactly when the first differing rank of `x` is lower, and swapping the
      operands reverses the answer. Suits never take part. */
  lemma CardsPartialCmpIsRankLex(x: seq<Card>, y: seq<Card>)
    requires |x| == |y|
    ensures CardsPartialCmp(x, y) == Some(Equal) <==> SameRanks(x, y)
    ensures CardsPartialCmp(x, y) == Some(Less) <==> RankLexLess(x, y)
    ensures CardsPartialCmp(y, x) == Some(CardsPartialCmp(x, y).value.Reverse())
  {
    CardsPartialCmpEqualIff(x, y);
    CardsPartialCmpLessIff(x, y);
    CardsPartialCmpReverse(x, y);
  }

  /** `PartialOrd for Hand`: different categories (payload included) compare by
      the derived order of `HandType`; equal categories compare the hands'
      stored, input-order cards lexicographically by rank. */
  function HandPartialCmp(a: Hand, b: Hand): (r: Option<Ordering>)
    ensures r.Some?
  {
    if HandTypeOf(a) != HandTypeOf(b) then HandTypePartialCmp(HandTypeOf(a), HandTypeOf(b))
    else CardsPartialCmp(a.cards, b.cards)
  }

  /** The comparison of hands, spelled out: the stronger category wins, as
      ranked by `StrengthOrder`; in one category, the input-order ranks are
      compared lexicographically. It never answers None. */
  lemma HandComparisonMeaning(a: Hand, b: Hand)
    ensures HandPartialCmp(a, b).Some?
    ensures Strength(HandTypeOf(a)) < Strength(HandTypeOf(b)) ==> HandPartialCmp(a, b) == Some(Less)
    ensures Strength(HandTypeOf(a)) > Strength(HandTypeOf(b)) ==> HandPartialCmp(a, b) == Some(Greater)
    ensures HandTypeOf(a) == HandTypeOf(b) ==>
              (HandPartialCmp(a, b) == Some(Less) <==> RankLexLess(a.cards, b.cards))
    ensures HandPartialCmp(a, b) == Some(Equal) <==>
              HandTypeOf(a) == HandTypeOf(b) && SameRanks(a.cards, b.cards)
  {
    DerivedOrderIsStrengthOrder(HandTypeOf(a), HandTypeOf(b));
    CardsPartialCmpIsRankLex(a.cards, b.cards);
  }

  /** Swapping two hands reverses their comparison. */
  lemma HandComparisonAntisymmetric(a: Hand, b: Hand)
    ensures HandPartialCmp(b, a) == Some(HandPartialCmp(a, b).value.Reverse())
  {
    HandTypeOrderIsTotalOrder(HandTypeOf(a), HandTypeOf(b), HandTypeOf(b));
    CardsPartialCmpIsRankLex(a.cards, b.cards);
  }

  /** `RankLexLess` is transitive on sequences of one length. */
  lemma RankLexLessTransitive(x: seq<Card>, y: seq<Card>, z: seq<Card>)
    requires |x| == |y| == |z|
    requires RankLexLess(x, y) && RankLexLess(y, z)
    ensures RankLexLess(x, z)
  {
    var k :| 0 <= k < |x| && RanksAgreeBelow(x, y, k) && Code(x[k].rank) < Code(y[k].rank);
    var m :| 0 <= m < |y| && RanksAgreeBelow(y, z, m) && Code(y[m].rank) < Code(z[m].rank);
    var n := if k < m then k else m;
    assert RanksAgreeBelow(x, z, n);
    assert Code(x[n].rank) < Code(z[n].rank);
  }

  /** The comparison of hands is transitive: a strict order on hands up to `Equal`. */
  lemma HandComparisonTransitive(a: Hand, b: Hand, c: Hand)
    requires HandPartialCmp(a, b) == Some(Less) && HandPartialCmp(b, c) == Some(Less)
    ensures HandPartialCmp(a, c) == Some(Less)
  {
    HandComparisonMeaning(a, b);
    HandComparisonMeaning(b, c);
    HandComparisonMeaning(a, c);
    DerivedOrderIsStrengthOrder(HandTypeOf(a), HandTypeOf(b));
    DerivedOrderIsStrengthOrder(HandTypeOf(b), HandTypeOf(c));
    StrengthOrderIsInjective(Strength(HandTypeOf(a)), Strength(HandTypeOf(c)));
    StrengthOrderIsInjective(Strength(HandTypeOf(a)), Strength(HandTypeOf(b)));
    StrengthOrderIsInjective(Strength(HandTypeOf(b)), Strength(HandTypeOf(c)));
    if HandTypeOf(a) == HandTypeOf(b) == HandTypeOf(c) {
      RankLexLessTransitive(a.cards, b.cards, c.cards);
    }
  }

  /** An ace-low straight loses to every other straight and to every stronger
      category, whatever the cards: the payload decides before any card does. */
  lemma AceLowStraightLosesToOtherStraights(a: Hand, b: Hand)
    requires HandTypeOf(a) == Straight(AceLow)
    requires Strength(HandTypeOf(b)) > Strength(Straight(AceLow))
    ensures HandPartialCmp(a, b) == Some(Less)
  {
    HandComparisonMeaning(a, b);
  }

  /** Every straight flush beats every flush. */
  lemma StraightFlushBeatsFlush(a: Hand, b: Hand)
    requires HandTypeOf(a).StraightFlush? && HandTypeOf(b) == Flush
    ensures HandPartialCmp(a, b) == Some(Greater)
  {
    HandComparisonMeaning(a, b);
  }
}
