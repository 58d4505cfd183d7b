/** `SortedHand`: the five cards of a hand in ascending rank order, and the
    pattern tests that `hand_type` runs on it. Each test reads fixed positions
    of the sorted cards; on a sequence that is not five long none matches,
    as a five-element slice pattern would not. */
module SortedHands {
  import opened Cmp
  import opened Cards
  import opened HandTypes
  import opened RankSort

  /** The ranks of `s`, position by position, are `rs`. */
  predicate RanksAre(s: seq<Card>, rs: seq<Rank>) {
    |s| == |rs| && forall i :: 0 <= i < |s| ==> s[i].rank == rs[i]
  }

  /** The ranks of the royal flush, in ascending order. */
  const RoyalRanks: seq<Rank> := [Ten, Jack, Queen, King, Ace]

  /** The ranks of the ace-low straight (the "wheel"), in ascending rank order. */
  const WheelRanks: seq<Rank> := [Two, Three, Four, Five, Ace]

  // ---------------------------------------------------------------------------
  // The pattern tests, as the source writes them.

  function IsRoyalFlush(s: seq<Card>): Option<HandType> {
    if RanksAre(s, RoyalRanks) && IsFlush(s).Some? then Some(RoyalFlush)
    else None
  }

  /** The payload is `Other` whichever straight was found, ace-low included. */
  function IsStraightFlush(s: seq<Card>): Option<HandType> {
    if IsFlush(s).Some? && IsStraight(s).Some? then Some(StraightFlush(Other)) else None
  }

  function IsFourOfAKind(s: seq<Card>): Option<HandType> {
    if |s| == 5 &&
       ((s[0].rank == s[1].rank && s[1].rank == s[2].rank && s[2].rank == s[3].rank) ||
        (s[1].rank == s[2].rank && s[2].rank == s[3].rank && s[3].rank == s[4].rank))
    then Some(FourOfAKind)
    else None
  }

  function IsFullHouse(s: seq<Card>): Option<HandType> {
    if |s| == 5 &&
       ((s[0].rank == s[1].rank && s[1].rank == s[2].rank && s[3].rank == s[4].rank) ||
        (s[0].rank == s[1].rank && s[2].rank == s[3].rank && s[3].rank == s[4].rank))
    then Some(FullHouse)
    else None
  }

  /** Every suit equals the first card's suit. */
  function IsFlush(s: seq<Card>): Option<HandType> {
    if |s| == 5 && forall i :: 0 <= i < 5 ==> s[i].suit == s[0].suit then Some(Flush) else None
  }

  /** Two, Three, Four, Five, Ace is ace-low; otherwise each code must be the
      previous code plus one (computed in `u8`, where 12 + 1 cannot overflow). */
  function IsStraight(s: seq<Card>): Option<StraightType> {
    if RanksAre(s, WheelRanks) then Some(AceLow)
    else if ConsecutiveCodes(s) then Some(Other)
    else None
  }

  /** Five cards, each card's code the previous card's code plus one. */
  predicate ConsecutiveCodes(s: seq<Card>) {
    |s| == 5 &&
    Code(s[1].rank) == Code(s[0].rank) + 1 &&
    Code(s[2].rank) == Code(s[1].rank) + 1 &&
    Code(s[3].rank) == Code(s[2].rank) + 1 &&
    Code(s[4].rank) == Code(s[3].rank) + 1
  }

  function IsThreeOfAKind(s: seq<Card>): Option<HandType> {
    if |s| == 5 &&
       ((s[0].rank == s[1].rank && s[1].rank == s[2].rank) ||
        (s[1].rank == s[2].rank && s[2].rank == s[3].rank) ||
        (s[2].rank == s[3].rank && s[3].rank == s[4].rank))
    then Some(ThreeOfAKind)
    else None
  }

  function IsTwoPair(s: seq<Card>): Option<HandType> {
    if |s| == 5 &&
       ((s[0].rank == s[1].rank && s[2].rank == s[3].rank) ||
        (s[0].rank == s[1].rank && s[3].rank == s[4].rank) ||
        (s[1].rank == s[2].rank && s[3].rank == s[4].rank))
    then Some(TwoPair)
    else None
  }

  function IsPair(s: seq<Card>): Option<HandType> {
    if |s| == 5 &&
       (s[0].rank == s[1].rank || s[1].rank == s[2].rank ||
        s[2].rank == s[3].rank || s[3].rank == s[4].rank)
    then Some(Pair)
    else None
  }

  /** The if/else chain of `hand_type`, strongest test first; the first match wins. */
  function Classify(s: seq<Card>): HandType {
    if IsRoyalFlush(s).Some? then IsRoyalFlush(s).value
    else if IsStraightFlush(s).Some? then IsStraightFlush(s).value
    else if IsFourOfAKind(s).Some? then IsFourOfAKind(s).value
    else if IsFullHouse(s).Some? then IsFullHouse(s).value
    else if IsFlush(s).Some? then IsFlush(s).value
    else if IsStraight(s).Some? then Straight(IsStraight(s).value)
    else if IsThreeOfAKind(s).Some? then IsThreeOfAKind(s).value
    else if IsTwoPair(s).Some? then IsTwoPair(s).value
    else if IsPair(s).Some? then IsPair(s).value
    else HighCard
  }

  // ---------------------------------------------------------------------------
  // What the patterns mean, stated without positions fixed in advance.

  /** Cards `i` and `j` (in that order) share a rank. */
  predicate PairAt(s: seq<Card>, i: int, j: int) {
    0 <= i < j < |s| && s[i].rank == s[j].rank
  }

  /** Cards `i`, `j` and `k` (in that order) share a rank. */
  predicate TripleAt(s: seq<Card>, i: int, j: int, k: int) {
    PairAt(s, i, j) && PairAt(s, j, k)
  }

  /** Cards `i`, `j`, `k` and `l` (in that order) share a rank. */
  predicate QuadAt(s: seq<Card>, i: int, j: int, k: int, l: int) {
    PairAt(s, i, j) && PairAt(s, j, k) && PairAt(s, k, l)
  }

  /** Cards `i`, `j` share a rank, and so do the two other cards `k`, `l`. */
  predicate TwoPairsAt(s: seq<Card>, i: int, j: int, k: int, l: int) {
    PairAt(s, i, j) && PairAt(s, k, l) && i != k && i != l && j != k && j != l
  }

  /** Some two cards share a rank. */
  ghost predicate HasPair(s: seq<Card>) {
    exists i, j :: PairAt(s, i, j)
  }

  /** Some three cards share a rank. */
  ghost predicate HasTriple(s: seq<Card>) {
    exists i, j, k :: TripleAt(s, i, j, k)
  }

  /** Some four cards share a rank. */
  ghost predicate HasQuad(s: seq<Card>) {
    exists i, j, k, l :: QuadAt(s, i, j, k, l)
  }

  /** Two disjoint pairs of cards, each pair sharing a rank (the two ranks may coincide). */
  ghost predicate HasTwoPairs(s: seq<Card>) {
    exists i, j, k, l :: TwoPairsAt(s, i, j, k, l)
  }

  /** Card `i` shares its rank with some other card. */
  ghost predicate RankRepeated(s: seq<Card>, i: int) {
    0 <= i < |s| && exists j :: 0 <= j < |s| && j != i && s[j].rank == s[i].rank
  }

  /** Every card shares its rank with another card. */
  ghost predicate EveryRankRepeated(s: seq<Card>) {
    forall i :: 0 <= i < |s| ==> RankRepeated(s, i)
  }

  /** Five cards, all of one suit. */
  predicate AllSameSuit(s: seq<Card>) {
    |s| == 5 && forall i, j :: 0 <= i < j < 5 ==> s[i].suit == s[j].suit
  }

  /** There are as many cards as ranks in `rs`, and every rank of `rs` is
      carried by some card, at any position. When the ranks of `rs` are
      distinct, the cards' ranks are exactly those of `rs`, in some order. */
  ghost predicate HasRanks(s: seq<Card>, rs: seq<Rank>) {
    |s| == |rs| && forall k :: 0 <= k < |rs| ==> CarriesRank(s, rs[k])
  }

  /** Some card of `s` has rank `r`. */
  ghost predicate CarriesRank(s: seq<Card>, r: Rank) {
    exists j :: 0 <= j < |s| && s[j].rank == r
  }

  /** Five pairwise distinct ranks whose codes lie within four of one another,
      that is, five consecutive codes, at any positions. */
  ghost predicate IsRun(s: seq<Card>) {
    |s| == 5 && !HasPair(s) &&
    forall i, j :: 0 <= i < 5 && 0 <= j < 5 ==> Code(s[j].rank) <= Code(s[i].rank) + 4
  }

  /** Whether the category `t` describes the five cards `s`. No case reads a
      fixed position: every index is one a quantifier ranges over. The
      straight flush recognised by the source always carries `Other`. */
  ghost predicate Matches(t: HandType, s: seq<Card>) {
    match t
    case RoyalFlush => AllSameSuit(s) && HasRanks(s, RoyalRanks)
    case StraightFlush(k) =>
      k == Other && AllSameSuit(s) && (HasRanks(s, WheelRanks) || IsRun(s))
    case FourOfAKind => HasQuad(s)
    case FullHouse => EveryRankRepeated(s)
    case Flush => AllSameSuit(s)
    case Straight(AceLow) => HasRanks(s, WheelRanks)
    case Straight(Other) => IsRun(s)
    case ThreeOfAKind => HasTriple(s)
    case TwoPair => HasTwoPairs(s)
    case Pair => HasPair(s)
    case HighCard => |s| == 5
  }

  // ---------------------------------------------------------------------------
  // Each positional test is equivalent to its meaning on sorted cards.

  /** Cards carrying the ranks `rs` position by position carry each of them. */
  lemma RanksAreHasRanks(s: seq<Card>, rs: seq<Rank>)
    requires RanksAre(s, rs)
    ensures HasRanks(s, rs)
  {
    forall k | 0 <= k < |rs| ensures CarriesRank(s, rs[k]) {
      assert s[k].rank == rs[k];
    }
  }

  /** Five sorted cards that carry each of five strictly ascending ranks carry
      them position by position: the card with the k-th rank sits at index k. */
  lemma SortedHasRanks(s: seq<Card>, rs: seq<Rank>)
    requires SortedByRank(s) && |rs| == 5
    requires forall k :: 0 <= k < 4 ==> Code(rs[k]) < Code(rs[k + 1])
    requires HasRanks(s, rs)
    ensures RanksAre(s, rs)
  {
    assert CarriesRank(s, rs[0]) && CarriesRank(s, rs[1]) && CarriesRank(s, rs[2]);
    assert CarriesRank(s, rs[3]) && CarriesRank(s, rs[4]);
    var j0 :| 0 <= j0 < 5 && s[j0].rank == rs[0];
    var j1 :| 0 <= j1 < 5 && s[j1].rank == rs[1];
    var j2 :| 0 <= j2 < 5 && s[j2].rank == rs[2];
    var j3 :| 0 <= j3 < 5 && s[j3].rank == rs[3];
    var j4 :| 0 <= j4 < 5 && s[j4].rank == rs[4];
    LowerRankSitsLower(s, j0, j1);
    LowerRankSitsLower(s, j1, j2);
    LowerRankSitsLower(s, j2, j3);
    LowerRankSitsLower(s, j3, j4);
    forall i | 0 <= i < |s| ensures s[i].rank == rs[i] {
      assert i == j0 || i == j1 || i == j2 || i == j3 || i == j4;
    }
  }


  /** In sorted cards a card of lower rank sits at a lower index. */
  lemma LowerRankSitsLower(s: seq<Card>, i: int, j: int)
    requires SortedByRank(s) && 0 <= i < |s| && 0 <= j < |s|
    requires Code(s[i].rank) < Code(s[j].rank)
    ensures i < j
  {
  }

  /** On five sorted cards, carrying five strictly ascending ranks in any order
      is carrying them position by position. */
  lemma SortedRanksAreIff(s: seq<Card>, rs: seq<Rank>)
    requires SortedByRank(s) && |rs| == 5
    requires forall k :: 0 <= k < 4 ==> Code(rs[k]) < Code(rs[k + 1])
    ensures RanksAre(s, rs) <==> HasRanks(s, rs)
  {
    if RanksAre(s, rs) {
      RanksAreHasRanks(s, rs);
    }
    if HasRanks(s, rs) {
      SortedHasRanks(s, rs);
    }
  }

  /** Sorted cards forming a run have consecutive codes. */
  lemma RunIsConsecutive(s: seq<Card>)
    requires SortedByRank(s) && IsRun(s)
    ensures ConsecutiveCodes(s)
  {
    assert !PairAt(s, 0, 1) && !PairAt(s, 1, 2) && !PairAt(s, 2, 3) && !PairAt(s, 3, 4);
    CodeInjective(s[0].rank, s[1].rank);
    CodeInjective(s[1].rank, s[2].rank);
    CodeInjective(s[2].rank, s[3].rank);
    CodeInjective(s[3].rank, s[4].rank);
    assert Code(s[4].rank) <= Code(s[0].rank) + 4;
  }

  /** Five consecutive codes form a run, whatever the order of the cards. */
  lemma ConsecutiveIsRun(s: seq<Card>)
    requires ConsecutiveCodes(s)
    ensures IsRun(s)
  {
    assert forall i :: 0 <= i < 5 ==> Code(s[i].rank) == Code(s[0].rank) + i;
    assert !HasPair(s) by {
      forall i, j | 0 <= i < j < 5 ensures !PairAt(s, i, j) {
        CodeInjective(s[i].rank, s[j].rank);
      }
    }
  }

  lemma FlushIff(s: seq<Card>)
    ensures IsFlush(s).Some? <==> AllSameSuit(s)
  {
  }

  lemma PairIff(s: seq<Card>)
    requires SortedByRank(s) && |s| == 5
    ensures IsPair(s).Some? <==> HasPair(s)
  {
    if HasPair(s) {
      var i, j :| PairAt(s, i, j);
      SortedWindowConstant(s, i, i + 1, j);
    }
    if IsPair(s).Some? {
      if s[0].rank == s[1].rank { assert PairAt(s, 0, 1); }
      else if s[1].rank == s[2].rank { assert PairAt(s, 1, 2); }
      else if s[2].rank == s[3].rank { assert PairAt(s, 2, 3); }
      else { assert PairAt(s, 3, 4); }
    }
  }

  lemma ThreeOfAKindIff(s: seq<Card>)
    requires SortedByRank(s) && |s| == 5
    ensures IsThreeOfAKind(s).Some? <==> HasTriple(s)
  {
    if HasTriple(s) {
      var i, j, k :| TripleAt(s, i, j, k);
      SortedWindowConstant(s, i, i + 1, k);
      SortedWindowConstant(s, i, i + 2, k);
    }
    if IsThreeOfAKind(s).Some? {
      if s[0].rank == s[1].rank && s[1].rank == s[2].rank { assert TripleAt(s, 0, 1, 2); }
      else if s[1].rank == s[2].rank && s[2].rank == s[3].rank { assert TripleAt(s, 1, 2, 3); }
      else { assert TripleAt(s, 2, 3, 4); }
    }
  }

  lemma FourOfAKindIff(s: seq<Card>)
    requires SortedByRank(s) && |s| == 5
    ensures IsFourOfAKind(s).Some? <==> HasQuad(s)
  {
    if HasQuad(s) {
      var i, j, k, l :| QuadAt(s, i, j, k, l);
      SortedWindowConstant(s, i, i + 1, l);
      SortedWindowConstant(s, i, i + 2, l);
      SortedWindowConstant(s, i, i + 3, l);
    }
    if IsFourOfAKind(s).Some? {
      if s[0].rank == s[1].rank && s[1].rank == s[2].rank && s[2].rank == s[3].rank {
        assert QuadAt(s, 0, 1, 2, 3);
      } else {
        assert QuadAt(s, 1, 2, 3, 4);
      }
    }
  }

  /** Five sorted cards form a full house exactly when no card's rank is unique:
      three-and-two, and also five of one rank, but not four-and-one. */
  lemma FullHouseIff(s: seq<Card>)
    requires SortedByRank(s) && |s| == 5
    ensures IsFullHouse(s).Some? <==> EveryRankRepeated(s)
  {
    if EveryRankRepeated(s) {
      assert RankRepeated(s, 0) && RankRepeated(s, 2) && RankRepeated(s, 4);
      var j0 :| 0 <= j0 < 5 && j0 != 0 && s[j0].rank == s[0].rank;
      SortedWindowConstant(s, 0, 1, j0);
      var j4 :| 0 <= j4 < 5 && j4 != 4 && s[j4].rank == s[4].rank;
      SortedWindowConstant(s, j4, 3, 4);
      var j2 :| 0 <= j2 < 5 && j2 != 2 && s[j2].rank == s[2].rank;
      if j2 < 2 {
        SortedWindowConstant(s, j2, 1, 2);
      } else {
        SortedWindowConstant(s, 2, 3, j2);
      }
    }
    if IsFullHouse(s).Some? {
      forall i | 0 <= i < 5 ensures RankRepeated(s, i) {
        var j;
        if s[0].rank == s[1].rank && s[1].rank == s[2].rank && s[3].rank == s[4].rank {
          j := if i == 0 then 1 else if i < 3 then 0 else if i == 3 then 4 else 3;
        } else {
          j := if i == 0 then 1 else if i == 1 then 0 else if i == 2 then 3 else 2;
        }
        assert 0 <= j < 5 && j != i && s[j].rank == s[i].rank;
      }
    }
  }

  /** Two disjoint same-rank pairs anywhere among five sorted cards show up in
      one of the three fixed position patterns. */
  lemma TwoPairIff(s: seq<Card>)
    requires SortedByRank(s) && |s| == 5
    ensures IsTwoPair(s).Some? <==> HasTwoPairs(s)
  {
    if HasTwoPairs(s) {
      var i, j, k, l :| TwoPairsAt(s, i, j, k, l);
      if k < i {
        i, j, k, l := k, l, i, j;
      }
      // Now the first pair starts lowest: i < k < l and i < j.
      SortedWindowConstant(s, i, i + 1, j);
      SortedWindowConstant(s, k, l - 1, l);
      if l == i + 2 {
        // Then k == i + 1, so j lies above l, and i..j has one rank.
        SortedWindowConstant(s, i, i + 2, j);
        SortedWindowConstant(s, i, i + 3, j);
      }
    }
    if IsTwoPair(s).Some? {
      if s[0].rank == s[1].rank && s[2].rank == s[3].rank { assert TwoPairsAt(s, 0, 1, 2, 3); }
      else if s[0].rank == s[1].rank && s[3].rank == s[4].rank { assert TwoPairsAt(s, 0, 1, 3, 4); }
      else { assert TwoPairsAt(s, 1, 2, 3, 4); }
    }
  }

  /** `AceLow` is returned exactly when the cards are Two, Three, Four, Five
      and Ace in any order; `Other` exactly for five distinct ranks spanning
      five consecutive codes; there is no other wrap-around. */
  lemma StraightIff(s: seq<Card>)
    requires SortedByRank(s) && |s| == 5
    ensures IsStraight(s) == Some(AceLow) <==> HasRanks(s, WheelRanks)
    ensures IsStraight(s) == Some(Other) <==> IsRun(s)
  {
    SortedRanksAreIff(s, WheelRanks);
    if IsRun(s) {
      RunIsConsecutive(s);
    }
    if ConsecutiveCodes(s) {
      ConsecutiveIsRun(s);
    }
  }

  /** A royal flush is a flush of Ten, Jack, Queen, King and Ace, in any order. */
  lemma RoyalFlushIff(s: seq<Card>)
    requires SortedByRank(s)
    ensures IsRoyalFlush(s).Some? <==> AllSameSuit(s) && HasRanks(s, RoyalRanks)
  {
    SortedRanksAreIff(s, RoyalRanks);
  }

  /** A straight flush is any flush that is also a straight; its payload is
      always `Other`, even for the ace-low one. */
  lemma StraightFlushIff(s: seq<Card>)
    requires SortedByRank(s) && |s| == 5
    ensures IsStraightFlush(s).Some? <==> Matches(StraightFlush(Other), s)
    ensures IsStraightFlush(s) != Some(StraightFlush(AceLow))
  {
    StraightIff(s);
    FlushIff(s);
  }

  /** A straight needs five distinct ranks, so no repeated-rank pattern holds with it. */
  lemma StraightHasNoPair(s: seq<Card>)
    requires |s| == 5
    ensures IsStraight(s).Some? ==> IsPair(s).None?
  {
    CodeInjective(s[0].rank, s[1].rank);
    CodeInjective(s[1].rank, s[2].rank);
    CodeInjective(s[2].rank, s[3].rank);
    CodeInjective(s[3].rank, s[4].rank);
  }

  // ---------------------------------------------------------------------------
  // Precedence and what the classification depends on.

  /** The positional test of the chain that stands for category `t`. */
  predicate PassesTest(t: HandType, s: seq<Card>) {
    match t
    case RoyalFlush => IsRoyalFlush(s).Some?
    case StraightFlush(k) => k == Other && IsStraightFlush(s).Some?
    case FourOfAKind => IsFourOfAKind(s).Some?
    case FullHouse => IsFullHouse(s).Some?
    case Flush => IsFlush(s).Some?
    case Straight(k) => IsStraight(s) == Some(k)
    case ThreeOfAKind => IsThreeOfAKind(s).Some?
    case TwoPair => IsTwoPair(s).Some?
    case Pair => IsPair(s).Some?
    case HighCard => |s| == 5
  }

  /** The chain tests the categories in exactly the reverse of `StrengthOrder`,
      so the category it returns passes its test and no stronger one does. */
  lemma ClassifyIsStrongestPassed(s: seq<Card>)
    requires |s| == 5
    ensures PassesTest(Classify(s), s)
    ensures forall i :: Strength(Classify(s)) < i < |StrengthOrder| ==> !PassesTest(StrengthOrder[i], s)
  {
    forall i | Strength(Classify(s)) < i < |StrengthOrder| ensures !PassesTest(StrengthOrder[i], s) {
      StrengthOrderIsInjective(i, i);
    }
  }

  /** On sorted cards each category's test is equivalent to its meaning. */
  lemma PassesTestIffMatches(t: HandType, s: seq<Card>)
    requires SortedByRank(s) && |s| == 5
    ensures PassesTest(t, s) <==> Matches(t, s)
  {
    match t
    case RoyalFlush => RoyalFlushIff(s);
    case StraightFlush(_) => StraightFlushIff(s);
    case FourOfAKind => FourOfAKindIff(s);
    case FullHouse => FullHouseIff(s);
    case Flush => FlushIff(s);
    case Straight(_) => StraightIff(s);
    case ThreeOfAKind => ThreeOfAKindIff(s);
    case TwoPair => TwoPairIff(s);
    case Pair => PairIff(s);
    case HighCard =>
  }

  /** The category `Classify` returns describes the cards, and no stronger
      category does: the first match of the strongest-first chain is the
      strongest match. Hence four of a rank always report FourOfAKind, never
      ThreeOfAKind or Pair, and a full house never reports TwoPair. */
  lemma ClassifyIsStrongestMatch(s: seq<Card>)
    requires SortedByRank(s) && |s| == 5
    ensures Matches(Classify(s), s)
    ensures forall i :: Strength(Classify(s)) < i < |StrengthOrder| ==> !Matches(StrengthOrder[i], s)
  {
    ClassifyIsStrongestPassed(s);
    PassesTestIffMatches(Classify(s), s);
    forall i | Strength(Classify(s)) < i < |StrengthOrder| ensures !Matches(StrengthOrder[i], s) {
      PassesTestIffMatches(StrengthOrder[i], s);
    }
  }

  /** A flush with four cards of one rank (possible, since duplicate cards are
      never rejected) is reported as FourOfAKind: the stronger test runs first. */
  lemma RepeatedRanksBeatFlush(s: seq<Card>)
    requires SortedByRank(s) && |s| == 5 && AllSameSuit(s) && HasQuad(s)
    ensures Classify(s) == FourOfAKind
  {
    FourOfAKindIff(s);
    StraightHasNoPair(s);
  }

  /** The chain never yields an ace-low straight flush: its straight flush
      test always answers `Other`. */
  lemma ClassifyNeverAceLowStraightFlush(s: seq<Card>)
    ensures Classify(s) != StraightFlush(AceLow)
  {
  }

  /** Only the first test of the chain yields RoyalFlush. */
  lemma ClassifyRoyalFlush(s: seq<Card>)
    ensures Classify(s) == RoyalFlush <==> IsRoyalFlush(s).Some?
  {
  }

  /** The chain yields an ace-low straight exactly for ace-low straight ranks
      that are not a flush: no stronger test accepts distinct ranks other
      than the flush tests. */
  lemma ClassifyAceLowStraight(s: seq<Card>)
    requires |s| == 5
    ensures Classify(s) == Straight(AceLow) <==> IsStraight(s) == Some(AceLow) && IsFlush(s).None?
  {
    StraightHasNoPair(s);
  }

  /** Every test but the flush test reads ranks only. */
  lemma RankTestsReadRanks(a: seq<Card>, b: seq<Card>)
    requires SameRanks(a, b)
    ensures RanksAre(a, RoyalRanks) == RanksAre(b, RoyalRanks)
    ensures IsStraight(a) == IsStraight(b)
    ensures IsFourOfAKind(a) == IsFourOfAKind(b) && IsFullHouse(a) == IsFullHouse(b)
    ensures IsThreeOfAKind(a) == IsThreeOfAKind(b) && IsTwoPair(a) == IsTwoPair(b) && IsPair(a) == IsPair(b)
  {
    if |a| == 5 {
      assert a[0].rank == b[0].rank && a[1].rank == b[1].rank && a[2].rank == b[2].rank;
      assert a[3].rank == b[3].rank && a[4].rank == b[4].rank;
    }
  }

  /** Sorted cards with the same rank at every position and the same flush
      status get the same category: no test reads anything else. */
  lemma ClassifyReadsRanksAndFlush(a: seq<Card>, b: seq<Card>)
    requires SameRanks(a, b) && IsFlush(a) == IsFlush(b)
    ensures Classify(a) == Classify(b)
  {
    RankTestsReadRanks(a, b);
  }

  /** Whether cards are a flush does not depend on their order. */
  lemma FlushPermutationInvariant(a: seq<Card>, b: seq<Card>)
    requires multiset(a) == multiset(b)
    ensures IsFlush(a) == IsFlush(b)
  {
    assert |a| == |multiset(a)| == |multiset(b)| == |b|;
    if |a| == 5 {
      if IsFlush(a).Some? {
        forall i | 0 <= i < 5 ensures b[i].suit == a[0].suit {
          assert b[i] in multiset(a);
        }
      }
      if IsFlush(b).Some? {
        forall i | 0 <= i < 5 ensures a[i].suit == b[0].suit {
          assert a[i] in multiset(b);
        }
      }
    }
  }

  /** Whether cards carry a set of ranks does not depend on their order. */
  lemma HasRanksPermutationInvariant(a: seq<Card>, b: seq<Card>, rs: seq<Rank>)
    requires multiset(a) == multiset(b)
    ensures HasRanks(a, rs) <==> HasRanks(b, rs)
  {
    assert |a| == |multiset(a)| == |multiset(b)| == |b|;
    if HasRanks(a, rs) {
      forall k | 0 <= k < |rs| ensures CarriesRank(b, rs[k]) {
        var i :| 0 <= i < |a| && a[i].rank == rs[k];
        assert a[i] in multiset(b);
        var j :| 0 <= j < |b| && b[j] == a[i];
      }
    }
    if HasRanks(b, rs) {
      forall k | 0 <= k < |rs| ensures CarriesRank(a, rs[k]) {
        var i :| 0 <= i < |b| && b[i].rank == rs[k];
        assert b[i] in multiset(a);
        var j :| 0 <= j < |a| && a[j] == b[i];
      }
    }
  }
}
