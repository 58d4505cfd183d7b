/** Playing cards: the 13 ranks with their integer codes, the 4 suits, and a
    card as a (rank, suit) pair that is ordered by its rank alone. */
module Cards {
  import opened Cmp

  /** Ranks in declaration order; each carries an explicit code, Two = 0 up to Ace = 12. */
  datatype Rank = Two | Three | Four | Five | Six | Seven | Eight | Nine | Ten | Jack | Queen | King | Ace

  /** Suits compare for equality only; there is no order on them. */
  datatype Suit = Spade | Heart | Diamond | Club

  /** `Card(Rank, Suit)`: equality is structural on both fields. */
  datatype Card = Card(rank: Rank, suit: Suit)

  /** The explicit discriminant of a rank, which is also its `as u8` value. */
  function Code(r: Rank): (c: nat)
    ensures c <= 12
  {
    match r
    case Two => 0
    case Three => 1
    case Four => 2
    case Five => 3
    case Six => 4
    case Seven => 5
    case Eight => 6
    case Nine => 7
    case Ten => 8
    case Jack => 9
    case Queen => 10
    case King => 11
    case Ace => 12
  }

  /** The rank whose code is `c`; every code from 0 to 12 names exactly one rank. */
  function FromCode(c: nat): (r: Rank)
    requires c <= 12
    ensures Code(r) == c
  {
    match c
    case 0 => Two
    case 1 => Three
    case 2 => Four
    case 3 => Five
    case 4 => Six
    case 5 => Seven
    case 6 => Eight
    case 7 => Nine
    case 8 => Ten
    case 9 => Jack
    case 10 => Queen
    case 11 => King
    case _ => Ace
  }

  /** Decoding a rank's code gives the rank back, so codes are a bijection onto 0..12. */
  lemma FromCodeOfCode(r: Rank)
    ensures FromCode(Code(r)) == r
  {
  }

  /** Distinct ranks have distinct codes. */
  lemma CodeInjective(a: Rank, b: Rank)
    ensures Code(a) == Code(b) <==> a == b
  {
    FromCodeOfCode(a);
    FromCodeOfCode(b);
  }

  /** The ranks as declared, lowest first. */
  const AllRanks: seq<Rank> := [Two, Three, Four, Five, Six, Seven, Eight, Nine, Ten, Jack, Queen, King, Ace]

  /** The codes are contiguous: the i-th declared rank has code i, so the rank after
      a rank is the one whose code is one more, and every rank is declared once. */
  lemma CodesAreDeclarationPositions()
    ensures |AllRanks| == 13
    ensures forall i :: 0 <= i < 13 ==> Code(AllRanks[i]) == i
    ensures forall i :: 0 <= i < 12 ==> Code(AllRanks[i + 1]) == Code(AllRanks[i]) + 1
    ensures forall r: Rank :: r in AllRanks
  {
    forall r: Rank ensures r in AllRanks {
      assert AllRanks[Code(r)] == r;
    }
  }

  /** Derived `Ord for Rank`: the discriminants are compared. */
  function RankCmp(a: Rank, b: Rank): Ordering {
    CmpInt(Code(a), Code(b))
  }

  /** Derived `PartialOrd for Rank`; a total order, so it always answers. */
  function RankPartialCmp(a: Rank, b: Rank): Option<Ordering> {
    Some(RankCmp(a, b))
  }

  /** The rank order is the declaration order Two < Three < ... < King < Ace. */
  lemma RankOrderIsDeclarationOrder(i: nat, j: nat)
    requires i < 13 && j < 13
    ensures RankCmp(AllRanks[i], AllRanks[j]) == CmpInt(i, j)
  {
    CodesAreDeclarationPositions();
  }

  /** `PartialOrd for Card`: delegates to the ranks' `partial_cmp`. */
  function CardPartialCmp(x: Card, y: Card): Option<Ordering> {
    RankPartialCmp(x.rank, y.rank)
  }

  /** `Ord for Card`: delegates to the ranks' `cmp`. */
  function CardCmp(x: Card, y: Card): Ordering {
    RankCmp(x.rank, y.rank)
  }

  /** A card comparison is decided by the ranks; the suits never matter. */
  lemma CardCmpIgnoresSuit(x: Card, y: Card, s: Suit, t: Suit)
    ensures CardCmp(x, y) == CardCmp(Card(x.rank, s), Card(y.rank, t))
    ensures CardCmp(x, y) == Equal <==> x.rank == y.rank
    ensures CardCmp(x, y) == Less <==> Code(x.rank) < Code(y.rank)
  {
    CodeInjective(x.rank, y.rank);
  }

  /** `partial_cmp` on cards never answers None and agrees with `cmp`. */
  lemma CardPartialCmpAgreesWithCmp(x: Card, y: Card)
    ensures CardPartialCmp(x, y) == Some(CardCmp(x, y))
  {
  }

  /** Card ordering is a total preorder: reflexive, antisymmetric in its answers
      (which makes it total) and transitive. */
  lemma CardCmpTotalPreorder(x: Card, y: Card, z: Card)
    ensures CardCmp(x, x) == Equal
    ensures CardCmp(y, x) == CardCmp(x, y).Reverse()
    ensures CardCmp(x, y) != Greater && CardCmp(y, z) != Greater ==> CardCmp(x, z) != Greater
    ensures CardCmp(x, y) == Less && CardCmp(y, z) != Greater ==> CardCmp(x, z) == Less
  {
    CmpIntAntisymmetric(Code(x.rank), Code(y.rank));
  }

  /** Ordering and equality disagree: equal cards compare Equal, but two cards of
      one rank and different suits compare Equal without being equal. */
  lemma CardOrderCoarserThanEquality(x: Card, y: Card)
    ensures x == y ==> CardCmp(x, y) == Equal
    ensures CardCmp(Card(Ace, Spade), Card(Ace, Heart)) == Equal && Card(Ace, Spade) != Card(Ace, Heart)
  {
  }
}
