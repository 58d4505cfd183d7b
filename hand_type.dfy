/** The ten hand categories and their derived order: variants compare by
    declaration order, and two `Straight`s (or two `StraightFlush`es) then
    compare by their `StraightType` payload, `AceLow` below `Other`. */
module HandTypes {
  import opened Cmp

  datatype StraightType = AceLow | Other

  datatype HandType =
    | HighCard
    | Pair
    | TwoPair
    | ThreeOfAKind
    | Straight(kind: StraightType)
    | Flush
    | FullHouse
    | FourOfAKind
    | StraightFlush(kind: StraightType)
    | RoyalFlush

  /** Derived `PartialOrd for StraightType`: declaration order. */
  function StraightTypePartialCmp(a: StraightType, b: StraightType): Option<Ordering> {
    Some(CmpInt(if a == AceLow then 0 else 1, if b == AceLow then 0 else 1))
  }

  /** The variant's position in the declaration of `HandType`. */
  function Discriminant(t: HandType): (d: nat)
    ensures d < 10
  {
    match t
    case HighCard => 0
    case Pair => 1
    case TwoPair => 2
    case ThreeOfAKind => 3
    case Straight(_) => 4
    case Flush => 5
    case FullHouse => 6
    case FourOfAKind => 7
    case StraightFlush(_) => 8
    case RoyalFlush => 9
  }

  /** Derived `PartialOrd for HandType`: discriminants first, then the payload of
      two variants of the same kind. Derived `PartialEq` is Dafny's `==`. */
  function HandTypePartialCmp(a: HandType, b: HandType): (r: Option<Ordering>)
    ensures r.Some?
    ensures r == Some(Equal) <==> a == b
  {
    if Discriminant(a) != Discriminant(b) then Some(CmpInt(Discriminant(a), Discriminant(b)))
    else match a
      case Straight(x) => StraightTypePartialCmp(x, b.kind)
      case StraightFlush(x) => StraightTypePartialCmp(x, b.kind)
      case _ => Some(Equal)
  }

  /** Every hand type, weakest first. */
  const StrengthOrder: seq<HandType> := [
    HighCard, Pair, TwoPair, ThreeOfAKind, Straight(AceLow), Straight(Other),
    Flush, FullHouse, FourOfAKind, StraightFlush(AceLow), StraightFlush(Other), RoyalFlush
  ]

  /** Where a hand type stands in `StrengthOrder`. */
  function Strength(t: HandType): (i: nat)
    ensures i < |StrengthOrder| && StrengthOrder[i] == t
  {
    match t
    case HighCard => 0
    case Pair => 1
    case TwoPair => 2
    case ThreeOfAKind => 3
    case Straight(AceLow) => 4
    case Straight(Other) => 5
    case Flush => 6
    case FullHouse => 7
    case FourOfAKind => 8
    case StraightFlush(AceLow) => 9
    case StraightFlush(Other) => 10
    case RoyalFlush => 11
  }

  /** The derived order is exactly the order of `StrengthOrder`: so an ace-low
      straight is below every other straight, and every straight flush is above
      every flush. */
  lemma DerivedOrderIsStrengthOrder(a: HandType, b: HandType)
    ensures HandTypePartialCmp(a, b) == Some(CmpInt(Strength(a), Strength(b)))
  {
  }

  /** `StrengthOrder` lists each hand type once. */
  lemma StrengthOrderIsInjective(i: nat, j: nat)
    requires i < |StrengthOrder| && j < |StrengthOrder|
    ensures StrengthOrder[i] == StrengthOrder[j] <==> i == j
    ensures Strength(StrengthOrder[i]) == i
  {
  }

  /** The derived order is antisymmetric in its answers and transitive. */
  lemma HandTypeOrderIsTotalOrder(a: HandType, b: HandType, c: HandType)
    ensures HandTypePartialCmp(b, a) == Some(HandTypePartialCmp(a, b).value.Reverse())
    ensures HandTypePartialCmp(a, b) == Some(Less) && HandTypePartialCmp(b, c) == Some(Less)
            ==> HandTypePartialCmp(a, c) == Some(Less)
  {
    DerivedOrderIsStrengthOrder(a, b);
    DerivedOrderIsStrengthOrder(b, a);
    DerivedOrderIsStrengthOrder(b, c);
    DerivedOrderIsStrengthOrder(a, c);
    CmpIntAntisymmetric(Strength(a), Strength(b));
  }
}
