/** Sorting cards by rank, as `hand_type` does before it looks for patterns.
    The order among cards of one rank is left open: whichever rank-sorted
    permutation a sort produces, its sequence of ranks is the same. */
module RankSort {
  import opened Cards

  /** Ascending by rank code; cards of equal rank may stand in any order. */
  predicate SortedByRank(s: seq<Card>) {
    forall i, j :: 0 <= i < j < |s| ==> Code(s[i].rank) <= Code(s[j].rank)
  }

  /** Two card sequences of one length that carry the same rank at every position. */
  predicate SameRanks(a: seq<Card>, b: seq<Card>) {
    |a| == |b| && forall i :: 0 <= i < |a| ==> a[i].rank == b[i].rank
  }

  /** Inserts `c` before the first card whose rank is not lower than its own. */
  function InsertByRank(c: Card, s: seq<Card>): (r: seq<Card>)
    requires SortedByRank(s)
    ensures SortedByRank(r)
    ensures multiset(r) == multiset(s) + multiset{c}
    ensures |r| == |s| + 1
  {
    if s == [] || Code(c.rank) <= Code(s[0].rank) then [c] + s
    else
      var rest := InsertByRank(c, s[1..]);
      assert s == [s[0]] + s[1..];
      InsertedAbove(s[0].rank, c, s[1..], rest);
      PrependSorted(s[0], rest);
      [s[0]] + rest
  }

  /** Inserting a card no lower than `lo` among cards no lower than `lo`
      leaves cards no lower than `lo`. */
  lemma InsertedAbove(lo: Rank, c: Card, t: seq<Card>, rest: seq<Card>)
    requires multiset(rest) == multiset(t) + multiset{c}
    requires Code(lo) <= Code(c.rank)
    requires forall k :: 0 <= k < |t| ==> Code(lo) <= Code(t[k].rank)
    ensures forall k :: 0 <= k < |rest| ==> Code(lo) <= Code(rest[k].rank)
  {
    forall k | 0 <= k < |rest| ensures Code(lo) <= Code(rest[k].rank) {
      assert rest[k] in multiset(rest);
      if rest[k] != c {
        assert rest[k] in multiset(t);
        var m :| 0 <= m < |t| && t[m] == rest[k];
      }
    }
  }

  /** A card no higher than any card of a sorted sequence can go in front of it. */
  lemma PrependSorted(x: Card, s: seq<Card>)
    requires SortedByRank(s)
    requires forall k :: 0 <= k < |s| ==> Code(x.rank) <= Code(s[k].rank)
    ensures SortedByRank([x] + s)
  {
    forall i, j | 0 <= i < j < |s| + 1 ensures Code(([x] + s)[i].rank) <= Code(([x] + s)[j].rank) {
      if i > 0 {
        assert ([x] + s)[i] == s[i - 1];
      }
      assert ([x] + s)[j] == s[j - 1];
    }
  }

  /** A rank-sorted permutation of `s` (insertion sort): the reference result
      of the sort in `hand_type`. */
  function SortByRank(s: seq<Card>): (r: seq<Card>)
    ensures SortedByRank(r)
    ensures multiset(r) == multiset(s)
    ensures |r| == |s|
  {
    if s == [] then []
    else
      assert s == [s[0]] + s[1..];
      InsertByRank(s[0], SortByRank(s[1..]))
  }

  /** Exchanges two cards of `a`. */
  method Swap(a: array<Card>, i: nat, j: nat)
    requires i < a.Length && j < a.Length
    modifies a
    ensures a[..] == old(a[..])[i := old(a[j])][j := old(a[i])]
    ensures multiset(a[..]) == old(multiset(a[..]))
  {
    a[i], a[j] := a[j], a[i];
  }

  /** Sorts `a` by rank in place (insertion sort by adjacent exchanges). */
  method SortInPlace(a: array<Card>)
    modifies a
    ensures SortedByRank(a[..])
    ensures multiset(a[..]) == old(multiset(a[..]))
  {
    var i := 0;
    while i < a.Length
      invariant 0 <= i <= a.Length
      invariant SortedByRank(a[..i])
      invariant multiset(a[..]) == old(multiset(a[..]))
    {
      SinkIntoPlace(a, i);
      i := i + 1;
    }
    assert a[..a.Length] == a[..];
  }

  /** Moves `a[i]` down past every higher card before it, so that a sorted
      prefix of length `i` becomes a sorted prefix of length `i + 1`. */
  method SinkIntoPlace(a: array<Card>, i: nat)
    requires i < a.Length
    requires SortedByRank(a[..i])
    modifies a
    ensures SortedByRank(a[..i + 1])
    ensures multiset(a[..]) == old(multiset(a[..]))
    ensures a[i + 1..] == old(a[i + 1..])
  {
    var j := i;
    while 0 < j && Code(a[j].rank) < Code(a[j - 1].rank)
      invariant 0 <= j <= i
      invariant forall p, q :: 0 <= p < q <= i && q != j ==> Code(a[p].rank) <= Code(a[q].rank)
      invariant multiset(a[..]) == old(multiset(a[..]))
      invariant a[i + 1..] == old(a[i + 1..])
    {
      Swap(a, j - 1, j);
      j := j - 1;
    }
  }

  /** A rank-sorted sequence with equal first and last ranks in a window is
      constant on that window. */
  lemma SortedWindowConstant(s: seq<Card>, i: nat, m: nat, j: nat)
    requires SortedByRank(s) && i <= m <= j < |s|
    requires s[i].rank == s[j].rank
    ensures s[m].rank == s[i].rank
  {
    CodeInjective(s[m].rank, s[i].rank);
  }

  /** Dropping one card keeps a sequence rank-sorted. */
  lemma SortedWithout(b: seq<Card>, k: nat)
    requires SortedByRank(b) && k < |b|
    ensures SortedByRank(b[..k] + b[k + 1..])
  {
    var b' := b[..k] + b[k + 1..];
    forall i, j | 0 <= i < j < |b'| ensures Code(b'[i].rank) <= Code(b'[j].rank) {
      var i0 := if i < k then i else i + 1;
      var j0 := if j < k then j else j + 1;
      assert b'[i] == b[i0] && b'[j] == b[j0];
    }
  }

  /** Two nonempty rank-sorted permutations of the same cards start with the same rank. */
  lemma SortedPermutationsSameLowest(a: seq<Card>, b: seq<Card>)
    requires SortedByRank(a) && SortedByRank(b) && a != []
    requires multiset(a) == multiset(b)
    ensures b != [] && a[0].rank == b[0].rank
  {
    assert a[0] in multiset(b);
    var k :| 0 <= k < |b| && b[k] == a[0];
    assert b[0] in multiset(a);
    var p :| 0 <= p < |a| && a[p] == b[0];
    assert Code(b[0].rank) <= Code(b[k].rank);
    assert Code(a[0].rank) <= Code(a[p].rank);
    CodeInjective(a[0].rank, b[0].rank);
  }

  /** Taking the same card out of two permutations of each other leaves two
      permutations of each other. */
  lemma PermutationWithout(a: seq<Card>, b: seq<Card>, k: nat)
    requires a != [] && k < |b| && b[k] == a[0]
    requires multiset(a) == multiset(b)
    ensures multiset(a[1..]) == multiset(b[..k] + b[k + 1..])
  {
    assert b == b[..k] + [b[k]] + b[k + 1..];
    assert a == [a[0]] + a[1..];
    assert multiset(b) == multiset(b[..k]) + multiset{b[k]} + multiset(b[k + 1..]);
    assert multiset(a) == multiset{a[0]} + multiset(a[1..]);
    assert multiset(b[..k] + b[k + 1..]) == multiset(b[..k]) + multiset(b[k + 1..]);
    assert multiset(a[1..]) == multiset(a) - multiset{a[0]};
    assert multiset(b[..k] + b[k + 1..]) == multiset(b) - multiset{b[k]};
  }

  /** Any two rank-sorted permutations of the same cards carry the same rank at
      every position: the result of `hand_type` cannot depend on which one the
      sort picks. */
  lemma {:induction false} SortedPermutationsSameRanks(a: seq<Card>, b: seq<Card>)
    requires SortedByRank(a) && SortedByRank(b)
    requires multiset(a) == multiset(b)
    ensures SameRanks(a, b)
    decreases |a|
  {
    assert |a| == |multiset(a)| == |multiset(b)| == |b|;
    if a != [] {
      SortedPermutationsSameLowest(a, b);
      assert a[0] in multiset(b);
      var k :| 0 <= k < |b| && b[k] == a[0];
      var b' := b[..k] + b[k + 1..];
      PermutationWithout(a, b, k);
      SortedWithout(b, k);
      SortedPermutationsSameRanks(a[1..], b');
      forall i | 0 < i < |a| ensures a[i].rank == b[i].rank {
        assert a[i] == a[1..][i - 1];
        if i <= k {
          SortedWindowConstant(b, 0, i, k);
          SortedWindowConstant(b, 0, i - 1, k);
          assert b'[i - 1] == b[i - 1];
        } else {
          assert b'[i - 1] == b[i];
        }
      }
    }
  }
}
