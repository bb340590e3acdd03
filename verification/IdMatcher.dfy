/** Lookup of transfer ids: the library binary search and the four-way matcher built on it. */
module IdMatching {
  import opened Common

  type TransferId = u64

  datatype SearchResult = Found(index: nat) | Missing(index: nat)

  ghost predicate NonDescending(ids: seq<TransferId>) {
    forall i, j | 0 <= i < j < |ids| :: ids[i] <= ids[j]
  }

  ghost predicate Ascending(ids: seq<TransferId>) {
    forall i, j | 0 <= i < j < |ids| :: ids[i] < ids[j]
  }

  /** Every id left of `index` is below `x`, every id from `index` on is above it. */
  ghost predicate Splits(ids: seq<TransferId>, x: TransferId, index: nat) {
    && index <= |ids|
    && (forall k | 0 <= k < index :: ids[k] < x)
    && (forall k | index <= k < |ids| :: x < ids[k])
  }

  /**
   `slice::binary_search` on `ids[lo..hi]`. On any input a hit is a real hit; on
   an ordered input a miss is a proof of absence and gives the insertion point.
   */
  function BinarySearch(ids: seq<TransferId>, x: TransferId, lo: nat, hi: nat): (r: SearchResult)
    requires lo <= hi <= |ids|
    ensures lo <= r.index <= hi
    ensures r.Found? ==> r.index < hi && ids[r.index] == x
    ensures r.Missing? && NonDescending(ids)
            && (forall k | 0 <= k < lo :: ids[k] < x) && (forall k | hi <= k < |ids| :: x < ids[k])
            ==> Splits(ids, x, r.index)
    decreases hi - lo
  {
    if lo == hi then Missing(lo)
    else
      var mid := (lo + hi) / 2;
      if ids[mid] == x then Found(mid)
      else if ids[mid] < x then BinarySearch(ids, x, mid + 1, hi)
      else BinarySearch(ids, x, lo, mid)
  }

  function Search(ids: seq<TransferId>, x: TransferId): (r: SearchResult)
    ensures r.index <= |ids|
    ensures r.Found? ==> r.index < |ids| && ids[r.index] == x
    ensures r.Missing? && NonDescending(ids) ==> Splits(ids, x, r.index) && x !in ids
  {
    BinarySearch(ids, x, 0, |ids|)
  }

  datatype IdMatcher =
    | Empty
    | Contiguous(first: TransferId, last: TransferId)
    | Sorted(ids: seq<TransferId>)
    | Members(members: set<TransferId>)

  /**
   `windows(2).all(|w| w[0] + 1 == w[1])` from position `i` on. The check stops
   at the first mismatch, so every `ids[i] + 1` it evaluates is at most the last
   id: the addition cannot overflow.
   */
  predicate ConsecutiveFrom(ids: seq<TransferId>, i: nat)
    requires i < |ids|
    requires ids[i] as int == ids[0] as int + i
    requires ids[|ids| - 1] as int == ids[0] as int + |ids| - 1
    decreases |ids| - i
  {
    i + 1 == |ids| || (ids[i] + 1 == ids[i + 1] && ConsecutiveFrom(ids, i + 1))
  }

  predicate PairwiseOrdered(ids: seq<TransferId>, i: nat)
    requires i < |ids|
    decreases |ids| - i
  {
    i + 1 == |ids| || (ids[i] <= ids[i + 1] && PairwiseOrdered(ids, i + 1))
  }

  function NewMatcher(ids: seq<TransferId>): IdMatcher {
    if ids == [] then Empty
    else
      var first, last := ids[0], ids[|ids| - 1];
      if last >= first && (last - first) as int == |ids| - 1 && (|ids| <= 2 || ConsecutiveFrom(ids, 0)) then
        Contiguous(first, last)
      else if PairwiseOrdered(ids, 0) then Sorted(ids)
      else Members(set x | x in ids)
  }

  predicate Contains(matcher: IdMatcher, id: TransferId) {
    match matcher
    case Empty => false
    case Contiguous(first, last) => first <= id <= last
    case Sorted(ids) => Search(ids, id).Found?
    case Members(members) => id in members
  }

  lemma {:induction false} ConsecutiveMeans(ids: seq<TransferId>, i: nat)
    requires i < |ids|
    requires ids[i] as int == ids[0] as int + i
    requires ids[|ids| - 1] as int == ids[0] as int + |ids| - 1
    requires ConsecutiveFrom(ids, i)
    ensures forall k | i <= k < |ids| :: ids[k] as int == ids[0] as int + k
    decreases |ids| - i
  {
    if i + 1 < |ids| {
      ConsecutiveMeans(ids, i + 1);
    }
  }

  lemma {:induction false} PairwiseMeans(ids: seq<TransferId>, i: nat)
    requires i < |ids|
    requires PairwiseOrdered(ids, i)
    ensures NonDescending(ids[i..])
    decreases |ids| - i
  {
    if i + 1 < |ids| {
      PairwiseMeans(ids, i + 1);
      assert forall k | i + 1 <= k < |ids| :: ids[k] == ids[i + 1..][k - (i + 1)];
    }
  }

  /** The matcher is membership, for every list of ids: ordered or not, with or without repeats. */
  lemma MatcherIsMembership(ids: seq<TransferId>, x: TransferId)
    ensures Contains(NewMatcher(ids), x) <==> x in ids
  {
    if ids != [] {
      var first, last := ids[0], ids[|ids| - 1];
      if last >= first && (last - first) as int == |ids| - 1 && (|ids| <= 2 || ConsecutiveFrom(ids, 0)) {
        if |ids| > 2 {
          ConsecutiveMeans(ids, 0);
        }
        assert forall k | 0 <= k < |ids| :: ids[k] as int == first as int + k;
        if first <= x <= last {
          assert ids[x as int - first as int] == x;
        }
      } else if PairwiseOrdered(ids, 0) {
        PairwiseMeans(ids, 0);
        assert ids[0..] == ids;
      }
    }
  }

  /** `plan_has_child`: range test, binary search, then a linear scan. */
  predicate HasChild(children: seq<TransferId>, id: TransferId)
    ensures HasChild(children, id) <==> id in children
  {
    if children == [] then false
    else
      var first, last := children[0], children[|children| - 1];
      if first <= last && id >= first && id <= last && Search(children, id).Found? then true
      else id in children
  }
}
