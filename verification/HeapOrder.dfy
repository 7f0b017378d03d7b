/** The order heap.c keeps, on sequences of ranks: what one climb, one descent and one exchange do. */
module HeapOrder {
  import opened Lists

  // ----- the order, on values -----

  /** What decides between two jobs: a key (priority or deadline), then the id. */
  datatype Rank = Rank(key: int, id: nat)

  predicate Precedes(a: Rank, b: Rank) {
    a.key < b.key || (a.key == b.key && a.id < b.id)
  }

  function Parent(i: int): int { (i - 1) / 2 }

  ghost predicate DistinctIds(s: seq<Rank>) {
    forall i, j :: 0 <= i < j < |s| ==> s[i].id != s[j].id
  }

  ghost predicate Ordered(s: seq<Rank>) {
    forall i {:trigger Parent(i)} :: 0 < i < |s| ==> Precedes(s[Parent(i)], s[i])
  }

  /** Heap order except between k and its parent (if up), and k and its children (if down);
      in any case the children come after the parent. */
  ghost predicate OrderedBut(s: seq<Rank>, k: nat, up: bool, down: bool) {
    && (forall i {:trigger Parent(i)} :: 0 < i < |s| && (i == k ==> !up) && (Parent(i) == k ==> !down) ==> Precedes(s[Parent(i)], s[i]))
    && (forall i {:trigger Parent(i)} :: 0 < i < |s| && 0 < k && Parent(i) == k ==> Precedes(s[Parent(k)], s[i]))
  }

  function Exchange<T>(s: seq<T>, a: nat, b: nat): (r: seq<T>)
    requires a < |s| && b < |s|
    ensures |r| == |s|
  {
    s[a := s[b]][b := s[a]]
  }

  lemma ExchangeDistinct(s: seq<Rank>, a: nat, b: nat)
    requires a < |s| && b < |s| && DistinctIds(s)
    ensures DistinctIds(Exchange(s, a, b))
  {}

  /** One climb: the hole moves to the parent and closes below. */
  lemma Climb(s: seq<Rank>, k: nat, down: bool)
    requires 0 < k < |s| && DistinctIds(s) && OrderedBut(s, k, true, down) && !Precedes(s[Parent(k)], s[k])
    ensures OrderedBut(Exchange(s, k, Parent(k)), Parent(k), true, false)
  {
    var p := Parent(k);
    var r := Exchange(s, k, p);
    assert s[k].id != s[p].id && Precedes(s[k], s[p]);
    hide DistinctIds;
    forall i | 0 < i < |s| && i != p ensures Precedes(r[Parent(i)], r[i]) {
      if i != k && Parent(i) == p { assert Precedes(s[p], s[i]); }
    }
    forall i | 0 < i < |s| && 0 < p && Parent(i) == p ensures Precedes(r[Parent(p)], r[i]) {
      assert Precedes(s[Parent(p)], s[p]);
      if i != k { assert Precedes(s[p], s[i]); }
    }
  }

  /** The child heap_siftup would swap slot k with, or k itself. */
  function Smallest(s: seq<Rank>, k: nat): (m: nat)
    requires k < |s|
    ensures m < |s| && (m == k || m == 2 * k + 1 || m == 2 * k + 2)
    ensures forall i {:trigger Parent(i)} :: 0 < i < |s| && Parent(i) == k && i != m && s[i].id != s[m].id ==> Precedes(s[m], s[i])
    ensures m != k ==> Precedes(s[m], s[k])
  {
    var l, r := 2 * k + 1, 2 * k + 2;
    var m := if l < |s| && Precedes(s[l], s[k]) then l else k;
    if r < |s| && Precedes(s[r], s[m]) then r else m
  }

  /** One descent: the hole moves to the smallest child. */
  lemma Descend(s: seq<Rank>, k: nat)
    requires k < |s| && DistinctIds(s) && OrderedBut(s, k, false, true)
    ensures Smallest(s, k) == k ==> Ordered(s)
    ensures var m := Smallest(s, k); m != k ==>
              OrderedBut(Exchange(s, k, m), m, false, true)
  {
    var m := Smallest(s, k);
    if m != k {
      assert Parent(m) == k;
      var r := Exchange(s, k, m);
      forall i | 0 < i < |s| && Parent(i) != m ensures Precedes(r[Parent(i)], r[i]) {
        if i == k { assert Precedes(s[Parent(k)], s[m]); }
      }
      forall i | 0 < i < |s| && Parent(i) == m ensures Precedes(r[Parent(m)], r[i]) {
        assert Precedes(s[m], s[i]);
      }
    }
  }

  /** The root comes before everything else. */
  lemma {:induction false} RootIsLeast(s: seq<Rank>, i: nat)
    requires Ordered(s) && 0 < i < |s|
    ensures Precedes(s[0], s[i])
  {
    if Parent(i) != 0 { RootIsLeast(s, Parent(i)); }
  }

  /** Where the climb stops, only the edges below the start may be wrong. */
  lemma Stopped(s: seq<Rank>, k: nat, start: nat)
    requires k < |s| && start < |s| && OrderedBut(s, k, true, k == start) && (k == 0 || Precedes(s[Parent(k)], s[k]))
    ensures OrderedBut(s, start, false, true)
  {}

  lemma Replaced(s: seq<Rank>, k: nat)
    requires k < |s| - 1 && Ordered(s) && DistinctIds(s)
    ensures OrderedBut(SwapDelete(s, k), k, true, true) && DistinctIds(SwapDelete(s, k))
  {
    var r := SwapDelete(s, k);
    forall i | 0 < i < |r| && 0 < k && Parent(i) == k ensures Precedes(r[Parent(k)], r[i]) {
      assert Precedes(s[Parent(k)], s[k]) && Precedes(s[k], s[i]);
    }
  }

  /** A new rank at the end may be before its parent. */
  lemma Appended(s: seq<Rank>, x: Rank)
    requires Ordered(s)
    ensures OrderedBut(s + [x], |s|, true, true)
    ensures OrderedBut(s + [x], |s|, false, true) ==> Ordered(s + [x])
  {}

  lemma BottomOrdered(s: seq<Rank>, k: nat)
    requires OrderedBut(s, k, false, true) && k == |s| - 1
    ensures Ordered(s)
  {}

  lemma OrderedPrefix(s: seq<Rank>, n: nat)
    requires n <= |s|
    ensures Ordered(s) ==> Ordered(s[..n])
    ensures DistinctIds(s) ==> DistinctIds(s[..n])
  {
    hide Precedes;
  }

  lemma OrderedAnyway(s: seq<Rank>, k: nat)
    requires Ordered(s) && k < |s|
    ensures OrderedBut(s, k, true, true)
    ensures k == 0 || Precedes(s[Parent(k)], s[k])
  {}

  lemma AppendDistinct(s: seq<Rank>, x: Rank)
    requires DistinctIds(s) && forall i :: 0 <= i < |s| ==> s[i].id != x.id
    ensures DistinctIds(s + [x])
  {}

  /** The same choice, the way the code makes it. */
  lemma SmallestIs(s: seq<Rank>, k: nat)
    requires k < |s|
    ensures var l, r := 2 * k + 1, 2 * k + 2;
            var m := if l < |s| && Precedes(s[l], s[k]) then l else k;
            Smallest(s, k) == if r < |s| && Precedes(s[r], s[m]) then r else m
  {}
}
