/** The sequence operations behind set.c and dlist.c, as functions on the stored items. */
module Lists {

  ghost predicate NoDup<T(!new)>(s: seq<T>) {
    forall i, j :: 0 <= i < j < |s| ==> s[i] != s[j]
  }

  function Elements<T>(s: seq<T>): set<T> { set x | x in s }

  /** set_delete: the last item moves into the hole. */
  function SwapDelete<T>(s: seq<T>, i: nat): (r: seq<T>)
    requires i < |s|
    ensures |r| == |s| - 1
  {
    s[i := s[|s| - 1]][..|s| - 1]
  }

  /** Position of the first occurrence; |s| when there is none. */
  function Find<T(==)>(s: seq<T>, x: T): (i: nat)
    ensures i <= |s|
    ensures i < |s| <==> x in s
    ensures i < |s| ==> s[i] == x && x !in s[..i]
  {
    if s == [] then 0
    else if s[0] == x then 0
    else
      var i := 1 + Find(s[1..], x);
      assert s == [s[0]] + s[1..];
      assert i < |s| ==> s[..i] == [s[0]] + s[1..][..i - 1];
      i
  }

  /** Where a search from the front stops. */
  lemma FirstHit<T>(s: seq<T>, x: T, i: nat)
    requires i <= |s| && x !in s[..i] && (i < |s| ==> s[i] == x)
    ensures Find(s, x) == i && (i < |s| <==> x in s)
  {
    assert forall m :: 0 <= m < i ==> s[m] == s[..i][m];
    assert forall m :: 0 <= m < Find(s, x) ==> s[m] == s[..Find(s, x)][m];
  }

  /** set_remove: the first occurrence leaves, nothing happens when there is none. */
  function SwapRemove<T(==)>(s: seq<T>, x: T): seq<T> {
    if x in s then SwapDelete(s, Find(s, x)) else s
  }

  /** dlist_search_key followed by dlist_delete_node. */
  function Unlink<T(==)>(s: seq<T>, x: T): seq<T> {
    if x in s then s[..Find(s, x)] + s[Find(s, x) + 1..] else s
  }

  lemma SwapDeleteMembers<T(!new)>(s: seq<T>, i: nat)
    requires NoDup(s) && i < |s|
    ensures NoDup(SwapDelete(s, i))
    ensures forall x :: x in SwapDelete(s, i) <==> x in s && x != s[i]
  {
    var r := SwapDelete(s, i);
    forall x ensures x in r <==> x in s && x != s[i] {
      if x in s && x != s[i] {
        var k :| 0 <= k < |s| && s[k] == x;
        assert r[if k == |s| - 1 then i else k] == x;
      }
    }
  }

  lemma SwapRemoveMembers<T(!new)>(s: seq<T>, x: T)
    requires NoDup(s)
    ensures NoDup(SwapRemove(s, x))
    ensures forall y :: y in SwapRemove(s, x) <==> y in s && y != x
    ensures |SwapRemove(s, x)| == |s| - (if x in s then 1 else 0)
  {
    if x in s {
      SwapDeleteMembers(s, Find(s, x));
    }
  }

  lemma CutMembers<T(!new)>(s: seq<T>, i: nat)
    requires NoDup(s) && i < |s|
    ensures NoDup(s[..i] + s[i + 1..])
    ensures forall y :: y in s[..i] + s[i + 1..] <==> y in s && y != s[i]
  {
    var r := s[..i] + s[i + 1..];
    forall y ensures y in r <==> y in s && y != s[i] {
      assert s == s[..i] + [s[i]] + s[i + 1..];
    }
  }

  lemma UnlinkMembers<T(!new)>(s: seq<T>, x: T)
    requires NoDup(s)
    ensures NoDup(Unlink(s, x))
    ensures forall y :: y in Unlink(s, x) <==> y in s && y != x
    ensures |Unlink(s, x)| == |s| - (if x in s then 1 else 0)
  {
    if x in s {
      CutMembers(s, Find(s, x));
    }
  }

  /** The items of a set_t together with its rotating cursor. */
  datatype Ring<T> = Ring(items: seq<T>, last: nat)

  /** set_take picks the item under the cursor (modulo the size). */
  function TakeIndex<T>(r: Ring<T>): (i: nat)
    requires r.items != []
    ensures i < |r.items|
  {
    r.last % |r.items|
  }

  function Take<T>(r: Ring<T>): (res: Ring<T>)
    requires r.items != []
    ensures |res.items| == |r.items| - 1
  {
    Ring(SwapDelete(r.items, TakeIndex(r)), TakeIndex(r) + 1)
  }

  /** A duplicate-free sequence is as long as its set of elements is large. */
  lemma {:induction false} NoDupSize<T(!new)>(s: seq<T>)
    requires NoDup(s)
    ensures |s| == |Elements(s)|
  {
    if s != [] {
      var tail := s[1..];
      NoDupSize(tail);
      assert s[0] !in tail;
      assert Elements(s) == Elements(tail) + {s[0]};
    }
  }

  lemma SomeItem<T(!new)>(s: seq<T>)
    ensures s != [] ==> exists x :: x in s
  {
    if s != [] { assert s[0] in s; }
  }

  lemma AppendMembers<T(!new)>(s: seq<T>, x: T)
    requires NoDup(s) && x !in s
    ensures NoDup(s + [x])
    ensures forall y :: y in s + [x] <==> y in s || y == x
  {}

  lemma SubsetSize<T>(a: set<T>, b: set<T>)
    requires a <= b
    ensures |a| <= |b|
  {
    assert b == a + (b - a);
  }
}
