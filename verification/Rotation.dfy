/** Who is taken next from a set_t: what the rotating cursor of set_take is good for, and where it fails. */
module Rotation {
  import opened Lists
  import opened ItemSets

  // ----- one take after the other -----

  /** Where the take after next looks: the item behind the one just taken, or the first again when
      that was the last but one. A take of the very last item, though, sends it to slot 1: slot 0 is
      passed over. */
  lemma NextTaken<T>(r: Ring<T>)
    requires |r.items| >= 2
    ensures var n, i, q := |r.items|, r.last % |r.items|, Lists.Take(r);
            && |q.items| == n - 1 && q.last == i + 1
            && (forall m :: 0 <= m < n - 1 ==> q.items[m] == if m == i then r.items[n - 1] else r.items[m])
            && (var next := q.last % |q.items|;
                && (i + 1 < n - 1 ==> next == i + 1 && q.items[next] == r.items[i + 1])
                && (i + 1 == n - 1 ==> next == 0)
                && (i + 1 == n && n == 2 ==> next == 0)
                && (i + 1 == n && n > 2 ==> next == 1 && q.items[next] == r.items[1]))
  {
    Remainder(r.last % |r.items| + 1, |r.items| - 1);
  }

  /** The remainder of a number that is at most one more than the divisor. */
  lemma Remainder(x: nat, b: nat)
    requires 0 < b && x <= b + 1
    ensures x % b == if x < b then x else if x == b || b == 1 then 0 else 1
  {
    var d, m := x / b, x % b;
    assert x == b * d + m && 0 <= m < b;
    if d >= 2 {
      assert b * d >= b * 2;
    } else if d == 1 {
      assert b * d == b;
    } else {
      assert d == 0 && b * d == 0;
    }
  }

  /** The next take goes on behind the last one, or starts again at slot 0, if and only if the last one
      was not of the last of three or more items. */
  lemma RotatesIff<T>(r: Ring<T>)
    requires |r.items| >= 2
    ensures var n, i, q := |r.items|, r.last % |r.items|, Lists.Take(r);
            q.last % |q.items| == (if i + 1 < n - 1 then i + 1 else 0) <==> !(i == n - 1 && n > 2)
  {
    NextTaken(r);
  }

  // ----- many calls -----

  /** The calls a waiting set gets: set_take, set_append, set_remove. */
  datatype Op<T> = TakeOp | AppendOp(item: T) | RemoveOp(item: T)

  function Apply<T(==)>(r: Ring<T>, op: Op<T>): Ring<T> {
    match op
    case TakeOp => if r.items == [] then r else Lists.Take(r)
    case AppendOp(y) => Ring(r.items + [y], r.last)
    case RemoveOp(y) => Ring(SwapRemove(r.items, y), r.last)
  }

  function After<T(==)>(r: Ring<T>, ops: seq<Op<T>>): Ring<T>
    decreases |ops|
  {
    if ops == [] then r else After(Apply(r, ops[0]), ops[1..])
  }

  /** What the takes among the calls return. */
  function Served<T(==)>(r: Ring<T>, ops: seq<Op<T>>): seq<T>
    decreases |ops|
  {
    if ops == [] then []
    else if ops[0].TakeOp? && r.items != [] then [r.items[r.last % |r.items|]] + Served(Apply(r, ops[0]), ops[1..])
    else Served(Apply(r, ops[0]), ops[1..])
  }

  // ----- waiting has an end -----

  /** A call that leaves the rotation in order: no take finds the cursor beyond the end of the set, nobody
      joins twice, x does not leave, and the set stays within size. */
  ghost predicate InOrder<T(!new)>(r: Ring<T>, op: Op<T>, x: T, size: nat) {
    && |Apply(r, op).items| <= size
    && match op
       case TakeOp => r.last <= |r.items| || |r.items| <= 1
       case AppendOp(y) => y !in r.items
       case RemoveOp(y) => y != x
  }

  ghost predicate AllInOrder<T(!new)>(r: Ring<T>, ops: seq<Op<T>>, x: T, size: nat)
    decreases |ops|
  {
    ops != [] ==> InOrder(r, ops[0], x, size) && AllInOrder(Apply(r, ops[0]), ops[1..], x, size)
  }

  /** How many takes, at most, are still to come before item x is taken. */
  function Patience<T(==)>(r: Ring<T>, x: T, size: nat): int {
    var k := Find(r.items, x);
    k * (2 * size + 3) + Distance(k, r.last, size)
  }

  /** The item in slot k may move towards the front, but not towards the end. */
  lemma SlotFalls<T(!new)>(s: seq<T>, m: nat, x: T)
    requires NoDup(s) && m < |s| && x in s && s[m] != x
    ensures NoDup(SwapDelete(s, m)) && x in SwapDelete(s, m)
    ensures Find(SwapDelete(s, m), x) == if Find(s, x) == |s| - 1 then m else Find(s, x)
  {
    SwapDeleteMembers(s, m);
    var k, q := Find(s, x), SwapDelete(s, m);
    var k2 := if k == |s| - 1 then m else k;
    assert q[k2] == x;
    AtFind(q, x, k2);
  }

  lemma AtFind<T(!new)>(s: seq<T>, x: T, k: nat)
    requires NoDup(s) && k < |s| && s[k] == x
    ensures Find(s, x) == k
  {
    assert forall m :: 0 <= m < k ==> s[..k][m] == s[m] && s[m] != s[k];
    FirstHit(s, x, k);
  }

  /** What is left to wait for in slot k, when the cursor is at last. */
  function Distance(k: nat, last: nat, size: nat): int {
    if last <= k then k - last else size + 2 - last + k
  }

  lemma TakePatience<T(!new)>(r: Ring<T>, x: T, size: nat)
    requires NoDup(r.items) && x in r.items && |r.items| <= size && r.last <= size && r.last <= |r.items|
    requires r.items[r.last % |r.items|] != x
    ensures var q := Lists.Take(r);
            && NoDup(q.items) && x in q.items && q.last <= size && Patience(q, x, size) < Patience(r, x, size)
  {
    var n, i, k := |r.items|, r.last % |r.items|, Find(r.items, x);
    Remainder(r.last, n);
    SlotFalls(r.items, i, x);
    if k == n - 1 { Product(i, k, 2 * size + 3); }
  }

  lemma {:induction false} Product(a: nat, b: nat, w: nat)
    requires a < b
    ensures a * w + w <= b * w
    decreases b
  {
    assert b * w == (b - 1) * w + w;
    if a < b - 1 { Product(a, b - 1, w); }
  }

  /** No call makes x wait longer, and every take brings it nearer. */
  lemma OpPatience<T(!new)>(r: Ring<T>, op: Op<T>, x: T, size: nat)
    requires NoDup(r.items) && x in r.items && |r.items| <= size && r.last <= size && InOrder(r, op, x, size)
    requires op.TakeOp? ==> r.items[r.last % |r.items|] != x
    ensures var q := Apply(r, op);
            && NoDup(q.items) && x in q.items && q.last <= size
            && Patience(q, x, size) <= Patience(r, x, size) - (if op.TakeOp? then 1 else 0)
  {
    match op
    case TakeOp =>
      OneLeft(r, x);
      TakePatience(r, x, size);
    case AppendOp(y) =>
      AppendMembers(r.items, y);
      assert (r.items + [y])[Find(r.items, x)] == x;
      AtFind(r.items + [y], x, Find(r.items, x));
    case RemoveOp(y) =>
      if y in r.items {
        var m, k := Find(r.items, y), Find(r.items, x);
        SlotFalls(r.items, m, x);
        if k == |r.items| - 1 { Product(m, k, 2 * size + 3); }
      }
  }

  lemma OneLeft<T(!new)>(r: Ring<T>, x: T)
    requires x in r.items && r.items[r.last % |r.items|] != x
    ensures |r.items| > 1
  {}

  ghost function Takes<T>(ops: seq<Op<T>>): nat {
    if ops == [] then 0 else (if ops[0].TakeOp? then 1 else 0) + Takes(ops[1..])
  }

  lemma PatienceNeverBelow<T(!new)>(r: Ring<T>, x: T, size: nat)
    requires x in r.items && |r.items| <= size && r.last <= size
    ensures Patience(r, x, size) >= 0
  {
    assert Find(r.items, x) * (2 * size + 3) >= 0;
  }

  /** As long as the rotation is in order an item is taken in the end, whatever joins and leaves between
      the takes: after no more takes than Patience tells. */
  lemma {:induction false} WaitingEnds<T(!new)>(r: Ring<T>, ops: seq<Op<T>>, x: T, size: nat)
    requires NoDup(r.items) && x in r.items && |r.items| <= size && r.last <= size
    requires AllInOrder(r, ops, x, size) && Takes(ops) > Patience(r, x, size)
    ensures x in Served(r, ops)
    decreases |ops|
  {
    hide Patience, Takes, Apply, InOrder;
    PatienceNeverBelow(r, x, size);
    TakesOf(ops);
    assert InOrder(r, ops[0], x, size);
    if ops[0].TakeOp? && r.items[r.last % |r.items|] == x {
      assert Served(r, ops)[0] == x;
    } else {
      OpPatience(r, ops[0], x, size);
      SizeAfter(r, ops[0], x, size);
      WaitingEnds(Apply(r, ops[0]), ops[1..], x, size);
      assert x in Served(Apply(r, ops[0]), ops[1..]);
    }
  }

  lemma SizeAfter<T(!new)>(r: Ring<T>, op: Op<T>, x: T, size: nat)
    requires InOrder(r, op, x, size)
    ensures |Apply(r, op).items| <= size
  {}

  lemma TakesOf<T>(ops: seq<Op<T>>)
    ensures Takes(ops) == if ops == [] then 0 else (if ops[0].TakeOp? then 1 else 0) + Takes(ops[1..])
  {}

  lemma PatienceBound<T(!new)>(r: Ring<T>, x: T, size: nat)
    requires x in r.items && |r.items| <= size && r.last <= size
    ensures Patience(r, x, size) < (size + 1) * (2 * size + 3)
  {
    var k := Find(r.items, x);
    Product(k, size + 1, 2 * size + 3);
  }

  // ----- waiting without end -----

  /** Two takes, and the two who were taken join again. */
  function Round<T>(a: T, b: T): seq<Op<T>> { [TakeOp, TakeOp, AppendOp(a), AppendOp(b)] }

  function Rounds<T>(a: T, b: T, n: nat): seq<Op<T>> {
    if n == 0 then [] else Round(a, b) + Rounds(a, b, n - 1)
  }

  lemma OneMore<T>(r: Ring<T>, op: Op<T>, ops: seq<Op<T>>)
    ensures After(r, [op] + ops) == After(Apply(r, op), ops)
    ensures Served(r, [op] + ops) ==
            (if op.TakeOp? && r.items != [] then [r.items[r.last % |r.items|]] else []) + Served(Apply(r, op), ops)
  {
    assert ([op] + ops)[0] == op && ([op] + ops)[1..] == ops;
    hide Apply;
  }

  /** With the cursor on the last of three, one round serves the last two and leaves everything as it was. */
  lemma RoundSkips<T>(x: T, a: T, b: T, ops: seq<Op<T>>)
    requires x != a && x != b
    ensures After(Ring([x, a, b], 2), Round(a, b) + ops) == After(Ring([x, a, b], 2), ops)
    ensures Served(Ring([x, a, b], 2), Round(a, b) + ops) == [b, a] + Served(Ring([x, a, b], 2), ops)
  {
    var r0, r1, r2, r3 := Ring([x, a, b], 2), Ring([x, a], 3), Ring([x], 2), Ring([x, a], 2);
    var o3 := [AppendOp(b)] + ops;
    var o2 := [AppendOp(a)] + o3;
    var o1 := [TakeOp] + o2;
    assert Round(a, b) + ops == [TakeOp] + o1;
    assert Apply(r0, TakeOp) == r1 && Apply(r1, TakeOp) == r2 && Apply(r2, AppendOp(a)) == r3 && Apply(r3, AppendOp(b)) == r0;
    hide Apply, After, Served;
    OneMore(r0, TakeOp, o1);
    OneMore(r1, TakeOp, o2);
    OneMore(r2, AppendOp(a), o3);
    OneMore(r3, AppendOp(b), ops);
    var rest := Served(r0, ops);
    assert [b] + ([a] + ([] + ([] + rest))) == [b, a] + rest;
  }

  /** So x is never taken, however often the other two are. */
  lemma {:induction false} Starves<T>(x: T, a: T, b: T, n: nat)
    requires x != a && x != b
    ensures After(Ring([x, a, b], 2), Rounds(a, b, n)) == Ring([x, a, b], 2)
    ensures var got := Served(Ring([x, a, b], 2), Rounds(a, b, n)); |got| == 2 * n && x !in got
  {
    if n > 0 {
      RoundSkips(x, a, b, Rounds(a, b, n - 1));
      Starves(x, a, b, n - 1);
      hide After, Served;
    }
  }

  /** From an empty set: a joins and is taken, x and a join and a is taken, a and b join. */
  function Beginning<T>(x: T, a: T, b: T): seq<Op<T>> {
    [AppendOp(a), TakeOp, AppendOp(x), AppendOp(a), TakeOp, AppendOp(a), AppendOp(b)]
  }

  lemma BeginsStarving<T>(x: T, a: T, b: T)
    requires x != a && x != b
    ensures After(Ring([], 0), Beginning(x, a, b)) == Ring([x, a, b], 2)
  {
    var o6 := [AppendOp(b)];
    var o5 := [AppendOp(a)] + o6;
    var o4 := [TakeOp] + o5;
    var o3 := [AppendOp(a)] + o4;
    var o2 := [AppendOp(x)] + o3;
    var o1 := [TakeOp] + o2;
    assert Beginning(x, a, b) == [AppendOp(a)] + o1 && o6 == o6 + [];
    assert Apply(Ring([], 0), AppendOp(a)) == Ring([a], 0) && Apply(Ring([a], 0), TakeOp) == Ring([], 1);
    assert Apply(Ring([], 1), AppendOp(x)) == Ring([x], 1) && Apply(Ring([x], 1), AppendOp(a)) == Ring([x, a], 1);
    assert Apply(Ring([x, a], 1), TakeOp) == Ring([x], 2) && Apply(Ring([x], 2), AppendOp(a)) == Ring([x, a], 2);
    assert Apply(Ring([x, a], 2), AppendOp(b)) == Ring([x, a, b], 2) && After(Ring([x, a, b], 2), []) == Ring([x, a, b], 2);
    hide Apply, After, Served;
    OneMore(Ring([], 0), AppendOp(a), o1);
    OneMore(Ring([a], 0), TakeOp, o2);
    OneMore(Ring([], 1), AppendOp(x), o3);
    OneMore(Ring([x], 1), AppendOp(a), o4);
    OneMore(Ring([x, a], 1), TakeOp, o5);
    OneMore(Ring([x], 2), AppendOp(a), o6);
    OneMore(Ring([x, a], 2), AppendOp(b), []);
  }

  lemma TurnOfLast<T>(x: T, a: T, b: T)
    ensures TakeIndex(Ring([x, a, b], 2)) == 2 && Lists.Take(Ring([x, a, b], 2)) == Ring([x, a], 3)
    ensures TakeIndex(Ring([x, a], 3)) == 1 && Lists.Take(Ring([x, a], 3)) == Ring([x], 2)
    ensures TakeIndex(Ring([a], 0)) == 0 && Lists.Take(Ring([a], 0)) == Ring([], 1)
    ensures TakeIndex(Ring([x, a], 1)) == 1 && Lists.Take(Ring([x, a], 1)) == Ring([x], 2)
  {}

  /** The same with the set itself: a is taken, ... */
  method OneTaken<T(==, 0)>(a: T) returns (s: ItemSet<T>)
    ensures s.Valid() && fresh(s) && fresh(s.items) && s.Contents() == [] && s.last == 1
  {
    TurnOfLast(a, a, a);
    hide Lists.Take, TakeIndex, SwapDelete;
    s := new ItemSet<T>();
    s.Append(a);
    assert s.Contents() == [a];
    var _ := s.Take();
  }

  /** ... x joins, ... */
  method Prepare<T(==, 0)>(x: T, a: T, b: T) returns (s: ItemSet<T>)
    ensures s.Valid() && fresh(s) && fresh(s.items) && s.Contents() == [x, a, b] && s.last == 2
  {
    TurnOfLast(x, a, b);
    hide Lists.Take, TakeIndex, SwapDelete;
    s := OneTaken(a);
    s.Append(x);
    s.Append(a);
    assert s.Contents() == [x, a];
    var _ := s.Take();
    s.Append(a);
    s.Append(b);
  }

  method PassOver<T(==, 0)>(s: ItemSet<T>, x: T, a: T, b: T) returns (one: T, two: T)
    requires s.Valid() && s.Contents() == [x, a, b] && s.last == 2
    modifies s, s.items
    ensures s.Valid() && s.Contents() == [x, a, b] && s.last == 2 && one == b && two == a
    ensures s.items == old(s.items) || fresh(s.items)
  {
    TurnOfLast(x, a, b);
    hide Lists.Take, TakeIndex, SwapDelete;
    var r := s.Take();
    one := r.item;
    r := s.Take();
    two := r.item;
    s.Append(a);
    s.Append(b);
  }

  /** ... and is passed over 2 * n times. */
  method Starve<T(==, 0)>(x: T, a: T, b: T, n: nat) returns (s: ItemSet<T>, got: seq<T>)
    requires x != a && x != b
    ensures s.Valid() && s.Contents() == [x, a, b] && |got| == 2 * n && x !in got
  {
    s := Prepare(x, a, b);
    got := [];
    for i := 0 to n
      invariant s.Valid() && fresh(s) && fresh(s.items) && s.Contents() == [x, a, b] && s.last == 2
      invariant |got| == 2 * i && x !in got
    {
      var one, two := PassOver(s, x, a, b);
      got := got + [one, two];
    }
  }
}
