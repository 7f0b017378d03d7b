/** set.c: an unordered array of pointers that grows by doubling, deletes by moving the last
    item into the hole, and hands out items round-robin. */
module ItemSets {
  import opened Lists

  /** The calls an on_insert or on_remove callback receives. */
  datatype Call<T> = Inserted(item: T, at: nat) | Removed(item: T, at: nat)

  datatype Taken<T> = Nobody | Somebody(item: T)

  class ItemSet<T(==, 0)> {
    var items: array<T>
    var used: nat
    var last: nat
    ghost var calls: seq<Call<T>>

    ghost predicate Valid()
      reads this, items
    {
      used <= items.Length
    }

    ghost function Contents(): seq<T>
      requires Valid()
      reads this, items
    {
      items[..used]
    }

    constructor ()
      ensures Valid() && fresh(items) && Contents() == [] && last == 0 && calls == []
    {
      items := new T[0];
      used, last, calls := 0, 0, [];
    }

    /** set_grow. */
    method Grow()
      requires Valid() && used == items.Length
      modifies this`items
      ensures Valid() && fresh(items) && Contents() == old(Contents())
      ensures items.Length == if used == 0 then 1 else 2 * used
    {
      var bigger := new T[if items.Length == 0 then 1 else 2 * items.Length];
      for i := 0 to used
        invariant items == old(items) && bigger[..i] == items[..i]
      {
        bigger[i] := items[i];
      }
      items := bigger;
    }

    method Append(item: T)
      requires Valid()
      modifies this`items, this`used, this`calls, items
      ensures Valid() && (items == old(items) || fresh(items))
      ensures Contents() == old(Contents()) + [item]
      ensures calls == old(calls) + [Inserted(item, old(used))]
    {
      if used >= items.Length {
        Grow();
      }
      items[used] := item;
      used := used + 1;
      calls := calls + [Inserted(item, used - 1)];
    }

    method Delete(i: nat) returns (ok: bool)
      requires Valid()
      modifies this`used, this`calls, items
      ensures Valid() && ok == (i < old(used))
      ensures ok ==> Contents() == SwapDelete(old(Contents()), i) && used == old(used) - 1
      ensures ok ==> forall m :: 0 <= m < used ==> Contents()[m] == old(Contents())[if m == i then old(used) - 1 else m]
      ensures ok ==> calls == old(calls) + [Removed(old(items[i]), i)]
      ensures !ok ==> Contents() == old(Contents()) && calls == old(calls)
    {
      if i >= used {
        return false;
      }
      var item := items[i];
      used := used - 1;
      items[i] := items[used];
      calls := calls + [Removed(item, i)];
      return true;
    }

    method Remove(item: T) returns (ok: bool)
      requires Valid()
      modifies this`used, this`calls, items
      ensures Valid() && ok == (item in old(Contents()))
      ensures Contents() == SwapRemove(old(Contents()), item)
      ensures calls == if ok then old(calls) + [Removed(item, Find(old(Contents()), item))] else old(calls)
    {
      var i := 0;
      while i < used
        invariant i <= used && used == old(used) && items[..] == old(items[..]) && calls == old(calls)
        invariant item !in items[..i]
      {
        if items[i] == item {
          FirstHit(Contents(), item, i);
          ok := Delete(i);
          return;
        }
        i := i + 1;
      }
      return false;
    }

    method Contains(item: T) returns (found: bool)
      requires Valid()
      ensures found == (item in Contents())
    {
      var i := 0;
      while i < used
        invariant i <= used && item !in items[..i]
      {
        if items[i] == item {
          return true;
        }
        i := i + 1;
      }
      return false;
    }

    /** set_take: the cursor moves on by one. */
    method Take() returns (r: Taken<T>)
      requires Valid()
      modifies this`used, this`last, this`calls, items
      ensures Valid() && r.Nobody? == (old(used) == 0)
      ensures r.Nobody? ==> Contents() == [] && last == old(last)
      ensures r.Somebody? ==>
                && r.item == old(Contents())[TakeIndex(Ring(old(Contents()), old(last)))]
                && r.item == old(Contents())[old(last) % old(used)] && last == old(last) % old(used) + 1
                && Ring(Contents(), last) == Lists.Take(Ring(old(Contents()), old(last)))
      ensures calls == if r.Nobody? then old(calls)
                       else old(calls) + [Removed(r.item, TakeIndex(Ring(old(Contents()), old(last))))]
    {
      if used == 0 {
        return Nobody;
      }
      last := last % used;
      var item := items[last];
      var _ := Delete(last);
      last := last + 1;
      return Somebody(item);
    }

    /** set_clear: every item is reported to on_remove, the first slot always being the one deleted. */
    method Clear()
      requires Valid()
      modifies this, items
      ensures Valid() && fresh(items) && Contents() == [] && last == 0
      ensures calls == old(calls) + ClearCalls(old(Contents()))
    {
      var ok := true;
      while ok
        invariant Valid() && items == old(items)
        invariant calls + ClearCalls(Contents()) == old(calls) + ClearCalls(old(Contents()))
        invariant !ok ==> used == 0
        decreases used, ok
      {
        ghost var was, log := Contents(), calls;
        ok := Delete(0);
        if ok {
          assert log + ([Removed(was[0], 0)] + ClearCalls(Contents())) == calls + ClearCalls(Contents());
        }
      }
      items := new T[0];
      last := 0;
    }
  }

  /** Deleting slot 0 until nothing is left. */
  ghost function ClearCalls<T>(s: seq<T>): (r: seq<Call<T>>)
    ensures |r| == |s|
    decreases |s|
  {
    if s == [] then [] else [Removed(s[0], 0)] + ClearCalls(SwapDelete(s, 0))
  }

  ghost function RemovedItems<T>(log: seq<Call<T>>): multiset<T> {
    multiset(seq(|log|, i requires 0 <= i < |log| => log[i].item))
  }

  lemma RemovedCons<T>(x: Call<T>, log: seq<Call<T>>)
    ensures RemovedItems([x] + log) == multiset{x.item} + RemovedItems(log)
  {
    var r, q := seq(|log| + 1, i requires 0 <= i < |log| + 1 => ([x] + log)[i].item), seq(|log|, i requires 0 <= i < |log| => log[i].item);
    assert r == [x.item] + q;
  }

  lemma SwapDeleteBag<T>(s: seq<T>, i: nat)
    requires i < |s|
    ensures multiset(s) == multiset{s[i]} + multiset(SwapDelete(s, i))
  {
    var n := |s| - 1;
    var r := SwapDelete(s, i);
    if i == n {
      assert s == r + [s[n]];
    } else {
      assert s == s[..i] + [s[i]] + s[i + 1..n] + [s[n]];
      assert r == s[..i] + [s[n]] + s[i + 1..n];
    }
  }

  /** Clearing a watch set drops every tube exactly as often as it was in the set. */
  lemma {:induction false} ClearReportsAll<T>(s: seq<T>)
    ensures RemovedItems(ClearCalls(s)) == multiset(s)
    decreases |s|
  {
    if s == [] {
      assert ClearCalls(s) == [];
    } else {
      SwapDeleteBag(s, 0);
      ClearReportsAll(SwapDelete(s, 0));
      RemovedCons(Removed(s[0], 0), ClearCalls(SwapDelete(s, 0)));
    }
  }

  /** Taking until nothing is left. */
  ghost function TakeAll<T>(r: Ring<T>): (order: seq<T>)
    decreases |r.items|
  {
    if r.items == [] then [] else [r.items[TakeIndex(r)]] + TakeAll(Lists.Take(r))
  }

  /** Round-robin hands out everything, once, wherever the cursor starts. */
  lemma {:induction false} TakeAllIsEverything<T>(r: Ring<T>)
    ensures multiset(TakeAll(r)) == multiset(r.items)
    decreases |r.items|
  {
    if r.items != [] {
      SwapDeleteBag(r.items, TakeIndex(r));
      TakeAllIsEverything(Lists.Take(r));
      assert TakeAll(r) == [r.items[TakeIndex(r)]] + TakeAll(Lists.Take(r));
    }
  }
}
