/** hash.c's iterator: slot by slot, along each chain. */
module HashIters {
  import opened Hashes

  /** The entries of the chains, one chain after the other. */
  ghost function Flat<K, V>(chains: seq<seq<Entry<K, V>>>): seq<Entry<K, V>> {
    if chains == [] then [] else Flat(chains[..|chains| - 1]) + chains[|chains| - 1]
  }

  lemma FlatSnoc<K, V>(chains: seq<seq<Entry<K, V>>>, n: nat)
    requires n < |chains|
    ensures Flat(chains[..n + 1]) == Flat(chains[..n]) + chains[n]
  {
    assert chains[..n + 1][..n] == chains[..n];
  }

  lemma KeysJoin<K, V>(a: seq<Entry<K, V>>, b: seq<Entry<K, V>>)
    requires KeysDiffer(a) && KeysDiffer(b) && KeysOf(a) !! KeysOf(b)
    ensures KeysDiffer(a + b) && KeysOf(a + b) == KeysOf(a) + KeysOf(b)
  {
    var c := a + b;
    forall i, j | 0 <= i < j < |c| ensures c[i].key != c[j].key {
      if i < |a| <= j { assert a[i].key in KeysOf(a) && b[j - |a|].key in KeysOf(b); }
    }
    assert forall e :: e in c <==> e in a || e in b;
  }

  /** The first n chains hold each key of their slots exactly once. */
  lemma {:induction false} FlatKeys<K, V>(hash: K -> nat, chains: seq<seq<Entry<K, V>>>, index: map<K, Entry<K, V>>, n: nat)
    requires Filed(hash, chains, index) && n <= |chains|
    ensures KeysDiffer(Flat(chains[..n]))
    ensures forall k :: k in KeysOf(Flat(chains[..n])) <==> k in index && SlotOf(hash, |chains|, k) < n
  {
    hide Filed, KeysDiffer;
    if n == 0 {
      assert chains[..0] == [];
      assert KeysDiffer<K, V>([]) by { NoKeys<K, V>(); }
    } else {
      FlatKeys(hash, chains, index, n - 1);
      FlatSnoc(chains, n - 1);
      ChainKeys(hash, chains, index, n - 1);
      KeysJoin(Flat(chains[..n - 1]), chains[n - 1]);
    }
  }

  lemma NoKeys<K, V>()
    ensures KeysDiffer<K, V>([])
  {}

  /** A complete walk meets every key of the table once. */
  lemma WalkMeetsAll<K, V>(hash: K -> nat, chains: seq<seq<Entry<K, V>>>, index: map<K, Entry<K, V>>)
    requires Filed(hash, chains, index)
    ensures KeysDiffer(Flat(chains)) && forall k :: k in KeysOf(Flat(chains)) <==> k in index
  {
    hide *;
    FlatKeys(hash, chains, index, |chains|);
    assert chains[..|chains|] == chains;
  }

  lemma IsEntry<K, V>(e: Entry?<K, V>, entry: Entry<K, V>)
    requires e == entry
    ensures e != null
  {}

  class Iter<K(==), V> {
    const ht: Hash<K, V>
    var pos: nat
    var depth: nat
    var he: Entry?<K, V>
    /** The entries met so far. */
    ghost var seen: seq<Entry<K, V>>

    /** The iterator stands on an entry, or has not begun. */
    ghost predicate OnTrack()
      reads this, ht
    {
      if he == null then pos == 0 && seen == []
      else
        && pos < |ht.chains| && depth < |ht.chains[pos]| && he == ht.chains[pos][depth]
        && seen == Flat(ht.chains[..pos]) + ht.chains[pos][..depth + 1]
    }

    /** hash_iter_init before its call of hash_iter_next. */
    constructor (ht: Hash<K, V>)
      ensures this.ht == ht && OnTrack() && he == null && seen == []
    {
      this.ht := ht;
      pos, depth, he := 0, 0, null;
      seen := [];
    }

    /** Where the chain of slot b begins, and how it goes on. */
    lemma ChainIs(b: nat)
      requires ht.Valid() && b < ht.data.Length
      ensures b < |ht.chains| == ht.slots == ht.data.Length
      ensures ht.data[b] == if ht.chains[b] == [] then null else ht.chains[b][0]
      ensures forall m :: 0 <= m < |ht.chains[b]| ==>
                (ht.chains[b][m].next == null <==> m == |ht.chains[b]| - 1)
                && (m < |ht.chains[b]| - 1 ==> ht.chains[b][m].next == ht.chains[b][m + 1])
    {
      assert Chain(ht.data[b], ht.chains[b]);
      forall m | 0 <= m < |ht.chains[b]|
        ensures ht.chains[b][m].next == null <==> m == |ht.chains[b]| - 1
        ensures m < |ht.chains[b]| - 1 ==> ht.chains[b][m].next == ht.chains[b][m + 1]
      {
        assert Step(ht.chains[b], m);
        if m < |ht.chains[b]| - 1 { IsEntry(ht.chains[b][m].next, ht.chains[b][m + 1]); }
      }
    }

    /** Where the chain of every slot begins. */
    ghost predicate Heads()
      reads ht, ht.data
    {
      && |ht.chains| == ht.slots == ht.data.Length
      && forall b :: 0 <= b < ht.data.Length ==> ht.data[b] == if ht.chains[b] == [] then null else ht.chains[b][0]
    }

    lemma HeadsKnown()
      requires ht.Valid()
      ensures Heads() && Filed(ht.hash, ht.chains, ht.index)
    {
      assert |ht.chains| == ht.data.Length;
      forall b | 0 <= b < ht.data.Length ensures ht.data[b] == if ht.chains[b] == [] then null else ht.chains[b][0] { ChainIs(b); }
    }

    /** hash_iter_next: one entry further, or the end once all have been met. */
    method Next() returns (ok: bool)
      requires ht.Valid() && OnTrack()
      modifies this
      ensures ok ==> OnTrack() && he != null && seen == old(seen) + [he]
      ensures !ok ==> seen == old(seen) && KeysDiffer(seen) && forall k :: k in KeysOf(seen) <==> k in ht.Model()
    {
      hide Hash.Valid, Filed, KeysDiffer;
      HeadsKnown();
      if he != null { ChainIs(pos); }
      if he != null && he.next != null {
        assert ht.chains[pos][..depth + 2] == ht.chains[pos][..depth + 1] + [he.next];
        he := he.next;
        depth := depth + 1;
        seen := seen + [he];
        ok := true;
      } else {
        if he != null {
          FlatSnoc(ht.chains, pos);
          assert ht.chains[pos][..depth + 1] == ht.chains[pos];
          pos := pos + 1;
        }
        assert ht.chains[..0] == [];
        ok := Advance();
        if !ok { WalkMeetsAll(ht.hash, ht.chains, ht.index); }
      }
    }

    /** The loop of hash_iter_next: the next slot with a chain. */
    method Advance() returns (ok: bool)
      requires Heads() && pos <= |ht.chains| && seen == Flat(ht.chains[..pos])
      modifies this
      ensures ok ==> OnTrack() && he != null && seen == old(seen) + [he]
      ensures !ok ==> seen == old(seen) == Flat(ht.chains)
    {
      depth := 0;
      ok := false;
      while pos < ht.slots && !ok
        invariant pos <= |ht.chains| && depth == 0
        invariant !ok ==> seen == old(seen) == Flat(ht.chains[..pos])
        invariant ok ==> OnTrack() && he != null && seen == old(seen) + [he]
        decreases ht.slots - pos, !ok
      {
        he := ht.data[pos];
        if he != null {
          seen := seen + [he];
          ok := true;
        } else {
          FlatSnoc(ht.chains, pos);
          pos := pos + 1;
        }
      }
      assert ht.chains[..|ht.chains|] == ht.chains;
    }
  }
}
