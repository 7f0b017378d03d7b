/** hash.c: a chained hash table that doubles when it is full. It backs the job index. */
module Hashes {
  import opened Lists

  const HASH_INIT_SLOTS: nat := 16
  const LONG_MAX: nat := 0x7FFF_FFFF_FFFF_FFFF
  const ULONG_LIMIT: nat := 0x1_0000_0000_0000_0000
  const UINT_LIMIT: nat := 0x1_0000_0000

  /** 16, 32, 64, ... */
  ghost predicate IsSlots(n: nat)
    decreases n
  {
    n == HASH_INIT_SLOTS || (n > HASH_INIT_SLOTS && n % 2 == 0 && IsSlots(n / 2))
  }

  lemma DoubleSlots(n: nat)
    requires IsSlots(n)
    ensures IsSlots(2 * n)
  {}

  /** What doubling makes of a slot count: an unsigned int that overflows becomes 0, and hash_init's least
      table is the initial one. */
  function Doubled(n: nat): nat { if 2 * n < UINT_LIMIT then 2 * n else HASH_INIT_SLOTS }

  lemma Times512(n: nat)
    requires IsSlots(n)
    ensures IsSlots(512 * n)
  {
    DoubleSlots(n);
    DoubleSlots(2 * n);
    DoubleSlots(4 * n);
    DoubleSlots(8 * n);
    DoubleSlots(16 * n);
    DoubleSlots(32 * n);
    DoubleSlots(64 * n);
    DoubleSlots(128 * n);
    DoubleSlots(256 * n);
  }

  lemma DoubledSlots(n: nat)
    requires IsSlots(n) && n < UINT_LIMIT
    ensures n > 0 && var m := n * 2 % UINT_LIMIT; if 2 * n < UINT_LIMIT then m == 2 * n && IsSlots(m) else m == 0
  {
    DoubleSlots(n);
    Times512(HASH_INIT_SLOTS);
    Times512(512 * HASH_INIT_SLOTS);
    Times512(512 * 512 * HASH_INIT_SLOTS);
    if UINT_LIMIT / 2 < n { SlotsApart(UINT_LIMIT / 2, n); }
    hide IsSlots;
  }

  /** next_power: the least slot count that covers size. No doubling leaves 64 bits. */
  method NextPower(size: nat) returns (i: nat)
    ensures size >= LONG_MAX ==> i == LONG_MAX
    ensures size < LONG_MAX ==> IsSlots(i) && i >= size && (i == HASH_INIT_SLOTS || i / 2 < size)
    ensures i < ULONG_LIMIT
  {
    i := HASH_INIT_SLOTS;
    if size >= LONG_MAX {
      return LONG_MAX;
    }
    while i < size
      invariant IsSlots(i) && (i == HASH_INIT_SLOTS || i / 2 < size)
      decreases size - i
    {
      assert 2 * i < ULONG_LIMIT;
      DoubleSlots(i);
      i := i * 2;
    }
  }

  lemma {:induction false} SlotsApart(a: nat, b: nat)
    requires IsSlots(a) && IsSlots(b) && a < b
    ensures 2 * a <= b
    decreases b
  {
    if a != HASH_INIT_SLOTS { SlotsApart(a / 2, b / 2); }
  }

  class Entry<K, V> {
    const key: K
    var val: V
    var next: Entry?<K, V>

    constructor (key: K, val: V)
      ensures this.key == key && this.val == val && next == null
    {
      this.key := key;
      this.val := val;
      next := null;
    }
  }

  /** The chain that starts at e is exactly list. */
  ghost predicate Chain<K, V>(e: Entry?<K, V>, list: seq<Entry<K, V>>)
    reads Members(list)`next
  {
    && e == (if list == [] then null else list[0])
    && (forall i :: 0 <= i < |list| ==> Step(list, i))
  }

  ghost predicate Step<K, V>(list: seq<Entry<K, V>>, i: nat)
    requires i < |list|
    reads {list[i]}`next
  {
    list[i].next == if i == |list| - 1 then null else list[i + 1]
  }

  function SlotOf<K>(hash: K -> nat, slots: nat, key: K): (b: nat)
    requires slots > 0
    ensures b < slots
  {
    hash(key) % slots
  }

  /** Every chain holds exactly the entries whose keys belong to its slot, each once. */
  ghost predicate Filed<K, V>(hash: K -> nat, chains: seq<seq<Entry<K, V>>>, index: map<K, Entry<K, V>>) {
    && |chains| > 0
    && (forall b :: 0 <= b < |chains| ==> Tidy(hash, |chains|, b, chains[b], index))
    && (forall k :: k in index ==> index[k].key == k && index[k] in chains[SlotOf(hash, |chains|, k)])
  }

  ghost predicate Tidy<K, V>(hash: K -> nat, slots: nat, b: nat, chain: seq<Entry<K, V>>, index: map<K, Entry<K, V>>)
    requires slots > 0
  {
    && (forall i, j :: 0 <= i < j < |chain| ==> chain[i] != chain[j])
    && (forall i :: 0 <= i < |chain| ==> Indexed(hash, slots, b, chain[i], index))
  }

  ghost predicate Indexed<K, V>(hash: K -> nat, slots: nat, b: nat, e: Entry<K, V>, index: map<K, Entry<K, V>>)
    requires slots > 0
  {
    SlotOf(hash, slots, e.key) == b && e.key in index && index[e.key] == e
  }

  ghost function Empties<K, V>(n: nat): (r: seq<seq<Entry<K, V>>>)
    ensures |r| == n && forall b :: 0 <= b < n ==> r[b] == []
  {
    seq(n, _ => [])
  }

  lemma FiledEmpty<K, V>(hash: K -> nat, n: nat)
    requires n > 0
    ensures Filed(hash, Empties<K, V>(n), map[])
  {}

  lemma FiledPut<K, V>(hash: K -> nat, chains: seq<seq<Entry<K, V>>>, index: map<K, Entry<K, V>>, e: Entry<K, V>)
    requires Filed(hash, chains, index) && e.key !in index
    ensures var b := SlotOf(hash, |chains|, e.key);
            Filed(hash, chains[b := [e] + chains[b]], index[e.key := e])
  {
    var b := SlotOf(hash, |chains|, e.key);
    var chains2, index2 := chains[b := [e] + chains[b]], index[e.key := e];
    forall c | 0 <= c < |chains| ensures Tidy(hash, |chains|, c, chains2[c], index2) {
      assert Tidy(hash, |chains|, c, chains[c], index);
      assert forall i :: 0 <= i < |chains[c]| ==> Indexed(hash, |chains|, c, chains[c][i], index);
    }
  }

  lemma TidyCut<K, V>(hash: K -> nat, slots: nat, b: nat, chain: seq<Entry<K, V>>, index: map<K, Entry<K, V>>, i: nat)
    requires slots > 0 && i < |chain| && Tidy(hash, slots, b, chain, index)
    ensures Tidy(hash, slots, b, chain[..i] + chain[i + 1..], index - {chain[i].key})
  {
    var cut, index2 := chain[..i] + chain[i + 1..], index - {chain[i].key};
    forall m | 0 <= m < |cut| ensures Indexed(hash, slots, b, cut[m], index2) {
      assert Indexed(hash, slots, b, chain[if m < i then m else m + 1], index) && Indexed(hash, slots, b, chain[i], index);
    }
    hide SlotOf, Indexed;
  }

  lemma TidyOther<K, V>(hash: K -> nat, slots: nat, c: nat, chain: seq<Entry<K, V>>, index: map<K, Entry<K, V>>, key: K)
    requires slots > 0 && Tidy(hash, slots, c, chain, index) && SlotOf(hash, slots, key) != c
    ensures Tidy(hash, slots, c, chain, index - {key})
  {
    hide SlotOf;
    forall m | 0 <= m < |chain| ensures Indexed(hash, slots, c, chain[m], index - {key}) {
      assert Indexed(hash, slots, c, chain[m], index);
    }
  }

  lemma FiledCut<K, V>(hash: K -> nat, chains: seq<seq<Entry<K, V>>>, index: map<K, Entry<K, V>>, b: nat, i: nat)
    requires Filed(hash, chains, index) && b < |chains| && i < |chains[b]|
    ensures chains[b][i].key in index
    ensures Filed(hash, chains[b := chains[b][..i] + chains[b][i + 1..]], index - {chains[b][i].key})
  {
    var e := chains[b][i];
    FiledMember(hash, chains, index, b, i);
    var chains2, index2 := chains[b := chains[b][..i] + chains[b][i + 1..]], index - {e.key};
    hide Tidy, SlotOf;
    forall c | 0 <= c < |chains| ensures Tidy(hash, |chains|, c, chains2[c], index2) {
      if c == b { TidyCut(hash, |chains|, b, chains[b], index, i); } else { TidyOther(hash, |chains|, c, chains[c], index, e.key); }
    }
    forall k | k in index2 ensures index2[k].key == k && index2[k] in chains2[SlotOf(hash, |chains|, k)] {
      var c := SlotOf(hash, |chains|, k);
      assert index[k] in chains[c] && index[k] != e;
      if c == b {
        assert chains[b] == chains[b][..i] + [e] + chains[b][i + 1..];
      }
    }
  }

  lemma FiledMember<K, V>(hash: K -> nat, chains: seq<seq<Entry<K, V>>>, index: map<K, Entry<K, V>>, b: nat, i: nat)
    requires Filed(hash, chains, index) && b < |chains| && i < |chains[b]|
    ensures var e := chains[b][i]; e.key in index && index[e.key] == e && SlotOf(hash, |chains|, e.key) == b
    ensures chains[b][i] in index.Values
  {
    assert Tidy(hash, |chains|, b, chains[b], index);
    assert Indexed(hash, |chains|, b, chains[b][i], index);
    assert chains[b][i].key in index;
  }

  lemma FiledKey<K, V>(hash: K -> nat, chains: seq<seq<Entry<K, V>>>, index: map<K, Entry<K, V>>, key: K)
    requires Filed(hash, chains, index)
    ensures key in index ==> index[key].key == key && index[key] in chains[SlotOf(hash, |chains|, key)]
  {}

  ghost predicate KeysDiffer<K, V>(list: seq<Entry<K, V>>) {
    forall i, j :: 0 <= i < j < |list| ==> list[i].key != list[j].key
  }

  ghost predicate Within<K, V>(index: map<K, V>, all: map<K, V>) {
    forall k :: k in index ==> k in all && index[k] == all[k]
  }

  lemma FullOrNot(a: nat, b: nat)
    requires 0 < b
    ensures a / b >= 1 <==> a >= b
  {
    if a < b { assert a / b == 0; } else { assert a / b >= b / b == 1; }
  }

  ghost function Members<K, V>(list: seq<Entry<K, V>>): set<Entry<K, V>> {
    set e | e in list
  }

  ghost function KeysOf<K, V>(list: seq<Entry<K, V>>): set<K> {
    set e | e in list :: e.key
  }

  lemma KeysSnoc<K, V>(list: seq<Entry<K, V>>)
    ensures KeysOf<K, V>([]) == {}
    ensures list != [] ==> KeysOf(list) == KeysOf(list[..|list| - 1]) + {list[|list| - 1].key}
  {
    if list != [] {
      assert list == list[..|list| - 1] + [list[|list| - 1]];
    }
  }

  lemma ChainPut<K, V>(e: Entry<K, V>, list: seq<Entry<K, V>>)
    requires Chain(e.next, list)
    ensures Chain(e, [e] + list)
  {
    var long := [e] + list;
    forall i | 0 <= i < |long| ensures Step(long, i) {
      if i > 0 { assert Step(list, i - 1); }
    }
  }

  datatype Found<V> = Absent | Present(val: V)

  class Hash<K(==), V> {
    const hash: K -> nat
    var slots: nat
    var count: nat
    var data: array<Entry?<K, V>>
    /** The chain of every slot, and the entry of every key. */
    ghost var chains: seq<seq<Entry<K, V>>>
    ghost var index: map<K, Entry<K, V>>

    ghost predicate Linked()
      requires |chains| == data.Length
      reads this`data, this`chains, data, All(chains)`next
    {
      forall b :: 0 <= b < |chains| ==> (assert forall e :: e in chains[b] ==> e in All(chains); Chain(data[b], chains[b]))
    }

    ghost predicate Valid()
      reads this, data, All(chains)
    {
      && |chains| == data.Length == slots && IsSlots(slots)
      && Filed(hash, chains, index)
      && Linked()
      && count == |index|
      && slots < UINT_LIMIT
    }

    /** The finite map the table stands for. */
    ghost function Model(): map<K, V>
      reads this`index, index.Values
    {
      map k | k in index :: index[k].val
    }

    /** hash_create. */
    constructor (hash: K -> nat, size: nat)
      requires size <= UINT_LIMIT / 2
      ensures Valid() && fresh(data) && index == map[] && this.hash == hash && slots >= size
    {
      this.hash := hash;
      var n := NextPower(size);
      slots, count, index, chains := n, 0, map[], Empties(n);
      data := new Entry?<K, V>[n](_ => null);
      FiledEmpty<K, V>(hash, n);
    }

    /** The entry goes to the front of chain b. */
    method PushFront(b: nat, he: Entry<K, V>)
      requires b < |chains| == data.Length && Linked() && he !in All(chains)
      modifies this`chains, data, he`next
      ensures chains == old(chains)[b := [he] + old(chains)[b]] && Linked()
    {
      assert forall c, e :: 0 <= c < |chains| && e in chains[c] ==> e in All(chains);
      he.next := data[b];
      data[b] := he;
      chains := chains[b := [he] + chains[b]];
      forall c | 0 <= c < |chains| ensures Chain(data[c], chains[c]) {
        assert old(Chain(data[c], chains[c]));
        if c == b { ChainPut(he, old(chains[b])); }
        hide Chain;
      }
    }

    /** What hash_insert and hash_resize do with an entry whose key is not in the table. */
    method LinkIn(he: Entry<K, V>)
      requires Valid() && he.key !in index
      modifies this`count, this`chains, this`index, data, he`next
      ensures Valid() && index == old(index)[he.key := he]
    {
      hide IsSlots, Chain;
      var b := SlotOf(hash, slots, he.key);
      FiledPut(hash, chains, index, he);
      forall c, i | 0 <= c < |chains| && 0 <= i < |chains[c]| ensures chains[c][i] != he {
        FiledMember(hash, chains, index, c, i);
      }
      hide Filed;
      PushFront(b, he);
      count := count + 1;
      index := index[he.key := he];
    }

    /** The walk along one chain that hash_insert, hash_get_val and hash_delete share. */
    method Search(key: K) returns (prev: Entry?<K, V>, he: Entry?<K, V>, ghost at: nat)
      requires Valid()
      ensures Valid() && (he == null <==> key !in index)
      ensures he != null ==>
                var chain := chains[SlotOf(hash, slots, key)];
                he == index[key] && at < |chain| && chain[at] == he && prev == if at == 0 then null else chain[at - 1]
      ensures he != null ==> he.key == key
    {
      hide Filed;
      ghost var b := SlotOf(hash, slots, key);
      ghost var chain := chains[b];
      assert Chain(data[b], chain);
      FiledKey(hash, chains, index, key);
      prev, he, at := null, data[SlotOf(hash, slots, key)], 0;
      assert forall m :: 0 <= m < |chain| ==> Step(chain, m);
      hide Linked, Chain, IsSlots;
      while he != null
        invariant at <= |chain| && he == if at < |chain| then chain[at] else null
        invariant prev == if at == 0 then null else chain[at - 1]
        invariant forall m :: 0 <= m < at ==> chain[m].key != key
        decreases |chain| - at
      {
        FiledMember(hash, chains, index, b, at);
        if he.key == key {
          return;
        }
        assert Step(chain, at);
        prev, he, at := he, he.next, at + 1;
      }
    }

    method Get(key: K) returns (r: Found<V>)
      requires Valid()
      ensures r == if key in Model() then Present(Model()[key]) else Absent
    {
      hide Filed, Linked, IsSlots;
      var _, he, _ := Search(key);
      return if he == null then Absent else Present(he.val);
    }

    lemma Apart(b: nat, i: nat)
      requires Filed(hash, chains, index) && b < |chains| && i < |chains[b]|
      ensures forall c :: 0 <= c < |chains| && c != b ==> chains[b][i] !in chains[c]
      ensures forall m, n :: 0 <= m < n < |chains[b]| ==> chains[b][m] != chains[b][n]
    {
      assert Tidy(hash, |chains|, b, chains[b], index);
      FiledMember(hash, chains, index, b, i);
      forall c, m | 0 <= c < |chains| && c != b && 0 <= m < |chains[c]| ensures chains[b][i] != chains[c][m] {
        FiledMember(hash, chains, index, c, m);
      }
    }

    /** The entry at position i leaves chain b. */
    method Unlink(b: nat, prev: Entry?<K, V>, he: Entry<K, V>, ghost i: nat)
      requires |chains| == data.Length && Filed(hash, chains, index) && Linked()
      requires b < |chains| && i < |chains[b]| && he == chains[b][i]
      requires prev == if i == 0 then null else chains[b][i - 1]
      modifies this`chains, data, All(chains)`next
      ensures chains == old(chains)[b := old(chains)[b][..i] + old(chains)[b][i + 1..]] && Linked()
    {
      Apart(b, if i == 0 then 0 else i - 1);
      hide Filed;
      ghost var chain := chains[b];
      assert Chain(data[b], chain) && Step(chain, i);
      if prev != null {
        prev.next := he.next;
      } else {
        data[b] := he.next;
      }
      chains := chains[b := chain[..i] + chain[i + 1..]];
      assert Chain(data[b], chains[b]) by {
        assert old(Step(chain, 0)) && old(Step(chain, i));
        forall m | 0 <= m < |chains[b]| ensures Step(chains[b], m) {
          assert old(Step(chain, if m < i then m else m + 1));
        }
      }
      hide Chain;
      forall c | 0 <= c < |chains| ensures Chain(data[c], chains[c]) {
        assert old(Chain(data[c], chains[c]));
      }
    }

    /** The entry found by Search leaves the table. */
    method Drop(key: K, prev: Entry?<K, V>, he: Entry<K, V>, ghost at: nat)
      requires Valid() && key in index && he == index[key]
      requires var chain := chains[SlotOf(hash, slots, key)];
               at < |chain| && chain[at] == he && prev == if at == 0 then null else chain[at - 1]
      modifies this`chains, this`index, this`count, data, All(chains)`next
      ensures Valid() && index == old(index) - {key}
      ensures var b := SlotOf(hash, slots, key); chains == old(chains)[b := old(chains)[b][..at] + old(chains)[b][at + 1..]]
    {
      hide IsSlots, Chain, SlotOf, Filed;
      FiledCut(hash, chains, index, SlotOf(hash, slots, key), at);
      FiledKey(hash, chains, index, key);
      assert |index| == |index - {key}| + 1 by { assert index == (index - {key})[key := he]; }
      Unlink(SlotOf(hash, slots, key), prev, he, at);
      index := index - {key};
      count := count - 1;
    }

    /** The key is the first of its chain. */
    ghost predicate IsHead(key: K)
      requires Valid()
      reads this, data, All(chains)
    {
      var chain := chains[SlotOf(hash, slots, key)];
      chain != [] && chain[0].key == key
    }

    lemma HeadFirst(key: K, at: nat)
      requires Valid() && IsHead(key)
      requires key in index ==> var chain := chains[SlotOf(hash, slots, key)]; at < |chain| && chain[at] == index[key]
      ensures at == 0 && key in index
      ensures var chain := chains[SlotOf(hash, slots, key)]; chain[..0] + chain[1..] == chain[1..]
    {
      var b := SlotOf(hash, slots, key);
      FiledMember(hash, chains, index, b, 0);
      assert Tidy(hash, |chains|, b, chains[b], index);
    }

    /** hash_delete. */
    method Delete(key: K) returns (ok: bool)
      requires Valid()
      modifies this`chains, this`index, this`count, data, All(chains)`next
      ensures Valid() && ok == (key in old(index)) && index == old(index) - {key}
      ensures Model() == old(Model()) - {key}
      ensures old(Valid() && IsHead(key)) ==>
                var b := SlotOf(hash, slots, key); chains == old(chains)[b := old(chains)[b][1..]]
    {
      hide Valid, SlotOf;
      var prev, he, at := Search(key);
      if IsHead(key) { HeadFirst(key, at); }
      ok := he != null;
      if ok {
        Drop(key, prev, he, at);
      }
    }

    /** The entries of an old chain from position i on are still linked and not yet in the table. */
    ghost predicate Waiting(list: seq<Entry<K, V>>, i: nat, all: map<K, Entry<K, V>>)
      reads this`index, Members(list)`next
    {
      forall m :: i <= m < |list| ==> Step(list, m) && list[m].key !in index && list[m].key in all && all[list[m].key] == list[m]
    }

    /** One entry moves over: the body of hash_resize's inner loop. */
    method MoveOne(he: Entry<K, V>, ghost list: seq<Entry<K, V>>, ghost i: nat, ghost all: map<K, Entry<K, V>>)
      returns (next: Entry?<K, V>)
      requires Valid() && i < |list| && he == list[i] && KeysDiffer(list) && Waiting(list, i, all)
      requires Within(index, all)
      modifies this`chains, this`index, this`count, data, he`next
      ensures Valid() && Waiting(list, i + 1, all)
      ensures next == if i == |list| - 1 then null else list[i + 1]
      ensures Within(index, all) && index.Keys == old(index.Keys) + {he.key}
    {
      hide Valid, SlotOf;
      assert Step(list, i);
      next := he.next;
      LinkIn(he);
      forall m | i < m < |list| ensures Step(list, m) {
        assert old(Step(list, m)) && list[m].key != list[i].key;
      }
    }

    /** One old chain moves over: hash_resize's inner loop. */
    method MoveChain(first: Entry?<K, V>, ghost list: seq<Entry<K, V>>, ghost all: map<K, Entry<K, V>>)
      requires Valid() && first == (if list == [] then null else list[0])
      requires KeysDiffer(list) && Waiting(list, 0, all) && Within(index, all)
      modifies this`chains, this`index, this`count, data, Members(list)`next
      ensures Valid()
      ensures Within(index, all) && index.Keys == old(index.Keys) + KeysOf(list)
    {
      var he := first;
      ghost var i := 0;
      hide Valid, Step, KeysOf, KeysDiffer, Waiting, Within;
      KeysSnoc(list);
      while he != null
        invariant i <= |list| && Valid() && slots == old(slots)
        invariant he == if i < |list| then list[i] else null
        invariant Waiting(list, i, all)
        invariant Within(index, all) && index.Keys == old(index.Keys) + KeysOf(list[..i])
        decreases |list| - i
      {
        assert list[..i + 1][..i] == list[..i];
        KeysSnoc(list[..i + 1]);
        he := MoveOne(he, list, i, all);
        i := i + 1;
      }
      assert list[..i] == list;
    }

    /** Resizing has moved the keys of the old table's first i slots, and nothing else. */
    ghost predicate Moved(o: OldTable<K, V>, i: int)
      reads this`index, o.all.Values`next
    {
      Remaining(hash, o, i) && Within(index, o.all) && forall k :: k in o.all ==> (k in index <==> OldSlot(hash, o, k) < i)
    }

    /** One slot of the old table moves over: the body of hash_resize's outer loop. */
    method MoveSlot(first: Entry?<K, V>, ghost list: seq<Entry<K, V>>, ghost i: int, ghost o: OldTable<K, V>)
      requires Valid() && Moved(o, i) && OldChain(o, i, first, list)
      modifies this`chains, this`index, this`count, data, Members(list)`next
      ensures Valid() && Moved(o, i + 1)
    {
      hide *;
      ReadyToMove(first, list, i, o);
      MoveChain(first, list, o.all);
      MovedOn(list, i, o, old(index));
    }

    lemma ReadyToMove(first: Entry?<K, V>, list: seq<Entry<K, V>>, i: int, o: OldTable<K, V>)
      requires Valid() && Moved(o, i) && OldChain(o, i, first, list)
      ensures 0 <= i < |o.chains| && o.chains[i] == list && Recorded(hash, o) && Within(index, o.all)
      ensures KeysDiffer(list) && Waiting(list, 0, o.all)
      ensures first == if list == [] then null else list[0]
      ensures forall k :: k in o.all && OldSlot(hash, o, k) > i ==>
                k in o.succ && o.all[k].next == o.succ[k] && o.all[k] !in Members(list)
      ensures forall k :: k in o.all ==> (k in index <==> OldSlot(hash, o, k) < i)
    {
      hide Valid, Filed, KeysOf, KeysDiffer, SlotOf;
      ChainKeys(hash, o.chains, o.all, i);
      forall k | k in o.all ensures o.all[k].key == k { FiledKey(hash, o.chains, o.all, k); }
      assert KeysDiffer(list);
      assert first == if list == [] then null else list[0];
      StillLinked(list, i, o);
      hide Recorded;
    }

    lemma StillLinked(list: seq<Entry<K, V>>, i: int, o: OldTable<K, V>)
      requires Moved(o, i) && 0 <= i < |o.chains| && o.chains[i] == list
      ensures Waiting(list, 0, o.all)
    {
      hide Moved, Step;
      forall m | 0 <= m < |list|
        ensures Step(list, m) && list[m].key !in index && list[m].key in o.all && o.all[list[m].key] == list[m]
      {
        StillStep(list, i, o, m);
      }
    }

    lemma StillStep(list: seq<Entry<K, V>>, i: int, o: OldTable<K, V>, m: int)
      requires Moved(o, i) && 0 <= i < |o.chains| && o.chains[i] == list && 0 <= m < |list|
      ensures Step(list, m) && list[m].key !in index && list[m].key in o.all && o.all[list[m].key] == list[m]
    {
      FiledMember(hash, o.chains, o.all, i, m);
      hide Filed;
      assert Follows(o, i, m);
    }

    lemma MovedOn(list: seq<Entry<K, V>>, i: int, o: OldTable<K, V>, before: map<K, Entry<K, V>>)
      requires 0 <= i < |o.chains| && o.chains[i] == list && Recorded(hash, o) && Within(index, o.all)
      requires index.Keys == before.Keys + KeysOf(list)
      requires forall k :: k in o.all ==> (k in before <==> OldSlot(hash, o, k) < i)
      requires forall k :: k in o.all && OldSlot(hash, o, k) > i ==> k in o.succ && o.all[k].next == o.succ[k]
      ensures Moved(o, i + 1)
    {
      hide Filed, KeysOf, KeysDiffer, SlotOf;
      ChainKeys(hash, o.chains, o.all, i);
    }

    lemma Record(o: OldTable<K, V>)
      requires Valid() && o == OldTable(data[..], chains, index, map k | k in index :: index[k].next)
      ensures Recorded(hash, o) && Remaining(hash, o, 0)
      ensures |o.chains| == |o.heads| == data.Length == slots < UINT_LIMIT && IsSlots(slots)
    {
      hide IsSlots;
      forall b | 0 <= b < |chains| ensures data[b] == if chains[b] == [] then null else chains[b][0] {
        assert Chain(data[b], chains[b]);
      }
      forall b, m | 0 <= b < |o.chains| && 0 <= m < |o.chains[b]| ensures Follows(o, b, m) {
        FiledMember(hash, chains, index, b, m);
        assert Chain(data[b], chains[b]) && Step(chains[b], m);
      }
      hide Filed, Chain, Linked;
    }

    /** hash_init: an empty table. */
    method Init(size: nat)
      requires size < UINT_LIMIT && (IsSlots(size) || size == 0)
      modifies this
      ensures Valid() && fresh(data) && index == map[] && slots == if size == 0 then HASH_INIT_SLOTS else size
    {
      var n := NextPower(size);
      if size != 0 && size < n { SlotsApart(size, n); }
      hide IsSlots, Filed;
      slots, count := n, 0;
      data := new Entry?<K, V>[n](_ => null);
      index, chains := map[], Empties(n);
      FiledEmpty<K, V>(hash, n);
    }

    /** hash_resize's two loops. */
    method MoveAll(tmp: array<Entry?<K, V>>, ghost o: OldTable<K, V>)
      requires Valid() && Moved(o, 0) && tmp[..] == o.heads && tmp != data && |o.heads| == |o.chains|
      modifies this`chains, this`index, this`count, data, All(o.chains)`next
      ensures Valid() && Moved(o, tmp.Length)
    {
      hide *;
      for i := 0 to tmp.Length
        invariant Valid() && Moved(o, i) && tmp[..] == o.heads
      {
        ghost var list := o.chains[i];
        assert tmp[..][i] == o.heads[i];
        IsOldChain(o, i, list);
        MoveSlot(tmp[i], list, i, o);
      }
    }

    /** hash_resize: every entry moves to the slot it belongs to in a table twice as large, or, when twice
        the slots are more than an unsigned int holds, in a table of the initial size. */
    method Resize()
      requires Valid()
      modifies this, All(chains)`next
      ensures Valid() && fresh(data) && slots == Doubled(old(slots)) && index == old(index)
    {
      hide Valid, Filed, Linked, Recorded, Remaining, Moved, Members, All, IsSlots;
      var tmp, n := data, slots;
      ghost var o := OldTable(data[..], chains, index, map k | k in index :: index[k].next);
      Record(o);
      DoubledSlots(n);
      Init(n * 2 % UINT_LIMIT);
      MovedNone(o);
      MoveAll(tmp, o);
      MovedAll(o);
    }

    lemma IsOldChain(o: OldTable<K, V>, i: int, list: seq<Entry<K, V>>)
      requires 0 <= i < |o.chains| == |o.heads| && list == o.chains[i]
      ensures OldChain(o, i, o.heads[i], list)
      ensures Members(list) <= All(o.chains)
    {}

    lemma MovedNone(o: OldTable<K, V>)
      requires index == map[] && Remaining(hash, o, 0)
      ensures Moved(o, 0)
    {}

    lemma MovedAll(o: OldTable<K, V>)
      requires Moved(o, |o.chains|)
      ensures index == o.all
    {}

    lemma AllIndexed()
      requires Valid()
      ensures All(chains) == index.Values
    {
      assert Filed(hash, chains, index);
      hide Valid;
      forall b, m | 0 <= b < |chains| && 0 <= m < |chains[b]| ensures chains[b][m] in index.Values {
        FiledMember(hash, chains, index, b, m);
      }
      hide Tidy, SlotOf;
      forall k | k in index ensures index[k] in All(chains) {
        assert index[k] in chains[SlotOf(hash, |chains|, k)];
      }
    }

    /** HASH_SET_VAL on an entry of the table. */
    method SetVal(he: Entry<K, V>, val: V)
      requires Valid() && he.key in index && index[he.key] == he
      modifies he`val
      ensures Valid() && he.val == val
    {
      hide Filed, IsSlots;
      he.val := val;
    }

    lemma Sizes()
      requires Valid()
      ensures 0 < slots < UINT_LIMIT && count == |index| && (count / slots >= 1 <==> count >= slots)
    {
      assert 0 < slots < UINT_LIMIT && count == |index|;
      hide Valid, IsSlots;
      FullOrNot(count, slots);
    }

    /** hash_insert: a new key is added, the value of a known key is replaced. As long as the slots can be
        doubled there are never more entries than slots. */
    method Insert(key: K, val: V)
      requires Valid()
      modifies this, data, index.Values
      ensures Valid() && (data == old(data) || fresh(data))
      ensures slots == if old(count) < old(slots) then old(slots) else Doubled(old(slots))
      ensures Model() == old(Model())[key := val]
      ensures old(count) <= old(slots) && 2 * old(slots) < UINT_LIMIT ==> count <= slots
    {
      hide Valid, SlotOf, All;
      AllIndexed();
      Sizes();
      if count / slots >= 1 {
        Resize();
        Sizes();
      }
      Put(key, val);
    }

    method Put(key: K, val: V)
      requires Valid()
      modifies this`count, this`chains, this`index, data, index.Values
      ensures Valid() && Model() == old(Model())[key := val] && count <= old(count) + 1
    {
      hide Valid, SlotOf;
      var _, he, _ := Search(key);
      KeysKnown();
      if he != null {
        SetVal(he, val);
      } else {
        Add(key, val);
      }
    }

    lemma KeysKnown()
      requires Valid()
      ensures forall k :: k in index ==> index[k].key == k
    {}

    method Add(key: K, val: V)
      requires Valid() && key !in index
      modifies this`count, this`chains, this`index, data
      ensures Valid() && count == old(count) + 1 && index.Keys == old(index).Keys + {key} && index[key].val == val
      ensures forall k :: k in old(index) ==> index[k] == old(index)[k]
    {
      hide Filed, IsSlots;
      var he := new Entry(key, val);
      LinkIn(he);
    }

    /** What the slot that hash_foreach has reached looks like, with he the entry it is about to visit. */
    ghost predicate At(b: nat, he: Entry?<K, V>)
      requires Valid()
      reads this, data, All(chains)
    {
      b < slots && he == if chains[b] == [] then null else chains[b][0]
    }

    /** One call of the delete callback, on the entry hash_foreach has reached. */
    method DeleteHead(b: nat, he: Entry<K, V>) returns (next: Entry?<K, V>)
      requires Valid() && At(b, he)
      modifies this`chains, this`index, this`count, data, All(chains)`next
      ensures Valid() && At(b, next) && he.key in old(index) && index == old(index) - {he.key}
    {
      HeadFacts(b);
      hide Filed, Linked, IsSlots;
      next := he.next;
      var _ := Delete(he.key);
    }

    lemma HeadFacts(b: nat)
      requires Valid() && b < slots
      ensures data[b] == (if chains[b] == [] then null else chains[b][0])
      ensures chains[b] == [] ==> forall k :: k in index ==> SlotOf(hash, slots, k) != b
      ensures chains[b] != [] ==>
                var he := chains[b][0];
                && he.next == (if |chains[b]| == 1 then null else chains[b][1])
                && he.key in index && SlotOf(hash, slots, he.key) == b && IsHead(he.key)
    {
      assert Chain(data[b], chains[b]);
      if chains[b] != [] {
        FiledMember(hash, chains, index, b, 0);
        assert Step(chains[b], 0);
      }
    }

    /** hash_foreach's inner loop. */
    method ClearSlot(i: nat)
      requires Valid() && i < slots && FromOn(i)
      modifies this`chains, this`index, this`count, data, index.Values
      ensures Valid() && Within(index, old(index)) && FromOn(i + 1)
    {
      hide Valid, At, SlotOf, All;
      StartSlot(i);
      var he := data[i];
      while he != null
        invariant Valid() && Within(index, old(index)) && At(i, he) && FromOn(i)
        decreases |index|
      {
        AllIndexed();
        he := DeleteHead(i, he);
      }
      EndSlot(i);
    }

    lemma StartSlot(i: nat)
      requires Valid() && i < slots
      ensures i < data.Length && At(i, data[i])
    {
      HeadFacts(i);
    }

    lemma EndSlot(i: nat)
      requires Valid() && At(i, null) && FromOn(i)
      ensures FromOn(i + 1)
    {
      HeadFacts(i);
    }

    /** No key of the table belongs to a slot before i. */
    ghost predicate FromOn(i: nat)
      reads this`index, this`slots
    {
      slots > 0 && forall k :: k in index ==> SlotOf(hash, slots, k) >= i
    }

    /** hash_clear: hash_foreach with a callback that deletes the entry it is given. */
    method Clear()
      requires Valid()
      modifies this`chains, this`index, this`count, data, index.Values
      ensures Valid() && index == map[] && Model() == map[]
    {
      hide Valid, All, SlotOf;
      Sizes();
      for i := 0 to slots
        invariant Valid() && Within(index, old(index)) && FromOn(i)
      {
        ClearSlot(i);
      }
    }
  }

  ghost predicate OldChain<K, V>(o: OldTable<K, V>, i: int, first: Entry?<K, V>, list: seq<Entry<K, V>>) {
    0 <= i < |o.chains| && i < |o.heads| && o.heads[i] == first && o.chains[i] == list
  }

  /** A table about to be replaced: its chains, their first entries, the entry of every key and what that points to. */
  ghost predicate Recorded<K, V>(hash: K -> nat, o: OldTable<K, V>) {
    && |o.heads| == |o.chains|
    && Filed(hash, o.chains, o.all)
    && (forall b :: 0 <= b < |o.chains| ==> o.heads[b] == if o.chains[b] == [] then null else o.chains[b][0])
    && (forall b, m :: 0 <= b < |o.chains| && 0 <= m < |o.chains[b]| ==> Follows(o, b, m))
  }

  ghost predicate Follows<K, V>(o: OldTable<K, V>, b: int, m: int)
    requires 0 <= b < |o.chains| && 0 <= m < |o.chains[b]|
  {
    && o.chains[b][m].key in o.succ
    && o.succ[o.chains[b][m].key] == if m == |o.chains[b]| - 1 then null else o.chains[b][m + 1]
  }

  datatype OldTable<K, V> = OldTable(
    heads: seq<Entry?<K, V>>, chains: seq<seq<Entry<K, V>>>, all: map<K, Entry<K, V>>, succ: map<K, Entry?<K, V>>)

  ghost function OldSlot<K, V>(hash: K -> nat, o: OldTable<K, V>, k: K): int {
    if |o.chains| == 0 then 0 else SlotOf(hash, |o.chains|, k)
  }

  /** The entries of the old slots from i on have not been touched yet. */
  ghost predicate Remaining<K, V>(hash: K -> nat, o: OldTable<K, V>, i: int)
    reads o.all.Values`next
  {
    Recorded(hash, o) && forall k :: k in o.all && OldSlot(hash, o, k) >= i ==> k in o.succ && o.all[k].next == o.succ[k]
  }

  ghost function All<K, V>(chains: seq<seq<Entry<K, V>>>): set<Entry<K, V>> {
    set b, e | 0 <= b < |chains| && e in chains[b] :: e
  }

  /** What Filed says about the entries of chain b, as MoveChain needs it. */
  lemma ChainKeys<K, V>(hash: K -> nat, chains: seq<seq<Entry<K, V>>>, index: map<K, Entry<K, V>>, b: nat)
    requires Filed(hash, chains, index) && b < |chains|
    ensures KeysDiffer(chains[b]) && |chains[b]| <= |index|
    ensures forall k :: k in KeysOf(chains[b]) <==> k in index && SlotOf(hash, |chains|, k) == b
    ensures forall m :: 0 <= m < |chains[b]| ==> chains[b][m].key in index && index[chains[b][m].key] == chains[b][m]
    ensures forall m :: 0 <= m < |chains[b]| ==> SlotOf(hash, |chains|, chains[b][m].key) == b
  {
    var list := chains[b];
    assert Tidy(hash, |chains|, b, list, index);
    assert forall m :: 0 <= m < |list| ==> Indexed(hash, |chains|, b, list[m], index);
    KeysSize(list);
    SubsetSize(KeysOf(list), index.Keys);
    forall k | k in index && SlotOf(hash, |chains|, k) == b ensures k in KeysOf(list) {
      assert index[k] in list;
    }
  }

  lemma {:induction false} KeysSize<K, V>(list: seq<Entry<K, V>>)
    requires KeysDiffer(list)
    ensures |KeysOf(list)| == |list|
  {
    KeysSnoc(list);
    if list != [] {
      var rest := list[..|list| - 1];
      KeysSize(rest);
      assert list[|list| - 1].key !in KeysOf(rest);
    }
  }
}
