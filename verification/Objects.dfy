/** The server's records as objects: job_t, tube_t and conn_t (job.h, tube.h, conn.h), and
    the heap of heap.c, whose record callback writes into the jobs it holds. */
module Objects {
  import opened Lists
  import opened State
  import opened Moves
  import opened HeapOrder

  /** job_t: its record, and its place in a heap. Links to tubes and connections are addresses,
      which the server resolves. */
  class JobObject {
    const id: JobId
    var rec: Job
    var heapIndex: int
    /** The heap that holds the job. */
    ghost var heap: Heap?

    constructor (id: JobId, rec: Job)
      ensures this.id == id && this.rec == rec && heap == null
    {
      this.id, this.rec := id, rec;
      heapIndex, heap := 0, null;
    }
  }

  /** tube_t: its two heaps, and the rest of its record. */
  class TubeObject {
    const addr: TubeId
    const ready: Heap
    const delayed: Heap
    var rec: Tube

    /** tube_create. */
    constructor (addr: TubeId, name: string)
      ensures this.addr == addr && Pristine() && Value() == NewTube(name)
      ensures fresh(ready) && fresh(delayed) && fresh(ready.data) && fresh(delayed.data)
    {
      this.addr := addr;
      ready := new Heap(ByPri, addr);
      delayed := new Heap(ByDeadline, addr);
      rec := NewTube(name);
    }

    /** Both heaps are set up, and empty. */
    ghost predicate Pristine()
      reads ready, ready.data, ready.items, delayed, delayed.data, delayed.items
    {
      && ready.order == ByPri && delayed.order == ByDeadline && ready.home == addr && delayed.home == addr
      && ready.Valid() && delayed.Valid() && ready.data != delayed.data && ready.items == {} && delayed.items == {}
    }

    /** The record, with what the heaps hold in place of its own two sets. */
    ghost function Value(): Tube
      reads this, ready`items, delayed`items
    {
      rec.(ready := Ids(ready.items), delayed := Ids(delayed.items))
    }
  }

  /** conn_t. */
  class ConnObject {
    const addr: ConnId
    var rec: Conn

    constructor (addr: ConnId, rec: Conn)
      ensures this.addr == addr && this.rec == rec
    {
      this.addr, this.rec := addr, rec;
    }
  }

  ghost function Ids(s: set<JobObject>): set<JobId> {
    set j | j in s :: j.id
  }

  datatype Order = ByPri | ByDeadline

  /** The rank of a job under job_pri_less or job_delay_less. */
  function RankOf(order: Order, j: JobObject): Rank
    reads j`rec
  {
    Rank(if order.ByPri? then j.rec.pri else j.rec.deadline, j.id)
  }

  /** Job a leaves a heap of the given order before job b: the smaller priority number, or the earlier
      deadline, goes first, and the older job if these are the same. */
  predicate GoesBefore(order: Order, a: JobObject, b: JobObject)
    reads a`rec, b`rec
  {
    match order
    case ByPri => a.rec.pri < b.rec.pri || (a.rec.pri == b.rec.pri && a.id < b.id)
    case ByDeadline => a.rec.deadline < b.rec.deadline || (a.rec.deadline == b.rec.deadline && a.id < b.id)
  }

  lemma RanksTell(order: Order, a: JobObject, b: JobObject)
    ensures Precedes(RankOf(order, a), RankOf(order, b)) <==> GoesBefore(order, a, b)
  {}

  const HEAP_INIT_SIZE := 16

  class Heap {
    const order: Order
    /** The tube the heap belongs to. */
    ghost const home: TubeId
    var data: array<JobObject?>
    var len: nat
    /** What the heap holds. */
    ghost var items: set<JobObject>

    /** The first n slots hold jobs that know their slot. */
    ghost predicate Placed(n: nat)
      reads this`data, data, if n <= data.Length then data[..n] else []
    {
      && n <= data.Length
      && (forall i :: 0 <= i < n ==> data[i] != null && data[i].heapIndex == i)
    }

    /** The jobs in the first n slots. */
    ghost function Jobs(n: nat): set<JobObject>
      requires Placed(n)
      reads this`data, data, if n <= data.Length then data[..n] else []
    {
      set i | 0 <= i < n :: data[i]
    }

    ghost function Ranks(n: nat): (r: seq<Rank>)
      requires Placed(n)
      reads this`data, data, if n <= data.Length then data[..n] else []
      ensures |r| == n
    {
      var d := data;
      seq(n, i requires 0 <= i < n && n <= d.Length && d[i] != null reads d, d[..n] => RankOf(order, d[i]))
    }

    ghost predicate Valid()
      reads this, data, items
    {
      && len <= data.Length && (forall i :: 0 <= i < len ==> data[i] in items)
      && (assert forall j :: j in data[..len] ==> j in items; Placed(len)) && items == Jobs(len)
      && DistinctIds(Ranks(len)) && Ordered(Ranks(len))
      && (forall j :: j in items ==> j.heap == this)
    }

    constructor (order: Order, home: TubeId)
      ensures this.order == order && this.home == home && Valid() && items == {} && fresh(data)
    {
      this.order, this.home := order, home;
      data := new JobObject?[HEAP_INIT_SIZE](_ => null);
      len, items := 0, {};
    }

    /** heap_swap, with the record callback. */
    method Swap(a: nat, b: nat, ghost n: nat)
      requires Placed(n) && a < n && b < n && a != b
      modifies data, Jobs(n)`heapIndex
      ensures Placed(n) && data[..] == Exchange(old(data[..]), a, b)
      ensures Jobs(n) == old(Jobs(n))
      ensures Ranks(n) == Exchange(old(Ranks(n)), a, b)
    {
      var tmp := data[a];
      data[a] := data[b];
      data[a].heapIndex := a;
      data[b] := tmp;
      data[b].heapIndex := b;
      ghost var was := old(data[..]);
      assert forall i :: 0 <= i < n ==> was[i] == data[..][if i == a then b else if i == b then a else i];
    }

    /** heap_siftdown: the job in slot k climbs while its parent is not before it. */
    method SiftDown(start: nat, ghost n: nat)
      requires Placed(n) && start < n && DistinctIds(Ranks(n)) && OrderedBut(Ranks(n), start, true, true)
      modifies data, Jobs(n)`heapIndex
      ensures Placed(n) && Jobs(n) == old(Jobs(n)) && DistinctIds(Ranks(n))
      ensures OrderedBut(Ranks(n), start, false, true)
      ensures old(start == 0 || Precedes(Ranks(n)[Parent(start)], Ranks(n)[start])) ==>
                data[..] == old(data[..]) && Ranks(n) == old(Ranks(n))
      ensures data[n..] == old(data[n..])
    {
      hide OrderedBut, DistinctIds, Precedes;
      var k := start;
      while !(k == 0 || Precedes(RankOf(order, data[Parent(k)]), RankOf(order, data[k])))
        invariant 0 <= k <= start && Placed(n) && Jobs(n) == old(Jobs(n)) && DistinctIds(Ranks(n))
        invariant OrderedBut(Ranks(n), k, true, k == start)
        invariant k == start ==> data[..] == old(data[..]) && Ranks(n) == old(Ranks(n))
        invariant k != start ==> old(!(start == 0 || Precedes(Ranks(n)[Parent(start)], Ranks(n)[start])))
        invariant data[n..] == old(data[n..])
        decreases k
      {
        var p := Parent(k);
        Climb(Ranks(n), k, k == start);
        ExchangeDistinct(Ranks(n), k, p);
        Swap(k, p, n);
        k := p;
      }
      Stopped(Ranks(n), k, start);
    }

    /** heap_siftup: the job in slot k sinks while a child is before it. */
    method SiftUp(start: nat)
      requires Placed(len) && start <= len && DistinctIds(Ranks(len))
      requires if start < len then OrderedBut(Ranks(len), start, false, true) else Ordered(Ranks(len))
      modifies data, Jobs(len)`heapIndex
      ensures Placed(len) && Jobs(len) == old(Jobs(len)) && DistinctIds(Ranks(len)) && Ordered(Ranks(len))
      ensures data[len..] == old(data[len..])
    {
      hide OrderedBut, DistinctIds, Precedes, Ordered;
      var k := start;
      while true
        invariant k <= len && Placed(len) && Jobs(len) == old(Jobs(len)) && DistinctIds(Ranks(len))
        invariant if k < len then OrderedBut(Ranks(len), k, false, true) else Ordered(Ranks(len))
        invariant data[len..] == old(data[len..])
        decreases len - k
      {
        var l, r := k * 2 + 1, k * 2 + 2;
        var s := k;
        if l < len && Precedes(RankOf(order, data[l]), RankOf(order, data[s])) { s := l; }
        if r < len && Precedes(RankOf(order, data[r]), RankOf(order, data[s])) { s := r; }
        if k < len {
          assert s == Smallest(Ranks(len), k) by { SmallestIs(Ranks(len), k); }
          Descend(Ranks(len), k);
        }
        if s == k { break; }
        ExchangeDistinct(Ranks(len), k, s);
        Swap(k, s, len);
        k := s;
      }
    }

    /** heap_set on the first free slot. */
    method Append(j: JobObject)
      requires Placed(len) && len < data.Length && j !in Jobs(len)
      modifies this`len, data, j`heapIndex
      ensures len == old(len) + 1 && Placed(len) && Jobs(len) == old(Jobs(len)) + {j}
      ensures Ranks(len) == old(Ranks(len)) + [RankOf(order, j)]
    {
      ghost var was := Jobs(len);
      data[len] := j;
      j.heapIndex := len;
      len := len + 1;
      assert forall i :: 0 <= i < len - 1 ==> data[i] in was;
      assert Ranks(len) == old(Ranks(len)) + [RankOf(order, j)];
    }

    lemma RankIds(n: nat, id: JobId)
      requires Placed(n) && forall i :: i in Jobs(n) ==> i.id != id
      ensures forall i :: 0 <= i < n ==> Ranks(n)[i].id != id
    {
      assert forall i :: 0 <= i < n ==> data[i] in Jobs(n);
    }

    lemma Opened()
      requires Valid()
      ensures Placed(len) && Jobs(len) == items && DistinctIds(Ranks(len)) && Ordered(Ranks(len))
      ensures forall i :: i in items ==> i.heap == this
    {}

    /** heap_insert; a full array is replaced by one of twice the size needed. */
    method Insert(j: JobObject)
      requires Valid() && j !in items && forall i :: i in items ==> i.id != j.id
      modifies this, data, items`heapIndex, j`heapIndex, j`heap
      ensures Valid() && items == old(items) + {j}
      ensures data == old(data) || fresh(data)
    {
      hide Valid, OrderedBut, DistinctIds, Ordered, Parent, Ranks, Jobs, Placed;
      Opened();
      if len >= data.Length {
        Grow((len + 1) * 2);
        Opened();
      }
      ghost var was := Ranks(len);
      RankIds(len, j.id);
      AppendDistinct(was, RankOf(order, j));
      Appended(was, RankOf(order, j));
      Append(j);
      SiftDown(len - 1, len);
      BottomOrdered(Ranks(len), len - 1);
      Sealed(j);
    }

    /** The ghost bookkeeping at the end of an insertion. */
    ghost method Sealed(j: JobObject)
      requires Placed(len) && Jobs(len) == items + {j} && DistinctIds(Ranks(len)) && Ordered(Ranks(len))
      requires forall i :: i in items ==> i.heap == this
      modifies this`items, j`heap
      ensures Valid() && items == old(items) + {j}
    {
      hide DistinctIds, Ordered;
      ghost var ranks := Ranks(len);
      items := items + {j};
      j.heap := this;
      assert Ranks(len) == ranks;
      assert forall i :: 0 <= i < len ==> data[i] in Jobs(len);
    }

    method Grow(cap: nat)
      requires Valid() && len < cap
      modifies this`data
      ensures Valid() && fresh(data) && data.Length == cap > len
    {
      hide DistinctIds, Ordered;
      var bigger := new JobObject?[cap](_ => null);
      for i := 0 to len
        invariant data == old(data) && data[..] == old(data[..]) && Valid()
        invariant bigger[..i] == data[..i]
      {
        bigger[i] := data[i];
      }
      data := bigger;
      assert data[..len] == old(data[..len]);
      assert forall i :: 0 <= i < len ==> data[i] == data[..len][i];
      assert Ranks(len) == old(Ranks(len));
    }

    /** heap_set on the slot that is being vacated: the last job moves there. */
    method Vacate(k: nat)
      requires Placed(len + 1) && k <= len
      modifies data, Jobs(len + 1)`heapIndex
      ensures k == len ==> data[..] == old(data[..]) && Placed(len + 1) && Ranks(len + 1) == old(Ranks(len + 1))
      ensures k < len ==> Placed(len) && Ranks(len) == SwapDelete(old(Ranks(len + 1)), k)
      ensures k < len ==> Jobs(len) == old(Jobs(len + 1)) - {old(data[k])}
    {
      ghost var was := data[..];
      data[k] := data[len];
      data[k].heapIndex := k;
      if k < len {
        assert forall i :: 0 <= i <= len && i != k ==> was[i] == data[if i == len then k else i];
        assert Ranks(len) == SwapDelete(old(Ranks(len + 1)), k);
      } else {
        assert data[..] == was;
        assert Ranks(len + 1) == old(Ranks(len + 1));
      }
    }

    lemma LastOut(n: nat)
      requires Placed(n + 1)
      ensures Placed(n) && Ranks(n) == Ranks(n + 1)[..n] && Jobs(n) == Jobs(n + 1) - {data[n]}
    {
      assert Ranks(n) == Ranks(n + 1)[..n];
      assert forall i :: 0 <= i < n ==> data[i].heapIndex != data[n].heapIndex;
    }

    /** The first half of heap_remove: slot k is refilled, and what moved there climbs. */
    method Refill(k: nat)
      requires Placed(len + 1) && k <= len && DistinctIds(Ranks(len + 1)) && Ordered(Ranks(len + 1))
      modifies data, Jobs(len + 1)`heapIndex
      ensures Placed(len) && Jobs(len) == old(Jobs(len + 1)) - {old(data[k])} && DistinctIds(Ranks(len))
      ensures if k < len then OrderedBut(Ranks(len), k, false, true) else Ordered(Ranks(len))
    {
      hide OrderedBut, DistinctIds, Ordered, Precedes, Parent;
      ghost var was := Ranks(len + 1);
      OrderedPrefix(was, len);
      OrderedAnyway(was, k);
      hide Placed, Ranks, Jobs;
      if k < len { Replaced(was, k); }
      Vacate(k);
      SiftDown(k, if k == len then len + 1 else len);
      if k == len { LastOut(len); }
    }

    /** heap_remove: whatever slot k is, the job in it leaves and the rest is a heap again. */
    method Remove(k: nat) returns (j: JobObject?)
      requires Valid()
      modifies this`len, this`items, data, items`heapIndex, items`heap
      ensures Valid() && data == old(data)
      ensures k >= old(len) ==> j == null && items == old(items) && data[..] == old(data[..])
      ensures k < old(len) ==> j == old(data[k]) && j.heapIndex == -1 && j.heap == null && items == old(items) - {j}
    {
      if k >= len {
        j := null;
      } else {
        hide OrderedBut, DistinctIds, Ordered, Precedes, Parent;
        j := data[k];
        len := len - 1;
        Refill(k);
        SiftUp(k);
        ForgetSlot(j);
      }
    }

    /** The last record callback: the job that left has no slot. */
    method ForgetSlot(j: JobObject)
      requires Placed(len) && j in items && Jobs(len) == items - {j} && DistinctIds(Ranks(len)) && Ordered(Ranks(len))
      requires forall i :: i in items ==> i.heap == this
      modifies this`items, j`heapIndex, j`heap
      ensures Valid() && items == old(items) - {j} && j.heapIndex == -1 && j.heap == null
    {
      hide DistinctIds, Ordered;
      ghost var ranks := Ranks(len);
      assert forall i :: 0 <= i < len ==> data[i] in Jobs(len);
      j.heapIndex := -1;
      items := items - {j};
      j.heap := null;
      assert Ranks(len) == ranks;
    }

    /** A heap is none the worse if nothing it relies on has changed. */
    twostate lemma Kept()
      requires old(Valid()) && unchanged(this) && unchanged(data)
      requires forall i :: i in items ==>
                 && i.heapIndex == old(i.heapIndex) && i.heap == old(i.heap)
                 && i.rec.pri == old(i.rec.pri) && i.rec.deadline == old(i.rec.deadline)
      ensures Valid()
    {
      assert forall i :: 0 <= i < len ==> data[i] == old(data[i]);
      assert Ranks(len) == old(Ranks(len));
    }

    lemma SlotHolds(j: JobObject)
      requires Valid() && j in items
      ensures 0 <= j.heapIndex < len <= data.Length && data[j.heapIndex] == j && j.heap == this
    {}

    /** The root comes before every other job of the heap. */
    lemma RootFirst(j: JobObject)
      requires Valid() && j in items
      ensures 0 < len && data[0] in items && (j == data[0] || GoesBefore(order, data[0], j))
    {
      RanksTell(order, data[0], j);
      var ranks := Ranks(len);
      assert ranks[0] == RankOf(order, data[0]) && ranks[j.heapIndex] == RankOf(order, j);
      if j.heapIndex != 0 { RootIsLeast(ranks, j.heapIndex); }
    }

    lemma Root()
      requires Valid()
      ensures len == 0 ==> items == {}
      ensures len > 0 ==> data.Length > 0 && data[0] in items
      ensures len > 0 ==> forall j :: j in items ==> j == data[0] || GoesBefore(order, data[0], j)
    {
      forall j | j in items && len > 0 ensures j == data[0] || GoesBefore(order, data[0], j) {
        RootFirst(j);
      }
    }

    /** Taking the root until nothing is left yields all jobs, in order: the test at the end of heap.c. */
    method Drain() returns (sorted: seq<JobObject>)
      requires Valid()
      modifies this`len, this`items, data, items`heapIndex, items`heap
      ensures Valid() && items == {}
      ensures |sorted| == |old(items)| && forall j :: j in sorted <==> j in old(items)
      ensures forall i, k :: 0 <= i < k < |sorted| ==> GoesBefore(order, sorted[i], sorted[k])
    {
      hide Valid, GoesBefore;
      sorted := [];
      Root();
      while len != 0
        invariant Valid() && items <= old(items) && data == old(data) && (len == 0 ==> items == {})
        invariant |sorted| + |items| == |old(items)|
        invariant forall j :: j in old(items) <==> j in sorted || j in items
        invariant forall i, k :: 0 <= i < k < |sorted| ==> GoesBefore(order, sorted[i], sorted[k])
        invariant forall i, j :: 0 <= i < |sorted| && j in items ==> GoesBefore(order, sorted[i], j)
        decreases |items|
      {
        Root();
        var root := Remove(0);
        sorted := sorted + [root];
        Root();
      }
    }
  }
}
