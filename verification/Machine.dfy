/** The server as the program has it (conn.c, tube.c, job.c): one object whose methods change
    jobs, tubes and connections in place, each proved to do what its specification in the
    other modules says. */
module Machine {
  import opened Counting
  import opened Lists
  import opened State
  import opened Moves
  import opened Objects
  import HeapOrder

  /** Objects whose own fields may have changed. */
  datatype Change = Change(jobs: set<JobId>, tubes: set<TubeId>, conns: set<ConnId>)

  /** Everything in the state that is not a job, a tube or a connection. */
  datatype Globals = Globals(
    nextJob: JobId, tubeList: seq<TubeId>, nextTube: TubeId, defaultTube: TubeId, nextConn: ConnId,
    readyCnt: int, urgentCnt: int, reservedCnt: int, buriedCnt: int, waitingCnt: int,
    totalJobs: int, timeoutCnt: int, drain: bool, tick: nat)

  function GlobalsOf(s: State): Globals {
    Globals(s.nextJob, s.tubeList, s.nextTube, s.defaultTube, s.nextConn, s.readyCnt, s.urgentCnt, s.reservedCnt, s.buriedCnt,
            s.waitingCnt, s.totalJobs, s.timeoutCnt, s.drain, s.tick)
  }

  lemma GlobalsPut(s: State)
    ensures forall j, x :: GlobalsOf(PutJob(s, j, x)) == GlobalsOf(s)
    ensures forall t, x :: GlobalsOf(PutTube(s, t, x)) == GlobalsOf(s)
    ensures forall c, x :: GlobalsOf(PutConn(s, c, x)) == GlobalsOf(s)
  {}

  /** The global counters moved by the given amounts. */
  ghost function Counted(s: State, ready: int, urgent: int, reserved: int, buried: int, waiting: int): State {
    s.(readyCnt := s.readyCnt + ready, urgentCnt := s.urgentCnt + urgent, reservedCnt := s.reservedCnt + reserved,
       buriedCnt := s.buriedCnt + buried, waitingCnt := s.waitingCnt + waiting)
  }

  lemma CountedFacts(s: State, ready: int, urgent: int, reserved: int, buried: int, waiting: int)
    ensures var s2, g := Counted(s, ready, urgent, reserved, buried, waiting), GlobalsOf(s);
            && s2.jobs == s.jobs && s2.tubes == s.tubes && s2.conns == s.conns
            && GlobalsOf(s2) == g.(readyCnt := g.readyCnt + ready, urgentCnt := g.urgentCnt + urgent,
                                   reservedCnt := g.reservedCnt + reserved, buriedCnt := g.buriedCnt + buried,
                                   waitingCnt := g.waitingCnt + waiting)
  {}

  lemma NewJobFacts(s: State, rec: Job)
    ensures var s2, g := PutJob(s, s.nextJob, rec).(nextJob := s.nextJob + 1), GlobalsOf(s);
            && s2.jobs == s.jobs[s.nextJob := rec] && s2.tubes == s.tubes && s2.conns == s.conns
            && s.nextJob == g.nextJob && GlobalsOf(s2) == g.(nextJob := g.nextJob + 1)
  {}

  lemma NewConnFacts(s: State, rec: Conn)
    ensures var s2, g := PutConn(s, s.nextConn, rec).(nextConn := s.nextConn + 1), GlobalsOf(s);
            && s2.jobs == s.jobs && s2.tubes == s.tubes && s2.conns == s.conns[s.nextConn := rec]
            && s.nextConn == g.nextConn && GlobalsOf(s2) == g.(nextConn := g.nextConn + 1)
  {}

  lemma MakeTubeFacts(s: State, name: string)
    ensures var s2, g := MakeTube(s, name), GlobalsOf(s);
            && s2.jobs == s.jobs && s2.tubes == s.tubes[s.nextTube := NewTube(name)] && s2.conns == s.conns
            && s.nextTube == g.nextTube && GlobalsOf(s2) == g.(tubeList := g.tubeList + [g.nextTube], nextTube := g.nextTube + 1)
  {}

  lemma FreeTubeFacts(s: State, t: TubeId)
    ensures var s2, g := FreeTube(s, t), GlobalsOf(s);
            && s2.jobs == s.jobs && s2.tubes == s.tubes - {t} && s2.conns == s.conns
            && GlobalsOf(s2) == g.(tubeList := SwapRemove(g.tubeList, t))
  {}

  /** Job j is in the given heap of tube t. */
  ghost predicate InHeapOf(s: State, t: TubeId, order: Order, j: JobId) {
    t in s.tubes && j in HeapSet(s, t, order)
  }

  ghost function HeapSet(s: State, t: TubeId, order: Order): set<JobId>
    requires t in s.tubes
  {
    if order.ByPri? then s.tubes[t].ready else s.tubes[t].delayed
  }

  ghost function KeyOf(order: Order): Job -> int { if order.ByPri? then Pri else Deadline }

  ghost predicate NoHeap(s: State, j: JobId) {
    forall t :: t in s.tubes ==> j !in s.tubes[t].ready && j !in s.tubes[t].delayed
  }

  /** A server with nothing in it. */
  ghost function Blank(): State {
    State(map[], 1, map[], [], 0, 0, map[], 0, 0, 0, 0, 0, 0, 0, 0, false, 0)
  }

  class Server {
    /** The readings of the wall clock, and how many have been taken. */
    const clock: Clock
    var tick: nat
    /** all_jobs, and the addresses of tubes and connections. */
    var allJobs: map<JobId, JobObject>
    var nextJob: JobId
    var tubeAt: map<TubeId, TubeObject>
    var tubeList: seq<TubeId>
    var nextTube: TubeId
    var defaultTube: TubeId
    var connAt: map<ConnId, ConnObject>
    var nextConn: ConnId
    var readyCnt: int
    var urgentCnt: int
    var reservedCnt: int
    var buriedCnt: int
    var waitingCnt: int
    var totalJobs: int
    var timeoutCnt: int
    var drain: bool
    ghost var Repr: set<object>
    /** What all this stands for. */
    ghost var model: State

    /** srv_init before the default tube is made. */
    constructor (clock: Clock)
      ensures Rep() && fresh(Repr) && this.clock == clock && model == Blank()
    {
      this.clock, tick := clock, 0;
      allJobs, nextJob := map[], 1;
      tubeAt, tubeList, nextTube, defaultTube := map[], [], 0, 0;
      connAt, nextConn := map[], 0;
      readyCnt, urgentCnt, reservedCnt, buriedCnt, waitingCnt := 0, 0, 0, 0, 0;
      totalJobs, timeoutCnt, drain := 0, 0, false;
      Repr, model := {this}, Blank();
    }

    /** Keys and addresses name the objects they should, and all of them belong to the server. */
    ghost predicate Linked()
      reads this, Repr
    {
      && this in Repr
      && (forall j :: j in allJobs ==> allJobs[j] in Repr && allJobs[j].id == j)
      && (forall t :: t in tubeAt ==> tubeAt[t] in Repr && tubeAt[t].addr == t)
      && (forall t :: t in tubeAt ==> tubeAt[t].ready in Repr && tubeAt[t].delayed in Repr)
      && (forall c :: c in connAt ==> connAt[c] in Repr && connAt[c].addr == c)
    }

    /** The heap of a tube: ordered, made of indexed jobs. */
    ghost predicate HeapOk(h: Heap, order: Order, home: TubeId)
      reads this`allJobs, this`Repr, Repr - {this}
    {
      && h in Repr && h.data in Repr && h.order == order && h.home == home
      && (forall j :: j in h.items ==> j in Repr && j.id in allJobs && allJobs[j.id] == j)
      && h.Valid()
    }

    /** All heaps are sound, and no two share their array. */
    ghost predicate Heaps()
      requires Linked()
      reads this, Repr
    {
      && (forall t :: t in tubeAt ==> HeapOk(tubeAt[t].ready, ByPri, t) && HeapOk(tubeAt[t].delayed, ByDeadline, t))
      && (forall t, u :: t in tubeAt && u in tubeAt ==>
            && (t != u ==> tubeAt[t].ready.data != tubeAt[u].ready.data && tubeAt[t].delayed.data != tubeAt[u].delayed.data)
            && tubeAt[t].ready.data != tubeAt[u].delayed.data)
    }

    /** A job that says it is in a heap is in that heap. */
    ghost predicate Homes()
      requires Linked()
      reads this, Repr
    {
      forall j :: j in allJobs ==> Homed(allJobs[j])
    }

    ghost predicate Homed(j: JobObject)
      requires Linked()
      reads this, Repr, j
    {
      var h := j.heap;
      h != null ==> h.home in tubeAt && h == HeapAt(h.home, h.order) && j in HeapAt(h.home, h.order).items
    }

    /** The model agrees with the objects. */
    ghost predicate JobsAgree()
      requires Linked()
      reads this, Repr
    {
      model.jobs.Keys == allJobs.Keys && forall j :: j in allJobs ==> model.jobs[j] == allJobs[j].rec
    }

    ghost predicate TubesAgree()
      requires Linked()
      reads this, Repr
    {
      model.tubes.Keys == tubeAt.Keys && forall t :: t in tubeAt ==> model.tubes[t] == tubeAt[t].Value()
    }

    ghost predicate ConnsAgree()
      requires Linked()
      reads this, Repr
    {
      model.conns.Keys == connAt.Keys && forall c :: c in connAt ==> model.conns[c] == connAt[c].rec
    }

    /** The server's own fields. */
    function Fields(): Globals
      reads this`nextJob, this`tubeList, this`nextTube, this`defaultTube, this`nextConn, this`readyCnt, this`urgentCnt
      reads this`reservedCnt, this`buriedCnt, this`waitingCnt, this`totalJobs, this`timeoutCnt, this`drain, this`tick
    {
      Globals(nextJob, tubeList, nextTube, defaultTube, nextConn, readyCnt, urgentCnt, reservedCnt, buriedCnt, waitingCnt,
              totalJobs, timeoutCnt, drain, tick)
    }

    ghost predicate FieldsAgree()
      reads this
    {
      Fields() == GlobalsOf(model)
    }

    ghost predicate Rep()
      reads this, Repr
    {
      Linked() && Heaps() && Homes() && JobsAgree() && TubesAgree() && ConnsAgree() && FieldsAgree()
    }

    /** No object has come or gone. */
    twostate predicate SameMaps()
      reads this`allJobs, this`tubeAt, this`connAt
    {
      allJobs == old(allJobs) && tubeAt == old(tubeAt) && connAt == old(connAt)
    }

    // ----- changing objects in place -----

    /** Since the old state nothing has changed but the jobs, tubes and connections named in w,
        and no heap has, nor anything a heap relies on. */
    twostate predicate Only(w: Change)
      requires old(Linked()) && Linked()
      reads this, Repr
    {
      && Repr == old(Repr) && allJobs == old(allJobs) && tubeAt == old(tubeAt) && connAt == old(connAt)
      && (forall i :: i in allJobs && i !in w.jobs ==> unchanged(allJobs[i]))
      && (forall i :: i in w.jobs && i in allJobs ==> SameRank(allJobs[i]))
      && (forall a :: a in tubeAt && a !in w.tubes ==> unchanged(tubeAt[a]))
      && (forall a :: a in tubeAt ==> CalmHeap(tubeAt[a].ready) && CalmHeap(tubeAt[a].delayed))
      && (forall d :: d in connAt && d !in w.conns ==> unchanged(connAt[d]))
    }

    twostate predicate SameRank(j: JobObject)
      reads j
    {
      && j.heapIndex == old(j.heapIndex) && j.heap == old(j.heap)
      && (j.heap != null ==> j.rec.pri == old(j.rec.pri) && j.rec.deadline == old(j.rec.deadline))
    }

    twostate predicate CalmHeap(h: Heap)
      reads this, Repr
    {
      h in Repr ==> unchanged(h) && (h.data in Repr ==> unchanged(h.data))
    }

    function HeapAt(t: TubeId, order: Order): Heap
      requires t in tubeAt
      reads this`tubeAt
    {
      if order.ByPri? then tubeAt[t].ready else tubeAt[t].delayed
    }

    twostate lemma HeapKept(p: (TubeId, Order, Change))
      requires old(Linked() && Heaps()) && Linked() && Only(p.2) && p.0 in tubeAt
      ensures HeapOk(HeapAt(p.0, p.1), p.1, p.0)
    {
      var h := HeapAt(p.0, p.1);
      assert old(HeapOk(h, p.1, p.0));
      assert CalmHeap(h);
      assert forall i :: i in h.items ==> allJobs[i.id] == i && i.heap == h;
      hide Heap.Valid;
      h.Kept();
    }

    twostate lemma HeapsKept(w: Change)
      requires old(Linked() && Heaps()) && Linked() && Only(w)
      ensures Heaps()
    {
      forall a | a in tubeAt ensures HeapOk(tubeAt[a].ready, ByPri, a) && HeapOk(tubeAt[a].delayed, ByDeadline, a) {
        HeapKept((a, ByPri, w));
        HeapKept((a, ByDeadline, w));
      }
      hide HeapOk;
    }

    /** The model differs only for the objects in w, where it says what they now are. */
    twostate predicate JobsFollow(js: set<JobId>)
      requires Linked()
      reads this, Repr
    {
      && model.jobs.Keys == allJobs.Keys
      && (forall j :: j in model.jobs && j in old(model.jobs) && j !in js ==> model.jobs[j] == old(model.jobs)[j])
      && (forall j :: j in js && j in allJobs && j in model.jobs ==> model.jobs[j] == allJobs[j].rec)
    }

    twostate predicate TubesFollow(ts: set<TubeId>)
      requires Linked()
      reads this, Repr
    {
      && model.tubes.Keys == tubeAt.Keys
      && (forall t :: t in model.tubes && t in old(model.tubes) && t !in ts ==> model.tubes[t] == old(model.tubes)[t])
      && (forall t :: t in ts && t in tubeAt && t in model.tubes ==> model.tubes[t] == tubeAt[t].Value())
    }

    twostate predicate ConnsFollow(cs: set<ConnId>)
      requires Linked()
      reads this, Repr
    {
      && model.conns.Keys == connAt.Keys
      && (forall c :: c in model.conns && c in old(model.conns) && c !in cs ==> model.conns[c] == old(model.conns)[c])
      && (forall c :: c in cs && c in connAt && c in model.conns ==> model.conns[c] == connAt[c].rec)
    }

    twostate lemma JobsKept(w: Change)
      requires old(Linked() && JobsAgree()) && Linked() && Only(w) && JobsFollow(w.jobs)
      ensures JobsAgree()
    {
    }

    twostate lemma TubesKept(w: Change)
      requires old(Linked() && TubesAgree()) && Linked() && Only(w) && TubesFollow(w.tubes)
      ensures TubesAgree()
    {
      forall t | t in tubeAt && t !in w.tubes ensures tubeAt[t].Value() == old(tubeAt[t].Value()) {
        assert CalmHeap(tubeAt[t].ready) && CalmHeap(tubeAt[t].delayed);
      }
    }

    twostate lemma ConnsKept(w: Change)
      requires old(Linked() && ConnsAgree()) && Linked() && Only(w) && ConnsFollow(w.conns)
      ensures ConnsAgree()
    {
    }

    twostate lemma HomesKept(w: Change)
      requires old(Linked() && Homes() && Heaps()) && Linked() && Only(w)
      ensures Homes()
    {
      forall j | j in allJobs ensures Homed(allJobs[j]) {
        assert old(Homed(allJobs[j]));
        assert allJobs[j].heap == old(allJobs[j].heap);
        if allJobs[j].heap != null {
          var a := allJobs[j].heap.home;
          assert CalmHeap(tubeAt[a].ready) && CalmHeap(tubeAt[a].delayed);
        }
      }
    }

    /** How every method that moves no heap ends. */
    twostate lemma Kept(w: Change)
      requires old(Rep()) && Linked() && Only(w)
      requires JobsFollow(w.jobs) && TubesFollow(w.tubes) && ConnsFollow(w.conns) && FieldsAgree()
      ensures Rep()
    {
      hide Linked, Heaps, Homes, JobsAgree, TubesAgree, ConnsAgree, Only, JobsFollow, TubesFollow, ConnsFollow, FieldsAgree;
      HeapsKept(w);
      HomesKept(w);
      JobsKept(w);
      TubesKept(w);
      ConnsKept(w);
    }

    /** The model has an entry for every object. */
    ghost predicate SameKeys()
      reads this
    {
      model.jobs.Keys == allJobs.Keys && model.tubes.Keys == tubeAt.Keys && model.conns.Keys == connAt.Keys
    }

    lemma Keys()
      requires Rep()
      ensures Linked() && Heaps() && FieldsAgree() && SameKeys()
    {}

    lemma JobIs(j: JobId)
      requires Rep() && j in allJobs
      ensures j in model.jobs && allJobs[j].id == j && model.jobs[j] == allJobs[j].rec
    {}

    lemma TubeIs(t: TubeId)
      requires Rep() && t in tubeAt
      ensures t in model.tubes && tubeAt[t].addr == t && model.tubes[t] == tubeAt[t].Value()
    {}

    lemma ConnIs(c: ConnId)
      requires Rep() && c in connAt
      ensures c in model.conns && connAt[c].addr == c && model.conns[c] == connAt[c].rec
    {}

    /** Nothing but the given object, the model and the counters has changed. */
    twostate predicate OnlyObject(x: object)
      reads this, Repr
    {
      && Repr == old(Repr) && allJobs == old(allJobs) && tubeAt == old(tubeAt) && connAt == old(connAt)
      && (forall o :: o in Repr && o != x && o != this ==> unchanged(o))
    }

    twostate lemma JobOnly(j: JobObject)
      requires old(Linked() && Heaps()) && OnlyObject(j) && SameRank(j)
      ensures Linked() && Only(Change({j.id}, {}, {}))
    {
      forall a | a in tubeAt ensures CalmHeap(tubeAt[a].ready) && CalmHeap(tubeAt[a].delayed) {
        assert old(HeapOk(tubeAt[a].ready, ByPri, a) && HeapOk(tubeAt[a].delayed, ByDeadline, a));
      }
    }

    twostate lemma JobFollows(j: JobObject)
      requires old(SameKeys() && j.id in allJobs) && OnlyObject(j) && Linked() && allJobs[j.id] == j
      requires model == PutJob(old(model), j.id, j.rec)
      ensures JobsFollow({j.id}) && TubesFollow({}) && ConnsFollow({})
    {}

    twostate lemma JobStored(j: JobObject)
      requires old(Rep()) && OnlyObject(j) && SameRank(j)
      requires old(Linked() && Heaps() && SameKeys() && j.id in allJobs && allJobs[j.id] == j)
      requires FieldsAgree() && model == PutJob(old(model), j.id, j.rec)
      ensures Rep()
    {
      hide Rep, Heaps, Homes, JobsAgree, TubesAgree, ConnsAgree, Linked, Only, PutJob, FieldsAgree, SameKeys, OnlyObject, SameRank;
      JobOnly(j);
      JobFollows(j);
      Kept(Change({j.id}, {}, {}));
    }

    /** Assign the record of a job; while it is in a heap, what orders the heap must not change. */
    method StoreJob(j: JobObject, x: Job)
      requires Rep() && j.id in allJobs && allJobs[j.id] == j
      requires j.heap == null || (x.pri == j.rec.pri && x.deadline == j.rec.deadline)
      modifies j`rec, this`model
      ensures Rep() && model == PutJob(old(model), j.id, x)
    {
      hide Rep, Heaps, Homes, JobsAgree, TubesAgree, ConnsAgree, Linked;
      Keys();
      j.rec := x;
      model := PutJob(model, j.id, x);
      JobStored(j);
    }

    twostate lemma TubeOnly(t: TubeObject)
      requires old(Linked() && Heaps()) && OnlyObject(t)
      ensures Linked() && Only(Change({}, {t.addr}, {}))
    {
      forall a | a in tubeAt ensures CalmHeap(tubeAt[a].ready) && CalmHeap(tubeAt[a].delayed) {
        assert old(HeapOk(tubeAt[a].ready, ByPri, a) && HeapOk(tubeAt[a].delayed, ByDeadline, a));
      }
    }

    twostate lemma TubeFollows(t: TubeObject)
      requires old(SameKeys() && t.addr in tubeAt) && Linked()
      requires allJobs == old(allJobs) && tubeAt == old(tubeAt) && connAt == old(connAt) && tubeAt[t.addr] == t
      requires model == PutTube(old(model), t.addr, t.Value())
      ensures JobsFollow({}) && TubesFollow({t.addr}) && ConnsFollow({})
    {}

    twostate lemma TubeStored(t: TubeObject)
      requires old(Rep()) && OnlyObject(t)
      requires old(Linked() && Heaps() && SameKeys() && t.addr in tubeAt && tubeAt[t.addr] == t)
      requires FieldsAgree() && model == PutTube(old(model), t.addr, t.Value())
      ensures Rep()
    {
      hide Rep, Heaps, Homes, JobsAgree, TubesAgree, ConnsAgree, Linked, Only, JobsFollow, TubesFollow, ConnsFollow, PutTube;
      TubeOnly(t);
      TubeFollows(t);
      Kept(Change({}, {t.addr}, {}));
    }

    /** Assign the record of a tube, its heaps aside. */
    method StoreTube(t: TubeObject, x: Tube)
      requires Rep() && t.addr in tubeAt && tubeAt[t.addr] == t
      modifies t`rec, this`model
      ensures Rep() && t.addr in old(model).tubes
      ensures var was := old(model).tubes[t.addr];
              model == PutTube(old(model), t.addr, x.(ready := was.ready, delayed := was.delayed))
    {
      hide Rep, Heaps, Homes, JobsAgree, TubesAgree, ConnsAgree, Linked;
      Keys();
      TubeIs(t.addr);
      t.rec := x;
      model := PutTube(model, t.addr, t.Value());
      TubeStored(t);
    }

    twostate lemma ConnOnly(c: ConnObject)
      requires old(Linked() && Heaps()) && OnlyObject(c)
      ensures Linked() && Only(Change({}, {}, {c.addr}))
    {
      forall a | a in tubeAt ensures CalmHeap(tubeAt[a].ready) && CalmHeap(tubeAt[a].delayed) {
        assert old(HeapOk(tubeAt[a].ready, ByPri, a) && HeapOk(tubeAt[a].delayed, ByDeadline, a));
      }
    }

    twostate lemma ConnFollows(c: ConnObject)
      requires old(SameKeys() && c.addr in connAt) && OnlyObject(c) && Linked() && connAt[c.addr] == c
      requires model == PutConn(old(model), c.addr, c.rec)
      ensures JobsFollow({}) && TubesFollow({}) && ConnsFollow({c.addr})
    {}

    twostate lemma ConnStored(c: ConnObject)
      requires old(Rep()) && OnlyObject(c)
      requires old(Linked() && Heaps() && SameKeys() && c.addr in connAt && connAt[c.addr] == c)
      requires FieldsAgree() && model == PutConn(old(model), c.addr, c.rec)
      ensures Rep()
    {
      hide Rep, Heaps, Homes, JobsAgree, TubesAgree, ConnsAgree, Linked, Only, PutConn, FieldsAgree, SameKeys, OnlyObject;
      ConnOnly(c);
      ConnFollows(c);
      Kept(Change({}, {}, {c.addr}));
    }

    /** Assign the record of a connection. */
    method StoreConn(c: ConnObject, x: Conn)
      requires Rep() && c.addr in connAt && connAt[c.addr] == c
      modifies c`rec, this`model
      ensures Rep() && model == PutConn(old(model), c.addr, x)
    {
      hide Rep, Heaps, Homes, JobsAgree, TubesAgree, ConnsAgree, Linked;
      Keys();
      c.rec := x;
      model := PutConn(model, c.addr, x);
      ConnStored(c);
    }

    twostate lemma FieldsOnly()
      requires old(Linked() && Heaps()) && OnlyObject(this)
      ensures Linked() && Only(Change({}, {}, {}))
    {
      forall a | a in tubeAt ensures CalmHeap(tubeAt[a].ready) && CalmHeap(tubeAt[a].delayed) {
        assert old(HeapOk(tubeAt[a].ready, ByPri, a) && HeapOk(tubeAt[a].delayed, ByDeadline, a));
      }
    }

    twostate lemma FieldsStored()
      requires old(Rep()) && OnlyObject(this) && old(Linked() && Heaps() && SameKeys())
      requires FieldsAgree()
      requires model.jobs == old(model.jobs) && model.tubes == old(model.tubes) && model.conns == old(model.conns)
      ensures Rep()
    {
      hide Rep, Heaps, Homes, JobsAgree, TubesAgree, ConnsAgree, Linked, Only;
      FieldsOnly();
      Kept(Change({}, {}, {}));
    }

    /** Move the global counters. */
    method Count(ready: int, urgent: int, reserved: int, buried: int, waiting: int)
      requires Rep()
      modifies Repr
      ensures Rep() && Grows() && model == Counted(old(model), ready, urgent, reserved, buried, waiting)
    {
      hide Rep, Linked, Heaps, SameKeys, Counted, FieldsAgree;
      Keys();
      CountedFacts(model, ready, urgent, reserved, buried, waiting);
      CountFields(ready, urgent, reserved, buried, waiting);
      FieldsStored();
    }

    method CountFields(ready: int, urgent: int, reserved: int, buried: int, waiting: int)
      requires FieldsAgree()
      modifies this`readyCnt, this`urgentCnt, this`reservedCnt, this`buriedCnt, this`waitingCnt, this`model
      ensures FieldsAgree() && model == Counted(old(model), ready, urgent, reserved, buried, waiting)
    {
      hide Counted, GlobalsOf;
      CountedFacts(model, ready, urgent, reserved, buried, waiting);
      readyCnt, urgentCnt, reservedCnt := readyCnt + ready, urgentCnt + urgent, reservedCnt + reserved;
      buriedCnt, waitingCnt := buriedCnt + buried, waitingCnt + waiting;
      model := Counted(model, ready, urgent, reserved, buried, waiting);
    }

    /** ustime. */
    method Ustime() returns (now: int)
      requires Rep()
      modifies Repr
      ensures var m := old(model); Rep() && Grows() && now == clock(m.tick) && model == m.(tick := m.tick + 1)
    {
      hide Rep, Heaps, Homes, JobsAgree, TubesAgree, ConnsAgree, Linked;
      Keys();
      Owned();
      now := clock(tick);
      tick := tick + 1;
      model := model.(tick := tick);
      FieldsStored();
    }

    // ----- moving a job into or out of a heap -----

    /** Nothing has changed but h, its array, and the positions of its jobs and of j. */
    twostate predicate Others(h: Heap, j: JobObject)
      reads this`Repr, Repr - {this}, h, h.data, h.items
    {
      && (forall i: JobObject :: i in old(Repr) && i in Repr && i !in old(h.items) && i != j ==> unchanged(i))
      && (forall i: JobObject :: i in old(Repr) && i in Repr ==> i.rec == old(i.rec))
      && (forall t: TubeObject :: t in old(Repr) && t in Repr ==> unchanged(t))
      && (forall c: ConnObject :: c in old(Repr) && c in Repr ==> unchanged(c))
      && (forall g: Heap :: g in old(Repr) && g in Repr && g != h ==> unchanged(g))
      && (forall d: array<JobObject?> :: d in old(Repr) && d in Repr && d != old(h.data) ==> unchanged(d))
    }

    /** Only heap h has changed, together with the heap positions of its jobs and of j. */
    twostate predicate HeapMoved(p: (Heap, JobObject))
      reads this`allJobs, this`tubeAt, this`connAt, this`Repr, Repr - {this}, p.0, p.0.data, p.0.items
    {
      var h := p.0;
      && allJobs == old(allJobs) && tubeAt == old(tubeAt) && connAt == old(connAt)
      && h in old(Repr) && Repr == old(Repr) + {h.data} && (fresh(h.data) || (h.data == old(h.data) && h.data in old(Repr)))
      && Others(h, p.1)
    }

    twostate lemma HeapsWereApart(p: (TubeId, Order, TubeId, Order))
      requires old(Linked() && Heaps() && p.0 in tubeAt && p.2 in tubeAt) && (p.0, p.1) != (p.2, p.3)
      ensures old(HeapOk(HeapAt(p.0, p.1), p.1, p.0) && HeapOk(HeapAt(p.2, p.3), p.3, p.2))
      ensures old(HeapAt(p.0, p.1).data != HeapAt(p.2, p.3).data)
    {
      hide HeapOk;
    }

    /** Another heap g does not notice: it has its own array and its own jobs. */
    twostate lemma OtherHeapKept(p: (Heap, JobObject, TubeId, Order, TubeId, Order))
      requires old(Linked() && Heaps()) && Linked() && HeapMoved((p.0, p.1)) && p.2 in tubeAt && p.4 in tubeAt
      requires p.0 == HeapAt(p.2, p.3) && (p.2, p.3) != (p.4, p.5) && old(p.1.heap == null || p.1.heap == p.0)
      ensures HeapAt(p.4, p.5) != p.0 && HeapOk(HeapAt(p.4, p.5), p.5, p.4)
      ensures HeapAt(p.4, p.5).data == old(HeapAt(p.4, p.5).data) && HeapAt(p.4, p.5).data != p.0.data
    {
      hide Linked, Heaps;
      var h, g := p.0, HeapAt(p.4, p.5);
      HeapsWereApart((p.2, p.3, p.4, p.5));
      assert h.order == p.3 && h.home == p.2 && g.order == p.5 && g.home == p.4;
      assert g != h && old(g.data != h.data);
      assert forall i :: i in g.items ==> allJobs[i.id] == i && old(i.heap) == g;
      assert forall i :: i in old(h.items) ==> old(i.heap) == h;
      hide Heap.Valid;
      g.Kept();
    }

    twostate lemma OtherHeapsKept(p: (Heap, JobObject, TubeId, Order))
      requires old(Linked() && Heaps()) && Linked() && HeapMoved((p.0, p.1)) && p.2 in tubeAt && p.0 == HeapAt(p.2, p.3)
      requires old(p.1.heap == null || p.1.heap == p.0)
      ensures forall a, o :: a in tubeAt && (a, o) != (p.2, p.3) ==>
                && HeapOk(HeapAt(a, o), o, a) && HeapAt(a, o).data != p.0.data && HeapAt(a, o).data == old(HeapAt(a, o).data)
    {
      assert tubeAt == old(tubeAt);
      hide Heaps, Linked, HeapMoved, HeapOk;
      forall a, o | a in tubeAt && (a, o) != (p.2, p.3)
        ensures HeapOk(HeapAt(a, o), o, a) && HeapAt(a, o).data != p.0.data && HeapAt(a, o).data == old(HeapAt(a, o).data)
      {
        OtherHeapKept((p.0, p.1, p.2, p.3, a, o));
      }
    }

    twostate lemma ArraysApart(p: (Heap, JobObject, TubeId, Order))
      requires old(Linked() && Heaps()) && Linked() && tubeAt == old(tubeAt) && p.2 in tubeAt && p.0 == HeapAt(p.2, p.3)
      requires forall a, o :: a in tubeAt ==> HeapOk(HeapAt(a, o), o, a)
      requires forall a, o :: a in tubeAt && (a, o) != (p.2, p.3) ==>
                 HeapAt(a, o).data != p.0.data && HeapAt(a, o).data == old(HeapAt(a, o).data)
      ensures Heaps()
    {
      hide HeapOk;
      forall a | a in tubeAt ensures HeapOk(tubeAt[a].ready, ByPri, a) && HeapOk(tubeAt[a].delayed, ByDeadline, a) {
        assert HeapOk(HeapAt(a, ByPri), ByPri, a) && HeapOk(HeapAt(a, ByDeadline), ByDeadline, a);
      }
      forall a, b | a in tubeAt && b in tubeAt
        ensures a != b ==> tubeAt[a].ready.data != tubeAt[b].ready.data && tubeAt[a].delayed.data != tubeAt[b].delayed.data
        ensures tubeAt[a].ready.data != tubeAt[b].delayed.data
      {
        assert tubeAt[a].ready == HeapAt(a, ByPri) && tubeAt[b].ready == HeapAt(b, ByPri);
        assert tubeAt[a].delayed == HeapAt(a, ByDeadline) && tubeAt[b].delayed == HeapAt(b, ByDeadline);
      }
    }

    /** All heaps are sound if the one that moved is. */
    twostate lemma HeapsMoved(p: (Heap, JobObject, TubeId, Order))
      requires old(Linked() && Heaps()) && Linked() && HeapMoved((p.0, p.1)) && p.2 in tubeAt && p.0 == HeapAt(p.2, p.3)
      requires HeapOk(p.0, p.3, p.2) && old(p.1.heap == null || p.1.heap == p.0)
      ensures Heaps()
    {
      hide Heaps, Linked, HeapOk, Others;
      OtherHeapsKept(p);
      ArraysApart(p);
    }

    twostate lemma RecordsKept(p: (Heap, JobObject))
      requires old(Linked() && JobsAgree() && ConnsAgree()) && Linked() && HeapMoved(p)
      requires model.jobs == old(model.jobs) && model.conns == old(model.conns)
      ensures JobsAgree() && ConnsAgree()
    {}

    twostate lemma OtherTubeKept(p: (Heap, JobObject, TubeId, Order, TubeId))
      requires old(Linked() && Heaps()) && Linked() && HeapMoved((p.0, p.1)) && p.2 in tubeAt && p.0 == HeapAt(p.2, p.3)
      requires p.4 in tubeAt && p.4 != p.2
      ensures tubeAt[p.4].Value() == old(tubeAt[p.4].Value())
    {
      assert old(HeapOk(p.0, p.3, p.2) && HeapOk(tubeAt[p.4].ready, ByPri, p.4) && HeapOk(tubeAt[p.4].delayed, ByDeadline, p.4));
      assert p.0.home == p.2 && tubeAt[p.4].ready.home == p.4 && tubeAt[p.4].delayed.home == p.4;
      hide Heap.Valid, HeapOk, Heaps;
    }

    twostate lemma TubeMoved(p: (Heap, JobObject, TubeId, Order))
      requires old(Linked() && TubesAgree() && Heaps()) && Linked() && HeapMoved((p.0, p.1)) && p.2 in tubeAt && p.0 == HeapAt(p.2, p.3)
      requires model.tubes == old(model.tubes)[p.2 := tubeAt[p.2].Value()] && model.tubes.Keys == tubeAt.Keys
      ensures TubesAgree()
    {
      hide Heaps, Others;
      forall a | a in tubeAt && a != p.2 ensures tubeAt[a].Value() == old(tubeAt[a].Value()) {
        OtherTubeKept((p.0, p.1, p.2, p.3, a));
      }
    }

    twostate lemma HomesMoved(p: (Heap, JobObject, TubeId, Order))
      requires old(Linked() && Homes() && Heaps()) && Linked() && HeapMoved((p.0, p.1)) && p.2 in tubeAt && p.0 == HeapAt(p.2, p.3)
      requires HeapOk(p.0, p.3, p.2) && Stays(p.0, p.1)
      ensures Homes()
    {
      forall j | j in allJobs ensures Homed(allJobs[j]) {
        HomeMoved((p.0, p.1, p.2, p.3, j));
      }
    }

    twostate predicate Stays(h: Heap, j: JobObject)
      reads h, j
    {
      old(h.items) - {j} <= h.items && (j.heap == null || j in h.items)
    }

    twostate lemma HomeMoved(p: (Heap, JobObject, TubeId, Order, JobId))
      requires old(Linked() && Homes() && Heaps()) && Linked() && HeapMoved((p.0, p.1)) && p.2 in tubeAt && p.0 == HeapAt(p.2, p.3)
      requires HeapOk(p.0, p.3, p.2) && Stays(p.0, p.1) && p.4 in allJobs
      ensures Homed(allJobs[p.4])
    {
      var j := allJobs[p.4];
      assert old(Homed(j));
      if j in p.0.items {
        assert j.heap == p.0;
      } else if j != p.1 {
        assert j !in old(p.0.items) && unchanged(j);
      }
    }

    twostate lemma LinkedMoved(p: (Heap, JobObject))
      requires old(Linked()) && HeapMoved(p)
      ensures Linked()
    {}

    twostate lemma WasSound()
      requires old(Rep())
      ensures old(Linked() && Heaps() && Homes() && JobsAgree() && TubesAgree() && ConnsAgree() && SameKeys())
    {}

    twostate lemma TubeReplaced(p: (Heap, JobObject, TubeId))
      requires old(SameKeys()) && HeapMoved((p.0, p.1)) && p.2 in tubeAt
      requires model == PutTube(old(model), p.2, tubeAt[p.2].Value())
      ensures model.jobs == old(model.jobs) && model.conns == old(model.conns)
      ensures model.tubes == old(model.tubes)[p.2 := tubeAt[p.2].Value()] && model.tubes.Keys == tubeAt.Keys
    {
      hide Others, TubeObject.Value;
    }

    /** How every method that moves a job into or out of a heap ends. */
    twostate lemma Moved(p: (Heap, JobObject, TubeId, Order))
      requires old(Rep()) && HeapMoved((p.0, p.1)) && p.2 in tubeAt && p.0 == HeapAt(p.2, p.3)
      requires HeapOk(p.0, p.3, p.2) && old(p.1.heap == null || p.1.heap == p.0) && Stays(p.0, p.1)
      requires FieldsAgree() && model == PutTube(old(model), p.2, tubeAt[p.2].Value())
      ensures Rep()
    {
      hide Heaps, Homes, JobsAgree, TubesAgree, ConnsAgree, HeapOk, HeapMoved, Linked, SameKeys, FieldsAgree, Stays, PutTube,
        TubeObject.Value, HeapAt;
      WasSound();
      TubeReplaced((p.0, p.1, p.2));
      LinkedMoved((p.0, p.1));
      HeapsMoved(p);
      HomesMoved(p);
      RecordsKept((p.0, p.1));
      TubeMoved(p);
    }

    /** Heap h belongs to tube a; its jobs are indexed, and those of the tube's other heap are others. */
    lemma InHeap(p: (TubeId, Order), j: JobObject)
      requires Rep() && p.0 in tubeAt && j in HeapAt(p.0, p.1).items
      ensures HeapOk(HeapAt(p.0, p.1), p.1, p.0) && tubeAt[p.0].ready != tubeAt[p.0].delayed && j.heap == HeapAt(p.0, p.1)
      ensures forall i :: i in HeapAt(p.0, p.1).items && i != j ==> i.id != j.id
      ensures var h := HeapAt(p.0, p.1); 0 <= j.heapIndex < h.len <= h.data.Length && h.data[j.heapIndex] == j
    {
      assert HeapOk(tubeAt[p.0].ready, ByPri, p.0) && HeapOk(tubeAt[p.0].delayed, ByDeadline, p.0);
      HeapAt(p.0, p.1).SlotHolds(j);
    }

    lemma OutsideHeap(p: (TubeId, Order), j: JobObject)
      requires Rep() && p.0 in tubeAt && j.id in allJobs && allJobs[j.id] == j && j.heap == null
      ensures HeapOk(HeapAt(p.0, p.1), p.1, p.0) && tubeAt[p.0].ready != tubeAt[p.0].delayed && j in Repr
      ensures j !in HeapAt(p.0, p.1).items && forall i :: i in HeapAt(p.0, p.1).items ==> i.id != j.id
    {
      assert HeapOk(tubeAt[p.0].ready, ByPri, p.0) && HeapOk(tubeAt[p.0].delayed, ByDeadline, p.0);
    }

    lemma IdsRemove(s: set<JobObject>, j: JobObject)
      requires j in s && forall i :: i in s && i != j ==> i.id != j.id
      ensures Ids(s - {j}) == Ids(s) - {j.id}
    {}

    lemma IdsAdd(s: set<JobObject>, j: JobObject)
      ensures Ids(s + {j}) == Ids(s) + {j.id}
    {}

    method Pull(a: TubeId, order: Order, j: JobObject)
      requires Rep() && a in tubeAt && j in HeapAt(a, order).items
      modifies Repr - {this}
      ensures HeapMoved((HeapAt(a, order), j)) && HeapOk(HeapAt(a, order), order, a) && Repr == old(Repr)
      ensures HeapAt(a, order).items == old(HeapAt(a, order).items) - {j} && j.heap == null
      ensures tubeAt[a].rec == old(tubeAt[a].rec) && forall o :: o != order ==> HeapAt(a, o).items == old(HeapAt(a, o).items)
    {
      hide Rep, Heap.Valid, Linked, Heaps, Homes, SameKeys, Fields, GlobalsOf, PutTube;
      InHeap((a, order), j);
      var _ := HeapAt(a, order).Remove(j.heapIndex);
    }

    method TakeOut(a: TubeId, order: Order, j: JobObject)
      requires Rep() && a in tubeAt && j in HeapAt(a, order).items
      modifies Repr
      ensures Rep() && Repr == old(Repr) && SameMaps() && j.heap == null && a in tubeAt
      ensures model == PutTube(old(model), a, tubeAt[a].Value())
      ensures tubeAt[a].rec == old(tubeAt[a].rec) && HeapAt(a, order).items == old(HeapAt(a, order).items) - {j}
      ensures forall o :: o != order ==> HeapAt(a, o).items == old(HeapAt(a, o).items)
    {
      hide Rep, Heap.Valid, HeapOk, Linked, Heaps, Homes, SameKeys, Fields, GlobalsOf, PutTube, Others;
      Keys();
      GlobalsPut(model);
      InHeap((a, order), j);
      Pull(a, order, j);
      model := PutTube(model, a, tubeAt[a].Value());
      Moved((HeapAt(a, order), j, a, order));
    }

    /** heap_remove of a job whose slot its own heap_index tells. */
    method HeapRemove(a: TubeId, order: Order, j: JobObject)
      requires Rep() && a in tubeAt && j in HeapAt(a, order).items
      modifies Repr
      ensures Rep() && Repr == old(Repr) && SameMaps() && j.heap == null && a in old(model).tubes
      ensures var x := old(model).tubes[a];
              model == PutTube(old(model), a, if order.ByPri? then x.(ready := x.ready - {j.id}) else x.(delayed := x.delayed - {j.id}))
    {
      hide Rep, HeapOk;
      TubeIs(a);
      InHeap((a, order), j);
      IdsRemove(HeapAt(a, order).items, j);
      TakeOut(a, order, j);
      assert HeapAt(a, ByPri) == tubeAt[a].ready && HeapAt(a, ByDeadline) == tubeAt[a].delayed;
    }

    method Push(a: TubeId, order: Order, j: JobObject)
      requires Rep() && a in tubeAt && j.id in allJobs && allJobs[j.id] == j && j.heap == null
      modifies Repr - {this}, this`Repr
      ensures HeapMoved((HeapAt(a, order), j)) && HeapOk(HeapAt(a, order), order, a)
      ensures HeapAt(a, order).items == old(HeapAt(a, order).items) + {j}
      ensures tubeAt[a].rec == old(tubeAt[a].rec) && forall o :: o != order ==> HeapAt(a, o).items == old(HeapAt(a, o).items)
    {
      hide Rep, Heap.Valid, Linked, Heaps, Homes, SameKeys, Fields, GlobalsOf, PutTube;
      OutsideHeap((a, order), j);
      HeapAt(a, order).Insert(j);
      Repr := Repr + {HeapAt(a, order).data};
    }

    method PutIn(a: TubeId, order: Order, j: JobObject)
      requires Rep() && a in tubeAt && j.id in allJobs && allJobs[j.id] == j && j.heap == null
      modifies Repr
      ensures Rep() && Repr >= old(Repr) && fresh(Repr - old(Repr)) && SameMaps() && a in tubeAt
      ensures model == PutTube(old(model), a, tubeAt[a].Value())
      ensures tubeAt[a].rec == old(tubeAt[a].rec) && HeapAt(a, order).items == old(HeapAt(a, order).items) + {j}
      ensures forall o :: o != order ==> HeapAt(a, o).items == old(HeapAt(a, o).items)
    {
      hide Rep, Heap.Valid, HeapOk, Linked, Heaps, Homes, SameKeys, Fields, GlobalsOf, PutTube, Others;
      Keys();
      GlobalsPut(model);
      Push(a, order, j);
      model := PutTube(model, a, tubeAt[a].Value());
      Moved((HeapAt(a, order), j, a, order));
    }

    /** heap_insert of a job that is in no heap. */
    method HeapInsert(a: TubeId, order: Order, j: JobObject)
      requires Rep() && a in tubeAt && j.id in allJobs && allJobs[j.id] == j && j.heap == null
      modifies Repr
      ensures Rep() && Repr >= old(Repr) && fresh(Repr - old(Repr)) && SameMaps() && a in old(model).tubes
      ensures var x := old(model).tubes[a];
              model == PutTube(old(model), a, if order.ByPri? then x.(ready := x.ready + {j.id}) else x.(delayed := x.delayed + {j.id}))
    {
      hide Rep;
      TubeIs(a);
      IdsAdd(HeapAt(a, order).items, j);
      PutIn(a, order, j);
      assert HeapAt(a, ByPri) == tubeAt[a].ready && HeapAt(a, ByDeadline) == tubeAt[a].delayed;
    }

    // ----- objects that come and go -----

    /** No object of the server has changed but the server itself. */
    twostate predicate Untouched()
      reads this`Repr, Repr - {this}
    {
      && old(Repr) <= Repr
      && (forall i: JobObject :: i in old(Repr) && i in Repr ==> unchanged(i))
      && (forall t: TubeObject :: t in old(Repr) && t in Repr ==> unchanged(t))
      && (forall c: ConnObject :: c in old(Repr) && c in Repr ==> unchanged(c))
      && (forall g: Heap :: g in old(Repr) && g in Repr ==> unchanged(g))
      && (forall d: array<JobObject?> :: d in old(Repr) && d in Repr ==> unchanged(d))
    }

    /** Jobs: the old ones, new ones outside all heaps; those that are gone were outside all heaps. */
    twostate predicate JobsReindexed()
      reads this`allJobs, this`Repr, Repr - {this}
    {
      && (forall j :: j in allJobs && j in old(allJobs) ==> allJobs[j] == old(allJobs)[j])
      && (forall j :: j in allJobs && j !in old(allJobs) ==>
            fresh(allJobs[j]) && allJobs[j] in Repr && allJobs[j].id == j && allJobs[j].heap == null)
      && (forall j :: j in old(allJobs) && j !in allJobs ==> old(allJobs[j].heap) == null)
    }

    ghost predicate EmptyHeaps(t: TubeObject)
      reads t.ready`items, t.delayed`items
    {
      t.ready.items == {} && t.delayed.items == {}
    }

    /** Tubes: the old ones, at most one new one, and those that are gone had empty heaps. */
    twostate predicate TubesReindexed()
      reads this`tubeAt, this`Repr, Repr - {this}
    {
      && (forall t :: t in tubeAt && t in old(tubeAt) ==> tubeAt[t] == old(tubeAt)[t])
      && (forall t :: t in tubeAt && t !in old(tubeAt) ==>
            && fresh(tubeAt[t]) && tubeAt[t] in Repr && tubeAt[t].addr == t
            && fresh(tubeAt[t].ready) && tubeAt[t].ready in Repr && fresh(tubeAt[t].delayed) && tubeAt[t].delayed in Repr
            && fresh(tubeAt[t].ready.data) && tubeAt[t].ready.data in Repr
            && fresh(tubeAt[t].delayed.data) && tubeAt[t].delayed.data in Repr
            && tubeAt[t].ready.items <= Repr && tubeAt[t].delayed.items <= Repr && tubeAt[t].Pristine())
      && (forall t, u :: t in tubeAt && t !in old(tubeAt) && u in tubeAt && u !in old(tubeAt) ==> t == u)
      && (forall t :: t in old(tubeAt) && t !in tubeAt ==> old(EmptyHeaps(tubeAt[t])))
    }

    twostate predicate ConnsReindexed()
      reads this`connAt, this`Repr, Repr - {this}
    {
      && (forall c :: c in connAt && c in old(connAt) ==> connAt[c] == old(connAt)[c])
      && (forall c :: c in connAt && c !in old(connAt) ==> fresh(connAt[c]) && connAt[c] in Repr && connAt[c].addr == c)
    }

    twostate predicate Reindexed()
      reads this, Repr
    {
      this in Repr && Untouched() && JobsReindexed() && TubesReindexed() && ConnsReindexed()
    }

    twostate lemma HeapReindexed(p: (TubeId, Order))
      requires old(Linked() && Heaps()) && Linked() && Reindexed() && p.0 in tubeAt
      ensures HeapOk(HeapAt(p.0, p.1), p.1, p.0)
    {
      var h := HeapAt(p.0, p.1);
      if p.0 in old(tubeAt) {
        assert old(HeapOk(h, p.1, p.0));
        assert forall i :: i in h.items ==> old(i.heap) == h && old(allJobs)[i.id] == i;
        hide Heap.Valid;
        h.Kept();
      }
    }

    twostate lemma HeapsReindexed()
      requires old(Linked() && Heaps()) && Linked() && Reindexed()
      ensures Heaps()
    {
      forall t | t in tubeAt ensures HeapOk(tubeAt[t].ready, ByPri, t) && HeapOk(tubeAt[t].delayed, ByDeadline, t) {
        HeapReindexed((t, ByPri));
        HeapReindexed((t, ByDeadline));
      }
      forall t | t in tubeAt && t in old(tubeAt)
        ensures tubeAt[t].ready.data == old(tubeAt[t].ready.data) && tubeAt[t].delayed.data == old(tubeAt[t].delayed.data)
        ensures tubeAt[t].ready.data in old(Repr) && tubeAt[t].delayed.data in old(Repr)
      {
        assert old(HeapOk(tubeAt[t].ready, ByPri, t) && HeapOk(tubeAt[t].delayed, ByDeadline, t));
      }
      hide HeapOk;
    }

    twostate lemma HomeReindexed(j: JobId)
      requires old(Linked() && Heaps() && Homes()) && Linked() && Reindexed() && j in allJobs
      ensures Homed(allJobs[j])
    {
      if j in old(allJobs) {
        assert old(Homed(allJobs[j]));
      }
    }

    twostate lemma HomesReindexed()
      requires old(Linked() && Heaps() && Homes()) && Linked() && Reindexed()
      ensures Homes()
    {
      hide Homed, Reindexed, Heaps;
      forall j | j in allJobs ensures Homed(allJobs[j]) { HomeReindexed(j); }
    }

    /** The model has the same entries for the same objects, and new ones for new objects. */
    twostate predicate Tracks()
      requires Linked()
      reads this, Repr
    {
      && SameKeys()
      && (forall j :: j in allJobs && j in model.jobs ==>
            model.jobs[j] == if j in old(allJobs) && j in old(model.jobs) then old(model.jobs)[j] else allJobs[j].rec)
      && (forall t :: t in tubeAt && t in model.tubes ==>
            model.tubes[t] == if t in old(tubeAt) && t in old(model.tubes) then old(model.tubes)[t] else tubeAt[t].Value())
      && (forall c :: c in connAt && c in model.conns ==>
            model.conns[c] == if c in old(connAt) && c in old(model.conns) then old(model.conns)[c] else connAt[c].rec)
    }

    twostate lemma ViewsReindexed()
      requires old(Linked() && JobsAgree() && TubesAgree() && ConnsAgree()) && Linked() && Reindexed() && Tracks()
      ensures JobsAgree() && TubesAgree() && ConnsAgree()
    {}

    /** How every method that creates or frees an object ends. */
    twostate lemma Renewed()
      requires old(Rep()) && Linked() && Reindexed() && FieldsAgree() && Tracks()
      ensures Rep()
    {
      hide Linked, Heaps, Homes, JobsAgree, TubesAgree, ConnsAgree, SameKeys, FieldsAgree, Reindexed, Tracks;
      WasSound();
      HeapsReindexed();
      HomesReindexed();
      ViewsReindexed();
    }

    twostate lemma JobAdded(id: JobId)
      requires old(Rep() && Linked() && SameKeys()) && Untouched() && FieldsAgree() && id !in old(allJobs)
      requires id in allJobs && allJobs == old(allJobs)[id := allJobs[id]] && tubeAt == old(tubeAt) && connAt == old(connAt)
      requires fresh(allJobs[id]) && allJobs[id].id == id && allJobs[id].heap == null && Repr == old(Repr) + {allJobs[id]}
      requires model.jobs == old(model.jobs)[id := allJobs[id].rec]
      requires model.tubes == old(model.tubes) && model.conns == old(model.conns)
      ensures Rep()
    {
      hide Rep, Heap.Valid, FieldsAgree, Untouched;
      Renewed();
    }

    /** hash_insert of a new job under the next id. */
    method AddJob(rec: Job) returns (id: JobId)
      requires Rep() && model.nextJob !in model.jobs
      modifies Repr
      ensures Rep() && Grows() && id == old(model).nextJob && model == PutJob(old(model), id, rec).(nextJob := id + 1)
    {
      hide Rep, Linked, Heaps, FieldsAgree, PutJob;
      Keys();
      Owned();
      NewJobFacts(model, rec);
      id := AddJobEntry(rec);
      JobAdded(id);
    }

    method AddJobEntry(rec: Job) returns (id: JobId)
      requires FieldsAgree()
      modifies this`allJobs, this`nextJob, this`Repr, this`model
      ensures id == old(model).nextJob && id in allJobs && allJobs == old(allJobs)[id := allJobs[id]]
      ensures fresh(allJobs[id]) && allJobs[id].id == id && allJobs[id].rec == rec && allJobs[id].heap == null
      ensures Repr == old(Repr) + {allJobs[id]}
      ensures FieldsAgree() && model == PutJob(old(model), id, rec).(nextJob := id + 1)
    {
      hide PutJob, GlobalsOf;
      NewJobFacts(model, rec);
      id := nextJob;
      var j := new JobObject(id, rec);
      allJobs := allJobs[id := j];
      nextJob := id + 1;
      Repr := Repr + {j};
      model := PutJob(model, id, rec).(nextJob := id + 1);
    }

    method DropJobEntry(id: JobId)
      requires FieldsAgree()
      modifies this`allJobs, this`model
      ensures allJobs == old(allJobs) - {id} && FieldsAgree() && model == old(model).(jobs := old(model).jobs - {id})
    {
      allJobs := allJobs - {id};
      model := model.(jobs := model.jobs - {id});
    }

    twostate lemma JobGone(id: JobId)
      requires old(Rep() && Linked() && SameKeys() && id in allJobs && allJobs[id].heap == null) && Untouched() && FieldsAgree()
      requires allJobs == old(allJobs) - {id} && tubeAt == old(tubeAt) && connAt == old(connAt) && Repr == old(Repr)
      requires model.jobs == old(model.jobs) - {id} && model.tubes == old(model.tubes) && model.conns == old(model.conns)
      ensures Rep()
    {
      hide Rep, Heap.Valid, FieldsAgree, Untouched;
      Renewed();
    }

    /** hash_delete of a job that is in no heap. */
    method RemoveJob(id: JobId)
      requires Rep() && id in model.jobs && NoHeap(model, id)
      modifies Repr
      ensures Rep() && Grows() && model == old(model).(jobs := old(model).jobs - {id})
    {
      hide Rep, Linked, Heaps, FieldsAgree, NoHeap;
      Keys();
      Owned();
      Loose(id);
      DropJobEntry(id);
      JobGone(id);
    }

    twostate lemma TubeTracked(a: TubeId)
      requires old(SameKeys()) && Linked() && a !in old(tubeAt) && a in tubeAt
      requires tubeAt == old(tubeAt)[a := tubeAt[a]] && allJobs == old(allJobs) && connAt == old(connAt)
      requires model.tubes == old(model.tubes)[a := tubeAt[a].Value()]
      requires model.jobs == old(model.jobs) && model.conns == old(model.conns)
      ensures Tracks()
    {
      hide Linked, TubeObject.Value;
    }

    twostate lemma TubeAdded(a: TubeId)
      requires old(Rep() && Linked() && SameKeys()) && Untouched() && FieldsAgree() && a !in old(tubeAt)
      requires a in tubeAt && tubeAt == old(tubeAt)[a := tubeAt[a]] && allJobs == old(allJobs) && connAt == old(connAt)
      requires var t := tubeAt[a];
               && fresh(t) && t.addr == a && fresh(t.ready) && fresh(t.delayed) && fresh(t.ready.data) && fresh(t.delayed.data)
               && t.Pristine() && Repr == old(Repr) + {t, t.ready, t.delayed, t.ready.data, t.delayed.data}
      requires model.tubes == old(model.tubes)[a := tubeAt[a].Value()]
      requires model.jobs == old(model.jobs) && model.conns == old(model.conns)
      ensures Rep()
    {
      hide Rep, Heap.Valid, FieldsAgree, Untouched, Tracks, TubeObject.Value;
      TubeTracked(a);
      Renewed();
    }

    /** tube_create, and the new tube's entry in the table. */
    method AddTubeEntry(name: string) returns (a: TubeId)
      requires FieldsAgree()
      modifies this`tubeAt, this`tubeList, this`nextTube, this`Repr, this`model
      ensures a == old(model).nextTube && a in tubeAt && tubeAt == old(tubeAt)[a := tubeAt[a]]
      ensures var t := tubeAt[a];
              && fresh(t) && t.addr == a && fresh(t.ready) && fresh(t.delayed) && fresh(t.ready.data) && fresh(t.delayed.data)
              && t.Pristine() && Repr == old(Repr) + {t, t.ready, t.delayed, t.ready.data, t.delayed.data}
              && t.Value() == NewTube(name)
      ensures FieldsAgree() && model == MakeTube(old(model), name)
    {
      hide TubeObject.Pristine, TubeObject.Value, MakeTube, GlobalsOf, NewTube;
      MakeTubeFacts(model, name);
      a := nextTube;
      var t := new TubeObject(a, name);
      tubeAt := tubeAt[a := t];
      tubeList := tubeList + [a];
      nextTube := a + 1;
      Repr := Repr + {t, t.ready, t.delayed, t.ready.data, t.delayed.data};
      model := MakeTube(model, name);
    }

    /** tube_make_and_insert. */
    method AddTube(name: string) returns (a: TubeId)
      requires Rep() && model.nextTube !in model.tubes
      modifies Repr
      ensures Rep() && Grows() && a == old(model).nextTube && model == MakeTube(old(model), name)
    {
      hide Rep, Linked, Heaps, TubeObject.Pristine, TubeObject.Value, MakeTube, GlobalsOf, FieldsAgree, NewTube;
      Keys();
      Owned();
      MakeTubeFacts(model, name);
      a := AddTubeEntry(name);
      TubeAdded(a);
    }

    method DropTubeEntry(a: TubeId)
      requires FieldsAgree()
      modifies this`tubeAt, this`tubeList, this`model
      ensures tubeAt == old(tubeAt) - {a} && FieldsAgree() && model == FreeTube(old(model), a)
    {
      hide SwapRemove, FreeTube, GlobalsOf;
      FreeTubeFacts(model, a);
      tubeAt := tubeAt - {a};
      tubeList := SwapRemove(tubeList, a);
      model := FreeTube(model, a);
    }

    twostate lemma TubeGone(a: TubeId)
      requires old(Rep() && Linked() && SameKeys() && a in tubeAt && EmptyHeaps(tubeAt[a])) && Untouched() && FieldsAgree()
      requires tubeAt == old(tubeAt) - {a} && allJobs == old(allJobs) && connAt == old(connAt) && Repr == old(Repr)
      requires model == FreeTube(old(model), a)
      ensures Rep()
    {
      hide Rep, Heap.Valid, FieldsAgree, Untouched;
      Renewed();
    }

    /** tube_free_and_remove of a tube without ready or delayed jobs. */
    method RemoveTube(a: TubeId)
      requires Rep() && a in model.tubes && model.tubes[a].ready == {} && model.tubes[a].delayed == {}
      modifies Repr
      ensures Rep() && Grows() && model == FreeTube(old(model), a)
    {
      hide Rep, Linked, Heaps, EmptyHeaps, SwapRemove, FreeTube, GlobalsOf, FieldsAgree, SameKeys;
      Keys();
      Owned();
      NoItems(a);
      DropTubeEntry(a);
      TubeGone(a);
    }

    lemma NoIds(s: set<JobObject>)
      requires Ids(s) == {}
      ensures s == {}
    {
      assert forall j :: j in s ==> j.id in Ids(s);
    }

    lemma NoItems(a: TubeId)
      requires Rep() && a in model.tubes && model.tubes[a].ready == {} && model.tubes[a].delayed == {}
      ensures a in tubeAt && EmptyHeaps(tubeAt[a])
    {
      Keys();
      TubeIs(a);
      hide Rep, Linked, Heaps;
      NoIds(tubeAt[a].ready.items);
      NoIds(tubeAt[a].delayed.items);
    }

    twostate lemma ConnAdded(a: ConnId)
      requires old(Rep() && Linked() && SameKeys()) && Untouched() && FieldsAgree() && a !in old(connAt)
      requires a in connAt && connAt == old(connAt)[a := connAt[a]] && allJobs == old(allJobs) && tubeAt == old(tubeAt)
      requires fresh(connAt[a]) && connAt[a].addr == a && Repr == old(Repr) + {connAt[a]}
      requires model.conns == old(model.conns)[a := connAt[a].rec]
      requires model.tubes == old(model.tubes) && model.jobs == old(model.jobs)
      ensures Rep()
    {
      hide Rep, Heap.Valid, FieldsAgree, Untouched;
      Renewed();
    }

    /** conn_create. */
    method AddConn(rec: Conn) returns (a: ConnId)
      requires Rep() && model.nextConn !in model.conns
      modifies Repr
      ensures Rep() && Grows() && a == old(model).nextConn && model == PutConn(old(model), a, rec).(nextConn := a + 1)
    {
      hide Rep, Linked, Heaps, FieldsAgree, PutConn;
      Keys();
      Owned();
      NewConnFacts(model, rec);
      a := AddConnEntry(rec);
      ConnAdded(a);
    }

    method AddConnEntry(rec: Conn) returns (a: ConnId)
      requires FieldsAgree()
      modifies this`connAt, this`nextConn, this`Repr, this`model
      ensures a == old(model).nextConn && a in connAt && connAt == old(connAt)[a := connAt[a]]
      ensures fresh(connAt[a]) && connAt[a].addr == a && connAt[a].rec == rec && Repr == old(Repr) + {connAt[a]}
      ensures FieldsAgree() && model == PutConn(old(model), a, rec).(nextConn := a + 1)
    {
      hide PutConn, GlobalsOf;
      NewConnFacts(model, rec);
      a := nextConn;
      var c := new ConnObject(a, rec);
      connAt := connAt[a := c];
      nextConn := a + 1;
      Repr := Repr + {c};
      model := PutConn(model, a, rec).(nextConn := a + 1);
    }

    method DropConnEntry(a: ConnId)
      requires FieldsAgree()
      modifies this`connAt, this`model
      ensures connAt == old(connAt) - {a} && FieldsAgree() && model == old(model).(conns := old(model).conns - {a})
    {
      connAt := connAt - {a};
      model := model.(conns := model.conns - {a});
    }

    twostate lemma ConnGone(a: ConnId)
      requires old(Rep() && Linked() && SameKeys() && a in connAt) && Untouched() && FieldsAgree()
      requires allJobs == old(allJobs) && tubeAt == old(tubeAt) && connAt == old(connAt) - {a} && Repr == old(Repr)
      requires model.jobs == old(model.jobs) && model.tubes == old(model.tubes) && model.conns == old(model.conns) - {a}
      ensures Rep()
    {
      hide Rep, Heap.Valid, FieldsAgree, Untouched;
      Renewed();
    }

    /** free(c). */
    method RemoveConn(a: ConnId)
      requires Rep() && a in model.conns
      modifies Repr
      ensures Rep() && Grows() && model == old(model).(conns := old(model).conns - {a})
    {
      hide Rep, Linked, Heaps, FieldsAgree;
      Keys();
      Owned();
      DropConnEntry(a);
      ConnGone(a);
    }

    /** Global statistics and modes. */
    method SetStats(jobs: int, timeouts: int, draining: bool)
      requires Rep()
      modifies Repr
      ensures Rep() && Grows() && model == old(model).(totalJobs := jobs, timeoutCnt := timeouts, drain := draining)
    {
      hide Rep, Linked, Heaps, Homes, SameKeys;
      Keys();
      Owned();
      totalJobs, timeoutCnt, drain := jobs, timeouts, draining;
      model := model.(totalJobs := jobs, timeoutCnt := timeouts, drain := draining);
      FieldsStored();
    }

    // ----- what the model tells about the objects -----

    /** A job the model has in a heap sits there. */
    lemma Sits(t: TubeId, order: Order, j: JobId)
      requires Rep() && InHeapOf(model, t, order, j)
      ensures t in tubeAt && j in allJobs && allJobs[j].id == j && allJobs[j] in HeapAt(t, order).items
    {
      Keys();
      TubeIs(t);
      var h := HeapAt(t, order);
      assert HeapOk(h, order, t);
      assert j in Ids(h.items);
    }

    lemma HeapKnown(j: JobId)
      requires Rep() && j in allJobs
      ensures allJobs[j].heap != null ==> InHeapOf(model, allJobs[j].heap.home, allJobs[j].heap.order, j)
    {
      Keys();
      var x := allJobs[j];
      assert Homed(x);
      if x.heap != null {
        TubeIs(x.heap.home);
        assert x in HeapAt(x.heap.home, x.heap.order).items && j in Ids(HeapAt(x.heap.home, x.heap.order).items);
      }
    }

    /** A job the model has in no heap is in none. */
    lemma Loose(j: JobId)
      requires Rep() && j in model.jobs && NoHeap(model, j)
      ensures j in allJobs && allJobs[j].id == j && allJobs[j].heap == null
    {
      Keys();
      HeapKnown(j);
      hide Rep;
    }

    // ----- the server by name: what the operations of conn.c use -----

    twostate predicate Grows()
      reads this`Repr
    {
      old(Repr) <= Repr && forall o :: o in Repr && o !in old(Repr) ==> fresh(o)
    }

    /** job_find. */
    predicate HasJob(j: JobId)
      requires Rep()
      reads this, Repr
      ensures HasJob(j) <==> j in model.jobs
    {
      j in allJobs
    }

    function JobRec(j: JobId): (x: Job)
      requires Rep() && j in model.jobs
      reads this, Repr
      ensures x == model.jobs[j]
    {
      allJobs[j].rec
    }

    /** The record of a tube; its heaps are reached through HeapSize and HeapRoot. */
    function TubeRec(t: TubeId): (x: Tube)
      requires Rep() && t in model.tubes
      reads this, Repr
      ensures model.tubes[t] == x.(ready := model.tubes[t].ready, delayed := model.tubes[t].delayed)
    {
      tubeAt[t].rec
    }

    function ConnRec(c: ConnId): (x: Conn)
      requires Rep() && c in model.conns
      reads this, Repr
      ensures x == model.conns[c]
    {
      connAt[c].rec
    }

    /** The fields of the server itself. */
    function Own(): (g: Globals)
      requires Rep()
      reads this, Repr
      ensures g == GlobalsOf(model)
    {
      Fields()
    }

    /** The items of the global tube set. */
    function Tubes(): (list: seq<TubeId>)
      requires Rep()
      reads this, Repr
      ensures list == model.tubeList
    {
      tubeList
    }

    method SetJob(j: JobId, x: Job)
      requires Rep() && j in model.jobs
      requires NoHeap(model, j) || (x.pri == model.jobs[j].pri && x.deadline == model.jobs[j].deadline)
      modifies Repr
      ensures Rep() && Grows() && model == PutJob(old(model), j, x)
    {
      hide Rep, NoHeap, PutJob, Linked, Heaps, FieldsAgree;
      Keys();
      JobIs(j);
      if NoHeap(model, j) { Loose(j); }
      Owned();
      StoreJob(allJobs[j], x);
    }

    method SetTube(t: TubeId, x: Tube)
      requires Rep() && t in model.tubes
      modifies Repr
      ensures Rep() && Grows()
      ensures var was := old(model).tubes[t];
              model == PutTube(old(model), t, x.(ready := was.ready, delayed := was.delayed))
    {
      hide Rep, PutTube, Linked, Heaps, FieldsAgree;
      Keys();
      TubeIs(t);
      Owned();
      StoreTube(tubeAt[t], x);
    }

    method SetConn(c: ConnId, x: Conn)
      requires Rep() && c in model.conns
      modifies Repr
      ensures Rep() && Grows() && model == PutConn(old(model), c, x)
    {
      hide Rep, PutConn, Linked, Heaps, FieldsAgree;
      Keys();
      ConnIs(c);
      Owned();
      StoreConn(connAt[c], x);
    }

    lemma Owned()
      requires Rep()
      ensures this in Repr && allJobs.Values <= Repr && tubeAt.Values <= Repr && connAt.Values <= Repr
    {}

    /** Take job j out of the heap it sits in. */
    method TakeFromHeap(t: TubeId, order: Order, j: JobId)
      requires Rep() && InHeapOf(model, t, order, j)
      modifies Repr
      ensures Rep() && Grows()
      ensures var x := old(model).tubes[t];
              model == PutTube(old(model), t, if order.ByPri? then x.(ready := x.ready - {j}) else x.(delayed := x.delayed - {j}))
    {
      hide Rep, PutTube, Linked;
      Sits(t, order, j);
      HeapRemove(t, order, allJobs[j]);
    }

    /** Put job j, which is in no heap, into one. */
    method AddToHeap(t: TubeId, order: Order, j: JobId)
      requires Rep() && t in model.tubes && j in model.jobs && NoHeap(model, j)
      modifies Repr
      ensures Rep() && Grows()
      ensures var x := old(model).tubes[t];
              model == PutTube(old(model), t, if order.ByPri? then x.(ready := x.ready + {j}) else x.(delayed := x.delayed + {j}))
    {
      hide Rep, NoHeap, PutTube, Linked;
      Keys();
      Loose(j);
      HeapInsert(t, order, allJobs[j]);
    }

    /** The job at the root of a heap. */
    function HeapRoot(t: TubeId, order: Order): (j: JobId)
      requires Rep() && t in model.tubes && HeapSize(t, order) > 0
      reads this, Repr
    {
      assert t in tubeAt && HeapOk(HeapAt(t, order), order, t);
      HeapAt(t, order).data[0].id
    }

    function HeapSize(t: TubeId, order: Order): (n: nat)
      requires Rep() && t in model.tubes
      reads this, Repr
    {
      assert t in tubeAt && HeapOk(HeapAt(t, order), order, t);
      HeapAt(t, order).len
    }

    /** The root is the least job of the heap in the order of the job records. */
    lemma RootIsTop(t: TubeId, order: Order)
      requires Rep() && t in model.tubes
      ensures HeapSet(model, t, order) <= model.jobs.Keys
      ensures HeapSize(t, order) == 0 <==> HeapSet(model, t, order) == {}
      ensures HeapSize(t, order) > 0 ==>
                && IsTop(model.jobs, KeyOf(order), HeapSet(model, t, order), HeapRoot(t, order))
                && forall k :: k in HeapSet(model, t, order) && k != HeapRoot(t, order) ==>
                     if order.ByPri? then MoreUrgent(model.jobs, HeapRoot(t, order), k) else DueEarlier(model.jobs, HeapRoot(t, order), k)
    {
      Keys();
      TubeIs(t);
      var h := HeapAt(t, order);
      assert HeapOk(h, order, t) && HeapSet(model, t, order) == Ids(h.items);
      h.Root();
      forall j | j in h.items ensures j.id in model.jobs && model.jobs[j.id] == j.rec { JobIs(j.id); }
      hide Rep, Heap.Valid;
      if h.len > 0 {
        var root := h.data[0];
        assert root.id in Ids(h.items);
        forall k | k in Ids(h.items) && k != root.id
          ensures Less(model.jobs, KeyOf(order), root.id, k)
          ensures if order.ByPri? then MoreUrgent(model.jobs, root.id, k) else DueEarlier(model.jobs, root.id, k)
        {
          var j :| j in h.items && j.id == k;
          assert GoesBefore(order, root, j);
          LessIs(model.jobs, root.id, k);
        }
      } else {
        assert Ids(h.items) == {};
      }
    }
  }
}
