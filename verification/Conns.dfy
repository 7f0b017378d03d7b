/** Connections come (conn_accept) and go (conn_free). */
module Conns {
  import opened Counting
  import opened Lists
  import opened State
  import opened Moves
  import opened JobMoves
  import opened Queue
  import opened Steps
  import opened JobCommands
  import opened Waiting
  import opened Tubes

  // ----- conn_accept -----

  /** conn_create with the default tube to use and to watch. */
  ghost function Accept(s: State): State
    requires s.defaultTube in s.tubes
  {
    var t := s.defaultTube;
    var x := s.tubes[t];
    PutTube(s, t, x.(refs := x.refs + 2, usingCnt := x.usingCnt + 1, watchingCnt := x.watchingCnt + 1))
      .(conns := s.conns[s.nextConn := Conn(WantCommand, false, t, [t], [], None, None, NoJob, -1, Silent)],
        nextConn := s.nextConn + 1)
  }

  lemma AcceptShape(s: State)
    requires Shape(s)
    ensures s.nextConn !in s.conns && Shape(Accept(s))
  {
    hide NoDup;
    assert NoDup([s.defaultTube]) by { OneItem(s.defaultTube); }
  }

  lemma OneItem(t: TubeId)
    ensures NoDup([t])
  {}

  lemma AcceptOwn(s: State)
    requires Own(s.jobs, s) && s.nextConn !in s.conns && s.defaultTube in s.tubes
    ensures Own(s.jobs, Accept(s))
  {
    hide TubesOwn, Incoming;
    var s2 := Accept(s);
    TubesOwnFrame(s.jobs, s.jobs, s.tubes, s2.tubes);
    assert Incoming(s.jobs, s2.conns) by { AcceptIncoming(s.jobs, s.conns, s.nextConn, s2.conns[s.nextConn]); }
    assert forall j :: !Held(s.jobs, j, s.nextConn);
  }

  lemma AcceptIncoming(live: map<JobId, Job>, conns: map<ConnId, Conn>, c: ConnId, k: Conn)
    requires Incoming(live, conns) && c !in conns && k.inJob == None
    ensures Incoming(live, conns[c := k])
  {
    var conns2 := conns[c := k];
    forall j | j in live && live[j].state == Invalid ensures exists e :: e in conns2 && conns2[e].inJob == Some(j) {
      var e :| e in conns && conns[e].inJob == Some(j);
      assert conns2[e].inJob == Some(j);
    }
  }

  lemma AcceptRefs(s: State)
    requires Refs(s) && s.nextConn !in s.conns && s.defaultTube in s.tubes
    ensures Refs(Accept(s))
  {
    var s2 := Accept(s);
    forall t | t in s2.tubes ensures TubeRefs(s2, t, s2.tubes[t]) {
      assert TubeRefs(s, t, s.tubes[t]);
      CountPut(s.conns, s.nextConn, s2.conns[s.nextConn], Uses(t));
      CountPut(s.conns, s.nextConn, s2.conns[s.nextConn], Watches(t));
    }
  }

  lemma AcceptRest(s: State)
    requires s.nextConn !in s.conns && s.defaultTube in s.tubes
    requires Counts(s.jobs, s, Nothing) && Phases(s.jobs, s, Nothing) && Memo(s, Nothing)
    ensures var s2 := Accept(s); Counts(s2.jobs, s2, Nothing) && Phases(s2.jobs, s2, Nothing) && Memo(s2, Nothing)
  {
    hide Count;
  }

  lemma AcceptWaits(s: State)
    requires Waits(s) && s.nextConn !in s.conns && s.defaultTube in s.tubes
    ensures Waits(Accept(s))
  {
    var s2 := Accept(s);
    CountPut(s.conns, s.nextConn, s2.conns[s.nextConn], IsWaiting());
    forall t | t in s2.tubes ensures forall e :: e in s2.tubes[t].waiting.items <==> WaitsOn(s2.conns, e, t) {
      forall e ensures WaitsOn(s2.conns, e, t) <==> WaitsOn(s.conns, e, t) {}
    }
  }

  lemma DefaultExists(s: State)
    requires Inv(s)
    ensures s.defaultTube in s.tubes && s.nextConn !in s.conns
  {
    hide Own, Waits, Phases, Counts, Memo, Refs, NoLostWakeup;
  }

  lemma AcceptTubes(s: State)
    requires s.defaultTube in s.tubes
    ensures Accept(s).jobs == s.jobs && (NoLostWakeup(s) ==> NoLostWakeup(Accept(s)))
  {}

  lemma AcceptInv(s: State)
    requires Inv(s)
    ensures s.defaultTube in s.tubes && Inv(Accept(s))
  {
    hide *;
    DefaultExists(s);
    var s2 := Accept(s);
    AcceptTubes(s);
    InvParts(s);
    InvParts(s2);
    MidParts(s, s.jobs, Nothing);
    MidParts(s2, s2.jobs, Nothing);
    AcceptShape(s);
    AcceptOwn(s);
    AcceptRefs(s);
    AcceptRest(s);
    AcceptWaits(s);
  }

  // ----- conn_free: the job being read, the job being sent, the waiting sets -----

  /** The connection owns no half-read and no half-sent job and waits nowhere. */
  ghost function LetGo(s: State, c: ConnId): State
    requires c in s.conns
  {
    var s1 := if s.conns[c].inJob.Some? then FreeJob(DropIncoming(s, c), s.conns[c].inJob.value) else s;
    RemoveWaiting(PutConn(s1, c, s1.conns[c].(out := NoJob)), c)
  }

  lemma LetGoReading(s: State, c: ConnId)
    requires Mid(s, s.jobs, Nothing) && c in s.conns && s.conns[c].inJob.Some?
    ensures var j := s.conns[c].inJob.value; j in s.jobs && LetGo(s, c) == FreeJob(DropIncoming(s, c), j)
    ensures Mid(LetGo(s, c), LetGo(s, c).jobs, Loose(c, None))
  {
    hide Mid, Shape, Own, Waits, Phases, Counts, Memo, Refs;
    var j := s.conns[c].inJob.value;
    MidParts(s, s.jobs, Nothing);
    ConnFacts(s, c);
    LeaveIncomingMid(s, c, j);
    FreeMid(DropIncoming(s, c), j, Loose(c, None));
    var s1 := FreeJob(DropIncoming(s, c), j);
    assert s1.conns[c].(out := NoJob) == s1.conns[c];
    assert PutConn(s1, c, s1.conns[c]) == s1;
  }

  lemma LetGoWaiting(s: State, c: ConnId)
    requires Mid(s, s.jobs, Nothing) && c in s.conns && s.conns[c].inJob == None && s.conns[c].waiting
    ensures Mid(LetGo(s, c), LetGo(s, c).jobs, Loose(c, None)) && LetGo(s, c) == RemoveWaiting(s, c)
  {
    hide Mid, Shape, Own, Waits, Phases, Counts, Memo, Refs;
    MidParts(s, s.jobs, Nothing);
    ConnFacts(s, c);
    assert s.conns[c].(out := NoJob) == s.conns[c];
    assert PutConn(s, c, s.conns[c]) == s;
    LeaveWaits(s, c);
    RemoveWaitingOnly(s, c);
    hide RemoveWaiting, OnlyWaiting;
    RemoveWaitingConn(s, c);
    OnlyWaitingMid(s, c, RemoveWaiting(s, c), Loose(c, None));
  }

  lemma RemoveWaitingOnly(s: State, c: ConnId)
    requires c in s.conns && s.conns[c].waiting
    ensures OnlyWaiting(s, c, RemoveWaiting(s, c))
  {}

  lemma RemoveWaitingConn(s: State, c: ConnId)
    requires c in s.conns
    ensures RemoveWaiting(s, c).conns == s.conns[c := s.conns[c].(waiting := false)] && RemoveWaiting(s, c).jobs == s.jobs
    ensures RemoveWaiting(s, c).tubes.Keys == s.tubes.Keys
  {
    assert !s.conns[c].waiting ==> s.conns[c].(waiting := false) == s.conns[c];
  }

  lemma LoosenRest(s: State, c: ConnId, k: Conn)
    requires c in s.conns && k == s.conns[c].(out := NoJob) && k.inJob == None && !k.waiting
    requires Phases(s.jobs, s, Nothing) && Memo(s, Nothing)
    ensures Phases(s.jobs, PutConn(s, c, k), Loose(c, None)) && Memo(PutConn(s, c, k), Loose(c, None))
  {}

  lemma LetGoOther(s: State, c: ConnId)
    requires Mid(s, s.jobs, Nothing) && c in s.conns && s.conns[c].inJob == None && !s.conns[c].waiting
    ensures LetGo(s, c) == PutConn(s, c, s.conns[c].(out := NoJob))
    ensures Mid(LetGo(s, c), LetGo(s, c).jobs, Loose(c, None))
  {
    hide Mid;
    var k := s.conns[c].(out := NoJob);
    var s2 := PutConn(s, c, k);
    assert NothingOwed(Nothing) && NothingOwed(Loose(c, None)) && s2.jobs == s.jobs;
    hide *;
    MidParts(s, s.jobs, Nothing);
    MidParts(s2, s.jobs, Loose(c, None));
    PutConnFrame(s, c, k);
    FrameShape(s, s2);
    FrameWaits(s, s2);
    FrameRefs(s, s2);
    PutConnOwn(s, c, k);
    PutConnCounts(s, c, k, Nothing);
    CountsSlack(s.jobs, s2, Nothing, Loose(c, None));
    LoosenRest(s, c, k);
    LetGoIsPut(s, c);
  }

  lemma LetGoIsPut(s: State, c: ConnId)
    requires c in s.conns && s.conns[c].inJob == None && !s.conns[c].waiting
    ensures LetGo(s, c) == PutConn(s, c, s.conns[c].(out := NoJob))
  {}

  /** The job that dies with a connection: one whose body was still being read. */
  ghost function Lost(s: State, c: ConnId): set<JobId>
    requires c in s.conns
  {
    if s.conns[c].inJob.Some? then {s.conns[c].inJob.value} else {}
  }

  lemma LetGoMid(s: State, c: ConnId)
    requires Inv(s) && c in s.conns
    ensures Mid(LetGo(s, c), LetGo(s, c).jobs, Loose(c, None)) && NoLostWakeup(LetGo(s, c))
    ensures LetGo(s, c).jobs == s.jobs - Lost(s, c) && c in LetGo(s, c).conns
    ensures LetGo(s, c).conns == s.conns[c := LetGo(s, c).conns[c]]
    ensures LetGo(s, c).conns[c].reserved == s.conns[c].reserved && LetGo(s, c).conns[c].watch == s.conns[c].watch
    ensures LetGo(s, c).conns[c].use == s.conns[c].use && !LetGo(s, c).conns[c].waiting
  {
    hide Inv, Mid, LetGo, NoLostWakeup;
    InvParts(s);
    if s.conns[c].inJob.Some? {
      LetGoReading(s, c);
      SameTubesNoLostWakeup(s, LetGo(s, c));
      ReadingIdle(s, c);
    } else if s.conns[c].waiting {
      LetGoWaiting(s, c);
      RemoveWaitingConn(s, c);
      RemoveWaitingNoLost(s, c);
    } else {
      LetGoOther(s, c);
      SameTubesNoLostWakeup(s, LetGo(s, c));
    }
  }

  lemma ReadingIdle(s: State, c: ConnId)
    requires Mid(s, s.jobs, Nothing) && c in s.conns && s.conns[c].inJob.Some?
    ensures !s.conns[c].waiting
  {
    hide Mid, Shape, Own, Waits, Phases, Counts, Memo, Refs;
    MidParts(s, s.jobs, Nothing);
    ConnFacts(s, c);
  }

  // ----- enqueue_reserved_jobs -----

  ghost function PopReserved(s: State, c: ConnId): State
    requires c in s.conns && s.conns[c].reserved != []
  {
    PutConn(s, c, s.conns[c].(reserved := s.conns[c].reserved[1..]))
  }

  /** The late half of removing a reservation: counters and memo, after the queue ran. */
  ghost function PayDebt(s: State, c: ConnId, t: TubeId): State
    requires c in s.conns && t in s.tubes
  {
    PutTube(PutConn(s, c, s.conns[c].(soonest := None)), t, s.tubes[t].(reservedCnt := s.tubes[t].reservedCnt - 1))
      .(reservedCnt := s.reservedCnt - 1)
  }

  lemma PopOwn(s: State, c: ConnId, j: JobId)
    requires ConnsOwn(s.jobs, s.conns) && c in s.conns && s.conns[c].reserved != [] && j == s.conns[c].reserved[0]
    ensures Held(s.jobs, j, c) && ConnsOwn(s.jobs - {j}, PopReserved(s, c).conns)
  {
    var r := s.conns[c].reserved;
    assert r == [j] + r[1..] && j in r;
    LiveWithout(s.jobs, j);
    assert NoDup(r[1..]) && forall k :: k in r[1..] <==> k in r && k != j;
    hide NoDup;
  }

  lemma PopTubes(s: State, c: ConnId, j: JobId)
    requires TubesOwn(s.jobs, s.tubes) && Incoming(s.jobs, s.conns) && Held(s.jobs, j, c) && c in s.conns && s.conns[c].reserved != []
    ensures TubesOwn(s.jobs - {j}, s.tubes) && Incoming(s.jobs - {j}, PopReserved(s, c).conns)
  {
    LiveWithout(s.jobs, j);
    IncomingFrame(s.jobs, s.jobs - {j}, s.conns, PopReserved(s, c).conns);
    hide Incoming;
  }

  /** Owing one reservation and having paid it are the same claim about different counters. */
  lemma PayCounts(live: map<JobId, Job>, s: State, c: ConnId, t: TubeId)
    requires c in s.conns && t in s.tubes
    ensures Counts(live, s, Loose(c, Some(t))) <==> Counts(live, PayDebt(s, c, t), Loose(c, None))
  {
    hide Count;
    var s2 := PayDebt(s, c, t);
    forall u | u in s2.tubes
      ensures TubeCounts(live, u, s2.tubes[u], Loose(c, None)) <==> TubeCounts(live, u, s.tubes[u], Loose(c, Some(t)))
    {}
    hide TubeCounts;
  }

  lemma PopCounts(s: State, c: ConnId, j: JobId)
    requires Known(s, j) && s.jobs[j].state == Reserved && Counts(s.jobs, s, Loose(c, None))
    requires c in s.conns && s.conns[c].reserved != []
    ensures Counts(s.jobs - {j}, PopReserved(s, c), Loose(c, Some(s.jobs[j].tube)))
  {
    var t := s.jobs[j].tube;
    PayIsDrop(s, c, j);
    hide Counts, Drop, PayDebt;
    CountsDrop(s.jobs, j, s, PayDebt(s, c, t), Loose(c, None));
    PayCounts(s.jobs - {j}, s, c, t);
    PutConnLive(s.jobs - {j}, s, c, PopReserved(s, c).conns[c], Loose(c, Some(t)));
  }

  lemma PayIsDrop(s: State, c: ConnId, j: JobId)
    requires Known(s, j) && s.jobs[j].state == Reserved && c in s.conns
    ensures Drop(s.jobs[j], s, PayDebt(s, c, s.jobs[j].tube))
  {}

  lemma PutConnLive(live: map<JobId, Job>, s: State, c: ConnId, k: Conn, d: Slack)
    requires Counts(live, s, d)
    ensures Counts(live, PutConn(s, c, k), d)
  {
    hide Count;
  }

  lemma PopRest(s: State, c: ConnId, j: JobId, t: TubeId)
    requires c in s.conns && s.conns[c].reserved != [] && Held(s.jobs, j, c)
    requires Phases(s.jobs, s, Loose(c, None)) && Memo(s, Loose(c, None))
    ensures Phases(s.jobs - {j}, PopReserved(s, c), Loose(c, Some(t))) && Memo(PopReserved(s, c), Loose(c, Some(t)))
    ensures SameLinks(s, PopReserved(s, c)) && SameWaiting(s, PopReserved(s, c))
  {
    LiveWithout(s.jobs, j);
  }

  lemma PopMid(s: State, c: ConnId)
    requires Mid(s, s.jobs, Loose(c, None)) && c in s.conns && s.conns[c].reserved != []
    ensures var j := s.conns[c].reserved[0];
            && Known(s, j) && Held(s.jobs, j, c)
            && Mid(PopReserved(s, c), s.jobs - {j}, Loose(c, Some(s.jobs[j].tube)))
            && InFlight(PopReserved(s, c), j)
  {
    hide Mid, InFlight;
    var j, s2 := s.conns[c].reserved[0], PopReserved(s, c);
    SettledBy(s, Loose(c, None));
    SettledKnows(s);
    assert j in s.conns[c].reserved;
    var t := s.jobs[j].tube;
    hide Settled, Shape, Own, TubesOwn, ConnsOwn, Incoming, Waits, Phases, Counts, Memo, Refs;
    MidParts(s, s.jobs, Loose(c, None));
    OwnParts(s.jobs, s);
    PopOwn(s, c, j);
    PopTubes(s, c, j);
    OwnParts(s.jobs - {j}, s2);
    PopCounts(s, c, j);
    PopRest(s, c, j, t);
    FrameShape(s, s2);
    FrameWaits(s, s2);
    FrameRefs(s, s2);
    MidParts(s2, s.jobs - {j}, Loose(c, Some(t)));
    InFlightBy(s2, j, Loose(c, Some(t)));
  }

  lemma PayFrame(s: State, c: ConnId, t: TubeId)
    requires c in s.conns && t in s.tubes
    ensures SameLinks(s, PayDebt(s, c, t)) && SameWaiting(s, PayDebt(s, c, t))
    ensures Phases(s.jobs, s, Loose(c, Some(t))) ==> Phases(s.jobs, PayDebt(s, c, t), Loose(c, None))
    ensures Memo(s, Loose(c, Some(t))) ==> Memo(PayDebt(s, c, t), Loose(c, None))
  {}

  lemma PayOwn(s: State, c: ConnId, t: TubeId)
    requires c in s.conns && t in s.tubes && Own(s.jobs, s)
    ensures Own(s.jobs, PayDebt(s, c, t))
  {
    hide TubesOwn, ConnsOwn, Incoming;
    var s2 := PayDebt(s, c, t);
    TubesOwnFrame(s.jobs, s.jobs, s.tubes, s2.tubes);
    ConnsOwnFrame(s.jobs, s.jobs, s.conns, s2.conns);
    IncomingFrame(s.jobs, s.jobs, s.conns, s2.conns);
  }

  lemma PayMid(s: State, c: ConnId, t: TubeId)
    requires Mid(s, s.jobs, Loose(c, Some(t))) && c in s.conns && t in s.tubes
    ensures Mid(PayDebt(s, c, t), PayDebt(s, c, t).jobs, Loose(c, None))
  {
    hide Mid;
    var s2 := PayDebt(s, c, t);
    assert s2.jobs == s.jobs;
    hide *;
    MidParts(s, s.jobs, Loose(c, Some(t)));
    PayFrame(s, c, t);
    FrameShape(s, s2);
    FrameWaits(s, s2);
    FrameRefs(s, s2);
    PayOwn(s, c, t);
    PayCounts(s.jobs, s, c, t);
    MidParts(s2, s.jobs, Loose(c, None));
  }

  /** One round of enqueue_reserved_jobs. */
  ghost function ReturnOne(s: State, c: ConnId, clock: Clock): (r: State)
    requires Mid(s, s.jobs, Loose(c, None)) && c in s.conns && s.conns[c].reserved != []
    ensures Mid(r, r.jobs, Loose(c, None)) && NoLostWakeup(r) && SameKeys(s, r)
    ensures r.conns[c] == s.conns[c].(reserved := s.conns[c].reserved[1..], soonest := None)
  {
    hide Mid, InFlight, PayDebt, Enqueue, NoLostWakeup;
    ReturnOneOk(s, c, clock);
    var j := s.conns[c].reserved[0];
    PayDebt(Enqueue(PopReserved(s, c), j, 0, clock), c, s.jobs[j].tube)
  }

  lemma ReturnOneOk(s: State, c: ConnId, clock: Clock)
    requires Mid(s, s.jobs, Loose(c, None)) && c in s.conns && s.conns[c].reserved != []
    ensures var j := s.conns[c].reserved[0];
            && Known(s, j) && Held(s.jobs, j, c) && InFlight(PopReserved(s, c), j)
            && Served(Insert(PopReserved(s, c), j, 0, clock), Enqueue(PopReserved(s, c), j, 0, clock))
            && !s.conns[c].waiting
            && var s2 := Enqueue(PopReserved(s, c), j, 0, clock);
               && s2.conns[c] == s.conns[c].(reserved := s.conns[c].reserved[1..])
               && SameKeys(s, s2)
               && var r := PayDebt(s2, c, s.jobs[j].tube);
                  && Mid(r, r.jobs, Loose(c, None)) && NoLostWakeup(r) && SameKeys(s, r)
                  && r.conns[c] == s.conns[c].(reserved := s.conns[c].reserved[1..], soonest := None)
  {
    hide Mid, InFlight, PayDebt, Enqueue, NoLostWakeup, Served, Insert;
    var j := s.conns[c].reserved[0];
    PopMid(s, c);
    var t := s.jobs[j].tube;
    LooseIdle(s, c);
    var s1 := PopReserved(s, c);
    EnqueueMid(s1, j, 0, clock, Loose(c, Some(t)));
    InFlightInsert(s1, j, 0, clock);
    var s2 := Enqueue(s1, j, 0, clock);
    ServedConn(Insert(s1, j, 0, clock), s2, c);
    PayMid(s2, c, t);
    PayEffect(s2, c, t);
    SameReadyNoLostWakeup(s2, PayDebt(s2, c, t));
  }

  lemma LooseIdle(s: State, c: ConnId)
    requires Mid(s, s.jobs, Loose(c, None)) && c in s.conns
    ensures !s.conns[c].waiting && s.conns[c].inJob == None && s.conns[c].out == NoJob
  {
    hide Shape, Own, Waits, Counts, Memo, Refs, ConnOk;
  }

  lemma PayEffect(s: State, c: ConnId, t: TubeId)
    requires c in s.conns && t in s.tubes
    ensures var s2 := PayDebt(s, c, t);
            && s2.jobs == s.jobs && SameKeys(s, s2) && s2.conns == s.conns[c := s.conns[c].(soonest := None)]
            && (forall u :: u in s.tubes ==> s2.tubes[u] == s.tubes[u].(reservedCnt := s2.tubes[u].reservedCnt))
  {}

  /** enqueue_reserved_jobs. */
  ghost function ReturnAll(s: State, c: ConnId, clock: Clock): State
    requires Mid(s, s.jobs, Loose(c, None)) && c in s.conns
    decreases |s.conns[c].reserved|
  {
    hide Mid, ReturnOne, NoLostWakeup;
    if s.conns[c].reserved == [] then s else ReturnAll(ReturnOne(s, c, clock), c, clock)
  }

  // ----- what happens to the jobs of a closing connection -----

  /** A job that was reserved is ready again, or another connection that waited on its tube has it. */
  ghost predicate JobReturned(s: State, c: ConnId, x: Job, y: Job) {
    && x.state == Reserved && x.reserver == Some(c)
    && y.tube == x.tube && y.pri == x.pri && y.ttr == x.ttr
    && ((y.state == Ready && y.reserver == None)
        || (y.state == Reserved && y.reserver.Some? && WaitsOn(s.conns, y.reserver.value, x.tube)))
  }

  /** Exactly the jobs `moved` were returned by c; every other job at most was handed out. */
  ghost predicate Returned(s: State, c: ConnId, moved: set<JobId>, s2: State) {
    && SameKeys(s, s2) && moved <= s.jobs.Keys && c in s.conns && !s.conns[c].waiting
    && (forall j :: j in s.jobs && j !in moved ==> JobServed(s, s.jobs[j], s2.jobs[j]))
    && (forall j :: j in moved ==> JobReturned(s, c, s.jobs[j], s2.jobs[j]))
    && (forall e :: e in s.conns && e != c ==> ConnServed(s.conns[e], s2.conns[e]))
    && !s2.conns[c].waiting
  }

  lemma ReturnedTrans(a: State, k: ConnId, m: set<JobId>, b: State, n: set<JobId>, c: State)
    requires Returned(a, k, m, b) && Returned(b, k, n, c) && m !! n
    ensures Returned(a, k, m + n, c)
  {
    forall e, t | WaitsOn(b.conns, e, t) ensures WaitsOn(a.conns, e, t) {
      assert e != k && ConnServed(a.conns[e], b.conns[e]);
    }
    forall j | j in a.jobs && j !in m + n ensures JobServed(a, a.jobs[j], c.jobs[j]) {
      assert JobServed(a, a.jobs[j], b.jobs[j]) && JobServed(b, b.jobs[j], c.jobs[j]);
    }
    forall j | j in m + n ensures JobReturned(a, k, a.jobs[j], c.jobs[j]) {
      if j in m {
        assert JobReturned(a, k, a.jobs[j], b.jobs[j]) && JobServed(b, b.jobs[j], c.jobs[j]);
      } else {
        assert JobServed(a, a.jobs[j], b.jobs[j]) && JobReturned(b, k, b.jobs[j], c.jobs[j]);
      }
    }
    forall e | e in a.conns && e != k ensures ConnServed(a.conns[e], c.conns[e]) {
      assert ConnServed(a.conns[e], b.conns[e]) && ConnServed(b.conns[e], c.conns[e]);
    }
    hide JobServed, JobReturned, ConnServed, WaitsOn;
  }

  lemma ReturnedNone(s: State, c: ConnId)
    requires c in s.conns && !s.conns[c].waiting
    ensures Returned(s, c, {}, s)
  {}

  lemma ReturnOneReturned(s: State, c: ConnId, clock: Clock)
    requires Mid(s, s.jobs, Loose(c, None)) && c in s.conns && s.conns[c].reserved != []
    ensures Returned(s, c, {s.conns[c].reserved[0]}, ReturnOne(s, c, clock))
  {
    hide Mid, InFlight, PayDebt, Enqueue, NoLostWakeup, Served, Insert;
    var j := s.conns[c].reserved[0];
    ReturnOneOk(s, c, clock);
    var s1 := PopReserved(s, c);
    InsertEffect(s1, j, clock);
    var s2 := Enqueue(s1, j, 0, clock);
    PayEffect(s2, c, s.jobs[j].tube);
    ServedReturned(s, c, Insert(s1, j, 0, clock), j, s2, ReturnOne(s, c, clock));
  }

  lemma ServedReturned(s: State, c: ConnId, s1: State, j: JobId, s2: State, s3: State)
    requires Held(s.jobs, j, c) && c in s.conns && !s.conns[c].waiting
    requires SameKeys(s, s1) && s1.jobs == s.jobs[j := s.jobs[j].(reserver := None, state := Ready)]
    requires c in s1.conns && s1.conns == s.conns[c := s1.conns[c]] && !s1.conns[c].waiting
    requires Served(s1, s2)
    requires SameKeys(s2, s3) && s3.jobs == s2.jobs && s3.conns == s2.conns[c := s3.conns[c]] && !s3.conns[c].waiting
    ensures Returned(s, c, {j}, s3)
  {
    hide Served, ConnServed;
    ServedEach(s1, s2);
    assert forall e, t :: WaitsOn(s1.conns, e, t) ==> WaitsOn(s.conns, e, t);
    assert JobReturned(s, c, s.jobs[j], s3.jobs[j]);
    hide WaitsOn, JobReturned;
  }

  /** Closing returns every reserved job, once. */
  lemma {:induction false} ReturnAllExact(s: State, c: ConnId, clock: Clock)
    requires Mid(s, s.jobs, Loose(c, None)) && c in s.conns && NoLostWakeup(s)
    ensures var r := ReturnAll(s, c, clock);
            && Mid(r, r.jobs, Loose(c, None)) && NoLostWakeup(r)
            && Returned(s, c, Elements(s.conns[c].reserved), r)
            && r.conns[c] == s.conns[c].(reserved := [], soonest := r.conns[c].soonest)
    decreases |s.conns[c].reserved|
  {
    hide Mid, ReturnOne, NoLostWakeup, Returned;
    var b := s.conns[c].reserved;
    LooseIdle(s, c);
    if b == [] {
      ReturnedNone(s, c);
      assert Elements(b) == {};
    } else {
      var s1 := ReturnOne(s, c, clock);
      ReturnOneReturned(s, c, clock);
      ReturnAllExact(s1, c, clock);
      ReservedNoDup(s, c);
      assert b == [b[0]] + b[1..];
      assert Elements(b) == {b[0]} + Elements(b[1..]);
      ReturnedTrans(s, c, {b[0]}, s1, Elements(b[1..]), ReturnAll(s1, c, clock));
      ReturnedKeys(s, c, Elements(b), ReturnAll(s1, c, clock));
    }
    ReturnedKeys(s, c, Elements(b), ReturnAll(s, c, clock));
  }

  lemma ReturnedKeys(s: State, c: ConnId, m: set<JobId>, s2: State)
    requires Returned(s, c, m, s2)
    ensures SameKeys(s, s2) && c in s.conns && c in s2.conns
  {}

  lemma ReservedNoDup(s: State, c: ConnId)
    requires Mid(s, s.jobs, Loose(c, None)) && c in s.conns && s.conns[c].reserved != []
    ensures s.conns[c].reserved[0] !in s.conns[c].reserved[1..]
  {
    hide Shape, TubesOwn, Incoming, Waits, Phases, Counts, Memo, Refs;
  }

  // ----- set_clear on the watch set, and the end -----

  ghost function UnwatchFirst(s: State, c: ConnId): State
    requires Mid(s, s.jobs, Loose(c, None)) && c in s.conns && s.conns[c].watch != []
  {
    UnwatchFirstOk(s, c);
    DropRef(Relink(s, c, s.conns[c].(watch := SwapDelete(s.conns[c].watch, 0))), s.conns[c].watch[0])
  }

  lemma UnwatchFirstOk(s: State, c: ConnId)
    requires Mid(s, s.jobs, Loose(c, None)) && c in s.conns && s.conns[c].watch != []
    ensures var k := s.conns[c].(watch := SwapDelete(s.conns[c].watch, 0));
            && s.conns[c].watch[0] in Relink(s, c, k).tubes
            && var s2 := DropRef(Relink(s, c, k), s.conns[c].watch[0]);
               Mid(s2, s2.jobs, Loose(c, None)) && s2.conns == s.conns[c := k]
               && (NoLostWakeup(s) ==> NoLostWakeup(s2)) && s2.jobs == s.jobs
  {
    hide Mid, NoLostWakeup, Relink, DropRef;
    LooseIdle(s, c);
    UnwatchMid(s, c, 0, Loose(c, None));
  }

  /** set_clear deletes item 0 until nothing is left. */
  ghost function UnwatchAll(s: State, c: ConnId): State
    requires Mid(s, s.jobs, Loose(c, None)) && c in s.conns
    decreases |s.conns[c].watch|
  {
    hide Mid;
    if s.conns[c].watch == [] then s
    else
      UnwatchFirstOk(s, c);
      hide DropRef, Relink;
      UnwatchAll(UnwatchFirst(s, c), c)
  }

  lemma {:induction false} UnwatchAllMid(s: State, c: ConnId)
    requires Mid(s, s.jobs, Loose(c, None)) && c in s.conns && NoLostWakeup(s)
    ensures var r := UnwatchAll(s, c);
            && Mid(r, r.jobs, Loose(c, None)) && NoLostWakeup(r) && r.jobs == s.jobs
            && r.conns == s.conns[c := s.conns[c].(watch := [])]
    decreases |s.conns[c].watch|
  {
    hide Mid, NoLostWakeup, DropRef, Relink;
    if s.conns[c].watch != [] {
      UnwatchFirstOk(s, c);
      UnwatchAllMid(UnwatchFirst(s, c), c);
    } else {
      assert s.conns[c].(watch := []) == s.conns[c];
      assert s.conns[c := s.conns[c]] == s.conns;
    }
  }

  /** The connection is gone and with it its count as a user. */
  ghost function Vanish(s: State, c: ConnId): State
    requires c in s.conns && s.conns[c].use in s.tubes
  {
    var t := s.conns[c].use;
    PutTube(s, t, s.tubes[t].(usingCnt := s.tubes[t].usingCnt - 1)).(conns := s.conns - {c})
  }

  lemma VanishOwn(s: State, c: ConnId)
    requires c in s.conns && s.conns[c].use in s.tubes && s.conns[c].reserved == [] && s.conns[c].inJob == None
    requires Own(s.jobs, s)
    ensures Own(s.jobs, Vanish(s, c))
  {
    var s2 := Vanish(s, c);
    TubesOwnFrame(s.jobs, s.jobs, s.tubes, s2.tubes);
    hide TubesOwn;
    forall j | j in s.jobs && s.jobs[j].state == Invalid ensures exists e :: e in s2.conns && s2.conns[e].inJob == Some(j) {
      var e :| e in s.conns && s.conns[e].inJob == Some(j);
      assert s2.conns[e].inJob == Some(j);
    }
    forall j | j in s.jobs && s.jobs[j].reserver.Some? ensures s.jobs[j].reserver.value in s2.conns {
      var e := s.jobs[j].reserver.value;
      assert Held(s.jobs, j, e);
      assert j in s.conns[e].reserved;
    }
  }

  lemma VanishRefs(s: State, c: ConnId)
    requires c in s.conns && s.conns[c].use in s.tubes && s.conns[c].watch == [] && Refs(s)
    ensures Refs(Vanish(s, c)) && HasSpare(Vanish(s, c), s.conns[c].use)
  {
    var s2 := Vanish(s, c);
    forall t | t in s2.tubes ensures TubeRefs(s2, t, s2.tubes[t]) {
      assert TubeRefs(s, t, s.tubes[t]);
      CountDrop(s.conns, c, Uses(t));
      CountDrop(s.conns, c, Watches(t));
    }
    hide Count;
    assert TubeRefs(s, s.conns[c].use, s.tubes[s.conns[c].use]);
  }

  lemma VanishWaits(s: State, c: ConnId)
    requires c in s.conns && s.conns[c].use in s.tubes && !s.conns[c].waiting && Waits(s)
    ensures Waits(Vanish(s, c))
  {
    var s2 := Vanish(s, c);
    CountDrop(s.conns, c, IsWaiting());
    forall t | t in s2.tubes ensures forall e :: e in s2.tubes[t].waiting.items <==> WaitsOn(s2.conns, e, t) {
      forall e ensures WaitsOn(s2.conns, e, t) <==> WaitsOn(s.conns, e, t) {}
    }
  }

  lemma VanishShape(s: State, c: ConnId)
    requires c in s.conns && s.conns[c].use in s.tubes && Shape(s)
    ensures Shape(Vanish(s, c))
  {
    hide NoDup;
  }

  lemma VanishRest(s: State, c: ConnId)
    requires c in s.conns && s.conns[c].use in s.tubes
    requires Counts(s.jobs, s, Loose(c, None)) && Phases(s.jobs, s, Loose(c, None)) && Memo(s, Loose(c, None))
    ensures var s2 := Vanish(s, c);
            Counts(s2.jobs, s2, Loose(c, None)) && Phases(s2.jobs, s2, Nothing) && Memo(s2, Nothing)
  {
    hide Count, ConnOk, MemoOk;
  }

  lemma VanishMid(s: State, c: ConnId)
    requires Mid(s, s.jobs, Loose(c, None)) && c in s.conns && s.conns[c].watch == [] && s.conns[c].reserved == []
    ensures s.conns[c].use in s.tubes
    ensures Mid(Vanish(s, c), Vanish(s, c).jobs, Nothing) && HasSpare(Vanish(s, c), s.conns[c].use)
    ensures NoLostWakeup(s) ==> NoLostWakeup(Vanish(s, c))
  {
    assert s.conns[c].use in s.tubes;
    hide Mid;
    var s2 := Vanish(s, c);
    assert s2.jobs == s.jobs && NothingOwed(Nothing) && NothingOwed(Loose(c, None));
    LooseIdle(s, c);
    VanishNoLost(s, c);
    hide *;
    MidParts(s, s.jobs, Loose(c, None));
    VanishOwn(s, c);
    VanishRefs(s, c);
    VanishWaits(s, c);
    VanishShape(s, c);
    VanishRest(s, c);
    CountsSlack(s.jobs, s2, Loose(c, None), Nothing);
    MidParts(s2, s2.jobs, Nothing);
  }

  lemma VanishNoLost(s: State, c: ConnId)
    requires c in s.conns && s.conns[c].use in s.tubes
    ensures NoLostWakeup(s) ==> NoLostWakeup(Vanish(s, c))
  {}

  /** conn_free. The user's reference is dropped after the connection itself is gone. */
  ghost function Close(s: State, c: ConnId, clock: Clock): State
    requires Inv(s) && c in s.conns
  {
    CloseOk(s, c, clock);
    var s1 := UnwatchAll(ReturnAll(LetGo(s, c), c, clock), c);
    DropRef(Vanish(s1, c), s1.conns[c].use)
  }

  lemma CloseOk(s: State, c: ConnId, clock: Clock)
    requires Inv(s) && c in s.conns
    ensures var s1 := LetGo(s, c);
            && Mid(s1, s1.jobs, Loose(c, None)) && c in s1.conns && NoLostWakeup(s1)
            && s1.conns == s.conns[c := s1.conns[c]] && s1.conns[c].reserved == s.conns[c].reserved && s1.jobs == s.jobs - Lost(s, c)
            && !s1.conns[c].waiting
            && var s2 := ReturnAll(s1, c, clock);
               && Mid(s2, s2.jobs, Loose(c, None)) && c in s2.conns && NoLostWakeup(s2)
               && Returned(s1, c, Elements(s.conns[c].reserved), s2)
               && s2.conns[c].reserved == []
               && var s3 := UnwatchAll(s2, c);
                  && Mid(s3, s3.jobs, Loose(c, None)) && NoLostWakeup(s3) && c in s3.conns
                  && s3.conns == s2.conns[c := s2.conns[c].(watch := [])] && s3.jobs == s2.jobs
                  && s3.conns[c].use in s3.tubes && s3.conns[c].use in Vanish(s3, c).tubes
  {
    hide Mid, NoLostWakeup, LetGo, ReturnAll, UnwatchAll, Returned, Inv;
    LetGoMid(s, c);
    var s1 := LetGo(s, c);
    ReturnAllExact(s1, c, clock);
    var s2 := ReturnAll(s1, c, clock);
    ReturnedKeys(s1, c, Elements(s.conns[c].reserved), s2);
    UnwatchAllMid(s2, c);
    VanishMid(UnwatchAll(s2, c), c);
  }

  lemma CloseInv(s: State, c: ConnId, clock: Clock)
    requires Inv(s) && c in s.conns
    ensures Inv(Close(s, c, clock))
  {
    hide Mid, NoLostWakeup, LetGo, ReturnAll, UnwatchAll, Returned, Inv, Vanish, DropRef, HasSpare;
    CloseOk(s, c, clock);
    var s3 := UnwatchAll(ReturnAll(LetGo(s, c), c, clock), c);
    VanishMid(s3, c);
    DropRefMid(Vanish(s3, c), s3.conns[c].use, Nothing);
    DropRefNoLostWakeup(Vanish(s3, c), s3.conns[c].use);
    InvParts(DropRef(Vanish(s3, c), s3.conns[c].use));
  }

  /** Closing leaves no trace: the connection is gone, no job is reserved by it, no waiting set
      holds it; the only job that disappears is one whose body it was still sending; every job
      it had reserved is ready again or with another connection that waited on the job's tube;
      every other job is as it was or was handed to a connection that waited on its tube. */
  lemma CloseLeavesNoTrace(s: State, c: ConnId, clock: Clock)
    requires Inv(s) && c in s.conns
    ensures var r := Close(s, c, clock);
            && r.conns.Keys == s.conns.Keys - {c} && r.jobs.Keys == s.jobs.Keys - Lost(s, c)
            && (forall j :: j in r.jobs ==> r.jobs[j].reserver != Some(c))
            && (forall t :: t in r.tubes ==> c !in r.tubes[t].waiting.items)
            && (forall j :: j in s.conns[c].reserved ==>
                 && j in r.jobs && r.jobs[j].tube == s.jobs[j].tube
                 && (r.jobs[j].state == Ready || (r.jobs[j].state == Reserved && r.jobs[j].reserver.Some?
                                                  && WaitsOn(s.conns, r.jobs[j].reserver.value, s.jobs[j].tube))))
            && (forall j :: j in r.jobs && j !in s.conns[c].reserved ==> JobServed(s, s.jobs[j], r.jobs[j]))
            && (forall e :: e in r.conns ==> ConnServed(s.conns[e], r.conns[e]))
  {
    hide Mid, NoLostWakeup, LetGo, ReturnAll, UnwatchAll, Inv, DropRef, JobServed, ConnServed;
    CloseOk(s, c, clock);
    var s1 := LetGo(s, c);
    var s2 := ReturnAll(s1, c, clock);
    var s3 := UnwatchAll(s2, c);
    var r := Close(s, c, clock);
    assert r.jobs == s2.jobs && r.conns == s3.conns - {c};
    hide Vanish;
    CloseInv(s, c, clock);
    GoneIsGone(r, c);
    forall e, t | WaitsOn(s1.conns, e, t) ensures WaitsOn(s.conns, e, t) { assert e != c; }
    WaitersBefore(s1, s);
    ReservedInIndex(s, c);
    forall j | j in s.conns[c].reserved ensures JobReturned(s1, c, s1.jobs[j], s2.jobs[j]) && j in s.jobs && s1.jobs[j] == s.jobs[j] {
      assert j in Elements(s.conns[c].reserved);
    }
  }

  lemma GoneIsGone(s: State, c: ConnId)
    requires Inv(s) && c !in s.conns
    ensures forall j :: j in s.jobs ==> s.jobs[j].reserver != Some(c)
    ensures forall t :: t in s.tubes ==> c !in s.tubes[t].waiting.items
  {
    hide Shape, TubesOwn, Incoming, Phases, Counts, Memo, Refs;
    assert forall t :: !WaitsOn(s.conns, c, t);
  }

  lemma WaitersBefore(s1: State, s: State)
    requires forall e, t :: WaitsOn(s1.conns, e, t) ==> WaitsOn(s.conns, e, t)
    ensures forall x, y :: JobServed(s1, x, y) ==> JobServed(s, x, y)
  {}

  lemma ReservedInIndex(s: State, c: ConnId)
    requires Inv(s) && c in s.conns
    ensures forall j :: j in s.conns[c].reserved ==> j in s.jobs && j !in Lost(s, c)
  {
    hide Shape, TubesOwn, Waits, Phases, Counts, Memo, Refs;
    assert forall j :: j in s.conns[c].reserved ==> Held(s.jobs, j, c);
  }
}
