/** The commands delete and put. */
module JobCommands {
  import opened Counting
  import opened Lists
  import opened State
  import opened Moves
  import opened JobMoves
  import opened Queue
  import opened Steps

  // ----- delete -----

  /** The tail of OP_DELETE on a job in flight. */
  lemma DiscardInv(s: State, c: ConnId, id: JobId)
    requires Known(s, id) && Mid(s, s.jobs - {id}, Nothing) && NoLostWakeup(s)
    requires c in s.conns && !s.conns[c].waiting && s.conns[c].inJob == None
    ensures Inv(Discard(s, c, id))
  {
    hide Mid, Inv, NoLostWakeup, SendReply;
    var t := s.jobs[id].tube;
    var x := s.tubes[t].(deleteCnt := s.tubes[t].deleteCnt + 1);
    var s1 := PutTube(s, t, x);
    TubeStatsMid(s, t, x, s.jobs - {id}, Nothing);
    SameReadyNoLostWakeup(s, s1);
    FreeMid(s1, id, Nothing);
    SameTubesNoLostWakeup(s1, FreeJob(s1, id));
    ReplyInv(FreeJob(s1, id), c, Deleted);
  }

  /** delete frees a job that is in no container only when the job is the caller's, or ready,
      or at the head of its tube's buried list - or when it frees nothing at all. */
  ghost predicate DeleteSafe(s: State, c: ConnId, id: JobId)
    requires Inv(s) && Idle(s, c)
  {
    id in s.jobs ==>
      var x := s.jobs[id];
      IdleFacts(s, c);
      id in s.conns[c].reserved || x.state == Ready || s.tubes[x.tube].buried == [] || s.tubes[x.tube].buried[0] == id
  }

  /** The caller's reserved job. */
  lemma DeleteReserved(s: State, c: ConnId, id: JobId)
    requires Inv(s) && Idle(s, c) && Holds(s, c, id)
    ensures Inv(Delete(s, c, id))
  {
    hide Inv, Mid, NoLostWakeup, Settled, Discard, ReservedRemove;
    IdleFacts(s, c);
    InvParts(s);
    var s1 := ReservedRemove(s, c, id);
    ReservedRemoveMid(s, c, id, Nothing);
    ReservedRemoveEffect(s, c, id);
    SameReadyNoLostWakeup(s, s1);
    DiscardInv(s1, c, id);
  }

  lemma ReservedRemoveEffect(s: State, c: ConnId, j: JobId)
    requires c in s.conns && Known(s, j)
    ensures var s2 := ReservedRemove(s, c, j);
            && s2.conns == s.conns[c := s.conns[c].(reserved := Unlink(s.conns[c].reserved, j), soonest := None)]
            && SameKeys(s, s2) && Known(s2, j) && s2.jobs == s.jobs[j := s.jobs[j].(reserver := None)]
            && s2.jobs - {j} == s.jobs - {j}
            && (forall t :: t in s.tubes ==> s2.tubes[t] == s.tubes[t].(reservedCnt := s2.tubes[t].reservedCnt))
  {}

  lemma DeleteReady(s: State, c: ConnId, id: JobId)
    requires Inv(s) && Idle(s, c) && id in s.jobs && s.jobs[id].state == Ready
    ensures Inv(Delete(s, c, id))
  {
    hide Inv, Mid, NoLostWakeup, Settled, Discard, ReadyRemove;
    IdleFacts(s, c);
    InvParts(s);
    var s1 := ReadyRemove(s, id);
    ReadyRemoveMid(s, id, Nothing);
    ReadyRemoveEffect(s, id);
    SameReadyNoLostWakeup(s, s1);
    DiscardInv(s1, c, id);
  }

  lemma ReadyRemoveEffect(s: State, j: JobId)
    requires Known(s, j)
    ensures var s2 := ReadyRemove(s, j);
            && s2.conns == s.conns && s2.jobs == s.jobs && SameKeys(s, s2)
            && (forall t :: t in s.tubes ==>
                 && s2.tubes[t] == s.tubes[t].(ready := s2.tubes[t].ready, urgentCnt := s2.tubes[t].urgentCnt)
                 && s2.tubes[t].ready <= s.tubes[t].ready)
  {}

  lemma BuriedPopEffect(s: State, t: TubeId)
    requires t in s.tubes && s.tubes[t].buried != []
    ensures var s2 := BuriedPop(s, t);
            && s2.conns == s.conns && s2.jobs == s.jobs && SameKeys(s, s2)
            && s2.tubes[t].buried == s.tubes[t].buried[1..] && s2.tubes == s.tubes[t := s2.tubes[t]]
            && (forall u :: u in s.tubes ==>
                 s2.tubes[u] == s.tubes[u].(buried := s2.tubes[u].buried, buriedCnt := s2.tubes[u].buriedCnt))
  {}

  lemma DeleteBuriedHead(s: State, c: ConnId, id: JobId)
    requires Inv(s) && Idle(s, c) && id in s.jobs && id !in s.conns[c].reserved && s.jobs[id].state != Ready
    requires Known(s, id) && s.tubes[s.jobs[id].tube].buried != [] && s.tubes[s.jobs[id].tube].buried[0] == id
    ensures Inv(Delete(s, c, id))
  {
    hide Inv, Mid, NoLostWakeup, Settled, Discard, BuriedPop;
    var t := s.jobs[id].tube;
    IdleFacts(s, c);
    InvParts(s);
    var s1 := BuriedPop(s, t);
    BuriedPopMid(s, t, Nothing);
    BuriedPopEffect(s, t);
    SameReadyNoLostWakeup(s, s1);
    DiscardInv(s1, c, id);
  }

  /** Otherwise the list loses a job that stays in the index, marked buried: the invariant breaks. */
  lemma DeleteOtherBreaks(s: State, c: ConnId, id: JobId)
    requires Inv(s) && Idle(s, c) && id in s.jobs && id !in s.conns[c].reserved && s.jobs[id].state != Ready
    requires Known(s, id) && s.tubes[s.jobs[id].tube].buried != [] && s.tubes[s.jobs[id].tube].buried[0] != id
    ensures !Inv(Delete(s, c, id))
  {
    hide Inv, Mid, Settled, BuriedPop;
    var t := s.jobs[id].tube;
    var h := s.tubes[t].buried[0];
    IdleFacts(s, c);
    InvParts(s);
    BuriedPopMid(s, t, Nothing);
    BuriedPopEffect(s, t);
    var s1, s2 := BuriedPop(s, t), Delete(s, c, id);
    assert s2 == Discard(s1, c, id);
    assert h in s2.jobs && s2.jobs[h].state == Buried && s2.jobs[h].tube == t;
    assert t in s2.tubes && s2.tubes[t].buried == s.tubes[t].buried[1..];
    hide Delete, Discard;
    BuriedNoDup(s, t);
    if Inv(s2) {
      StrayBuried(s2, t, h);
    }
  }

  lemma BuriedNoDup(s: State, t: TubeId)
    requires Mid(s, s.jobs, Nothing) && t in s.tubes && s.tubes[t].buried != []
    ensures s.tubes[t].buried[0] !in s.tubes[t].buried[1..]
  {
    hide Shape, Waits, Phases, Counts, Memo, Refs, ConnsOwn, Incoming;
  }

  lemma StrayBuried(s: State, t: TubeId, h: JobId)
    requires Inv(s) && At(s.jobs, h, Buried, t) && t in s.tubes
    ensures h in s.tubes[t].buried
  {
    hide Shape, Waits, Phases, Counts, Memo, Refs, ConnsOwn, Incoming;
  }

  /** OP_DELETE keeps the invariant exactly when it is safe. */
  lemma DeleteInvIffSafe(s: State, c: ConnId, id: JobId)
    requires Inv(s) && Idle(s, c)
    ensures Inv(Delete(s, c, id)) <==> DeleteSafe(s, c, id)
  {
    hide Inv, Settled, Mid;
    IdleFacts(s, c);
    if id !in s.jobs {
      NotFoundInv(s, c);
    } else if id in s.conns[c].reserved {
      DeleteReserved(s, c, id);
    } else if s.jobs[id].state == Ready {
      DeleteReady(s, c, id);
    } else if s.tubes[s.jobs[id].tube].buried == [] {
      NotFoundInv(s, c);
    } else if s.tubes[s.jobs[id].tube].buried[0] == id {
      DeleteBuriedHead(s, c, id);
    } else {
      DeleteOtherBreaks(s, c, id);
    }
  }

  // ----- put -----

  /** job_create in the tube the connection uses. */
  ghost function CreateJob(s: State, c: ConnId, pri: nat, delay: int, ttr: int): State
    requires c in s.conns && s.conns[c].use in s.tubes
  {
    var t := s.conns[c].use;
    PutTube(PutJob(s, s.nextJob, Job(pri, delay, ttr, 0, Invalid, t, None, 0, 0, 0, 0, 0)), t,
            s.tubes[t].(refs := s.tubes[t].refs + 1))
      .(nextJob := s.nextJob + 1)
  }

  lemma CreateShape(s: State, c: ConnId, pri: nat, delay: int, ttr: int)
    requires Shape(s) && c in s.conns && ttr >= SECOND
    ensures s.nextJob !in s.jobs && s.conns[c].use in s.tubes
    ensures Shape(CreateJob(s, c, pri, delay, ttr))
  {
    assert forall j :: j in s.jobs ==> j < s.nextJob;
    hide NoDup;
  }

  lemma CreateRefs(s: State, c: ConnId, pri: nat, delay: int, ttr: int)
    requires Refs(s) && c in s.conns && s.conns[c].use in s.tubes && s.nextJob !in s.jobs
    ensures Refs(CreateJob(s, c, pri, delay, ttr))
  {
    var s2 := CreateJob(s, c, pri, delay, ttr);
    forall t | t in s2.tubes ensures TubeRefs(s2, t, s2.tubes[t]) {
      assert TubeRefs(s, t, s.tubes[t]);
      CountPut(s.jobs, s.nextJob, s2.jobs[s.nextJob], InTube(t));
    }
  }

  lemma CreateMemo(s: State, c: ConnId, pri: nat, delay: int, ttr: int)
    requires c in s.conns && s.conns[c].use in s.tubes && s.nextJob !in s.jobs
    requires ConnsOwn(s.jobs, s.conns) && Memo(s, Nothing)
    ensures Memo(CreateJob(s, c, pri, delay, ttr), Nothing)
    ensures CreateJob(s, c, pri, delay, ttr).jobs - {s.nextJob} == s.jobs
  {
    var s2 := CreateJob(s, c, pri, delay, ttr);
    forall e | e in s2.conns ensures MemoOk(s2.jobs, s2.conns[e]) {
      assert MemoOk(s.jobs, s.conns[e]) && s.nextJob !in s.conns[e].reserved;
    }
  }

  lemma CreateRest(s: State, c: ConnId, pri: nat, delay: int, ttr: int)
    requires c in s.conns && s.conns[c].use in s.tubes && s.nextJob !in s.jobs
    requires Own(s.jobs, s) && Counts(s.jobs, s, Nothing) && Phases(s.jobs, s, Nothing)
    ensures var s2 := CreateJob(s, c, pri, delay, ttr);
            && Own(s.jobs, s2) && Counts(s.jobs, s2, Nothing) && Phases(s.jobs, s2, Nothing)
            && SameWaiting(s, s2)
  {
    hide TubesOwn, ConnsOwn, Incoming, ConnOk, Count;
    TubesOwnFrame(s.jobs, s.jobs, s.tubes, CreateJob(s, c, pri, delay, ttr).tubes);
  }

  lemma CreateMid(s: State, c: ConnId, pri: nat, delay: int, ttr: int)
    requires Mid(s, s.jobs, Nothing) && c in s.conns && ttr >= SECOND
    ensures s.nextJob !in s.jobs && s.conns[c].use in s.tubes
    ensures var s2 := CreateJob(s, c, pri, delay, ttr);
            Mid(s2, s2.jobs - {s.nextJob}, Nothing) && s2.jobs - {s.nextJob} == s.jobs
  {
    hide *;
    MidParts(s, s.jobs, Nothing);
    CreateShape(s, c, pri, delay, ttr);
    MidParts(CreateJob(s, c, pri, delay, ttr), s.jobs, Nothing);
    OwnParts(s.jobs, s);
    CreateMemo(s, c, pri, delay, ttr);
    CreateRest(s, c, pri, delay, ttr);
    FrameWaits(s, CreateJob(s, c, pri, delay, ttr));
    CreateRefs(s, c, pri, delay, ttr);
  }

  lemma EnterIncomingOwn(live: map<JobId, Job>, conns: map<ConnId, Conn>, c: ConnId, k: Conn, j: JobId, x: Job)
    requires ConnsOwn(live, conns) && Incoming(live, conns) && j !in live && x.state == Invalid && x.reserver == None
    requires c in conns && conns[c].inJob == None && k == conns[c].(inJob := Some(j), phase := WantData)
    ensures ConnsOwn(live[j := x], conns[c := k]) && Incoming(live[j := x], conns[c := k])
  {
    assert live[j := x] - {j} == live;
    LiveWith(live, j, x);
    var conns2 := conns[c := k];
    forall i | i in live[j := x] && live[j := x][i].state == Invalid ensures exists e :: e in conns2 && conns2[e].inJob == Some(i) {
      if i == j {
        assert conns2[c].inJob == Some(i);
      } else {
        var e :| e in conns && conns[e].inJob == Some(i);
        assert conns2[e].inJob == Some(i);
      }
    }
  }

  lemma EnterIncomingParts(s: State, c: ConnId, k: Conn, j: JobId)
    requires j in s.jobs && s.jobs[j].state == Invalid && s.jobs[j].reserver == None
    requires c in s.conns && s.conns[c].inJob == None && ConnOk(s.jobs - {j}, c, s.conns[c])
    requires k == s.conns[c].(inJob := Some(j), phase := WantData) && s.conns[c].phase == WantCommand
    requires ConnsOwn(s.jobs - {j}, s.conns) && Incoming(s.jobs - {j}, s.conns)
    requires Phases(s.jobs - {j}, s, Nothing) && Memo(s, Nothing)
    ensures ConnsOwn(s.jobs, PutConn(s, c, k).conns) && Incoming(s.jobs, PutConn(s, c, k).conns)
    ensures Phases(s.jobs, PutConn(s, c, k), Nothing) && Memo(PutConn(s, c, k), Nothing)
  {
    assert s.jobs == (s.jobs - {j})[j := s.jobs[j]];
    hide ConnsOwn, Incoming;
    EnterIncomingOwn(s.jobs - {j}, s.conns, c, k, j, s.jobs[j]);
    LiveWithout(s.jobs, j);
  }

  lemma EnterIncomingTubes(s: State, j: JobId)
    requires j in s.jobs && s.jobs[j].state == Invalid && TubesOwn(s.jobs - {j}, s.tubes)
    ensures TubesOwn(s.jobs, s.tubes)
  {
    LiveWithout(s.jobs, j);
  }

  lemma EnterIncomingFrame(s: State, c: ConnId, k: Conn, j: JobId)
    requires j in s.jobs && s.jobs[j].state == Invalid && c in s.conns
    requires k == s.conns[c].(inJob := Some(j), phase := WantData)
    ensures Drop(s.jobs[j], PutConn(s, c, k), s) && OnlyJobsMoved(s, PutConn(s, c, k))
  {}

  /** The job whose body is still to come belongs to the connection that reads it. */
  lemma EnterIncomingMid(s: State, c: ConnId, j: JobId)
    requires j in s.jobs && s.jobs[j].state == Invalid && s.jobs[j].reserver == None
    requires Mid(s, s.jobs - {j}, Nothing) && Idle(s, c) && s.conns[c].inJob == None
    ensures Mid(PutConn(s, c, s.conns[c].(inJob := Some(j), phase := WantData)), s.jobs, Nothing)
  {
    var k := s.conns[c].(inJob := Some(j), phase := WantData);
    var s2 := PutConn(s, c, k);
    assert s2.jobs == s.jobs && s2.tubes == s.tubes && s.conns[c].phase == WantCommand;
    hide *;
    MidParts(s, s.jobs - {j}, Nothing);
    OwnParts(s.jobs - {j}, s);
    OwnParts(s.jobs, s2);
    ConnFactsIn(s, s.jobs - {j}, c);
    EnterIncomingParts(s, c, k, j);
    EnterIncomingTubes(s, j);
    EnterIncomingFrame(s, c, k, j);
    EnterMid(s, s2, j, Nothing);
  }

  lemma ConnFactsIn(s: State, live: map<JobId, Job>, c: ConnId)
    requires Phases(live, s, Nothing) && c in s.conns
    ensures ConnOk(live, c, s.conns[c])
  {}

  /** ... until enqueue_incoming_job takes it over. */
  ghost function DropIncoming(s: State, c: ConnId): State
    requires c in s.conns
  {
    PutConn(s, c, s.conns[c].(inJob := None))
  }

  lemma LeaveIncomingConns(s: State, c: ConnId, j: JobId)
    requires c in s.conns && s.conns[c].inJob == Some(j) && j in s.jobs && s.jobs[j].state == Invalid
    requires ConnsOwn(s.jobs, s.conns) && Incoming(s.jobs, s.conns)
    ensures ConnsOwn(s.jobs - {j}, DropIncoming(s, c).conns) && Incoming(s.jobs - {j}, DropIncoming(s, c).conns)
  {
    LiveWithout(s.jobs, j);
    var s2 := DropIncoming(s, c);
    forall i | i in s.jobs - {j} && s.jobs[i].state == Invalid
      ensures exists e :: e in s2.conns && s2.conns[e].inJob == Some(i)
    {
      var e :| e in s.conns && s.conns[e].inJob == Some(i);
      assert s2.conns[e].inJob == Some(i);
    }
  }

  lemma LeaveIncomingRest(s: State, c: ConnId, j: JobId)
    requires c in s.conns && s.conns[c].inJob == Some(j) && j in s.jobs && s.jobs[j].state == Invalid
    requires TubesOwn(s.jobs, s.tubes) && Phases(s.jobs, s, Nothing) && Memo(s, Nothing)
    ensures TubesOwn(s.jobs - {j}, s.tubes)
    ensures Phases(s.jobs - {j}, DropIncoming(s, c), Loose(c, None)) && Memo(DropIncoming(s, c), Loose(c, None))
  {
    LiveWithout(s.jobs, j);
    assert ConnOk(s.jobs, c, s.conns[c]);
  }

  lemma LeaveIncomingFrame(s: State, c: ConnId, j: JobId)
    requires c in s.conns && s.conns[c].inJob == Some(j) && j in s.jobs && s.jobs[j].state == Invalid
    ensures Drop(s.jobs[j], s, DropIncoming(s, c)) && OnlyJobsMoved(s, DropIncoming(s, c))
  {}

  lemma IncomingKnown(s: State, c: ConnId, j: JobId)
    requires Shape(s) && Incoming(s.jobs, s.conns) && c in s.conns && s.conns[c].inJob == Some(j)
    ensures j in s.jobs && s.jobs[j].state == Invalid && Known(s, j)
  {}

  lemma LeaveIncomingMid(s: State, c: ConnId, j: JobId)
    requires Mid(s, s.jobs, Nothing) && c in s.conns && s.conns[c].inJob == Some(j)
    ensures j in s.jobs && s.jobs[j].state == Invalid && Known(s, j)
    ensures Mid(DropIncoming(s, c), s.jobs - {j}, Loose(c, None))
  {
    hide Mid;
    var s2 := DropIncoming(s, c);
    assert NothingOwed(Nothing) && NothingOwed(Loose(c, None)) && s2.tubes == s.tubes && s2.jobs == s.jobs;
    hide *;
    MidParts(s, s.jobs, Nothing);
    MidParts(s2, s.jobs - {j}, Loose(c, None));
    OwnParts(s.jobs, s);
    IncomingKnown(s, c, j);
    OwnParts(s.jobs - {j}, s2);
    LeaveIncomingConns(s, c, j);
    LeaveIncomingRest(s, c, j);
    LeaveIncomingFrame(s, c, j);
    MovedParts(s, s2);
    FrameShape(s, s2);
    FrameWaits(s, s2);
    FrameRefs(s, s2);
    CountsDrop(s.jobs, j, s, s2, Nothing);
    CountsSlack(s.jobs - {j}, s2, Nothing, Loose(c, None));
  }

  /** enqueue_incoming_job, once the connection no longer owns the job. */
  ghost function FinishPut(s: State, c: ConnId, j: JobId, trailerOk: bool, clock: Clock): State
    requires c in s.conns && InFlight(s, j)
  {
    if !trailerOk then SendReply(FreeJob(s, j), c, ExpectedCrlf)
    else if s.drain then SendReply(FreeJob(s, j), c, Draining)
    else
      var s1 := Enqueue(s, j, s.jobs[j].delay, clock);
      var t := s.jobs[j].tube;
      var s2 := PutTube(s1, t, s1.tubes[t].(totalCnt := s1.tubes[t].totalCnt + 1)).(totalJobs := s1.totalJobs + 1);
      SendReply(s2, c, Inserted(j))
  }

  /** ReplyInv for a connection that is loose because it just finished reading a body. */
  lemma ReplyLooseInv(s: State, c: ConnId, m: Reply, d: Slack)
    requires Mid(s, s.jobs, d) && NoLostWakeup(s) && (d == Nothing || d == Loose(c, None))
    requires c in s.conns && !s.conns[c].waiting && s.conns[c].inJob == None && s.conns[c].out == NoJob
    requires MemoOk(s.jobs, s.conns[c])
    ensures Inv(SendReply(s, c, m))
  {
    hide Mid, Inv, NoLostWakeup, MemoOk;
    var k := s.conns[c].(phase := SendWord, reply := m);
    SameMemo(s.jobs, s.conns[c], k);
    PutConnMid(s, c, k, d);
    InvParts(SendReply(s, c, m));
    SameTubesNoLostWakeup(s, SendReply(s, c, m));
  }

  lemma SameMemo(jobs: map<JobId, Job>, x: Conn, y: Conn)
    requires MemoOk(jobs, x) && y.soonest == x.soonest && y.reserved == x.reserved
    ensures MemoOk(jobs, y)
  {}

  /** process_queue does not touch what a connection that does not wait has reserved. */
  lemma ServedMemo(s: State, s2: State, c: ConnId)
    requires Served(s, s2) && c in s.conns && !s.conns[c].waiting
    requires forall j :: j in s.conns[c].reserved ==> Held(s.jobs, j, c)
    requires MemoOk(s.jobs, s.conns[c])
    ensures c in s2.conns && s2.conns[c] == s.conns[c] && MemoOk(s2.jobs, s2.conns[c])
    ensures forall j :: j in s.conns[c].reserved ==> j in s2.jobs && s2.jobs[j] == s.jobs[j]
  {
    forall j | j in s.conns[c].reserved ensures j in s2.jobs && s2.jobs[j] == s.jobs[j] {
      assert JobServed(s, s.jobs[j], s2.jobs[j]);
    }
    assert ConnServed(s.conns[c], s2.conns[c]);
    hide Served, JobServed;
  }

  /** The memo of c while job j is in flight. */
  ghost predicate MemoFor(s: State, c: ConnId, j: JobId) {
    && c in s.conns && MemoOk(s.jobs, s.conns[c])
    && forall i :: i in s.conns[c].reserved ==> Held(s.jobs, i, c) && i != j
  }

  lemma MemoForInsert(s: State, c: ConnId, j: JobId, delay: int, clock: Clock)
    requires InFlight(s, j) && MemoFor(s, c, j)
    ensures var s1 := Insert(s, j, delay, clock);
            && s1.conns == s.conns && MemoOk(s1.jobs, s1.conns[c])
            && (forall i :: i in s1.conns[c].reserved ==> Held(s1.jobs, i, c))
  {
    hide InFlight, Insert, OnlyJobsMoved;
    InFlightKnown(s, j);
    InsertFrame(s, j, delay, clock);
    var x := Insert(s, j, delay, clock).jobs[j];
    LiveWith(s.jobs, j, x);
    LiveWithout(s.jobs, j);
  }

  lemma FinishPutRejected(s: State, c: ConnId, j: JobId, m: Reply, d: Slack)
    requires InFlight(s, j) && Mid(s, s.jobs - {j}, d) && NoLostWakeup(s) && (d == Nothing || d == Loose(c, None))
    requires c in s.conns && !s.conns[c].waiting && s.conns[c].inJob == None && s.conns[c].out == NoJob
    requires MemoFor(s, c, j)
    ensures Inv(SendReply(FreeJob(s, j), c, m))
  {
    assert j in s.jobs && MemoOk(FreeJob(s, j).jobs, s.conns[c]) by { hide InFlight, Mid; InFlightKnown(s, j); }
    hide *;
    FreeConns(s, j);
    FreeMid(s, j, d);
    SameTubesNoLostWakeup(s, FreeJob(s, j));
    ReplyLooseInv(FreeJob(s, j), c, m, d);
  }

  lemma FreeConns(s: State, j: JobId)
    ensures FreeJob(s, j).conns == s.conns && FreeJob(s, j).tubes == s.tubes
  {}

  lemma FinishPutInv(s: State, c: ConnId, j: JobId, trailerOk: bool, clock: Clock, d: Slack)
    requires InFlight(s, j) && Mid(s, s.jobs - {j}, d) && NoLostWakeup(s) && (d == Nothing || d == Loose(c, None))
    requires c in s.conns && !s.conns[c].waiting && s.conns[c].inJob == None && s.conns[c].out == NoJob
    requires MemoFor(s, c, j)
    ensures Inv(FinishPut(s, c, j, trailerOk, clock))
  {
    hide InFlight, Mid, NoLostWakeup, MemoFor, Inv, Served, Enqueue, Insert, SendReply, MemoOk;
    if !trailerOk {
      FinishPutRejected(s, c, j, ExpectedCrlf, d);
    } else if s.drain {
      FinishPutRejected(s, c, j, Draining, d);
    } else {
      InFlightKnown(s, j);
      var s0 := Insert(s, j, s.jobs[j].delay, clock);
      var s1 := Enqueue(s, j, s.jobs[j].delay, clock);
      EnqueueMid(s, j, s.jobs[j].delay, clock, d);
      MemoForInsert(s, c, j, s.jobs[j].delay, clock);
      ServedMemo(s0, s1, c);
      var t := s.jobs[j].tube;
      var x := s1.tubes[t].(totalCnt := s1.tubes[t].totalCnt + 1);
      TubeStatsMid(s1, t, x, s1.jobs, d);
      var s2 := PutTube(s1, t, x).(totalJobs := s1.totalJobs + 1);
      StatsMid(PutTube(s1, t, x), s2, s1.jobs, d);
      SameReadyNoLostWakeup(s1, s2);
      ReplyLooseInv(s2, c, Inserted(j), d);
    }
  }

  /** put: create the job; when its body came with the command line it is complete at once. */
  ghost function Put(s: State, c: ConnId, pri: nat, delay: int, ttr: int, body: Option<bool>, clock: Clock): State
    requires Inv(s) && Idle(s, c)
  {
    var ttr1 := if ttr < SECOND then SECOND else ttr;
    CreateInFlight(s, c, pri, delay, ttr1);
    var s1 := CreateJob(s, c, pri, delay, ttr1);
    if body == None then PutConn(s1, c, s1.conns[c].(inJob := Some(s.nextJob), phase := WantData))
    else FinishPut(s1, c, s.nextJob, body.value, clock)
  }

  lemma CreateInFlight(s: State, c: ConnId, pri: nat, delay: int, ttr: int)
    requires Inv(s) && Idle(s, c) && ttr >= SECOND
    ensures s.conns[c].use in s.tubes && s.nextJob !in s.jobs
    ensures var s2 := CreateJob(s, c, pri, delay, ttr);
            && InFlight(s2, s.nextJob) && Mid(s2, s2.jobs - {s.nextJob}, Nothing) && s2.conns == s.conns
            && s2.jobs - {s.nextJob} == s.jobs && NoLostWakeup(s2)
            && s.nextJob in s2.jobs && s2.jobs[s.nextJob].state == Invalid && s2.jobs[s.nextJob].reserver == None
  {
    hide Mid, InFlight, Inv, NoLostWakeup;
    InvParts(s);
    CreateMid(s, c, pri, delay, ttr);
    var s2 := CreateJob(s, c, pri, delay, ttr);
    SameReadyNoLostWakeup(s, s2);
    InFlightBy(s2, s.nextJob, Nothing);
  }

  lemma PutInv(s: State, c: ConnId, pri: nat, delay: int, ttr: int, body: Option<bool>, clock: Clock)
    requires Inv(s) && Idle(s, c)
    ensures Inv(Put(s, c, pri, delay, ttr, body, clock))
  {
    hide Mid, InFlight, Inv, NoLostWakeup, CreateJob, FinishPut, Settled;
    var ttr1 := if ttr < SECOND then SECOND else ttr;
    CreateInFlight(s, c, pri, delay, ttr1);
    IdleFacts(s, c);
    var s1 := CreateJob(s, c, pri, delay, ttr1);
    if body == None {
      EnterIncomingMid(s1, c, s.nextJob);
      InvParts(Put(s, c, pri, delay, ttr, body, clock));
      SameTubesNoLostWakeup(s1, Put(s, c, pri, delay, ttr, body, clock));
    } else {
      assert forall i :: i in s.conns[c].reserved ==> Held(s1.jobs - {s.nextJob}, i, c);
      LiveWithout(s1.jobs, s.nextJob);
      FinishPutInv(s1, c, s.nextJob, body.value, clock, Nothing);
    }
  }

  /** The last byte of a job body arrived. */
  ghost predicate Reading(s: State, c: ConnId) {
    c in s.conns && s.conns[c].phase == WantData
  }

  lemma ReadingFacts(s: State, c: ConnId)
    requires Inv(s) && Reading(s, c)
    ensures s.conns[c].inJob.Some? && s.conns[c].inJob.value in s.jobs
    ensures !s.conns[c].waiting && s.conns[c].out == NoJob
    ensures var s1, j := DropIncoming(s, c), s.conns[c].inJob.value;
            && InFlight(s1, j) && Mid(s1, s1.jobs - {j}, Loose(c, None)) && NoLostWakeup(s1) && MemoFor(s1, c, j)
  {
    hide Mid, InFlight, NoLostWakeup, Inv, MemoOk;
    InvParts(s);
    MidParts(s, s.jobs, Nothing);
    hide Shape, Own, Waits, Counts, Refs, Phases, Memo;
    ConnFacts(s, c);
    var j := s.conns[c].inJob.value;
    LeaveIncomingMid(s, c, j);
    InFlightBy(DropIncoming(s, c), j, Loose(c, None));
    SameTubesNoLostWakeup(s, DropIncoming(s, c));
    SameMemo(s.jobs, s.conns[c], DropIncoming(s, c).conns[c]);
    SettledBy(s, Nothing);
    SettledKnows(s);
  }

  ghost function FinishBody(s: State, c: ConnId, trailerOk: bool, clock: Clock): State
    requires Inv(s) && Reading(s, c)
  {
    ReadingFacts(s, c);
    FinishPut(DropIncoming(s, c), c, s.conns[c].inJob.value, trailerOk, clock)
  }

  lemma FinishBodyInv(s: State, c: ConnId, trailerOk: bool, clock: Clock)
    requires Inv(s) && Reading(s, c)
    ensures Inv(FinishBody(s, c, trailerOk, clock))
  {
    hide Mid, InFlight, NoLostWakeup, Inv, MemoFor, FinishPut;
    ReadingFacts(s, c);
    FinishPutInv(DropIncoming(s, c), c, s.conns[c].inJob.value, trailerOk, clock, Loose(c, None));
  }
}
