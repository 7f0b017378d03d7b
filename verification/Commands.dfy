/** do_cmd's commands on jobs, and the end of a job body, in place. */
module Commands {
  import opened State
  import opened Moves
  import opened JobMoves
  import opened Queue
  import opened Steps
  import opened JobCommands
  import Effects
  import opened Objects
  import opened Machine
  import opened Queueing
  import opened Dispatching

  // ----- enqueue_job -----

  lemma InFlightNoHeap(s: State, j: JobId)
    requires InFlight(s, j)
    ensures Known(s, j) && NoHeap(s, j)
  {
    var d :| Mid(s, s.jobs - {j}, d);
    hide *;
    InFlightKnown(s, j);
    MidParts(s, s.jobs - {j}, d);
    OwnParts(s.jobs - {j}, s);
    FlightNoHeap(s.jobs - {j}, s, j);
  }

  /** enqueue_job. */
  method EnqueueJob(sv: Server, j: JobId, delay: int)
    requires sv.Rep() && InFlight(sv.model, j)
    modifies sv.Repr
    ensures sv.Rep() && sv.Grows() && sv.model == Enqueue(old(sv.model), j, delay, sv.clock)
  {
    hide Server.Rep, InFlight, NoHeap, Moves.Insert, Queue.ProcessQueue, Settled, SameKeys;
    InFlightNoHeap(sv.model, j);
    InsertSettled(sv.model, j, delay, sv.clock);
    Queueing.Insert(sv, j, delay);
    Dispatching.ProcessQueue(sv);
  }

  // ----- conn_soonest_reserved_job -----

  /** conn_soonest_reserved_job: the memo, or the scan that fills it. */
  method FindSoonest(sv: Server, c: ConnId) returns (soonest: Option<JobId>)
    requires sv.Rep() && MemoKnown(sv.model, c) && forall j :: j in sv.model.conns[c].reserved ==> j in sv.model.jobs
    modifies sv.Repr
    ensures sv.Rep() && sv.Grows() && sv.model == FillMemo(old(sv.model), c)
    ensures c in sv.model.conns && soonest == sv.model.conns[c].soonest
  {
    hide Server.Rep;
    var k := sv.ConnRec(c);
    ghost var jobs := sv.model.jobs;
    soonest := k.soonest;
    if soonest == None {
      for i := 0 to |k.reserved|
        invariant soonest.Some? ==> soonest.value in jobs
        invariant Scan(jobs, k.reserved, None) == Scan(jobs, k.reserved[i..], soonest)
      {
        var j := k.reserved[i];
        if soonest == None || sv.JobRec(j).deadline <= sv.JobRec(soonest.value).deadline {
          soonest := Some(j);
        }
        assert k.reserved[i..][1..] == k.reserved[i + 1..];
      }
    }
    assert k.soonest.Some? ==> k.(soonest := soonest) == k;
    sv.SetConn(c, k.(soonest := soonest));
  }

  // ----- release, bury, touch, delete -----

  /** A reply of one line. */
  method Say(sv: Server, c: ConnId, m: Reply)
    requires sv.Rep() && c in sv.model.conns
    modifies sv.Repr
    ensures sv.Rep() && sv.Grows() && sv.model == SendReply(old(sv.model), c, m)
  {
    hide Server.Rep;
    sv.SetConn(c, sv.ConnRec(c).(phase := SendWord, reply := m));
  }

  lemma RecallOk(s: State, c: ConnId, j: JobId, pri: nat, delay: int, releases: nat, timeouts: nat, d: Slack)
    requires Mid(s, s.jobs, d) && c in s.conns && Known(s, j)
    requires j in s.conns[c].reserved && s.conns[c].out != Live(j)
    ensures var s1, x := ReservedRemove(s, c, j), s.jobs[j];
            && j in s1.jobs && s1.jobs[j] == x.(reserver := None) && NoHeap(s1, j)
    ensures var s2 := Recall(s, c, j, pri, delay, releases, timeouts);
            && InFlight(s2, j) && SameKeys(s, s2) && Mid(s2, s2.jobs - {j}, d)
  {
    hide Mid, InFlight;
    RecallMid(s, c, j, pri, delay, releases, timeouts, d);
    RecallEffect(s, c, j, pri, delay, releases, timeouts);
    InFlightNoHeap(Recall(s, c, j, pri, delay, releases, timeouts), j);
  }

  /** remove_reserved_job, and the fields of the job that its callers change next. */
  method TakeBack(sv: Server, c: ConnId, j: JobId, pri: nat, delay: int, releases: nat, timeouts: nat, ghost d: Slack)
    returns (found: bool)
    requires sv.Rep() && Mid(sv.model, sv.model.jobs, d) && c in sv.model.conns && Known(sv.model, j)
    requires sv.model.conns[c].out != Live(j)
    modifies sv.Repr
    ensures sv.Rep() && sv.Grows() && found == (j in old(sv.model).conns[c].reserved)
    ensures sv.model == if found then Recall(old(sv.model), c, j, pri, delay, releases, timeouts) else old(sv.model)
    ensures found ==> InFlight(sv.model, j) && SameKeys(old(sv.model), sv.model) && Mid(sv.model, sv.model.jobs - {j}, d)
  {
    hide Server.Rep, Mid, InFlight, NoHeap, ReservedRemove, SameKeys;
    ghost var s := sv.model;
    if j in s.conns[c].reserved { RecallOk(s, c, j, pri, delay, releases, timeouts, d); }
    var x := sv.JobRec(j);
    found := TakeReserved(sv, c, j);
    if found {
      sv.SetJob(j, x.(reserver := None, pri := pri, delay := delay, releases := releases, timeouts := timeouts));
    }
  }

  /** OP_RELEASE. */
  method Release(sv: Server, c: ConnId, id: JobId, pri: nat, delay: int)
    requires sv.Rep() && Inv(sv.model) && Idle(sv.model, c)
    modifies sv.Repr
    ensures sv.Rep() && sv.Grows() && sv.model == Steps.Release(old(sv.model), c, id, pri, delay, sv.clock)
  {
    hide Server.Rep, Inv, Mid, Settled, Recall, InFlight, Enqueue, SendReply, Known;
    IdleFacts(sv.model, c);
    var found := false;
    if sv.HasJob(id) {
      found := TakeBack(sv, c, id, pri, delay, sv.JobRec(id).releases + 1, sv.JobRec(id).timeouts, Nothing);
    }
    if found {
      EnqueueJob(sv, id, delay);
      Say(sv, c, Released);
    } else {
      Say(sv, c, NotFound);
    }
  }

  /** OP_BURY. */
  method Bury(sv: Server, c: ConnId, id: JobId, pri: nat)
    requires sv.Rep() && Inv(sv.model) && Idle(sv.model, c)
    modifies sv.Repr
    ensures sv.Rep() && sv.Grows() && sv.model == Steps.Bury(old(sv.model), c, id, pri)
  {
    hide Server.Rep, Inv, Mid, Settled, Recall, InFlight, BuryJob, SendReply, NoHeap;
    IdleFacts(sv.model, c);
    var found := false;
    if sv.HasJob(id) {
      var x := sv.JobRec(id);
      found := TakeBack(sv, c, id, pri, x.delay, x.releases, x.timeouts, Nothing);
    }
    if found {
      InFlightNoHeap(sv.model, id);
      BuryEffect(sv.model, id);
      Queueing.Bury(sv, id);
      Say(sv, c, BuriedMsg);
    } else {
      Say(sv, c, NotFound);
    }
  }

  /** A reserved job is in no heap. */
  lemma HeldNoHeap(s: State, j: JobId, c: ConnId)
    requires Inv(s) && Held(s.jobs, j, c)
    ensures NoHeap(s, j)
  {
    hide Shape, ConnsOwn, Incoming, Waits, Phases, Counts, Memo, Refs, NoLostWakeup;
    assert forall t :: !At(s.jobs, j, Ready, t) && !At(s.jobs, j, Delayed, t);
  }

  /** touch_job, once the job is found to be the caller's. */
  method Extend(sv: Server, c: ConnId, id: JobId)
    requires sv.Rep() && id in sv.model.jobs && c in sv.model.conns && NoHeap(sv.model, id)
    modifies sv.Repr
    ensures sv.Rep() && sv.Grows()
    ensures var s := old(sv.model); sv.model == Postpone(s, c, id, sv.clock(s.tick) + s.jobs[id].ttr).(tick := s.tick + 1)
  {
    hide Server.Rep, NoHeap;
    ghost var s := sv.model;
    var now := sv.Ustime();
    TickNoHeap(s, id);
    var x := sv.JobRec(id);
    sv.SetJob(id, x.(deadline := now + x.ttr));
    sv.SetConn(c, sv.ConnRec(c).(soonest := None));
  }

  /** OP_TOUCH, with touch_job. */
  method Touch(sv: Server, c: ConnId, id: JobId)
    requires sv.Rep() && Inv(sv.model) && Idle(sv.model, c)
    modifies sv.Repr
    ensures sv.Rep() && sv.Grows() && sv.model == Steps.Touch(old(sv.model), c, id, sv.clock)
  {
    hide Server.Rep, Inv, NoHeap, SendReply;
    var held := sv.HasJob(id) && sv.JobRec(id).reserver == Some(c) && sv.JobRec(id).state == Reserved;
    if held {
      HeldNoHeap(sv.model, id, c);
      Extend(sv, c, id);
      Say(sv, c, Touched);
    } else {
      Say(sv, c, NotFound);
    }
  }

  lemma TickNoHeap(s: State, j: JobId)
    requires NoHeap(s, j)
    ensures NoHeap(s.(tick := s.tick + 1), j)
  {}

  // ----- delete -----

  /** remove_ready_job. */
  method RemoveReady(sv: Server, j: JobId) returns (found: bool)
    requires sv.Rep() && Settled(sv.model) && Known(sv.model, j)
    modifies sv.Repr
    ensures sv.Rep() && sv.Grows() && found == (old(sv.model).jobs[j].state == Ready)
    ensures sv.model == if found then ReadyRemove(old(sv.model), j) else old(sv.model)
  {
    hide Server.Rep, Settled, ReadyRemove;
    found := sv.JobRec(j).state == Ready;
    if found {
      ReadyInHeap(sv.model, j);
      TakeReady(sv, j);
    }
  }

  lemma ReadyInHeap(s: State, j: JobId)
    requires Settled(s) && Known(s, j) && s.jobs[j].state == Ready
    ensures InHeapOf(s, s.jobs[j].tube, ByPri, j)
  {
    hide Shape, ConnsOwn, Incoming, Waits, Phases, Counts, Memo, Refs, NoLostWakeup;
    assert At(s.jobs, j, Ready, s.jobs[j].tube);
  }

  lemma MidNoHeap(s: State, live: map<JobId, Job>, j: JobId, d: Slack)
    requires Mid(s, live, d) && j !in live
    ensures NoHeap(s, j)
  {
    hide *;
    MidParts(s, live, d);
    OwnParts(live, s);
    FlightNoHeap(live, s, j);
  }

  /** OP_DELETE finds the job, or takes another one for it. */
  ghost predicate Found(s: State, c: ConnId, id: JobId)
    requires c in s.conns && Known(s, id)
  {
    id in s.conns[c].reserved || s.jobs[id].state == Ready || s.tubes[s.jobs[id].tube].buried != []
  }

  /** The state once it has looked with the caller, in the ready heap and at the head of the buried list. */
  ghost function Taken(s: State, c: ConnId, id: JobId): State
    requires c in s.conns && Known(s, id)
  {
    if id in s.conns[c].reserved then ReservedRemove(s, c, id)
    else if s.jobs[id].state == Ready then ReadyRemove(s, id)
    else if s.tubes[s.jobs[id].tube].buried != [] then BuriedPop(s, s.jobs[id].tube)
    else s
  }

  lemma DeleteIs(s: State, c: ConnId, id: JobId)
    requires Inv(s) && Idle(s, c) && id in s.jobs
    ensures c in s.conns && Known(s, id) && c in Taken(s, c, id).conns && Known(Taken(s, c, id), id)
    ensures Steps.Delete(s, c, id) == if Found(s, c, id) then Steps.Discard(Taken(s, c, id), c, id) else SendReply(s, c, NotFound)
    ensures !Found(s, c, id) ==> Taken(s, c, id) == s
  {
    hide Inv, Mid, Settled, Steps.Discard, ReservedRemove, ReadyRemove, BuriedPop;
    IdleFacts(s, c);
    TakenKeeps(s, c, id);
  }

  lemma TakenKeeps(s: State, c: ConnId, id: JobId)
    requires c in s.conns && Known(s, id)
    ensures c in Taken(s, c, id).conns && Known(Taken(s, c, id), id)
  {}

  /** The delete frees no job that is in a heap: the one it names is not delayed, or its tube has no buried job. */
  ghost predicate LeavesHeaps(s: State, c: ConnId, id: JobId)
    requires Inv(s) && Idle(s, c)
  {
    IdleFacts(s, c);
    id in s.jobs && s.jobs[id].state == Delayed ==> s.tubes[s.jobs[id].tube].buried == []
  }

  lemma SafeLeavesHeaps(s: State, c: ConnId, id: JobId)
    requires Inv(s) && Idle(s, c) && DeleteSafe(s, c, id)
    ensures LeavesHeaps(s, c, id)
  {
    hide Inv, Mid, Settled;
    IdleFacts(s, c);
    if id in s.jobs { Effects.WhereItIs(s, id); }
  }

  lemma TakenNoHeap(s: State, c: ConnId, id: JobId)
    requires c in s.conns && Known(s, id) && Idle(s, c) && Inv(s) && Found(s, c, id) && LeavesHeaps(s, c, id)
    ensures NoHeap(Taken(s, c, id), id)
  {
    hide Inv, Mid, Settled, ReservedRemove, ReadyRemove, BuriedPop, NoHeap;
    IdleFacts(s, c);
    if id in s.conns[c].reserved {
      ReservedRemoveMid(s, c, id, Nothing);
      MidNoHeap(ReservedRemove(s, c, id), s.jobs - {id}, id, Nothing);
    } else if s.jobs[id].state == Ready {
      ReadyRemoveMid(s, id, Nothing);
      MidNoHeap(ReadyRemove(s, id), s.jobs - {id}, id, Nothing);
    } else {
      ElsewhereNoHeap(s, id);
      PoppedNoHeap(s, s.jobs[id].tube, id);
    }
  }

  lemma ElsewhereNoHeap(s: State, j: JobId)
    requires Inv(s) && j in s.jobs && s.jobs[j].state != Ready && s.jobs[j].state != Delayed
    ensures NoHeap(s, j)
  {
    hide Inv;
    Effects.WhereItIs(s, j);
  }

  lemma PoppedNoHeap(s: State, t: TubeId, j: JobId)
    requires NoHeap(s, j) && t in s.tubes && s.tubes[t].buried != []
    ensures NoHeap(BuriedPop(s, t), j)
  {
    BuriedPopEffect(s, t);
    hide BuriedPop;
  }

  /** The tail of OP_DELETE. */
  method Discard(sv: Server, c: ConnId, id: JobId)
    requires sv.Rep() && c in sv.model.conns && Known(sv.model, id) && NoHeap(sv.model, id)
    modifies sv.Repr
    ensures sv.Rep() && sv.Grows() && sv.model == Steps.Discard(old(sv.model), c, id)
  {
    hide Server.Rep, SendReply;
    var t := sv.JobRec(id).tube;
    var x := sv.TubeRec(t);
    sv.SetTube(t, x.(deleteCnt := x.deleteCnt + 1));
    sv.RemoveJob(id);
    Say(sv, c, Deleted);
  }

  /** OP_DELETE looks for the job with the caller, among the ready and at the head of the buried. */
  method FindToDelete(sv: Server, c: ConnId, id: JobId) returns (found: bool)
    requires sv.Rep() && c in sv.model.conns && Known(sv.model, id) && Settled(sv.model)
    modifies sv.Repr
    ensures sv.Rep() && sv.Grows() && found == Found(old(sv.model), c, id) && sv.model == Taken(old(sv.model), c, id)
  {
    hide Server.Rep, Settled, ReservedRemove, ReadyRemove, BuriedPop;
    var t := sv.JobRec(id).tube;
    found := TakeReserved(sv, c, id);
    if !found { found := RemoveReady(sv, id); }
    if !found && sv.TubeRec(t).buried != [] {
      var oldest := PopBuried(sv, t);
      found := true;
    }
  }

  /** OP_DELETE. */
  method Delete(sv: Server, c: ConnId, id: JobId)
    requires sv.Rep() && Inv(sv.model) && Idle(sv.model, c) && LeavesHeaps(sv.model, c, id)
    modifies sv.Repr
    ensures sv.Rep() && sv.Grows() && sv.model == Steps.Delete(old(sv.model), c, id)
  {
    hide Server.Rep, Inv, Mid, Settled, NoHeap, SendReply, Steps.Discard, Found, Taken, LeavesHeaps;
    IdleFacts(sv.model, c);
    if sv.HasJob(id) {
      DeleteIs(sv.model, c, id);
      if Found(sv.model, c, id) { TakenNoHeap(sv.model, c, id); }
      var found := FindToDelete(sv, c, id);
      if found {
        Discard(sv, c, id);
      } else {
        Say(sv, c, NotFound);
      }
    } else {
      Say(sv, c, NotFound);
    }
  }

  // ----- put -----

  /** enqueue_incoming_job, once the connection no longer owns the job. */
  method FinishPut(sv: Server, c: ConnId, j: JobId, trailerOk: bool)
    requires sv.Rep() && c in sv.model.conns && InFlight(sv.model, j)
    modifies sv.Repr
    ensures sv.Rep() && sv.Grows() && sv.model == JobCommands.FinishPut(old(sv.model), c, j, trailerOk, sv.clock)
  {
    hide Server.Rep, InFlight, Enqueue, NoHeap, SendReply;
    InFlightNoHeap(sv.model, j);
    if !trailerOk {
      sv.RemoveJob(j);
      Say(sv, c, ExpectedCrlf);
    } else if sv.Own().drain {
      sv.RemoveJob(j);
      Say(sv, c, Draining);
    } else {
      var t := sv.JobRec(j).tube;
      EnqueueJob(sv, j, sv.JobRec(j).delay);
      var g := sv.Own();
      sv.SetStats(g.totalJobs + 1, g.timeoutCnt, g.drain);
      var x := sv.TubeRec(t);
      sv.SetTube(t, x.(totalCnt := x.totalCnt + 1));
      Say(sv, c, Inserted(j));
    }
  }

  /** job_create in the tube the connection uses. */
  method CreateJob(sv: Server, c: ConnId, pri: nat, delay: int, ttr: int) returns (id: JobId)
    requires sv.Rep() && c in sv.model.conns && sv.model.conns[c].use in sv.model.tubes && sv.model.nextJob !in sv.model.jobs
    modifies sv.Repr
    ensures sv.Rep() && sv.Grows() && id == old(sv.model).nextJob
    ensures sv.model == JobCommands.CreateJob(old(sv.model), c, pri, delay, ttr)
  {
    hide Server.Rep;
    var t := sv.ConnRec(c).use;
    id := sv.AddJob(Job(pri, delay, ttr, 0, Invalid, t, None, 0, 0, 0, 0, 0));
    var x := sv.TubeRec(t);
    sv.SetTube(t, x.(refs := x.refs + 1));
  }

  /** OP_PUT; body says whether the whole body came with the command, and how it ends. */
  method Put(sv: Server, c: ConnId, pri: nat, delay: int, ttr: int, body: Option<bool>)
    requires sv.Rep() && Inv(sv.model) && Idle(sv.model, c)
    modifies sv.Repr
    ensures sv.Rep() && sv.Grows() && sv.model == JobCommands.Put(old(sv.model), c, pri, delay, ttr, body, sv.clock)
  {
    hide Server.Rep, Inv, Mid, InFlight, JobCommands.CreateJob, JobCommands.FinishPut, NoLostWakeup;
    var ttr1 := if ttr < SECOND then SECOND else ttr;
    CreateInFlight(sv.model, c, pri, delay, ttr1);
    var id := CreateJob(sv, c, pri, delay, ttr1);
    if body == None {
      sv.SetConn(c, sv.ConnRec(c).(inJob := Some(id), phase := WantData));
    } else {
      FinishPut(sv, c, id, body.value);
    }
  }

  /** enqueue_incoming_job. */
  method FinishBody(sv: Server, c: ConnId, trailerOk: bool)
    requires sv.Rep() && Inv(sv.model) && Reading(sv.model, c)
    modifies sv.Repr
    ensures sv.Rep() && sv.Grows() && sv.model == JobCommands.FinishBody(old(sv.model), c, trailerOk, sv.clock)
  {
    hide Server.Rep, Inv, Mid, InFlight, JobCommands.FinishPut, NoLostWakeup, MemoFor;
    ReadingFacts(sv.model, c);
    var k := sv.ConnRec(c);
    sv.SetConn(c, k.(inJob := None));
    FinishPut(sv, c, k.inJob.value, trailerOk);
  }
}
