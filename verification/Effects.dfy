/** What each command does, told from outside: which jobs, tubes and connections change, and
    to what (the job lifecycle and the commands of the Beanstalk protocol). */
module Effects {
  import opened Lists
  import opened State
  import opened Moves
  import opened Queue
  import opened Steps
  import opened JobCommands

  // ----- enqueue_job -----

  /** A job x is put into its tube's queue: with a delay it is delayed until then; without one
      it is ready, or a connection that waited on its tube has it already. */
  ghost predicate JobQueued(s: State, x: Job, y: Job, delay: int, now: int) {
    if delay != 0 then y == x.(reserver := None, state := Delayed, deadline := now + delay)
    else
      y == x.(reserver := None, state := Ready) ||
      (&& y.reserver.Some? && WaitsOn(s.conns, y.reserver.value, x.tube)
       && y == x.(deadline := y.deadline, state := Reserved, reserver := y.reserver, reserves := x.reserves + 1))
  }

  /** A tube in which nothing but job j was queued, and process_queue may have run. */
  ghost predicate SameButFor(j: JobId, x: Tube, y: Tube) {
    && y.name == x.name && y.buried == x.buried && y.deadline == x.deadline && (y.pause == x.pause || y.pause == 0)
    && y.ready - {j} <= x.ready && y.delayed - {j} == x.delayed - {j}
  }

  ghost predicate TubesSame(s: State, j: JobId, s2: State) {
    && s2.tubes.Keys == s.tubes.Keys && s2.drain == s.drain
    && (forall t :: t in s.tubes ==> SameButFor(j, s.tubes[t], s2.tubes[t]))
  }

  lemma TubesSameTrans(a: State, j: JobId, b: State, c: State)
    requires TubesSame(a, j, b) && TubesSame(b, j, c)
    ensures TubesSame(a, j, c)
  {
    forall t | t in a.tubes ensures SameButFor(j, a.tubes[t], c.tubes[t]) {
      assert SameButFor(j, a.tubes[t], b.tubes[t]) && SameButFor(j, b.tubes[t], c.tubes[t]);
    }
  }

  /** All jobs but j, and all connections but c, are as they were or were served by process_queue. */
  ghost predicate OthersServed(s: State, j: JobId, c: ConnId, s2: State) {
    && (forall i :: i in s.jobs && i != j ==> i in s2.jobs && JobServed(s, s.jobs[i], s2.jobs[i]))
    && (forall d :: d in s.conns && d != c ==> d in s2.conns && ConnServed(s.conns[d], s2.conns[d]))
    && s2.conns.Keys == s.conns.Keys && TubesSame(s, j, s2)
  }

  lemma InsertJob(s: State, j: JobId, delay: int, clock: Clock)
    requires Known(s, j)
    ensures var s2, x := Insert(s, j, delay, clock), s.jobs[j].(reserver := None);
            && s2.conns == s.conns && SameKeys(s, s2) && s2.nextJob == s.nextJob && s2.totalJobs == s.totalJobs && TubesSame(s, j, s2)
            && s2.jobs == s.jobs[j := if delay != 0 then x.(deadline := clock(s.tick) + delay, state := Delayed) else x.(state := Ready)]
  {}

  lemma ServedGlobals(s: State, s2: State, j: JobId)
    requires Served(s, s2)
    ensures SameKeys(s, s2) && s2.nextJob == s.nextJob && s2.totalJobs == s.totalJobs && TubesSame(s, j, s2)
  {
    hide JobServed, ConnServed;
    assert forall t :: t in s.tubes ==> TubeServed(s.tubes[t], s2.tubes[t]);
  }

  lemma EnqueueExact(s: State, j: JobId, delay: int, clock: Clock, c: ConnId)
    requires InFlight(s, j) && c in s.conns && !s.conns[c].waiting
    ensures var r := Enqueue(s, j, delay, clock);
            && j in s.jobs && SameKeys(s, r) && r.nextJob == s.nextJob && r.totalJobs == s.totalJobs
            && JobQueued(s, s.jobs[j], r.jobs[j], delay, clock(s.tick))
            && OthersServed(s, j, c, r) && r.conns[c] == s.conns[c]
  {
    hide Mid, Enqueue, Insert, NoLostWakeup, Served, TubesSame;
    var d :| Mid(s, s.jobs - {j}, d);
    EnqueueMid(s, j, delay, clock, d);
    hide InFlight;
    InsertJob(s, j, delay, clock);
    var s1, r := Insert(s, j, delay, clock), Enqueue(s, j, delay, clock);
    ServedGlobals(s1, r, j);
    TubesSameTrans(s, j, s1, r);
    ServedConn(s1, r, c);
    QueuedBy(s, s1, j, delay, clock(s.tick), c, r);
  }

  lemma QueuedBy(s: State, s1: State, j: JobId, delay: int, now: int, c: ConnId, r: State)
    requires Served(s1, r) && j in s.jobs && s1.conns == s.conns && SameKeys(s, s1) && TubesSame(s, j, r)
    requires var x := s.jobs[j].(reserver := None);
             s1.jobs == s.jobs[j := if delay != 0 then x.(deadline := now + delay, state := Delayed) else x.(state := Ready)]
    ensures JobQueued(s, s.jobs[j], r.jobs[j], delay, now) && OthersServed(s, j, c, r)
  {
    assert forall i :: i in s.jobs ==> JobServed(s1, s1.jobs[i], r.jobs[i]);
    hide ConnServed, TubeServed, WaitsOn, TubesSame;
  }

  lemma OthersSay(s: State, j: JobId, c: ConnId, r: State, m: Reply)
    requires OthersServed(s, j, c, r) && c in s.conns
    ensures c in r.conns && OthersServed(s, j, c, SendReply(r, c, m))
  {
    hide JobServed, ConnServed, SameButFor;
  }

  /** What was served after s1 was served after s, when s1 differs from s in job j and connection c only. */
  lemma OthersFrom(s: State, s1: State, j: JobId, c: ConnId, r: State)
    requires OthersServed(s1, j, c, r) && SameKeys(s, s1) && TubesSame(s, j, s1) && c in s.conns && !s.conns[c].waiting && !s1.conns[c].waiting
    requires s1.conns == s.conns[c := s1.conns[c]] && j in s.jobs && s1.jobs == s.jobs[j := s1.jobs[j]]
    ensures OthersServed(s, j, c, r)
    ensures forall d, t :: WaitsOn(s1.conns, d, t) ==> WaitsOn(s.conns, d, t)
  {
    forall d, t | WaitsOn(s1.conns, d, t) ensures WaitsOn(s.conns, d, t) { assert d != c; }
    assert forall i :: i in s.jobs && i != j ==> JobServed(s1, s1.jobs[i], r.jobs[i]);
    TubesSameTrans(s, j, s1, r);
    hide ConnServed, WaitsOn, TubesSame;
  }

  // ----- release, bury, touch -----

  lemma RecallTubes(s: State, c: ConnId, j: JobId, pri: nat, delay: int, releases: nat, timeouts: nat)
    requires c in s.conns && Known(s, j)
    ensures Recall(s, c, j, pri, delay, releases, timeouts).tick == s.tick
    ensures TubesSame(s, j, Recall(s, c, j, pri, delay, releases, timeouts))
  {}

  /** release: the caller's job, with its new priority and delay, is queued again; nobody else's is. */
  lemma ReleaseExact(s: State, c: ConnId, id: JobId, pri: nat, delay: int, clock: Clock)
    requires Inv(s) && Idle(s, c)
    ensures var r := Release(s, c, id, pri, delay, clock);
            if Held(s.jobs, id, c) then
              && r.jobs.Keys == s.jobs.Keys && OthersServed(s, id, c, r)
              && JobQueued(s, s.jobs[id].(pri := pri, delay := delay, releases := s.jobs[id].releases + 1), r.jobs[id], delay, clock(s.tick))
              && r.conns[c] == s.conns[c].(reserved := Unlink(s.conns[c].reserved, id), soonest := None, phase := SendWord, reply := Released)
            else r == SendReply(s, c, NotFound)
  {
    hide Inv, Mid, Settled, Recall, Enqueue, SendReply, InFlight, SameKeys, OthersServed, JobQueued, Unlink;
    IdleFacts(s, c);
    HeldIsListed(s, c, id);
    if Held(s.jobs, id, c) {
      var x := s.jobs[id];
      RecallMid(s, c, id, pri, delay, x.releases + 1, x.timeouts, Nothing);
      RecallEffect(s, c, id, pri, delay, x.releases + 1, x.timeouts);
      RecallTubes(s, c, id, pri, delay, x.releases + 1, x.timeouts);
      var s1 := Recall(s, c, id, pri, delay, x.releases + 1, x.timeouts);
      EnqueueExact(s1, id, delay, clock, c);
      var r := Enqueue(s1, id, delay, clock);
      KeysSame(s, s1, r);
      OthersFrom(s, s1, id, c, r);
      QueuedFrom(s, s1, s1.jobs[id], r.jobs[id], delay, clock(s.tick), x.(pri := pri, delay := delay, releases := x.releases + 1));
      OthersSay(s, id, c, r, Released);
      SayConn(r, c, Released);
    }
  }

  lemma KeysSame(s: State, s1: State, r: State)
    requires SameKeys(s, s1) && SameKeys(s1, r)
    ensures r.jobs.Keys == s.jobs.Keys
  {}

  lemma SayConn(s: State, c: ConnId, m: Reply)
    requires c in s.conns
    ensures SendReply(s, c, m).conns[c] == s.conns[c].(phase := SendWord, reply := m) && SendReply(s, c, m).jobs == s.jobs
  {}

  lemma QueuedFrom(s: State, s1: State, x1: Job, y: Job, delay: int, now: int, x: Job)
    requires JobQueued(s1, x1, y, delay, now) && x1.(reserver := None) == x.(reserver := None)
    requires forall d, t :: WaitsOn(s1.conns, d, t) ==> WaitsOn(s.conns, d, t)
    ensures JobQueued(s, x, y, delay, now)
  {
    hide WaitsOn;
    assert x1.tube == x.tube && x1.reserves == x.reserves;
  }

  lemma HeldIsListed(s: State, c: ConnId, id: JobId)
    requires Inv(s) && c in s.conns
    ensures Held(s.jobs, id, c) <==> id in s.conns[c].reserved
    ensures Held(s.jobs, id, c) <==> Holds(s, c, id)
  {
    hide Shape, TubesOwn, Incoming, Waits, Phases, Counts, Memo, Refs, NoLostWakeup;
  }

  /** bury: the caller's job, with its new priority, goes to the end of its tube's buried list;
      nothing else moves. */
  lemma BuryExact(s: State, c: ConnId, id: JobId, pri: nat)
    requires Inv(s) && Idle(s, c)
    ensures var r := Bury(s, c, id, pri);
            if Held(s.jobs, id, c) then
              var x := s.jobs[id];
              && x.tube in s.tubes && r.tubes.Keys == s.tubes.Keys && r.drain == s.drain
              && r.jobs == s.jobs[id := x.(pri := pri, state := Buried, reserver := None, buries := x.buries + 1)]
              && r.conns == s.conns[c := s.conns[c].(reserved := Unlink(s.conns[c].reserved, id), soonest := None,
                                                     phase := SendWord, reply := BuriedMsg)]
              && (forall t :: t in s.tubes ==>
                   && r.tubes[t].buried == (if t == x.tube then s.tubes[t].buried + [id] else s.tubes[t].buried)
                   && r.tubes[t].ready == s.tubes[t].ready && r.tubes[t].delayed == s.tubes[t].delayed)
            else r == SendReply(s, c, NotFound)
  {
    hide Inv, Mid, Settled, InFlight, Unlink;
    IdleFacts(s, c);
    HeldIsListed(s, c, id);
    if Held(s.jobs, id, c) {
      var x := s.jobs[id];
      RecallMid(s, c, id, pri, x.delay, x.releases, x.timeouts, Nothing);
      BuriedSteps(s, c, id, pri);
    }
  }

  lemma BuriedSteps(s: State, c: ConnId, id: JobId, pri: nat)
    requires c in s.conns && Known(s, id)
    ensures var x := s.jobs[id]; var s1 := Recall(s, c, id, pri, x.delay, x.releases, x.timeouts);
            && Known(s1, id)
            && var r := BuryJob(s1, id);
               && r.tubes.Keys == s.tubes.Keys && r.drain == s.drain
               && r.jobs == s.jobs[id := x.(pri := pri, state := Buried, reserver := None, buries := x.buries + 1)]
               && r.conns == s.conns[c := s.conns[c].(reserved := Unlink(s.conns[c].reserved, id), soonest := None)]
               && (forall t :: t in s.tubes ==>
                    && r.tubes[t].buried == (if t == x.tube then s.tubes[t].buried + [id] else s.tubes[t].buried)
                    && r.tubes[t].ready == s.tubes[t].ready && r.tubes[t].delayed == s.tubes[t].delayed)
  {}

  /** touch: the caller's job gets its whole time to run again, from now on. */
  lemma TouchExact(s: State, c: ConnId, id: JobId, clock: Clock)
    requires Inv(s) && Idle(s, c)
    ensures var r := Touch(s, c, id, clock);
            if Held(s.jobs, id, c) then
              && r.jobs == s.jobs[id := s.jobs[id].(deadline := clock(s.tick) + s.jobs[id].ttr)] && r.tubes == s.tubes
              && r.conns == s.conns[c := s.conns[c].(soonest := None, phase := SendWord, reply := Touched)]
            else r == SendReply(s, c, NotFound)
  {
    hide Inv;
  }

  // ----- delete -----

  /** One more job of tube t has been deleted; tubes stay as open as they were, and so do their waiting sets. */
  ghost predicate CountsDeleted(s: State, t: TubeId, r: State) {
    && r.tubes.Keys == s.tubes.Keys
    && forall u :: u in s.tubes ==>
         && r.tubes[u].deleteCnt == s.tubes[u].deleteCnt + (if u == t then 1 else 0)
         && r.tubes[u].name == s.tubes[u].name && r.tubes[u].waiting == s.tubes[u].waiting
         && r.tubes[u].pause == s.tubes[u].pause && r.tubes[u].deadline == s.tubes[u].deadline
  }

  /** DELETED: job id is in no container and not in the index, and nothing else moved. */
  ghost predicate Deleting(s: State, c: ConnId, id: JobId, r: State) {
    && id in s.jobs && CountsDeleted(s, s.jobs[id].tube, r) && c in s.conns && c in r.conns && r.conns == s.conns[c := r.conns[c]]
    && r.conns[c] == s.conns[c].(reserved := Unlink(s.conns[c].reserved, id), soonest := r.conns[c].soonest,
                                 phase := SendWord, reply := Deleted)
    && r.jobs == s.jobs - {id} && r.tubes.Keys == s.tubes.Keys
    && (forall t :: t in s.tubes ==>
         && r.tubes[t].ready == s.tubes[t].ready - {id} && r.tubes[t].delayed == s.tubes[t].delayed
         && r.tubes[t].buried == Unlink(s.tubes[t].buried, id))
  }

  /** Where job id is, it is in no other place. */
  lemma WhereItIs(s: State, id: JobId)
    requires Inv(s) && id in s.jobs
    ensures s.jobs[id].tube in s.tubes
    ensures forall t :: t in s.tubes ==>
              && (id in s.tubes[t].ready <==> s.jobs[id].state == Ready && s.jobs[id].tube == t)
              && (id in s.tubes[t].delayed <==> s.jobs[id].state == Delayed && s.jobs[id].tube == t)
              && (id in s.tubes[t].buried <==> s.jobs[id].state == Buried && s.jobs[id].tube == t)
    ensures forall d :: d in s.conns && id in s.conns[d].reserved ==> s.jobs[id].state == Reserved
  {
    hide Incoming, Waits, Phases, Counts, Memo, Refs, NoLostWakeup;
    assert forall st, t :: At(s.jobs, id, st, t) <==> s.jobs[id].state == st && s.jobs[id].tube == t;
    assert forall d :: Held(s.jobs, id, d) ==> s.jobs[id].state == Reserved;
  }

  lemma ReservedGone(s: State, c: ConnId, id: JobId)
    requires c in s.conns && Known(s, id) && s.jobs[id].state == Reserved
    requires forall t :: t in s.tubes ==> id !in s.tubes[t].ready && id !in s.tubes[t].buried
    ensures Deleting(s, c, id, Discard(ReservedRemove(s, c, id), c, id))
  {
    hide Find;
  }

  lemma ReadyGone(s: State, c: ConnId, id: JobId)
    requires c in s.conns && Known(s, id) && id !in s.conns[c].reserved
    requires forall t :: t in s.tubes ==> id !in s.tubes[t].buried && (id in s.tubes[t].ready ==> t == s.jobs[id].tube)
    ensures Deleting(s, c, id, Discard(ReadyRemove(s, id), c, id))
  {
    hide Find;
  }

  lemma BuriedGone(s: State, c: ConnId, id: JobId)
    requires c in s.conns && Known(s, id) && id !in s.conns[c].reserved
    requires forall t :: t in s.tubes ==> id !in s.tubes[t].ready && (id in s.tubes[t].buried ==> t == s.jobs[id].tube)
    requires s.tubes[s.jobs[id].tube].buried != [] && s.tubes[s.jobs[id].tube].buried[0] == id
    ensures Deleting(s, c, id, Discard(BuriedPop(s, s.jobs[id].tube), c, id))
  {
    FirstHit(s.tubes[s.jobs[id].tube].buried, id, 0);
    hide Find;
  }

  lemma AnotherGone(s: State, c: ConnId, id: JobId)
    requires c in s.conns && Known(s, id) && s.tubes[s.jobs[id].tube].buried != []
    ensures Misdeleting(s, c, id, Discard(BuriedPop(s, s.jobs[id].tube), c, id))
  {}

  /** DELETED, but not safely: job id leaves the index and nothing else, and the oldest buried job of its tube
      leaves the buried list but not the index. */
  ghost predicate Misdeleting(s: State, c: ConnId, id: JobId, r: State) {
    && id in s.jobs && CountsDeleted(s, s.jobs[id].tube, r)
    && c in s.conns && r.conns == s.conns[c := s.conns[c].(phase := SendWord, reply := Deleted)]
    && r.jobs == s.jobs - {id} && r.tubes.Keys == s.tubes.Keys
    && (forall t :: t in s.tubes ==>
         && r.tubes[t].ready == s.tubes[t].ready && r.tubes[t].delayed == s.tubes[t].delayed
         && r.tubes[t].buried == (if t == s.jobs[id].tube && s.tubes[t].buried != [] then s.tubes[t].buried[1..] else s.tubes[t].buried))
  }

  /** Job id is in a tube with buried jobs. */
  ghost predicate BesideBuried(s: State, id: JobId) {
    id in s.jobs && s.jobs[id].tube in s.tubes && s.tubes[s.jobs[id].tube].buried != []
  }

  /** delete answers DELETED exactly when the caller reserved the job, it is ready, or its tube has
      buried jobs. Then the job is gone from the index; if the delete is safe it is gone from its container,
      too, and no other job changes; if not, the oldest buried job is what leaves its container. */
  lemma DeleteExact(s: State, c: ConnId, id: JobId)
    requires Inv(s) && Idle(s, c)
    ensures id in s.jobs ==> s.jobs[id].tube in s.tubes
    ensures var r := Delete(s, c, id);
            if id in s.jobs && (s.jobs[id].state == Ready || Held(s.jobs, id, c) || BesideBuried(s, id)) then
              if DeleteSafe(s, c, id) then Deleting(s, c, id, r) else Misdeleting(s, c, id, r)
            else r == SendReply(s, c, NotFound)
  {
    hide Inv, Mid, Settled, Discard, ReservedRemove, ReadyRemove, BuriedPop, Deleting, Misdeleting;
    IdleFacts(s, c);
    HeldIsListed(s, c, id);
    if id in s.jobs {
      WhereItIs(s, id);
      if Held(s.jobs, id, c) {
        ReservedGone(s, c, id);
      } else if s.jobs[id].state == Ready {
        ReadyGone(s, c, id);
      } else if s.tubes[s.jobs[id].tube].buried != [] {
        if DeleteSafe(s, c, id) { BuriedGone(s, c, id); } else { AnotherGone(s, c, id); }
      }
    }
  }

  // ----- put -----

  /** The end of a put: the new job is queued and counted, or dropped without a trace. */
  lemma FinishPutExact(s: State, c: ConnId, j: JobId, trailerOk: bool, clock: Clock)
    requires InFlight(s, j) && c in s.conns && !s.conns[c].waiting
    ensures var r := FinishPut(s, c, j, trailerOk, clock);
            && j in s.jobs && c in r.conns && r.nextJob == s.nextJob
            && if trailerOk && !s.drain then
                 && r.jobs.Keys == s.jobs.Keys && OthersServed(s, j, c, r)
                 && JobQueued(s, s.jobs[j], r.jobs[j], s.jobs[j].delay, clock(s.tick))
                 && r.conns[c] == s.conns[c].(phase := SendWord, reply := Inserted(j)) && r.totalJobs == s.totalJobs + 1
               else
                 && r.jobs == s.jobs - {j} && r.tubes == s.tubes && r.totalJobs == s.totalJobs
                 && r.conns == s.conns[c := s.conns[c].(phase := SendWord, reply := if trailerOk then Draining else ExpectedCrlf)]
  {
    hide InFlight, Enqueue, OthersServed, JobQueued, SameKeys;
    InFlightKnown(s, j);
    EnqueueExact(s, j, s.jobs[j].delay, clock, c);
    if trailerOk && !s.drain {
      var s1, t := Enqueue(s, j, s.jobs[j].delay, clock), s.jobs[j].tube;
      KeysSame(s, s, s1) by { KeysRefl(s); }
      TubeKept(s, s1, t);
      var s2 := PutTube(s1, t, s1.tubes[t].(totalCnt := s1.tubes[t].totalCnt + 1)).(totalJobs := s1.totalJobs + 1);
      OthersCounted(s, j, c, s1, s2, t);
      OthersSay(s, j, c, s2, Inserted(j));
    }
  }

  lemma KeysRefl(s: State)
    ensures SameKeys(s, s)
  {}

  lemma TubeKept(s: State, s1: State, t: TubeId)
    requires SameKeys(s, s1) && t in s.tubes
    ensures t in s1.tubes
  {}

  lemma OthersCounted(s: State, j: JobId, c: ConnId, s1: State, s2: State, t: TubeId)
    requires OthersServed(s, j, c, s1) && t in s1.tubes
    requires s2 == PutTube(s1, t, s1.tubes[t].(totalCnt := s1.tubes[t].totalCnt + 1)).(totalJobs := s1.totalJobs + 1)
    ensures OthersServed(s, j, c, s2)
  {
    hide JobServed, ConnServed;
  }

  /** put whose body came at once: a job with an id never used before, at least one second to run,
      in the tube the client uses; queued if the body ended well, else forgotten. */
  lemma PutExact(s: State, c: ConnId, pri: nat, delay: int, ttr: int, trailerOk: bool, clock: Clock)
    requires Inv(s) && Idle(s, c)
    ensures var r, id := Put(s, c, pri, delay, ttr, Some(trailerOk), clock), s.nextJob;
            var x := Job(pri, delay, if ttr < SECOND then SECOND else ttr, 0, Invalid, s.conns[c].use, None, 0, 0, 0, 0, 0);
            && id !in s.jobs && r.nextJob == id + 1 && c in r.conns
            && if trailerOk && !s.drain then
                 && r.jobs.Keys == s.jobs.Keys + {id} && JobQueued(s, x, r.jobs[id], delay, clock(s.tick))
                 && OthersServed(s, id, c, r) && r.conns[c] == s.conns[c].(phase := SendWord, reply := Inserted(id))
                 && r.totalJobs == s.totalJobs + 1
               else
                 && r.jobs == s.jobs && r.tubes.Keys == s.tubes.Keys && r.totalJobs == s.totalJobs
                 && r.conns == s.conns[c := s.conns[c].(phase := SendWord, reply := if trailerOk then Draining else ExpectedCrlf)]
  {
    hide Inv, Mid, InFlight, FinishPut, NoLostWakeup, OthersServed, JobQueued, Settled;
    IdleFacts(s, c);
    var ttr1 := if ttr < SECOND then SECOND else ttr;
    CreateInFlight(s, c, pri, delay, ttr1);
    CreatedIs(s, c, pri, delay, ttr1);
    var s1 := CreateJob(s, c, pri, delay, ttr1);
    hide CreateJob;
    FinishPutExact(s1, c, s.nextJob, trailerOk, clock);
    if trailerOk && !s.drain {
      OthersCreated(s, s1, c, FinishPut(s1, c, s.nextJob, trailerOk, clock));
      QueuedSame(s, s1, s1.jobs[s.nextJob], FinishPut(s1, c, s.nextJob, trailerOk, clock).jobs[s.nextJob], delay, clock(s.tick));
    }
  }

  lemma CreatedIs(s: State, c: ConnId, pri: nat, delay: int, ttr: int)
    requires c in s.conns && s.conns[c].use in s.tubes && s.nextJob !in s.jobs
    ensures var s1 := CreateJob(s, c, pri, delay, ttr);
            && s1.jobs == s.jobs[s.nextJob := Job(pri, delay, ttr, 0, Invalid, s.conns[c].use, None, 0, 0, 0, 0, 0)]
            && s1.conns == s.conns && s1.tubes.Keys == s.tubes.Keys && s1.nextJob == s.nextJob + 1 && s1.tick == s.tick
            && s1.drain == s.drain && s1.totalJobs == s.totalJobs
            && s1.jobs - {s.nextJob} == s.jobs && TubesSame(s, s.nextJob, s1)
  {}

  lemma OthersCreated(s: State, s1: State, c: ConnId, r: State)
    requires OthersServed(s1, s.nextJob, c, r) && s1.conns == s.conns && TubesSame(s, s.nextJob, s1)
    requires s.nextJob !in s.jobs && s.nextJob in s1.jobs && s1.jobs == s.jobs[s.nextJob := s1.jobs[s.nextJob]]
    ensures OthersServed(s, s.nextJob, c, r)
  {
    TubesSameTrans(s, s.nextJob, s1, r);
    hide ConnServed, TubesSame;
    assert forall i :: i in s.jobs ==> i in s1.jobs && s1.jobs[i] == s.jobs[i] && i != s.nextJob;
    assert forall x, y :: JobServed(s1, x, y) ==> JobServed(s, x, y);
  }

  lemma QueuedSame(s: State, s1: State, x: Job, y: Job, delay: int, now: int)
    requires JobQueued(s1, x, y, delay, now) && s1.conns == s.conns
    ensures JobQueued(s, x, y, delay, now)
  {
    hide WaitsOn;
  }

  /** The last byte of a body: the job that was being read is queued, or forgotten. */
  lemma FinishBodyExact(s: State, c: ConnId, trailerOk: bool, clock: Clock)
    requires Inv(s) && Reading(s, c)
    ensures s.conns[c].inJob.Some? && s.conns[c].inJob.value in s.jobs
    ensures var r, j := FinishBody(s, c, trailerOk, clock), s.conns[c].inJob.value;
            var k := s.conns[c].(inJob := None, phase := SendWord);
            && c in r.conns
            && if trailerOk && !s.drain then
                 && r.jobs.Keys == s.jobs.Keys && OthersServed(s, j, c, r) && r.conns[c] == k.(reply := Inserted(j))
                 && JobQueued(s, s.jobs[j], r.jobs[j], s.jobs[j].delay, clock(s.tick)) && r.totalJobs == s.totalJobs + 1
               else
                 && r.jobs == s.jobs - {j} && r.tubes == s.tubes && r.totalJobs == s.totalJobs
                 && r.conns == s.conns[c := k.(reply := if trailerOk then Draining else ExpectedCrlf)]
  {
    hide Mid, InFlight, NoLostWakeup, Inv, MemoFor, FinishPut, OthersServed, JobQueued;
    ReadingFacts(s, c);
    var s1, j := DropIncoming(s, c), s.conns[c].inJob.value;
    FinishPutExact(s1, c, j, trailerOk, clock);
    if trailerOk && !s.drain {
      var r := FinishPut(s1, c, j, trailerOk, clock);
      KeysRefl(s);
      assert SameKeys(s, s1) && TubesSame(s, j, s1);
      OthersFrom(s, s1, j, c, r);
      QueuedFrom(s, s1, s1.jobs[j], r.jobs[j], s.jobs[j].delay, clock(s.tick), s.jobs[j]);
    }
  }
}
