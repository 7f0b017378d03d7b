/** The steps of the server: client commands, arrival and departure of connections,
    job timeouts and the cron tick (do_cmd, enqueue_incoming_job, conn_accept, conn_free,
    conn_timeout, conn_cron). */
module Steps {
  import opened Counting
  import opened Lists
  import opened State
  import opened Moves
  import opened JobMoves
  import opened Queue

  /** The invariant holds for all jobs but j, which is in no container. */
  ghost predicate InFlight(s: State, j: JobId) {
    Known(s, j) && exists d: Slack :: Mid(s, s.jobs - {j}, d)
  }

  lemma InsertKeys(s: State, j: JobId, delay: int, clock: Clock)
    requires Known(s, j)
    ensures SameKeys(s, Insert(s, j, delay, clock))
  {}

  /** A job that is not delayed becomes ready; only its tube's ready heap and urgent counter change with it. */
  lemma InsertEffect(s: State, j: JobId, clock: Clock)
    requires Known(s, j)
    ensures var s2 := Insert(s, j, 0, clock);
            && s2.conns == s.conns && s2.jobs == s.jobs[j := s.jobs[j].(reserver := None, state := Ready)] && SameKeys(s, s2)
            && (forall t :: t in s.tubes ==>
                 s2.tubes[t] == s.tubes[t].(ready := s2.tubes[t].ready, urgentCnt := s2.tubes[t].urgentCnt))
  {}

  lemma InsertSettled(s: State, j: JobId, delay: int, clock: Clock)
    requires InFlight(s, j)
    ensures Settled(Insert(s, j, delay, clock)) && SameKeys(s, Insert(s, j, delay, clock))
  {
    InsertKeys(s, j, delay, clock);
    hide Mid, Insert, SameKeys;
    var d :| Mid(s, s.jobs - {j}, d);
    InsertMid(s, j, delay, clock, d);
    SettledBy(Insert(s, j, delay, clock), d);
  }

  /** enqueue_job. */
  ghost function Enqueue(s: State, j: JobId, delay: int, clock: Clock): (r: State)
    requires InFlight(s, j)
    ensures SameKeys(s, r)
  {
    hide Mid, Insert, Settled, ProcessQueue;
    InsertSettled(s, j, delay, clock);
    ProcessQueue(Insert(s, j, delay, clock), clock)
  }

  lemma EnqueueMid(s: State, j: JobId, delay: int, clock: Clock, d: Slack)
    requires InFlight(s, j) && Mid(s, s.jobs - {j}, d)
    ensures Mid(Enqueue(s, j, delay, clock), Enqueue(s, j, delay, clock).jobs, d)
    ensures NoLostWakeup(Enqueue(s, j, delay, clock))
    ensures Served(Insert(s, j, delay, clock), Enqueue(s, j, delay, clock))
  {
    hide Mid, Insert, ProcessQueue, Served, NoLostWakeup, Settled;
    InsertSettled(s, j, delay, clock);
    InsertMid(s, j, delay, clock, d);
    ProcessQueueMid(Insert(s, j, delay, clock), clock, d);
  }

  lemma InFlightBy(s: State, j: JobId, d: Slack)
    requires Known(s, j) && Mid(s, s.jobs - {j}, d)
    ensures InFlight(s, j)
  {
    hide Mid;
  }

  /** Where a settled server's containers lead. */
  lemma SettledKnows(s: State)
    requires Settled(s)
    ensures forall j :: j in s.jobs ==> Known(s, j)
    ensures forall c, j :: c in s.conns && j in s.conns[c].reserved ==> Held(s.jobs, j, c)
    ensures forall t, j :: t in s.tubes && j in s.tubes[t].delayed ==> At(s.jobs, j, Delayed, t)
    ensures forall t, j :: t in s.tubes && j in s.tubes[t].buried ==> At(s.jobs, j, Buried, t)
  {
    hide Waits, Phases, Counts, Memo, Refs, Incoming;
    var d :| Mid(s, s.jobs, d);
  }

  /** A job taken off the reserved list of c, with some of its fields changed. */
  ghost function Recall(s: State, c: ConnId, j: JobId, pri: nat, delay: int, releases: nat, timeouts: nat): State
    requires c in s.conns && Known(s, j)
  {
    var s1 := ReservedRemove(s, c, j);
    PutJob(s1, j, s1.jobs[j].(pri := pri, delay := delay, releases := releases, timeouts := timeouts))
  }

  lemma RecallMid(s: State, c: ConnId, j: JobId, pri: nat, delay: int, releases: nat, timeouts: nat, d: Slack)
    requires Mid(s, s.jobs, d) && c in s.conns && Known(s, j)
    requires j in s.conns[c].reserved && s.conns[c].out != Live(j)
    ensures Mid(Recall(s, c, j, pri, delay, releases, timeouts), Recall(s, c, j, pri, delay, releases, timeouts).jobs - {j}, d)
    ensures InFlight(Recall(s, c, j, pri, delay, releases, timeouts), j)
  {
    hide Mid, InFlight;
    var s1 := ReservedRemove(s, c, j);
    var x := s1.jobs[j].(pri := pri, delay := delay, releases := releases, timeouts := timeouts);
    assert s1.jobs - {j} == s.jobs - {j};
    ReservedRemoveMid(s, c, j, d);
    TweakMid(s1, j, x, d);
    InFlightBy(PutJob(s1, j, x), j, d);
  }

  // ----- commands on one job -----

  /** The connection may issue a command. */
  ghost predicate Idle(s: State, c: ConnId) {
    c in s.conns && s.conns[c].phase == WantCommand
  }

  ghost predicate Holds(s: State, c: ConnId, j: JobId) {
    j in s.jobs && c in s.conns && j in s.conns[c].reserved
  }

  lemma IdleFacts(s: State, c: ConnId)
    requires Inv(s) && Idle(s, c)
    ensures s.conns[c].out == NoJob && !s.conns[c].waiting && s.conns[c].inJob == None
    ensures Settled(s) && Mid(s, s.jobs, Nothing)
    ensures forall j :: j in s.conns[c].reserved ==> Held(s.jobs, j, c)
    ensures forall j :: j in s.jobs ==> Known(s, j)
    ensures MemoOk(s.jobs, s.conns[c])
  {
    IdleConn(s, c);
    hide *;
    InvParts(s);
    MidParts(s, s.jobs, Nothing);
    SettledBy(s, Nothing);
    SettledKnows(s);
    ConnFacts(s, c);
    assert s.conns[c].out == NoJob && !s.conns[c].waiting && s.conns[c].inJob == None by { IdlePhase(s.jobs, c, s.conns[c]); }
  }

  lemma IdleConn(s: State, c: ConnId)
    requires Idle(s, c)
    ensures c in s.conns && s.conns[c].phase == WantCommand
  {}

  lemma IdlePhase(live: map<JobId, Job>, c: ConnId, x: Conn)
    requires ConnOk(live, c, x) && x.phase == WantCommand
    ensures x.out == NoJob && !x.waiting && x.inJob == None
  {}

  ghost function Release(s: State, c: ConnId, id: JobId, pri: nat, delay: int, clock: Clock): State
    requires Inv(s) && Idle(s, c)
  {
    if Holds(s, c, id) then
      IdleFacts(s, c);
      var x := s.jobs[id];
      RecallMid(s, c, id, pri, delay, x.releases + 1, x.timeouts, Nothing);
      SendReply(Enqueue(Recall(s, c, id, pri, delay, x.releases + 1, x.timeouts), id, delay, clock), c, Released)
    else SendReply(s, c, NotFound)
  }

  ghost function Bury(s: State, c: ConnId, id: JobId, pri: nat): State
    requires Inv(s) && Idle(s, c)
  {
    if Holds(s, c, id) then
      IdleFacts(s, c);
      var x := s.jobs[id];
      SendReply(BuryJob(Recall(s, c, id, pri, x.delay, x.releases, x.timeouts), id), c, BuriedMsg)
    else SendReply(s, c, NotFound)
  }

  ghost function Touch(s: State, c: ConnId, id: JobId, clock: Clock): State
    requires Inv(s) && Idle(s, c)
  {
    if Held(s.jobs, id, c) then
      var x := s.jobs[id];
      SendReply(PutConn(PutJob(s, id, x.(deadline := clock(s.tick) + x.ttr)), c, s.conns[c].(soonest := None))
                  .(tick := s.tick + 1), c, Touched)
    else SendReply(s, c, NotFound)
  }

  /** OP_DELETE as written: reserved by the caller; else ready; else the head of the tube's
      buried list is unlinked, whichever job that is; a delayed job is never found. */
  ghost function Delete(s: State, c: ConnId, id: JobId): State
    requires Inv(s) && Idle(s, c)
  {
    IdleFacts(s, c);
    if id !in s.jobs then SendReply(s, c, NotFound)
    else
      var x := s.jobs[id];
      if id in s.conns[c].reserved then Discard(ReservedRemove(s, c, id), c, id)
      else if x.state == Ready then Discard(ReadyRemove(s, id), c, id)
      else if s.tubes[x.tube].buried != [] then Discard(BuriedPop(s, x.tube), c, id)
      else SendReply(s, c, NotFound)
  }

  /** The tail of OP_DELETE: count the deletion, free the job, answer. */
  ghost function Discard(s: State, c: ConnId, id: JobId): State
    requires c in s.conns && Known(s, id)
  {
    var t := s.jobs[id].tube;
    SendReply(FreeJob(PutTube(s, t, s.tubes[t].(deleteCnt := s.tubes[t].deleteCnt + 1)), id), c, Deleted)
  }

  // ----- these commands keep the invariant -----

  lemma PutConnFrame(s: State, c: ConnId, k: Conn)
    requires c in s.conns
    requires k.waiting == s.conns[c].waiting && k.use == s.conns[c].use && k.watch == s.conns[c].watch
    ensures SameLinks(s, PutConn(s, c, k)) && SameWaiting(s, PutConn(s, c, k))
  {}

  lemma PutConnOwn(s: State, c: ConnId, k: Conn)
    requires c in s.conns && k.reserved == s.conns[c].reserved && k.inJob == s.conns[c].inJob
    requires Own(s.jobs, s)
    ensures Own(s.jobs, PutConn(s, c, k))
  {
    hide TubesOwn, ConnsOwn, Incoming;
    ConnsOwnFrame(s.jobs, s.jobs, s.conns, s.conns[c := k]);
    IncomingFrame(s.jobs, s.jobs, s.conns, s.conns[c := k]);
  }

  lemma PutConnCounts(s: State, c: ConnId, k: Conn, d: Slack)
    requires Counts(s.jobs, s, d)
    ensures Counts(s.jobs, PutConn(s, c, k), d)
  {
    hide Count;
  }

  lemma PutConnPhases(s: State, c: ConnId, k: Conn, d: Slack)
    requires c in s.conns && Phases(s.jobs, s, d) && Memo(s, d) && (d == Nothing || d == Loose(c, None))
    requires ConnOk(s.jobs, c, k) && MemoOk(s.jobs, k)
    ensures Phases(s.jobs, PutConn(s, c, k), Nothing) && Memo(PutConn(s, c, k), Nothing)
  {}

  /** A connection, loose or not, ends its own step in an orderly phase. */
  lemma PutConnMid(s: State, c: ConnId, k: Conn, d: Slack)
    requires c in s.conns && Mid(s, s.jobs, d) && (d == Nothing || d == Loose(c, None))
    requires k.waiting == s.conns[c].waiting && k.use == s.conns[c].use && k.watch == s.conns[c].watch
    requires k.reserved == s.conns[c].reserved && k.inJob == s.conns[c].inJob
    requires ConnOk(s.jobs, c, k) && MemoOk(s.jobs, k)
    ensures Mid(PutConn(s, c, k), PutConn(s, c, k).jobs, Nothing)
  {
    var s2 := PutConn(s, c, k);
    assert s2.jobs == s.jobs && NothingOwed(d) && NothingOwed(Nothing);
    hide *;
    MidParts(s, s.jobs, d);
    MidParts(s2, s2.jobs, Nothing);
    PutConnFrame(s, c, k);
    FrameShape(s, s2);
    FrameWaits(s, s2);
    FrameRefs(s, s2);
    PutConnOwn(s, c, k);
    CountsSlack(s.jobs, s, d, Nothing);
    PutConnCounts(s, c, k, Nothing);
    PutConnPhases(s, c, k, d);
  }

  lemma ConnFacts(s: State, c: ConnId)
    requires Phases(s.jobs, s, Nothing) && Memo(s, Nothing) && c in s.conns
    ensures ConnOk(s.jobs, c, s.conns[c]) && MemoOk(s.jobs, s.conns[c])
  {}

  lemma InvParts(s: State)
    ensures Inv(s) <==> Mid(s, s.jobs, Nothing) && NoLostWakeup(s)
  {
    hide Mid;
  }

  lemma SameTubesNoLostWakeup(s: State, s2: State)
    requires NoLostWakeup(s) && s2.tubes == s.tubes
    ensures NoLostWakeup(s2)
  {}

  /** A connection that is neither waiting nor receiving a body can be answered. */
  lemma ReplyInv(s: State, c: ConnId, m: Reply)
    requires Mid(s, s.jobs, Nothing) && NoLostWakeup(s)
    requires c in s.conns && !s.conns[c].waiting && s.conns[c].inJob == None
    ensures Inv(SendReply(s, c, m))
  {
    hide Mid, Inv, NoLostWakeup, Phases, Memo, Shape, Own, Waits, Refs, Counts;
    MidParts(s, s.jobs, Nothing);
    ConnFacts(s, c);
    var k := s.conns[c].(phase := SendWord, reply := m);
    PutConnMid(s, c, k, Nothing);
    InvParts(SendReply(s, c, m));
    SameTubesNoLostWakeup(s, SendReply(s, c, m));
  }

  lemma ServedConn(s: State, s2: State, c: ConnId)
    requires Served(s, s2) && c in s.conns && !s.conns[c].waiting
    ensures c in s2.conns && s2.conns[c] == s.conns[c]
  {}

  lemma InFlightKnown(s: State, j: JobId)
    requires InFlight(s, j)
    ensures Known(s, j) && j in s.jobs
  {
    hide Mid;
  }

  lemma InFlightInsert(s: State, j: JobId, delay: int, clock: Clock)
    requires InFlight(s, j)
    ensures Known(s, j) && Insert(s, j, delay, clock).conns == s.conns
  {
    hide InFlight;
    InFlightKnown(s, j);
  }

  /** enqueue_job on behalf of an idle connection, then the answer. */
  lemma EnqueueReplyInv(s: State, c: ConnId, j: JobId, delay: int, clock: Clock, m: Reply)
    requires InFlight(s, j) && Mid(s, s.jobs - {j}, Nothing)
    requires c in s.conns && !s.conns[c].waiting && s.conns[c].inJob == None
    ensures Inv(SendReply(Enqueue(s, j, delay, clock), c, m))
  {
    hide Mid, InFlight, Enqueue, Insert, Served, NoLostWakeup;
    InFlightInsert(s, j, delay, clock);
    EnqueueMid(s, j, delay, clock, Nothing);
    ServedConn(Insert(s, j, delay, clock), Enqueue(s, j, delay, clock), c);
    ReplyInv(Enqueue(s, j, delay, clock), c, m);
  }

  lemma RecallEffect(s: State, c: ConnId, j: JobId, pri: nat, delay: int, releases: nat, timeouts: nat)
    requires c in s.conns && Known(s, j)
    ensures var s2 := Recall(s, c, j, pri, delay, releases, timeouts);
            && s2.conns == s.conns[c := s.conns[c].(reserved := Unlink(s.conns[c].reserved, j), soonest := None)]
            && SameKeys(s, s2) && Known(s2, j)
            && s2.jobs == s.jobs[j := s.jobs[j].(reserver := None, pri := pri, delay := delay, releases := releases, timeouts := timeouts)]
            && (forall t :: t in s.tubes ==> s2.tubes[t] == s.tubes[t].(reservedCnt := s2.tubes[t].reservedCnt))
  {}

  lemma NotFoundInv(s: State, c: ConnId)
    requires Inv(s) && Idle(s, c)
    ensures Inv(SendReply(s, c, NotFound))
  {
    IdleFacts(s, c);
    hide Mid, Settled;
    ReplyInv(s, c, NotFound);
  }

  lemma ReleaseInv(s: State, c: ConnId, id: JobId, pri: nat, delay: int, clock: Clock)
    requires Inv(s) && Idle(s, c)
    ensures Inv(Release(s, c, id, pri, delay, clock))
  {
    hide Inv, Mid, Settled, Recall, Enqueue, SendReply, InFlight, SameKeys;
    IdleFacts(s, c);
    if Holds(s, c, id) {
      var x := s.jobs[id];
      RecallMid(s, c, id, pri, delay, x.releases + 1, x.timeouts, Nothing);
      RecallEffect(s, c, id, pri, delay, x.releases + 1, x.timeouts);
      EnqueueReplyInv(Recall(s, c, id, pri, delay, x.releases + 1, x.timeouts), c, id, delay, clock, Released);
    } else {
      NotFoundInv(s, c);
    }
  }

  lemma SameReadyNoLostWakeup(s: State, s2: State)
    requires NoLostWakeup(s) && s2.tubes.Keys <= s.tubes.Keys
    requires forall t :: t in s2.tubes ==>
               && (s2.tubes[t].pause == s.tubes[t].pause || s2.tubes[t].pause != 0)
               && s2.tubes[t].ready <= s.tubes[t].ready
               && (s.tubes[t].waiting.items == [] ==> s2.tubes[t].waiting.items == [])
    ensures NoLostWakeup(s2)
  {}

  lemma BuryEffect(s: State, j: JobId)
    requires Known(s, j)
    ensures BuryJob(s, j).conns == s.conns && SameKeys(s, BuryJob(s, j))
    ensures forall t :: t in s.tubes ==>
              BuryJob(s, j).tubes[t] == s.tubes[t].(buried := BuryJob(s, j).tubes[t].buried, buriedCnt := BuryJob(s, j).tubes[t].buriedCnt)
  {}

  lemma BuryInv(s: State, c: ConnId, id: JobId, pri: nat)
    requires Inv(s) && Idle(s, c)
    ensures Inv(Bury(s, c, id, pri))
  {
    hide Inv, Mid, Settled, Recall, BuryJob, SendReply, NoLostWakeup, InFlight;
    IdleFacts(s, c);
    InvParts(s);
    if Holds(s, c, id) {
      var x := s.jobs[id];
      var s1 := Recall(s, c, id, pri, x.delay, x.releases, x.timeouts);
      RecallMid(s, c, id, pri, x.delay, x.releases, x.timeouts, Nothing);
      RecallEffect(s, c, id, pri, x.delay, x.releases, x.timeouts);
      BuryMid(s1, id, Nothing);
      BuryEffect(s1, id);
      SameReadyNoLostWakeup(s, BuryJob(s1, id));
      ReplyInv(BuryJob(s1, id), c, BuriedMsg);
    } else {
      NotFoundInv(s, c);
    }
  }

  ghost function Postpone(s: State, c: ConnId, j: JobId, at: int): State
    requires c in s.conns && j in s.jobs
  {
    PutConn(PutJob(s, j, s.jobs[j].(deadline := at)), c, s.conns[c].(soonest := None))
  }

  lemma PostponeFrame(s: State, c: ConnId, j: JobId, at: int)
    requires c in s.conns && j in s.jobs
    ensures SameLinks(s, Postpone(s, c, j, at)) && SameWaiting(s, Postpone(s, c, j, at))
    ensures Postpone(s, c, j, at).tubes == s.tubes
  {}

  lemma PostponeOwn(s: State, c: ConnId, j: JobId, at: int)
    requires Own(s.jobs, s) && Held(s.jobs, j, c) && c in s.conns
    ensures Own(Postpone(s, c, j, at).jobs, Postpone(s, c, j, at))
  {
    var s2 := Postpone(s, c, j, at);
    assert SamePlaces(s.jobs, s2.jobs);
    hide TubesOwn, ConnsOwn, Incoming, SamePlaces;
    TubesOwnFrame(s.jobs, s2.jobs, s.tubes, s2.tubes);
    ConnsOwnFrame(s.jobs, s2.jobs, s.conns, s2.conns);
    IncomingFrame(s.jobs, s2.jobs, s.conns, s2.conns);
  }

  lemma PostponeRest(s: State, c: ConnId, j: JobId, at: int)
    requires ConnsOwn(s.jobs, s.conns) && Held(s.jobs, j, c) && c in s.conns
    requires Phases(s.jobs, s, Nothing) && Memo(s, Nothing)
    ensures Phases(Postpone(s, c, j, at).jobs, Postpone(s, c, j, at), Nothing)
    ensures Memo(Postpone(s, c, j, at), Nothing)
  {
    SamePlacesAt(s.jobs, Postpone(s, c, j, at).jobs);
  }

  lemma PostponeCounts(s: State, c: ConnId, j: JobId, at: int)
    requires c in s.conns && j in s.jobs && Counts(s.jobs, s, Nothing)
    ensures Counts(Postpone(s, c, j, at).jobs, Postpone(s, c, j, at), Nothing)
  {
    var s2 := Postpone(s, c, j, at);
    hide Count;
    CountSame(s.jobs, s2.jobs, HasState(Ready));
    CountSame(s.jobs, s2.jobs, Urgent());
    CountSame(s.jobs, s2.jobs, HasState(Reserved));
    CountSame(s.jobs, s2.jobs, HasState(Buried));
    forall t | t in s2.tubes ensures TubeCounts(s2.jobs, t, s2.tubes[t], Nothing) {
      PostponeTube(s, c, j, at, t);
    }
    hide Postpone, TubeCounts;
  }

  lemma PostponeTube(s: State, c: ConnId, j: JobId, at: int, t: TubeId)
    requires c in s.conns && j in s.jobs && t in s.tubes && TubeCounts(s.jobs, t, s.tubes[t], Nothing)
    ensures TubeCounts(Postpone(s, c, j, at).jobs, t, s.tubes[t], Nothing)
  {
    hide Count;
    var jobs := Postpone(s, c, j, at).jobs;
    CountSame(s.jobs, jobs, UrgentIn(t));
    CountSame(s.jobs, jobs, StateIn(Reserved, t));
    CountSame(s.jobs, jobs, StateIn(Buried, t));
  }

  lemma PostponeMid(s: State, c: ConnId, j: JobId, at: int)
    requires Mid(s, s.jobs, Nothing) && Held(s.jobs, j, c) && c in s.conns && j in s.jobs
    ensures Mid(Postpone(s, c, j, at), Postpone(s, c, j, at).jobs, Nothing)
  {
    var s2 := Postpone(s, c, j, at);
    hide *;
    MidParts(s, s.jobs, Nothing);
    MidParts(s2, s2.jobs, Nothing);
    PostponeFrame(s, c, j, at);
    FrameShape(s, s2);
    FrameWaits(s, s2);
    FrameRefs(s, s2);
    OwnParts(s.jobs, s);
    PostponeOwn(s, c, j, at);
    PostponeRest(s, c, j, at);
    PostponeCounts(s, c, j, at);
  }

  lemma TouchInv(s: State, c: ConnId, id: JobId, clock: Clock)
    requires Inv(s) && Idle(s, c)
    ensures Inv(Touch(s, c, id, clock))
  {
    hide Inv, Mid, Settled, NoLostWakeup;
    IdleFacts(s, c);
    InvParts(s);
    if Held(s.jobs, id, c) {
      var at := clock(s.tick) + s.jobs[id].ttr;
      var s1 := Postpone(s, c, id, at);
      PostponeMid(s, c, id, at);
      TickMid(s1, s1.jobs, s.tick + 1, Nothing);
      SameTubesNoLostWakeup(s, s1.(tick := s.tick + 1));
      ReplyInv(s1.(tick := s.tick + 1), c, Touched);
    } else {
      NotFoundInv(s, c);
    }
  }
}
