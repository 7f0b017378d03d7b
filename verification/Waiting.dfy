/** The waiting sets: reserve joins them, a timeout or a closing connection leaves them;
    and the memo of the soonest deadline. */
module Waiting {
  import opened Counting
  import opened Lists
  import opened State
  import opened Moves
  import opened JobMoves
  import opened Queue
  import opened Steps

  // ----- conn_soonest_reserved_job -----

  /** Memo or scan, the answer is a reserved job of least deadline; none only if none is reserved. */
  lemma SoonestIsLeast(s: State, c: ConnId)
    requires c in s.conns && MemoOk(s.jobs, s.conns[c])
    requires forall j :: j in s.conns[c].reserved ==> j in s.jobs
    ensures var s2 := FillMemo(s, c);
            var k := s2.conns[c];
            && MemoOk(s.jobs, k) && (k.soonest == None <==> k.reserved == [])
            && k == s.conns[c].(soonest := k.soonest) && s2 == s.(conns := s.conns[c := k])
            && (k.soonest.Some? ==>
                 && k.soonest.value in k.reserved
                 && forall j :: j in k.reserved ==> s.jobs[k.soonest.value].deadline <= s.jobs[j].deadline)
  {
    var r := s.conns[c].reserved;
    if s.conns[c].soonest == None && r != [] {
      assert r[0] in r;
    }
  }

  /** Filling the memo is invisible to everything but the memo. */
  lemma FillMemoMid(s: State, c: ConnId)
    requires Mid(s, s.jobs, Nothing) && c in s.conns
    requires forall j :: j in s.conns[c].reserved ==> j in s.jobs
    ensures Mid(FillMemo(s, c), s.jobs, Nothing) && FillMemo(s, c).tubes == s.tubes && FillMemo(s, c).jobs == s.jobs
  {
    hide Mid, Shape, Own, Waits, Phases, Counts, Memo, Refs;
    MidParts(s, s.jobs, Nothing);
    ConnFacts(s, c);
    SoonestIsLeast(s, c);
    var k := FillMemo(s, c).conns[c];
    hide FillMemo, MemoOk;
    SameConnOk(s.jobs, c, s.conns[c], k);
    PutConnMid(s, c, k, Nothing);
  }

  lemma SameConnOk(live: map<JobId, Job>, c: ConnId, x: Conn, y: Conn)
    requires ConnOk(live, c, x) && y == x.(soonest := y.soonest)
    ensures ConnOk(live, c, y)
  {}

  // ----- joining and leaving -----

  lemma JoinWaits(s: State, c: ConnId)
    requires Waits(s) && c in s.conns && !s.conns[c].waiting
    ensures Waits(EnqueueWaiting(s, c))
  {
    var s2 := EnqueueWaiting(s, c);
    CountUpdate(s.conns, c, s2.conns[c], IsWaiting());
    forall t | t in s2.tubes
      ensures NoDup(s2.tubes[t].waiting.items) && s2.tubes[t].waitingCnt == |s2.tubes[t].waiting.items|
      ensures forall e :: e in s2.tubes[t].waiting.items <==> WaitsOn(s2.conns, e, t)
    {
      assert c !in s.tubes[t].waiting.items by { assert !WaitsOn(s.conns, c, t); }
      forall e ensures WaitsOn(s2.conns, e, t) <==> WaitsOn(s.conns, e, t) || (e == c && t in s.conns[c].watch) {}
    }
  }

  lemma LeaveWaits(s: State, c: ConnId)
    requires Waits(s) && c in s.conns && s.conns[c].waiting
    ensures Waits(RemoveWaiting(s, c))
  {
    var s2 := RemoveWaiting(s, c);
    CountUpdate(s.conns, c, s2.conns[c], IsWaiting());
    forall t | t in s2.tubes
      ensures NoDup(s2.tubes[t].waiting.items) && s2.tubes[t].waitingCnt == |s2.tubes[t].waiting.items|
      ensures forall e :: e in s2.tubes[t].waiting.items <==> WaitsOn(s2.conns, e, t)
    {
      SwapRemoveMembers(s.tubes[t].waiting.items, c);
      assert c in s.tubes[t].waiting.items <==> WaitsOn(s.conns, c, t);
      forall e ensures WaitsOn(s2.conns, e, t) <==> WaitsOn(s.conns, e, t) && e != c {}
    }
  }

  /** s2 differs from s in the waiting sets and in fields of connection c that do not link it. */
  ghost predicate OnlyWaiting(s: State, c: ConnId, s2: State) {
    && c in s.conns && c in s2.conns && s2.conns == s.conns[c := s2.conns[c]]
    && s2.conns[c].use == s.conns[c].use && s2.conns[c].watch == s.conns[c].watch
    && s2.conns[c].reserved == s.conns[c].reserved && s2.conns[c].inJob == s.conns[c].inJob
    && s2.conns[c].soonest == s.conns[c].soonest
    && s2.tubes.Keys == s.tubes.Keys
    && (forall t :: t in s.tubes ==>
          s2.tubes[t] == s.tubes[t].(waiting := s2.tubes[t].waiting, waitingCnt := s2.tubes[t].waitingCnt))
    && s2 == s.(conns := s2.conns, tubes := s2.tubes, waitingCnt := s2.waitingCnt)
  }

  lemma OnlyWaitingLinks(s: State, c: ConnId, s2: State)
    requires OnlyWaiting(s, c, s2)
    ensures SameLinks(s, s2)
  {
    assert forall t :: t in s.tubes ==> SameTube(s.tubes[t], s2.tubes[t]);
    hide SameTube;
  }

  lemma OnlyWaitingOwn(s: State, c: ConnId, s2: State)
    requires OnlyWaiting(s, c, s2) && Own(s.jobs, s)
    ensures Own(s2.jobs, s2)
  {
    hide TubesOwn, ConnsOwn, Incoming;
    TubesOwnFrame(s.jobs, s2.jobs, s.tubes, s2.tubes);
    ConnsOwnFrame(s.jobs, s2.jobs, s.conns, s2.conns);
    IncomingFrame(s.jobs, s2.jobs, s.conns, s2.conns);
  }

  lemma OnlyWaitingRest(s: State, c: ConnId, s2: State, d: Slack)
    requires OnlyWaiting(s, c, s2) && Counts(s.jobs, s, Nothing) && Memo(s, Nothing) && Phases(s.jobs, s, Nothing)
    requires d == Nothing ==> ConnOk(s2.jobs, c, s2.conns[c])
    requires d == Loose(c, None) ==> !s2.conns[c].waiting && s2.conns[c].inJob == None && s2.conns[c].out == NoJob
    requires d == Nothing || d == Loose(c, None)
    ensures Counts(s2.jobs, s2, d) && Memo(s2, d) && Phases(s2.jobs, s2, d)
  {
    hide Count, ConnOk;
    assert MemoOk(s.jobs, s.conns[c]);
    CountsSlack(s2.jobs, s2, Nothing, d);
  }

  lemma OnlyWaitingMid(s: State, c: ConnId, s2: State, d: Slack)
    requires OnlyWaiting(s, c, s2) && Mid(s, s.jobs, Nothing) && Waits(s2) && c in s2.conns
    requires d == Nothing ==> ConnOk(s2.jobs, c, s2.conns[c])
    requires d == Loose(c, None) ==> !s2.conns[c].waiting && s2.conns[c].inJob == None && s2.conns[c].out == NoJob
    requires d == Nothing || d == Loose(c, None)
    ensures Mid(s2, s2.jobs, d)
  {
    hide *;
    MidParts(s, s.jobs, Nothing);
    MidParts(s2, s2.jobs, d);
    OnlyWaitingLinks(s, c, s2);
    FrameShape(s, s2);
    FrameRefs(s, s2);
    OnlyWaitingOwn(s, c, s2);
    OnlyWaitingRest(s, c, s2, d);
  }

  lemma RemoveWaitingNoLost(s: State, c: ConnId)
    requires NoLostWakeup(s) && c in s.conns
    ensures NoLostWakeup(RemoveWaiting(s, c))
  {
    assert forall t :: t in s.tubes && s.tubes[t].waiting.items == [] ==> SwapRemove(s.tubes[t].waiting.items, c) == [];
  }

  // ----- reserve -----

  /** conn_has_ready_job. */
  ghost predicate HasReady(s: State, c: ConnId)
    requires c in s.conns
  {
    exists t :: t in s.conns[c].watch && t in s.tubes && s.tubes[t].ready != {}
  }

  /** conn_deadline_soon, after the memo was filled. */
  ghost predicate DeadlineNear(s: State, c: ConnId, now: int)
    requires MemoKnown(s, c)
  {
    s.conns[c].soonest.Some? && now >= s.jobs[s.conns[c].soonest.value].deadline - SAFETY_MARGIN
  }

  /** wait_for_job without the tick heap. */
  ghost function StartWaiting(s: State, c: ConnId, timeout: int): State
    requires c in s.conns
  {
    EnqueueWaiting(PutConn(s, c, s.conns[c].(phase := Wait, pendingTimeout := timeout)), c)
  }

  lemma StartWaitingMid(s: State, c: ConnId, timeout: int)
    requires Mid(s, s.jobs, Nothing) && Idle(s, c) && !s.conns[c].waiting && s.conns[c].out == NoJob && s.conns[c].inJob == None
    ensures Mid(StartWaiting(s, c, timeout), StartWaiting(s, c, timeout).jobs, Nothing)
  {
    hide Mid, Waits;
    MidParts(s, s.jobs, Nothing);
    hide Shape, Own, Phases, Counts, Memo, Refs;
    var s1 := PutConn(s, c, s.conns[c].(phase := Wait, pendingTimeout := timeout));
    assert SameWaiting(s, s1);
    FrameWaits(s, s1);
    JoinWaits(s1, c);
    var s2 := StartWaiting(s, c, timeout);
    assert OnlyWaiting(s, c, s2);
    hide StartWaiting, OnlyWaiting;
    OnlyWaitingMid(s, c, s2, Nothing);
  }

  ghost function Reserve(s: State, c: ConnId, timeout: int, clock: Clock): State
    requires Inv(s) && Idle(s, c)
  {
    ReserveOk(s, c, timeout);
    var s1 := FillMemo(s.(tick := s.tick + 1), c);
    if DeadlineNear(s1, c, clock(s.tick)) && !HasReady(s1, c) then SendReply(s1, c, DeadlineSoon)
    else ProcessQueue(StartWaiting(s1, c, timeout), clock)
  }

  lemma ReserveOk(s: State, c: ConnId, timeout: int)
    requires Inv(s) && Idle(s, c)
    ensures forall j :: j in s.conns[c].reserved ==> j in s.jobs
    ensures var s1 := FillMemo(s.(tick := s.tick + 1), c);
            && MemoKnown(s1, c) && Settled(StartWaiting(s1, c, timeout))
            && Mid(s1, s1.jobs, Nothing) && NoLostWakeup(s1) && c in s1.conns
            && s1.conns[c] == s.conns[c].(soonest := s1.conns[c].soonest)
            && Mid(StartWaiting(s1, c, timeout), StartWaiting(s1, c, timeout).jobs, Nothing)
  {
    hide Inv, Mid, Settled, NoLostWakeup;
    IdleFacts(s, c);
    InvParts(s);
    var s0 := s.(tick := s.tick + 1);
    TickMid(s, s.jobs, s.tick + 1, Nothing);
    FillMemoMid(s0, c);
    SoonestIsLeast(s0, c);
    var s1 := FillMemo(s0, c);
    SameTubesNoLostWakeup(s, s1);
    hide FillMemo;
    StartWaitingMid(s1, c, timeout);
    SettledBy(StartWaiting(s1, c, timeout), Nothing);
  }

  lemma ReserveInv(s: State, c: ConnId, timeout: int, clock: Clock)
    requires Inv(s) && Idle(s, c)
    ensures Inv(Reserve(s, c, timeout, clock))
  {
    hide Inv, Mid, Settled, NoLostWakeup, FillMemo, StartWaiting, HasReady, Served, ProcessQueue, SendReply;
    ReserveOk(s, c, timeout);
    IdleFacts(s, c);
    var s1 := FillMemo(s.(tick := s.tick + 1), c);
    if DeadlineNear(s1, c, clock(s.tick)) && !HasReady(s1, c) {
      ReplyInv(s1, c, DeadlineSoon);
    } else {
      ProcessQueueMid(StartWaiting(s1, c, timeout), clock, Nothing);
      InvParts(ProcessQueue(StartWaiting(s1, c, timeout), clock));
    }
  }
}
