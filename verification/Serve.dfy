/** Handing a ready job to a waiting connection (the body of process_queue's loop) keeps the
    invariant. */
module Serve {
  import opened Counting
  import opened Lists
  import opened State
  import opened Moves
  import opened JobMoves

  /** conn_remove_waiting after set_take already took the connection out of one tube. */
  ghost function TakeAndLeave(s: State, t: TubeId, c: ConnId): State
    requires t in s.tubes && s.tubes[t].waiting.items != [] && c in s.conns
  {
    RemoveWaiting(TakeWaiter(s, t), c)
  }

  /** For each tube on its own: the waiting set loses exactly c, whichever way c left it. */
  lemma LeaveTubeWaits(s: State, t: TubeId, c: ConnId, u: TubeId)
    requires Waits(s) && t in s.tubes && s.tubes[t].waiting.items != [] && c == NextWaiter(s.tubes[t])
    requires u in s.tubes
    ensures c in s.conns
    ensures var y := TakeAndLeave(s, t, c).tubes[u];
            && NoDup(y.waiting.items) && y.waitingCnt == |y.waiting.items|
            && forall d :: d in y.waiting.items <==> d in s.tubes[u].waiting.items && d != c
  {
    assert c in s.tubes[t].waiting.items;
    assert WaitsOn(s.conns, c, t);
    SwapDeleteMembers(s.tubes[t].waiting.items, TakeIndex(s.tubes[t].waiting));
    SwapRemoveMembers(s.tubes[u].waiting.items, c);
    SwapRemoveMembers(Take(s.tubes[t].waiting).items, c);
    assert c in s.tubes[u].waiting.items <==> WaitsOn(s.conns, c, u);
  }

  lemma TakeAndLeaveWaits(s: State, t: TubeId, c: ConnId)
    requires Waits(s) && t in s.tubes && s.tubes[t].waiting.items != [] && c == NextWaiter(s.tubes[t])
    ensures c in s.conns && s.conns[c].waiting && t in s.conns[c].watch
    ensures Waits(TakeAndLeave(s, t, c))
  {
    LeaveTubeWaits(s, t, c, t);
    var s2 := TakeAndLeave(s, t, c);
    assert c in s.tubes[t].waiting.items;
    assert WaitsOn(s.conns, c, t);
    CountUpdate(s.conns, c, s.conns[c].(waiting := false), IsWaiting());
    forall u | u in s2.tubes
      ensures NoDup(s2.tubes[u].waiting.items) && s2.tubes[u].waitingCnt == |s2.tubes[u].waiting.items|
      ensures forall d :: d in s2.tubes[u].waiting.items <==> WaitsOn(s2.conns, d, u)
    {
      LeaveTubeWaits(s, t, c, u);
      forall d ensures WaitsOn(s2.conns, d, u) <==> WaitsOn(s.conns, d, u) && d != c {}
    }
  }

  /** reserve_job for the connection that just left all waiting sets. */
  ghost function Hand(s: State, t: TubeId, c: ConnId, j: JobId, clock: Clock): State
    requires t in s.tubes && s.tubes[t].waiting.items != [] && Known(s, j) && MemoKnown(s, c)
  {
    ReserveJob(TakeAndLeave(s, t, c), c, j, clock)
  }

  /** The preconditions of Hand, as process_queue meets them: c waits on t, j is t's. */
  ghost predicate CanHand(s: State, t: TubeId, c: ConnId, j: JobId) {
    && t in s.tubes && s.tubes[t].waiting.items != [] && c == NextWaiter(s.tubes[t])
    && j in s.jobs && s.jobs[j].tube == t
    && MemoKnown(s, c) && s.conns[c].waiting
  }

  /** What Hand changes in each tube ... */
  lemma HandTube(s: State, t: TubeId, c: ConnId, j: JobId, clock: Clock, u: TubeId)
    requires CanHand(s, t, c, j) && u in s.tubes
    ensures u in Hand(s, t, c, j, clock).tubes && u in TakeAndLeave(s, t, c).tubes
    ensures var x, w := s.tubes[u], TakeAndLeave(s, t, c).tubes[u];
            Hand(s, t, c, j, clock).tubes[u] ==
            x.(waiting := w.waiting, waitingCnt := w.waitingCnt, reservedCnt := x.reservedCnt + One(u == t))
  {}

  /** ... and everywhere else. */
  lemma HandRest(s: State, t: TubeId, c: ConnId, j: JobId, clock: Clock)
    requires CanHand(s, t, c, j)
    ensures var s2, k := Hand(s, t, c, j, clock), s.conns[c];
            && c in s2.conns && j in s2.jobs
            && s2.tubes.Keys == s.tubes.Keys
            && s2.conns == s.conns[c := s2.conns[c]] && s2.jobs == s.jobs[j := s2.jobs[j]]
            && s2 == s.(jobs := s2.jobs, conns := s2.conns, tubes := s2.tubes, waitingCnt := s.waitingCnt - 1,
                        reservedCnt := s.reservedCnt + 1, tick := s.tick + 1)
            && s2.jobs[j] == s.jobs[j].(deadline := clock(s.tick) + s.jobs[j].ttr, state := Reserved,
                                        reserver := Some(c), reserves := s.jobs[j].reserves + 1)
            && s2.conns[c] == k.(waiting := false, reserved := [j] + k.reserved, soonest := s2.conns[c].soonest,
                                 out := Live(j), phase := SendJob, reply := ReservedJob(j))
            && s2.conns[c].soonest == (if k.soonest.Some? && k.soonest.value != j
                                          && s2.jobs[j].deadline < s.jobs[k.soonest.value].deadline
                                       then Some(j) else k.soonest)
  {}

  lemma HandLinks(s: State, t: TubeId, c: ConnId, j: JobId, clock: Clock)
    requires CanHand(s, t, c, j)
    ensures SameLinks(s, Hand(s, t, c, j, clock))
  {
    var s2 := Hand(s, t, c, j, clock);
    HandRest(s, t, c, j, clock);
    forall u | u in s.tubes ensures SameTube(s.tubes[u], s2.tubes[u]) {
      HandTube(s, t, c, j, clock, u);
    }
    hide Hand, SameTube;
  }

  lemma TakeAndLeaveRest(s: State, t: TubeId, c: ConnId)
    requires t in s.tubes && s.tubes[t].waiting.items != [] && c in s.conns && s.conns[c].waiting
    ensures var s2 := TakeAndLeave(s, t, c);
            && s2.tubes.Keys == s.tubes.Keys && s2.conns == s.conns[c := s.conns[c].(waiting := false)]
            && s2.waitingCnt == s.waitingCnt - 1
  {}

  lemma HandWaits(s: State, t: TubeId, c: ConnId, j: JobId, clock: Clock)
    requires CanHand(s, t, c, j) && Waits(s)
    ensures Waits(Hand(s, t, c, j, clock))
  {
    hide Hand, TakeAndLeave, Waits, WaitsOn;
    var s2, s3 := Hand(s, t, c, j, clock), TakeAndLeave(s, t, c);
    TakeAndLeaveWaits(s, t, c);
    TakeAndLeaveRest(s, t, c);
    HandRest(s, t, c, j, clock);
    forall u | u in s.tubes
      ensures s2.tubes[u].waiting == s3.tubes[u].waiting && s2.tubes[u].waitingCnt == s3.tubes[u].waitingCnt
    {
      HandTube(s, t, c, j, clock, u);
    }
    FrameWaits(s3, s2);
  }

  lemma HandTubesOwn(s: State, t: TubeId, c: ConnId, j: JobId, clock: Clock)
    requires CanHand(s, t, c, j) && TubesOwn(s.jobs - {j}, s.tubes)
    ensures TubesOwn(Hand(s, t, c, j, clock).jobs, Hand(s, t, c, j, clock).tubes)
  {
    hide Hand;
    var s2 := Hand(s, t, c, j, clock);
    HandRest(s, t, c, j, clock);
    LiveWith(s.jobs, j, s2.jobs[j]);
    forall u | u in s2.tubes
      ensures s2.tubes[u].ready == s.tubes[u].ready && s2.tubes[u].delayed == s.tubes[u].delayed
      ensures s2.tubes[u].buried == s.tubes[u].buried
    {
      HandTube(s, t, c, j, clock, u);
    }
  }

  /** A job new to the view, reserved by c, at the head of c's list. */
  lemma ReserveOwn(live: map<JobId, Job>, conns: map<ConnId, Conn>, j: JobId, x: Job, c: ConnId, k: Conn)
    requires ConnsOwn(live, conns) && j !in live && c in conns
    requires x.state == Reserved && x.reserver == Some(c) && k.reserved == [j] + conns[c].reserved
    ensures ConnsOwn(live[j := x], conns[c := k])
  {
    assert live[j := x] - {j} == live;
    LiveWith(live, j, x);
    assert j !in conns[c].reserved;
  }

  lemma HandConnsOwn(s: State, t: TubeId, c: ConnId, j: JobId, clock: Clock)
    requires CanHand(s, t, c, j) && ConnsOwn(s.jobs - {j}, s.conns)
    ensures ConnsOwn(Hand(s, t, c, j, clock).jobs, Hand(s, t, c, j, clock).conns)
  {
    hide Hand, ConnsOwn;
    var s2 := Hand(s, t, c, j, clock);
    HandRest(s, t, c, j, clock);
    assert s2.jobs == (s.jobs - {j})[j := s2.jobs[j]];
    ReserveOwn(s.jobs - {j}, s.conns, j, s2.jobs[j], c, s2.conns[c]);
  }

  lemma HandPhases(s: State, t: TubeId, c: ConnId, j: JobId, clock: Clock, d: Slack)
    requires CanHand(s, t, c, j) && Phases(s.jobs - {j}, s, d) && Incoming(s.jobs - {j}, s.conns)
    ensures Phases(Hand(s, t, c, j, clock).jobs, Hand(s, t, c, j, clock), d)
    ensures Incoming(Hand(s, t, c, j, clock).jobs, Hand(s, t, c, j, clock).conns)
  {
    hide Hand, Incoming;
    var s2 := Hand(s, t, c, j, clock);
    HandRest(s, t, c, j, clock);
    LiveWith(s.jobs, j, s2.jobs[j]);
    IncomingFrame(s.jobs - {j}, s2.jobs, s.conns, s2.conns);
  }

  lemma HandMemo(s: State, t: TubeId, c: ConnId, j: JobId, clock: Clock, d: Slack)
    requires CanHand(s, t, c, j) && Memo(s, d) && ConnsOwn(s.jobs - {j}, s.conns) && Phases(s.jobs - {j}, s, d)
    ensures Memo(Hand(s, t, c, j, clock), d)
  {
    hide Hand, ConnOk;
    var s2 := Hand(s, t, c, j, clock);
    HandRest(s, t, c, j, clock);
    forall e | e in s2.conns && !Exempt(d, e) ensures MemoOk(s2.jobs, s2.conns[e]) {
      assert MemoOk(s.jobs, s.conns[e]);
      assert j !in s.conns[e].reserved;
    }
  }

  lemma HandCounts(s: State, t: TubeId, c: ConnId, j: JobId, clock: Clock)
    requires CanHand(s, t, c, j)
    ensures Drop(Hand(s, t, c, j, clock).jobs[j], Hand(s, t, c, j, clock), s)
    ensures Hand(s, t, c, j, clock).jobs - {j} == s.jobs - {j}
  {
    var s2 := Hand(s, t, c, j, clock);
    HandRest(s, t, c, j, clock);
    forall u | u in s2.tubes ensures TubeDrop(s2.jobs[j], u, s2.tubes[u], s.tubes[u]) {
      HandTube(s, t, c, j, clock, u);
    }
    hide Hand, TubeDrop;
  }

  lemma HandMid(s: State, t: TubeId, c: ConnId, j: JobId, clock: Clock, d: Slack)
    requires CanHand(s, t, c, j) && Mid(s, s.jobs - {j}, d)
    ensures Mid(Hand(s, t, c, j, clock), Hand(s, t, c, j, clock).jobs, d)
  {
    var s2 := Hand(s, t, c, j, clock);
    assert j in s.jobs && j in s2.jobs;
    hide *;
    MidParts(s, s.jobs - {j}, d);
    OwnParts(s.jobs - {j}, s);
    MidParts(s2, s2.jobs, d);
    OwnParts(s2.jobs, s2);
    HandLinks(s, t, c, j, clock);
    FrameShape(s, s2);
    FrameRefs(s, s2);
    HandWaits(s, t, c, j, clock);
    HandTubesOwn(s, t, c, j, clock);
    HandConnsOwn(s, t, c, j, clock);
    HandPhases(s, t, c, j, clock, d);
    HandMemo(s, t, c, j, clock, d);
    HandCounts(s, t, c, j, clock);
    CountsDrop(s2.jobs, j, s2, s, d);
  }

  /** An eligible job can be handed out. */
  lemma EligibleCanHand(s: State, j: JobId, d: Slack)
    requires TubesOwn(s.jobs, s.tubes) && Waits(s) && Memo(s, d) && Phases(s.jobs, s, d) && j in Eligible(s)
    ensures Known(s, j) && s.jobs[j].state == Ready
    ensures CanHand(s, s.jobs[j].tube, NextWaiter(s.tubes[s.jobs[j].tube]), j)
  {
    var t := s.jobs[j].tube;
    var c := NextWaiter(s.tubes[t]);
    assert At(s.jobs, j, Ready, t);
    assert c in s.tubes[t].waiting.items;
    assert WaitsOn(s.conns, c, t);
    assert MemoOk(s.jobs, s.conns[c]);
  }

  /** process_queue's body is the removal of the job followed by Hand. */
  lemma DispatchIsHand(s: State, j: JobId, clock: Clock)
    requires Known(s, j) && Open(s, s.jobs[j].tube)
    requires CanHand(s, s.jobs[j].tube, NextWaiter(s.tubes[s.jobs[j].tube]), j)
    ensures var t, s1 := s.jobs[j].tube, ReadyRemove(s, j);
            && s1.jobs == s.jobs && CanHand(s1, t, NextWaiter(s.tubes[t]), j)
            && Dispatch(s, j, clock) == Hand(s1, t, NextWaiter(s.tubes[t]), j, clock)
  {
    var t, s1 := s.jobs[j].tube, ReadyRemove(s, j);
    assert s1.jobs == s.jobs && s1.conns == s.conns && s1.tubes[t].waiting == s.tubes[t].waiting;
    hide ReadyRemove, ReserveJob, RemoveWaiting, TakeWaiter;
  }

  /** The loop body of process_queue keeps the invariant. */
  lemma DispatchMid(s: State, j: JobId, clock: Clock, d: Slack)
    requires Mid(s, s.jobs, d) && j in Eligible(s)
    ensures Known(s, j) && s.jobs[j].state == Ready && Open(s, s.jobs[j].tube)
    ensures MemoKnown(s, NextWaiter(s.tubes[s.jobs[j].tube]))
    ensures Mid(Dispatch(s, j, clock), Dispatch(s, j, clock).jobs, d)
  {
    var t := s.jobs[j].tube;
    assert Open(s, t);
    hide *;
    MidParts(s, s.jobs, d);
    OwnParts(s.jobs, s);
    EligibleCanHand(s, j, d);
    ReadyRemoveMid(s, j, d);
    DispatchIsHand(s, j, clock);
    HandMid(ReadyRemove(s, j), t, NextWaiter(s.tubes[t]), j, clock, d);
    CanHandMemo(s, t, NextWaiter(s.tubes[t]), j);
  }

  lemma CanHandMemo(s: State, t: TubeId, c: ConnId, j: JobId)
    requires CanHand(s, t, c, j)
    ensures MemoKnown(s, c)
  {}
}
