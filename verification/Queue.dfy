/** process_queue: hand ready jobs to waiting connections until none can be handed out. */
module Queue {
  import opened Counting
  import opened State
  import opened Moves
  import opened JobMoves
  import opened Serve

  /** The invariant holds, with or without a loose connection. */
  ghost predicate Settled(s: State) {
    exists d: Slack :: Mid(s, s.jobs, d)
  }

  /** Plain statistics and the clock position do not matter to the invariant. */
  ghost predicate StatsOnly(s: State, s2: State) {
    s2 == s.(tick := s2.tick, totalJobs := s2.totalJobs, timeoutCnt := s2.timeoutCnt, drain := s2.drain)
  }

  lemma StatsFrame(s: State, s2: State, live: map<JobId, Job>, d: Slack)
    requires StatsOnly(s, s2)
    ensures SameLinks(s, s2) && SameWaiting(s, s2)
    ensures Own(live, s) ==> Own(live, s2)
    ensures Phases(live, s, d) ==> Phases(live, s2, d)
    ensures Counts(live, s, d) ==> Counts(live, s2, d)
    ensures Memo(s, d) ==> Memo(s2, d)
    ensures NoLostWakeup(s) ==> NoLostWakeup(s2)
  {
    hide TubesOwn, ConnsOwn, Incoming, ConnOk, TubeCounts, MemoOk;
  }

  lemma StatsMid(s: State, s2: State, live: map<JobId, Job>, d: Slack)
    requires Mid(s, live, d) && StatsOnly(s, s2)
    ensures Mid(s2, live, d)
  {
    hide *;
    MidParts(s, live, d);
    MidParts(s2, live, d);
    StatsFrame(s, s2, live, d);
    FrameShape(s, s2);
    FrameWaits(s, s2);
    FrameRefs(s, s2);
  }

  lemma TickMid(s: State, live: map<JobId, Job>, n: nat, d: Slack)
    requires Mid(s, live, d)
    ensures Mid(s.(tick := n), live, d)
  {
    hide Mid;
    StatsMid(s, s.(tick := n), live, d);
  }

  /** Nor do a tube's own statistics, nor how long it is paused. */
  ghost predicate TubeStatsOnly(s: State, t: TubeId, x: Tube) {
    && t in s.tubes && (0 <= s.tubes[t].pause ==> 0 <= x.pause)
    && x == s.tubes[t].(pause := x.pause, deadline := x.deadline, pauseCnt := x.pauseCnt, deleteCnt := x.deleteCnt,
                        totalCnt := x.totalCnt)
  }

  lemma TubeStatsFrame(s: State, t: TubeId, x: Tube)
    requires TubeStatsOnly(s, t, x)
    ensures SameLinks(s, PutTube(s, t, x)) && SameWaiting(s, PutTube(s, t, x))
  {}

  lemma TubeStatsRest(s: State, t: TubeId, x: Tube, live: map<JobId, Job>, d: Slack)
    requires TubeStatsOnly(s, t, x)
    ensures Phases(live, s, d) ==> Phases(live, PutTube(s, t, x), d)
    ensures Counts(live, s, d) ==> Counts(live, PutTube(s, t, x), d)
    ensures Memo(s, d) ==> Memo(PutTube(s, t, x), d)
  {
    hide ConnOk, MemoOk, Count;
  }

  lemma TubeStatsOwn(s: State, t: TubeId, x: Tube, live: map<JobId, Job>)
    requires TubeStatsOnly(s, t, x) && Own(live, s)
    ensures Own(live, PutTube(s, t, x))
  {
    hide TubesOwn, ConnsOwn, Incoming;
    TubesOwnFrame(live, live, s.tubes, s.tubes[t := x]);
  }

  lemma TubeStatsMid(s: State, t: TubeId, x: Tube, live: map<JobId, Job>, d: Slack)
    requires Mid(s, live, d) && TubeStatsOnly(s, t, x)
    ensures Mid(PutTube(s, t, x), live, d)
  {
    var s2 := PutTube(s, t, x);
    hide *;
    MidParts(s, live, d);
    MidParts(s2, live, d);
    TubeStatsFrame(s, t, x);
    TubeStatsRest(s, t, x, live, d);
    TubeStatsOwn(s, t, x, live);
    FrameShape(s, s2);
    FrameWaits(s, s2);
    FrameRefs(s, s2);
  }

  lemma ClearPausesFrame(s: State, now: int)
    ensures SameLinks(s, ClearPauses(s, now)) && SameWaiting(s, ClearPauses(s, now))
  {}

  lemma ClearPausesRest(s: State, now: int, d: Slack)
    requires Own(s.jobs, s) && Counts(s.jobs, s, d) && Phases(s.jobs, s, d) && Memo(s, d)
    ensures var s2 := ClearPauses(s, now);
            Own(s2.jobs, s2) && Counts(s2.jobs, s2, d) && Phases(s2.jobs, s2, d) && Memo(s2, d)
  {
    hide TubesOwn, ConnsOwn, Incoming, ConnOk, MemoOk;
    TubesOwnFrame(s.jobs, s.jobs, s.tubes, ClearPauses(s, now).tubes);
  }

  lemma ClearPausesMid(s: State, now: int, d: Slack)
    requires Mid(s, s.jobs, d)
    ensures Mid(ClearPauses(s, now), ClearPauses(s, now).jobs, d)
  {
    var s2 := ClearPauses(s, now);
    hide *;
    MidParts(s, s.jobs, d);
    MidParts(s2, s2.jobs, d);
    ClearPausesFrame(s, now);
    FrameShape(s, s2);
    FrameWaits(s, s2);
    FrameRefs(s, s2);
    ClearPausesRest(s, now, d);
  }

  // ----- what a run of process_queue may change -----

  /** A job is untouched, or it was ready and now is reserved by a connection that waited on its tube. */
  ghost predicate JobServed(s: State, x: Job, y: Job) {
    y == x ||
    (&& x.state == Ready && y.reserver.Some? && WaitsOn(s.conns, y.reserver.value, x.tube)
     && y == x.(deadline := y.deadline, state := Reserved, reserver := y.reserver, reserves := x.reserves + 1))
  }

  /** A connection is untouched, or it waited and now sends the job at the head of its list. */
  predicate ConnServed(x: Conn, y: Conn) {
    y == x ||
    (&& x.waiting && y.out.Live?
     && y == x.(waiting := false, reserved := [y.out.job] + x.reserved, soonest := y.soonest,
                out := y.out, phase := SendJob, reply := ReservedJob(y.out.job)))
  }

  ghost predicate TubeServed(x: Tube, y: Tube) {
    && y == x.(ready := y.ready, waiting := y.waiting, pause := y.pause, urgentCnt := y.urgentCnt,
               reservedCnt := y.reservedCnt, waitingCnt := y.waitingCnt)
    && y.ready <= x.ready && (y.pause == x.pause || y.pause == 0)
    && (forall c :: c in y.waiting.items ==> c in x.waiting.items)
  }

  ghost predicate Served(s: State, s2: State) {
    && s2.jobs.Keys == s.jobs.Keys && s2.conns.Keys == s.conns.Keys && s2.tubes.Keys == s.tubes.Keys
    && (forall j :: j in s.jobs ==> JobServed(s, s.jobs[j], s2.jobs[j]))
    && (forall c :: c in s.conns ==> ConnServed(s.conns[c], s2.conns[c]))
    && (forall t :: t in s.tubes ==> TubeServed(s.tubes[t], s2.tubes[t]))
    && s.tick <= s2.tick
    && s2 == s.(jobs := s2.jobs, conns := s2.conns, tubes := s2.tubes, readyCnt := s2.readyCnt, urgentCnt := s2.urgentCnt,
                reservedCnt := s2.reservedCnt, waitingCnt := s2.waitingCnt, tick := s2.tick)
  }

  lemma ServedEach(s: State, r: State)
    requires Served(s, r)
    ensures r.jobs.Keys == s.jobs.Keys && r.tubes.Keys == s.tubes.Keys && r.conns.Keys == s.conns.Keys
    ensures forall i :: i in s.jobs ==> JobServed(s, s.jobs[i], r.jobs[i])
    ensures forall d :: d in s.conns ==> ConnServed(s.conns[d], r.conns[d])
  {
    hide JobServed, ConnServed, TubeServed;
  }

  lemma ServedTrans(a: State, b: State, c: State)
    requires Served(a, b) && Served(b, c)
    ensures Served(a, c)
  {
    forall j | j in a.jobs ensures JobServed(a, a.jobs[j], c.jobs[j]) {
      assert JobServed(a, a.jobs[j], b.jobs[j]) && JobServed(b, b.jobs[j], c.jobs[j]);
      if b.jobs[j] == a.jobs[j] && c.jobs[j] != b.jobs[j] {
        var k := c.jobs[j].reserver.value;
        assert ConnServed(a.conns[k], b.conns[k]);
      }
    }
    forall k | k in a.conns ensures ConnServed(a.conns[k], c.conns[k]) {
      assert ConnServed(a.conns[k], b.conns[k]) && ConnServed(b.conns[k], c.conns[k]);
    }
    forall t | t in a.tubes ensures TubeServed(a.tubes[t], c.tubes[t]) {
      assert TubeServed(a.tubes[t], b.tubes[t]) && TubeServed(b.tubes[t], c.tubes[t]);
    }
    hide JobServed, ConnServed, TubeServed;
  }

  lemma ClearPausesServed(s: State, now: int)
    ensures Served(s, ClearPauses(s, now))
  {}

  lemma DispatchTube(s: State, j: JobId, clock: Clock, d: Slack, u: TubeId)
    requires Mid(s, s.jobs, d) && j in Eligible(s) && u in s.tubes
    ensures Known(s, j) && s.jobs[j].state == Ready && Open(s, s.jobs[j].tube)
    ensures MemoKnown(s, NextWaiter(s.tubes[s.jobs[j].tube]))
    ensures u in Dispatch(s, j, clock).tubes && TubeServed(s.tubes[u], Dispatch(s, j, clock).tubes[u])
  {
    hide Mid;
    DispatchMid(s, j, clock, d);
    DispatchIsHandMid(s, j, clock, d);
    var t := s.jobs[j].tube;
    HandTube(ReadyRemove(s, j), t, NextWaiter(s.tubes[t]), j, clock, u);
    LeaveTubeWaits(ReadyRemove(s, j), t, NextWaiter(s.tubes[t]), u);
    hide Hand, Dispatch;
  }

  lemma DispatchIsHandMid(s: State, j: JobId, clock: Clock, d: Slack)
    requires Mid(s, s.jobs, d) && j in Eligible(s)
    ensures Known(s, j) && s.jobs[j].state == Ready && Open(s, s.jobs[j].tube)
    ensures MemoKnown(s, NextWaiter(s.tubes[s.jobs[j].tube]))
    ensures var t, s1 := s.jobs[j].tube, ReadyRemove(s, j);
            && s1.jobs == s.jobs && CanHand(s1, t, NextWaiter(s.tubes[t]), j) && Waits(s1)
            && Dispatch(s, j, clock) == Hand(s1, t, NextWaiter(s.tubes[t]), j, clock)
  {
    assert Open(s, s.jobs[j].tube);
    hide *;
    MidParts(s, s.jobs, d);
    OwnParts(s.jobs, s);
    EligibleCanHand(s, j, d);
    CanHandMemo(s, s.jobs[j].tube, NextWaiter(s.tubes[s.jobs[j].tube]), j);
    DispatchIsHand(s, j, clock);
    ReadyRemoveMid(s, j, d);
    MidParts(ReadyRemove(s, j), s.jobs - {j}, d);
  }

  lemma HandServed(s: State, s1: State, t: TubeId, c: ConnId, j: JobId, clock: Clock)
    requires CanHand(s1, t, c, j) && s1 == s.(tubes := s1.tubes, readyCnt := s1.readyCnt, urgentCnt := s1.urgentCnt)
    requires s1.tubes.Keys == s.tubes.Keys && s.jobs[j].state == Ready && WaitsOn(s.conns, c, t)
    requires forall u :: u in s.tubes ==>
               u in Hand(s1, t, c, j, clock).tubes && TubeServed(s.tubes[u], Hand(s1, t, c, j, clock).tubes[u])
    ensures Served(s, Hand(s1, t, c, j, clock))
    ensures Count(Hand(s1, t, c, j, clock).jobs, HasState(Ready)) == Count(s.jobs, HasState(Ready)) - 1
  {
    HandRest(s1, t, c, j, clock);
    var s2 := Hand(s1, t, c, j, clock);
    hide Hand, TubeServed, CanHand;
    CountUpdate(s.jobs, j, s2.jobs[j], HasState(Ready));
    assert JobServed(s, s.jobs[j], s2.jobs[j]);
    assert ConnServed(s.conns[c], s2.conns[c]);
  }

  lemma DispatchServed(s: State, j: JobId, clock: Clock, d: Slack)
    requires Mid(s, s.jobs, d) && j in Eligible(s)
    ensures Known(s, j) && s.jobs[j].state == Ready && Open(s, s.jobs[j].tube)
    ensures MemoKnown(s, NextWaiter(s.tubes[s.jobs[j].tube]))
    ensures Served(s, Dispatch(s, j, clock))
    ensures Count(Dispatch(s, j, clock).jobs, HasState(Ready)) == Count(s.jobs, HasState(Ready)) - 1
  {
    hide Mid, Dispatch, TubeServed, Served, Hand, Eligible, Waits, HasState;
    DispatchIsHandMid(s, j, clock, d);
    var s1, s2, t := ReadyRemove(s, j), Dispatch(s, j, clock), s.jobs[j].tube;
    var c := NextWaiter(s.tubes[t]);
    forall u | u in s.tubes ensures u in s2.tubes && TubeServed(s.tubes[u], s2.tubes[u]) {
      DispatchTube(s, j, clock, d, u);
    }
    LeaveTubeWaits(s1, t, c, t);
    TakeAndLeaveWaits(s1, t, c);
    HandServed(s, s1, t, c, j, clock);
  }

  // ----- the loop -----

  ghost predicate SameKeys(s: State, s2: State) {
    s2.jobs.Keys == s.jobs.Keys && s2.conns.Keys == s.conns.Keys && s2.tubes.Keys == s.tubes.Keys
  }

  /** One round of process_queue: it can be done, the invariant survives it, and one ready job less remains. */
  lemma RoundServed(s: State, now: int, j: JobId, clock: Clock)
    requires Settled(s) && j in Eligible(ClearPauses(s, now))
    ensures var s1 := ClearPauses(s, now);
            && Known(s1, j) && Open(s1, s1.jobs[j].tube) && MemoKnown(s1, NextWaiter(s1.tubes[s1.jobs[j].tube]))
            && Settled(Dispatch(s1, j, clock)) && Served(s, Dispatch(s1, j, clock))
            && Count(Dispatch(s1, j, clock).jobs, HasState(Ready)) < Count(s.jobs, HasState(Ready))
  {
    var s1 := ClearPauses(s, now);
    var d :| Mid(s, s.jobs, d);
    assert s1.jobs == s.jobs;
    hide Mid, Served, Dispatch;
    ClearPausesMid(s, now, d);
    DispatchMid(s1, j, clock, d);
    DispatchServed(s1, j, clock, d);
    ClearPausesServed(s, now);
    ServedTrans(s, s1, Dispatch(s1, j, clock));
  }

  lemma RoundOk(s: State, now: int, j: JobId, clock: Clock)
    requires Settled(s) && j in Eligible(ClearPauses(s, now))
    ensures var s1 := ClearPauses(s, now);
            && Known(s1, j) && Open(s1, s1.jobs[j].tube) && MemoKnown(s1, NextWaiter(s1.tubes[s1.jobs[j].tube]))
            && Settled(Dispatch(s1, j, clock)) && SameKeys(s, Dispatch(s1, j, clock))
            && Count(Dispatch(s1, j, clock).jobs, HasState(Ready)) < Count(s.jobs, HasState(Ready))
  {
    hide Settled, Dispatch;
    RoundServed(s, now, j, clock);
  }

  /** process_queue's loop; `now` is read once, before it. */
  ghost function Drain(s: State, now: int, clock: Clock): (r: State)
    requires Settled(s)
    ensures SameKeys(s, r)
    decreases Count(s.jobs, HasState(Ready))
  {
    hide Settled, Dispatch, Count;
    var s1 := ClearPauses(s, now);
    if Eligible(s1) == {} then s1
    else
      var j := NextEligible(s1);
      RoundOk(s, now, j, clock);
      Drain(Dispatch(s1, j, clock), now, clock)
  }

  /** One round of process_queue, as its specification has it. */
  lemma DrainRound(s: State, now: int, j: JobId, clock: Clock)
    requires Settled(s) && Eligible(ClearPauses(s, now)) != {} && j == NextEligible(ClearPauses(s, now))
    ensures var s1 := ClearPauses(s, now);
            && j in Eligible(s1) && Known(s1, j) && Open(s1, s1.jobs[j].tube) && MemoKnown(s1, NextWaiter(s1.tubes[s1.jobs[j].tube]))
            && Settled(Dispatch(s1, j, clock)) && Drain(s, now, clock) == Drain(Dispatch(s1, j, clock), now, clock)
            && Count(Dispatch(s1, j, clock).jobs, HasState(Ready)) < Count(s.jobs, HasState(Ready))
  {
    hide Settled, Dispatch, Count, ClearPauses, Open, Known, Eligible;
    RoundOk(s, now, j, clock);
  }

  lemma DrainEnd(s: State, now: int, clock: Clock)
    requires Settled(s) && Eligible(ClearPauses(s, now)) == {}
    ensures Drain(s, now, clock) == ClearPauses(s, now)
  {
    hide Settled, ClearPauses, Eligible;
  }

  lemma TickSettled(s: State, n: nat)
    requires Settled(s)
    ensures Settled(s.(tick := n))
  {
    var d :| Mid(s, s.jobs, d);
    TickMid(s, s.jobs, n, d);
    assert Mid(s.(tick := n), s.(tick := n).jobs, d);
  }

  ghost function ProcessQueue(s: State, clock: Clock): (r: State)
    requires Settled(s)
    ensures SameKeys(s, r)
  {
    TickSettled(s, s.tick + 1);
    Drain(s.(tick := s.tick + 1), clock(s.tick), clock)
  }

  // ----- what holds when it stops -----

  lemma StoppedNoLostWakeup(s: State)
    requires TubesOwn(s.jobs, s.tubes) && Eligible(s) == {}
    ensures NoLostWakeup(s)
  {
    forall t | t in s.tubes && s.tubes[t].pause == 0 && s.tubes[t].waiting.items != []
      ensures s.tubes[t].ready == {}
    {
      assert forall j :: At(s.jobs, j, Ready, t) ==> j in Eligible(s);
    }
  }

  lemma SettledBy(s: State, d: Slack)
    requires Mid(s, s.jobs, d)
    ensures Settled(s)
  {
    hide Mid;
  }

  /** process_queue keeps the invariant and leaves no waiting connection with a ready job. */
  lemma {:induction false} DrainMid(s: State, now: int, clock: Clock, d: Slack)
    requires Settled(s) && Mid(s, s.jobs, d)
    ensures Mid(Drain(s, now, clock), Drain(s, now, clock).jobs, d)
    ensures NoLostWakeup(Drain(s, now, clock)) && Served(s, Drain(s, now, clock))
    decreases Count(s.jobs, HasState(Ready))
  {
    hide Mid, Served, Dispatch, Settled, NoLostWakeup, ClearPauses, Eligible, Count, HasState, NextEligible;
    var s1 := ClearPauses(s, now);
    ClearPausesMid(s, now, d);
    ClearPausesServed(s, now);
    if Eligible(s1) == {} {
      MidParts(s1, s1.jobs, d);
      OwnParts(s1.jobs, s1);
      StoppedNoLostWakeup(s1);
    } else {
      var j := NextEligible(s1);
      RoundServed(s, now, j, clock);
      DispatchMid(s1, j, clock, d);
      var s2 := Dispatch(s1, j, clock);
      DrainMid(s2, now, clock, d);
      ServedTrans(s, s2, Drain(s2, now, clock));
    }
  }

  lemma TickServed(s: State, n: nat)
    requires s.tick <= n
    ensures Served(s, s.(tick := n))
  {}

  lemma ProcessQueueMid(s: State, clock: Clock, d: Slack)
    requires Settled(s) && Mid(s, s.jobs, d)
    ensures Mid(ProcessQueue(s, clock), ProcessQueue(s, clock).jobs, d)
    ensures NoLostWakeup(ProcessQueue(s, clock)) && Served(s, ProcessQueue(s, clock))
  {
    hide Mid, Served, NoLostWakeup, Drain, Settled;
    var s1 := s.(tick := s.tick + 1);
    TickServed(s, s.tick + 1);
    TickMid(s, s.jobs, s.tick + 1, d);
    TickSettled(s, s.tick + 1);
    DrainMid(s1, clock(s.tick), clock, d);
    ServedTrans(s, s1, Drain(s1, clock(s.tick), clock));
  }
}
