/** The periodic work, in place: conn_timeout and conn_cron. */
module Ticking {
  import Counting
  import opened Lists
  import opened State
  import opened Moves
  import opened JobMoves
  import opened Queue
  import opened Steps
  import opened Waiting
  import opened Cron
  import opened Timeout
  import opened Objects
  import opened Machine
  import opened Dispatching
  import opened Commands
  import opened Handling
  import opened Linking

  // ----- conn_timeout -----

  /** A job that is being written out goes on as a copy. */
  method CopyOut(sv: Server, c: ConnId, j: JobId)
    requires sv.Rep() && c in sv.model.conns && Known(sv.model, j)
    modifies sv.Repr
    ensures sv.Rep() && sv.Grows() && sv.model == Timeout.CopyOut(old(sv.model), c, j)
  {
    hide Server.Rep;
    if sv.ConnRec(c).out == Live(j) {
      Hold(sv, sv.JobRec(j).tube);
      sv.SetConn(c, sv.ConnRec(c).(out := Copy));
    }
  }

  // The memo is forgotten with the job, so it does not matter whether it was filled before.

  ghost function WithMemo(s: State, c: ConnId, m: Option<JobId>): State
    requires c in s.conns
  {
    PutConn(s, c, s.conns[c].(soonest := m))
  }

  lemma CopyOutMemo(s: State, c: ConnId, j: JobId, m: Option<JobId>)
    requires c in s.conns && Known(s, j)
    ensures Known(WithMemo(s, c, m), j) && c in Timeout.CopyOut(s, c, j).conns && Known(Timeout.CopyOut(s, c, j), j)
    ensures Timeout.CopyOut(WithMemo(s, c, m), c, j) == WithMemo(Timeout.CopyOut(s, c, j), c, m)
    ensures Timeout.CopyOut(s, c, j).timeoutCnt == s.timeoutCnt
  {}

  lemma RecallMemo(s: State, c: ConnId, j: JobId, pri: nat, delay: int, releases: nat, timeouts: nat, m: Option<JobId>)
    requires c in s.conns && Known(s, j)
    ensures Recall(WithMemo(s, c, m), c, j, pri, delay, releases, timeouts) == Recall(s, c, j, pri, delay, releases, timeouts)
  {
    hide Unlink;
  }

  lemma TakeBackFilled(s: State, c: ConnId, j: JobId)
    requires c in s.conns && Known(s, j) && forall i :: i in s.conns[c].reserved ==> i in s.jobs
    ensures Known(FillMemo(s, c), j) && Timeout.TakeBack(FillMemo(s, c), c, j) == Timeout.TakeBack(s, c, j)
  {
    hide Scan, Recall, Timeout.CopyOut;
    var s0 := FillMemo(s, c);
    var m := s0.conns[c].soonest;
    assert s.conns[c].(soonest := s.conns[c].soonest) == s.conns[c];
    assert s0 == WithMemo(s, c, m);
    CopyOutMemo(s, c, j, m);
    var s1 := Timeout.CopyOut(s, c, j).(timeoutCnt := s.timeoutCnt + 1);
    var x := s.jobs[j];
    RecallMemo(s1, c, j, x.pri, x.delay, x.releases, x.timeouts + 1, m);
  }

  /** The body of conn_timeout's loop, up to enqueue_job. */
  method TakeExpired(sv: Server, c: ConnId, j: JobId)
    requires sv.Rep() && Mid(sv.model, sv.model.jobs, Nothing) && c in sv.model.conns && Known(sv.model, j)
    requires j in sv.model.conns[c].reserved
    modifies sv.Repr
    ensures sv.Rep() && sv.Grows() && sv.model == Timeout.TakeBack(old(sv.model), c, j) && InFlight(sv.model, j)
  {
    hide Server.Rep, Mid, Timeout.CopyOut, Recall, InFlight, NoLostWakeup;
    CopyOutMid(sv.model, c, j);
    CopyOutMemo(sv.model, c, j, None);
    CopyOut(sv, c, j);
    ghost var s0 := sv.model;
    var g := sv.Own();
    sv.SetStats(g.totalJobs, g.timeoutCnt + 1, g.drain);
    StatsMid(s0, sv.model, s0.jobs, Nothing);
    var x := sv.JobRec(j);
    var found := Commands.TakeBack(sv, c, j, x.pri, x.delay, x.releases, x.timeouts + 1, Nothing);
  }

  lemma MemoFacts(s: State, c: ConnId)
    requires Mid(s, s.jobs, Nothing) && c in s.conns
    ensures MemoOk(s.jobs, s.conns[c]) && MemoKnown(s, c) && WatchOk(s, c)
    ensures forall j :: j in s.conns[c].reserved ==> j in s.jobs && Known(s, j)
  {
    hide Mid, Shape, Own, Waits, Phases, Counts, Memo, Refs, WatchOk, MemoOk;
    MidParts(s, s.jobs, Nothing);
    ConnFacts(s, c);
    MemoOkKnown(s, c);
    SettledBy(s, Nothing);
    SettledKnows(s);
    WatchesExist(s, c);
  }

  lemma EmptyMemo(s: State, c: ConnId)
    requires c in s.conns && s.conns[c].reserved == []
    ensures FillMemo(s, c) == s
  {
    assert s.conns[c := s.conns[c].(soonest := s.conns[c].soonest)] == s.conns;
  }

  /** The body of conn_timeout's loop, with conn_tickat's search for the next deadline. */
  method ExpireOne(sv: Server, c: ConnId, j: JobId, ghost s: State)
    requires sv.Rep() && Mid(s, s.jobs, Nothing) && c in s.conns && Known(s, j) && j in s.conns[c].reserved
    requires (forall i :: i in s.conns[c].reserved ==> i in s.jobs) && sv.model == FillMemo(s, c)
    modifies sv.Repr
    ensures sv.Rep() && sv.Grows() && sv.model == Timeout.ExpireOne(s, c, j, sv.clock)
  {
    hide Server.Rep, Mid, FillMemo, Timeout.TakeBack, InFlight, Enqueue, NoLostWakeup, Served, Moves.Insert, MemoKnown;
    FillMemoMid(s, c);
    TakeBackFilled(s, c, j);
    FilledConn(s, c);
    ExpireOk(s, c, j, sv.clock);
    TakeExpired(sv, c, j);
    EnqueueJob(sv, j, 0);
    MemoFacts(sv.model, c);
    if sv.ConnRec(c).reserved != [] {
      var next := FindSoonest(sv, c);
    } else {
      EmptyMemo(sv.model, c);
    }
  }

  lemma FilledConn(s: State, c: ConnId)
    requires c in s.conns && forall j :: j in s.conns[c].reserved ==> j in s.jobs
    ensures c in FillMemo(s, c).conns && FillMemo(s, c).conns[c].reserved == s.conns[c].reserved
  {}

  /** What the loop's test finds out. */
  lemma ScanFinds(s: State, c: ConnId, now: int, clock: Clock)
    requires CanExpire(s, c, now, clock)
    ensures c in s.conns && MemoKnown(s, c) && forall j :: j in s.conns[c].reserved ==> j in s.jobs
    ensures var m := FillMemo(s, c);
            && c in m.conns && m.jobs == s.jobs
            && (m.conns[c].soonest.Some? ==> m.conns[c].soonest.value in s.jobs)
  {
    hide Mid, Scan;
  }

  lemma LateFound(s: State, c: ConnId, now: int, clock: Clock, j: Option<JobId>)
    requires CanExpire(s, c, now, clock)
    requires c in FillMemo(s, c).conns && FillMemo(s, c).conns[c].soonest == j && (j.Some? ==> j.value in s.jobs)
    ensures LateJob(s, c, now) == if j.Some? && s.jobs[j.value].deadline <= now then j else None
  {
    hide Mid, Scan, Late;
  }

  lemma ExpireUnfold(s: State, c: ConnId, now: int, clock: Clock, j: JobId)
    requires CanExpire(s, c, now, clock) && LateJob(s, c, now) == Some(j)
    ensures Mid(s, s.jobs, Nothing) && c in s.conns && Known(s, j) && j in s.conns[c].reserved
    ensures var r := Timeout.ExpireOne(s, c, j, clock);
            CanExpire(r, c, now, clock) && Late(r, c, now) < Late(s, c, now)
            && Expire(s, c, now, clock) == Expire(r, c, now, clock)
  {
    hide Mid, Timeout.ExpireOne, Late, NoLostWakeup, FillMemo, MemoOk;
    CanExpireMid(s, c, now, clock);
    hide CanExpire, Monotone, LateJob;
    FewerLate(s, c, j, now, clock);
    ExpireOneOk(s, c, j, now, clock);
  }

  /** conn_timeout's loop. */
  method ExpireAll(sv: Server, c: ConnId, now: int)
    requires sv.Rep() && CanExpire(sv.model, c, now, sv.clock)
    modifies sv.Repr
    ensures sv.Rep() && sv.Grows() && sv.model == Expire(old(sv.model), c, now, sv.clock)
  {
    hide Server.Rep, Mid, FillMemo, Timeout.ExpireOne, Late, CanExpire, MemoKnown, LateJob, MemoOk;
    ghost var s := sv.model;
    ScanFinds(s, c, now, sv.clock);
    var j := FindSoonest(sv, c);
    while j.Some? && sv.JobRec(j.value).deadline <= now
      invariant sv.Rep() && sv.Grows() && CanExpire(s, c, now, sv.clock)
      invariant c in s.conns && forall i :: i in s.conns[c].reserved ==> i in s.jobs
      invariant sv.model == FillMemo(s, c) && c in sv.model.conns && j == sv.model.conns[c].soonest && sv.model.jobs == s.jobs
      invariant j.Some? ==> j.value in s.jobs
      invariant Expire(old(sv.model), c, now, sv.clock) == Expire(s, c, now, sv.clock)
      decreases Late(s, c, now)
    {
      LateFound(s, c, now, sv.clock, j);
      ExpireUnfold(s, c, now, sv.clock, j.value);
      ScanFinds(s, c, now, sv.clock);
      ExpireOne(sv, c, j.value, s);
      s := sv.model;
      ScanFinds(s, c, now, sv.clock);
      j := FindSoonest(sv, c);
    }
    LateFound(s, c, now, sv.clock, j);
  }

  /** conn_timeout. */
  method ConnTimeout(sv: Server, c: ConnId)
    requires sv.Rep() && Inv(sv.model) && c in sv.model.conns && Monotone(sv.clock)
    modifies sv.Repr
    ensures sv.Rep() && sv.Grows() && sv.model == Timeout.ConnTimeout(old(sv.model), c, sv.clock)
  {
    hide Server.Rep, Inv, Mid, Expire, CanExpire, FillMemo, NoLostWakeup, MemoKnown, Late, RemoveWaiting, SendReply,
      DeadlineNear, WatchOk, Monotone, MemoOk;
    ghost var s := sv.model;
    InvParts(s);
    TimeoutOk(s, c, sv.clock);
    MemoFacts(s, c);
    TickMemoKnown(s, c);
    var now := sv.Ustime();
    var soon := false;
    if sv.ConnRec(c).waiting { soon := Handling.DeadlineSoon(sv, c); }
    assert sv.model == Started(s, c);
    ExpireAll(sv, c, now);
    MemoFacts(sv.model, c);
    RemovedConn(sv.model, c);
    if soon {
      LeaveWaiting(sv, c);
      Say(sv, c, Reply.DeadlineSoon);
    } else if sv.ConnRec(c).waiting && sv.ConnRec(c).pendingTimeout >= 0 {
      LeaveWaiting(sv, c);
      sv.SetConn(c, sv.ConnRec(c).(pendingTimeout := -1));
      Say(sv, c, TimedOut);
    }
  }

  lemma TickMemoKnown(s: State, c: ConnId)
    requires MemoKnown(s, c)
    ensures MemoKnown(s.(tick := s.tick + 1), c)
  {}

  lemma RemovedConn(s: State, c: ConnId)
    requires c in s.conns
    ensures c in RemoveWaiting(s, c).conns && RemoveWaiting(s, c).conns[c] == s.conns[c].(waiting := false)
  {}

  // ----- conn_cron -----

  /** One tube of soonest_delay_job's loop. */
  method LookAt(sv: Server, t: TubeId, best: Option<JobId>) returns (r: Option<JobId>)
    requires sv.Rep() && DelayedKnown(sv.model, t)
    requires best.Some? ==> best.value in sv.model.jobs && sv.model.jobs[best.value].state == Delayed
    ensures r == Sooner(sv.model, t, best)
  {
    hide Server.Rep, Server.HeapSize, Server.HeapRoot;
    sv.RootIsTop(t, ByDeadline);
    r := best;
    if sv.HeapSize(t, ByDeadline) != 0 {
      var j := sv.HeapRoot(t, ByDeadline);
      TopUnique(sv.model.jobs, Deadline, sv.model.tubes[t].delayed, j, Top(sv.model.jobs, Deadline, sv.model.tubes[t].delayed));
      if best == None || sv.JobRec(j).deadline < sv.JobRec(best.value).deadline { r := Some(j); }
    }
  }

  lemma DelayedAll(s: State)
    requires Settled(s)
    ensures forall t :: t in s.tubeList ==> t in s.tubes && DelayedKnown(s, t)
  {
    SettledTubes(s);
    SettledKnows(s);
    hide Settled;
  }

  /** soonest_delay_job. */
  method SoonestDelay(sv: Server) returns (best: Option<JobId>)
    requires sv.Rep() && Settled(sv.model)
    ensures best == Cron.SoonestDelay(sv.model)
  {
    hide Server.Rep, Settled, Sooner, DelayedKnown;
    DelayedAll(sv.model);
    var list := sv.Tubes();
    best := None;
    for i := 0 to |list|
      invariant forall t :: t in list[i..] ==> t in sv.model.tubes && DelayedKnown(sv.model, t)
      invariant best.Some? ==> best.value in sv.model.jobs && sv.model.jobs[best.value].state == Delayed
      invariant SoonestFrom(sv.model, list, None) == SoonestFrom(sv.model, list[i..], best)
    {
      assert list[i..][1..] == list[i + 1..];
      best := LookAt(sv, list[i], best);
    }
  }

  lemma DelayedInHeap(s: State, j: JobId)
    requires Settled(s) && Known(s, j) && s.jobs[j].state == Delayed
    ensures InHeapOf(s, s.jobs[j].tube, ByDeadline, j)
  {
    SettledTubes(s);
    hide Settled;
  }

  /** The body of conn_cron's first loop. */
  method PromoteOne(sv: Server, j: JobId)
    requires sv.Rep() && Settled(sv.model) && Known(sv.model, j) && sv.model.jobs[j].state == Delayed
    modifies sv.Repr
    ensures sv.Rep() && sv.Grows() && sv.model == Cron.PromoteOne(old(sv.model), j, sv.clock)
  {
    hide Server.Rep, Settled, InFlight, Enqueue;
    PromoteOk(sv.model, j, sv.clock);
    DelayedInHeap(sv.model, j);
    sv.TakeFromHeap(sv.JobRec(j).tube, ByDeadline, j);
    EnqueueJob(sv, j, 0);
  }

  /** conn_cron's first loop. */
  method PromoteAll(sv: Server, now: int)
    requires sv.Rep() && Settled(sv.model)
    modifies sv.Repr
    ensures sv.Rep() && sv.Grows() && sv.model == Promote(old(sv.model), now, sv.clock)
  {
    hide Server.Rep, Settled, Cron.PromoteOne, Cron.SoonestDelay, Counting.Count;
    ghost var s := sv.model;
    var j := SoonestDelay(sv);
    while j.Some? && sv.JobRec(j.value).deadline <= now
      invariant sv.Rep() && sv.Grows() && Settled(sv.model) && j == Cron.SoonestDelay(sv.model)
      invariant Promote(s, now, sv.clock) == Promote(sv.model, now, sv.clock)
      decreases Counting.Count(sv.model.jobs, HasState(Delayed))
    {
      PromoteStep(sv.model, j.value, sv.clock);
      PromoteOne(sv, j.value);
      j := SoonestDelay(sv);
    }
  }

  /** The body of conn_cron's second loop. */
  method EndPause(sv: Server, t: TubeId, now: int)
    requires sv.Rep() && Settled(sv.model) && t in sv.model.tubes
    modifies sv.Repr
    ensures sv.Rep() && sv.Grows() && sv.model == Cron.EndPause(old(sv.model), t, now, sv.clock)
  {
    hide Server.Rep, Settled, Queue.ProcessQueue, Served;
    var x := sv.TubeRec(t);
    if x.pause != 0 && x.deadline <= now {
      EndPauseOk(sv.model, t, sv.clock);
      sv.SetTube(t, x.(pause := 0));
      Dispatching.ProcessQueue(sv);
    }
  }

  /** conn_cron, up to the tick events of the connections. */
  method CronTick(sv: Server)
    requires sv.Rep() && Inv(sv.model)
    modifies sv.Repr
    ensures sv.Rep() && sv.Grows() && sv.model == Cron.CronTick(old(sv.model), sv.clock)
  {
    hide Server.Rep, Inv, Mid, Settled, NoLostWakeup, Promote, Cron.EndPause;
    CronOk(sv.model);
    var now := sv.Ustime();
    PromoteAll(sv, now);
    SettledTubes(sv.model);
    var list := sv.Tubes();
    ghost var s := sv.model;
    for i := 0 to |list|
      invariant sv.Rep() && sv.Grows() && Settled(sv.model) && forall t :: t in list ==> t in sv.model.tubes
      invariant EndPauses(s, list, now, sv.clock) == EndPauses(sv.model, list[i..], now, sv.clock)
    {
      assert list[i..][1..] == list[i + 1..];
      EndPause(sv, list[i], now);
    }
  }
}
