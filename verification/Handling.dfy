/** do_cmd's kick, reserve and peek, in place. */
module Handling {
  import opened Lists
  import opened State
  import opened Moves
  import opened Queue
  import opened Steps
  import opened JobCommands
  import opened Kick
  import opened Waiting
  import opened Objects
  import opened Machine
  import opened Queueing
  import opened Dispatching
  import opened Commands

  // ----- kick -----

  /** kick_buried_job; it reports success also when there is nothing to kick. */
  method KickBuriedJob(sv: Server, t: TubeId) returns (code: int)
    requires sv.Rep() && Settled(sv.model) && t in sv.model.tubes
    modifies sv.Repr
    ensures sv.Rep() && sv.Grows() && code == 0
    ensures sv.model == if old(sv.model).tubes[t].buried == [] then old(sv.model) else KickBuried(old(sv.model), t, sv.clock)
  {
    hide Server.Rep, Settled, BuriedPop, InFlight, Enqueue;
    code := 0;
    if sv.TubeRec(t).buried != [] {
      KickBuriedOk(sv.model, t, sv.clock);
      BuriedPopEffect(sv.model, t);
      var j := PopBuried(sv, t);
      var x := sv.JobRec(j);
      sv.SetJob(j, x.(kicks := x.kicks + 1));
      EnqueueJob(sv, j, 0);
    }
  }

  /** kick_buried_jobs. */
  method KickBuriedJobs(sv: Server, t: TubeId, n: nat) returns (i: nat)
    requires sv.Rep() && Settled(sv.model) && t in sv.model.tubes
    modifies sv.Repr
    ensures sv.Rep() && sv.Grows() && i == n && sv.model == Kick.KickBuriedJobs(old(sv.model), t, n, sv.clock)
  {
    hide Server.Rep, Settled, KickBuried;
    ghost var s := sv.model;
    i := 0;
    while i < n
      invariant i <= n && sv.Rep() && sv.Grows() && Settled(sv.model) && t in sv.model.tubes
      invariant Kick.KickBuriedJobs(s, t, n, sv.clock) == Kick.KickBuriedJobs(sv.model, t, n - i, sv.clock)
    {
      var code := KickBuriedJob(sv, t);
      if code != 0 { break; }
      i := i + 1;
    }
  }

  /** kick_delayed_job; -1 when there is nothing to kick. */
  method KickDelayedJob(sv: Server, t: TubeId) returns (code: int)
    requires sv.Rep() && Settled(sv.model) && t in sv.model.tubes
    modifies sv.Repr
    ensures sv.Rep() && sv.Grows() && code == (if old(sv.model).tubes[t].delayed == {} then -1 else 0)
    ensures sv.model == if code == -1 then old(sv.model) else KickDelayed(old(sv.model), t, sv.clock)
  {
    hide Server.Rep, Settled, InFlight, Enqueue, Server.HeapSize, Server.HeapRoot, NextDelayed, IsTop;
    sv.RootIsTop(t, ByDeadline);
    if sv.HeapSize(t, ByDeadline) == 0 {
      code := -1;
    } else {
      code := 0;
      var j := sv.HeapRoot(t, ByDeadline);
      RootIsNext(sv.model, t, j);
      KickDelayedOk(sv.model, t, sv.clock);
      sv.TakeFromHeap(t, ByDeadline, j);
      var x := sv.JobRec(j);
      sv.SetJob(j, x.(kicks := x.kicks + 1));
      EnqueueJob(sv, j, 0);
    }
  }

  lemma RootIsNext(s: State, t: TubeId, j: JobId)
    requires Settled(s) && t in s.tubes && s.tubes[t].delayed != {} && s.tubes[t].delayed <= s.jobs.Keys
    requires IsTop(s.jobs, Deadline, s.tubes[t].delayed, j)
    ensures j == NextDelayed(s, t) && At(s.jobs, j, Delayed, t)
  {
    hide Settled;
    var k := NextDelayed(s, t);
    assert j in s.tubes[t].delayed;
  }

  /** kick_delayed_jobs. */
  method KickDelayedJobs(sv: Server, t: TubeId, n: nat) returns (i: nat)
    requires sv.Rep() && Settled(sv.model) && t in sv.model.tubes
    modifies sv.Repr
    ensures sv.Rep() && sv.Grows() && (sv.model, i) == Kick.KickDelayedJobs(old(sv.model), t, n, sv.clock)
  {
    hide Server.Rep, Settled, KickDelayed;
    ghost var (r, k) := Kick.KickDelayedJobs(sv.model, t, n, sv.clock);
    i := 0;
    while i < n
      invariant i <= n && sv.Rep() && sv.Grows() && Settled(sv.model) && t in sv.model.tubes
      invariant Kick.KickDelayedJobs(sv.model, t, n - i, sv.clock) == (r, k - i)
    {
      var code := KickDelayedJob(sv, t);
      if code != 0 { break; }
      i := i + 1;
    }
  }

  /** OP_KICK, with kick_jobs. */
  method KickJobs(sv: Server, c: ConnId, n: nat)
    requires sv.Rep() && Inv(sv.model) && Idle(sv.model, c)
    modifies sv.Repr
    ensures sv.Rep() && sv.Grows() && sv.model == Kick.KickJobs(old(sv.model), c, n, sv.clock)
  {
    hide Server.Rep, Inv, Settled, Kick.KickBuriedJobs, Kick.KickDelayedJobs, SendReply;
    KickOk(sv.model, c);
    var t := sv.ConnRec(c).use;
    var i;
    if sv.TubeRec(t).buried != [] {
      i := KickBuriedJobs(sv, t, n);
    } else {
      i := KickDelayedJobs(sv, t, n);
    }
    Say(sv, c, Kicked(i));
  }

  // ----- reserve -----

  /** conn_has_ready_job. */
  method AnyReady(sv: Server, c: ConnId) returns (any: bool)
    requires sv.Rep() && WatchOk(sv.model, c)
    ensures any == HasReady(sv.model, c)
  {
    hide Server.Rep, Server.HeapSize, Server.HeapRoot, IsTop, NoDup;
    var watch := sv.ConnRec(c).watch;
    any := false;
    for i := 0 to |watch|
      invariant any <==> exists t :: t in watch[..i] && t in sv.model.tubes && sv.model.tubes[t].ready != {}
    {
      sv.RootIsTop(watch[i], ByPri);
      assert watch[..i + 1] == watch[..i] + [watch[i]];
      if sv.HeapSize(watch[i], ByPri) != 0 { any := true; }
    }
    assert watch[..|watch|] == watch;
  }

  lemma WatchesExist(s: State, c: ConnId)
    requires Mid(s, s.jobs, Nothing) && c in s.conns
    ensures WatchOk(s, c)
  {
    hide Own, Waits, Phases, Counts, Memo, Refs;
  }

  /** conn_deadline_soon. */
  method DeadlineSoon(sv: Server, c: ConnId) returns (soon: bool)
    requires sv.Rep() && MemoKnown(sv.model, c) && forall j :: j in sv.model.conns[c].reserved ==> j in sv.model.jobs
    modifies sv.Repr
    ensures var s := old(sv.model); var s1 := FillMemo(s.(tick := s.tick + 1), c);
            && sv.Rep() && sv.Grows() && sv.model == s1
            && MemoKnown(s1, c) && soon == DeadlineNear(s1, c, sv.clock(s.tick))
  {
    hide Server.Rep, Scan;
    var now := sv.Ustime();
    var j := FindSoonest(sv, c);
    soon := j.Some? && now >= sv.JobRec(j.value).deadline - SAFETY_MARGIN;
  }

  /** wait_for_job. */
  method WaitForJob(sv: Server, c: ConnId, timeout: int)
    requires sv.Rep() && WatchOk(sv.model, c)
    modifies sv.Repr
    ensures sv.Rep() && sv.Grows() && sv.model == StartWaiting(old(sv.model), c, timeout)
  {
    hide Server.Rep, EnqueueWaiting;
    sv.SetConn(c, sv.ConnRec(c).(phase := Wait, pendingTimeout := timeout));
    JoinWaiting(sv, c);
  }

  /** OP_RESERVE and OP_RESERVE_TIMEOUT. */
  method Reserve(sv: Server, c: ConnId, timeout: int)
    requires sv.Rep() && Inv(sv.model) && Idle(sv.model, c)
    modifies sv.Repr
    ensures sv.Rep() && sv.Grows() && sv.model == Waiting.Reserve(old(sv.model), c, timeout, sv.clock)
  {
    hide Server.Rep, Inv, Mid, Settled, NoLostWakeup, FillMemo, StartWaiting, HasReady, DeadlineNear, Queue.ProcessQueue, SendReply, WatchOk, MemoOk;
    IdleFacts(sv.model, c);
    MemoOkKnown(sv.model, c);
    ReserveOk(sv.model, c, timeout);
    var soon := DeadlineSoon(sv, c);
    WatchesExist(sv.model, c);
    var any := AnyReady(sv, c);
    if soon && !any {
      Say(sv, c, Reply.DeadlineSoon);
    } else {
      WaitForJob(sv, c, timeout);
      Dispatching.ProcessQueue(sv);
    }
  }

  lemma MemoOkKnown(s: State, c: ConnId)
    requires c in s.conns && MemoOk(s.jobs, s.conns[c])
    ensures MemoKnown(s, c)
  {}
}
