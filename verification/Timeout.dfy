/** conn_timeout: jobs whose time to run is over go back, a waiting client may be answered. */
module Timeout {
  import opened Counting
  import opened Lists
  import opened State
  import opened Moves
  import opened JobMoves
  import opened Serve
  import opened Queue
  import opened Steps
  import opened Waiting
  import opened Tubes

  // ----- deadlines given out by process_queue -----

  /** A job record either stays or gets a deadline at least ttr after `from`. */
  ghost predicate Stamped(s: State, s2: State, from: int) {
    forall j :: j in s.jobs && j in s2.jobs ==>
      s2.jobs[j].ttr == s.jobs[j].ttr && (s2.jobs[j] == s.jobs[j] || s2.jobs[j].deadline >= from + s.jobs[j].ttr)
  }

  lemma StampedTrans(a: State, b: State, c: State, from: int)
    requires SameKeys(a, b) && SameKeys(b, c) && Stamped(a, b, from) && Stamped(b, c, from)
    ensures Stamped(a, c, from)
  {}

  lemma DispatchStamped(s: State, j: JobId, clock: Clock, d: Slack, from: int)
    requires Mid(s, s.jobs, d) && j in Eligible(s) && from <= clock(s.tick)
    ensures Known(s, j) && Open(s, s.jobs[j].tube) && MemoKnown(s, NextWaiter(s.tubes[s.jobs[j].tube]))
    ensures Stamped(s, Dispatch(s, j, clock), from) && s.tick <= Dispatch(s, j, clock).tick
  {
    hide Mid, Eligible, Dispatch, Hand;
    DispatchIsHandMid(s, j, clock, d);
    var t := s.jobs[j].tube;
    ReadyRemoveTick(s, j);
    HandRest(ReadyRemove(s, j), t, NextWaiter(s.tubes[t]), j, clock);
  }

  lemma ReadyRemoveTick(s: State, j: JobId)
    requires Known(s, j)
    ensures ReadyRemove(s, j).tick == s.tick && ReadyRemove(s, j).jobs == s.jobs
  {}

  lemma {:induction false} DrainStamped(s: State, now: int, clock: Clock, d: Slack, from: int)
    requires Settled(s) && Mid(s, s.jobs, d) && Monotone(clock) && from <= clock(s.tick)
    ensures Stamped(s, Drain(s, now, clock), from)
    decreases Count(s.jobs, HasState(Ready))
  {
    hide Mid, Dispatch, Settled, Eligible, Count, HasState, NextEligible, Served, Stamped;
    var s1 := ClearPauses(s, now);
    ClearPausesMid(s, now, d);
    assert s1.jobs == s.jobs && s1.tick == s.tick;
    StampedSame(s, s1, from);
    if Eligible(s1) != {} {
      var j := NextEligible(s1);
      RoundOk(s, now, j, clock);
      DispatchMid(s1, j, clock, d);
      DispatchStamped(s1, j, clock, d, from);
      var s2 := Dispatch(s1, j, clock);
      assert clock(s.tick) <= clock(s2.tick);
      DrainStamped(s2, now, clock, d, from);
      StampedTrans(s, s1, s2, from);
      StampedTrans(s, s2, Drain(s2, now, clock), from);
    }
  }

  lemma StampedSame(s: State, s2: State, from: int)
    requires s2.jobs == s.jobs
    ensures Stamped(s, s2, from)
  {}

  lemma ProcessQueueStamped(s: State, clock: Clock, d: Slack, from: int)
    requires Settled(s) && Mid(s, s.jobs, d) && Monotone(clock) && from <= clock(s.tick)
    ensures Stamped(s, ProcessQueue(s, clock), from)
  {
    hide Mid, Settled, Drain, Stamped;
    TickMid(s, s.jobs, s.tick + 1, d);
    TickSettled(s, s.tick + 1);
    var s1 := s.(tick := s.tick + 1);
    assert clock(s.tick) <= clock(s1.tick);
    DrainStamped(s1, clock(s.tick), clock, d, from);
    StampedSame(s, s1, from);
    StampedTrans(s, s1, Drain(s1, clock(s.tick), clock), from);
  }

  // ----- one expired job -----

  /** If the job is being written out, the connection goes on with a copy of its own. */
  ghost function CopyOut(s: State, c: ConnId, j: JobId): State
    requires c in s.conns && Known(s, j)
  {
    if s.conns[c].out == Live(j) then PutConn(Bump(s, s.jobs[j].tube), c, s.conns[c].(out := Copy)) else s
  }

  lemma CopyOutMid(s: State, c: ConnId, j: JobId)
    requires Mid(s, s.jobs, Nothing) && c in s.conns && Known(s, j)
    ensures var s2 := CopyOut(s, c, j);
            && Mid(s2, s2.jobs, Nothing) && s2.jobs == s.jobs && SameKeys(s, s2) && s2.tick == s.tick
            && s2.conns == s.conns[c := s.conns[c].(out := s2.conns[c].out)] && s2.conns[c].out != Live(j)
            && (NoLostWakeup(s) ==> NoLostWakeup(s2))
  {
    hide Mid, Shape, Own, Waits, Phases, Counts, Memo, Refs, NoLostWakeup;
    if s.conns[c].out == Live(j) {
      var t := s.jobs[j].tube;
      var s1 := Bump(s, t);
      BumpMid(s, t, Nothing);
      MidParts(s1, s1.jobs, Nothing);
      ConnFacts(s1, c);
      var k := s.conns[c].(out := Copy);
      PutConnMid(s1, c, k, Nothing);
      if NoLostWakeup(s) { SameReadyNoLostWakeup(s, PutConn(s1, c, k)); }
    } else {
      assert s.conns[c := s.conns[c].(out := s.conns[c].out)] == s.conns;
    }
  }

  /** The loop body of conn_timeout for job j. */
  ghost function ExpireOne(s: State, c: ConnId, j: JobId, clock: Clock): State
    requires Mid(s, s.jobs, Nothing) && c in s.conns && Known(s, j) && j in s.conns[c].reserved
  {
    hide Mid, CopyOut, Enqueue, Recall, FillMemo, InFlight;
    ExpireOk(s, c, j, clock);
    FillMemo(Enqueue(TakeBack(s, c, j), j, 0, clock), c)
  }

  /** The job, counted as timed out, is off the connection's list. */
  ghost function TakeBack(s: State, c: ConnId, j: JobId): State
    requires c in s.conns && Known(s, j)
  {
    var x := s.jobs[j];
    var s1 := CopyOut(s, c, j).(timeoutCnt := s.timeoutCnt + 1);
    Recall(s1, c, j, x.pri, x.delay, x.releases, x.timeouts + 1)
  }

  lemma TakeBackMid(s: State, c: ConnId, j: JobId)
    requires Mid(s, s.jobs, Nothing) && c in s.conns && Known(s, j) && j in s.conns[c].reserved
    ensures var s2 := TakeBack(s, c, j);
            && Mid(s2, s2.jobs - {j}, Nothing) && InFlight(s2, j) && SameKeys(s, s2) && s2.tick == s.tick
            && s2.jobs == s.jobs[j := s2.jobs[j]] && s2.jobs[j].ttr == s.jobs[j].ttr && s2.jobs[j].tube == s.jobs[j].tube
            && s2.conns == s.conns[c := s2.conns[c]]
            && s2.conns[c] == s.conns[c].(reserved := Unlink(s.conns[c].reserved, j), soonest := None, out := s2.conns[c].out)
  {
    hide Mid, CopyOut, InFlight, NoLostWakeup, Recall, Unlink;
    CopyOutMid(s, c, j);
    var s0 := CopyOut(s, c, j);
    var s1 := s0.(timeoutCnt := s.timeoutCnt + 1);
    StatsMid(s0, s1, s0.jobs, Nothing);
    var x := s.jobs[j];
    RecallMid(s1, c, j, x.pri, x.delay, x.releases, x.timeouts + 1, Nothing);
    RecallEffect(s1, c, j, x.pri, x.delay, x.releases, x.timeouts + 1);
    RecallTick(s1, c, j, x.pri, x.delay, x.releases, x.timeouts + 1);
  }

  lemma RecallTick(s: State, c: ConnId, j: JobId, pri: nat, delay: int, releases: nat, timeouts: nat)
    requires c in s.conns && Known(s, j)
    ensures Recall(s, c, j, pri, delay, releases, timeouts).tick == s.tick
  {}

  lemma ExpireOk(s: State, c: ConnId, j: JobId, clock: Clock)
    requires Mid(s, s.jobs, Nothing) && c in s.conns && Known(s, j) && j in s.conns[c].reserved
    ensures InFlight(TakeBack(s, c, j), j)
    ensures var s1 := TakeBack(s, c, j); var s2 := Enqueue(s1, j, 0, clock);
            && c in s2.conns && (forall i :: i in s2.conns[c].reserved ==> i in s2.jobs)
            && Mid(s2, s2.jobs, Nothing) && NoLostWakeup(s2) && Served(Insert(s1, j, 0, clock), s2)
            && Mid(FillMemo(s2, c), FillMemo(s2, c).jobs, Nothing)
            && NoLostWakeup(FillMemo(s2, c)) && FillMemo(s2, c).jobs == s2.jobs
            && s2.conns[c].inJob == s.conns[c].inJob
  {
    hide Mid, TakeBack, Enqueue, InFlight, Served, NoLostWakeup, Insert;
    TakeBackMid(s, c, j);
    var s1 := TakeBack(s, c, j);
    EnqueueMid(s1, j, 0, clock, Nothing);
    var s2 := Enqueue(s1, j, 0, clock);
    InFlightInsert(s1, j, 0, clock);
    ServedInJob(Insert(s1, j, 0, clock), s2, c);
    SettledBy(s2, Nothing);
    SettledKnows(s2);
    FillMemoMid(s2, c);
    SameTubesNoLostWakeup(s2, FillMemo(s2, c));
  }

  lemma ServedInJob(s: State, s2: State, c: ConnId)
    requires Served(s, s2) && c in s.conns
    ensures c in s2.conns && s2.conns[c].inJob == s.conns[c].inJob
  {
    assert ConnServed(s.conns[c], s2.conns[c]);
  }

  // ----- the loop comes to an end -----

  /** The jobs of c that are past their deadline. */
  ghost function Late(s: State, c: ConnId, now: int): set<JobId> {
    set j | j in s.jobs && c in s.conns && j in s.conns[c].reserved && s.jobs[j].deadline <= now
  }

  /** What process_queue hands to c is not late. */
  lemma ServedNotLate(s: State, s2: State, c: ConnId, now: int)
    requires ConnsOwn(s.jobs, s.conns) && ConnsOwn(s2.jobs, s2.conns) && Served(s, s2) && Stamped(s, s2, now)
    requires c in s.conns && forall j :: j in s.jobs ==> s.jobs[j].ttr > 0
    ensures Late(s2, c, now) <= Late(s, c, now)
  {
    assert SameKeys(s, s2) && ConnServed(s.conns[c], s2.conns[c]);
    assert NoDup(s2.conns[c].reserved);
    forall k | k in Late(s2, c, now) ensures k in Late(s, c, now) {
      assert Held(s2.jobs, k, c) && JobServed(s, s.jobs[k], s2.jobs[k]);
      assert s2.jobs[k] == s.jobs[k];
      assert Held(s.jobs, k, c);
    }
  }

  lemma EnqueueLate(s: State, c: ConnId, j: JobId, now: int, clock: Clock)
    requires InFlight(s, j) && Mid(s, s.jobs - {j}, Nothing) && c in s.conns && Monotone(clock) && now <= clock(s.tick)
    ensures var sI, s2 := Insert(s, j, 0, clock), Enqueue(s, j, 0, clock);
            && Late(s2, c, now) <= Late(sI, c, now) && s.tick <= s2.tick && c in s2.conns
            && sI.conns == s.conns && j in sI.jobs && j in s.jobs && sI.jobs == s.jobs[j := sI.jobs[j]]
  {
    hide Mid, Enqueue, InFlight, Served, NoLostWakeup, Insert, Stamped, Settled, ProcessQueue, Late;
    InFlightKnown(s, j);
    var sI, s2 := Insert(s, j, 0, clock), Enqueue(s, j, 0, clock);
    EnqueueMid(s, j, 0, clock, Nothing);
    InsertMid(s, j, 0, clock, Nothing);
    InsertLate(s, j, clock);
    SettledBy(sI, Nothing);
    ProcessQueueStamped(sI, clock, Nothing, now);
    EnqueueIsQueue(s, j, clock);
    OwnOf(s2);
    OwnOf(sI);
    ServedNotLate(sI, s2, c, now);
    ServedTick(sI, s2);
  }

  /** Taking back a late job makes one late job less, even if c is handed a job at once. */
  lemma FewerLate(s: State, c: ConnId, j: JobId, now: int, clock: Clock)
    requires Mid(s, s.jobs, Nothing) && c in s.conns && Known(s, j) && j in s.conns[c].reserved
    requires j in Late(s, c, now) && Monotone(clock) && now <= clock(s.tick)
    ensures Late(ExpireOne(s, c, j, clock), c, now) < Late(s, c, now)
    ensures s.tick <= ExpireOne(s, c, j, clock).tick
    ensures c in ExpireOne(s, c, j, clock).conns
  {
    hide Mid, TakeBack, Enqueue, InFlight, Served, NoLostWakeup, Insert, FillMemo, Late, ConnsOwn, Unlink;
    TakeBackMid(s, c, j);
    ExpireOk(s, c, j, clock);
    var s1 := TakeBack(s, c, j);
    EnqueueLate(s1, c, j, now, clock);
    var sI, s2 := Insert(s1, j, 0, clock), Enqueue(s1, j, 0, clock);
    ReservedDistinct(s, c);
    TakenBackLate(s, sI, c, j, now);
    FillMemoLate(s2, c, now);
  }

  lemma ReservedDistinct(s: State, c: ConnId)
    requires Mid(s, s.jobs, Nothing) && c in s.conns
    ensures NoDup(s.conns[c].reserved)
  {
    hide Mid;
    OwnOf(s);
  }

  lemma EnqueueIsQueue(s: State, j: JobId, clock: Clock)
    requires InFlight(s, j)
    ensures Settled(Insert(s, j, 0, clock)) && Enqueue(s, j, 0, clock) == ProcessQueue(Insert(s, j, 0, clock), clock)
  {
    hide InFlight, Insert, Settled, ProcessQueue;
    InsertSettled(s, j, 0, clock);
  }

  lemma InsertLate(s: State, j: JobId, clock: Clock)
    requires Known(s, j)
    ensures var s2 := Insert(s, j, 0, clock);
            && s2.conns == s.conns && s2.jobs == s.jobs[j := s2.jobs[j]] && s2.tick == s.tick
  {}

  lemma OwnOf(s: State)
    requires Mid(s, s.jobs, Nothing)
    ensures ConnsOwn(s.jobs, s.conns) && forall j :: j in s.jobs ==> s.jobs[j].ttr > 0
  {
    hide TubesOwn, ConnsOwn, Incoming, Waits, Phases, Counts, Memo, Refs;
  }

  lemma TakenBackLate(s: State, sI: State, c: ConnId, j: JobId, now: int)
    requires c in s.conns && c in sI.conns && j in Late(s, c, now) && j in sI.jobs && sI.jobs == s.jobs[j := sI.jobs[j]]
    requires NoDup(s.conns[c].reserved) && sI.conns[c].reserved == Unlink(s.conns[c].reserved, j)
    ensures Late(sI, c, now) == Late(s, c, now) - {j}
  {
    UnlinkMembers(s.conns[c].reserved, j);
    hide Unlink, NoDup;
  }

  lemma ServedTick(s: State, s2: State)
    requires Served(s, s2)
    ensures s.tick <= s2.tick && SameKeys(s, s2)
  {}

  lemma FillMemoLate(s: State, c: ConnId, now: int)
    requires c in s.conns && forall j :: j in s.conns[c].reserved ==> j in s.jobs
    ensures Late(FillMemo(s, c), c, now) == Late(s, c, now) && FillMemo(s, c).tick == s.tick && c in FillMemo(s, c).conns
    ensures FillMemo(s, c).conns[c].inJob == s.conns[c].inJob
  {
    hide Scan;
  }

  ghost predicate CanExpire(s: State, c: ConnId, now: int, clock: Clock) {
    && Mid(s, s.jobs, Nothing) && c in s.conns && Monotone(clock) && now <= clock(s.tick)
    && MemoOk(s.jobs, s.conns[c]) && (forall j :: j in s.conns[c].reserved ==> j in s.jobs && Known(s, j))
  }

  lemma CanExpireBy(s: State, c: ConnId, now: int, clock: Clock)
    requires Mid(s, s.jobs, Nothing) && c in s.conns && Monotone(clock) && now <= clock(s.tick)
    ensures CanExpire(s, c, now, clock)
  {
    hide Mid, Shape, Own, Waits, Phases, Counts, Memo, Refs;
    MidParts(s, s.jobs, Nothing);
    ConnFacts(s, c);
    SettledBy(s, Nothing);
    SettledKnows(s);
  }

  /** The soonest reserved job, if it is late. */
  ghost function LateJob(s: State, c: ConnId, now: int): (r: Option<JobId>)
    requires c in s.conns && MemoOk(s.jobs, s.conns[c]) && forall j :: j in s.conns[c].reserved ==> j in s.jobs
    ensures r.Some? ==> r.value in Late(s, c, now) && r.value in s.conns[c].reserved
    ensures r == None ==> Late(s, c, now) == {}
  {
    SoonestIsLeast(s, c);
    hide FillMemo;
    var k := FillMemo(s, c).conns[c].soonest;
    if k.Some? && s.jobs[k.value].deadline <= now then k else None
  }

  /** conn_timeout's loop. */
  ghost function Expire(s: State, c: ConnId, now: int, clock: Clock): State
    requires CanExpire(s, c, now, clock)
    decreases Late(s, c, now)
  {
    hide ExpireOne, LateJob, Mid, FillMemo, Monotone;
    var j := LateJob(s, c, now);
    if j == None then FillMemo(s, c)
    else
      FewerLate(s, c, j.value, now, clock);
      ExpireOneOk(s, c, j.value, now, clock);
      Expire(ExpireOne(s, c, j.value, clock), c, now, clock)
  }

  lemma ExpireOneOk(s: State, c: ConnId, j: JobId, now: int, clock: Clock)
    requires CanExpire(s, c, now, clock) && j in s.conns[c].reserved && j in Late(s, c, now)
    ensures var r := ExpireOne(s, c, j, clock);
            CanExpire(r, c, now, clock) && NoLostWakeup(r) && c in r.conns && r.conns[c].inJob == s.conns[c].inJob
  {
    hide Mid, NoLostWakeup, TakeBack, Enqueue, InFlight, FillMemo, Late, MemoOk, Served, CanExpire;
    CanExpireMid(s, c, now, clock);
    FewerLate(s, c, j, now, clock);
    ExpireOk(s, c, j, clock);
    FillMemoLate(Enqueue(TakeBack(s, c, j), j, 0, clock), c, now);
    var r := ExpireOne(s, c, j, clock);
    assert clock(s.tick) <= clock(r.tick);
    CanExpireBy(r, c, now, clock);
  }

  lemma CanExpireMid(s: State, c: ConnId, now: int, clock: Clock)
    requires CanExpire(s, c, now, clock)
    ensures Mid(s, s.jobs, Nothing) && c in s.conns && Monotone(clock) && now <= clock(s.tick)
    ensures forall j :: j in s.conns[c].reserved ==> j in s.jobs && Known(s, j)
    ensures MemoOk(s.jobs, s.conns[c])
  {
    hide Mid;
  }

  /** conn_timeout's loop ends with no late job left to the connection. */
  lemma {:induction false} ExpireExact(s: State, c: ConnId, now: int, clock: Clock)
    requires CanExpire(s, c, now, clock) && NoLostWakeup(s)
    ensures var r := Expire(s, c, now, clock);
            && Mid(r, r.jobs, Nothing) && NoLostWakeup(r) && c in r.conns && Late(r, c, now) == {}
            && r.conns[c].inJob == s.conns[c].inJob
    decreases Late(s, c, now)
  {
    hide ExpireOne, LateJob, Mid, FillMemo, NoLostWakeup, CanExpire, Late;
    CanExpireMid(s, c, now, clock);
    var j := LateJob(s, c, now);
    if j == None {
      FillMemoMid(s, c);
      FillMemoLate(s, c, now);
      SameTubesNoLostWakeup(s, FillMemo(s, c));
    } else {
      FewerLate(s, c, j.value, now, clock);
      ExpireOneOk(s, c, j.value, now, clock);
      ExpireExact(ExpireOne(s, c, j.value, clock), c, now, clock);
    }
  }

  // ----- the answers -----

  /** conn_timeout. */
  ghost function ConnTimeout(s: State, c: ConnId, clock: Clock): State
    requires Inv(s) && c in s.conns && Monotone(clock)
  {
    TimeoutOk(s, c, clock);
    hide Inv, Mid, Expire, CanExpire, FillMemo, Monotone;
    var now := clock(s.tick);
    var s1 := Started(s, c);
    var s2 := Expire(s1, c, now, clock);
    if s.conns[c].waiting && DeadlineNear(s1, c, clock(s.tick + 1)) then
      SendReply(RemoveWaiting(s2, c), c, DeadlineSoon)
    else if s2.conns[c].waiting && s2.conns[c].pendingTimeout >= 0 then
      SendReply(PutConn(RemoveWaiting(s2, c), c, s2.conns[c].(waiting := false, pendingTimeout := -1)), c, TimedOut)
    else s2
  }

  /** conn_timeout up to its loop: the clock readings, and the memo for a waiting client. */
  ghost function Started(s: State, c: ConnId): State
    requires c in s.conns && forall j :: j in s.conns[c].reserved ==> j in s.jobs
  {
    if s.conns[c].waiting then FillMemo(s.(tick := s.tick + 2), c) else s.(tick := s.tick + 1)
  }

  lemma TimeoutOk(s: State, c: ConnId, clock: Clock)
    requires Inv(s) && c in s.conns && Monotone(clock)
    ensures forall j :: j in s.conns[c].reserved ==> j in s.jobs
    ensures var s1 := Started(s, c);
            && CanExpire(s1, c, clock(s.tick), clock) && NoLostWakeup(s1) && MemoKnown(s1, c) && s1.jobs == s.jobs
            && var s2 := Expire(s1, c, clock(s.tick), clock);
               && Mid(s2, s2.jobs, Nothing) && NoLostWakeup(s2) && c in s2.conns && Late(s2, c, clock(s.tick)) == {}
               && c in RemoveWaiting(s2, c).conns && s2.conns[c].inJob == s.conns[c].inJob
  {
    hide Inv, Mid, Expire, CanExpire, FillMemo, NoLostWakeup, MemoOk, Late, Settled;
    InvParts(s);
    SettledBy(s, Nothing);
    SettledKnows(s);
    var n: nat := if s.conns[c].waiting then 2 else 1;
    var s0 := s.(tick := s.tick + n);
    TickMid(s, s.jobs, s.tick + n, Nothing);
    SameTubesNoLostWakeup(s, s0);
    FillMemoMid(s0, c);
    FillMemoLate(s0, c, 0);
    var s1 := Started(s, c);
    SameTubesNoLostWakeup(s0, s1);
    assert clock(s.tick) <= clock(s1.tick);
    CanExpireBy(s1, c, clock(s.tick), clock);
    CanExpireMemo(s1, c, clock(s.tick), clock);
    ExpireExact(s1, c, clock(s.tick), clock);
    RemoveWaitingHas(Expire(s1, c, clock(s.tick), clock), c);
  }

  lemma CanExpireMemo(s: State, c: ConnId, now: int, clock: Clock)
    requires CanExpire(s, c, now, clock)
    ensures MemoKnown(s, c)
  {
    hide Mid;
  }

  lemma RemoveWaitingHas(s: State, c: ConnId)
    requires c in s.conns
    ensures c in RemoveWaiting(s, c).conns
  {}

  /** A client that still waits is answered with m instead of a job. */
  lemma AnswerWaiting(s: State, c: ConnId, p: int, m: Reply)
    requires Mid(s, s.jobs, Nothing) && NoLostWakeup(s) && c in s.conns && s.conns[c].waiting
    ensures c in RemoveWaiting(s, c).conns
    ensures Inv(SendReply(PutConn(RemoveWaiting(s, c), c, s.conns[c].(waiting := false, pendingTimeout := p)), c, m))
  {
    hide Mid, Shape, Own, Waits, Phases, Counts, Memo, Refs, NoLostWakeup;
    MidParts(s, s.jobs, Nothing);
    ConnFacts(s, c);
    LeaveWaits(s, c);
    RemoveWaitingHas(s, c);
    RemoveWaitingNoLost(s, c);
    AnswerOnly(s, c, p, m);
    var s1 := RemoveWaiting(s, c);
    var s2 := SendReply(PutConn(s1, c, s.conns[c].(waiting := false, pendingTimeout := p)), c, m);
    assert SameWaiting(s1, s2);
    SameTubesNoLostWakeup(s1, s2);
    assert ConnOk(s2.jobs, c, s2.conns[c]);
    hide RemoveWaiting, SendReply, SameWaiting, OnlyWaiting;
    FrameWaits(s1, s2);
    OnlyWaitingMid(s, c, s2, Nothing);
    InvParts(s2);
  }

  lemma AnswerOnly(s: State, c: ConnId, p: int, m: Reply)
    requires c in s.conns && s.conns[c].waiting
    ensures c in RemoveWaiting(s, c).conns
    ensures OnlyWaiting(s, c, SendReply(PutConn(RemoveWaiting(s, c), c, s.conns[c].(waiting := false, pendingTimeout := p)), c, m))
  {}

  lemma AnswerKeeping(s: State, c: ConnId, m: Reply)
    requires c in s.conns && s.conns[c].waiting
    ensures c in RemoveWaiting(s, c).conns
    ensures SendReply(RemoveWaiting(s, c), c, m) ==
            SendReply(PutConn(RemoveWaiting(s, c), c, s.conns[c].(waiting := false, pendingTimeout := s.conns[c].pendingTimeout)), c, m)
  {
    assert RemoveWaiting(s, c).conns[c] == s.conns[c].(waiting := false);
    var s1 := RemoveWaiting(s, c);
    assert s1.conns[c := s1.conns[c]] == s1.conns;
  }

  lemma ConnTimeoutInv(s: State, c: ConnId, clock: Clock)
    requires Inv(s) && c in s.conns && Monotone(clock)
    ensures Inv(ConnTimeout(s, c, clock))
  {
    hide Inv, Mid, Expire, CanExpire, FillMemo, NoLostWakeup, Late, RemoveWaiting, SendReply, Monotone;
    TimeoutOk(s, c, clock);
    var s2 := Expire(Started(s, c), c, clock(s.tick), clock);
    if s.conns[c].waiting && DeadlineNear(Started(s, c), c, clock(s.tick + 1)) {
      if s2.conns[c].waiting {
        AnswerKeeping(s2, c, DeadlineSoon);
        AnswerWaiting(s2, c, s2.conns[c].pendingTimeout, DeadlineSoon);
      } else {
        WaitingReadsNothing(s, c);
        NotWaitingStays(s2, c);
        ReplyInv(s2, c, DeadlineSoon);
      }
    } else if s2.conns[c].waiting && s2.conns[c].pendingTimeout >= 0 {
      AnswerWaiting(s2, c, -1, TimedOut);
    } else {
      InvParts(s2);
    }
  }

  lemma WaitingReadsNothing(s: State, c: ConnId)
    requires Inv(s) && c in s.conns && s.conns[c].waiting
    ensures s.conns[c].inJob == None
  {
    hide Shape, Own, Waits, Counts, Memo, Refs, NoLostWakeup;
  }

  lemma NotWaitingStays(s: State, c: ConnId)
    requires c in s.conns && !s.conns[c].waiting
    ensures RemoveWaiting(s, c) == s
  {}

  /** After conn_timeout the connection holds no job whose deadline had passed when it began. */
  lemma ConnTimeoutExact(s: State, c: ConnId, clock: Clock)
    requires Inv(s) && c in s.conns && Monotone(clock)
    ensures var r := ConnTimeout(s, c, clock);
            && c in r.conns
            && forall j :: j in r.conns[c].reserved ==> j in r.jobs && r.jobs[j].deadline > clock(s.tick)
  {
    hide Inv, Mid, Expire, CanExpire, FillMemo, NoLostWakeup, Monotone, SwapRemove;
    TimeoutOk(s, c, clock);
    ConnTimeoutInv(s, c, clock);
    var r := ConnTimeout(s, c, clock);
    var s2 := Expire(Started(s, c), c, clock(s.tick), clock);
    assert r.jobs == s2.jobs && c in r.conns && r.conns[c].reserved == s2.conns[c].reserved;
    hide ConnTimeout;
    SettledByInv(r);
    SettledKnows(r);
    hide Settled;
    forall j | j in r.conns[c].reserved ensures j in r.jobs && r.jobs[j].deadline > clock(s.tick) {
      assert Held(r.jobs, j, c) && j !in Late(s2, c, clock(s.tick));
    }
  }

  lemma SettledByInv(s: State)
    requires Inv(s)
    ensures Settled(s)
  {
    hide Mid;
    SettledBy(s, Nothing);
  }
}
