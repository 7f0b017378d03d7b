/** Which jobs a connection's timeout moves. */
module Expiry {
  import opened Lists
  import opened State
  import opened Moves
  import opened JobMoves
  import opened Queue
  import opened Steps
  import opened Timeout
  import opened Waiting
  import opened Reserving

  /** A reserved job ran out of time once: it is ready, or a connection that waited on its tube has it already. */
  ghost predicate JobExpired(s: State, x: Job, y: Job) {
    && x.state == Reserved && y.timeouts == x.timeouts + 1
    && y.tube == x.tube && y.pri == x.pri && y.delay == x.delay && y.ttr == x.ttr
    && ((y.state == Ready && y.reserver == None)
        || (y.state == Reserved && y.reserver.Some? && WaitsOn(s.conns, y.reserver.value, x.tube)))
  }

  ghost predicate FewerWait(s: State, r: State) {
    forall e, t :: WaitsOn(r.conns, e, t) ==> WaitsOn(s.conns, e, t)
  }

  /** Exactly the jobs `late` of connection c ran out of time, each counted; all other jobs, and all other
      connections, are as they were or were served by process_queue. */
  ghost predicate TookBack(s: State, c: ConnId, late: set<JobId>, r: State) {
    && r.jobs.Keys == s.jobs.Keys && late <= s.jobs.Keys && r.conns.Keys == s.conns.Keys && r.tubes.Keys == s.tubes.Keys
    && (forall j :: j in s.jobs && j !in late ==> JobServed(s, s.jobs[j], r.jobs[j]))
    && (forall j :: j in late ==> JobExpired(s, s.jobs[j], r.jobs[j]))
    && (forall d :: d in s.conns && d != c ==> ConnServed(s.conns[d], r.conns[d]))
    && FewerWait(s, r) && r.timeoutCnt == s.timeoutCnt + |late|
  }

  lemma ServedAfter(a: State, b: State, x: Job, y: Job)
    requires JobServed(b, x, y) && FewerWait(a, b)
    ensures JobServed(a, x, y)
  {
    hide WaitsOn;
  }

  lemma ExpiredJob(a: State, b: State, x: Job, y: Job, z: Job)
    requires FewerWait(a, b)
    ensures JobServed(a, x, y) && JobServed(b, y, z) ==> JobServed(a, x, z)
    ensures JobExpired(a, x, y) && JobServed(b, y, z) ==> JobExpired(a, x, z)
    ensures x.state == Reserved && JobServed(a, x, y) && JobExpired(b, y, z) ==> JobExpired(a, x, z)
  {
    hide WaitsOn;
  }

  lemma ExpiredTrans(a: State, c: ConnId, j: JobId, b: State, late: set<JobId>, r: State)
    requires TookBack(a, c, {j}, b) && TookBack(b, c, late, r) && j !in late
    requires forall i :: i in late ==> i in a.jobs && a.jobs[i].state == Reserved
    ensures TookBack(a, c, {j} + late, r)
  {
    forall i | i in a.jobs
      ensures i !in {j} + late ==> JobServed(a, a.jobs[i], r.jobs[i])
      ensures i in {j} + late ==> JobExpired(a, a.jobs[i], r.jobs[i])
    {
      ExpiredJob(a, b, a.jobs[i], b.jobs[i], r.jobs[i]);
    }
    hide JobServed, JobExpired, WaitsOn;
    forall d | d in a.conns && d != c ensures ConnServed(a.conns[d], r.conns[d]) {
      assert ConnServed(a.conns[d], b.conns[d]) && ConnServed(b.conns[d], r.conns[d]);
    }
  }

  lemma NoneExpired(s: State, c: ConnId, r: State)
    requires r.jobs == s.jobs && r.timeoutCnt == s.timeoutCnt && r.tubes.Keys == s.tubes.Keys && r.conns.Keys == s.conns.Keys
    requires forall d :: d in s.conns && d != c ==> r.conns[d] == s.conns[d]
    requires c in s.conns && r.conns[c].waiting == s.conns[c].waiting && r.conns[c].watch == s.conns[c].watch
    ensures TookBack(s, c, {}, r)
  {}

  lemma TakenBack(s: State, c: ConnId, j: JobId, clock: Clock)
    requires c in s.conns && Known(s, j)
    ensures Known(TakeBack(s, c, j), j)
    ensures var s1 := Insert(TakeBack(s, c, j), j, 0, clock);
            && s1.jobs == s.jobs[j := s.jobs[j].(reserver := None, timeouts := s.jobs[j].timeouts + 1, state := Ready)]
            && c in s1.conns && s1.conns == s.conns[c := s1.conns[c]] && s1.tubes.Keys == s.tubes.Keys
            && s1.conns[c].waiting == s.conns[c].waiting && s1.conns[c].watch == s.conns[c].watch
            && s1.timeoutCnt == s.timeoutCnt + 1
  {}

  lemma ServedWaiters(s: State, c: ConnId, s1: State, s2: State)
    requires Served(s1, s2) && c in s.conns && c in s1.conns && s1.conns == s.conns[c := s1.conns[c]]
    requires s1.conns[c].waiting == s.conns[c].waiting && s1.conns[c].watch == s.conns[c].watch
    ensures FewerWait(s, s1) && FewerWait(s, s2)
  {
    forall e, t | WaitsOn(s2.conns, e, t) ensures WaitsOn(s1.conns, e, t) {
      assert ConnServed(s1.conns[e], s2.conns[e]);
    }
  }

  lemma ServedCounter(s: State, r: State)
    requires Served(s, r)
    ensures r.timeoutCnt == s.timeoutCnt
  {}

  lemma ServedExpired(s: State, c: ConnId, s1: State, j: JobId, s2: State)
    requires j in s.jobs && s.jobs[j].state == Reserved && Served(s1, s2) && c in s.conns && c in s1.conns
    requires s1.jobs == s.jobs[j := s.jobs[j].(reserver := None, timeouts := s.jobs[j].timeouts + 1, state := Ready)]
    requires s1.conns == s.conns[c := s1.conns[c]] && s1.tubes.Keys == s.tubes.Keys
    requires s1.conns[c].waiting == s.conns[c].waiting && s1.conns[c].watch == s.conns[c].watch && s1.timeoutCnt == s.timeoutCnt + 1
    ensures TookBack(s, c, {j}, s2)
  {
    ServedCounter(s1, s2);
    hide Served, FewerWait, JobServed, ConnServed, JobExpired;
    ServedWaiters(s, c, s1, s2);
    ServedEach(s1, s2);
    forall i | i in s.jobs && i != j ensures JobServed(s, s.jobs[i], s2.jobs[i]) { ServedAfter(s, s1, s.jobs[i], s2.jobs[i]); }
    ExpiredNow(s, s1, s.jobs[j], s1.jobs[j], s2.jobs[j]);
  }

  lemma ExpiredNow(s: State, s1: State, x: Job, y: Job, z: Job)
    requires x.state == Reserved && y == x.(reserver := None, timeouts := x.timeouts + 1, state := Ready)
    requires JobServed(s1, y, z) && FewerWait(s, s1)
    ensures JobExpired(s, x, z)
  {
    hide WaitsOn;
  }

  /** One round of conn_timeout's loop. */
  lemma ExpireOneMoves(s: State, c: ConnId, j: JobId, clock: Clock)
    requires Mid(s, s.jobs, Nothing) && c in s.conns && Known(s, j) && j in s.conns[c].reserved && s.jobs[j].state == Reserved
    ensures TookBack(s, c, {j}, ExpireOne(s, c, j, clock))
  {
    hide Mid, TakeBack, Enqueue, InFlight, Served, NoLostWakeup, Insert, FillMemo, TookBack;
    ExpireOk(s, c, j, clock);
    TakenBack(s, c, j, clock);
    var s1 := TakeBack(s, c, j);
    var s2 := Enqueue(s1, j, 0, clock);
    ServedExpired(s, c, Insert(s1, j, 0, clock), j, s2);
    FilledOnly(s2, c);
    AnsweredExpired(s, c, {j}, s2, ExpireOne(s, c, j, clock));
  }

  lemma FilledOnly(s: State, c: ConnId)
    requires c in s.conns && forall j :: j in s.conns[c].reserved ==> j in s.jobs
    ensures var r := FillMemo(s, c);
            && r.jobs == s.jobs && r.tubes == s.tubes && c in r.conns && r.conns == s.conns[c := r.conns[c]]
            && r.conns[c].waiting == s.conns[c].waiting && r.conns[c].watch == s.conns[c].watch && r.timeoutCnt == s.timeoutCnt
  {
    hide Scan;
  }

  /** One late job less, and it is that one. */
  lemma LateLeft(s: State, c: ConnId, j: JobId, now: int, r: State)
    requires Late(r, c, now) < Late(s, c, now) && j in Late(s, c, now) && TookBack(s, c, {j}, r)
    requires forall i :: i in Late(s, c, now) ==> s.jobs[i].state == Reserved && s.jobs[i].reserver == Some(c)
    requires c in r.conns && forall i :: i in r.jobs && r.jobs[i].state == Reserved && r.jobs[i].reserver == Some(c) ==> i in r.conns[c].reserved
    ensures Late(s, c, now) == {j} + Late(r, c, now) && j !in Late(r, c, now)
  {
    forall i | i in Late(s, c, now) && i != j ensures i in Late(r, c, now) {
      assert JobServed(s, s.jobs[i], r.jobs[i]);
    }
    assert j in Late(r, c, now) ==> Late(s, c, now) <= Late(r, c, now);
  }

  lemma LateHeld(s: State, c: ConnId, now: int)
    requires Mid(s, s.jobs, Nothing) && c in s.conns
    ensures forall i :: i in Late(s, c, now) ==> i in s.jobs && s.jobs[i].state == Reserved && s.jobs[i].reserver == Some(c)
    ensures forall i :: i in s.jobs && s.jobs[i].state == Reserved && s.jobs[i].reserver == Some(c) ==> i in s.conns[c].reserved
  {
    hide *;
    MidParts(s, s.jobs, Nothing);
    OwnParts(s.jobs, s);
    HeldAre(s, c, now);
  }

  lemma HeldAre(s: State, c: ConnId, now: int)
    requires ConnsOwn(s.jobs, s.conns) && c in s.conns
    ensures forall i :: i in Late(s, c, now) ==> i in s.jobs && s.jobs[i].state == Reserved && s.jobs[i].reserver == Some(c)
    ensures forall i :: i in s.jobs && s.jobs[i].state == Reserved && s.jobs[i].reserver == Some(c) ==> i in s.conns[c].reserved
  {
    assert forall i :: i in s.conns[c].reserved <==> Held(s.jobs, i, c);
  }

  /** conn_timeout's loop takes back exactly the late jobs, each once. */
  lemma {:induction false} ExpireMoves(s: State, c: ConnId, now: int, clock: Clock)
    requires CanExpire(s, c, now, clock)
    ensures TookBack(s, c, Late(s, c, now), Expire(s, c, now, clock))
    decreases Late(s, c, now)
  {
    hide ExpireOne, LateJob, Mid, FillMemo, CanExpire, Late, TookBack, NoLostWakeup, MemoOk;
    CanExpireMid(s, c, now, clock);
    LateHeld(s, c, now);
    var j := LateJob(s, c, now);
    if j == None {
      FilledOnly(s, c);
      NoneExpired(s, c, FillMemo(s, c));
    } else {
      FewerLate(s, c, j.value, now, clock);
      ExpireOneOk(s, c, j.value, now, clock);
      ExpireOneMoves(s, c, j.value, clock);
      var r := ExpireOne(s, c, j.value, clock);
      CanExpireMid(r, c, now, clock);
      LateHeld(r, c, now);
      LateLeft(s, c, j.value, now, r);
      ExpireMoves(r, c, now, clock);
      ExpiredTrans(s, c, j.value, r, Late(r, c, now), Expire(r, c, now, clock));
    }
  }

  lemma StartedLate(s: State, c: ConnId, now: int)
    requires c in s.conns && forall j :: j in s.conns[c].reserved ==> j in s.jobs
    ensures var s1 := Started(s, c);
            && Late(s1, c, now) == Late(s, c, now) && s1.jobs == s.jobs && s1.tubes == s.tubes && c in s1.conns
            && s1.conns == s.conns[c := s1.conns[c]] && s1.timeoutCnt == s.timeoutCnt
            && s1.conns[c].waiting == s.conns[c].waiting && s1.conns[c].watch == s.conns[c].watch
  {
    hide Scan;
  }

  /** A timeout of connection c: exactly the jobs it has reserved past their deadline are taken back,
      each counted once; each is ready, or with a connection that waited on its tube; no other job and
      no other connection loses anything, and what c still holds afterwards has time left. */
  lemma ConnTimeoutMoves(s: State, c: ConnId, clock: Clock)
    requires Inv(s) && c in s.conns && Monotone(clock)
    ensures var r, now := ConnTimeout(s, c, clock), clock(s.tick);
            && TookBack(s, c, Late(s, c, now), r) && c in r.conns
            && forall j :: j in r.conns[c].reserved ==> j in r.jobs && r.jobs[j].deadline > now
  {
    hide Inv, Mid, Expire, CanExpire, FillMemo, NoLostWakeup, Monotone, SwapRemove, Started, Late, TookBack, MemoKnown, RemoveWaiting;
    TimeoutOk(s, c, clock);
    var now := clock(s.tick);
    StartedLate(s, c, now);
    var s1 := Started(s, c);
    ExpireMoves(s1, c, now, clock);
    ConnTimeoutExact(s, c, clock);
    var s2 := Expire(s1, c, now, clock);
    ExpiredFrom(s, c, s1, Late(s, c, now), s2);
    TimeoutAnswers(s, c, clock);
    AnsweredExpired(s, c, Late(s, c, now), s2, ConnTimeout(s, c, clock));
  }

  lemma ExpiredFrom(s: State, c: ConnId, s1: State, late: set<JobId>, r: State)
    requires TookBack(s1, c, late, r) && s1.jobs == s.jobs && s1.tubes == s.tubes && c in s.conns && c in s1.conns
    requires s1.conns == s.conns[c := s1.conns[c]] && s1.timeoutCnt == s.timeoutCnt
    requires s1.conns[c].waiting == s.conns[c].waiting && s1.conns[c].watch == s.conns[c].watch
    ensures TookBack(s, c, late, r)
  {
    assert forall e, t :: WaitsOn(s1.conns, e, t) <==> WaitsOn(s.conns, e, t);
    hide WaitsOn, ConnServed;
    assert forall x, y :: JobServed(s1, x, y) <==> JobServed(s, x, y);
    assert forall x, y :: JobExpired(s1, x, y) <==> JobExpired(s, x, y);
    hide JobServed, JobExpired;
  }

  lemma AnsweredExpired(s: State, c: ConnId, late: set<JobId>, r: State, r2: State)
    requires TookBack(s, c, late, r) && r2.jobs == r.jobs && r2.timeoutCnt == r.timeoutCnt && r2.tubes.Keys == r.tubes.Keys && c in r.conns && c in r2.conns
    requires r2.conns == r.conns[c := r2.conns[c]]
    requires r2.conns[c].watch == r.conns[c].watch && (r2.conns[c].waiting ==> r.conns[c].waiting)
    ensures TookBack(s, c, late, r2)
  {
    hide JobServed, JobExpired, ConnServed;
    assert FewerWait(r, r2);
    hide WaitsOn;
  }

  /** The answers at the end of conn_timeout touch connection c and the waiting sets only. */
  lemma TimeoutAnswers(s: State, c: ConnId, clock: Clock)
    requires Inv(s) && c in s.conns && Monotone(clock)
    ensures forall j :: j in s.conns[c].reserved ==> j in s.jobs
    ensures CanExpire(Started(s, c), c, clock(s.tick), clock)
    ensures var r, r2 := Expire(Started(s, c), c, clock(s.tick), clock), ConnTimeout(s, c, clock);
            && r2.jobs == r.jobs && r2.tubes.Keys == r.tubes.Keys && c in r.conns && c in r2.conns && r2.conns == r.conns[c := r2.conns[c]]
            && r2.conns[c].watch == r.conns[c].watch && (r2.conns[c].waiting ==> r.conns[c].waiting)
            && r2.timeoutCnt == r.timeoutCnt
  {
    hide Inv, Mid, Expire, CanExpire, FillMemo, NoLostWakeup, Monotone, SwapRemove, Started, Late, RemoveWaiting;
    TimeoutOk(s, c, clock);
    LeavesOnly(Expire(Started(s, c), c, clock(s.tick), clock), c);
  }

  lemma LeavesOnly(s: State, c: ConnId)
    requires c in s.conns
    ensures var r := RemoveWaiting(s, c);
            && r.jobs == s.jobs && r.tubes.Keys == s.tubes.Keys && c in r.conns && r.conns == s.conns[c := r.conns[c]]
            && r.conns[c] == s.conns[c].(waiting := false) && r.timeoutCnt == s.timeoutCnt
  {
    assert !s.conns[c].waiting ==> s.conns[c].(waiting := false) == s.conns[c];
  }

  // ----- the job that is being sent -----

  /** What is left of the job being written when the jobs `late` are taken back. */
  function OutAfter(out: Out, late: set<JobId>): Out {
    if out.Live? && out.job in late then Copy else out
  }

  /** c is as it was, but for its reserved jobs, its memo, and the job being written, which is now a copy
      if it was among the late ones. */
  ghost predicate WritesOn(s: State, c: ConnId, late: set<JobId>, r: State) {
    && c in s.conns && c in r.conns
    && r.conns[c] == s.conns[c].(reserved := r.conns[c].reserved, soonest := r.conns[c].soonest, out := OutAfter(s.conns[c].out, late))
  }

  lemma TakenBackOut(s: State, c: ConnId, j: JobId, clock: Clock)
    requires c in s.conns && Known(s, j)
    ensures Known(TakeBack(s, c, j), j)
    ensures WritesOn(s, c, {j}, Insert(TakeBack(s, c, j), j, 0, clock))
  {}

  lemma WritesOnTrans(a: State, c: ConnId, l: set<JobId>, b: State, m: set<JobId>, r: State)
    requires WritesOn(a, c, l, b) && WritesOn(b, c, m, r)
    ensures WritesOn(a, c, l + m, r)
  {}

  lemma ServedWritesOn(s: State, c: ConnId, r: State)
    requires Served(s, r) && c in s.conns && !s.conns[c].waiting
    ensures WritesOn(s, c, {}, r)
  {
    assert ConnServed(s.conns[c], r.conns[c]);
    hide Served;
  }

  lemma FilledWritesOn(s: State, c: ConnId)
    requires c in s.conns && forall j :: j in s.conns[c].reserved ==> j in s.jobs
    ensures WritesOn(s, c, {}, FillMemo(s, c))
  {
    hide Scan;
  }

  lemma ExpireOneWritesOn(s: State, c: ConnId, j: JobId, clock: Clock)
    requires Mid(s, s.jobs, Nothing) && c in s.conns && Known(s, j) && j in s.conns[c].reserved && !s.conns[c].waiting
    ensures WritesOn(s, c, {j}, ExpireOne(s, c, j, clock)) && !ExpireOne(s, c, j, clock).conns[c].waiting
  {
    hide Mid, TakeBack, Enqueue, InFlight, Served, NoLostWakeup, Insert, FillMemo, WritesOn;
    ExpireOk(s, c, j, clock);
    TakenBack(s, c, j, clock);
    TakenBackOut(s, c, j, clock);
    var s1 := Insert(TakeBack(s, c, j), j, 0, clock);
    var s2 := Enqueue(TakeBack(s, c, j), j, 0, clock);
    ServedWritesOn(s1, c, s2);
    FilledWritesOn(s2, c);
    WritesOnTrans(s, c, {j}, s1, {}, s2);
    WritesOnTrans(s, c, {j} + {}, s2, {}, FillMemo(s2, c));
    assert {j} + {} + {} == {j};
    StillIdle(s, c, {j}, FillMemo(s2, c));
  }

  lemma StillIdle(s: State, c: ConnId, late: set<JobId>, r: State)
    requires WritesOn(s, c, late, r)
    ensures c in r.conns && r.conns[c].waiting == s.conns[c].waiting
  {}

  lemma {:induction false} ExpireWritesOn(s: State, c: ConnId, now: int, clock: Clock)
    requires CanExpire(s, c, now, clock) && !s.conns[c].waiting
    ensures WritesOn(s, c, Late(s, c, now), Expire(s, c, now, clock))
    decreases Late(s, c, now)
  {
    hide ExpireOne, LateJob, Mid, FillMemo, CanExpire, Late, TookBack, NoLostWakeup, MemoOk, WritesOn;
    CanExpireMid(s, c, now, clock);
    LateHeld(s, c, now);
    var j := LateJob(s, c, now);
    if j == None {
      FilledWritesOn(s, c);
    } else {
      FewerLate(s, c, j.value, now, clock);
      ExpireOneOk(s, c, j.value, now, clock);
      ExpireOneMoves(s, c, j.value, clock);
      ExpireOneWritesOn(s, c, j.value, clock);
      var r := ExpireOne(s, c, j.value, clock);
      CanExpireMid(r, c, now, clock);
      LateHeld(r, c, now);
      LateLeft(s, c, j.value, now, r);
      ExpireWritesOn(r, c, now, clock);
      WritesOnTrans(s, c, {j.value}, r, Late(r, c, now), Expire(r, c, now, clock));
    }
  }

  /** A job in the middle of being written out when its time is over goes on being written from a copy,
      and only then does it; a client that does not wait notices nothing else but that its late jobs are gone. */
  lemma ConnTimeoutCopies(s: State, c: ConnId, clock: Clock)
    requires Inv(s) && c in s.conns && !s.conns[c].waiting && Monotone(clock)
    ensures WritesOn(s, c, Late(s, c, clock(s.tick)), ConnTimeout(s, c, clock))
  {
    hide Inv, Mid, Expire, CanExpire, FillMemo, NoLostWakeup, Monotone, Late, WritesOn, RemoveWaiting, MemoKnown;
    TimeoutOk(s, c, clock);
    var s1, now := Started(s, c), clock(s.tick);
    ExpireWritesOn(s1, c, now, clock);
    StillIdle(s1, c, Late(s1, c, now), Expire(s1, c, now, clock));
    StartedLate(s, c, now);
    SameStart(s, c, Late(s, c, now), s1, Expire(s1, c, now, clock));
  }

  lemma SameStart(s: State, c: ConnId, late: set<JobId>, s1: State, r: State)
    requires WritesOn(s1, c, late, r) && s1.conns == s.conns
    ensures WritesOn(s, c, late, r)
  {}

  // ----- what a waiting client is told -----

  /** Nothing has run out: the loop ends at once. */
  lemma NothingExpires(s: State, c: ConnId, now: int, clock: Clock)
    requires CanExpire(s, c, now, clock) && Late(s, c, now) == {}
    ensures Expire(s, c, now, clock) == FillMemo(s, c)
  {
    hide ExpireOne, Mid, FillMemo, Late, MemoOk, Monotone, LateJob;
  }

  /** s2 is s but for the clock and the memo of c. */
  ghost predicate MemoOnly(s: State, c: ConnId, s2: State) {
    && c in s.conns && c in s2.conns && s2.jobs == s.jobs && s2.tubes == s.tubes
    && s2.conns == s.conns[c := s.conns[c].(soonest := s2.conns[c].soonest)]
  }

  lemma FilledMemoOnly(s: State, c: ConnId, n: nat)
    requires c in s.conns && forall j :: j in s.conns[c].reserved ==> j in s.jobs
    ensures MemoOnly(s, c, FillMemo(s.(tick := n), c)) && MemoOnly(s, c, FillMemo(FillMemo(s.(tick := n), c), c))
  {
    hide Scan;
  }

  lemma TimedOutIs(s: State, c: ConnId, s2: State)
    requires MemoOnly(s, c, s2) && s.conns[c].waiting
    ensures c in RemoveWaiting(s2, c).conns
    ensures var r := SendReply(PutConn(RemoveWaiting(s2, c), c, s2.conns[c].(waiting := false, pendingTimeout := -1)), c, TimedOut);
            && r.jobs == s.jobs && c in r.conns
            && r.conns == s.conns[c := s.conns[c].(soonest := r.conns[c].soonest, waiting := false, pendingTimeout := -1,
                                                   phase := SendWord, reply := TimedOut)]
  {}

  lemma SoonIs(s: State, c: ConnId)
    requires c in s.conns
    ensures c in RemoveWaiting(s, c).conns
    ensures var r := SendReply(RemoveWaiting(s, c), c, DeadlineSoon);
            && c in r.conns && r.conns[c].reply == DeadlineSoon && r.conns[c].phase == SendWord && !r.conns[c].waiting
            && r.jobs == s.jobs && r.conns[c].pendingTimeout == s.conns[c].pendingTimeout
  {}

  lemma PendingKept(s: State, c: ConnId, j: JobId, clock: Clock)
    requires Mid(s, s.jobs, Nothing) && c in s.conns && Known(s, j) && j in s.conns[c].reserved
    ensures c in ExpireOne(s, c, j, clock).conns
    ensures ExpireOne(s, c, j, clock).conns[c].pendingTimeout == s.conns[c].pendingTimeout
  {
    hide Mid, TakeBack, Enqueue, InFlight, Served, NoLostWakeup, Insert;
    ExpireOk(s, c, j, clock);
    TakenBackOut(s, c, j, clock);
    var s1 := Insert(TakeBack(s, c, j), j, 0, clock);
    var s2 := Enqueue(TakeBack(s, c, j), j, 0, clock);
    ServedEach(s1, s2);
    assert ConnServed(s1.conns[c], s2.conns[c]);
    hide ConnServed, JobServed;
    FilledWritesOn(s2, c);
  }

  lemma {:induction false} ExpirePending(s: State, c: ConnId, now: int, clock: Clock)
    requires CanExpire(s, c, now, clock)
    ensures var r := Expire(s, c, now, clock); c in r.conns && r.conns[c].pendingTimeout == s.conns[c].pendingTimeout
    decreases Late(s, c, now)
  {
    hide ExpireOne, LateJob, Mid, FillMemo, CanExpire, Late, NoLostWakeup, MemoOk;
    CanExpireMid(s, c, now, clock);
    var j := LateJob(s, c, now);
    if j == None {
      FilledWritesOn(s, c);
    } else {
      FewerLate(s, c, j.value, now, clock);
      ExpireOneOk(s, c, j.value, now, clock);
      PendingKept(s, c, j.value, clock);
      ExpirePending(ExpireOne(s, c, j.value, clock), c, now, clock);
    }
  }

  lemma NotLateYet(s: State, c: ConnId, soon: int, now: int)
    requires !DeadlineClose(s, c, soon) && now <= soon && c in s.conns && forall j :: j in s.conns[c].reserved ==> j in s.jobs
    ensures Late(s, c, now) == {}
  {}

  lemma CloseIs(s: State, c: ConnId, now: int)
    requires c in s.conns
    ensures DeadlineClose(s, c, now) <==>
            exists j :: j in s.conns[c].reserved && j in s.jobs && s.jobs[j].deadline - SAFETY_MARGIN <= now
  {}

  lemma PendingSame(s: State, c: ConnId, s2: State)
    requires MemoOnly(s, c, s2)
    ensures s2.conns[c].pendingTimeout == s.conns[c].pendingTimeout && s2.conns[c].waiting == s.conns[c].waiting
  {}

  lemma MemoOnlyIs(s: State, c: ConnId, s2: State)
    requires MemoOnly(s, c, s2)
    ensures s2.jobs == s.jobs && s2.tubes == s.tubes && s2.conns == s.conns[c := s.conns[c].(soonest := s2.conns[c].soonest)]
  {}

  lemma LaterReading(clock: Clock, n: nat)
    requires Monotone(clock)
    ensures clock(n) <= clock(n + 1)
  {}

  lemma MemoOf(s: State, c: ConnId)
    requires Inv(s) && c in s.conns
    ensures MemoOk(s.jobs, s.conns[c])
  {
    hide *;
    InvParts(s);
    MidParts(s, s.jobs, Nothing);
    ConnFacts(s, c);
  }

  /** A waiting client when its time comes: DEADLINE_SOON, and it waits no longer, if a job it has reserved is
      within a second of its deadline, whatever the loop has handed it meanwhile; else TIMED_OUT if it gave a
      timeout; else it goes on waiting. In the last two cases no job moves. */
  lemma WaiterTimeout(s: State, c: ConnId, clock: Clock)
    requires Inv(s) && c in s.conns && s.conns[c].waiting && Monotone(clock)
    ensures var r, k := ConnTimeout(s, c, clock), s.conns[c];
            && c in r.conns
            && if exists j :: j in k.reserved && j in s.jobs && s.jobs[j].deadline - SAFETY_MARGIN <= clock(s.tick + 1) then
                 && r.conns[c].reply == DeadlineSoon && r.conns[c].phase == SendWord && !r.conns[c].waiting
                 && r.conns[c].pendingTimeout == k.pendingTimeout
               else if k.pendingTimeout >= 0 then
                 && r.jobs == s.jobs
                 && r.conns == s.conns[c := k.(soonest := r.conns[c].soonest, waiting := false, pendingTimeout := -1,
                                               phase := SendWord, reply := TimedOut)]
               else
                 && r.jobs == s.jobs && r.tubes == s.tubes
                 && r.conns == s.conns[c := k.(soonest := r.conns[c].soonest)]
  {
    hide Inv, Mid, Expire, CanExpire, FillMemo, NoLostWakeup, Monotone, Late, RemoveWaiting, SendReply, DeadlineNear, DeadlineClose,
      MemoOnly, HasReady;
    CloseIs(s, c, clock(s.tick + 1));
    TimeoutOk(s, c, clock);
    var now, s1 := clock(s.tick), Started(s, c);
    MemoOf(s, c);
    NearIsClose(s, c, s.tick + 2, clock(s.tick + 1));
    FilledMemoOnly(s, c, s.tick + 2);
    var s2 := Expire(s1, c, now, clock);
    if DeadlineClose(s, c, clock(s.tick + 1)) {
      SoonIs(s2, c);
      ExpirePending(s1, c, now, clock);
      PendingSame(s, c, s1);
    } else {
      LaterReading(clock, s.tick);
      NotLateYet(s, c, clock(s.tick + 1), now);
      StartedLate(s, c, now);
      NothingExpires(s1, c, now, clock);
      if s.conns[c].pendingTimeout >= 0 {
        PendingSame(s, c, s2);
        TimedOutIs(s, c, s2);
      } else {
        PendingSame(s, c, s2);
        MemoOnlyIs(s, c, s2);
      }
    }
  }
}
