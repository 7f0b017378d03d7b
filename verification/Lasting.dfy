/** What lasts over every step: a pause, until its time is over; drain mode; and the references of a tube
    that no client accounts for. */
module Lasting {
  import opened Counting
  import opened Lists
  import opened State
  import opened Moves
  import opened JobMoves
  import opened Serve
  import opened Queue
  import opened Steps
  import opened JobCommands
  import opened Kick
  import opened Waiting
  import opened Tubes
  import opened Conns
  import opened Cron
  import opened Timeout
  import opened Order
  import opened TubeEffects
  import opened Run
  import Bystanders

  /** References of a tube that no client accounts for by using or watching it. */
  ghost function Kept(x: Tube): int { x.refs - x.usingCnt - x.watchingCnt }

  /** From s to r no tube came, none with a kept reference went, and the others keep what they kept. */
  ghost predicate Leaky(s: State, r: State) {
    && r.tubes.Keys <= s.tubes.Keys
    && (forall t :: t in s.tubes && Kept(s.tubes[t]) > 0 ==> t in r.tubes)
    && (forall t :: t in r.tubes ==> Kept(r.tubes[t]) == Kept(s.tubes[t]))
  }

  lemma LeakyTrans(a: State, b: State, c: State)
    requires Leaky(a, b) && Leaky(b, c)
    ensures Leaky(a, c)
  {
    hide Kept;
  }

  /** No reading of the clock from the from-th on, up to the to-th, has reached d. */
  ghost predicate NotReached(clock: Clock, from: nat, to: nat, d: int) {
    forall i :: from <= i < to ==> clock(i) < d
  }

  /** No job of tube t is reserved in r that was not reserved in s, by the same connection. */
  ghost predicate NoneTaken(s: State, r: State, t: TubeId) {
    forall j :: j in r.jobs && r.jobs[j].tube == t && r.jobs[j].reserver.Some? ==>
      j in s.jobs && s.jobs[j].tube == t && s.jobs[j].reserver == r.jobs[j].reserver
  }

  /** The pause of tube t is what it was, and nobody has got a job of it. */
  ghost predicate StaysClosed(s: State, r: State, t: TubeId)
    requires t in s.tubes && t in r.tubes
  {
    r.tubes[t].pause == s.tubes[t].pause && r.tubes[t].deadline == s.tubes[t].deadline && NoneTaken(s, r, t)
  }

  /** From s to r no tube came, drain mode is as it was, and tubes stay closed whose pauses are not over
      by any reading of the clock taken on the way. */
  ghost predicate Calm(s: State, r: State, clock: Clock) {
    && Leaky(s, r) && r.tubes.Keys <= s.tubes.Keys && s.tick <= r.tick && r.drain == s.drain && r.defaultTube == s.defaultTube
    && forall t :: t in r.tubes && s.tubes[t].pause != 0 && NotReached(clock, s.tick, r.tick, s.tubes[t].deadline) ==>
         StaysClosed(s, r, t)
  }

  lemma CalmTrans(a: State, b: State, c: State, clock: Clock)
    requires Calm(a, b, clock) && Calm(b, c, clock)
    ensures Calm(a, c, clock)
  {
    hide Leaky;
    LeakyTrans(a, b, c);
    forall t | t in c.tubes && a.tubes[t].pause != 0 && NotReached(clock, a.tick, c.tick, a.tubes[t].deadline)
      ensures StaysClosed(a, c, t)
    {
      assert NotReached(clock, a.tick, b.tick, a.tubes[t].deadline);
      assert StaysClosed(a, b, t);
      assert NotReached(clock, b.tick, c.tick, b.tubes[t].deadline);
      assert StaysClosed(b, c, t);
    }
  }

  /** A step that runs no queue: no pause and no reference changes, and nobody gets a job. */
  ghost predicate Quiet(s: State, r: State) {
    && r.tubes.Keys == s.tubes.Keys && s.tick <= r.tick && r.drain == s.drain && r.defaultTube == s.defaultTube
    && (forall t :: t in r.tubes ==> Kept(r.tubes[t]) == Kept(s.tubes[t]))
    && (forall t :: t in r.tubes ==> r.tubes[t].pause == s.tubes[t].pause && r.tubes[t].deadline == s.tubes[t].deadline)
    && (forall j :: j in r.jobs && r.jobs[j].reserver.Some? ==>
          j in s.jobs && s.jobs[j].tube == r.jobs[j].tube && s.jobs[j].reserver == r.jobs[j].reserver)
  }

  lemma QuietCalm(s: State, r: State, clock: Clock)
    requires Quiet(s, r)
    ensures Calm(s, r, clock)
  {
    hide Kept;
  }

  lemma QuietTrans(a: State, b: State, c: State)
    requires Quiet(a, b) && Quiet(b, c)
    ensures Quiet(a, c)
  {}

  lemma QuietThen(a: State, b: State, c: State, clock: Clock)
    requires Quiet(a, b) && Calm(b, c, clock)
    ensures Calm(a, c, clock)
  {
    hide Quiet, Calm;
    QuietCalm(a, b, clock);
    CalmTrans(a, b, c, clock);
  }

  lemma ThenQuiet(a: State, b: State, c: State, clock: Clock)
    requires Calm(a, b, clock) && Quiet(b, c)
    ensures Calm(a, c, clock)
  {
    hide Quiet, Calm;
    QuietCalm(b, c, clock);
    CalmTrans(a, b, c, clock);
  }

  // ----- process_queue -----

  lemma DispatchKeepsTube(s: State, j: JobId, clock: Clock, d: Slack, u: TubeId)
    requires Mid(s, s.jobs, d) && j in Eligible(s) && u in s.tubes
    ensures Known(s, j) && Open(s, s.jobs[j].tube) && MemoKnown(s, NextWaiter(s.tubes[s.jobs[j].tube]))
    ensures var r := Dispatch(s, j, clock);
            u in r.tubes && r.tubes[u].pause == s.tubes[u].pause && r.tubes[u].deadline == s.tubes[u].deadline
  {
    hide Mid, Eligible, Dispatch, Hand;
    DispatchIsHandMid(s, j, clock, d);
    var t := s.jobs[j].tube;
    HandTube(ReadyRemove(s, j), t, NextWaiter(s.tubes[t]), j, clock, u);
  }

  lemma {:induction false} DrainKeepsPause(s: State, now: int, clock: Clock, d: Slack, t: TubeId)
    requires Settled(s) && Mid(s, s.jobs, d) && t in s.tubes && s.tubes[t].pause != 0 && s.tubes[t].deadline > now
    ensures var r := Drain(s, now, clock);
            t in r.tubes && r.tubes[t].pause == s.tubes[t].pause && r.tubes[t].deadline == s.tubes[t].deadline
    decreases Count(s.jobs, HasState(Ready))
  {
    hide Mid, Dispatch, Settled, Eligible, Count, HasState, NextEligible;
    var s1 := ClearPauses(s, now);
    ClearPausesMid(s, now, d);
    if Eligible(s1) != {} {
      var j := NextEligible(s1);
      RoundOk(s, now, j, clock);
      DispatchMid(s1, j, clock, d);
      DispatchKeepsTube(s1, j, clock, d, t);
      DrainKeepsPause(Dispatch(s1, j, clock), now, clock, d, t);
    }
  }

  lemma DrainStaysClosed(s: State, now: int, clock: Clock, t: TubeId)
    requires Settled(s) && t in s.tubes && s.tubes[t].pause != 0 && s.tubes[t].deadline > now
    ensures t in Drain(s, now, clock).tubes && StaysClosed(s, Drain(s, now, clock), t)
  {
    hide Settled, Mid, Drain, Served, NoLostWakeup;
    var d := SomeSlack(s);
    DrainKeepsPause(s, now, clock, d, t);
    PausedIsNotServed(s, now, clock, t);
    DrainMid(s, now, clock, d);
    ServedEach(s, Drain(s, now, clock));
    var r := Drain(s, now, clock);
    assert forall j :: j in s.jobs ==> r.jobs[j].tube == s.jobs[j].tube by {
      forall j | j in s.jobs ensures r.jobs[j].tube == s.jobs[j].tube { assert JobServed(s, s.jobs[j], r.jobs[j]); }
    }
    hide JobServed, ConnServed;
  }

  lemma ServedFrame(s: State, r: State)
    requires Served(s, r)
    ensures r.tubes.Keys == s.tubes.Keys && s.tick <= r.tick && r.drain == s.drain && r.defaultTube == s.defaultTube && Leaky(s, r)
  {
    ServedEach(s, r);
    assert forall t :: t in r.tubes ==> TubeServed(s.tubes[t], r.tubes[t]);
    hide JobServed, ConnServed;
  }

  lemma QueueCalm(s: State, clock: Clock)
    requires Settled(s)
    ensures Calm(s, ProcessQueue(s, clock), clock)
  {
    hide Settled, Mid, Served, StaysClosed, NoLostWakeup, Drain, Leaky;
    var d := SomeSlack(s);
    TickSettled(s, s.tick + 1);
    TickMid(s, s.jobs, s.tick + 1, d);
    var s1, now := s.(tick := s.tick + 1), clock(s.tick);
    DrainMid(s1, now, clock, d);
    var r := Drain(s1, now, clock);
    ServedFrame(s1, r);
    SameLeaky(s, s1, r);
    forall t | t in r.tubes && s.tubes[t].pause != 0 && NotReached(clock, s.tick, r.tick, s.tubes[t].deadline)
      ensures StaysClosed(s, r, t)
    {
      assert clock(s.tick) < s.tubes[t].deadline;
      DrainStaysClosed(s1, now, clock, t);
      SameClosed(s, s1, r, t);
    }
  }

  lemma SameLeaky(s: State, s1: State, r: State)
    requires s1.tubes == s.tubes && Leaky(s1, r)
    ensures Leaky(s, r)
  {}

  lemma SameClosed(s: State, s1: State, r: State, t: TubeId)
    requires s1.jobs == s.jobs && s1.tubes == s.tubes && t in s.tubes && t in r.tubes && StaysClosed(s1, r, t)
    ensures StaysClosed(s, r, t)
  {}

  /** One job and its tube change, and nobody gets the job. */
  lemma QuietBy(s: State, r: State, j: JobId, t: TubeId)
    requires j in s.jobs && j in r.jobs && r.jobs == s.jobs[j := r.jobs[j]] && t in s.tubes && t in r.tubes && r.tubes == s.tubes[t := r.tubes[t]]
    requires r.jobs[j].tube == s.jobs[j].tube && (r.jobs[j].reserver == s.jobs[j].reserver || r.jobs[j].reserver == None)
    requires r.tubes[t].refs == s.tubes[t].refs && r.tubes[t].usingCnt == s.tubes[t].usingCnt && r.tubes[t].watchingCnt == s.tubes[t].watchingCnt
    requires r.tubes[t].pause == s.tubes[t].pause && r.tubes[t].deadline == s.tubes[t].deadline
    requires s.tick <= r.tick && r.drain == s.drain && r.defaultTube == s.defaultTube
    ensures Quiet(s, r)
  {}

  lemma InsertQuiet(s: State, j: JobId, delay: int, clock: Clock)
    requires Known(s, j)
    ensures Quiet(s, Insert(s, j, delay, clock))
  {
    QuietBy(s, Insert(s, j, delay, clock), j, s.jobs[j].tube);
    hide Quiet;
  }

  lemma EnqueueCalm(s: State, j: JobId, delay: int, clock: Clock)
    requires InFlight(s, j)
    ensures Calm(s, Enqueue(s, j, delay, clock), clock)
  {
    hide InFlight, Insert, Settled, ProcessQueue, Quiet, Calm;
    InFlightKnown(s, j);
    InsertSettled(s, j, delay, clock);
    InsertQuiet(s, j, delay, clock);
    QueueCalm(Insert(s, j, delay, clock), clock);
    QuietThen(s, Insert(s, j, delay, clock), Enqueue(s, j, delay, clock), clock);
  }

  // ----- commands on jobs -----

  lemma ReplyQuiet(s: State, c: ConnId, m: Reply)
    requires c in s.conns
    ensures Quiet(s, SendReply(s, c, m))
  {}

  lemma FreeQuiet(s: State, j: JobId)
    ensures Quiet(s, FreeJob(s, j))
  {}

  lemma CountedQuiet(s: State, t: TubeId)
    requires t in s.tubes
    ensures Quiet(s, PutTube(s, t, s.tubes[t].(totalCnt := s.tubes[t].totalCnt + 1)).(totalJobs := s.totalJobs + 1))
  {}

  lemma FinishPutCalm(s: State, c: ConnId, j: JobId, ok: bool, clock: Clock)
    requires c in s.conns && InFlight(s, j)
    ensures Calm(s, FinishPut(s, c, j, ok, clock), clock)
  {
    hide InFlight, Enqueue, Quiet, Calm, SendReply, FreeJob, SameKeys;
    InFlightKnown(s, j);
    FreeQuiet(s, j);
    FreeKeepsConns(s, j);
    if !ok || s.drain {
      var m := if ok then Draining else ExpectedCrlf;
      ReplyQuiet(FreeJob(s, j), c, m);
      QuietCalm(FreeJob(s, j), SendReply(FreeJob(s, j), c, m), clock);
      QuietThen(s, FreeJob(s, j), SendReply(FreeJob(s, j), c, m), clock);
    } else {
      var s1, t := Enqueue(s, j, s.jobs[j].delay, clock), s.jobs[j].tube;
      EnqueueCalm(s, j, s.jobs[j].delay, clock);
      KeysKept(s, s1, c, t);
      CountedQuiet(s1, t);
      var s2 := PutTube(s1, t, s1.tubes[t].(totalCnt := s1.tubes[t].totalCnt + 1)).(totalJobs := s1.totalJobs + 1);
      ThenQuiet(s, s1, s2, clock);
      ReplyQuiet(s2, c, Inserted(j));
      ThenQuiet(s, s2, SendReply(s2, c, Inserted(j)), clock);
    }
  }

  lemma FreeKeepsConns(s: State, j: JobId)
    ensures FreeJob(s, j).conns == s.conns
  {}

  lemma KeysKept(s: State, s1: State, c: ConnId, t: TubeId)
    requires SameKeys(s, s1) && c in s.conns && t in s.tubes
    ensures c in s1.conns && t in s1.tubes
  {}

  /** A new job takes one more reference of its tube, and changes nothing else. */
  lemma CreateCalm(s: State, c: ConnId, pri: nat, delay: int, ttr: int)
    requires c in s.conns && s.conns[c].use in s.tubes && s.nextJob !in s.jobs
    ensures var s1 := CreateJob(s, c, pri, delay, ttr);
            && c in s1.conns && Quiet(Bump(s, s.conns[c].use), s1)
            && Quiet(s1, PutConn(s1, c, s1.conns[c].(inJob := Some(s.nextJob), phase := WantData)))
  {}

  lemma PutCalm(s: State, c: ConnId, pri: nat, delay: int, ttr: int, body: Option<bool>, clock: Clock)
    requires Inv(s) && Idle(s, c)
    ensures s.conns[c].use in s.tubes && Calm(Bump(s, s.conns[c].use), Put(s, c, pri, delay, ttr, body, clock), clock)
  {
    hide Inv, Mid, InFlight, NoLostWakeup, Quiet, Calm, CreateJob, FinishPut, Bump;
    var ttr1 := if ttr < SECOND then SECOND else ttr;
    CreateInFlight(s, c, pri, delay, ttr1);
    CreateCalm(s, c, pri, delay, ttr1);
    var s0, s1 := Bump(s, s.conns[c].use), CreateJob(s, c, pri, delay, ttr1);
    if body == None {
      QuietCalm(s0, s1, clock);
      ThenQuiet(s0, s1, Put(s, c, pri, delay, ttr, body, clock), clock);
    } else {
      FinishPutCalm(s1, c, s.nextJob, body.value, clock);
      QuietThen(s0, s1, FinishPut(s1, c, s.nextJob, body.value, clock), clock);
    }
  }

  lemma DropIncomingQuiet(s: State, c: ConnId)
    requires c in s.conns
    ensures Quiet(s, DropIncoming(s, c))
  {}

  lemma BodyCalm(s: State, c: ConnId, ok: bool, clock: Clock)
    requires Inv(s) && Reading(s, c)
    ensures Calm(s, FinishBody(s, c, ok, clock), clock)
  {
    hide Mid, InFlight, NoLostWakeup, Inv, MemoFor, FinishPut, Quiet, Calm;
    ReadingFacts(s, c);
    DropIncomingQuiet(s, c);
    var s1, j := DropIncoming(s, c), s.conns[c].inJob.value;
    FinishPutCalm(s1, c, j, ok, clock);
    QuietThen(s, s1, FinishPut(s1, c, j, ok, clock), clock);
  }

  lemma TickFilledQuiet(s: State, c: ConnId, n: nat)
    requires c in s.conns && s.tick <= n && forall j :: j in s.conns[c].reserved ==> j in s.jobs
    ensures Quiet(s, FillMemo(s.(tick := n), c))
  {
    hide Scan;
  }

  lemma StartWaitingQuiet(s: State, c: ConnId, timeout: int)
    requires c in s.conns
    ensures Quiet(s, StartWaiting(s, c, timeout))
  {}

  lemma ReserveCalm(s: State, c: ConnId, timeout: int, clock: Clock)
    requires Inv(s) && Idle(s, c)
    ensures Calm(s, Reserve(s, c, timeout, clock), clock)
  {
    hide Inv, Mid, Settled, NoLostWakeup, FillMemo, StartWaiting, HasReady, DeadlineNear, ProcessQueue, SendReply, Quiet, Calm;
    ReserveOk(s, c, timeout);
    IdleConn(s, c);
    TickFilledQuiet(s, c, s.tick + 1);
    var s1 := FillMemo(s.(tick := s.tick + 1), c);
    ReplyQuiet(s1, c, DeadlineSoon);
    QuietCalm(s1, SendReply(s1, c, DeadlineSoon), clock);
    QuietThen(s, s1, SendReply(s1, c, DeadlineSoon), clock);
    StartWaitingQuiet(s1, c, timeout);
    var s2 := StartWaiting(s1, c, timeout);
    QueueCalm(s2, clock);
    QuietThen(s1, s2, ProcessQueue(s2, clock), clock);
    QuietThen(s, s1, ProcessQueue(s2, clock), clock);
  }

  lemma DiscardQuiet(s: State, c: ConnId, id: JobId)
    requires c in s.conns && Known(s, id)
    ensures Quiet(s, Discard(s, c, id))
  {}

  lemma TakenQuiet(s: State, c: ConnId, id: JobId)
    requires c in s.conns && Known(s, id)
    ensures Quiet(s, ReservedRemove(s, c, id)) && Quiet(s, ReadyRemove(s, id))
  {
    QuietBy(s, ReservedRemove(s, c, id), id, s.jobs[id].tube);
    var r := ReadyRemove(s, id);
    assert r.jobs == s.jobs[id := s.jobs[id]];
    QuietBy(s, r, id, s.jobs[id].tube);
    hide Quiet, Unlink;
  }

  lemma PopQuiet(s: State, t: TubeId)
    requires t in s.tubes && s.tubes[t].buried != []
    ensures Quiet(s, BuriedPop(s, t))
  {}

  lemma DeleteCalm(s: State, c: ConnId, id: JobId, clock: Clock)
    requires Inv(s) && Idle(s, c)
    ensures Calm(s, Delete(s, c, id), clock)
  {
    hide Inv, Mid, Settled, Quiet, Calm, Discard, ReservedRemove, ReadyRemove, BuriedPop, SendReply;
    IdleFacts(s, c);
    if id in s.jobs && (id in s.conns[c].reserved || s.jobs[id].state == Ready || s.tubes[s.jobs[id].tube].buried != []) {
      var s1 := if id in s.conns[c].reserved then ReservedRemove(s, c, id)
                else if s.jobs[id].state == Ready then ReadyRemove(s, id) else BuriedPop(s, s.jobs[id].tube);
      TakenQuiet(s, c, id);
      if s.tubes[s.jobs[id].tube].buried != [] { PopQuiet(s, s.jobs[id].tube); }
      StillKnown(s, c, id);
      DiscardQuiet(s1, c, id);
      QuietCalm(s1, Discard(s1, c, id), clock);
      QuietThen(s, s1, Discard(s1, c, id), clock);
    } else {
      ReplyQuiet(s, c, NotFound);
      QuietCalm(s, SendReply(s, c, NotFound), clock);
    }
  }

  lemma StillKnown(s: State, c: ConnId, id: JobId)
    requires c in s.conns && Known(s, id)
    ensures c in ReservedRemove(s, c, id).conns && Known(ReservedRemove(s, c, id), id)
    ensures c in ReadyRemove(s, id).conns && Known(ReadyRemove(s, id), id)
    ensures s.tubes[s.jobs[id].tube].buried != [] ==>
              c in BuriedPop(s, s.jobs[id].tube).conns && Known(BuriedPop(s, s.jobs[id].tube), id)
  {}

  lemma RecallQuiet(s: State, c: ConnId, j: JobId, pri: nat, delay: int, releases: nat, timeouts: nat)
    requires c in s.conns && Known(s, j)
    ensures Quiet(s, Recall(s, c, j, pri, delay, releases, timeouts))
  {
    QuietBy(s, Recall(s, c, j, pri, delay, releases, timeouts), j, s.jobs[j].tube);
    hide Quiet, Unlink;
  }

  lemma ReleaseCalm(s: State, c: ConnId, id: JobId, pri: nat, delay: int, clock: Clock)
    requires Inv(s) && Idle(s, c)
    ensures Calm(s, Release(s, c, id, pri, delay, clock), clock)
  {
    hide Inv, Mid, Settled, Recall, Enqueue, SendReply, InFlight, SameKeys, Quiet, Calm;
    IdleFacts(s, c);
    if Holds(s, c, id) {
      var x := s.jobs[id];
      RecallMid(s, c, id, pri, delay, x.releases + 1, x.timeouts, Nothing);
      RecallEffect(s, c, id, pri, delay, x.releases + 1, x.timeouts);
      RecallQuiet(s, c, id, pri, delay, x.releases + 1, x.timeouts);
      var s1 := Recall(s, c, id, pri, delay, x.releases + 1, x.timeouts);
      EnqueueCalm(s1, id, delay, clock);
      var s2 := Enqueue(s1, id, delay, clock);
      KeysKept(s1, s2, c, x.tube);
      ReplyQuiet(s2, c, Released);
      QuietThen(s, s1, s2, clock);
      ThenQuiet(s, s2, SendReply(s2, c, Released), clock);
    } else {
      ReplyQuiet(s, c, NotFound);
      QuietCalm(s, SendReply(s, c, NotFound), clock);
    }
  }

  lemma BuryQuiet(s: State, c: ConnId, id: JobId, pri: nat)
    requires c in s.conns && Known(s, id)
    ensures var x := s.jobs[id]; var s1 := Recall(s, c, id, pri, x.delay, x.releases, x.timeouts);
            Known(s1, id) && Quiet(s, BuryJob(s1, id)) && c in BuryJob(s1, id).conns
  {}

  lemma BuryCalm(s: State, c: ConnId, id: JobId, pri: nat, clock: Clock)
    requires Inv(s) && Idle(s, c)
    ensures Calm(s, Bury(s, c, id, pri), clock)
  {
    hide Inv, Mid, Settled, Recall, BuryJob, SendReply, Quiet, Calm;
    IdleFacts(s, c);
    if Holds(s, c, id) {
      var x := s.jobs[id];
      BuryQuiet(s, c, id, pri);
      var s1 := BuryJob(Recall(s, c, id, pri, x.delay, x.releases, x.timeouts), id);
      ReplyQuiet(s1, c, BuriedMsg);
      QuietCalm(s, s1, clock);
      ThenQuiet(s, s1, SendReply(s1, c, BuriedMsg), clock);
    } else {
      ReplyQuiet(s, c, NotFound);
      QuietCalm(s, SendReply(s, c, NotFound), clock);
    }
  }

  lemma TouchQuiet(s: State, c: ConnId, id: JobId, clock: Clock)
    requires Inv(s) && Idle(s, c)
    ensures Quiet(s, Touch(s, c, id, clock))
  {
    hide Inv;
  }

  /** The copy that peek sends takes one more reference of the job's tube. */
  lemma PeekQuiet(s: State, c: ConnId, id: JobId)
    requires Inv(s) && Idle(s, c)
    ensures id in s.jobs ==> s.jobs[id].tube in s.tubes && Quiet(Bump(s, s.jobs[id].tube), Peek(s, c, id))
    ensures id !in s.jobs ==> Quiet(s, Peek(s, c, id))
  {
    hide Inv, Mid, Settled;
    IdleFacts(s, c);
  }

  lemma CountKickQuiet(s: State, s1: State, j: JobId)
    requires Quiet(s, s1) && j in s1.jobs
    ensures Quiet(s, CountKick(s1, j))
  {}

  lemma DelayRemoveQuiet(s: State, j: JobId)
    requires Known(s, j)
    ensures DelayRemove(s, j).jobs == s.jobs && Quiet(s, DelayRemove(s, j))
  {}

  lemma {:induction false} KickBuriedCalm(s: State, t: TubeId, n: nat, clock: Clock)
    requires Settled(s) && t in s.tubes
    ensures Calm(s, KickBuriedJobs(s, t, n, clock), clock)
    decreases n
  {
    hide Settled, InFlight, BuriedPop, Enqueue, Quiet, Calm, CountKick, DelayRemove;
    if n == 0 || s.tubes[t].buried == [] {
      SameCalm(s, clock);
    } else {
      var j := s.tubes[t].buried[0];
      KickBuriedOk(s, t, clock);
      PopQuiet(s, t);
      BuriedPopEffect(s, t);
      CountKickQuiet(s, BuriedPop(s, t), j);
      var s1 := CountKick(BuriedPop(s, t), j);
      EnqueueCalm(s1, j, 0, clock);
      QuietThen(s, s1, KickBuried(s, t, clock), clock);
      KickBuriedCalm(KickBuried(s, t, clock), t, n - 1, clock);
      CalmTrans(s, KickBuried(s, t, clock), KickBuriedJobs(s, t, n, clock), clock);
    }
  }

  lemma SameCalm(s: State, clock: Clock)
    ensures Calm(s, s, clock)
  {}

  lemma {:induction false} KickDelayedCalm(s: State, t: TubeId, n: nat, clock: Clock)
    requires Settled(s) && t in s.tubes
    ensures Calm(s, KickDelayedJobs(s, t, n, clock).0, clock)
    decreases n
  {
    hide Settled, InFlight, BuriedPop, Enqueue, Quiet, Calm, CountKick, DelayRemove, NextDelayed;
    if n == 0 || s.tubes[t].delayed == {} {
      SameCalm(s, clock);
    } else {
      var j := NextDelayed(s, t);
      KickDelayedOk(s, t, clock);
      DelayRemoveQuiet(s, j);
      CountKickQuiet(s, DelayRemove(s, j), j);
      var s1 := CountKick(DelayRemove(s, j), j);
      EnqueueCalm(s1, j, 0, clock);
      QuietThen(s, s1, KickDelayed(s, t, clock), clock);
      KickDelayedCalm(KickDelayed(s, t, clock), t, n - 1, clock);
      CalmTrans(s, KickDelayed(s, t, clock), KickDelayedJobs(s, t, n, clock).0, clock);
    }
  }

  lemma KickCalm(s: State, c: ConnId, n: nat, clock: Clock)
    requires Inv(s) && Idle(s, c)
    ensures Calm(s, KickJobs(s, c, n, clock), clock)
  {
    hide Inv, Settled, KickBuriedJobs, KickDelayedJobs, Quiet, Calm, SendReply;
    KickOk(s, c);
    IdleConn(s, c);
    var t := s.conns[c].use;
    if s.tubes[t].buried != [] {
      KickBuriedCalm(s, t, n, clock);
      var r := KickBuriedJobs(s, t, n, clock);
      ReplyQuiet(r, c, Kicked(n));
      ThenQuiet(s, r, SendReply(r, c, Kicked(n)), clock);
    } else {
      KickDelayedCalm(s, t, n, clock);
      var (r, k) := KickDelayedJobs(s, t, n, clock);
      ReplyQuiet(r, c, Kicked(k));
      ThenQuiet(s, r, SendReply(r, c, Kicked(k)), clock);
    }
  }

  /** How many references of tube t the event adds that no client accounts for: put and peek take one
      each, for the job they make or copy. */
  ghost function Added(s: State, e: Event, t: TubeId): nat {
    if e.PutCmd? && e.c in s.conns && s.conns[e.c].use == t then 1
    else if e.PeekCmd? && e.id in s.jobs && s.jobs[e.id].tube == t then 1
    else 0
  }

  /** s, with the references that the event adds already taken. */
  ghost function Noted(s: State, e: Event): State {
    s.(tubes := map t | t in s.tubes :: s.tubes[t].(refs := s.tubes[t].refs + Added(s, e, t)))
  }

  lemma NotedIs(s: State, e: Event)
    ensures !e.PutCmd? && (e.PeekCmd? ==> e.id !in s.jobs) ==> Noted(s, e) == s
    ensures e.PutCmd? && e.c in s.conns && s.conns[e.c].use in s.tubes ==> Noted(s, e) == Bump(s, s.conns[e.c].use)
    ensures e.PeekCmd? && e.id in s.jobs && s.jobs[e.id].tube in s.tubes ==> Noted(s, e) == Bump(s, s.jobs[e.id].tube)
  {
    assert !e.PutCmd? && (e.PeekCmd? ==> e.id !in s.jobs) ==> Noted(s, e).tubes == s.tubes;
  }

  lemma JobEventCalm(s: State, e: Event, clock: Clock)
    requires Inv(s) && Enabled(s, e) && IsJobEvent(e)
    ensures Calm(Noted(s, e), JobEvent(s, e, clock), clock)
  {
    hide Inv, Put, FinishBody, Reserve, Delete, Release, Bury, KickJobs, Touch, Peek, Quiet, Calm, Idle, Reading, Noted, Bump;
    NotedIs(s, e);
    match e
    case PutCmd(c, pri, delay, ttr, body) =>
      IdleConn(s, c);
      PutCalm(s, c, pri, delay, ttr, body, clock);
    case BodyEnd(c, ok) => BodyCalm(s, c, ok, clock);
    case ReserveCmd(c, timeout) => ReserveCalm(s, c, timeout, clock);
    case DeleteCmd(c, id) => DeleteCalm(s, c, id, clock);
    case ReleaseCmd(c, id, pri, delay) => ReleaseCalm(s, c, id, pri, delay, clock);
    case BuryCmd(c, id, pri) => BuryCalm(s, c, id, pri, clock);
    case KickCmd(c, n) => KickCalm(s, c, n, clock);
    case TouchCmd(c, id) =>
      TouchQuiet(s, c, id, clock);
      QuietCalm(s, Touch(s, c, id, clock), clock);
    case PeekCmd(c, id) =>
      PeekQuiet(s, c, id);
      QuietCalm(Noted(s, e), Peek(s, c, id), clock);
  }

  // ----- timers -----

  lemma PromoteOneCalm(s: State, j: JobId, clock: Clock)
    requires Settled(s) && Known(s, j) && s.jobs[j].state == Delayed
    ensures Calm(s, PromoteOne(s, j, clock), clock)
  {
    hide Settled, InFlight, DelayRemove, Enqueue, Quiet, Calm;
    PromoteOk(s, j, clock);
    DelayRemoveQuiet(s, j);
    EnqueueCalm(DelayRemove(s, j), j, 0, clock);
    QuietThen(s, DelayRemove(s, j), PromoteOne(s, j, clock), clock);
  }

  lemma {:induction false} PromoteCalm(s: State, now: int, clock: Clock)
    requires Settled(s)
    ensures Calm(s, Promote(s, now, clock), clock)
    decreases Count(s.jobs, HasState(Delayed))
  {
    hide Settled, PromoteOne, SoonestDelay, Calm;
    if Due(s, now) {
      var j := SoonestDelay(s).value;
      PromoteStep(s, j, clock);
      PromoteOneCalm(s, j, clock);
      PromoteCalm(PromoteOne(s, j, clock), now, clock);
      CalmTrans(s, PromoteOne(s, j, clock), Promote(s, now, clock), clock);
    } else {
      SameCalm(s, clock);
    }
  }

  // ----- conn_timeout, where a job that is being sent when its time is over leaves a copy behind -----

  /** Calm, but more references may be kept. */
  ghost predicate Steady(s: State, r: State, clock: Clock) {
    && r.tubes.Keys <= s.tubes.Keys && s.tick <= r.tick && r.drain == s.drain && r.defaultTube == s.defaultTube
    && (forall t :: t in s.tubes && Kept(s.tubes[t]) > 0 ==> t in r.tubes)
    && (forall t :: t in r.tubes ==> Kept(r.tubes[t]) >= Kept(s.tubes[t]))
    && (forall t :: t in r.tubes && s.tubes[t].pause != 0 && NotReached(clock, s.tick, r.tick, s.tubes[t].deadline) ==>
          StaysClosed(s, r, t))
  }

  lemma CalmSteady(s: State, r: State, clock: Clock)
    requires Calm(s, r, clock)
    ensures Steady(s, r, clock)
  {
    hide Kept, StaysClosed, NotReached;
  }

  lemma SteadyTrans(a: State, b: State, c: State, clock: Clock)
    requires Steady(a, b, clock) && Steady(b, c, clock)
    ensures Steady(a, c, clock)
  {
    hide Kept;
    forall t | t in c.tubes && a.tubes[t].pause != 0 && NotReached(clock, a.tick, c.tick, a.tubes[t].deadline)
      ensures StaysClosed(a, c, t)
    {
      assert NotReached(clock, a.tick, b.tick, a.tubes[t].deadline);
      assert StaysClosed(a, b, t);
      assert NotReached(clock, b.tick, c.tick, b.tubes[t].deadline);
      assert StaysClosed(b, c, t);
    }
  }

  lemma SteadyThen(a: State, b: State, c: State, clock: Clock)
    requires (Steady(a, b, clock) && Calm(b, c, clock)) || (Calm(a, b, clock) && Steady(b, c, clock))
    ensures Steady(a, c, clock)
  {
    hide Steady, Calm;
    if Calm(a, b, clock) { CalmSteady(a, b, clock); }
    if Calm(b, c, clock) { CalmSteady(b, c, clock); }
    SteadyTrans(a, b, c, clock);
  }

  /** A pause that the tick ends was over by the tick's own reading of the clock, which is the from-th. */
  ghost predicate CalmFrom(s: State, r: State, clock: Clock, from: nat) {
    && Leaky(s, r) && r.tubes.Keys <= s.tubes.Keys && from <= s.tick <= r.tick && r.drain == s.drain && r.defaultTube == s.defaultTube
    && forall t :: t in r.tubes && s.tubes[t].pause != 0 && NotReached(clock, from, r.tick, s.tubes[t].deadline) ==> StaysClosed(s, r, t)
  }

  lemma CalmIsFrom(s: State, r: State, clock: Clock, from: nat)
    requires Calm(s, r, clock) && from <= s.tick
    ensures CalmFrom(s, r, clock, from)
  {
    hide StaysClosed, Leaky;
    assert forall d :: NotReached(clock, from, r.tick, d) ==> NotReached(clock, s.tick, r.tick, d);
  }

  lemma CalmFromTrans(a: State, b: State, c: State, clock: Clock, from: nat)
    requires CalmFrom(a, b, clock, from) && CalmFrom(b, c, clock, from)
    ensures CalmFrom(a, c, clock, from)
  {
    hide Leaky;
    LeakyTrans(a, b, c);
    forall t | t in c.tubes && a.tubes[t].pause != 0 && NotReached(clock, from, c.tick, a.tubes[t].deadline)
      ensures StaysClosed(a, c, t)
    {
      assert NotReached(clock, from, b.tick, a.tubes[t].deadline);
      assert StaysClosed(a, b, t);
      assert StaysClosed(b, c, t);
    }
  }

  lemma CalmAfter(a: State, b: State, c: State, clock: Clock)
    requires Calm(a, b, clock) && CalmFrom(b, c, clock, a.tick)
    ensures Calm(a, c, clock)
  {
    hide Calm, CalmFrom;
    CalmIsFrom(a, b, clock, a.tick);
    CalmFromTrans(a, b, c, clock, a.tick);
    FromIsCalm(a, c, clock);
  }

  lemma FromIsCalm(s: State, r: State, clock: Clock)
    requires CalmFrom(s, r, clock, s.tick)
    ensures Calm(s, r, clock)
  {}

  /** Ending a pause that is over at a time read before is calm as seen from before that reading. */
  lemma EndPauseCalm(s: State, t: TubeId, from: nat, clock: Clock)
    requires Settled(s) && t in s.tubes && from < s.tick
    ensures CalmFrom(s, EndPause(s, t, clock(from), clock), clock, from)
  {
    hide Settled, ProcessQueue, Calm, StaysClosed;
    var now := clock(from);
    if s.tubes[t].pause != 0 && s.tubes[t].deadline <= now {
      EndPauseOk(s, t, clock);
      var s1 := PutTube(s, t, s.tubes[t].(pause := 0));
      QueueCalm(s1, clock);
      CalmIsFrom(s1, ProcessQueue(s1, clock), clock, from);
      OpenedCalm(s, t, s1, ProcessQueue(s1, clock), clock, from);
    } else {
      SameCalm(s, clock);
      CalmIsFrom(s, s, clock, from);
    }
  }

  lemma OpenedCalm(s: State, t: TubeId, s1: State, r: State, clock: Clock, from: nat)
    requires t in s.tubes && s.tubes[t].deadline <= clock(from) && from < s.tick && s1 == PutTube(s, t, s.tubes[t].(pause := 0))
    requires CalmFrom(s1, r, clock, from)
    ensures CalmFrom(s, r, clock, from)
  {
    assert Leaky(s, r);
    hide Leaky;
    forall u | u in r.tubes && s.tubes[u].pause != 0 && NotReached(clock, from, r.tick, s.tubes[u].deadline)
      ensures StaysClosed(s, r, u)
    {
      assert clock(from) < s.tubes[u].deadline && u != t;
      assert StaysClosed(s1, r, u);
    }
  }

  lemma {:induction false} EndPausesCalm(s: State, list: seq<TubeId>, from: nat, clock: Clock)
    requires Settled(s) && (forall t :: t in list ==> t in s.tubes) && from < s.tick
    ensures CalmFrom(s, EndPauses(s, list, clock(from), clock), clock, from)
    decreases list
  {
    hide Settled, EndPause, CalmFrom;
    if list == [] {
      SameCalm(s, clock);
      hide Calm;
      CalmIsFrom(s, s, clock, from);
    } else {
      assert forall t :: t in list[1..] ==> t in list;
      EndPauseCalm(s, list[0], from, clock);
      var s1 := EndPause(s, list[0], clock(from), clock);
      FromTicks(s, s1, clock, from);
      EndPausesCalm(s1, list[1..], from, clock);
      CalmFromTrans(s, s1, EndPauses(s1, list[1..], clock(from), clock), clock, from);
    }
  }

  lemma FromTicks(s: State, r: State, clock: Clock, from: nat)
    requires CalmFrom(s, r, clock, from)
    ensures from <= s.tick <= r.tick
  {}

  lemma CronCalm(s: State, clock: Clock)
    requires Inv(s)
    ensures Calm(s, CronTick(s, clock), clock)
  {
    hide Inv, Settled, NoLostWakeup, Promote, EndPauses, Mid, Calm, CalmFrom;
    CronOk(s);
    var s0, from := s.(tick := s.tick + 1), s.tick;
    PromoteCalm(s0, clock(from), clock);
    var s1 := Promote(s0, clock(from), clock);
    SettledTubes(s1);
    TickCalm(s, s0, s1, clock);
    CalmTicks(s0, s1, clock);
    EndPausesCalm(s1, s1.tubeList, from, clock);
    CalmAfter(s, s1, CronTick(s, clock), clock);
  }

  lemma CalmTicks(s: State, r: State, clock: Clock)
    requires Calm(s, r, clock)
    ensures s.tick <= r.tick
  {}

  lemma TickCalm(s: State, s0: State, r: State, clock: Clock)
    requires s0 == s.(tick := s.tick + 1) && Calm(s0, r, clock)
    ensures Calm(s, r, clock)
  {
    hide Calm;
    QuietTick(s, s.tick + 1);
    QuietThen(s, s0, r, clock);
  }

  lemma QuietTick(s: State, n: nat)
    requires s.tick <= n
    ensures Quiet(s, s.(tick := n))
  {}

  lemma TakeBackSteady(s: State, c: ConnId, j: JobId, clock: Clock)
    requires c in s.conns && Known(s, j)
    ensures Steady(s, TakeBack(s, c, j), clock)
  {
    hide Quiet, Recall, Steady, Calm;
    CopySteady(s, c, j, clock);
    var x, s1 := s.jobs[j], CopyOut(s, c, j).(timeoutCnt := s.timeoutCnt + 1);
    RecallQuiet(s1, c, j, x.pri, x.delay, x.releases, x.timeouts + 1);
    QuietCalm(s1, TakeBack(s, c, j), clock);
    SteadyThen(s, s1, TakeBack(s, c, j), clock);
  }

  lemma CopySteady(s: State, c: ConnId, j: JobId, clock: Clock)
    requires c in s.conns && Known(s, j)
    ensures var s1 := CopyOut(s, c, j).(timeoutCnt := s.timeoutCnt + 1);
            Steady(s, s1, clock) && c in s1.conns && Known(s1, j)
  {}

  lemma FillQuiet(s: State, c: ConnId)
    requires c in s.conns && forall j :: j in s.conns[c].reserved ==> j in s.jobs
    ensures Quiet(s, FillMemo(s, c))
  {
    hide Scan;
  }

  lemma ExpireOneSteady(s: State, c: ConnId, j: JobId, clock: Clock)
    requires Mid(s, s.jobs, Nothing) && c in s.conns && Known(s, j) && j in s.conns[c].reserved
    ensures Steady(s, ExpireOne(s, c, j, clock), clock)
  {
    hide Mid, TakeBack, Enqueue, InFlight, Served, NoLostWakeup, Insert, FillMemo, Quiet, Calm, Steady;
    ExpireOk(s, c, j, clock);
    TakeBackSteady(s, c, j, clock);
    var s1, s2 := TakeBack(s, c, j), Enqueue(TakeBack(s, c, j), j, 0, clock);
    EnqueueCalm(s1, j, 0, clock);
    SteadyThen(s, s1, s2, clock);
    FillQuiet(s2, c);
    QuietCalm(s2, FillMemo(s2, c), clock);
    SteadyThen(s, s2, FillMemo(s2, c), clock);
  }

  lemma {:induction false} ExpireSteady(s: State, c: ConnId, now: int, clock: Clock)
    requires CanExpire(s, c, now, clock)
    ensures Steady(s, Expire(s, c, now, clock), clock)
    decreases Late(s, c, now)
  {
    hide ExpireOne, LateJob, Mid, FillMemo, CanExpire, Late, NoLostWakeup, MemoOk, Quiet, Calm, Steady;
    CanExpireMid(s, c, now, clock);
    var j := LateJob(s, c, now);
    if j == None {
      FillQuiet(s, c);
      QuietCalm(s, FillMemo(s, c), clock);
      CalmSteady(s, FillMemo(s, c), clock);
    } else {
      FewerLate(s, c, j.value, now, clock);
      ExpireOneOk(s, c, j.value, now, clock);
      ExpireOneSteady(s, c, j.value, clock);
      ExpireSteady(ExpireOne(s, c, j.value, clock), c, now, clock);
      SteadyTrans(s, ExpireOne(s, c, j.value, clock), Expire(s, c, now, clock), clock);
    }
  }

  lemma StartedQuiet(s: State, c: ConnId)
    requires c in s.conns && forall j :: j in s.conns[c].reserved ==> j in s.jobs
    ensures Quiet(s, Started(s, c))
  {
    hide Scan;
  }

  lemma AnsweredQuiet(s: State, c: ConnId, k: Conn, m: Reply)
    requires c in s.conns
    ensures c in RemoveWaiting(s, c).conns
    ensures Quiet(s, SendReply(RemoveWaiting(s, c), c, m)) && Quiet(s, SendReply(PutConn(RemoveWaiting(s, c), c, k), c, m))
  {
    hide Quiet, RemoveWaiting, SendReply, PutConn;
    LeaveQuiet(s, c);
    var s1 := RemoveWaiting(s, c);
    ConnQuiet(s1, c, k);
    var s2 := PutConn(s1, c, k);
    ReplyQuiet(s1, c, m);
    ReplyQuiet(s2, c, m);
    QuietTrans(s, s1, SendReply(s1, c, m));
    QuietTrans(s, s1, s2);
    QuietTrans(s, s2, SendReply(s2, c, m));
  }

  lemma LeaveQuiet(s: State, c: ConnId)
    requires c in s.conns
    ensures c in RemoveWaiting(s, c).conns && Quiet(s, RemoveWaiting(s, c))
  {
    hide SwapRemove;
  }

  lemma ConnQuiet(s: State, c: ConnId, k: Conn)
    requires c in s.conns
    ensures c in PutConn(s, c, k).conns && Quiet(s, PutConn(s, c, k))
  {}

  lemma TimeoutSteady(s: State, c: ConnId, clock: Clock)
    requires Inv(s) && c in s.conns && Monotone(clock)
    ensures Steady(s, ConnTimeout(s, c, clock), clock)
  {
    hide Inv, Mid, Expire, CanExpire, FillMemo, NoLostWakeup, Monotone, Late, RemoveWaiting, SendReply, Started, DeadlineNear, Quiet, Calm, Steady;
    TimeoutOk(s, c, clock);
    StartedQuiet(s, c);
    var s1 := Started(s, c);
    ExpireSteady(s1, c, clock(s.tick), clock);
    var s2 := Expire(s1, c, clock(s.tick), clock);
    QuietCalm(s, s1, clock);
    SteadyThen(s, s1, s2, clock);
    var k := s2.conns[c].(waiting := false, pendingTimeout := -1);
    AnsweredQuiet(s2, c, k, DeadlineSoon);
    AnsweredQuiet(s2, c, k, TimedOut);
    var r1, r2 := SendReply(RemoveWaiting(s2, c), c, DeadlineSoon), SendReply(PutConn(RemoveWaiting(s2, c), c, k), c, TimedOut);
    QuietCalm(s2, r1, clock);
    QuietCalm(s2, r2, clock);
    SteadyThen(s, s2, r1, clock);
    SteadyThen(s, s2, r2, clock);
  }

  // ----- closing -----

  lemma LetGoQuiet(s: State, c: ConnId)
    requires c in s.conns
    ensures Quiet(s, LetGo(s, c))
  {}

  lemma PopReservedQuiet(s: State, c: ConnId)
    requires c in s.conns && s.conns[c].reserved != []
    ensures Quiet(s, PopReserved(s, c))
  {}

  lemma PayDebtQuiet(s: State, c: ConnId, t: TubeId)
    requires c in s.conns && t in s.tubes
    ensures Quiet(s, PayDebt(s, c, t))
  {}

  lemma ReturnOneCalm(s: State, c: ConnId, clock: Clock)
    requires Mid(s, s.jobs, Loose(c, None)) && c in s.conns && s.conns[c].reserved != []
    ensures Calm(s, ReturnOne(s, c, clock), clock)
  {
    hide Mid, InFlight, PayDebt, PopReserved, Enqueue, Insert, Served, NoLostWakeup, Quiet, Calm;
    ReturnOneOk(s, c, clock);
    var j := s.conns[c].reserved[0];
    var t := s.jobs[j].tube;
    PopReservedQuiet(s, c);
    var s1, s2 := PopReserved(s, c), Enqueue(PopReserved(s, c), j, 0, clock);
    EnqueueCalm(s1, j, 0, clock);
    QuietThen(s, s1, s2, clock);
    PayDebtQuiet(s2, c, t);
    ThenQuiet(s, s2, PayDebt(s2, c, t), clock);
  }

  lemma {:induction false} ReturnAllCalm(s: State, c: ConnId, clock: Clock)
    requires Mid(s, s.jobs, Loose(c, None)) && c in s.conns
    ensures Calm(s, ReturnAll(s, c, clock), clock)
    decreases |s.conns[c].reserved|
  {
    hide Mid, ReturnOne, NoLostWakeup, Calm;
    if s.conns[c].reserved == [] {
      SameCalm(s, clock);
    } else {
      ReturnOneCalm(s, c, clock);
      ReturnAllCalm(ReturnOne(s, c, clock), c, clock);
      CalmTrans(s, ReturnOne(s, c, clock), ReturnAll(s, c, clock), clock);
    }
  }

  /** A reference is dropped: the tube goes if it was the last one, and no other tube is touched. */
  lemma DropIs(s: State, t: TubeId)
    requires t in s.tubes && s.tubes[t].refs >= 1
    ensures var r := DropRef(s, t);
            && r.jobs == s.jobs && r.drain == s.drain && r.defaultTube == s.defaultTube && r.tick == s.tick && r.tubes.Keys <= s.tubes.Keys
            && (forall u :: u in s.tubes && u != t ==> u in r.tubes && r.tubes[u] == s.tubes[u])
            && (s.tubes[t].refs > 1 ==> t in r.tubes)
            && (t in r.tubes ==> r.tubes[t] == s.tubes[t].(refs := s.tubes[t].refs - 1))
  {
    hide SwapRemove;
  }

  lemma RefsCount(s: State, t: TubeId, d: Slack)
    requires Mid(s, s.jobs, d) && t in s.tubes
    ensures s.tubes[t].refs >= 1 && s.tubes[t].usingCnt >= 0 && s.tubes[t].watchingCnt >= 0
  {
    hide Shape, Own, Waits, Phases, Counts, Memo, Count;
    assert TubeRefs(s, t, s.tubes[t]);
  }

  /** Client c gives up what kept one reference of tube t, and then that reference. */
  ghost predicate GivesUp(s: State, s1: State, t: TubeId) {
    && s1.jobs == s.jobs && s1.drain == s.drain && s1.defaultTube == s.defaultTube && s1.tick == s.tick && s1.tubes.Keys == s.tubes.Keys
    && t in s.tubes
    && (forall u :: u in s.tubes ==>
         s1.tubes[u] == s.tubes[u].(usingCnt := s1.tubes[u].usingCnt, watchingCnt := s1.tubes[u].watchingCnt)
         && s1.tubes[u].usingCnt + s1.tubes[u].watchingCnt == s.tubes[u].usingCnt + s.tubes[u].watchingCnt - One(u == t))
  }

  /** What DropIs says of r, the state without the reference. */
  ghost predicate Dropped(s: State, t: TubeId, r: State)
    requires t in s.tubes
  {
    && r.jobs == s.jobs && r.drain == s.drain && r.defaultTube == s.defaultTube && r.tick == s.tick && r.tubes.Keys <= s.tubes.Keys
    && (forall u :: u in s.tubes && u != t ==> u in r.tubes && r.tubes[u] == s.tubes[u])
    && (Kept(s.tubes[t]) > 1 ==> t in r.tubes)
    && (t in r.tubes ==> r.tubes[t] == s.tubes[t].(refs := s.tubes[t].refs - 1))
  }

  lemma DropIsDropped(s: State, t: TubeId, d: Slack)
    requires Mid(s, s.jobs, d) && t in s.tubes
    ensures Dropped(s, t, DropRef(s, t))
  {
    RefsCount(s, t, d);
    DropIs(s, t);
    hide Mid, DropRef;
  }

  lemma GiveUpCalm(s: State, s1: State, t: TubeId, d: Slack, clock: Clock)
    requires GivesUp(s, s1, t) && Mid(s1, s1.jobs, d)
    ensures Calm(s, DropRef(s1, t), clock)
  {
    hide Mid, DropRef;
    DropIsDropped(s1, t, d);
    GivenUpLeaky(s, s1, t, DropRef(s1, t));
    hide Leaky, Kept;
  }

  lemma GivenUpLeaky(s: State, s1: State, t: TubeId, r: State)
    requires GivesUp(s, s1, t) && Dropped(s1, t, r)
    ensures Leaky(s, r)
  {}

  lemma UnwatchGivesUp(s: State, c: ConnId, k: Conn, i: nat)
    requires c in s.conns && i < |s.conns[c].watch| && NoDup(s.conns[c].watch) && k == s.conns[c].(watch := SwapDelete(s.conns[c].watch, i))
    requires s.conns[c].watch[i] in s.tubes
    ensures GivesUp(s, Relink(s, c, k), s.conns[c].watch[i])
  {
    SwapDeleteMembers(s.conns[c].watch, i);
    hide SwapDelete, NoDup;
  }

  lemma UnwatchFirstCalm(s: State, c: ConnId, clock: Clock)
    requires Mid(s, s.jobs, Loose(c, None)) && c in s.conns && s.conns[c].watch != []
    ensures Calm(s, UnwatchFirst(s, c), clock)
  {
    hide Mid, NoLostWakeup, Relink, DropRef, Calm, GivesUp, HasSpare, SwapDelete;
    UnwatchFirstOk(s, c);
    LooseIdle(s, c);
    var t, k := s.conns[c].watch[0], s.conns[c].(watch := SwapDelete(s.conns[c].watch, 0));
    WatchShape(s, c);
    UnwatchSpare(s, c, 0, Loose(c, None));
    UnwatchGivesUp(s, c, k, 0);
    GiveUpCalm(s, Relink(s, c, k), t, Loose(c, None), clock);
  }

  lemma WatchShape(s: State, c: ConnId)
    requires Mid(s, s.jobs, Loose(c, None)) && c in s.conns
    ensures NoDup(s.conns[c].watch) && s.conns[c].use in s.tubes && forall t :: t in s.conns[c].watch ==> t in s.tubes
  {
    hide Own, Waits, Phases, Counts, Memo, Refs, NoDup;
  }

  lemma {:induction false} UnwatchCalm(s: State, c: ConnId, clock: Clock)
    requires Mid(s, s.jobs, Loose(c, None)) && c in s.conns
    ensures Calm(s, UnwatchAll(s, c), clock)
    decreases |s.conns[c].watch|
  {
    hide Mid, NoLostWakeup, Calm, Relink, DropRef;
    if s.conns[c].watch == [] {
      SameCalm(s, clock);
    } else {
      UnwatchFirstOk(s, c);
      UnwatchFirstCalm(s, c, clock);
      UnwatchCalm(UnwatchFirst(s, c), c, clock);
      CalmTrans(s, UnwatchFirst(s, c), UnwatchAll(s, c), clock);
    }
  }

  lemma VanishGivesUp(s: State, c: ConnId)
    requires c in s.conns && s.conns[c].use in s.tubes
    ensures GivesUp(s, Vanish(s, c), s.conns[c].use)
  {}

  lemma CloseCalm(s: State, c: ConnId, clock: Clock)
    requires Inv(s) && c in s.conns
    ensures Calm(s, Close(s, c, clock), clock)
  {
    hide Inv, Mid, LetGo, ReturnAll, UnwatchAll, Vanish, DropRef, NoLostWakeup, Returned, Quiet, Calm, GivesUp, HasSpare;
    CloseOk(s, c, clock);
    LetGoQuiet(s, c);
    var s1 := LetGo(s, c);
    ReturnAllCalm(s1, c, clock);
    var s2 := ReturnAll(s1, c, clock);
    QuietThen(s, s1, s2, clock);
    UnwatchCalm(s2, c, clock);
    var s3 := UnwatchAll(s2, c);
    CalmTrans(s, s2, s3, clock);
    VanishGivesUp(s3, c);
    VanishMid(s3, c);
    GiveUpCalm(s3, Vanish(s3, c), s3.conns[c].use, Nothing, clock);
    CalmTrans(s, s3, Close(s, c, clock), clock);
  }

  // ----- every step -----

  /** What use, watch, ignore and pause-tube leave alone. */
  ghost predicate OnlyLinks(s: State, r: State) {
    r.jobs == s.jobs && r.drain == s.drain && r.defaultTube == s.defaultTube && s.tick <= r.tick
  }

  lemma ObtainLinks(s: State, name: string)
    requires s.nextTube !in s.tubes
    ensures OnlyLinks(s, Obtain(s, name).0)
  {}

  lemma RelinkLinks(s: State, c: ConnId, k: Conn)
    requires c in s.conns
    ensures OnlyLinks(s, Relink(s, c, k))
  {}

  lemma DropLinks(s: State, t: TubeId)
    requires t in s.tubes
    ensures OnlyLinks(s, DropRef(s, t))
  {}

  lemma SayLinks(s: State, c: ConnId, m: Reply)
    requires c in s.conns
    ensures OnlyLinks(s, SendReply(s, c, m))
  {}

  lemma UseLinks(s: State, c: ConnId, name: string)
    requires Inv(s) && Idle(s, c)
    ensures OnlyLinks(s, Use(s, c, name))
  {
    hide Inv, Mid, Obtain, HasSpare, DropRef, Relink, SendReply, NoLostWakeup;
    LinksExist(s, c);
    UseRelinked(s, c, name);
    ObtainLinks(s, name);
    var (s1, t) := Obtain(s, name);
    var k := s1.conns[c].(use := t);
    RelinkLinks(s1, c, k);
    RelinkIs(s1, c, k);
    DropLinks(Relink(s1, c, k), s.conns[c].use);
    DropRefIs(Relink(s1, c, k), s.conns[c].use);
    SayLinks(DropRef(Relink(s1, c, k), s.conns[c].use), c, Using(name));
  }

  lemma WatchLinks(s: State, c: ConnId, name: string)
    requires Inv(s) && Idle(s, c)
    ensures OnlyLinks(s, Watch(s, c, name))
  {
    hide Inv, Mid, Obtain, HasSpare, Relink, NoLostWakeup;
    LinksExist(s, c);
    InvParts(s);
    ObtainMid(s, name);
    ObtainLinks(s, name);
    var (s1, t) := Obtain(s, name);
    if t !in s.conns[c].watch {
      RelinkLinks(s1, c, s1.conns[c].(watch := s.conns[c].watch + [t]));
    }
  }

  lemma IgnoreLinks(s: State, c: ConnId, name: string)
    requires Inv(s) && Idle(s, c)
    ensures OnlyLinks(s, Ignore(s, c, name))
  {
    hide Inv, Mid, DropRef, Relink, SwapRemove, NoDup, IsWatched;
    LinksExist(s, c);
    var w := s.conns[c].watch;
    if IsWatched(s, c, name) && |w| >= 2 {
      var t := WatchedTube(s, c, name);
      var k := s.conns[c].(watch := SwapRemove(w, t));
      RelinkIs(s, c, k);
      RelinkLinks(s, c, k);
      DropLinks(Relink(s, c, k), t);
    }
  }

  lemma PauseLinks(s: State, c: ConnId, name: string, delay: int, clock: Clock)
    requires Inv(s) && Idle(s, c) && delay >= 0
    ensures OnlyLinks(s, PauseTube(s, c, name, delay, clock))
  {
    hide Inv, Exists;
  }

  predicate IsLink(e: Event) { e.UseCmd? || e.WatchCmd? || e.IgnoreCmd? || e.PauseTubeCmd? }

  lemma LinkEvent(s: State, e: Event, clock: Clock)
    requires Inv(s) && Enabled(s, e) && Monotone(clock) && IsLink(e)
    ensures OnlyLinks(s, Step(s, e, clock))
  {
    hide Inv, Use, Watch, Ignore, PauseTube, Monotone, IsWatched, Exists, NoDup, JobEvent, Accept, Close, ConnTimeout, CronTick, Reset,
      SendReply, Sending, Reading, OnlyLinks;
    match e
    case UseCmd(c, name) => UseLinks(s, c, name);
    case WatchCmd(c, name) => WatchLinks(s, c, name);
    case IgnoreCmd(c, name) => IgnoreLinks(s, c, name);
    case PauseTubeCmd(c, name, delay) => PauseLinks(s, c, name, delay, clock);
  }

  /** The pause of tube t is as it was. */
  ghost predicate SamePause(s: State, r: State, t: TubeId) {
    t in s.tubes && t in r.tubes && r.tubes[t].pause == s.tubes[t].pause && r.tubes[t].deadline == s.tubes[t].deadline
  }

  lemma LinkPauses(s: State, e: Event, clock: Clock, t: TubeId)
    requires Inv(s) && Enabled(s, e) && Monotone(clock) && IsLink(e) && t in s.tubes && t in Step(s, e, clock).tubes
    ensures (e.PauseTubeCmd? && e.name == s.tubes[t].name && Step(s, e, clock).tubes[t].pause > 0) || SamePause(s, Step(s, e, clock), t)
  {
    hide Inv, Use, Watch, Ignore, PauseTube, Monotone, Relinked, TubeFor, IsWatched, Exists, NoDup, JobEvent, Accept, Close, ConnTimeout,
      CronTick, Reset, SendReply, Sending, Reading;
    match e
    case UseCmd(c, name) =>
      UseExact(s, c, name);
      RelinkedPauses(s, TubeFor(s, name), name, {s.conns[c].use}, Use(s, c, name));
    case WatchCmd(c, name) =>
      WatchExact(s, c, name);
      RelinkedPauses(s, TubeFor(s, name), name, {}, Watch(s, c, name));
    case IgnoreCmd(c, name) => IgnoreExact(s, c, name);
    case PauseTubeCmd(c, name, delay) =>
      PauseTubeExact(s, c, name, delay, clock);
      SaidPause(s, c, t);
  }

  lemma SaidPause(s: State, c: ConnId, t: TubeId)
    requires c in s.conns && t in s.tubes
    ensures SamePause(s, SendReply(s, c, NotFound), t)
  {}

  lemma RelinkedPauses(s: State, t: TubeId, name: string, gone: set<TubeId>, r: State)
    requires Relinked(s, t, name, gone, r)
    ensures forall u :: u in s.tubes && u in r.tubes ==> SamePause(s, r, u)
  {}

  lemma SmallQuiet(s: State, e: Event, clock: Clock)
    requires Inv(s) && Enabled(s, e) && Monotone(clock) && (e.Connect? || e.ReplySent? || e.ReportCmd? || e.LineCmd?)
    ensures Quiet(s, Step(s, e, clock))
  {
    hide Inv, Monotone, JobEvent, Close, ConnTimeout, CronTick, Use, Watch, Ignore, PauseTube, Reading;
    DefaultExists(s);
  }

  lemma TimerCalm(s: State, e: Event, clock: Clock)
    requires Inv(s) && Enabled(s, e) && Monotone(clock) && (e.CronEvent? || e.Disconnect?)
    ensures Calm(s, Step(s, e, clock), clock)
  {
    hide Inv, Monotone, JobEvent, Close, ConnTimeout, CronTick, Accept, Reset, SendReply, Calm, Use, Watch, Ignore, PauseTube,
      Idle, Reading, Sending;
    match e
    case CronEvent => CronCalm(s, clock);
    case Disconnect(c) => CloseCalm(s, c, clock);
  }

  lemma EventCalm(s: State, e: Event, clock: Clock)
    requires Inv(s) && Enabled(s, e) && Monotone(clock) && !IsLink(e) && !e.DrainMode? && !e.Expired?
    ensures Calm(Noted(s, e), Step(s, e, clock), clock)
  {
    hide Inv, Enabled, Monotone, JobEvent, Step, Calm, Quiet, Noted;
    if IsJobEvent(e) {
      JobEventCalm(s, e, clock);
      Bystanders.JobStepIs(s, e, clock);
    } else {
      NotedIs(s, e);
      if e.CronEvent? || e.Disconnect? {
        TimerCalm(s, e, clock);
      } else {
        SmallQuiet(s, e, clock);
        QuietCalm(s, Step(s, e, clock), clock);
      }
    }
  }

  lemma ExpiredSteady(s: State, e: Event, clock: Clock)
    requires Inv(s) && Enabled(s, e) && Monotone(clock) && e.Expired?
    ensures Steady(s, Step(s, e, clock), clock)
  {
    hide Inv, Monotone, JobEvent, Close, ConnTimeout, CronTick, Use, Watch, Ignore, PauseTube, Reading, Steady;
    TimeoutSteady(s, e.c, clock);
  }

  lemma EventSteady(s: State, e: Event, clock: Clock)
    requires Inv(s) && Enabled(s, e) && Monotone(clock) && !IsLink(e) && !e.DrainMode?
    ensures Steady(Noted(s, e), Step(s, e, clock), clock)
  {
    hide Inv, Enabled, Monotone, Step, Calm, Steady, Noted;
    if e.Expired? {
      NotedIs(s, e);
      ExpiredSteady(s, e, clock);
    } else {
      EventCalm(s, e, clock);
      CalmSteady(Noted(s, e), Step(s, e, clock), clock);
    }
  }

  lemma NotedSteady(s: State, e: Event, r: State, clock: Clock)
    requires Steady(Noted(s, e), r, clock)
    ensures r.drain == s.drain && r.defaultTube == s.defaultTube
    ensures forall t :: t in r.tubes && s.tubes[t].pause != 0 && NotReached(clock, s.tick, r.tick, s.tubes[t].deadline) ==>
              StaysClosed(s, r, t)
  {
    hide Kept, NotReached, Added;
    forall t | t in r.tubes && s.tubes[t].pause != 0 && NotReached(clock, s.tick, r.tick, s.tubes[t].deadline)
      ensures StaysClosed(s, r, t)
    {
      assert StaysClosed(Noted(s, e), r, t);
    }
  }

  lemma DrainModeIs(s: State, e: Event, clock: Clock)
    requires Inv(s) && Enabled(s, e) && Monotone(clock) && e.DrainMode?
    ensures Step(s, e, clock) == s.(drain := true)
  {
    hide Inv, Monotone, JobEvent, Close, ConnTimeout, CronTick, Use, Watch, Ignore, PauseTube, Reading;
  }

  lemma SameNone(s: State, r: State, t: TubeId)
    requires r.jobs == s.jobs
    ensures NoneTaken(s, r, t)
  {}

  /** Whatever happens, a tube stays paused, and none of its jobs goes to anybody, as long as no reading of the
      clock has reached the end of its pause; only pause-tube itself can give it another pause. */
  lemma PauseHolds(s: State, e: Event, clock: Clock, t: TubeId)
    requires Inv(s) && Enabled(s, e) && Monotone(clock) && t in s.tubes && t in Step(s, e, clock).tubes && s.tubes[t].pause != 0
    requires NotReached(clock, s.tick, Step(s, e, clock).tick, s.tubes[t].deadline)
    ensures NoneTaken(s, Step(s, e, clock), t)
    ensures (e.PauseTubeCmd? && e.name == s.tubes[t].name) || SamePause(s, Step(s, e, clock), t)
  {
    hide Inv, Enabled, Monotone, Step, NoneTaken, NotReached, Steady, Noted;
    var r := Step(s, e, clock);
    if IsLink(e) {
      LinkEvent(s, e, clock);
      LinkPauses(s, e, clock, t);
      SameNone(s, r, t);
    } else if e.DrainMode? {
      DrainModeIs(s, e, clock);
      SameNone(s, r, t);
    } else {
      EventSteady(s, e, clock);
      NotedSteady(s, e, r, clock);
      assert StaysClosed(s, r, t);
    }
  }

  /** A pause that ends was over by a reading of the clock taken in that very step. */
  lemma PauseEnds(s: State, e: Event, clock: Clock, t: TubeId)
    requires Inv(s) && Enabled(s, e) && Monotone(clock) && t in s.tubes && t in Step(s, e, clock).tubes
    requires s.tubes[t].pause != 0 && Step(s, e, clock).tubes[t].pause == 0
    ensures exists i :: s.tick <= i < Step(s, e, clock).tick && clock(i) >= s.tubes[t].deadline
  {
    hide Inv, Enabled, Monotone, Step, NoneTaken;
    if NotReached(clock, s.tick, Step(s, e, clock).tick, s.tubes[t].deadline) {
      PauseHolds(s, e, clock, t);
      if IsLink(e) { LinkPauses(s, e, clock, t); }
    }
  }

  /** Drain mode, once on, stays on, and nothing else turns it on; the default tube stays the default tube. */
  lemma DrainStays(s: State, e: Event, clock: Clock)
    requires Inv(s) && Enabled(s, e) && Monotone(clock)
    ensures Step(s, e, clock).drain == (s.drain || e.DrainMode?)
    ensures Step(s, e, clock).defaultTube == s.defaultTube
  {
    hide Inv, Enabled, Monotone, Step, Steady, Noted;
    if IsLink(e) {
      LinkEvent(s, e, clock);
    } else if e.DrainMode? {
      DrainModeIs(s, e, clock);
    } else {
      EventSteady(s, e, clock);
      NotedSteady(s, e, Step(s, e, clock), clock);
    }
  }
}
