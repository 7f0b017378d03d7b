/** Where the program falls short of what it should do: exactly when, and by a run a client can make. */
module Findings {
  import opened Lists
  import opened State
  import opened Moves
  import opened JobMoves
  import opened Queue
  import opened Steps
  import opened JobCommands
  import opened Kick
  import opened Waiting
  import opened Conns
  import opened Order
  import opened Effects
  import opened Reserving
  import opened Run
  import opened Meaning
  import opened SmallSteps

  // ----- when a step leaves a sound server -----

  /** Job j is in the index, but nowhere else. */
  ghost predicate Stray(s: State, j: JobId) {
    j in s.jobs && forall p: Place :: !In(s, j, p)
  }

  /** An unsafe delete leaves a job in the index that is in no list: the oldest buried job of the tube
      goes on being marked buried, but no list has it. */
  lemma UnsafeDeleteUnsound(s: State, c: ConnId, id: JobId)
    requires Inv(s) && Idle(s, c) && !DeleteSafe(s, c, id)
    ensures BesideBuried(s, id)
    ensures var r, h := Delete(s, c, id), s.tubes[s.jobs[id].tube].buried[0];
            Stray(r, h) && h != id && h in s.jobs && r.jobs[h] == s.jobs[h] && r.jobs[h].state == Buried && !Sound(r)
  {
    hide Inv, Delete, Sound, Misdeleting, In, Stray;
    UnsafeIs(s, c, id);
    DeleteExact(s, c, id);
    var r, t := Delete(s, c, id), s.jobs[id].tube;
    var h := s.tubes[t].buried[0];
    OldestBuried(s, t);
    MisdeletedJobs(s, c, id, r, h);
    BecomesStray(s, c, id, r, h);
    if Sound(r) { NoStray(r, h); }
  }

  lemma UnsafeIs(s: State, c: ConnId, id: JobId)
    requires Inv(s) && Idle(s, c) && !DeleteSafe(s, c, id)
    ensures BesideBuried(s, id) && s.tubes[s.jobs[id].tube].buried[0] != id && !Held(s.jobs, id, c) && s.jobs[id].state != Ready
  {
    hide Inv, Mid, Settled;
    IdleFacts(s, c);
    HeldIsListed(s, c, id);
  }

  lemma OldestBuried(s: State, t: TubeId)
    requires Inv(s) && t in s.tubes && s.tubes[t].buried != []
    ensures var h := s.tubes[t].buried[0];
            h in s.jobs && s.jobs[h].state == Buried && s.jobs[h].tube == t && h !in s.tubes[t].buried[1..]
  {
    hide *;
    InvParts(s);
    BuriedNoDup(s, t);
    MidParts(s, s.jobs, Nothing);
    OwnParts(s.jobs, s);
    OldestSays(s, t);
  }

  lemma OldestSays(s: State, t: TubeId)
    requires TubesOwn(s.jobs, s.tubes) && t in s.tubes && s.tubes[t].buried != []
    ensures At(s.jobs, s.tubes[t].buried[0], Buried, t)
    ensures var h := s.tubes[t].buried[0]; h in s.jobs && s.jobs[h].state == Buried && s.jobs[h].tube == t
  {
    assert s.tubes[t].buried[0] in s.tubes[t].buried;
  }

  lemma MisdeletedJobs(s: State, c: ConnId, id: JobId, r: State, h: JobId)
    requires Misdeleting(s, c, id, r) && h in s.jobs && h != id
    ensures h in r.jobs && r.jobs[h] == s.jobs[h]
  {}

  /** A job that is somewhere after an unsafe delete was there before; in the list that lost its head, behind it. */
  lemma MisdeletedPlace(s: State, c: ConnId, id: JobId, r: State, h: JobId, p: Place)
    requires Misdeleting(s, c, id, r) && BesideBuried(s, id) && In(r, h, p)
    ensures In(s, h, p) && (p == InBuried(s.jobs[id].tube) ==> h in s.tubes[s.jobs[id].tube].buried[1..])
  {
    match p
    case InReady(t) => assert t in s.tubes;
    case InDelay(t) => assert t in s.tubes;
    case InBuried(t) => assert t in s.tubes;
    case _ =>
  }

  lemma BecomesStray(s: State, c: ConnId, id: JobId, r: State, h: JobId)
    requires Inv(s) && Misdeleting(s, c, id, r) && h in s.jobs && h in r.jobs
    requires s.jobs[h].state == Buried && BesideBuried(s, id) && s.jobs[h].tube == s.jobs[id].tube
    requires h !in s.tubes[s.jobs[id].tube].buried[1..]
    ensures Stray(r, h)
  {
    hide Inv, Mid, Own, In, Misdeleting;
    InvParts(s);
    MidParts(s, s.jobs, Nothing);
    forall p: Place ensures !In(r, h, p) {
      if In(r, h, p) {
        MisdeletedPlace(s, c, id, r, h, p);
        InSays(s, h, p);
      }
    }
  }

  lemma NoStray(s: State, j: JobId)
    requires Sound(s)
    ensures !Stray(s, j)
  {
    hide CountersExact, WritingSafe, WaitingRegistered, MemoLeast, TubesAlive, NoLostWakeup;
    assert OwnedOnce(s);
  }

  /** Every event leaves the server sound, except an unsafe delete, which never does. */
  lemma StepSoundIffSafe(s: State, e: Event, clock: Clock)
    requires Inv(s) && Enabled(s, e) && Monotone(clock)
    ensures Sound(Step(s, e, clock)) <==> Safe(s, e)
  {
    hide Inv, Step, Enabled, Safe, Sound, Monotone;
    StepInv(s, e, clock);
    if Safe(s, e) {
      InvSound(Step(s, e, clock));
    } else {
      UnsafeIsDelete(s, e, clock);
      UnsafeDeleteUnsound(s, e.c, e.id);
    }
  }

  lemma UnsafeIsDelete(s: State, e: Event, clock: Clock)
    requires Inv(s) && Enabled(s, e) && Monotone(clock) && !Safe(s, e)
    ensures e.DeleteCmd? && Idle(s, e.c) && !DeleteSafe(s, e.c, e.id) && Step(s, e, clock) == Delete(s, e.c, e.id)
  {
    hide Inv, DeleteSafe, Delete, Monotone;
  }

  /** The worst case: while one client is being sent a job it has reserved, another one's delete frees
      that job, if its tube has buried jobs. */
  lemma DeleteFreesJobBeingSent(s: State, c: ConnId, d: ConnId, id: JobId)
    requires Inv(s) && Idle(s, c) && d in s.conns && c != d && s.conns[d].out == Live(id)
    requires id in s.jobs && s.jobs[id].tube in s.tubes && s.tubes[s.jobs[id].tube].buried != []
    ensures var r := Delete(s, c, id); id !in r.jobs && d in r.conns && r.conns[d].out == Live(id) && !WritingSafe(r)
  {
    hide Inv, Mid, Settled;
    IdleFacts(s, c);
    SentIsHeld(s, d, id);
    HeldIsListed(s, c, id);
  }

  lemma SentIsHeld(s: State, d: ConnId, id: JobId)
    requires Inv(s) && d in s.conns && s.conns[d].out == Live(id)
    ensures Held(s.jobs, id, d)
  {
    hide Shape, Own, Waits, Counts, Memo, Refs, NoLostWakeup;
    assert ConnOk(s.jobs, d, s.conns[d]);
  }

  // ----- a run that ends in an unsafe delete -----

  /** A run that leads from Init() to s. */
  ghost predicate Reaches(es: seq<Event>, clock: Clock, s: State) {
    && Monotone(clock)
    && (InitInv(); CanRun(Init(), es, clock) && After(Init(), es, clock) == s)
  }

  ghost predicate Reachable(clock: Clock, s: State) {
    exists es :: Reaches(es, clock, s)
  }

  lemma {:induction false} RunLonger(s: State, es: seq<Event>, e: Event, clock: Clock)
    requires Inv(s) && Monotone(clock) && CanRun(s, es, clock)
    requires Enabled(After(s, es, clock), e) && Safe(After(s, es, clock), e)
    ensures CanRun(s, es + [e], clock) && After(s, es + [e], clock) == Step(After(s, es, clock), e, clock)
    decreases |es|
  {
    hide Inv, Enabled, Safe, Step, Monotone;
    var fs := es + [e];
    if es == [] {
      StepInv(s, e, clock);
      assert fs[0] == e && fs[1..] == [];
    } else {
      StepInv(s, es[0], clock);
      assert fs[0] == es[0] && fs[1..] == es[1..] + [e];
      RunLonger(Step(s, es[0], clock), es[1..], e, clock);
    }
  }

  lemma ReachNext(clock: Clock, s: State, e: Event)
    requires Reachable(clock, s) && Inv(s) && Monotone(clock) && Enabled(s, e) && Safe(s, e)
    ensures Reachable(clock, Step(s, e, clock)) && Inv(Step(s, e, clock))
  {
    hide Inv, Enabled, Safe, Step, Monotone, CanRun, After;
    var es :| Reaches(es, clock, s);
    InitInv();
    RunLonger(Init(), es, e, clock);
    assert Reaches(es + [e], clock, Step(s, e, clock));
    StepInv(s, e, clock);
  }

  /** One client, alone and idle, that uses and watches the default tube. */
  ghost predicate Alone(s: State) {
    && Inv(s) && s.conns.Keys == {0} && Idle(s, 0) && s.conns[0].use == 0 && s.conns[0].watch == [0] && !s.drain
  }

  /** Every tube is open: the default tube is the only one, and it is not paused. */
  ghost predicate AllOpen(s: State) {
    s.tubes.Keys == {0} && s.tubes[0].pause == 0
  }

  lemma NobodyWaits(s: State)
    requires Alone(s)
    ensures forall e, t :: !WaitsOn(s.conns, e, t)
    ensures !s.conns[0].waiting
  {
    hide Inv;
    IdleFacts(s, 0);
    hide Settled, Mid;
  }

  /** That client has just been answered. */
  ghost predicate Answered(s: State) {
    && s.conns.Keys == {0} && Sending(s, 0) && s.conns[0].use == 0 && s.conns[0].watch == [0] && !s.drain
  }

  lemma AloneIs(s: State)
    requires Alone(s)
    ensures Inv(s) && 0 in s.conns && Idle(s, 0)
  {
    hide Inv;
  }

  lemma Connected(clock: Clock) returns (s: State)
    requires Monotone(clock)
    ensures Alone(s) && AllOpen(s) && Reachable(clock, s) && s.jobs == map[] && s.defaultTube == 0 && s.tubes[0].name == "default"
  {
    hide *;
    InitInv();
    NoEvents(clock);
    var s0 := Init();
    ConnectIs(s0, clock);
    ReachNext(clock, s0, Connect);
    s := Accept(s0);
    FirstAccepted(s0, s);
  }

  lemma FirstAccepted(s0: State, s: State)
    requires s0 == Init() && s0.defaultTube in s0.tubes && s == Accept(s0) && Inv(s)
    ensures Alone(s) && AllOpen(s) && s.jobs == map[] && s.defaultTube == 0 && s.tubes[0].name == "default"
  {
    hide Inv;
  }

  lemma ConnectIs(s: State, clock: Clock)
    requires Inv(s) && Monotone(clock)
    ensures Enabled(s, Connect) && Safe(s, Connect) && s.defaultTube in s.tubes && Step(s, Connect, clock) == Accept(s)
  {
    hide Inv, Monotone, Accept;
    DefaultExists(s);
  }

  lemma NoEvents(clock: Clock)
    requires Monotone(clock)
    ensures Reachable(clock, Init())
  {
    hide Inv;
    InitInv();
    assert Reaches([], clock, Init());
  }

  /** The reply of a command has been sent: the client is idle again. */
  lemma Sent(s: State, clock: Clock) returns (r: State)
    requires Inv(s) && Monotone(clock) && Reachable(clock, s) && Answered(s)
    ensures Alone(r) && Reachable(clock, r) && r.jobs == s.jobs && r.tubes == s.tubes && r.nextJob == s.nextJob
  {
    hide *;
    SentIs(s, clock);
    ReachNext(clock, s, ReplySent(0));
    r := Step(s, ReplySent(0), clock);
    SentAlone(s, r);
  }

  lemma SentIs(s: State, clock: Clock)
    requires Inv(s) && Monotone(clock) && Answered(s)
    ensures Sending(s, 0) && Enabled(s, ReplySent(0)) && Safe(s, ReplySent(0)) && Step(s, ReplySent(0), clock) == Reset(s, 0)
  {
    hide Inv, Monotone, Reset;
  }

  lemma SentAlone(s: State, r: State)
    requires Answered(s) && Sending(s, 0) && r == Reset(s, 0) && Inv(r)
    ensures Alone(r) && r.jobs == s.jobs && r.tubes == s.tubes && r.nextJob == s.nextJob
  {
    hide Inv;
  }

  /** A put by a client alone: one more job, ready or delayed, and no other job changes. */
  ghost predicate OneMore(s: State, delay: int, r: State) {
    && s.nextJob !in s.jobs && r.jobs.Keys == s.jobs.Keys + {s.nextJob} && r.nextJob == s.nextJob + 1
    && (forall i :: i in s.jobs ==> i in r.jobs && r.jobs[i] == s.jobs[i])
    && r.jobs[s.nextJob].tube == 0 && r.jobs[s.nextJob].state == (if delay == 0 then Ready else Delayed)
    && (AllOpen(s) ==> AllOpen(r))
  }

  lemma PutOne(s: State, delay: int, clock: Clock)
    requires Alone(s) && Inv(s) && Idle(s, 0)
    ensures var r := Put(s, 0, 0, delay, SECOND, Some(true), clock); Answered(r) && OneMore(s, delay, r)
  {
    hide Inv, Put, WaitsOn;
    NobodyWaits(s);
    PutExact(s, 0, 0, delay, SECOND, true, clock);
  }

  lemma PutIs(s: State, delay: int, clock: Clock)
    requires Inv(s) && Monotone(clock) && Idle(s, 0)
    ensures var e := PutCmd(0, 0, delay, SECOND, Some(true));
            Enabled(s, e) && Safe(s, e) && Step(s, e, clock) == Put(s, 0, 0, delay, SECOND, Some(true), clock)
  {
    hide Inv, Monotone, Put;
  }

  lemma ReserveIs(s: State, clock: Clock)
    requires Inv(s) && Monotone(clock) && Idle(s, 0)
    ensures var e := ReserveCmd(0, -1); Enabled(s, e) && Safe(s, e) && Step(s, e, clock) == Reserve(s, 0, -1, clock)
  {
    hide Inv, Monotone, Reserve;
  }

  lemma BuryIs(s: State, j: JobId, clock: Clock)
    requires Inv(s) && Monotone(clock) && Idle(s, 0)
    ensures var e := BuryCmd(0, j, 0); Enabled(s, e) && Safe(s, e) && Step(s, e, clock) == Bury(s, 0, j, 0)
  {
    hide Inv, Monotone, Bury;
  }

  lemma PutAndSent(s: State, delay: int, clock: Clock) returns (r: State)
    requires Alone(s) && Monotone(clock) && Reachable(clock, s)
    ensures Alone(r) && Reachable(clock, r) && OneMore(s, delay, r)
  {
    hide *;
    var e := PutCmd(0, 0, delay, SECOND, Some(true));
    AloneIs(s);
    PutIs(s, delay, clock);
    ReachNext(clock, s, e);
    PutOne(s, delay, clock);
    r := Sent(Step(s, e, clock), clock);
    SameOneMore(s, delay, Step(s, e, clock), r);
  }

  lemma SameOneMore(s: State, delay: int, r: State, r2: State)
    requires OneMore(s, delay, r) && r2.jobs == r.jobs && r2.tubes == r.tubes && r2.nextJob == r.nextJob
    ensures OneMore(s, delay, r2)
  {}

  /** The only job, ready in the default tube, goes to the client that reserves. */
  lemma ReserveOne(s: State, j: JobId, clock: Clock)
    requires Alone(s) && AllOpen(s) && Inv(s) && Idle(s, 0) && s.jobs.Keys == {j} && s.jobs[j].state == Ready && s.jobs[j].tube == 0
    ensures var r := Reserve(s, 0, -1, clock);
            Answered(r) && r.jobs.Keys == {j} && Held(r.jobs, j, 0) && r.nextJob == s.nextJob && r.jobs[j].tube == 0
  {
    hide Inv, Reserve, DeadlineClose;
    WhereItIs(s, j);
    assert ReadyWatched(s, 0) by { assert 0 in s.conns[0].watch; }
    assert Offer(s, 0) == {j};
    ReserveExact(s, 0, -1, clock);
    ReserveNext(s, 0, -1, clock);
  }

  lemma ReserveAndSent(s: State, j: JobId, clock: Clock) returns (r: State)
    requires Alone(s) && AllOpen(s) && Monotone(clock) && Reachable(clock, s)
    requires s.jobs.Keys == {j} && s.jobs[j].state == Ready && s.jobs[j].tube == 0
    ensures Alone(r) && Reachable(clock, r) && r.jobs.Keys == {j} && Held(r.jobs, j, 0) && r.nextJob == s.nextJob && r.jobs[j].tube == 0
  {
    hide *;
    var e := ReserveCmd(0, -1);
    AloneIs(s);
    ReserveIs(s, clock);
    ReachNext(clock, s, e);
    ReserveOne(s, j, clock);
    r := Sent(Step(s, e, clock), clock);
  }

  lemma BuryOne(s: State, j: JobId)
    requires Alone(s) && Inv(s) && Idle(s, 0) && Held(s.jobs, j, 0)
    ensures var r := Bury(s, 0, j, 0);
            && Answered(r) && r.jobs.Keys == s.jobs.Keys && r.nextJob == s.nextJob
            && j in r.jobs && r.jobs[j].state == Buried && r.jobs[j].tube == s.jobs[j].tube
  {
    hide Inv, Bury;
    BuryExact(s, 0, j, 0);
    BuryNext(s, 0, j, 0);
  }

  lemma BuryAndSent(s: State, j: JobId, clock: Clock) returns (r: State)
    requires Alone(s) && Monotone(clock) && Reachable(clock, s) && Held(s.jobs, j, 0)
    ensures Alone(r) && Reachable(clock, r) && r.jobs.Keys == s.jobs.Keys && r.nextJob == s.nextJob
    ensures j in r.jobs && j in s.jobs && r.jobs[j].state == Buried && r.jobs[j].tube == s.jobs[j].tube
  {
    assert j in s.jobs;
    hide *;
    var e := BuryCmd(0, j, 0);
    AloneIs(s);
    BuryIs(s, j, clock);
    ReachNext(clock, s, e);
    BuryOne(s, j);
    r := Sent(Step(s, e, clock), clock);
  }

  lemma BuryNext(s: State, c: ConnId, id: JobId, pri: nat)
    requires Inv(s) && Idle(s, c)
    ensures Bury(s, c, id, pri).nextJob == s.nextJob
  {
    hide Inv, Mid, Settled;
    IdleFacts(s, c);
  }

  lemma ReserveNext(s: State, c: ConnId, timeout: int, clock: Clock)
    requires Inv(s) && Idle(s, c)
    ensures Reserve(s, c, timeout, clock).nextJob == s.nextJob
  {
    hide Inv, Mid, Settled, NoLostWakeup, HasReady, DeadlineNear, ProcessQueue, Scan;
    ReserveOk(s, c, timeout);
    var s2 := StartWaiting(FillMemo(s.(tick := s.tick + 1), c), c, timeout);
    assert s2.nextJob == s.nextJob;
    hide StartWaiting, FillMemo;
    ProcessQueueMid(s2, clock, Nothing);
    ServedGlobals(s2, ProcessQueue(s2, clock), 0);
  }

  /** A buried job and a delayed one in the same tube make the delete of the latter unsafe. */
  lemma NowUnsafe(s: State, a: JobId, b: JobId)
    requires Alone(s) && a in s.jobs && b in s.jobs && s.jobs[a].state == Buried && s.jobs[b].state == Delayed
    requires s.jobs[a].tube == s.jobs[b].tube
    ensures Inv(s) && Idle(s, 0) && !DeleteSafe(s, 0, b)
  {
    hide Inv, Mid, Settled;
    WhereItIs(s, a);
    WhereItIs(s, b);
    IdleFacts(s, 0);
  }

  /** A client alone can get there: put a job, reserve and bury it, put another one with a delay, and
      delete that one. The delete then frees a job that is still in the delay heap. */
  lemma UnsafeDeleteIsReachable(clock: Clock)
    requires Monotone(clock)
    ensures exists s, c, id :: Reachable(clock, s) && Inv(s) && Idle(s, c) && !DeleteSafe(s, c, id)
  {
    hide Inv, Monotone, Reachable, Alone, Held, AllOpen;
    var s0 := Connected(clock);
    var s1 := PutAndSent(s0, 0, clock);
    var a := s0.nextJob;
    var s2 := ReserveAndSent(s1, a, clock);
    var s3 := BuryAndSent(s2, a, clock);
    var s4 := PutAndSent(s3, SECOND, clock);
    NowUnsafe(s4, a, s3.nextJob);
    assert Reachable(clock, s4) && !DeleteSafe(s4, 0, s3.nextJob);
  }

  // ----- delayed jobs -----

  /** Safe or not, delete answers DELETED if and only if the job is ready, reserved by the caller, or in a
      tube with buried jobs. */
  lemma DeletedAnswer(s: State, c: ConnId, id: JobId)
    requires Inv(s) && Idle(s, c)
    ensures var r := Delete(s, c, id);
            && c in r.conns
            && (r.conns[c].reply == Deleted <==>
                 id in s.jobs && (s.jobs[id].state == Ready || Held(s.jobs, id, c) || BesideBuried(s, id)))
  {
    hide Inv, Delete, DeleteSafe, BesideBuried, Held;
    DeleteExact(s, c, id);
  }

  /** A delayed job is never properly deleted: either its tube has buried jobs, and the delete is unsafe,
      or it is not found. */
  lemma DelayedNotDeleted(s: State, c: ConnId, id: JobId)
    requires Inv(s) && Idle(s, c) && id in s.jobs && s.jobs[id].state == Delayed
    ensures DeleteSafe(s, c, id) <==> !BesideBuried(s, id)
    ensures DeleteSafe(s, c, id) ==> Delete(s, c, id) == SendReply(s, c, NotFound)
  {
    hide Inv, Delete, Mid, Settled, Deleting, Misdeleting;
    WhereItIs(s, id);
    IdleFacts(s, c);
    DeleteExact(s, c, id);
  }

  /** A client alone gets there: it puts a job with a delay, and cannot delete it. */
  lemma UndeletableIsReachable(clock: Clock)
    requires Monotone(clock)
    ensures exists s, c, id :: Reachable(clock, s) && Inv(s) && Idle(s, c) && id in s.jobs && s.jobs[id].state == Delayed
                               && DeleteSafe(s, c, id) && Delete(s, c, id) == SendReply(s, c, NotFound)
  {
    hide Inv, Monotone, Reachable, Alone, AllOpen, DeleteSafe, Delete, Idle, BesideBuried, SendReply;
    var s0 := Connected(clock);
    var s := PutAndSent(s0, SECOND, clock);
    var j := s0.nextJob;
    AloneIs(s);
    OnlyDelayed(s, j);
    DelayedNotDeleted(s, 0, j);
    assert Reachable(clock, s) && DeleteSafe(s, 0, j);
  }

  lemma OnlyDelayed(s: State, j: JobId)
    requires Inv(s) && s.jobs.Keys == {j} && s.jobs[j].state == Delayed
    ensures !BesideBuried(s, j)
  {
    hide Inv;
    if BesideBuried(s, j) { OldestBuried(s, s.jobs[j].tube); }
  }

  // ----- the number that kick reports -----

  /** A client alone gets there: it buries a job, asks for two to be kicked, and is told of two. */
  lemma OvercountIsReachable(clock: Clock)
    requires Monotone(clock)
    ensures exists s, c, n :: Reachable(clock, s) && Inv(s) && Idle(s, c) && Overcounts(s, c, n, clock)
  {
    hide Inv, Monotone, Reachable, Alone, Held, AllOpen, Idle, Overcounts;
    var s0 := Connected(clock);
    var s1 := PutAndSent(s0, 0, clock);
    var a := s0.nextJob;
    var s2 := ReserveAndSent(s1, a, clock);
    var s3 := BuryAndSent(s2, a, clock);
    AloneIs(s3);
    TwoForOne(s3, a, clock);
    assert Reachable(clock, s3) && Overcounts(s3, 0, 2, clock);
  }

  /** Of the kick of n jobs the client is told that n were kicked, and fewer were. */
  ghost predicate Overcounts(s: State, c: ConnId, n: nat, clock: Clock)
    requires Inv(s) && Idle(s, c)
  {
    var r, t := KickJobs(s, c, n, clock), s.conns[c].use;
    c in r.conns && r.conns[c].reply == Kicked(n) && t in s.tubes && t in r.tubes && Moved(s, r, t) < n
  }

  lemma TwoForOne(s: State, j: JobId, clock: Clock)
    requires Alone(s) && Inv(s) && Idle(s, 0) && s.jobs.Keys == {j} && s.jobs[j].state == Buried && s.jobs[j].tube == 0
    ensures Overcounts(s, 0, 2, clock)
  {
    hide Inv, Settled, KickBuriedJobs, KickDelayedJobs, Freed;
    KickOk(s, 0);
    WhereItIs(s, j);
    OnlyBuried(s, j);
    KickBuriedExact(s, 0, 2, clock);
  }

  lemma OnlyBuried(s: State, j: JobId)
    requires Inv(s) && s.jobs.Keys == {j} && s.jobs[j].state == Buried && s.jobs[j].tube == 0 && 0 in s.tubes
    ensures s.tubes[0].buried == [j]
  {
    hide Inv;
    WhereItIs(s, j);
    var b := s.tubes[0].buried;
    AllBuried(s, 0);
    assert b[0] in s.jobs.Keys && b[|b| - 1] in s.jobs.Keys;
  }

  lemma AllBuried(s: State, t: TubeId)
    requires Inv(s) && t in s.tubes
    ensures NoDup(s.tubes[t].buried) && forall j :: j in s.tubes[t].buried ==> j in s.jobs
  {
    hide *;
    InvParts(s);
    MidParts(s, s.jobs, Nothing);
    OwnParts(s.jobs, s);
    BuriedIndexed(s, t);
  }

  lemma BuriedIndexed(s: State, t: TubeId)
    requires TubesOwn(s.jobs, s.tubes) && t in s.tubes
    ensures NoDup(s.tubes[t].buried) && forall j :: j in s.tubes[t].buried ==> j in s.jobs
  {}

  // ----- the job that peek-buried looks at -----

  /** A client alone gets there: it buries a job, and peek-buried does not find it. */
  lemma WrongPeekIsReachable(clock: Clock)
    requires Monotone(clock)
    ensures exists s, c :: Reachable(clock, s) && Inv(s) && Idle(s, c) && PeekBuried(s, c) != Some(PeekBuriedMeant(s, c))
  {
    hide Inv, Monotone, Reachable, Alone, Held, AllOpen, Idle, PeekBuried, PeekBuriedMeant;
    var s0 := Connected(clock);
    var s1 := PutAndSent(s0, 0, clock);
    var a := s0.nextJob;
    var s2 := ReserveAndSent(s1, a, clock);
    var s3 := BuryAndSent(s2, a, clock);
    AloneIs(s3);
    WhereItIs(s3, a);
    UsesDefault(s3);
    PeekBuriedRightIff(s3, 0);
    assert Reachable(clock, s3) && PeekBuried(s3, 0) != Some(PeekBuriedMeant(s3, 0));
  }

  lemma UsesDefault(s: State)
    requires Alone(s)
    ensures 0 in s.conns && s.conns[0].use == 0
  {
    hide Inv;
  }

  // ----- the states the theorems speak about exist -----

  lemma SomeoneIdle()
    ensures exists s, c :: Inv(s) && Idle(s, c)
  {
    hide *;
    var s := Connected(_ => 0) by { SteadyClock(); }
    AloneIs(s);
  }

  lemma SteadyClock()
    ensures Monotone(_ => 0)
  {}

  /** A client in the middle of a job body. */
  lemma SomeoneReading()
    ensures exists s, c :: Inv(s) && Reading(s, c)
  {
    hide Inv, Monotone, Put, CreateJob;
    SomeoneIdle();
    var s, c :| Inv(s) && Idle(s, c);
    PutInv(s, c, 0, 0, SECOND, None, _ => 0);
    CreateInFlight(s, c, 0, 0, SECOND);
    ReadingNow(s, c);
  }

  lemma ReadingNow(s: State, c: ConnId)
    requires Inv(s) && Idle(s, c)
    ensures Reading(Put(s, c, 0, 0, SECOND, None, _ => 0), c)
  {
    hide Inv, CreateJob, InFlight, Mid;
    CreateInFlight(s, c, 0, 0, SECOND);
  }

  /** A client that waits for a job. */
  lemma SomeoneWaiting()
    ensures exists s, c :: Inv(s) && c in s.conns && s.conns[c].waiting
  {
    hide *;
    SteadyClock();
    var s := Connected(_ => 0);
    AloneIs(s);
    ReserveInv(s, 0, -1, _ => 0);
    WaitsNow(s);
  }

  lemma WaitsNow(s: State)
    requires Alone(s) && AllOpen(s) && Inv(s) && Idle(s, 0) && s.jobs == map[]
    ensures var r := Reserve(s, 0, -1, _ => 0); 0 in r.conns && r.conns[0].waiting
  {
    hide Inv, Reserve, HasReady;
    ReserveExact(s, 0, -1, _ => 0);
    assert !DeadlineClose(s, 0, 0);
    assert Offer(s, 0) == {};
  }
}
