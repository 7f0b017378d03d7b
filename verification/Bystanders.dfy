/** What a step does to those it is not about: connections that do not wait, their reserved jobs,
    and tubes. */
module Bystanders {
  import opened Lists
  import opened State
  import opened Moves
  import opened JobMoves
  import opened Queue
  import opened Steps
  import opened JobCommands
  import opened Kick
  import opened Waiting
  import opened Tubes
  import opened Conns
  import opened Cron
  import opened Timeout
  import opened Effects
  import opened TubeEffects
  import opened Expiry
  import opened Run

  /** The event comes from connection c, or is its timeout or its end. */
  predicate IsOf(e: Event, c: ConnId) {
    match e
    case Connect => false
    case CronEvent => false
    case DrainMode => false
    case _ => e.c == c
  }

  /** Connection c and the jobs it has reserved are exactly as they were. */
  ghost predicate Untouched(s: State, c: ConnId, r: State) {
    && c in s.conns && c in r.conns && r.conns[c] == s.conns[c]
    && forall j :: Held(s.jobs, j, c) ==> j in r.jobs && r.jobs[j] == s.jobs[j]
  }

  lemma OthersUntouched(s: State, j: JobId, d: ConnId, r: State, c: ConnId)
    requires OthersServed(s, j, d, r) && c in s.conns && c != d && !s.conns[c].waiting && !Held(s.jobs, j, c)
    ensures Untouched(s, c, r)
  {
    assert ConnServed(s.conns[c], r.conns[c]);
    hide TubesSame, WaitsOn, ConnServed;
  }

  lemma ServedUntouched(s: State, r: State, c: ConnId)
    requires Served(s, r) && c in s.conns && !s.conns[c].waiting
    ensures Untouched(s, c, r)
  {
    assert ConnServed(s.conns[c], r.conns[c]);
    assert forall j :: j in s.jobs ==> JobServed(s, s.jobs[j], r.jobs[j]);
    hide Served, WaitsOn, ConnServed;
  }

  lemma FreedUntouched(s: State, moved: set<JobId>, r: State, c: ConnId)
    requires Freed(s, moved, r) && c in s.conns && !s.conns[c].waiting
    ensures Untouched(s, c, r)
  {
    assert ConnServed(s.conns[c], r.conns[c]) && SameKeys(s, r);
    hide WaitsOn, ConnServed;
  }

  lemma ExpiredUntouched(s: State, d: ConnId, late: set<JobId>, r: State, c: ConnId)
    requires TookBack(s, d, late, r) && c in s.conns && c != d && !s.conns[c].waiting
    requires forall j :: j in late ==> Held(s.jobs, j, d)
    ensures Untouched(s, c, r)
  {
    assert ConnServed(s.conns[c], r.conns[c]);
    hide WaitsOn, ConnServed, FewerWait, JobExpired;
  }

  /** Only connection d changes, and no job that c has reserved. */
  lemma OneConnUntouched(s: State, d: ConnId, r: State, c: ConnId)
    requires c in s.conns && c != d && d in r.conns && r.conns == s.conns[d := r.conns[d]]
    requires forall j :: Held(s.jobs, j, c) ==> j in r.jobs && r.jobs[j] == s.jobs[j]
    ensures Untouched(s, c, r)
  {
    hide Held;
  }

  lemma SaidUntouched(s: State, r: State, c: ConnId, d: ConnId, k: Conn)
    requires Untouched(s, c, r) && c != d
    ensures Untouched(s, c, PutConn(r, d, k))
  {
    hide Held;
  }

  lemma ClosedUntouched(s: State, d: ConnId, clock: Clock, c: ConnId)
    requires Inv(s) && d in s.conns && c in s.conns && c != d && !s.conns[c].waiting
    ensures Untouched(s, c, Close(s, d, clock))
  {
    hide Inv, Close;
    CloseLeavesNoTrace(s, d, clock);
    HeldAreReserved(s, d);
    HeldAreReserved(s, c);
    NotLost(s, d, c);
    var r := Close(s, d, clock);
    assert ConnServed(s.conns[c], r.conns[c]);
    hide WaitsOn, ConnServed;
  }

  lemma HeldAreReserved(s: State, c: ConnId)
    requires Inv(s) && c in s.conns
    ensures forall j :: Held(s.jobs, j, c) <==> j in s.conns[c].reserved
  {
    forall j ensures Held(s.jobs, j, c) <==> j in s.conns[c].reserved { HeldIsListed(s, c, j); }
    hide *;
  }

  lemma NotLost(s: State, d: ConnId, c: ConnId)
    requires Inv(s) && d in s.conns
    ensures forall j :: Held(s.jobs, j, c) ==> j !in Lost(s, d)
  {
    hide Shape, TubesOwn, ConnsOwn, Waits, Phases, Counts, Memo, Refs, NoLostWakeup;
  }

  lemma LateAreHeld(s: State, d: ConnId, now: int)
    requires Inv(s) && d in s.conns
    ensures forall j :: j in Late(s, d, now) ==> Held(s.jobs, j, d)
  {
    hide Inv;
    HeldAreReserved(s, d);
  }

  lemma ReserveUntouched(s: State, d: ConnId, timeout: int, clock: Clock, c: ConnId)
    requires Inv(s) && Idle(s, d) && c in s.conns && c != d && !s.conns[c].waiting
    ensures Untouched(s, c, Reserve(s, d, timeout, clock))
  {
    hide Inv, Mid, Settled, NoLostWakeup, FillMemo, StartWaiting, HasReady, DeadlineNear, ProcessQueue, Served, Untouched;
    IdleFacts(s, d);
    ReserveOk(s, d, timeout);
    var s1 := FillMemo(s.(tick := s.tick + 1), d);
    FilledOnly(s.(tick := s.tick + 1), d);
    OneConnUntouched(s, d, s1, c);
    SaidUntouched(s, s1, c, d, s1.conns[d].(phase := SendWord, reply := DeadlineSoon));
    WaitingOnly(s1, d, timeout);
    var s2 := StartWaiting(s1, d, timeout);
    OneConnUntouched(s, d, s2, c);
    ProcessQueueMid(s2, clock, Nothing);
    ServedUntouched(s2, ProcessQueue(s2, clock), c);
    UntouchedTwice(s, s2, ProcessQueue(s2, clock), c);
  }

  lemma WaitingOnly(s: State, c: ConnId, timeout: int)
    requires c in s.conns
    ensures var r := StartWaiting(s, c, timeout); r.jobs == s.jobs && c in r.conns && r.conns == s.conns[c := r.conns[c]]
  {}

  lemma UntouchedTwice(a: State, b: State, r: State, c: ConnId)
    requires Untouched(a, c, b) && Untouched(b, c, r)
    ensures Untouched(a, c, r)
  {}

  lemma KickUntouched(s: State, d: ConnId, n: nat, clock: Clock, c: ConnId)
    requires Inv(s) && Idle(s, d) && c in s.conns && c != d && !s.conns[c].waiting
    ensures Untouched(s, c, KickJobs(s, d, n, clock))
  {
    hide Inv, Settled, KickBuriedJobs, KickDelayedJobs, Freed, Untouched;
    KickOk(s, d);
    var t := s.conns[d].use;
    if s.tubes[t].buried != [] {
      KickBuriedExact(s, t, n, clock);
      var r := KickBuriedJobs(s, t, n, clock);
      FreedUntouched(s, First(s.tubes[t].buried, Min(n, |s.tubes[t].buried|)), r, c);
      SaidUntouched(s, r, c, d, r.conns[d].(phase := SendWord, reply := Kicked(n)));
    } else {
      var (r, k) := KickDelayedJobs(s, t, n, clock);
      KickDelayedExact(s, t, n, clock);
      FreedUntouched(s, Gone(s, r, t), r, c);
      SaidUntouched(s, r, c, d, r.conns[d].(phase := SendWord, reply := Kicked(k)));
    }
  }

  lemma OtherHolds(s: State, d: ConnId, c: ConnId)
    requires c != d
    ensures forall j :: Held(s.jobs, j, c) ==> !Held(s.jobs, j, d)
  {}

  lemma PutUntouched(s: State, d: ConnId, pri: nat, delay: int, ttr: int, body: Option<bool>, clock: Clock, c: ConnId)
    requires Inv(s) && Idle(s, d) && c in s.conns && c != d && !s.conns[c].waiting
    ensures Untouched(s, c, Put(s, d, pri, delay, ttr, body, clock))
  {
    hide Inv, Put, OthersServed, JobQueued, Untouched;
    if body == None {
      PutUnread(s, d, pri, delay, ttr, clock);
      OneConnUntouched(s, d, Put(s, d, pri, delay, ttr, body, clock), c);
    } else {
      PutExact(s, d, pri, delay, ttr, body.value, clock);
      var r := Put(s, d, pri, delay, ttr, body, clock);
      if body.value && !s.drain {
        OthersUntouched(s, s.nextJob, d, r, c);
      } else {
        OneConnUntouched(s, d, r, c);
      }
    }
  }

  /** put whose body is still to come: a new job of which the client reads the body. */
  lemma PutUnread(s: State, c: ConnId, pri: nat, delay: int, ttr: int, clock: Clock)
    requires Inv(s) && Idle(s, c)
    ensures var r, id := Put(s, c, pri, delay, ttr, None, clock), s.nextJob;
            && id !in s.jobs && r.nextJob == id + 1 && r.tubes.Keys == s.tubes.Keys
            && r.jobs == s.jobs[id := Job(pri, delay, if ttr < SECOND then SECOND else ttr, 0, Invalid, s.conns[c].use, None, 0, 0, 0, 0, 0)]
            && r.conns == s.conns[c := s.conns[c].(inJob := Some(id), phase := WantData)]
  {
    hide Inv, Mid, InFlight, NoLostWakeup;
    var ttr1 := if ttr < SECOND then SECOND else ttr;
    CreateInFlight(s, c, pri, delay, ttr1);
    CreatedIs(s, c, pri, delay, ttr1);
  }

  lemma BodyUntouched(s: State, d: ConnId, ok: bool, clock: Clock, c: ConnId)
    requires Inv(s) && Reading(s, d) && c in s.conns && c != d && !s.conns[c].waiting
    ensures Untouched(s, c, FinishBody(s, d, ok, clock))
  {
    hide Inv, FinishBody, OthersServed, JobQueued, Untouched;
    FinishBodyExact(s, d, ok, clock);
    IncomingNotHeld(s, d, c);
    var r := FinishBody(s, d, ok, clock);
    if ok && !s.drain {
      OthersUntouched(s, s.conns[d].inJob.value, d, r, c);
    } else {
      OneConnUntouched(s, d, r, c);
    }
  }

  lemma IncomingNotHeld(s: State, d: ConnId, c: ConnId)
    requires Inv(s) && d in s.conns && s.conns[d].inJob.Some?
    ensures !Held(s.jobs, s.conns[d].inJob.value, c)
  {
    hide Inv;
    NotLost(s, d, c);
  }

  /** The event is a delete that takes job j from under its owner: it names j, and j's tube has buried jobs. */
  ghost predicate Robs(s: State, e: Event, j: JobId) {
    e.DeleteCmd? && e.id == j && BesideBuried(s, j)
  }

  /** Connection c is as it was, and so is every job it has reserved, but those that the event takes away. */
  ghost predicate KeepsAllBut(s: State, e: Event, c: ConnId, r: State) {
    && c in s.conns && c in r.conns && r.conns[c] == s.conns[c]
    && forall j :: Held(s.jobs, j, c) ==> if Robs(s, e, j) then j !in r.jobs else j in r.jobs && r.jobs[j] == s.jobs[j]
  }

  lemma DeleteUntouched(s: State, d: ConnId, id: JobId, c: ConnId)
    requires Inv(s) && Idle(s, d) && c in s.conns && c != d
    ensures KeepsAllBut(s, DeleteCmd(d, id), c, Delete(s, d, id))
  {
    hide Inv, Delete, Deleting, Misdeleting, BesideBuried, DeleteSafe;
    DeleteExact(s, d, id);
    DeletingRest(s, d, id, Delete(s, d, id));
  }

  lemma DeletingRest(s: State, c: ConnId, id: JobId, r: State)
    requires c in s.conns
    ensures Deleting(s, c, id, r) || Misdeleting(s, c, id, r) ==>
              c in r.conns && r.conns == s.conns[c := r.conns[c]] && r.jobs == s.jobs - {id} && r.tubes.Keys == s.tubes.Keys
  {}

  lemma ReleaseUntouched(s: State, d: ConnId, id: JobId, pri: nat, delay: int, clock: Clock, c: ConnId)
    requires Inv(s) && Idle(s, d) && c in s.conns && c != d && !s.conns[c].waiting
    ensures Untouched(s, c, Release(s, d, id, pri, delay, clock))
  {
    hide Inv, Release, OthersServed, JobQueued;
    ReleaseExact(s, d, id, pri, delay, clock);
    OtherHolds(s, d, c);
    if Held(s.jobs, id, d) {
      OthersUntouched(s, id, d, Release(s, d, id, pri, delay, clock), c);
    }
  }

  lemma BuryUntouched(s: State, d: ConnId, id: JobId, pri: nat, c: ConnId)
    requires Inv(s) && Idle(s, d) && c in s.conns && c != d && !s.conns[c].waiting
    ensures Untouched(s, c, Bury(s, d, id, pri))
  {
    hide Inv, Bury;
    BuryExact(s, d, id, pri);
    OtherHolds(s, d, c);
  }

  lemma TouchUntouched(s: State, d: ConnId, id: JobId, clock: Clock, c: ConnId)
    requires Inv(s) && Idle(s, d) && c in s.conns && c != d && !s.conns[c].waiting
    ensures Untouched(s, c, Touch(s, d, id, clock))
  {
    hide Inv, Touch;
    TouchExact(s, d, id, clock);
    OtherHolds(s, d, c);
  }

  lemma JobEventUntouched(s: State, e: Event, clock: Clock, c: ConnId)
    requires Inv(s) && Enabled(s, e) && IsJobEvent(e) && !e.DeleteCmd? && c in s.conns && !s.conns[c].waiting && !IsOf(e, c)
    ensures Untouched(s, c, JobEvent(s, e, clock))
  {
    hide Inv, Put, FinishBody, Reserve, Delete, Release, Bury, KickJobs, Touch, Untouched, DeleteSafe, Idle, Reading;
    match e
    case PutCmd(d, pri, delay, ttr, body) => PutUntouched(s, d, pri, delay, ttr, body, clock, c);
    case BodyEnd(d, ok) => BodyUntouched(s, d, ok, clock, c);
    case ReserveCmd(d, timeout) => ReserveUntouched(s, d, timeout, clock, c);
    case ReleaseCmd(d, id, pri, delay) => ReleaseUntouched(s, d, id, pri, delay, clock, c);
    case BuryCmd(d, id, pri) => BuryUntouched(s, d, id, pri, c);
    case KickCmd(d, n) => KickUntouched(s, d, n, clock, c);
    case TouchCmd(d, id) => TouchUntouched(s, d, id, clock, c);
    case PeekCmd(d, id) => PeekUntouched(s, d, id, c);
  }

  lemma PeekUntouched(s: State, d: ConnId, id: JobId, c: ConnId)
    requires Inv(s) && Idle(s, d) && c in s.conns && c != d
    ensures Untouched(s, c, Peek(s, d, id))
  {
    hide Inv, Mid, Settled;
    IdleFacts(s, d);
  }

  lemma TimerUntouched(s: State, e: Event, clock: Clock, c: ConnId)
    requires Inv(s) && Enabled(s, e) && Monotone(clock) && (e.Expired? || e.CronEvent? || e.Disconnect?)
    requires c in s.conns && !s.conns[c].waiting && !IsOf(e, c)
    ensures Untouched(s, c, Step(s, e, clock))
  {
    hide Inv, ConnTimeout, CronTick, Close, Untouched, TookBack, Freed, Monotone, Late, DueJobs;
    match e
    case Expired(d) =>
      ConnTimeoutMoves(s, d, clock);
      LateAreHeld(s, d, clock(s.tick));
      ExpiredUntouched(s, d, Late(s, d, clock(s.tick)), ConnTimeout(s, d, clock), c);
    case CronEvent =>
      CronTickExact(s, clock);
      FreedUntouched(s, DueJobs(s, clock(s.tick)), CronTick(s, clock), c);
    case Disconnect(d) => ClosedUntouched(s, d, clock, c);
  }

  lemma UseUntouched(s: State, d: ConnId, name: string, c: ConnId)
    requires Inv(s) && Idle(s, d) && c in s.conns && c != d
    ensures Untouched(s, c, Use(s, d, name))
  {
    hide Inv, Use, Relinked, TubeFor, Exists;
    UseExact(s, d, name);
    RelinkedJobs(s, TubeFor(s, name), name, {s.conns[d].use}, Use(s, d, name));
  }

  lemma WatchUntouched(s: State, d: ConnId, name: string, c: ConnId)
    requires Inv(s) && Idle(s, d) && c in s.conns && c != d
    ensures Untouched(s, c, Watch(s, d, name))
  {
    hide Inv, Watch, Relinked, TubeFor, Exists, IsWatched, NoDup;
    WatchExact(s, d, name);
    RelinkedJobs(s, TubeFor(s, name), name, {}, Watch(s, d, name));
  }

  lemma LinkUntouched(s: State, e: Event, clock: Clock, c: ConnId)
    requires Inv(s) && Enabled(s, e) && Monotone(clock) && (e.UseCmd? || e.WatchCmd? || e.IgnoreCmd? || e.PauseTubeCmd?)
    requires c in s.conns && !IsOf(e, c)
    ensures Untouched(s, c, Step(s, e, clock))
  {
    hide Inv, Use, Watch, Ignore, PauseTube, Monotone, IsWatched, Exists, NoDup, Untouched, JobEvent, Accept, Close, ConnTimeout,
      CronTick, Reset, SendReply, Sending, Reading;
    match e
    case UseCmd(d, name) => UseUntouched(s, d, name, c);
    case WatchCmd(d, name) => WatchUntouched(s, d, name, c);
    case IgnoreCmd(d, name) => IgnoreUntouched(s, d, name, c);
    case PauseTubeCmd(d, name, delay) => PauseUntouched(s, d, name, delay, clock, c);
  }

  lemma IgnoreUntouched(s: State, d: ConnId, name: string, c: ConnId)
    requires Inv(s) && Idle(s, d) && c in s.conns && c != d
    ensures Untouched(s, c, Ignore(s, d, name))
  {
    hide Inv, Ignore, Exists, IsWatched, NoDup;
    IgnoreExact(s, d, name);
  }

  lemma PauseUntouched(s: State, d: ConnId, name: string, delay: int, clock: Clock, c: ConnId)
    requires Inv(s) && Idle(s, d) && delay >= 0 && c in s.conns && c != d
    ensures Untouched(s, c, PauseTube(s, d, name, delay, clock))
  {
    hide Inv, PauseTube, Exists;
    PauseTubeExact(s, d, name, delay, clock);
  }

  lemma RelinkedJobs(s: State, t: TubeId, name: string, gone: set<TubeId>, r: State)
    requires Relinked(s, t, name, gone, r)
    ensures r.jobs == s.jobs
  {}

  lemma SmallUntouched(s: State, e: Event, clock: Clock, c: ConnId)
    requires Inv(s) && Enabled(s, e) && Monotone(clock)
    requires e.Connect? || e.ReplySent? || e.DrainMode? || e.ReportCmd? || e.LineCmd?
    requires c in s.conns && !IsOf(e, c)
    ensures Untouched(s, c, Step(s, e, clock))
  {
    hide Inv, Monotone;
    DefaultExists(s);
  }

  lemma EventUntouched(s: State, e: Event, clock: Clock, c: ConnId)
    requires Inv(s) && Enabled(s, e) && !e.DeleteCmd? && Monotone(clock) && c in s.conns && !s.conns[c].waiting && !IsOf(e, c)
    ensures Untouched(s, c, Step(s, e, clock))
  {
    hide Inv, Enabled, Monotone, Step, JobEvent, Untouched;
    if IsJobEvent(e) {
      JobEventUntouched(s, e, clock, c);
      JobStepIs(s, e, clock);
    } else if e.Expired? || e.CronEvent? || e.Disconnect? {
      TimerUntouched(s, e, clock, c);
    } else if e.UseCmd? || e.WatchCmd? || e.IgnoreCmd? || e.PauseTubeCmd? {
      LinkUntouched(s, e, clock, c);
    } else {
      SmallUntouched(s, e, clock, c);
    }
  }

  lemma DeleteStepIs(s: State, e: Event, clock: Clock)
    requires Inv(s) && Enabled(s, e) && Monotone(clock) && e.DeleteCmd?
    ensures Idle(s, e.c) && Step(s, e, clock) == Delete(s, e.c, e.id)
  {
    hide Inv, Delete, Monotone;
  }

  /** Whatever others do, and whatever timers run, a connection that does not wait keeps its state, and
      every job it has reserved stays its own and unchanged, unless somebody deletes that very job while
      its tube has buried jobs: then, and only then, it is gone. */
  lemma BystanderUntouched(s: State, e: Event, clock: Clock, c: ConnId)
    requires Inv(s) && Enabled(s, e) && Monotone(clock) && c in s.conns && !s.conns[c].waiting && !IsOf(e, c)
    ensures KeepsAllBut(s, e, c, Step(s, e, clock))
  {
    hide Inv, Enabled, Monotone, Step, Held;
    if e.DeleteCmd? {
      DeleteStepIs(s, e, clock);
      DeleteUntouched(s, e.c, e.id, c);
    } else {
      EventUntouched(s, e, clock, c);
    }
  }

  lemma JobStepIs(s: State, e: Event, clock: Clock)
    requires Inv(s) && Enabled(s, e) && Monotone(clock) && IsJobEvent(e)
    ensures Step(s, e, clock) == JobEvent(s, e, clock)
  {
    hide Inv, Monotone, JobEvent;
  }

  /** A job that is being written out goes on being written out, from the same unchanged job, unless
      somebody deletes it while its tube has buried jobs: then its writer is left with a job that is gone. */
  lemma WritingGoesOn(s: State, e: Event, clock: Clock, c: ConnId, j: JobId)
    requires Inv(s) && Enabled(s, e) && Monotone(clock) && !IsOf(e, c)
    requires c in s.conns && s.conns[c].out == Live(j)
    ensures var r := Step(s, e, clock);
            && c in r.conns && r.conns[c] == s.conns[c] && Held(s.jobs, j, c)
            && if Robs(s, e, j) then j !in r.jobs else j in r.jobs && r.jobs[j] == s.jobs[j]
  {
    hide Inv, Enabled, Monotone, Step, Robs, Held;
    WritingHeld(s, c, j);
    BystanderUntouched(s, e, clock, c);
  }

  lemma WritingHeld(s: State, c: ConnId, j: JobId)
    requires Inv(s) && c in s.conns && s.conns[c].out == Live(j)
    ensures Held(s.jobs, j, c) && !s.conns[c].waiting
  {
    hide *;
    InvParts(s);
    MidParts(s, s.jobs, Nothing);
    ConnFacts(s, c);
    assert Held(s.jobs, j, c) && !s.conns[c].waiting by { OutHeld(s.jobs, c, s.conns[c], j); }
  }

  lemma OutHeld(live: map<JobId, Job>, c: ConnId, x: Conn, j: JobId)
    requires ConnOk(live, c, x) && x.out == Live(j)
    ensures Held(live, j, c) && !x.waiting
  {}

  // ----- tubes that disappear -----

  /** tube_dref frees a tube only when nobody and nothing refers to it and all it could hold is gone. */
  lemma FreedIsEmpty(s: State, t: TubeId, d: Slack)
    requires Mid(s, s.jobs, d) && HasSpare(s, t) && t !in DropRef(s, t).tubes
    ensures t in s.tubes && Unreferenced(s, t)
    ensures s.tubes[t].ready == {} && s.tubes[t].delayed == {} && s.tubes[t].buried == [] && s.tubes[t].waiting.items == []
  {
    assert t in s.tubes && s.tubes[t].refs == 1 by { hide Mid; }
    hide *;
    MidParts(s, s.jobs, d);
    OwnParts(s.jobs, s);
    LastReference(s, t);
    UnreferencedIsEmpty(s, t);
  }

  ghost predicate KeepsTubes(s: State, r: State) { s.tubes.Keys <= r.tubes.Keys }

  lemma JobEventKeepsTubes(s: State, e: Event, clock: Clock)
    requires Inv(s) && Enabled(s, e) && IsJobEvent(e)
    ensures KeepsTubes(s, JobEvent(s, e, clock))
  {
    hide Inv, Put, FinishBody, Reserve, Delete, Release, Bury, KickJobs, Touch, DeleteSafe, Idle, Reading, OthersServed,
      Held, JobQueued, Deleting, Exists, SendReply, Settled, Mid;
    match e
    case PutCmd(c, pri, delay, ttr, body) => PutKeepsTubes(s, c, pri, delay, ttr, body, clock);
    case BodyEnd(c, ok) => BodyKeepsTubes(s, c, ok, clock);
    case ReserveCmd(c, timeout) => ReserveKeepsTubes(s, c, timeout, clock);
    case DeleteCmd(c, id) => DeleteKeepsTubes(s, c, id);
    case ReleaseCmd(c, id, pri, delay) => ReleaseKeepsTubes(s, c, id, pri, delay, clock);
    case BuryCmd(c, id, pri) => BuryExact(s, c, id, pri); IdleFacts(s, c); SaidKeepsTubes(s, c);
    case KickCmd(c, n) => KickKeepsTubes(s, c, n, clock);
    case TouchCmd(c, id) => TouchExact(s, c, id, clock); IdleFacts(s, c); SaidKeepsTubes(s, c);
    case PeekCmd(c, id) => IdleFacts(s, c); SaidKeepsTubes(s, c);
  }

  lemma SaidKeepsTubes(s: State, c: ConnId)
    requires Idle(s, c)
    ensures c in s.conns && forall m :: SendReply(s, c, m).tubes == s.tubes
  {}

  lemma OthersKeepTubes(s: State, j: JobId, c: ConnId, r: State)
    requires OthersServed(s, j, c, r)
    ensures KeepsTubes(s, r)
  {}

  lemma PutKeepsTubes(s: State, c: ConnId, pri: nat, delay: int, ttr: int, body: Option<bool>, clock: Clock)
    requires Inv(s) && Idle(s, c)
    ensures KeepsTubes(s, Put(s, c, pri, delay, ttr, body, clock))
  {
    hide Inv, Put, OthersServed, JobQueued;
    if body == None {
      PutUnread(s, c, pri, delay, ttr, clock);
    } else {
      PutExact(s, c, pri, delay, ttr, body.value, clock);
      if body.value && !s.drain { OthersKeepTubes(s, s.nextJob, c, Put(s, c, pri, delay, ttr, body, clock)); }
    }
  }

  lemma BodyKeepsTubes(s: State, c: ConnId, ok: bool, clock: Clock)
    requires Inv(s) && Reading(s, c)
    ensures KeepsTubes(s, FinishBody(s, c, ok, clock))
  {
    hide Inv, FinishBody, OthersServed, JobQueued;
    FinishBodyExact(s, c, ok, clock);
    if ok && !s.drain { OthersKeepTubes(s, s.conns[c].inJob.value, c, FinishBody(s, c, ok, clock)); }
  }

  lemma ReserveKeepsTubes(s: State, c: ConnId, timeout: int, clock: Clock)
    requires Inv(s) && Idle(s, c)
    ensures KeepsTubes(s, Reserve(s, c, timeout, clock))
  {
    hide Inv, Mid, Settled, NoLostWakeup, HasReady, DeadlineNear, ProcessQueue, Scan;
    ReserveOk(s, c, timeout);
  }

  lemma ReleaseKeepsTubes(s: State, c: ConnId, id: JobId, pri: nat, delay: int, clock: Clock)
    requires Inv(s) && Idle(s, c)
    ensures KeepsTubes(s, Release(s, c, id, pri, delay, clock))
  {
    hide Inv, Release, OthersServed, JobQueued;
    ReleaseExact(s, c, id, pri, delay, clock);
    if Held(s.jobs, id, c) { OthersKeepTubes(s, id, c, Release(s, c, id, pri, delay, clock)); }
  }

  lemma DeleteKeepsTubes(s: State, c: ConnId, id: JobId)
    requires Inv(s) && Idle(s, c)
    ensures KeepsTubes(s, Delete(s, c, id))
  {
    hide Inv, Delete, Deleting, Misdeleting, BesideBuried, DeleteSafe, Held;
    DeleteExact(s, c, id);
    DeletingRest(s, c, id, Delete(s, c, id));
  }

  lemma KickKeepsTubes(s: State, c: ConnId, n: nat, clock: Clock)
    requires Inv(s) && Idle(s, c)
    ensures KeepsTubes(s, KickJobs(s, c, n, clock))
  {
    hide Inv, Settled, KickBuriedJobs, KickDelayedJobs;
    KickOk(s, c);
  }

  lemma OtherEventKeepsTubes(s: State, e: Event, clock: Clock)
    requires Inv(s) && Enabled(s, e) && Monotone(clock) && !IsJobEvent(e) && !e.UseCmd? && !e.IgnoreCmd? && !e.Disconnect?
    ensures KeepsTubes(s, Step(s, e, clock))
  {
    hide Inv, ConnTimeout, CronTick, TookBack, Freed, Monotone, Late, DueJobs, Watch, PauseTube, Relinked, TubeFor, Exists, Idle;
    DefaultExists(s);
    match e
    case Expired(c) =>
      ConnTimeoutMoves(s, c, clock);
      TookBackKeepsTubes(s, c, Late(s, c, clock(s.tick)), ConnTimeout(s, c, clock));
    case CronEvent =>
      CronTickExact(s, clock);
      FreedKeepsTubes(s, DueJobs(s, clock(s.tick)), CronTick(s, clock));
    case WatchCmd(c, name) =>
      WatchExact(s, c, name);
      RelinkedKeepsTubes(s, TubeFor(s, name), name, Watch(s, c, name));
    case PauseTubeCmd(c, name, delay) => PauseTubeExact(s, c, name, delay, clock);
    case _ =>
  }

  lemma TookBackKeepsTubes(s: State, c: ConnId, late: set<JobId>, r: State)
    requires TookBack(s, c, late, r)
    ensures KeepsTubes(s, r)
  {}

  lemma FreedKeepsTubes(s: State, moved: set<JobId>, r: State)
    requires Freed(s, moved, r)
    ensures KeepsTubes(s, r)
  {}

  lemma RelinkedKeepsTubes(s: State, t: TubeId, name: string, r: State)
    requires Relinked(s, t, name, {}, r)
    ensures KeepsTubes(s, r)
  {}

  /** No job of s that could be in a container of tube t has gone elsewhere, and only d stopped watching. */
  lemma LeftEmpty(s: State, t: TubeId, r: State, d: ConnId)
    requires TubesOwn(s.jobs, s.tubes) && Waits(s) && t in s.tubes && Unreferenced(r, t)
    requires forall j :: j in s.jobs && s.jobs[j].state != Invalid ==> j in r.jobs && r.jobs[j].tube == s.jobs[j].tube
    requires forall w :: w in s.conns && w != d && s.conns[w].waiting ==> w in r.conns && r.conns[w].watch == s.conns[w].watch
    ensures s.tubes[t].ready == {} && s.tubes[t].delayed == {} && s.tubes[t].buried == []
    ensures forall w :: w in s.tubes[t].waiting.items ==> w == d
  {
    forall j, st ensures st != Invalid ==> !At(s.jobs, j, st, t) {}
    SomeItem(s.tubes[t].buried);
    hide TubesOwn;
    forall w | w in s.tubes[t].waiting.items ensures w == d { assert WaitsOn(s.conns, w, t); }
  }

  lemma ClosedKeepsJobs(s: State, d: ConnId, clock: Clock)
    requires Inv(s) && d in s.conns
    ensures var r := Close(s, d, clock);
            && (forall j :: j in s.jobs && s.jobs[j].state != Invalid ==> j in r.jobs && r.jobs[j].tube == s.jobs[j].tube)
            && (forall w :: w in s.conns && w != d ==> w in r.conns && r.conns[w].watch == s.conns[w].watch)
  {
    hide Inv, Close;
    CloseLeavesNoTrace(s, d, clock);
    LostIsUnread(s, d);
    var r := Close(s, d, clock);
    forall w | w in s.conns && w != d ensures w in r.conns && r.conns[w].watch == s.conns[w].watch {
      assert ConnServed(s.conns[w], r.conns[w]);
    }
    hide WaitsOn, ConnServed;
  }

  lemma LostIsUnread(s: State, d: ConnId)
    requires Inv(s) && d in s.conns
    ensures forall j :: j in Lost(s, d) ==> j in s.jobs && s.jobs[j].state == Invalid
  {
    hide Shape, TubesOwn, ConnsOwn, Waits, Phases, Counts, Memo, Refs, NoLostWakeup;
  }

  lemma OthersSafe(s: State, e: Event)
    requires Inv(s) && Enabled(s, e) && !IsJobEvent(e)
    ensures Safe(s, e)
  {
    hide Inv;
  }

  /** A tube disappears only when a connection uses another one, ignores it or closes; then nobody and
      nothing refers to it, it held no job in any list, and nobody waited on it but the one who left. */
  lemma FreedTubes(s: State, e: Event, clock: Clock, t: TubeId)
    requires Inv(s) && Enabled(s, e) && Monotone(clock) && t in s.tubes && t !in Step(s, e, clock).tubes
    ensures e.UseCmd? || e.IgnoreCmd? || e.Disconnect?
    ensures Unreferenced(Step(s, e, clock), t)
    ensures s.tubes[t].ready == {} && s.tubes[t].delayed == {} && s.tubes[t].buried == []
    ensures forall w :: w in s.tubes[t].waiting.items ==> e == Disconnect(w)
  {
    hide *;
    var r := Step(s, e, clock);
    if IsJobEvent(e) {
      JobEventKeepsTubes(s, e, clock);
      JobStepIs(s, e, clock);
      KeptIn(s, r, t);
      return;
    }
    OthersSafe(s, e);
    StepInv(s, e, clock);
    MissingIsUnreferenced(r, t);
    InvParts(s);
    MidParts(s, s.jobs, Nothing);
    OwnParts(s.jobs, s);
    if e.UseCmd? || e.IgnoreCmd? || e.Disconnect? {
      LeaverKeepsJobs(s, e, clock);
      LeftEmpty(s, t, r, e.c);
      LeaverWaits(s, e, t);
    } else {
      OtherEventKeepsTubes(s, e, clock);
      KeptIn(s, r, t);
    }
  }

  lemma KeptIn(s: State, r: State, t: TubeId)
    requires KeepsTubes(s, r) && t in s.tubes
    ensures t in r.tubes
  {}

  lemma LeaverKeepsJobs(s: State, e: Event, clock: Clock)
    requires Inv(s) && Enabled(s, e) && Monotone(clock) && (e.UseCmd? || e.IgnoreCmd? || e.Disconnect?)
    ensures var r := Step(s, e, clock);
            && (forall j :: j in s.jobs && s.jobs[j].state != Invalid ==> j in r.jobs && r.jobs[j].tube == s.jobs[j].tube)
            && (forall w :: w in s.conns && w != e.c && s.conns[w].waiting ==> w in r.conns && r.conns[w].watch == s.conns[w].watch)
  {
    hide Inv, Use, Ignore, Close, Monotone, Relinked, TubeFor, IsWatched, NoDup;
    match e
    case UseCmd(c, name) =>
      UseExact(s, c, name);
      RelinkedJobs(s, TubeFor(s, name), name, {s.conns[c].use}, Use(s, c, name));
    case IgnoreCmd(c, name) => IgnoreExact(s, c, name);
    case Disconnect(c) => ClosedKeepsJobs(s, c, clock);
  }

  /** A client that issues a command does not wait. */
  lemma LeaverWaits(s: State, e: Event, t: TubeId)
    requires Inv(s) && Enabled(s, e) && (e.UseCmd? || e.IgnoreCmd? || e.Disconnect?) && t in s.tubes
    ensures e.c in s.tubes[t].waiting.items ==> e.Disconnect?
  {
    hide Inv;
    if !e.Disconnect? {
      IdleFacts(s, e.c);
      WaitersWait(s, t, e.c);
    }
    hide Settled, Mid;
  }

  lemma WaitersWait(s: State, t: TubeId, c: ConnId)
    requires Inv(s) && t in s.tubes && c in s.conns && !s.conns[c].waiting
    ensures c !in s.tubes[t].waiting.items
  {
    hide Shape, Own, Phases, Counts, Memo, Refs, NoLostWakeup;
    assert !WaitsOn(s.conns, c, t);
  }
}
