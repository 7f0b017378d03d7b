/** Every move of a job out of or into a container keeps the invariant, with the job in
    flight excluded in between. */
module JobMoves {
  import opened Counting
  import opened Lists
  import opened State
  import opened Moves

  /** No job, tube or connection came or went, and their links are as before. */
  ghost predicate SameLinks(s: State, s2: State) {
    && s2.jobs.Keys == s.jobs.Keys
    && (forall j :: j in s.jobs ==> s2.jobs[j].tube == s.jobs[j].tube && s2.jobs[j].ttr == s.jobs[j].ttr)
    && s2.conns.Keys == s.conns.Keys
    && (forall c :: c in s.conns ==> s2.conns[c].use == s.conns[c].use && s2.conns[c].watch == s.conns[c].watch)
    && s2.tubes.Keys == s.tubes.Keys
    && (forall t :: t in s.tubes ==> SameTube(s.tubes[t], s2.tubes[t]))
    && s2.tubeList == s.tubeList && s2.nextTube == s.nextTube && s2.defaultTube == s.defaultTube
    && s2.nextJob == s.nextJob && s2.nextConn == s.nextConn
  }

  predicate SameTube(x: Tube, y: Tube) {
    && y.name == x.name && y.refs == x.refs && y.usingCnt == x.usingCnt && y.watchingCnt == x.watchingCnt
    && (0 <= x.pause ==> 0 <= y.pause)
  }

  ghost predicate SameWaiting(s: State, s2: State) {
    && s2.conns.Keys == s.conns.Keys
    && (forall c :: c in s.conns ==>
          s2.conns[c].waiting == s.conns[c].waiting && s2.conns[c].watch == s.conns[c].watch)
    && s2.tubes.Keys == s.tubes.Keys
    && (forall t :: t in s.tubes ==>
          s2.tubes[t].waiting == s.tubes[t].waiting && s2.tubes[t].waitingCnt == s.tubes[t].waitingCnt)
    && s2.waitingCnt == s.waitingCnt
  }

  /** s2 differs from s only in which containers hold which jobs and in the job records. */
  ghost predicate OnlyJobsMoved(s: State, s2: State) {
    SameLinks(s, s2) && SameWaiting(s, s2)
  }

  lemma FrameShape(s: State, s2: State)
    requires Shape(s) && SameLinks(s, s2)
    ensures Shape(s2)
  {
    assert forall c, t :: c in s2.conns && t in s2.conns[c].watch ==> c in s.conns && t in s.conns[c].watch;
    assert forall t :: t in s2.tubes ==> SameTube(s.tubes[t], s2.tubes[t]);
  }

  lemma FrameWaits(s: State, s2: State)
    requires Waits(s) && SameWaiting(s, s2)
    ensures Waits(s2)
  {
    CountSame(s.conns, s2.conns, IsWaiting());
    forall t | t in s2.tubes
      ensures forall c :: c in s2.tubes[t].waiting.items <==> WaitsOn(s2.conns, c, t)
    {
      forall c ensures WaitsOn(s2.conns, c, t) <==> WaitsOn(s.conns, c, t) {}
    }
  }

  lemma FrameRefs(s: State, s2: State)
    requires Refs(s) && SameLinks(s, s2)
    ensures Refs(s2)
  {
    forall t | t in s2.tubes ensures TubeRefs(s2, t, s2.tubes[t]) {
      assert TubeRefs(s, t, s.tubes[t]) && SameTube(s.tubes[t], s2.tubes[t]);
      CountSame(s.conns, s2.conns, Uses(t));
      CountSame(s.conns, s2.conns, Watches(t));
      CountSame(s.jobs, s2.jobs, InTube(t));
    }
  }

  /** One job, one connection and one tube changed, none of them in its links. */
  lemma OneOfEachFrame(s: State, s2: State, j: JobId, c: Option<ConnId>, t: TubeId)
    requires j in s.jobs && t in s.tubes && (c.Some? ==> c.value in s.conns)
    requires j in s2.jobs && s2.jobs == s.jobs[j := s2.jobs[j]]
    requires s2.jobs[j].tube == s.jobs[j].tube && s2.jobs[j].ttr == s.jobs[j].ttr
    requires t in s2.tubes && s2.tubes == s.tubes[t := s2.tubes[t]] && SameTube(s.tubes[t], s2.tubes[t])
    requires s2.tubes[t].waiting == s.tubes[t].waiting && s2.tubes[t].waitingCnt == s.tubes[t].waitingCnt
    requires c.None? ==> s2.conns == s.conns
    requires c.Some? ==> c.value in s2.conns && s2.conns == s.conns[c.value := s2.conns[c.value]]
    requires c.Some? ==>
               && s2.conns[c.value].use == s.conns[c.value].use && s2.conns[c.value].watch == s.conns[c.value].watch
               && s2.conns[c.value].waiting == s.conns[c.value].waiting
    requires s2.tubeList == s.tubeList && s2.nextTube == s.nextTube && s2.defaultTube == s.defaultTube
    requires s2.nextJob == s.nextJob && s2.nextConn == s.nextConn && s2.waitingCnt == s.waitingCnt
    ensures OnlyJobsMoved(s, s2)
  {
    forall u | u in s.tubes ensures SameTube(s.tubes[u], s2.tubes[u]) {}
  }

  lemma MovedParts(s: State, s2: State)
    ensures OnlyJobsMoved(s, s2) <==> (SameLinks(s, s2) && SameWaiting(s, s2))
  {}

  /** How the counters of tube t change when job x stops being counted. */
  ghost predicate TubeDrop(x: Job, t: TubeId, a: Tube, b: Tube) {
    && b.urgentCnt == a.urgentCnt - One(t == x.tube && x.state == Ready && IsUrgent(x))
    && b.reservedCnt == a.reservedCnt - One(t == x.tube && x.state == Reserved)
    && b.buriedCnt == a.buriedCnt - One(t == x.tube && x.state == Buried)
  }

  /** How all counters change when job x stops being counted. */
  ghost predicate Drop(x: Job, s: State, s2: State) {
    && s2.readyCnt == s.readyCnt - One(x.state == Ready)
    && s2.urgentCnt == s.urgentCnt - One(x.state == Ready && IsUrgent(x))
    && s2.reservedCnt == s.reservedCnt - One(x.state == Reserved)
    && s2.buriedCnt == s.buriedCnt - One(x.state == Buried)
    && s2.tubes.Keys == s.tubes.Keys
    && (forall t :: t in s.tubes ==> TubeDrop(x, t, s.tubes[t], s2.tubes[t]))
  }

  lemma TubeCountsDrop(jobs: map<JobId, Job>, j: JobId, t: TubeId, a: Tube, b: Tube, d: Slack)
    requires j in jobs && TubeDrop(jobs[j], t, a, b)
    ensures TubeCounts(jobs, t, a, d) <==> TubeCounts(jobs - {j}, t, b, d)
  {
    CountDrop(jobs, j, UrgentIn(t));
    CountDrop(jobs, j, StateIn(Reserved, t));
    CountDrop(jobs, j, StateIn(Buried, t));
  }

  /** Counting job j and not counting it are the same claim about different counters. */
  lemma CountsDrop(jobs: map<JobId, Job>, j: JobId, s: State, s2: State, d: Slack)
    requires j in jobs && Drop(jobs[j], s, s2)
    ensures Counts(jobs, s, d) <==> Counts(jobs - {j}, s2, d)
  {
    CountDrop(jobs, j, HasState(Ready));
    CountDrop(jobs, j, Urgent());
    CountDrop(jobs, j, HasState(Reserved));
    CountDrop(jobs, j, HasState(Buried));
    forall t | t in s.tubes
      ensures TubeCounts(jobs, t, s.tubes[t], d) <==> TubeCounts(jobs - {j}, t, s2.tubes[t], d)
    {
      TubeCountsDrop(jobs, j, t, s.tubes[t], s2.tubes[t], d);
    }
  }

  // ----- composing the parts -----

  lemma MidParts(s: State, live: map<JobId, Job>, d: Slack)
    ensures Mid(s, live, d) <==>
            (Shape(s) && Own(live, s) && Waits(s) && Phases(live, s, d) && Counts(live, s, d) && Memo(s, d) && Refs(s))
  {}

  /** Job j left its container: what remains to be shown is where the other jobs are. */
  lemma LeaveMid(s: State, s2: State, j: JobId, d: Slack)
    requires Mid(s, s.jobs, d) && j in s.jobs
    requires OnlyJobsMoved(s, s2) && Drop(s.jobs[j], s, s2)
    requires Own(s.jobs - {j}, s2) && Phases(s.jobs - {j}, s2, d) && Memo(s2, d)
    ensures Mid(s2, s.jobs - {j}, d)
  {
    hide *;
    MidParts(s, s.jobs, d);
    MidParts(s2, s.jobs - {j}, d);
    MovedParts(s, s2);
    FrameShape(s, s2);
    FrameWaits(s, s2);
    FrameRefs(s, s2);
    CountsDrop(s.jobs, j, s, s2, d);
  }

  predicate NothingOwed(d: Slack) { d == Nothing || (d.Loose? && d.owed == None) }

  lemma CountsSlack(live: map<JobId, Job>, s: State, d: Slack, e: Slack)
    requires NothingOwed(d) && NothingOwed(e)
    ensures Counts(live, s, d) <==> Counts(live, s, e)
  {
    hide Count;
    assert OwedAll(d) == OwedAll(e) && forall t :: OwedIn(d, t) == OwedIn(e, t);
    assert forall t, x :: TubeCounts(live, t, x, d) <==> TubeCounts(live, t, x, e);
  }

  /** Job j came in: s2 counts it, s did not. */
  lemma EnterMid(s: State, s2: State, j: JobId, d: Slack)
    requires j in s.jobs && j in s2.jobs && s2.jobs - {j} == s.jobs - {j} && Mid(s, s.jobs - {j}, d)
    requires OnlyJobsMoved(s, s2) && Drop(s2.jobs[j], s2, s)
    requires Own(s2.jobs, s2) && Phases(s2.jobs, s2, d) && Memo(s2, d)
    ensures Mid(s2, s2.jobs, d)
  {
    hide *;
    MidParts(s, s.jobs - {j}, d);
    MidParts(s2, s2.jobs, d);
    MovedParts(s, s2);
    FrameShape(s, s2);
    FrameWaits(s, s2);
    FrameRefs(s, s2);
    CountsDrop(s2.jobs, j, s2, s, d);
  }

  /** Taking one job out of the view changes only the claims about that job. */
  lemma LiveWithout(jobs: map<JobId, Job>, j: JobId)
    ensures forall k, st, t :: At(jobs - {j}, k, st, t) <==> At(jobs, k, st, t) && k != j
    ensures forall k, c :: Held(jobs - {j}, k, c) <==> Held(jobs, k, c) && k != j
  {}

  lemma IncomingFrame(live: map<JobId, Job>, live2: map<JobId, Job>, conns: map<ConnId, Conn>, conns2: map<ConnId, Conn>)
    requires Incoming(live, conns) && conns2.Keys == conns.Keys
    requires forall c :: c in conns ==> conns2[c].inJob == conns[c].inJob
    requires forall j :: (j in live && live[j].state == Invalid) <==> (j in live2 && live2[j].state == Invalid)
    ensures Incoming(live2, conns2)
  {
    forall j | j in live2 && live2[j].state == Invalid ensures exists c :: c in conns2 && conns2[c].inJob == Some(j) {
      var c :| c in conns && conns[c].inJob == Some(j);
      assert c in conns2;
    }
  }

  /** Records that agree on what places a job. */
  ghost predicate SamePlaces(live: map<JobId, Job>, live2: map<JobId, Job>) {
    && live2.Keys == live.Keys
    && forall j :: j in live ==>
         live2[j].state == live[j].state && live2[j].tube == live[j].tube && live2[j].reserver == live[j].reserver
  }

  lemma SamePlacesAt(live: map<JobId, Job>, live2: map<JobId, Job>)
    requires SamePlaces(live, live2)
    ensures forall j, st, t :: At(live2, j, st, t) <==> At(live, j, st, t)
    ensures forall j, c :: Held(live2, j, c) <==> Held(live, j, c)
  {}

  lemma TubesOwnFrame(live: map<JobId, Job>, live2: map<JobId, Job>, tubes: map<TubeId, Tube>, tubes2: map<TubeId, Tube>)
    requires TubesOwn(live, tubes) && SamePlaces(live, live2) && tubes2.Keys == tubes.Keys
    requires forall t :: t in tubes ==> tubes2[t].ready == tubes[t].ready
    requires forall t :: t in tubes ==> tubes2[t].delayed == tubes[t].delayed
    requires forall t :: t in tubes ==> tubes2[t].buried == tubes[t].buried
    ensures TubesOwn(live2, tubes2)
  {
    SamePlacesAt(live, live2);
    hide At, NoDup, SamePlaces;
  }

  lemma ConnsOwnFrame(live: map<JobId, Job>, live2: map<JobId, Job>, conns: map<ConnId, Conn>, conns2: map<ConnId, Conn>)
    requires ConnsOwn(live, conns) && SamePlaces(live, live2) && conns2.Keys == conns.Keys
    requires forall c :: c in conns ==> conns2[c].reserved == conns[c].reserved
    ensures ConnsOwn(live2, conns2)
  {
    SamePlacesAt(live, live2);
    hide Held, NoDup;
  }

  // ----- out of a container -----

  lemma ReadyRemoveParts(s: State, j: JobId, d: Slack)
    requires Own(s.jobs, s) && Phases(s.jobs, s, d) && Memo(s, d) && Known(s, j) && s.jobs[j].state == Ready
    ensures Own(s.jobs - {j}, ReadyRemove(s, j)) && Phases(s.jobs - {j}, ReadyRemove(s, j), d)
    ensures Memo(ReadyRemove(s, j), d)
  {
    hide Incoming;
    LiveWithout(s.jobs, j);
    ReadyRemoveIncoming(s, j);
  }

  lemma ReadyRemoveIncoming(s: State, j: JobId)
    requires Incoming(s.jobs, s.conns) && Known(s, j) && s.jobs[j].state == Ready
    ensures Incoming(s.jobs - {j}, ReadyRemove(s, j).conns)
  {}

  lemma ReadyRemoveFrame(s: State, j: JobId)
    requires Known(s, j) && s.jobs[j].state == Ready
    ensures OnlyJobsMoved(s, ReadyRemove(s, j)) && Drop(s.jobs[j], s, ReadyRemove(s, j))
  {
    OneOfEachFrame(s, ReadyRemove(s, j), j, None, s.jobs[j].tube);
    hide OnlyJobsMoved;
  }

  lemma ReadyRemoveMid(s: State, j: JobId, d: Slack)
    requires Mid(s, s.jobs, d) && Known(s, j) && s.jobs[j].state == Ready
    ensures Mid(ReadyRemove(s, j), s.jobs - {j}, d)
  {
    assert j in s.jobs;
    hide *;
    MidParts(s, s.jobs, d);
    ReadyRemoveParts(s, j, d);
    ReadyRemoveFrame(s, j);
    LeaveMid(s, ReadyRemove(s, j), j, d);
  }

  lemma DelayRemoveParts(s: State, j: JobId, d: Slack)
    requires Own(s.jobs, s) && Phases(s.jobs, s, d) && Memo(s, d) && Known(s, j) && s.jobs[j].state == Delayed
    ensures Own(s.jobs - {j}, DelayRemove(s, j)) && Phases(s.jobs - {j}, DelayRemove(s, j), d)
    ensures Memo(DelayRemove(s, j), d)
  {
    LiveWithout(s.jobs, j);
  }

  lemma DelayRemoveFrame(s: State, j: JobId)
    requires Known(s, j) && s.jobs[j].state == Delayed
    ensures OnlyJobsMoved(s, DelayRemove(s, j)) && Drop(s.jobs[j], s, DelayRemove(s, j))
  {}

  lemma DelayRemoveMid(s: State, j: JobId, d: Slack)
    requires Mid(s, s.jobs, d) && Known(s, j) && s.jobs[j].state == Delayed
    ensures Mid(DelayRemove(s, j), s.jobs - {j}, d)
  {
    assert j in s.jobs;
    hide *;
    MidParts(s, s.jobs, d);
    DelayRemoveParts(s, j, d);
    DelayRemoveFrame(s, j);
    LeaveMid(s, DelayRemove(s, j), j, d);
  }

  lemma BuriedPopOwn(s: State, t: TubeId, j: JobId)
    requires Own(s.jobs, s) && t in s.tubes && s.tubes[t].buried != [] && j == s.tubes[t].buried[0]
    ensures At(s.jobs, j, Buried, t) && Own(s.jobs - {j}, BuriedPop(s, t))
  {
    hide Incoming;
    var b := s.tubes[t].buried;
    assert b == [j] + b[1..] && j in b;
    LiveWithout(s.jobs, j);
    assert forall k :: k in b[1..] <==> k in b && k != j;
    BuriedPopIncoming(s, t, j);
  }

  lemma BuriedPopIncoming(s: State, t: TubeId, j: JobId)
    requires Incoming(s.jobs, s.conns) && At(s.jobs, j, Buried, t) && t in s.tubes && s.tubes[t].buried != []
    ensures Incoming(s.jobs - {j}, BuriedPop(s, t).conns)
  {}

  lemma BuriedPopRest(s: State, t: TubeId, j: JobId, d: Slack)
    requires Phases(s.jobs, s, d) && Memo(s, d) && t in s.tubes && s.tubes[t].buried != []
    requires At(s.jobs, j, Buried, t)
    ensures Phases(s.jobs - {j}, BuriedPop(s, t), d) && Memo(BuriedPop(s, t), d)
    ensures Drop(s.jobs[j], s, BuriedPop(s, t)) && OnlyJobsMoved(s, BuriedPop(s, t))
  {
    LiveWithout(s.jobs, j);
  }

  lemma BuriedPopMid(s: State, t: TubeId, d: Slack)
    requires Mid(s, s.jobs, d) && t in s.tubes && s.tubes[t].buried != []
    ensures At(s.jobs, s.tubes[t].buried[0], Buried, t)
    ensures Mid(BuriedPop(s, t), s.jobs - {s.tubes[t].buried[0]}, d)
  {
    var j := s.tubes[t].buried[0];
    assert At(s.jobs, j, Buried, t) ==> j in s.jobs;
    hide *;
    MidParts(s, s.jobs, d);
    BuriedPopOwn(s, t, j);
    BuriedPopRest(s, t, j, d);
    LeaveMid(s, BuriedPop(s, t), j, d);
  }

  lemma ReservedRemoveConns(s: State, c: ConnId, j: JobId)
    requires ConnsOwn(s.jobs, s.conns) && c in s.conns && Known(s, j) && j in s.conns[c].reserved
    ensures s.jobs[j].state == Reserved
    ensures ConnsOwn(s.jobs - {j}, ReservedRemove(s, c, j).conns)
  {
    LiveWithout(s.jobs, j);
    UnlinkMembers(s.conns[c].reserved, j);
  }

  lemma ReservedRemoveTubes(s: State, c: ConnId, j: JobId)
    requires TubesOwn(s.jobs, s.tubes) && Incoming(s.jobs, s.conns)
    requires c in s.conns && Known(s, j) && s.jobs[j].state == Reserved
    ensures TubesOwn(s.jobs - {j}, ReservedRemove(s, c, j).tubes)
    ensures Incoming(s.jobs - {j}, ReservedRemove(s, c, j).conns)
  {
    IncomingFrame(s.jobs, s.jobs - {j}, s.conns, ReservedRemove(s, c, j).conns);
    hide Incoming;
    LiveWithout(s.jobs, j);
  }

  lemma ReservedRemoveRest(s: State, c: ConnId, j: JobId, d: Slack)
    requires ConnsOwn(s.jobs, s.conns) && Phases(s.jobs, s, d) && Memo(s, d)
    requires c in s.conns && Known(s, j) && j in s.conns[c].reserved && s.conns[c].out != Live(j)
    ensures Phases(s.jobs - {j}, ReservedRemove(s, c, j), d)
    ensures Memo(ReservedRemove(s, c, j), d)
  {
    hide ConnOk, Unlink;
    LiveWithout(s.jobs, j);
    UnlinkMembers(s.conns[c].reserved, j);
    ReservedRemovePhases(s, c, j, d);
  }

  lemma ReservedRemovePhases(s: State, c: ConnId, j: JobId, d: Slack)
    requires ConnsOwn(s.jobs, s.conns) && Phases(s.jobs, s, d)
    requires c in s.conns && Known(s, j) && j in s.conns[c].reserved && s.conns[c].out != Live(j)
    ensures Phases(s.jobs - {j}, ReservedRemove(s, c, j), d)
  {
    hide Unlink, NoDup;
    LiveWithout(s.jobs, j);
  }

  lemma ReservedRemoveFrame(s: State, c: ConnId, j: JobId)
    requires c in s.conns && Known(s, j) && s.jobs[j].state == Reserved
    ensures OnlyJobsMoved(s, ReservedRemove(s, c, j)) && Drop(s.jobs[j], s, ReservedRemove(s, c, j))
  {
    OneOfEachFrame(s, ReservedRemove(s, c, j), j, Some(c), s.jobs[j].tube);
    hide OnlyJobsMoved;
  }

  lemma ReservedRemoveMid(s: State, c: ConnId, j: JobId, d: Slack)
    requires Mid(s, s.jobs, d)
    requires c in s.conns && Known(s, j) && j in s.conns[c].reserved && s.conns[c].out != Live(j)
    ensures s.jobs[j].state == Reserved
    ensures Mid(ReservedRemove(s, c, j), s.jobs - {j}, d)
  {
    var s2 := ReservedRemove(s, c, j);
    hide *;
    MidParts(s, s.jobs, d);
    OwnParts(s.jobs, s);
    OwnParts(s.jobs - {j}, s2);
    ReservedRemoveConns(s, c, j);
    ReservedRemoveTubes(s, c, j);
    ReservedRemoveRest(s, c, j, d);
    ReservedRemoveFrame(s, c, j);
    LeaveMid(s, s2, j, d);
  }

  lemma OwnParts(live: map<JobId, Job>, s: State)
    ensures Own(live, s) <==> (TubesOwn(live, s.tubes) && ConnsOwn(live, s.conns) && Incoming(live, s.conns))
  {}

  // ----- a job in flight -----

  lemma TweakRest(s: State, j: JobId, x: Job, d: Slack)
    requires j in s.jobs && ConnsOwn(s.jobs - {j}, s.conns)
    requires Own(s.jobs - {j}, s) && Phases(s.jobs - {j}, s, d) && Memo(s, d)
    ensures Own(s.jobs - {j}, PutJob(s, j, x)) && Phases(s.jobs - {j}, PutJob(s, j, x), d)
    ensures Memo(PutJob(s, j, x), d)
  {
    hide TubesOwn, Incoming;
    LiveWithout(s.jobs, j);
  }

  lemma TweakFrame(s: State, j: JobId, x: Job, d: Slack)
    requires j in s.jobs && x.tube == s.jobs[j].tube && x.ttr == s.jobs[j].ttr
    ensures OnlyJobsMoved(s, PutJob(s, j, x)) && PutJob(s, j, x).jobs - {j} == s.jobs - {j}
    ensures Counts(s.jobs - {j}, s, d) ==> Counts(s.jobs - {j}, PutJob(s, j, x), d)
  {}

  /** Fields of a job in flight may change, all but its tube and its time to run. */
  lemma TweakMid(s: State, j: JobId, x: Job, d: Slack)
    requires j in s.jobs && Mid(s, s.jobs - {j}, d) && x.tube == s.jobs[j].tube && x.ttr == s.jobs[j].ttr
    ensures Mid(PutJob(s, j, x), s.jobs - {j}, d) && PutJob(s, j, x).jobs - {j} == s.jobs - {j}
  {
    var s2 := PutJob(s, j, x);
    hide *;
    MidParts(s, s.jobs - {j}, d);
    OwnParts(s.jobs - {j}, s);
    MidParts(s2, s.jobs - {j}, d);
    TweakFrame(s, j, x, d);
    MovedParts(s, s2);
    FrameShape(s, s2);
    FrameWaits(s, s2);
    FrameRefs(s, s2);
    TweakRest(s, j, x, d);
  }

  // ----- into a container -----

  lemma LiveWith(jobs: map<JobId, Job>, j: JobId, x: Job)
    ensures forall k: JobId, st: JobState, t: TubeId ::
      At(jobs[j := x], k, st, t) <==> (if k == j then x.state == st && x.tube == t else At(jobs - {j}, k, st, t))
    ensures forall k: JobId, c: ConnId ::
      Held(jobs[j := x], k, c) <==> (if k == j then x.state == Reserved && x.reserver == Some(c) else Held(jobs - {j}, k, c))
    ensures jobs[j := x] - {j} == jobs - {j}
  {
    var m := jobs[j := x];
    forall k: JobId, st: JobState, t: TubeId
      ensures At(m, k, st, t) <==> (if k == j then x.state == st && x.tube == t else At(jobs - {j}, k, st, t))
    {
      assert k in m ==> m[k] == if k == j then x else jobs[k];
    }
    forall k: JobId, c: ConnId
      ensures Held(m, k, c) <==> (if k == j then x.state == Reserved && x.reserver == Some(c) else Held(jobs - {j}, k, c))
    {
      assert k in m ==> m[k] == if k == j then x else jobs[k];
    }
  }

  lemma InsertReadyTubes(s: State, j: JobId, clock: Clock)
    requires Known(s, j) && TubesOwn(s.jobs - {j}, s.tubes)
    ensures TubesOwn(Insert(s, j, 0, clock).jobs, Insert(s, j, 0, clock).tubes)
  {
    LiveWith(s.jobs, j, Insert(s, j, 0, clock).jobs[j]);
  }

  lemma InsertDelayedTubes(s: State, j: JobId, delay: int, clock: Clock)
    requires Known(s, j) && TubesOwn(s.jobs - {j}, s.tubes) && delay != 0
    ensures TubesOwn(Insert(s, j, delay, clock).jobs, Insert(s, j, delay, clock).tubes)
  {
    LiveWith(s.jobs, j, Insert(s, j, delay, clock).jobs[j]);
  }

  /** A job that enters a tube's container is no connection's business. */
  lemma EnterTubeConns(s: State, s2: State, j: JobId, d: Slack)
    requires j in s.jobs && ConnsOwn(s.jobs - {j}, s.conns) && Incoming(s.jobs - {j}, s.conns)
    requires Phases(s.jobs - {j}, s, d) && Memo(s, d)
    requires s2.conns == s.conns && j in s2.jobs && s2.jobs == s.jobs[j := s2.jobs[j]]
    requires s2.jobs[j].state in {Ready, Delayed, Buried} && s2.jobs[j].reserver == None
    ensures ConnsOwn(s2.jobs, s2.conns) && Incoming(s2.jobs, s2.conns) && Phases(s2.jobs, s2, d) && Memo(s2, d)
  {
    hide Incoming, At, NoDup;
    LiveWith(s.jobs, j, s2.jobs[j]);
    IncomingFrame(s.jobs - {j}, s2.jobs, s.conns, s2.conns);
  }

  lemma InsertDrop(s: State, j: JobId, delay: int, clock: Clock)
    requires Known(s, j)
    ensures Drop(Insert(s, j, delay, clock).jobs[j], Insert(s, j, delay, clock), s)
  {}

  lemma InsertFrame(s: State, j: JobId, delay: int, clock: Clock)
    requires Known(s, j)
    ensures var s2 := Insert(s, j, delay, clock);
            && OnlyJobsMoved(s, s2) && s2.jobs - {j} == s.jobs - {j}
            && s2.conns == s.conns && s2.jobs == s.jobs[j := s2.jobs[j]]
            && s2.jobs[j].state in {Ready, Delayed} && s2.jobs[j].reserver == None
  {
    var s2 := Insert(s, j, delay, clock);
    OneOfEachFrame(s, s2, j, None, s.jobs[j].tube);
    hide OnlyJobsMoved;
  }

  lemma InsertMid(s: State, j: JobId, delay: int, clock: Clock, d: Slack)
    requires Known(s, j) && Mid(s, s.jobs - {j}, d)
    ensures Mid(Insert(s, j, delay, clock), Insert(s, j, delay, clock).jobs, d)
  {
    var s2 := Insert(s, j, delay, clock);
    assert j in s.jobs && j in s2.jobs;
    assert s2.jobs[j].state in {Ready, Delayed} ==> s2.jobs[j].state in {Ready, Delayed, Buried};
    hide *;
    MidParts(s, s.jobs - {j}, d);
    OwnParts(s.jobs - {j}, s);
    OwnParts(s2.jobs, s2);
    InsertFrame(s, j, delay, clock);
    InsertDrop(s, j, delay, clock);
    if delay == 0 { InsertReadyTubes(s, j, clock); } else { InsertDelayedTubes(s, j, delay, clock); }
    EnterTubeConns(s, s2, j, d);
    EnterMid(s, s2, j, d);
  }

  lemma BuryTubes(s: State, j: JobId)
    requires Known(s, j) && TubesOwn(s.jobs - {j}, s.tubes)
    ensures TubesOwn(BuryJob(s, j).jobs, BuryJob(s, j).tubes)
  {
    LiveWith(s.jobs, j, BuryJob(s, j).jobs[j]);
    assert j !in s.tubes[s.jobs[j].tube].buried;
  }

  lemma BuryFrame(s: State, j: JobId)
    requires Known(s, j)
    ensures var s2 := BuryJob(s, j);
            && OnlyJobsMoved(s, s2) && Drop(s2.jobs[j], s2, s) && s2.jobs - {j} == s.jobs - {j}
            && s2.conns == s.conns && s2.jobs == s.jobs[j := s2.jobs[j]]
            && s2.jobs[j].state == Buried && s2.jobs[j].reserver == None
  {
    OneOfEachFrame(s, BuryJob(s, j), j, None, s.jobs[j].tube);
    hide OnlyJobsMoved;
  }

  lemma BuryMid(s: State, j: JobId, d: Slack)
    requires Known(s, j) && Mid(s, s.jobs - {j}, d)
    ensures Mid(BuryJob(s, j), BuryJob(s, j).jobs, d)
  {
    var s2 := BuryJob(s, j);
    assert j in s.jobs && j in s2.jobs;
    hide *;
    MidParts(s, s.jobs - {j}, d);
    OwnParts(s.jobs - {j}, s);
    OwnParts(s2.jobs, s2);
    BuryFrame(s, j);
    BuryTubes(s, j);
    EnterTubeConns(s, s2, j, d);
    EnterMid(s, s2, j, d);
  }

  /** job_free of a job that is in no container. */
  ghost function FreeJob(s: State, j: JobId): State { s.(jobs := s.jobs - {j}) }

  lemma FreeRefs(s: State, j: JobId)
    requires Refs(s) && j in s.jobs
    ensures Refs(FreeJob(s, j))
  {
    var s2 := FreeJob(s, j);
    forall t | t in s2.tubes ensures TubeRefs(s2, t, s2.tubes[t]) {
      assert TubeRefs(s, t, s.tubes[t]);
      CountDrop(s.jobs, j, InTube(t));
    }
  }

  lemma FreeMemo(s: State, j: JobId, d: Slack)
    requires Memo(s, d) && ConnsOwn(s.jobs - {j}, s.conns)
    ensures Memo(FreeJob(s, j), d)
  {
    LiveWithout(s.jobs, j);
  }

  lemma FreeShape(s: State, j: JobId)
    requires Shape(s)
    ensures Shape(FreeJob(s, j))
  {}

  lemma FreeSame(s: State, j: JobId, d: Slack)
    ensures Waits(s) ==> Waits(FreeJob(s, j))
    ensures Phases(s.jobs - {j}, s, d) ==> Phases(FreeJob(s, j).jobs, FreeJob(s, j), d)
    ensures Own(s.jobs - {j}, s) ==> Own(FreeJob(s, j).jobs, FreeJob(s, j))
    ensures Counts(s.jobs - {j}, s, d) ==> Counts(FreeJob(s, j).jobs, FreeJob(s, j), d)
  {
    hide TubesOwn, ConnsOwn, Incoming, TubeCounts, ConnOk, WaitsOn;
  }

  lemma FreeMid(s: State, j: JobId, d: Slack)
    requires j in s.jobs && Mid(s, s.jobs - {j}, d)
    ensures Mid(FreeJob(s, j), FreeJob(s, j).jobs, d)
  {
    hide *;
    MidParts(s, s.jobs - {j}, d);
    OwnParts(s.jobs - {j}, s);
    MidParts(FreeJob(s, j), FreeJob(s, j).jobs, d);
    FreeRefs(s, j);
    FreeMemo(s, j, d);
    FreeShape(s, j);
    FreeSame(s, j, d);
  }
}
