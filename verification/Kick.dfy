/** The command kick: which jobs it lets go. */
module Kick {
  import opened Lists
  import opened State
  import opened Moves
  import opened JobMoves
  import opened Queue
  import opened Steps
  import opened JobCommands

  ghost function CountKick(s: State, j: JobId): State
    requires j in s.jobs
  {
    PutJob(s, j, s.jobs[j].(kicks := s.jobs[j].kicks + 1))
  }

  /** kick_buried_job on a tube that has one. */
  ghost function KickBuried(s: State, t: TubeId, clock: Clock): (r: State)
    requires Settled(s) && t in s.tubes && s.tubes[t].buried != []
    ensures SameKeys(s, r) && Settled(r)
  {
    KickBuriedOk(s, t, clock);
    Enqueue(CountKick(BuriedPop(s, t), s.tubes[t].buried[0]), s.tubes[t].buried[0], 0, clock)
  }

  lemma KickBuriedMid(s: State, t: TubeId, clock: Clock, d: Slack)
    requires Mid(s, s.jobs, d) && t in s.tubes && s.tubes[t].buried != []
    ensures var j := s.tubes[t].buried[0];
            && At(s.jobs, j, Buried, t) && Known(s, j)
            && InFlight(CountKick(BuriedPop(s, t), j), j)
            && var s2 := Enqueue(CountKick(BuriedPop(s, t), j), j, 0, clock);
               Mid(s2, s2.jobs, d) && NoLostWakeup(s2)
  {
    hide Mid, InFlight, NoLostWakeup, BuriedPop, Enqueue, Served;
    var j := s.tubes[t].buried[0];
    BuriedPopMid(s, t, d);
    BuriedPopEffect(s, t);
    var s1 := BuriedPop(s, t);
    TweakMid(s1, j, s1.jobs[j].(kicks := s1.jobs[j].kicks + 1), d);
    InFlightBy(CountKick(s1, j), j, d);
    EnqueueMid(CountKick(s1, j), j, 0, clock, d);
  }

  lemma KickBuriedOk(s: State, t: TubeId, clock: Clock)
    requires Settled(s) && t in s.tubes && s.tubes[t].buried != []
    ensures var j := s.tubes[t].buried[0];
            && Known(s, j) && At(s.jobs, j, Buried, t) && InFlight(CountKick(BuriedPop(s, t), j), j)
            && SameKeys(s, CountKick(BuriedPop(s, t), j))
            && Settled(Enqueue(CountKick(BuriedPop(s, t), j), j, 0, clock))
  {
    hide Mid, InFlight, NoLostWakeup, BuriedPop, Enqueue;
    var d :| Mid(s, s.jobs, d);
    KickBuriedMid(s, t, clock, d);
    BuriedPopEffect(s, t);
    SettledBy(Enqueue(CountKick(BuriedPop(s, t), s.tubes[t].buried[0]), s.tubes[t].buried[0], 0, clock), d);
  }

  /** kick_buried_jobs; rounds after the list ran empty change nothing. */
  ghost function KickBuriedJobs(s: State, t: TubeId, n: nat, clock: Clock): (r: State)
    requires Settled(s) && t in s.tubes
    ensures SameKeys(s, r)
    decreases n
  {
    hide Settled, KickBuried;
    if n == 0 || s.tubes[t].buried == [] then s
    else KickBuriedJobs(KickBuried(s, t, clock), t, n - 1, clock)
  }

  /** kick_delayed_job on a tube that has one. */
  ghost function KickDelayed(s: State, t: TubeId, clock: Clock): (r: State)
    requires Settled(s) && t in s.tubes && s.tubes[t].delayed != {}
    ensures SameKeys(s, r) && Settled(r)
  {
    KickDelayedOk(s, t, clock);
    Enqueue(CountKick(DelayRemove(s, NextDelayed(s, t)), NextDelayed(s, t)), NextDelayed(s, t), 0, clock)
  }

  lemma TopIsDue(jobs: map<JobId, Job>, s: set<JobId>, j: JobId)
    requires s <= jobs.Keys && IsTop(jobs, Deadline, s, j)
    ensures j in s && forall k :: k in s && k != j ==> k in jobs && DueEarlier(jobs, j, k)
  {}

  /** The root of the tube's delay heap. */
  ghost function NextDelayed(s: State, t: TubeId): (j: JobId)
    requires Settled(s) && t in s.tubes && s.tubes[t].delayed != {}
    ensures At(s.jobs, j, Delayed, t) && j in s.tubes[t].delayed && Known(s, j)
    ensures forall k :: k in s.tubes[t].delayed && k != j ==> k in s.jobs && DueEarlier(s.jobs, j, k)
  {
    SettledKnows(s);
    hide Settled, IsTop, DueEarlier, Less;
    var j := Top(s.jobs, Deadline, s.tubes[t].delayed);
    TopIsDue(s.jobs, s.tubes[t].delayed, j); j
  }

  lemma DelayRemoveEffect(s: State, j: JobId)
    requires Known(s, j)
    ensures var s2 := DelayRemove(s, j);
            && s2.conns == s.conns && s2.jobs == s.jobs && SameKeys(s, s2)
            && s2.tubes == s.tubes[s.jobs[j].tube := s.tubes[s.jobs[j].tube].(delayed := s.tubes[s.jobs[j].tube].delayed - {j})]
  {}

  lemma KickDelayedMid(s: State, t: TubeId, clock: Clock, d: Slack)
    requires Settled(s) && Mid(s, s.jobs, d) && t in s.tubes && s.tubes[t].delayed != {}
    ensures var j := NextDelayed(s, t);
            && InFlight(CountKick(DelayRemove(s, j), j), j)
            && var s2 := Enqueue(CountKick(DelayRemove(s, j), j), j, 0, clock);
               Mid(s2, s2.jobs, d) && NoLostWakeup(s2)
  {
    hide Mid, InFlight, NoLostWakeup, DelayRemove, Enqueue, Served, Settled;
    var j := NextDelayed(s, t);
    DelayRemoveMid(s, j, d);
    DelayRemoveEffect(s, j);
    var s1 := DelayRemove(s, j);
    TweakMid(s1, j, s1.jobs[j].(kicks := s1.jobs[j].kicks + 1), d);
    InFlightBy(CountKick(s1, j), j, d);
    EnqueueMid(CountKick(s1, j), j, 0, clock, d);
  }

  lemma KickDelayedOk(s: State, t: TubeId, clock: Clock)
    requires Settled(s) && t in s.tubes && s.tubes[t].delayed != {}
    ensures var j := NextDelayed(s, t);
            && InFlight(CountKick(DelayRemove(s, j), j), j)
            && SameKeys(s, CountKick(DelayRemove(s, j), j))
            && Settled(Enqueue(CountKick(DelayRemove(s, j), j), j, 0, clock))
  {
    hide Mid, InFlight, NoLostWakeup, DelayRemove, Enqueue;
    var d :| Mid(s, s.jobs, d);
    KickDelayedMid(s, t, clock, d);
    DelayRemoveEffect(s, NextDelayed(s, t));
    SettledBy(Enqueue(CountKick(DelayRemove(s, NextDelayed(s, t)), NextDelayed(s, t)), NextDelayed(s, t), 0, clock), d);
  }

  /** kick_delayed_jobs stops when the heap is empty; the result counts the rounds done. */
  ghost function KickDelayedJobs(s: State, t: TubeId, n: nat, clock: Clock): (r: (State, nat))
    requires Settled(s) && t in s.tubes
    ensures SameKeys(s, r.0)
    decreases n
  {
    hide Settled, KickDelayed;
    if n == 0 || s.tubes[t].delayed == {} then (s, 0)
    else
      var (r, k) := KickDelayedJobs(KickDelayed(s, t, clock), t, n - 1, clock);
      (r, k + 1)
  }

  /** OP_KICK on the tube the connection uses. With buried jobs the answer is always n. */
  ghost function KickJobs(s: State, c: ConnId, n: nat, clock: Clock): State
    requires Inv(s) && Idle(s, c)
  {
    KickOk(s, c);
    var t := s.conns[c].use;
    if s.tubes[t].buried != [] then SendReply(KickBuriedJobs(s, t, n, clock), c, Kicked(n))
    else
      var (r, k) := KickDelayedJobs(s, t, n, clock);
      SendReply(r, c, Kicked(k))
  }

  lemma KickOk(s: State, c: ConnId)
    requires Inv(s) && Idle(s, c)
    ensures Settled(s) && s.conns[c].use in s.tubes
  {
    SettledBy(s, Nothing);
  }

  // ----- kick keeps the invariant -----

  lemma {:induction false} KickBuriedJobsMid(s: State, t: TubeId, n: nat, clock: Clock)
    requires Settled(s) && Mid(s, s.jobs, Nothing) && NoLostWakeup(s) && t in s.tubes
    ensures Mid(KickBuriedJobs(s, t, n, clock), KickBuriedJobs(s, t, n, clock).jobs, Nothing)
    ensures NoLostWakeup(KickBuriedJobs(s, t, n, clock))
    decreases n
  {
    hide Settled, Mid, NoLostWakeup, InFlight, CountKick, BuriedPop, Enqueue;
    if n != 0 && s.tubes[t].buried != [] {
      KickBuriedMid(s, t, clock, Nothing);
      KickBuriedJobsMid(KickBuried(s, t, clock), t, n - 1, clock);
    }
  }

  lemma {:induction false} KickDelayedJobsMid(s: State, t: TubeId, n: nat, clock: Clock)
    requires Settled(s) && Mid(s, s.jobs, Nothing) && NoLostWakeup(s) && t in s.tubes
    ensures Mid(KickDelayedJobs(s, t, n, clock).0, KickDelayedJobs(s, t, n, clock).0.jobs, Nothing)
    ensures NoLostWakeup(KickDelayedJobs(s, t, n, clock).0)
    decreases n
  {
    hide Settled, Mid, NoLostWakeup, InFlight, CountKick, DelayRemove, Enqueue, NextDelayed;
    if n != 0 && s.tubes[t].delayed != {} {
      KickDelayedMid(s, t, clock, Nothing);
      KickDelayedJobsMid(KickDelayed(s, t, clock), t, n - 1, clock);
    }
  }

  // ----- which jobs move -----

  /** A delayed or buried job was let go: it is ready, or a connection that waited on its tube has it already. */
  ghost predicate JobFreed(s: State, x: Job, y: Job) {
    && (x.state == Delayed || x.state == Buried)
    && (y.state == Ready || (y.state == Reserved && y.reserver.Some? && WaitsOn(s.conns, y.reserver.value, x.tube)))
    && y.tube == x.tube && y.pri == x.pri && y.ttr == x.ttr
  }

  /** Exactly the jobs `moved` were let go; all other jobs and all connections are as they were, or
      were served by process_queue. */
  ghost predicate Freed(s: State, moved: set<JobId>, s2: State) {
    && SameKeys(s, s2) && moved <= s.jobs.Keys
    && (forall j :: j in s.jobs && j !in moved ==> JobServed(s, s.jobs[j], s2.jobs[j]))
    && (forall j :: j in moved ==> JobFreed(s, s.jobs[j], s2.jobs[j]))
    && (forall c :: c in s.conns ==> ConnServed(s.conns[c], s2.conns[c]))
  }

  /** Seen from one job, in two steps between which no connection began to wait. */
  lemma FreedTwice(a: State, b: State, x: Job, y: Job, z: Job)
    requires forall e, t :: WaitsOn(b.conns, e, t) ==> WaitsOn(a.conns, e, t)
    ensures JobServed(a, x, y) && JobServed(b, y, z) ==> JobServed(a, x, z)
    ensures JobFreed(a, x, y) && JobServed(b, y, z) ==> JobFreed(a, x, z)
    ensures JobServed(a, x, y) && JobFreed(b, y, z) ==> JobFreed(a, x, z)
  {
    hide WaitsOn;
  }

  lemma FreedWaiters(a: State, m: set<JobId>, b: State)
    requires Freed(a, m, b)
    ensures forall e, t :: WaitsOn(b.conns, e, t) ==> WaitsOn(a.conns, e, t)
  {
    forall e, t | WaitsOn(b.conns, e, t) ensures WaitsOn(a.conns, e, t) {
      assert ConnServed(a.conns[e], b.conns[e]);
    }
  }

  lemma FreedTrans(a: State, m: set<JobId>, b: State, n: set<JobId>, c: State)
    requires Freed(a, m, b) && Freed(b, n, c) && m !! n
    ensures Freed(a, m + n, c)
  {
    FreedWaiters(a, m, b);
    forall j | j in a.jobs
      ensures j !in m + n ==> JobServed(a, a.jobs[j], c.jobs[j])
      ensures j in m + n ==> JobFreed(a, a.jobs[j], c.jobs[j])
    {
      FreedTwice(a, b, a.jobs[j], b.jobs[j], c.jobs[j]);
    }
    hide JobServed, JobFreed, WaitsOn;
    forall k | k in a.conns ensures ConnServed(a.conns[k], c.conns[k]) {
      assert ConnServed(a.conns[k], b.conns[k]) && ConnServed(b.conns[k], c.conns[k]);
    }
    hide ConnServed;
  }

  lemma FreedNone(s: State)
    ensures Freed(s, {}, s)
  {}

  /** enqueue_job(j, 0) lets j go, whatever list it was taken from. */
  lemma EnqueueFreed(s: State, s1: State, j: JobId, clock: Clock)
    requires InFlight(s1, j) && j in s.jobs && (s.jobs[j].state == Delayed || s.jobs[j].state == Buried)
    requires SameKeys(s, s1) && s1.conns == s.conns && s1.jobs == s.jobs[j := s1.jobs[j]]
    requires s1.jobs[j].tube == s.jobs[j].tube && s1.jobs[j].pri == s.jobs[j].pri && s1.jobs[j].ttr == s.jobs[j].ttr
    ensures Freed(s, {j}, Enqueue(s1, j, 0, clock))
    ensures Enqueue(s1, j, 0, clock).jobs[j].kicks == s1.jobs[j].kicks
    ensures forall t :: t in s1.tubes ==>
              var x, y := s1.tubes[t], Enqueue(s1, j, 0, clock).tubes[t];
              y.delayed == x.delayed && y.buried == x.buried
  {
    hide InFlight, Mid, Enqueue, Served, NoLostWakeup;
    InFlightKnown(s1, j);
    assert exists d: Slack :: Mid(s1, s1.jobs - {j}, d) by { InFlightMid(s1, j); }
    var d :| Mid(s1, s1.jobs - {j}, d);
    EnqueueMid(s1, j, 0, clock, d);
    InsertEffect(s1, j, clock);
    ServedFreed(s, Insert(s1, j, 0, clock), j, Enqueue(s1, j, 0, clock));
    hide Insert;
    ServedTubes(Insert(s1, j, 0, clock), Enqueue(s1, j, 0, clock));
  }

  lemma InFlightMid(s: State, j: JobId)
    requires InFlight(s, j)
    ensures exists d: Slack :: Mid(s, s.jobs - {j}, d)
  {
    hide Mid;
  }

  lemma ServedTubes(s: State, s2: State)
    requires Served(s, s2)
    ensures SameKeys(s, s2)
    ensures forall t :: t in s.tubes ==> s2.tubes[t].delayed == s.tubes[t].delayed && s2.tubes[t].buried == s.tubes[t].buried
  {
    assert forall t :: t in s.tubes ==> TubeServed(s.tubes[t], s2.tubes[t]);
    hide Served;
  }

  lemma ServedFreed(s: State, s1: State, j: JobId, s2: State)
    requires Served(s1, s2) && SameKeys(s, s1) && s1.conns == s.conns
    requires j in s.jobs && (s.jobs[j].state == Delayed || s.jobs[j].state == Buried)
    requires s1.jobs == s.jobs[j := s1.jobs[j]] && s1.jobs[j].state == Ready
    requires s1.jobs[j].tube == s.jobs[j].tube && s1.jobs[j].pri == s.jobs[j].pri && s1.jobs[j].ttr == s.jobs[j].ttr
    ensures Freed(s, {j}, s2) && s2.jobs[j].kicks == s1.jobs[j].kicks
  {
    assert forall i :: i in s.jobs ==> JobServed(s1, s1.jobs[i], s2.jobs[i]);
    assert forall c :: c in s.conns ==> ConnServed(s1.conns[c], s2.conns[c]);
    assert SameKeys(s1, s2);
    hide Served;
  }

  /** The set of the first m items. */
  ghost function First(b: seq<JobId>, m: nat): set<JobId>
    requires m <= |b|
  {
    set j | j in b[..m]
  }

  function Min(a: nat, b: nat): nat { if a < b then a else b }

  /** One kick of a buried job lets go of the head of the list and nothing else. */
  lemma KickBuriedStep(s: State, t: TubeId, clock: Clock)
    requires Settled(s) && t in s.tubes && s.tubes[t].buried != []
    ensures var r, b := KickBuried(s, t, clock), s.tubes[t].buried;
            && Freed(s, {b[0]}, r) && r.tubes[t].buried == b[1..] && r.jobs[b[0]].kicks == s.jobs[b[0]].kicks + 1
            && (forall u :: u in s.tubes && u != t ==> r.tubes[u].buried == s.tubes[u].buried)
            && (forall u :: u in s.tubes ==> r.tubes[u].delayed == s.tubes[u].delayed)
  {
    hide Settled, InFlight, BuriedPop, Enqueue, Freed;
    KickBuriedOk(s, t, clock);
    BuriedPopEffect(s, t);
    var j := s.tubes[t].buried[0];
    EnqueueFreed(s, CountKick(BuriedPop(s, t), j), j, clock);
  }

  lemma SettledBuried(s: State, t: TubeId)
    requires Settled(s) && t in s.tubes
    ensures NoDup(s.tubes[t].buried)
  {
    var d :| Mid(s, s.jobs, d);
    hide Shape, ConnsOwn, Incoming, Waits, Phases, Counts, Memo, Refs;
  }

  /** What kick does to a tube with buried jobs: the first m of the list are let go. */
  ghost predicate HeadKicked(s: State, t: TubeId, m: nat, r: State)
    requires t in s.tubes && t in r.tubes
  {
    var b := s.tubes[t].buried;
    && SameKeys(s, r) && m <= |b| && r.tubes[t].buried == b[m..] && Freed(s, First(b, m), r)
    && (forall j :: j in First(b, m) ==> r.jobs[j].kicks == s.jobs[j].kicks + 1)
    && (forall u :: u in s.tubes && u != t ==> r.tubes[u].buried == s.tubes[u].buried)
    && (forall u :: u in s.tubes ==> r.tubes[u].delayed == s.tubes[u].delayed)
  }

  lemma HeadKickedNone(s: State, t: TubeId)
    requires t in s.tubes
    ensures HeadKicked(s, t, 0, s)
  {
    var b := s.tubes[t].buried;
    assert First(b, 0) == {} && b[0..] == b;
    FreedNone(s);
  }

  lemma HeadKickedOne(s: State, t: TubeId, clock: Clock)
    requires Settled(s) && t in s.tubes && s.tubes[t].buried != []
    ensures HeadKicked(s, t, 1, KickBuried(s, t, clock))
  {
    hide Settled, KickBuried, Freed;
    KickBuriedStep(s, t, clock);
    FirstOne(s.tubes[t].buried);
  }

  lemma HeadKickedCons(s: State, t: TubeId, s1: State, m: nat, r: State)
    requires t in s.tubes && t in s1.tubes && t in r.tubes && NoDup(s.tubes[t].buried) && |s.tubes[t].buried| > m
    requires HeadKicked(s, t, 1, s1) && HeadKicked(s1, t, m, r)
    ensures HeadKicked(s, t, m + 1, r)
  {
    hide Freed, NoDup, First;
    var b := s.tubes[t].buried;
    FirstCons(b, m + 1);
    FirstOne(b);
    KickBuriedJoin(s, s1, r, b[0], First(b[1..], m));
  }

  lemma FirstOne(b: seq<JobId>)
    requires b != []
    ensures First(b, 1) == {b[0]}
  {
    assert b[..1] == [b[0]];
  }

  /** kick on a tube with buried jobs: exactly the first min(n, len) of them, oldest first,
      become ready or are reserved at once; no delayed job moves. */
  lemma {:induction false} KickBuriedExact(s: State, t: TubeId, n: nat, clock: Clock)
    requires Settled(s) && t in s.tubes
    ensures HeadKicked(s, t, Min(n, |s.tubes[t].buried|), KickBuriedJobs(s, t, n, clock))
    decreases n
  {
    hide Settled, KickBuried, HeadKicked;
    var m := Min(n, |s.tubes[t].buried|);
    if m == 0 {
      HeadKickedNone(s, t);
    } else {
      var s1 := KickBuried(s, t, clock);
      HeadKickedOne(s, t, clock);
      KickBuriedExact(s1, t, n - 1, clock);
      SettledBuried(s, t);
      HeadKickedLen(s, t, s1);
      HeadKickedCons(s, t, s1, m - 1, KickBuriedJobs(s1, t, n - 1, clock));
    }
  }

  lemma HeadKickedLen(s: State, t: TubeId, s1: State)
    requires t in s.tubes && t in s1.tubes && HeadKicked(s, t, 1, s1)
    ensures |s1.tubes[t].buried| == |s.tubes[t].buried| - 1
  {}

  lemma FirstCons(b: seq<JobId>, m: nat)
    requires NoDup(b) && 0 < m <= |b|
    ensures First(b, m) == {b[0]} + First(b[1..], m - 1) && b[0] !in First(b[1..], m - 1)
    ensures b[1..][m - 1..] == b[m..]
  {
    assert b[..m] == [b[0]] + b[1..][..m - 1];
    assert forall j :: j in b[1..][..m - 1] ==> j in b[1..];
  }

  lemma KickBuriedJoin(s: State, s1: State, r: State, h: JobId, rest: set<JobId>)
    requires Freed(s, {h}, s1) && Freed(s1, rest, r) && h !in rest
    requires s1.jobs[h].kicks == s.jobs[h].kicks + 1
    requires forall j :: j in rest ==> r.jobs[j].kicks == s1.jobs[j].kicks + 1
    ensures Freed(s, {h} + rest, r)
    ensures forall j :: j in {h} + rest ==> r.jobs[j].kicks == s.jobs[j].kicks + 1
  {
    hide Freed;
    FreedTrans(s, {h}, s1, rest, r);
    forall j | j in {h} + rest ensures j in s.jobs && j in r.jobs && r.jobs[j].kicks == s.jobs[j].kicks + 1 {
      FreedKeys(s, {h} + rest, r, j);
      FreedKicks(s, {h}, s1, j);
      FreedKicks(s1, rest, r, j);
    }
  }

  lemma FreedKeys(s: State, m: set<JobId>, s2: State, j: JobId)
    requires Freed(s, m, s2) && j in m
    ensures j in s.jobs && j in s2.jobs
  {}

  lemma FreedKicks(s: State, m: set<JobId>, s2: State, j: JobId)
    requires Freed(s, m, s2) && j in s.jobs
    ensures j in s2.jobs && (j !in m ==> s2.jobs[j].kicks == s.jobs[j].kicks)
  {
    assert j !in m ==> JobServed(s, s.jobs[j], s2.jobs[j]);
  }

  /** One kick of a delayed job lets go of the top of the delay heap and nothing else. */
  lemma KickDelayedStep(s: State, t: TubeId, clock: Clock)
    requires Settled(s) && t in s.tubes && s.tubes[t].delayed != {}
    ensures var r, j := KickDelayed(s, t, clock), NextDelayed(s, t);
            && Freed(s, {j}, r) && r.tubes[t].delayed == s.tubes[t].delayed - {j}
            && r.jobs[j].kicks == s.jobs[j].kicks + 1
            && (forall u :: u in s.tubes && u != t ==> r.tubes[u].delayed == s.tubes[u].delayed)
            && (forall u :: u in s.tubes ==> r.tubes[u].buried == s.tubes[u].buried)
  {
    hide Settled, InFlight, DelayRemove, Enqueue, Freed, NextDelayed;
    KickDelayedOk(s, t, clock);
    var j := NextDelayed(s, t);
    DelayRemoveEffect(s, j);
    EnqueueFreed(s, CountKick(DelayRemove(s, j), j), j, clock);
  }

  /** The jobs that left the delay heap of tube t. */
  ghost function Gone(s: State, r: State, t: TubeId): set<JobId>
    requires t in s.tubes && t in r.tubes
  {
    s.tubes[t].delayed - r.tubes[t].delayed
  }

  /** What kick does to a tube without buried jobs: m jobs, the least of the delay heap in the
      order of job_delay_less, are let go; the others stay. */
  ghost predicate LeastKicked(s: State, t: TubeId, m: nat, r: State)
    requires t in s.tubes && t in r.tubes
  {
    && r.tubes[t].delayed <= s.tubes[t].delayed && |Gone(s, r, t)| == m
    && (forall i, k :: i in Gone(s, r, t) && k in r.tubes[t].delayed ==>
          i in s.jobs && k in s.jobs && DueEarlier(s.jobs, i, k))
    && Freed(s, Gone(s, r, t), r)
    && (forall i :: i in Gone(s, r, t) ==> r.jobs[i].kicks == s.jobs[i].kicks + 1)
    && (forall u :: u in s.tubes && u != t ==> r.tubes[u].delayed == s.tubes[u].delayed)
    && (forall u :: u in s.tubes ==> r.tubes[u].buried == s.tubes[u].buried)
  }

  lemma LeastKickedNone(s: State, t: TubeId)
    requires t in s.tubes
    ensures LeastKicked(s, t, 0, s)
  {
    assert Gone(s, s, t) == {};
    FreedNone(s);
  }

  /** The first kick of several: j, the top of the heap, is let go. */
  ghost predicate TopKicked(s: State, t: TubeId, j: JobId, s1: State) {
    && SameKeys(s, s1) && t in s.tubes && j in s.tubes[t].delayed && Freed(s, {j}, s1)
    && s1.tubes[t].delayed == s.tubes[t].delayed - {j} && j in s.jobs && s1.jobs[j].kicks == s.jobs[j].kicks + 1
    && (forall k :: k in s.tubes[t].delayed && k != j ==> At(s.jobs, k, Delayed, t) && DueEarlier(s.jobs, j, k))
    && (forall u :: u in s.tubes && u != t ==> s1.tubes[u].delayed == s.tubes[u].delayed)
    && (forall u :: u in s.tubes ==> s1.tubes[u].buried == s.tubes[u].buried)
  }

  lemma KickDelayedTop(s: State, t: TubeId, clock: Clock)
    requires Settled(s) && t in s.tubes && s.tubes[t].delayed != {}
    ensures TopKicked(s, t, NextDelayed(s, t), KickDelayed(s, t, clock))
  {
    hide Settled, KickDelayed, Freed, NextDelayed;
    KickDelayedStep(s, t, clock);
    SettledKnows(s);
  }

  lemma TopKickedKeeps(s: State, t: TubeId, j: JobId, s1: State)
    requires TopKicked(s, t, j, s1)
    ensures forall k :: k in s1.tubes[t].delayed ==> k in s1.jobs && k in s.jobs && s1.jobs[k] == s.jobs[k]
  {
    forall k | k in s1.tubes[t].delayed ensures k in s1.jobs && k in s.jobs && s1.jobs[k] == s.jobs[k] {
      assert At(s.jobs, k, Delayed, t) && JobServed(s, s.jobs[k], s1.jobs[k]);
    }
  }

  lemma TopKickedSize(s: State, t: TubeId, j: JobId, s1: State)
    requires TopKicked(s, t, j, s1)
    ensures |s1.tubes[t].delayed| == |s.tubes[t].delayed| - 1
  {}

  lemma LeastKickedOrder(s: State, t: TubeId, j: JobId, s1: State, m: nat, r: State)
    requires TopKicked(s, t, j, s1) && t in r.tubes && LeastKicked(s1, t, m, r)
    ensures t in s.tubes && t in s1.tubes && r.tubes[t].delayed <= s.tubes[t].delayed
    ensures |Gone(s, r, t)| == m + 1 && Gone(s, r, t) == {j} + Gone(s1, r, t)
    ensures forall i, k :: i in Gone(s, r, t) && k in r.tubes[t].delayed ==>
              i in s.jobs && k in s.jobs && DueEarlier(s.jobs, i, k)
  {
    hide Freed, JobServed, JobFreed, DueEarlier, At;
    TopKickedKeeps(s, t, j, s1);
    assert Gone(s, r, t) == {j} + Gone(s1, r, t);
    assert j !in Gone(s1, r, t);
    forall i, k | i in Gone(s, r, t) && k in r.tubes[t].delayed
      ensures i in s.jobs && k in s.jobs && DueEarlier(s.jobs, i, k)
    {
      assert k in s1.tubes[t].delayed;
      if i != j {
        assert i in s1.tubes[t].delayed && i in Gone(s1, r, t);
        SameDue(s1.jobs, s.jobs, i, k);
      }
    }
  }

  lemma SameDue(jobs: map<JobId, Job>, jobs2: map<JobId, Job>, i: JobId, k: JobId)
    requires i in jobs && k in jobs && i in jobs2 && k in jobs2 && jobs[i] == jobs2[i] && jobs[k] == jobs2[k]
    ensures DueEarlier(jobs, i, k) <==> DueEarlier(jobs2, i, k)
  {}

  lemma LeastKickedRest(s: State, t: TubeId, j: JobId, s1: State, m: nat, r: State)
    requires TopKicked(s, t, j, s1) && t in r.tubes && LeastKicked(s1, t, m, r)
    ensures t in s.tubes && t in s1.tubes
    ensures var rest := {j} + Gone(s1, r, t);
            Freed(s, rest, r) && SameKeys(s, r) && forall i :: i in rest ==> r.jobs[i].kicks == s.jobs[i].kicks + 1
    ensures forall u :: u in s.tubes && u != t ==> r.tubes[u].delayed == s.tubes[u].delayed
    ensures forall u :: u in s.tubes ==> r.tubes[u].buried == s.tubes[u].buried
  {
    FreedSame(s1, Gone(s1, r, t), r);
    hide Freed, DueEarlier, At;
    KickBuriedJoin(s, s1, r, j, Gone(s1, r, t));
  }

  lemma FreedSame(s: State, m: set<JobId>, s2: State)
    requires Freed(s, m, s2)
    ensures SameKeys(s, s2)
  {}

  lemma LeastKickedCons(s: State, t: TubeId, j: JobId, s1: State, m: nat, r: State)
    requires TopKicked(s, t, j, s1) && t in r.tubes && LeastKicked(s1, t, m, r)
    ensures t in s.tubes && LeastKicked(s, t, m + 1, r)
  {
    TopKickedIn(s, t, j, s1);
    hide TopKicked, Freed, DueEarlier, Gone, LeastKicked, SameKeys;
    LeastKickedOrder(s, t, j, s1, m, r);
    LeastKickedRest(s, t, j, s1, m, r);
    FreedSame(s, Gone(s, r, t), r);
    LeastKickedBy(s, t, m + 1, r);
  }

  lemma LeastKickedBy(s: State, t: TubeId, m: nat, r: State)
    requires t in s.tubes && t in r.tubes && SameKeys(s, r)
    requires r.tubes[t].delayed <= s.tubes[t].delayed && |Gone(s, r, t)| == m && Freed(s, Gone(s, r, t), r)
    requires forall i, k :: i in Gone(s, r, t) && k in r.tubes[t].delayed ==> i in s.jobs && k in s.jobs && DueEarlier(s.jobs, i, k)
    requires forall i :: i in Gone(s, r, t) ==> i in s.jobs && r.jobs[i].kicks == s.jobs[i].kicks + 1
    requires forall u :: u in s.tubes && u != t ==> r.tubes[u].delayed == s.tubes[u].delayed
    requires forall u :: u in s.tubes ==> r.tubes[u].buried == s.tubes[u].buried
    ensures LeastKicked(s, t, m, r)
  {
    hide Freed, DueEarlier;
  }

  lemma TopKickedIn(s: State, t: TubeId, j: JobId, s1: State)
    requires TopKicked(s, t, j, s1)
    ensures t in s.tubes && t in s1.tubes
  {}

  /** kick on a tube without buried jobs: exactly the min(n, len) least delayed jobs by
      (deadline, id) leave, the answer is their number, and no buried list changes. */
  lemma {:induction false} KickDelayedExact(s: State, t: TubeId, n: nat, clock: Clock)
    requires Settled(s) && t in s.tubes
    ensures var (r, k) := KickDelayedJobs(s, t, n, clock);
            k == Min(n, |s.tubes[t].delayed|) && LeastKicked(s, t, k, r)
    decreases n
  {
    hide Settled, KickDelayed, Freed, LeastKicked, NextDelayed, TopKicked;
    if n == 0 || s.tubes[t].delayed == {} {
      LeastKickedNone(s, t);
    } else {
      var s1, j := KickDelayed(s, t, clock), NextDelayed(s, t);
      KickDelayedTop(s, t, clock);
      KickDelayedExact(s1, t, n - 1, clock);
      TopKickedSize(s, t, j, s1);
      LeastKickedCons(s, t, j, s1, KickDelayedJobs(s1, t, n - 1, clock).1, KickDelayedJobs(s1, t, n - 1, clock).0);
    }
  }

  // ----- the whole command -----

  lemma FreedIdle(s: State, m: set<JobId>, s2: State, c: ConnId)
    requires Freed(s, m, s2) && c in s.conns && !s.conns[c].waiting
    ensures c in s2.conns && s2.conns[c] == s.conns[c]
  {
    assert ConnServed(s.conns[c], s2.conns[c]);
  }

  lemma KickInv(s: State, c: ConnId, n: nat, clock: Clock)
    requires Inv(s) && Idle(s, c)
    ensures Inv(KickJobs(s, c, n, clock))
  {
    hide Inv, Mid, NoLostWakeup, Settled, KickBuriedJobs, KickDelayedJobs, Freed, SendReply;
    KickOk(s, c);
    IdleFacts(s, c);
    InvParts(s);
    var t := s.conns[c].use;
    if s.tubes[t].buried != [] {
      KickBuriedJobsMid(s, t, n, clock);
      KickBuriedExact(s, t, n, clock);
      FreedIdle(s, First(s.tubes[t].buried, Min(n, |s.tubes[t].buried|)), KickBuriedJobs(s, t, n, clock), c);
      ReplyInv(KickBuriedJobs(s, t, n, clock), c, Kicked(n));
    } else {
      var (r, k) := KickDelayedJobs(s, t, n, clock);
      KickDelayedJobsMid(s, t, n, clock);
      KickDelayedExact(s, t, n, clock);
      FreedIdle(s, Gone(s, r, t), r, c);
      ReplyInv(r, c, Kicked(k));
    }
  }

  /** How many jobs left the buried list or the delay heap of tube t. */
  ghost function Moved(s: State, r: State, t: TubeId): int
    requires t in s.tubes && t in r.tubes
  {
    |s.tubes[t].buried| - |r.tubes[t].buried| + |s.tubes[t].delayed| - |r.tubes[t].delayed|
  }

  /** The number answered is the number of jobs kicked, unless the bound exceeds a nonempty
      buried list: kick_buried_job reports success on an empty list, so the loop runs to n. */
  lemma KickAnswer(s: State, c: ConnId, n: nat, clock: Clock)
    requires Inv(s) && Idle(s, c)
    ensures var r, t := KickJobs(s, c, n, clock), s.conns[c].use;
            && c in r.conns && t in s.tubes && t in r.tubes && r.conns[c].reply.Kicked?
            && (r.conns[c].reply.count == Moved(s, r, t) <==> (s.tubes[t].buried == [] || n <= |s.tubes[t].buried|))
  {
    hide Inv, Settled, KickBuriedJobs, KickDelayedJobs, Freed;
    KickOk(s, c);
    var t := s.conns[c].use;
    if s.tubes[t].buried != [] {
      KickBuriedExact(s, t, n, clock);
    } else {
      KickDelayedExact(s, t, n, clock);
      var r := KickDelayedJobs(s, t, n, clock).0;
      assert s.tubes[t].delayed == r.tubes[t].delayed + (s.tubes[t].delayed - r.tubes[t].delayed);
    }
  }
}
