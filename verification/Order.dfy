/** The order in which one run of process_queue hands jobs out. */
module Order {
  import opened Counting
  import opened Lists
  import opened State
  import opened Moves
  import opened JobMoves
  import opened Serve
  import opened Queue

  datatype Handout = Handout(job: JobId, conn: ConnId)

  /** What Drain hands out, round by round. */
  ghost function Handouts(s: State, now: int, clock: Clock): seq<Handout>
    requires Settled(s)
    decreases Count(s.jobs, HasState(Ready))
  {
    hide Settled, Dispatch, Count;
    var s1 := ClearPauses(s, now);
    if Eligible(s1) == {} then []
    else
      var j := NextEligible(s1);
      RoundOk(s, now, j, clock);
      [Handout(j, NextWaiter(s1.tubes[s1.jobs[j].tube]))] + Handouts(Dispatch(s1, j, clock), now, clock)
  }

  lemma DispatchPauses(s: State, j: JobId, clock: Clock, d: Slack)
    requires Mid(s, s.jobs, d) && j in Eligible(s)
    ensures Known(s, j) && Open(s, s.jobs[j].tube) && MemoKnown(s, NextWaiter(s.tubes[s.jobs[j].tube]))
    ensures forall u :: u in s.tubes ==>
              u in Dispatch(s, j, clock).tubes && Dispatch(s, j, clock).tubes[u].pause == s.tubes[u].pause
  {
    hide Mid, Eligible, Dispatch, Hand;
    DispatchIsHandMid(s, j, clock, d);
    var t := s.jobs[j].tube;
    forall u | u in s.tubes
      ensures u in Dispatch(s, j, clock).tubes && Dispatch(s, j, clock).tubes[u].pause == s.tubes[u].pause
    {
      HandTube(ReadyRemove(s, j), t, NextWaiter(s.tubes[t]), j, clock, u);
    }
  }

  /** A round makes nothing eligible that was not, and its own job no longer is. */
  lemma EligibleShrinks(s: State, s2: State, j: JobId, now: int)
    requires Served(s, s2) && s == ClearPauses(s, now) && TubesOwn(s2.jobs, s2.tubes)
    requires forall u :: u in s.tubes && u in s2.tubes ==> s2.tubes[u].pause == s.tubes[u].pause
    requires j in s.jobs && j in s2.jobs && s2.jobs[j].state != Ready
    ensures Eligible(ClearPauses(s2, now)) <= Eligible(s) - {j}
    ensures forall k :: k in s2.jobs && k in s.jobs ==> s2.jobs[k].pri == s.jobs[k].pri && s2.jobs[k].tube == s.jobs[k].tube
  {
    var s3 := ClearPauses(s2, now);
    forall k | k in s2.jobs && k in s.jobs ensures s2.jobs[k].pri == s.jobs[k].pri && s2.jobs[k].tube == s.jobs[k].tube {
      assert JobServed(s, s.jobs[k], s2.jobs[k]);
    }
    forall k | k in Eligible(s3) ensures k in Eligible(s) && k != j {
      EligibleBefore(s, s2, k, now);
    }
  }

  lemma EligibleBefore(s: State, s2: State, k: JobId, now: int)
    requires Served(s, s2) && s == ClearPauses(s, now) && TubesOwn(s2.jobs, s2.tubes)
    requires forall u :: u in s.tubes && u in s2.tubes ==> s2.tubes[u].pause == s.tubes[u].pause
    requires k in Eligible(ClearPauses(s2, now))
    ensures k in Eligible(s) && k in s2.jobs && s2.jobs[k].state == Ready
  {
    assert SameKeys(s, s2) && JobServed(s, s.jobs[k], s2.jobs[k]);
    var t := s2.jobs[k].tube;
    assert k in s2.tubes[t].ready && At(s2.jobs, k, Ready, t);
    assert TubeServed(s.tubes[t], s2.tubes[t]);
    assert s.tubes[t] == Unpaused(s.tubes[t], now);
    hide Served, TubesOwn;
    SomeItem(s2.tubes[t].waiting.items);
  }

  /** ClearPauses at the same time a second time changes nothing. */
  lemma ClearTwice(s: State, now: int)
    ensures ClearPauses(ClearPauses(s, now), now) == ClearPauses(s, now)
  {
    var a, b := ClearPauses(s, now), ClearPauses(ClearPauses(s, now), now);
    assert forall t :: t in s.tubes ==> b.tubes[t] == a.tubes[t];
    assert b.tubes == a.tubes;
  }

  /** Handed out so far: strictly increasing in (pri, id). */
  ghost predicate Ordered(jobs: map<JobId, Job>, h: seq<Handout>) {
    && (forall a :: 0 <= a < |h| ==> h[a].job in jobs)
    && (forall a, b :: 0 <= a < b < |h| ==> MoreUrgent(jobs, h[a].job, h[b].job))
  }

  /** All handed-out jobs were eligible at the start. */
  ghost predicate FromEligible(s: State, h: seq<Handout>) {
    forall a :: 0 <= a < |h| ==> h[a].job in Eligible(s)
  }

  /** Each job went to a connection that waited on the job's tube, and nothing else moved. */
  ghost predicate Delivered(s: State, h: seq<Handout>, r: State) {
    && r.jobs.Keys == s.jobs.Keys
    && (forall a :: 0 <= a < |h| ==>
          && h[a].job in s.jobs && WaitsOn(s.conns, h[a].conn, s.jobs[h[a].job].tube) && Held(r.jobs, h[a].job, h[a].conn))
    && (forall j :: j in s.jobs && (forall a :: 0 <= a < |h| ==> h[a].job != j) ==> r.jobs[j] == s.jobs[j])
  }

  lemma DispatchDelivers(s: State, j: JobId, clock: Clock, d: Slack)
    requires Mid(s, s.jobs, d) && j in Eligible(s)
    ensures Known(s, j) && Open(s, s.jobs[j].tube) && MemoKnown(s, NextWaiter(s.tubes[s.jobs[j].tube]))
    ensures var s2, c := Dispatch(s, j, clock), NextWaiter(s.tubes[s.jobs[j].tube]);
            && Held(s2.jobs, j, c) && WaitsOn(s.conns, c, s.jobs[j].tube) && s2.jobs == s.jobs[j := s2.jobs[j]]
  {
    hide Mid, Eligible, Dispatch, Hand, Served;
    DispatchIsHandMid(s, j, clock, d);
    DispatchServed(s, j, clock, d);
    var t := s.jobs[j].tube;
    var s1 := ReadyRemove(s, j);
    HandRest(s1, t, NextWaiter(s.tubes[t]), j, clock);
    assert s1.conns == s.conns && s1.jobs == s.jobs;
    TakeAndLeaveWaits(s1, t, NextWaiter(s.tubes[t]));
  }

  lemma {:induction false} HandoutsOrdered(s: State, now: int, clock: Clock, d: Slack)
    requires Settled(s) && Mid(s, s.jobs, d)
    ensures var h := Handouts(s, now, clock);
            Ordered(s.jobs, h) && FromEligible(ClearPauses(s, now), h)
    decreases Count(s.jobs, HasState(Ready))
  {
    hide Mid, Dispatch, Settled, Count, HasState, Served, ClearPauses, Eligible, TubesOwn;
    var s1 := ClearPauses(s, now);
    ClearPausesMid(s, now, d);
    ClearPausesJobs(s, now);
    if Eligible(s1) != {} {
      var j := NextEligible(s1);
      RoundOk(s, now, j, clock);
      DispatchMid(s1, j, clock, d);
      DispatchServed(s1, j, clock, d);
      DispatchDelivers(s1, j, clock, d);
      DispatchPauses(s1, j, clock, d);
      var s2 := Dispatch(s1, j, clock);
      HandoutsOrdered(s2, now, clock, d);
      ClearTwice(s, now);
      MidParts(s2, s2.jobs, d);
      OwnParts(s2.jobs, s2);
      EligibleShrinks(s1, s2, j, now);
      OrderedCons(s, s1, s2, j, now, Handouts(s2, now, clock), NextWaiter(s1.tubes[s1.jobs[j].tube]));
    }
  }

  lemma ClearPausesJobs(s: State, now: int)
    ensures ClearPauses(s, now).jobs == s.jobs && ClearPauses(s, now).conns == s.conns && ClearPauses(s, now).tick == s.tick
  {}

  lemma OrderedCons(s: State, s1: State, s2: State, j: JobId, now: int, h: seq<Handout>, c: ConnId)
    requires s1 == ClearPauses(s, now) && s1.jobs == s.jobs && s2.jobs.Keys == s1.jobs.Keys && j in s1.jobs && j in Eligible(s1)
    requires Eligible(s1) != {} && j == NextEligible(s1)
    requires Ordered(s2.jobs, h) && FromEligible(ClearPauses(s2, now), h)
    requires Eligible(ClearPauses(s2, now)) <= Eligible(s1) - {j}
    requires forall k :: k in s2.jobs && k in s1.jobs ==> s2.jobs[k].pri == s1.jobs[k].pri
    ensures Ordered(s.jobs, [Handout(j, c)] + h) && FromEligible(s1, [Handout(j, c)] + h)
  {
    hide ClearPauses, Eligible;
    var g := [Handout(j, c)] + h;
    forall a | 0 <= a < |g| ensures g[a].job in Eligible(s1) && g[a].job in s.jobs && (a > 0 ==> g[a].job != j) {
      if a > 0 { assert g[a] == h[a - 1]; }
    }
    forall a, b | 0 <= a < b < |g| ensures MoreUrgent(s.jobs, g[a].job, g[b].job) {
      assert g[b] == h[b - 1];
      if a > 0 { assert g[a] == h[a - 1]; }
    }
  }

  lemma {:induction false} HandoutsDelivered(s: State, now: int, clock: Clock, d: Slack)
    requires Settled(s) && Mid(s, s.jobs, d)
    ensures Delivered(s, Handouts(s, now, clock), Drain(s, now, clock))
    decreases Count(s.jobs, HasState(Ready))
  {
    hide Mid, Dispatch, Settled, Count, HasState, Served, ClearPauses, Eligible, Delivered, NoLostWakeup;
    var s1 := ClearPauses(s, now);
    ClearPausesMid(s, now, d);
    ClearPausesJobs(s, now);
    if Eligible(s1) == {} {
      DeliveredNone(s, s1);
    } else {
      var j := NextEligible(s1);
      RoundOk(s, now, j, clock);
      DispatchMid(s1, j, clock, d);
      DispatchServed(s1, j, clock, d);
      DispatchDelivers(s1, j, clock, d);
      var s2 := Dispatch(s1, j, clock);
      HandoutsDelivered(s2, now, clock, d);
      DrainMid(s2, now, clock, d);
      DeliveredCons(s, s1, s2, j, NextWaiter(s1.tubes[s1.jobs[j].tube]), Handouts(s2, now, clock), Drain(s2, now, clock));
    }
  }

  lemma DeliveredNone(s: State, s1: State)
    requires s1.jobs == s.jobs
    ensures Delivered(s, [], s1)
  {}

  lemma ServedWaits(s: State, r: State)
    requires Served(s, r)
    ensures forall e, t :: WaitsOn(r.conns, e, t) ==> WaitsOn(s.conns, e, t)
  {
    hide JobServed, TubeServed;
    forall e, t | WaitsOn(r.conns, e, t) ensures WaitsOn(s.conns, e, t) {
      assert ConnServed(s.conns[e], r.conns[e]);
    }
  }

  lemma DeliveredCons(s: State, s1: State, s2: State, j: JobId, c: ConnId, h: seq<Handout>, r: State)
    requires s1.jobs == s.jobs && s1.conns == s.conns && j in s.jobs
    requires Served(s1, s2) && s2.jobs == s1.jobs[j := s2.jobs[j]] && Held(s2.jobs, j, c) && WaitsOn(s1.conns, c, s1.jobs[j].tube)
    requires Served(s2, r) && Delivered(s2, h, r)
    ensures Delivered(s, [Handout(j, c)] + h, r)
  {
    hide Served, ConnServed, WaitsOn;
    var g := [Handout(j, c)] + h;
    ServedEach(s1, s2);
    ServedEach(s2, r);
    ServedWaits(s1, s2);
    forall a | 0 <= a < |g|
      ensures g[a].job in s.jobs && WaitsOn(s.conns, g[a].conn, s.jobs[g[a].job].tube) && Held(r.jobs, g[a].job, g[a].conn)
    {
      if a > 0 { assert g[a] == h[a - 1] && h[a - 1].job in s2.jobs; }
    }
    forall k | k in s.jobs && (forall a :: 0 <= a < |g| ==> g[a].job != k) ensures r.jobs[k] == s.jobs[k] {
      assert g[0].job != k;
      forall a | 0 <= a < |h| ensures h[a].job != k { assert g[a + 1] == h[a]; }
    }
  }

  // ----- no more urgent job is passed over while somebody waits for it -----

  /** Connection c is in the waiting set of job k's tube. */
  ghost predicate WaitsFor(s: State, k: JobId, c: ConnId) {
    k in s.jobs && s.jobs[k].tube in s.tubes && c in s.tubes[s.jobs[k].tube].waiting.items
  }

  /** When the a-th job was handed out, job k was eligible, more urgent, and had not been handed out. */
  ghost predicate Passed(s: State, h: seq<Handout>, a: nat, k: JobId) {
    && a < |h| && k in Eligible(s) && k in s.jobs && h[a].job in s.jobs && MoreUrgent(s.jobs, k, h[a].job)
    && forall b :: 0 <= b < a ==> h[b].job != k
  }

  ghost predicate GivenBefore(h: seq<Handout>, a: nat, c: ConnId) {
    exists b :: 0 <= b < a && b < |h| && h[b].conn == c
  }

  /** A job is passed over only once every connection that waited for it was given another one. */
  ghost predicate NeverSkips(s: State, h: seq<Handout>) {
    forall a, k, c :: Passed(s, h, a, k) && WaitsFor(s, k, c) ==> GivenBefore(h, a, c)
  }

  /** No connection is given two jobs. */
  ghost predicate OneEach(h: seq<Handout>) {
    forall a, b :: 0 <= a < b < |h| ==> h[a].conn != h[b].conn
  }

  /** The job goes to the next waiter, who waits no longer; no other connection changes. */
  lemma DispatchGives(s: State, j: JobId, clock: Clock, d: Slack)
    requires Mid(s, s.jobs, d) && j in Eligible(s)
    ensures Known(s, j) && Open(s, s.jobs[j].tube) && MemoKnown(s, NextWaiter(s.tubes[s.jobs[j].tube]))
    ensures var r, x, c := Dispatch(s, j, clock), s.jobs[j], NextWaiter(s.tubes[s.jobs[j].tube]);
            && c in s.conns && c in r.conns
            && r.jobs == s.jobs[j := x.(deadline := clock(s.tick) + x.ttr, state := Reserved, reserver := Some(c), reserves := x.reserves + 1)]
            && r.conns == s.conns[c := s.conns[c].(waiting := false, reserved := [j] + s.conns[c].reserved, soonest := r.conns[c].soonest,
                                                   out := Live(j), phase := SendJob, reply := ReservedJob(j))]
  {
    hide Mid, Eligible, Dispatch, Hand, Served;
    DispatchIsHandMid(s, j, clock, d);
    ReadyRemoveKeeps(s, j);
    HandRest(ReadyRemove(s, j), s.jobs[j].tube, NextWaiter(s.tubes[s.jobs[j].tube]), j, clock);
  }

  lemma ReadyRemoveKeeps(s: State, j: JobId)
    requires Known(s, j)
    ensures ReadyRemove(s, j).tick == s.tick && ReadyRemove(s, j).conns == s.conns && ReadyRemove(s, j).jobs == s.jobs
  {}

  /** After one handout the other eligible jobs are still on offer to whoever still waits for them. */
  lemma StillOffered(s: State, j: JobId, r: State, c0: ConnId, now: int, k: JobId, c: ConnId)
    requires TubesOwn(s.jobs, s.tubes) && TubesOwn(r.jobs, r.tubes) && Waits(s) && Waits(r)
    requires SameKeys(s, r) && s == ClearPauses(s, now) && k in Eligible(s) && k != j && WaitsFor(s, k, c) && c != c0
    requires j in r.jobs && r.jobs == s.jobs[j := r.jobs[j]] && c0 in r.conns && r.conns == s.conns[c0 := r.conns[c0]]
    requires forall u :: u in s.tubes && u in r.tubes ==> r.tubes[u].pause == s.tubes[u].pause
    ensures k in Eligible(ClearPauses(r, now)) && WaitsFor(ClearPauses(r, now), k, c)
  {
    var t := s.jobs[k].tube;
    assert At(s.jobs, k, Ready, t) <==> At(r.jobs, k, Ready, t);
    assert WaitsOn(s.conns, c, t) <==> WaitsOn(r.conns, c, t);
    hide TubesOwn, Waits;
    assert c in r.tubes[t].waiting.items && k in r.tubes[t].ready;
    assert r.tubes[t].pause == 0;
  }

  /** A connection that was given a job does not wait afterwards. */
  lemma GivenIsDone(s: State, j: JobId, r: State, c0: ConnId, h: seq<Handout>, r2: State)
    requires c0 in r.conns && !r.conns[c0].waiting && Delivered(r, h, r2)
    ensures forall a :: 0 <= a < |h| ==> h[a].conn != c0
  {
    forall a | 0 <= a < |h| ensures h[a].conn != c0 {
      assert WaitsOn(r.conns, h[a].conn, r.jobs[h[a].job].tube);
    }
  }

  lemma OneEachCons(g: Handout, h: seq<Handout>)
    requires OneEach(h) && forall a :: 0 <= a < |h| ==> h[a].conn != g.conn
    ensures OneEach([g] + h)
  {}

  lemma PassedLater(s: State, s2: State, j: JobId, c0: ConnId, h: seq<Handout>, a: nat, k: JobId)
    requires Passed(s, [Handout(j, c0)] + h, a, k) && j in s.jobs && Eligible(s) != {} && j == NextEligible(s)
    requires k in Eligible(s2) && s2.jobs.Keys == s.jobs.Keys
    requires forall i :: i in s.jobs && i in s2.jobs ==> s2.jobs[i].pri == s.jobs[i].pri
    ensures 0 < a && k != j && Passed(s2, h, a - 1, k)
  {
    hide Eligible;
    var g := [Handout(j, c0)] + h;
    assert g[0].job == j;
    if a > 0 {
      assert g[a] == h[a - 1];
      assert forall b :: 0 <= b < a - 1 ==> h[b] == g[b + 1];
    }
  }

  lemma NotPassedFirst(s: State, j: JobId, c0: ConnId, h: seq<Handout>, a: nat, k: JobId)
    requires Passed(s, [Handout(j, c0)] + h, a, k) && Eligible(s) != {} && j == NextEligible(s)
    ensures 0 < a && k != j
  {
    hide Eligible;
    assert ([Handout(j, c0)] + h)[0].job == j;
  }

  /** What one round of process_queue leaves, as far as the order needs it. */
  ghost predicate Gave(s: State, j: JobId, r: State, c0: ConnId, now: int) {
    && SameKeys(s, r) && s == ClearPauses(s, now) && Eligible(s) != {} && j == NextEligible(s) && j in s.jobs
    && j in r.jobs && r.jobs == s.jobs[j := r.jobs[j]] && c0 in r.conns && r.conns == s.conns[c0 := r.conns[c0]]
    && r.jobs[j].pri == s.jobs[j].pri
    && (forall u :: u in s.tubes && u in r.tubes ==> r.tubes[u].pause == s.tubes[u].pause)
  }

  lemma SkipStep(s: State, j: JobId, r: State, c0: ConnId, now: int, h: seq<Handout>, a: nat, k: JobId, c: ConnId)
    requires TubesOwn(s.jobs, s.tubes) && TubesOwn(r.jobs, r.tubes) && Waits(s) && Waits(r) && Gave(s, j, r, c0, now)
    requires NeverSkips(ClearPauses(r, now), h)
    requires Passed(s, [Handout(j, c0)] + h, a, k) && WaitsFor(s, k, c)
    ensures GivenBefore([Handout(j, c0)] + h, a, c)
  {
    hide TubesOwn, Waits, Eligible, ClearPauses, NextEligible, WaitsFor, Passed;
    var g := [Handout(j, c0)] + h;
    NotPassedFirst(s, j, c0, h, a, k);
    PassedIn(s, g, a, k);
    assert g[0].conn == c0;
    if c != c0 {
      ClearPausesJobs(r, now);
      StillOffered(s, j, r, c0, now, k, c);
      PassedLater(s, ClearPauses(r, now), j, c0, h, a, k);
      assert GivenBefore(h, a - 1, c);
      var b :| 0 <= b < a - 1 && b < |h| && h[b].conn == c;
      assert g[b + 1] == h[b];
    }
  }

  lemma PassedIn(s: State, h: seq<Handout>, a: nat, k: JobId)
    requires Passed(s, h, a, k)
    ensures k in Eligible(s)
  {}

  lemma NeverSkipsCons(s: State, j: JobId, r: State, c0: ConnId, now: int, h: seq<Handout>)
    requires TubesOwn(s.jobs, s.tubes) && TubesOwn(r.jobs, r.tubes) && Waits(s) && Waits(r) && Gave(s, j, r, c0, now)
    requires NeverSkips(ClearPauses(r, now), h)
    ensures NeverSkips(s, [Handout(j, c0)] + h)
  {
    var g := [Handout(j, c0)] + h;
    hide TubesOwn, Waits, Gave, Passed, WaitsFor, GivenBefore;
    forall a: nat, k, c | Passed(s, g, a, k) && WaitsFor(s, k, c) ensures GivenBefore(g, a, c) {
      SkipStep(s, j, r, c0, now, h, a, k, c);
    }
  }

  lemma GaveBy(s: State, j: JobId, r: State, c0: ConnId, now: int)
    requires SameKeys(s, r) && s == ClearPauses(s, now) && Eligible(s) != {} && j == NextEligible(s) && j in s.jobs
    requires j in r.jobs && r.jobs == s.jobs[j := r.jobs[j]] && c0 in r.conns && r.conns == s.conns[c0 := r.conns[c0]]
    requires r.jobs[j].pri == s.jobs[j].pri
    requires forall u :: u in s.tubes && u in r.tubes ==> r.tubes[u].pause == s.tubes[u].pause
    ensures Gave(s, j, r, c0, now)
  {}

  lemma {:induction false} HandoutsNeverSkip(s: State, now: int, clock: Clock, d: Slack)
    requires Settled(s) && Mid(s, s.jobs, d)
    ensures NeverSkips(ClearPauses(s, now), Handouts(s, now, clock)) && OneEach(Handouts(s, now, clock))
    decreases Count(s.jobs, HasState(Ready))
  {
    hide *;
    var s1 := ClearPauses(s, now);
    ClearPausesMid(s, now, d);
    ClearPausesJobs(s, now);
    if Eligible(s1) == {} {
      NothingHandedOut(s, now, clock);
    } else {
      var j := NextEligible(s1);
      RoundOk(s, now, j, clock);
      HandoutsRound(s, now, j, clock);
      DispatchMid(s1, j, clock, d);
      DispatchGives(s1, j, clock, d);
      DispatchPauses(s1, j, clock, d);
      var r, c0 := Dispatch(s1, j, clock), NextWaiter(s1.tubes[s1.jobs[j].tube]);
      HandoutsNeverSkip(r, now, clock, d);
      HandoutsDelivered(r, now, clock, d);
      ClearTwice(s, now);
      MidParts(s1, s1.jobs, d);
      OwnParts(s1.jobs, s1);
      MidParts(r, r.jobs, d);
      OwnParts(r.jobs, r);
      ClearedKeys(s, now, r);
      GaveBy(s1, j, r, c0, now);
      NeverSkipsCons(s1, j, r, c0, now, Handouts(r, now, clock));
      GivenIsDone(s1, j, r, c0, Handouts(r, now, clock), Drain(r, now, clock));
      OneEachCons(Handout(j, c0), Handouts(r, now, clock));
    }
  }

  lemma ClearedKeys(s: State, now: int, r: State)
    requires SameKeys(s, r)
    ensures SameKeys(ClearPauses(s, now), r)
  {}

  lemma NothingHandedOut(s: State, now: int, clock: Clock)
    requires Settled(s) && Eligible(ClearPauses(s, now)) == {}
    ensures Handouts(s, now, clock) == [] && NeverSkips(ClearPauses(s, now), []) && OneEach([])
  {
    hide Settled, Eligible, ClearPauses;
  }

  lemma HandoutsRound(s: State, now: int, j: JobId, clock: Clock)
    requires Settled(s) && Eligible(ClearPauses(s, now)) != {} && j == NextEligible(ClearPauses(s, now))
    ensures var s1 := ClearPauses(s, now);
            && j in s1.jobs && s1.jobs[j].tube in s1.tubes && s1.tubes[s1.jobs[j].tube].waiting.items != []
            && Known(s1, j) && Open(s1, s1.jobs[j].tube) && MemoKnown(s1, NextWaiter(s1.tubes[s1.jobs[j].tube]))
            && j in Eligible(s1) && Settled(Dispatch(s1, j, clock))
            && Handouts(s, now, clock) == [Handout(j, NextWaiter(s1.tubes[s1.jobs[j].tube]))] + Handouts(Dispatch(s1, j, clock), now, clock)
  {
    hide Settled, Eligible, ClearPauses, Dispatch, Count;
    RoundOk(s, now, j, clock);
  }

  // ----- whose turn it is -----

  /** The ring w after the item in slot w.last % |w.items| was taken: the last item stands in for it,
      and the cursor is behind it. */
  ghost predicate Turned(w: Ring<ConnId>, v: Ring<ConnId>)
    requires w.items != []
  {
    var n, i := |w.items|, w.last % |w.items|;
    && |v.items| == n - 1 && v.last == i + 1
    && forall m :: 0 <= m < n - 1 ==> v.items[m] == if m == i then w.items[n - 1] else w.items[m]
  }

  lemma LeavesTurned(s: State, t: TubeId, c: ConnId, u: TubeId)
    requires Waits(s) && t in s.tubes && s.tubes[t].waiting.items != [] && c == NextWaiter(s.tubes[t]) && c in s.conns && u in s.tubes
    ensures c == s.tubes[t].waiting.items[s.tubes[t].waiting.last % |s.tubes[t].waiting.items|]
    ensures u in TakeAndLeave(s, t, c).tubes
    ensures var v := TakeAndLeave(s, t, c).tubes[u].waiting;
            if u == t then Turned(s.tubes[t].waiting, v)
            else v.last == s.tubes[u].waiting.last && (c !in s.tubes[u].waiting.items ==> v == s.tubes[u].waiting)
  {
    var w := s.tubes[t].waiting;
    SwapDeleteMembers(w.items, TakeIndex(w));
    assert c !in SwapDelete(w.items, TakeIndex(w));
  }

  /** The job goes to the connection under the cursor of its tube's waiting set, and the cursor moves on;
      in the other tubes the cursor stays. */
  lemma DispatchTurns(s: State, j: JobId, clock: Clock, d: Slack)
    requires Mid(s, s.jobs, d) && j in Eligible(s)
    ensures Known(s, j) && Open(s, s.jobs[j].tube) && MemoKnown(s, NextWaiter(s.tubes[s.jobs[j].tube]))
    ensures var t, r := s.jobs[j].tube, Dispatch(s, j, clock);
            var w := s.tubes[t].waiting;
            var c := w.items[w.last % |w.items|];
            && Held(r.jobs, j, c) && t in r.tubes && Turned(w, r.tubes[t].waiting)
            && forall u :: u in s.tubes && u != t ==>
                 && u in r.tubes && r.tubes[u].waiting.last == s.tubes[u].waiting.last
                 && (c !in s.tubes[u].waiting.items ==> r.tubes[u].waiting == s.tubes[u].waiting)
  {
    hide Mid, Eligible, Dispatch, Hand, Waits, TakeAndLeave, Turned, CanHand, NextWaiter;
    DispatchDelivers(s, j, clock, d);
    DispatchIsHandMid(s, j, clock, d);
    var t, s1 := s.jobs[j].tube, ReadyRemove(s, j);
    var c := NextWaiter(s.tubes[t]);
    ReadyRemoveRings(s, j);
    CanHandConn(s1, t, c, j);
    LeavesTurned(s1, t, c, t);
    forall u | u in s.tubes
      ensures u in Hand(s1, t, c, j, clock).tubes
      ensures var v := Hand(s1, t, c, j, clock).tubes[u].waiting;
              if u == t then Turned(s.tubes[t].waiting, v)
              else v.last == s.tubes[u].waiting.last && (c !in s.tubes[u].waiting.items ==> v == s.tubes[u].waiting)
    {
      HandTube(s1, t, c, j, clock, u);
      LeavesTurned(s1, t, c, u);
    }
  }

  lemma CanHandConn(s: State, t: TubeId, c: ConnId, j: JobId)
    requires CanHand(s, t, c, j)
    ensures t in s.tubes && s.tubes[t].waiting.items != [] && c == NextWaiter(s.tubes[t]) && c in s.conns && s.conns[c].waiting
  {}

  lemma ReadyRemoveRings(s: State, j: JobId)
    requires Known(s, j)
    ensures ReadyRemove(s, j).tubes.Keys == s.tubes.Keys
    ensures forall u :: u in s.tubes ==> ReadyRemove(s, j).tubes[u].waiting == s.tubes[u].waiting
  {}

  // ----- in plain terms -----

  /** Job k is ready in a tube that somebody waits on and that is not paused, or no longer at time now. */
  ghost predicate CanGo(s: State, now: int, k: JobId) {
    && k in s.jobs && s.jobs[k].state == Ready && s.jobs[k].tube in s.tubes
    && s.tubes[s.jobs[k].tube].waiting.items != []
    && (s.tubes[s.jobs[k].tube].pause == 0 || s.tubes[s.jobs[k].tube].deadline <= now)
  }

  lemma EligibleMeans(s: State, now: int)
    requires TubesOwn(s.jobs, s.tubes)
    ensures forall k :: k in Eligible(ClearPauses(s, now)) <==> CanGo(s, now, k)
  {
    forall k ensures k in Eligible(ClearPauses(s, now)) <==> CanGo(s, now, k) {
      if k in s.jobs && s.jobs[k].tube in s.tubes {
        assert k in s.tubes[s.jobs[k].tube].ready <==> At(s.jobs, k, Ready, s.jobs[k].tube);
      }
    }
  }

  /** The a-th job is handed out at the a-th reading of the clock: its time to run starts then. */
  ghost predicate Timed(s: State, h: seq<Handout>, r: State, clock: Clock) {
    forall a :: 0 <= a < |h| ==>
      && h[a].job in s.jobs && h[a].job in r.jobs
      && r.jobs[h[a].job].deadline == clock(s.tick + a) + s.jobs[h[a].job].ttr
  }

  lemma DispatchTick(s: State, j: JobId, clock: Clock, d: Slack)
    requires Mid(s, s.jobs, d) && j in Eligible(s)
    ensures Known(s, j) && Open(s, s.jobs[j].tube) && MemoKnown(s, NextWaiter(s.tubes[s.jobs[j].tube]))
    ensures Dispatch(s, j, clock).tick == s.tick + 1
  {
    hide Mid, Eligible, Dispatch, Hand;
    DispatchIsHandMid(s, j, clock, d);
    ReadyRemoveKeeps(s, j);
    HandRest(ReadyRemove(s, j), s.jobs[j].tube, NextWaiter(s.tubes[s.jobs[j].tube]), j, clock);
  }

  lemma TimedCons(s: State, s1: State, j: JobId, c0: ConnId, s2: State, h: seq<Handout>, r: State, clock: Clock)
    requires s1.jobs == s.jobs && s1.tick == s.tick && s2.tick == s.tick + 1 && j in s.jobs && j in s2.jobs && s2.jobs == s.jobs[j := s2.jobs[j]]
    requires s2.jobs[j].deadline == clock(s.tick) + s.jobs[j].ttr && s2.jobs[j].ttr == s.jobs[j].ttr
    requires Timed(s2, h, r, clock) && j in r.jobs
    requires (forall a :: 0 <= a < |h| ==> h[a].job != j) ==> r.jobs[j] == s2.jobs[j]
    requires forall a :: 0 <= a < |h| ==> h[a].job != j
    ensures Timed(s, [Handout(j, c0)] + h, r, clock)
  {
    var g := [Handout(j, c0)] + h;
    forall a | 0 <= a < |g|
      ensures g[a].job in s.jobs && g[a].job in r.jobs
      ensures r.jobs[g[a].job].deadline == clock(s.tick + a) + s.jobs[g[a].job].ttr
    {
      if a > 0 { assert g[a] == h[a - 1] && s.tick + a == s2.tick + (a - 1); }
    }
  }

  lemma {:induction false} HandoutsTimed(s: State, now: int, clock: Clock, d: Slack)
    requires Settled(s) && Mid(s, s.jobs, d)
    ensures Timed(s, Handouts(s, now, clock), Drain(s, now, clock), clock)
    decreases Count(s.jobs, HasState(Ready))
  {
    hide *;
    var s1 := ClearPauses(s, now);
    ClearPausesMid(s, now, d);
    ClearPausesJobs(s, now);
    if Eligible(s1) == {} {
      NothingHandedOut(s, now, clock);
      TimedNone(s, Drain(s, now, clock), clock);
    } else {
      var j := NextEligible(s1);
      DrainRound(s, now, j, clock);
      HandoutsRound(s, now, j, clock);
      DispatchMid(s1, j, clock, d);
      DispatchGives(s1, j, clock, d);
      DispatchTick(s1, j, clock, d);
      var r, c0 := Dispatch(s1, j, clock), NextWaiter(s1.tubes[s1.jobs[j].tube]);
      var h := Handouts(r, now, clock);
      HandoutsTimed(r, now, clock, d);
      HandoutsDelivered(r, now, clock, d);
      HandoutsOrdered(s, now, clock, d);
      TakenOnce(s.jobs, j, c0, h);
      KeptWhenNotGiven(r, j, h, Drain(r, now, clock));
      TimedCons(s, s1, j, c0, r, h, Drain(r, now, clock), clock);
    }
  }

  lemma TimedNone(s: State, r: State, clock: Clock)
    ensures Timed(s, [], r, clock)
  {}

  lemma TakenOnce(jobs: map<JobId, Job>, j: JobId, c0: ConnId, h: seq<Handout>)
    requires Ordered(jobs, [Handout(j, c0)] + h)
    ensures forall a :: 0 <= a < |h| ==> h[a].job != j
  {
    var g := [Handout(j, c0)] + h;
    forall a | 0 <= a < |h| ensures h[a].job != j { assert g[0].job == j && g[a + 1] == h[a]; }
  }

  lemma KeptWhenNotGiven(s: State, j: JobId, h: seq<Handout>, r: State)
    requires Delivered(s, h, r) && j in s.jobs && forall a :: 0 <= a < |h| ==> h[a].job != j
    ensures j in r.jobs && r.jobs[j] == s.jobs[j]
  {
    hide WaitsOn, Held;
  }

  /** One run of process_queue hands jobs out one after the other, the smaller priority number first and of
      equal ones the older job. Every one was ready in an unpaused tube with a waiting connection, and goes
      to a connection that waits on that tube, no two to the same one, with its whole time to run from the
      moment it is handed out. A more urgent job is passed over only once all who waited for it were given
      another. No other job changes, and nothing is handed out only if nothing can be. */
  lemma DispatchOrder(s: State, now: int, clock: Clock)
    requires Settled(s)
    ensures var h, r := Handouts(s, now, clock), Drain(s, now, clock);
            && Ordered(s.jobs, h) && FromEligible(ClearPauses(s, now), h) && Delivered(s, h, r) && Timed(s, h, r, clock)
            && NeverSkips(ClearPauses(s, now), h) && OneEach(h)
            && (forall a, b :: 0 <= a < b < |h| ==>
                  var x, y := s.jobs[h[a].job], s.jobs[h[b].job]; x.pri < y.pri || (x.pri == y.pri && h[a].job < h[b].job))
            && (forall k :: k in Eligible(ClearPauses(s, now)) <==> CanGo(s, now, k))
            && (h == [] <==> Eligible(ClearPauses(s, now)) == {})
            && (h != [] ==> h[0].job == NextEligible(ClearPauses(s, now)))
  {
    hide *;
    var d := SomeSlack(s);
    HandoutsOrdered(s, now, clock, d);
    HandoutsDelivered(s, now, clock, d);
    HandoutsNeverSkip(s, now, clock, d);
    HandoutsTimed(s, now, clock, d);
    OrderedMeans(s.jobs, Handouts(s, now, clock));
    MidParts(s, s.jobs, d);
    OwnParts(s.jobs, s);
    EligibleMeans(s, now);
    FirstHandedOut(s, now, clock);
  }

  lemma SomeSlack(s: State) returns (d: Slack)
    requires Settled(s)
    ensures Mid(s, s.jobs, d)
  {
    hide Mid;
    d :| Mid(s, s.jobs, d);
  }

  lemma OrderedMeans(jobs: map<JobId, Job>, h: seq<Handout>)
    requires Ordered(jobs, h)
    ensures forall a, b :: 0 <= a < b < |h| ==>
              && h[a].job in jobs && h[b].job in jobs
              && var x, y := jobs[h[a].job], jobs[h[b].job]; x.pri < y.pri || (x.pri == y.pri && h[a].job < h[b].job)
  {}

  lemma FirstHandedOut(s: State, now: int, clock: Clock)
    requires Settled(s)
    ensures var h := Handouts(s, now, clock);
            && (h == [] <==> Eligible(ClearPauses(s, now)) == {})
            && (h != [] ==> h[0].job == NextEligible(ClearPauses(s, now)))
  {
    hide Settled, ClearPauses, Eligible, NextEligible, Dispatch, Count;
  }
}
