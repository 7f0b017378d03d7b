/** What reserve gives a client. */
module Reserving {
  import opened Lists
  import opened State
  import opened Moves
  import opened JobMoves
  import opened Serve
  import opened Queue
  import opened Steps
  import opened Waiting
  import opened Order

  /** No pause is over at time now. */
  ghost predicate NoPauseOver(s: State, now: int) {
    forall t :: t in s.tubes && s.tubes[t].pause != 0 ==> s.tubes[t].deadline > now
  }

  lemma NothingToClear(s: State, now: int)
    requires NoPauseOver(s, now)
    ensures ClearPauses(s, now) == s
  {
    assert ClearPauses(s, now).tubes == s.tubes;
  }

  /** The ready jobs of the unpaused tubes that c watches. */
  ghost function Offer(s: State, c: ConnId): set<JobId>
    requires c in s.conns
  {
    set j | j in s.jobs && s.jobs[j].state == Ready && s.jobs[j].tube in s.conns[c].watch
            && s.jobs[j].tube in s.tubes && s.tubes[s.jobs[j].tube].pause == 0
  }

  /** Of all clients that wait, c alone has jobs to choose from. */
  ghost predicate OnlyWaiter(s: State, c: ConnId, s2: State) {
    && c in s.conns && s2.jobs == s.jobs && s2.tubes.Keys == s.tubes.Keys
    && forall t :: t in s.tubes ==>
         && s2.tubes[t].ready == s.tubes[t].ready && s2.tubes[t].pause == s.tubes[t].pause
         && s2.tubes[t].waiting.items == s.tubes[t].waiting.items + (if t in s.conns[c].watch then [c] else [])
  }

  lemma OfferTube(s: State, c: ConnId, s2: State, t: TubeId)
    requires OnlyWaiter(s, c, s2) && NoLostWakeup(s) && t in s.tubes && s.tubes[t].ready != {}
    ensures t in s2.tubes && s2.tubes[t].ready == s.tubes[t].ready
    ensures Open(s2, t) <==> s.tubes[t].pause == 0 && t in s.conns[c].watch
    ensures Open(s2, t) ==> s2.tubes[t].waiting.items == [c]
  {}

  lemma OfferJob(s: State, c: ConnId, s2: State, j: JobId)
    requires OnlyWaiter(s, c, s2) && NoLostWakeup(s) && TubesOwn(s.jobs, s.tubes) && c in s.conns
    requires j in s.jobs && s.jobs[j].tube in s.tubes && s2.jobs == s.jobs
    ensures j in Eligible(s2) <==> j in Offer(s, c)
    ensures j in Eligible(s2) ==> s.jobs[j].tube in s2.tubes && s2.tubes[s.jobs[j].tube].waiting.items == [c]
  {
    var t := s.jobs[j].tube;
    assert j in s.tubes[t].ready <==> At(s.jobs, j, Ready, t);
    hide TubesOwn;
    SameJobs(s, c, s2);
    if s.tubes[t].ready != {} { OfferTube(s, c, s2, t); }
    hide OnlyWaiter, NoLostWakeup;
  }

  lemma OfferIsEligible(s: State, c: ConnId, s2: State)
    requires OnlyWaiter(s, c, s2) && NoLostWakeup(s) && TubesOwn(s.jobs, s.tubes) && Shape(s)
    ensures c in s.conns && Eligible(s2) == Offer(s, c)
    ensures forall j :: j in Eligible(s2) ==>
              j in s2.jobs && s2.jobs[j].tube in s2.tubes && s2.tubes[s2.jobs[j].tube].waiting.items == [c]
  {
    hide OnlyWaiter, NoLostWakeup, Open, NoDup, TubesOwn;
    SameJobs(s, c, s2);
    forall j | j in s.jobs
      ensures j in Eligible(s2) <==> j in Offer(s, c)
      ensures j in Eligible(s2) ==> s.jobs[j].tube in s2.tubes && s2.tubes[s.jobs[j].tube].waiting.items == [c]
    {
      OfferJob(s, c, s2, j);
    }
  }

  ghost function WithSoonest(s: State, c: ConnId, m: Option<JobId>): State
    requires c in s.conns
  {
    PutConn(s, c, s.conns[c].(soonest := m))
  }

  /** The job goes to c, which waits no longer; pauses stay as they are. */
  lemma DispatchTo(s: State, j: JobId, c: ConnId, clock: Clock, d: Slack)
    requires Mid(s, s.jobs, d) && j in Eligible(s) && j in s.jobs && s.jobs[j].tube in s.tubes
    requires s.tubes[s.jobs[j].tube].waiting.items == [c]
    ensures Known(s, j) && Open(s, s.jobs[j].tube) && MemoKnown(s, NextWaiter(s.tubes[s.jobs[j].tube]))
    ensures NextWaiter(s.tubes[s.jobs[j].tube]) == c
    ensures var r := Dispatch(s, j, clock);
            && Mid(r, r.jobs, d) && Served(s, r) && r.drain == s.drain
            && (forall t :: t in s.tubes && t in r.tubes ==> r.tubes[t].pause == s.tubes[t].pause)
  {
    hide Mid, Eligible, Dispatch, JobServed, ConnServed, TubeServed;
    DispatchMid(s, j, clock, d);
    DispatchServed(s, j, clock, d);
    DispatchPauses(s, j, clock, d);
  }

  /** ... and then nobody is left who could be given one. */
  lemma NoneAfter(s: State, c: ConnId, s2: State, r: State, d: Slack)
    requires OnlyWaiter(s, c, s2) && NoLostWakeup(s) && Served(s2, r) && Waits(r) && c in r.conns && !r.conns[c].waiting
    requires forall t :: t in s2.tubes && t in r.tubes ==> r.tubes[t].pause == s2.tubes[t].pause
    ensures Eligible(r) == {}
  {
    hide JobServed, ConnServed;
    forall t | t in s.tubes ensures !Open(r, t) || r.tubes[t].ready == {} {
      assert TubeServed(s2.tubes[t], r.tubes[t]);
      assert c !in r.tubes[t].waiting.items by { assert !WaitsOn(r.conns, c, t); }
      if r.tubes[t].waiting.items != [] {
        assert r.tubes[t].waiting.items[0] in s2.tubes[t].waiting.items;
      }
    }
    hide Served, Waits, OnlyWaiter, NoLostWakeup;
    assert forall j :: j in Eligible(r) ==> r.jobs[j].tube in s.tubes;
  }

  lemma StillPaused(s: State, r: State, now: int)
    requires NoPauseOver(s, now) && Served(s, r)
    requires forall t :: t in s.tubes && t in r.tubes ==> r.tubes[t].pause == s.tubes[t].pause
    ensures NoPauseOver(r, now)
  {
    hide JobServed, ConnServed;
    assert forall t :: t in s.tubes ==> TubeServed(s.tubes[t], r.tubes[t]);
  }

  /** Of the jobs in offer, j has the smallest priority number, and is the oldest with that number. */
  ghost predicate MostUrgent(jobs: map<JobId, Job>, offer: set<JobId>, j: JobId) {
    && j in offer && offer <= jobs.Keys
    && forall i :: i in offer && i != j ==> jobs[j].pri < jobs[i].pri || (jobs[j].pri == jobs[i].pri && j < i)
  }

  lemma TopIsMostUrgent(jobs: map<JobId, Job>, offer: set<JobId>)
    requires offer != {} && offer <= jobs.Keys
    ensures MostUrgent(jobs, offer, Top(jobs, Pri, offer))
  {}

  /** Of the state s2, in which c waits, process_queue makes r: c has got the most urgent job on offer. */
  ghost predicate ServedOne(s: State, c: ConnId, s2: State, at: int, r: State) {
    && c in s.conns && c in s2.conns && c in r.conns && r.drain == s2.drain && r.conns[c].out.Live?
    && var j := r.conns[c].out.job;
       && MostUrgent(s.jobs, Offer(s, c), j) && j in s.jobs
       && r.jobs == s.jobs[j := s.jobs[j].(deadline := at + s.jobs[j].ttr, state := Reserved, reserver := Some(c),
                                           reserves := s.jobs[j].reserves + 1)]
       && r.conns == s2.conns[c := s2.conns[c].(waiting := false, reserved := [j] + s2.conns[c].reserved, soonest := r.conns[c].soonest,
                                                out := Live(j), phase := SendJob, reply := ReservedJob(j))]
  }

  lemma ServedOneBy(s: State, c: ConnId, s2: State, at: int, r: State, j: JobId)
    requires c in s.conns && c in s2.conns && c in r.conns && r.drain == s2.drain && j in s.jobs && MostUrgent(s.jobs, Offer(s, c), j)
    requires r.jobs == s.jobs[j := s.jobs[j].(deadline := at + s.jobs[j].ttr, state := Reserved, reserver := Some(c),
                                              reserves := s.jobs[j].reserves + 1)]
    requires r.conns == s2.conns[c := s2.conns[c].(waiting := false, reserved := [j] + s2.conns[c].reserved,
                                                   soonest := r.conns[c].soonest, out := Live(j), phase := SendJob,
                                                   reply := ReservedJob(j))]
    ensures ServedOne(s, c, s2, at, r)
  {
    hide MostUrgent, Offer;
  }

  /** process_queue, when c is the only one it can serve. */
  lemma QueueServes(s: State, c: ConnId, s2: State, now: int, clock: Clock)
    requires Inv(s) && OnlyWaiter(s, c, s2) && Mid(s2, s2.jobs, Nothing) && Settled(s2) && NoPauseOver(s2, now)
    ensures var r := Drain(s2, now, clock);
            if Offer(s, c) == {} then r == s2
            else
              ServedOne(s, c, s2, clock(s2.tick), r)
  {
    hide *;
    InvParts(s);
    MidParts(s, s.jobs, Nothing);
    OwnParts(s.jobs, s);
    SameJobs(s, c, s2);
    OfferIsEligible(s, c, s2);
    NothingToClear(s2, now);
    if Offer(s, c) == {} {
      DrainEnd(s2, now, clock);
    } else {
      var j := NextEligible(s2);
      NextIsTop(s2, j);
      TopIsMostUrgent(s.jobs, Offer(s, c));
      DrainRound(s2, now, j, clock);
      DispatchTo(s2, j, c, clock, Nothing);
      DispatchGives(s2, j, clock, Nothing);
      var r := Dispatch(s2, j, clock);
      MidParts(r, r.jobs, Nothing);
      ServedOneBy(s, c, s2, clock(s2.tick), r, j);
      NoneAfter(s, c, s2, r, Nothing);
      StillPaused(s2, r, now);
      NothingToClear(r, now);
      DrainEnd(r, now, clock);
    }
  }

  lemma SameJobs(s: State, c: ConnId, s2: State)
    requires OnlyWaiter(s, c, s2)
    ensures s2.jobs == s.jobs && s2.tubes.Keys == s.tubes.Keys && c in s.conns
    ensures forall t :: t in s.tubes ==> s2.tubes[t].ready == s.tubes[t].ready
  {}

  lemma NextIsTop(s: State, j: JobId)
    requires Eligible(s) != {} && j == NextEligible(s)
    ensures j in Eligible(s) && Eligible(s) <= s.jobs.Keys && j == Top(s.jobs, Pri, Eligible(s))
  {}

  /** Some tube the client watches has a ready job, paused or not. */
  ghost predicate ReadyWatched(s: State, c: ConnId)
    requires c in s.conns
  {
    exists j :: j in s.jobs && s.jobs[j].state == Ready && s.jobs[j].tube in s.conns[c].watch
  }

  lemma HasReadyIs(s: State, c: ConnId)
    requires Inv(s) && c in s.conns
    ensures HasReady(s, c) <==> ReadyWatched(s, c)
  {
    hide *;
    InvParts(s);
    MidParts(s, s.jobs, Nothing);
    OwnParts(s.jobs, s);
    ReadyAre(s, c);
  }

  lemma ReadyAre(s: State, c: ConnId)
    requires Shape(s) && TubesOwn(s.jobs, s.tubes) && c in s.conns
    ensures HasReady(s, c) <==> ReadyWatched(s, c)
  {
    hide NoDup;
    assert forall j :: j in s.jobs ==> s.jobs[j].tube in s.tubes;
    hide Shape;
    forall t | t in s.tubes ensures s.tubes[t].ready != {} <==> exists j :: At(s.jobs, j, Ready, t) { ReadyIn(s, t); }
    hide TubesOwn;
    if HasReady(s, c) {
      var t :| t in s.conns[c].watch && t in s.tubes && s.tubes[t].ready != {};
      var j :| At(s.jobs, j, Ready, t);
    }
    if ReadyWatched(s, c) {
      var j :| j in s.jobs && s.jobs[j].state == Ready && s.jobs[j].tube in s.conns[c].watch;
      assert At(s.jobs, j, Ready, s.jobs[j].tube);
    }
  }

  lemma ReadyIn(s: State, t: TubeId)
    requires TubesOwn(s.jobs, s.tubes) && t in s.tubes
    ensures s.tubes[t].ready != {} <==> exists j :: At(s.jobs, j, Ready, t)
  {
    if s.tubes[t].ready != {} {
      var j :| j in s.tubes[t].ready;
      assert At(s.jobs, j, Ready, t);
    }
  }

  /** A job the client has reserved is within a second of its deadline. */
  ghost predicate DeadlineClose(s: State, c: ConnId, now: int) {
    exists k :: k in s.jobs && c in s.conns && k in s.conns[c].reserved && now >= s.jobs[k].deadline - SAFETY_MARGIN
  }

  lemma NearIsClose(s: State, c: ConnId, n: nat, now: int)
    requires c in s.conns && MemoOk(s.jobs, s.conns[c]) && forall j :: j in s.conns[c].reserved ==> j in s.jobs
    ensures var s1 := FillMemo(s.(tick := n), c);
            && MemoKnown(s1, c) && (DeadlineNear(s1, c, now) <==> DeadlineClose(s, c, now))
            && s1 == WithSoonest(s, c, s1.conns[c].soonest).(tick := n) && s1.drain == s.drain && (HasReady(s1, c) <==> HasReady(s, c))
  {
    SoonestIsLeast(s.(tick := n), c);
    hide FillMemo, MemoOk;
  }

  /** c is told DEADLINE_SOON, and nothing else happens. */
  ghost predicate Warned(s: State, c: ConnId, r: State) {
    && c in s.conns && c in r.conns && r.jobs == s.jobs && r.tubes == s.tubes
    && r.conns == s.conns[c := s.conns[c].(soonest := r.conns[c].soonest, phase := SendWord, reply := DeadlineSoon)]
  }

  /** c waits, and nothing else happens to jobs and connections. */
  ghost predicate NowWaits(s: State, c: ConnId, timeout: int, r: State) {
    && c in s.conns && c in r.conns && r.jobs == s.jobs
    && r.conns == s.conns[c := s.conns[c].(soonest := r.conns[c].soonest, phase := Wait, waiting := true, pendingTimeout := timeout)]
  }

  /** c is given the most urgent job on offer, its time to run starting at `at`; nobody else is given anything. */
  ghost predicate Given(s: State, c: ConnId, timeout: int, at: int, r: State) {
    && c in s.conns && c in r.conns && r.conns[c].out.Live?
    && var j := r.conns[c].out.job;
       && MostUrgent(s.jobs, Offer(s, c), j) && j in s.jobs
       && r.jobs == s.jobs[j := s.jobs[j].(deadline := at + s.jobs[j].ttr, state := Reserved, reserver := Some(c),
                                           reserves := s.jobs[j].reserves + 1)]
       && r.conns == s.conns[c := s.conns[c].(soonest := r.conns[c].soonest, pendingTimeout := timeout,
                                              reserved := [j] + s.conns[c].reserved, out := Live(j), phase := SendJob,
                                              reply := ReservedJob(j))]
  }

  lemma WarnedIs(s: State, c: ConnId, s1: State)
    requires c in s.conns && c in s1.conns && s1 == WithSoonest(s, c, s1.conns[c].soonest).(tick := s.tick + 1)
    ensures Warned(s, c, SendReply(s1, c, DeadlineSoon)) && s1.drain == s.drain
  {}

  lemma NowWaitsIs(s: State, c: ConnId, timeout: int, m: Option<JobId>, s2: State)
    requires c in s.conns && s2.jobs == s.jobs
    requires s2.conns == s.conns[c := s.conns[c].(soonest := m, phase := Wait, pendingTimeout := timeout, waiting := true)]
    ensures NowWaits(s, c, timeout, s2)
  {}

  lemma GivenIs(s: State, c: ConnId, timeout: int, m: Option<JobId>, s2: State, r: State, at: int)
    requires c in s.conns && !s.conns[c].waiting && ServedOne(s, c, s2, at, r)
    requires s2.conns == s.conns[c := s.conns[c].(soonest := m, phase := Wait, pendingTimeout := timeout, waiting := true)]
    ensures Given(s, c, timeout, at, r) && r.drain == s2.drain
  {
    hide MostUrgent, Offer;
  }

  /** reserve, while no pause runs out: a client with a deadline close and nothing ready in any tube
      it watches is told so; otherwise it is given the most urgent ready job of its unpaused tubes,
      the one with the smallest priority number and of these the oldest, if there is one, and waits
      if there is none. Nobody else is given anything. */
  lemma ReserveExact(s: State, c: ConnId, timeout: int, clock: Clock)
    requires Inv(s) && Idle(s, c) && NoPauseOver(s, clock(s.tick + 1))
    ensures var r := Reserve(s, c, timeout, clock);
            && r.drain == s.drain
            && if DeadlineClose(s, c, clock(s.tick)) && !ReadyWatched(s, c) then Warned(s, c, r)
               else if Offer(s, c) == {} then NowWaits(s, c, timeout, r)
               else Given(s, c, timeout, clock(s.tick + 2), r)
  {
    hide Inv, Mid, Settled, NoLostWakeup, FillMemo, StartWaiting, HasReady, ReadyWatched, DeadlineNear, DeadlineClose, Drain, OnlyWaiter,
      NoPauseOver, Offer, MemoOk, MostUrgent, Warned, NowWaits, Given, ServedOne, SendReply;
    IdleFacts(s, c);
    ReserveOk(s, c, timeout);
    HasReadyIs(s, c);
    NearIsClose(s, c, s.tick + 1, clock(s.tick));
    var s1 := FillMemo(s.(tick := s.tick + 1), c);
    var m := s1.conns[c].soonest;
    if DeadlineNear(s1, c, clock(s.tick)) && !HasReady(s1, c) {
      WarnedIs(s, c, s1);
      assert SendReply(s1, c, DeadlineSoon).drain == s1.drain by { ReplyDrain(s1, c, DeadlineSoon); }
    } else {
      var s2 := StartWaiting(s1, c, timeout).(tick := s.tick + 2);
      WaitsAs(s, c, timeout, s1);
      TickSettled(StartWaiting(s1, c, timeout), s.tick + 2);
      TickMid(StartWaiting(s1, c, timeout), s1.jobs, s.tick + 2, Nothing);
      StillNone(s, s2, clock(s.tick + 1));
      QueueServes(s, c, s2, clock(s.tick + 1), clock);
      var r := Drain(s2, clock(s.tick + 1), clock);
      if Offer(s, c) == {} {
        NowWaitsIs(s, c, timeout, m, r);
      } else {
        GivenIs(s, c, timeout, m, s2, r, clock(s.tick + 2));
      }
    }
  }

  lemma ReplyDrain(s: State, c: ConnId, m: Reply)
    requires c in s.conns
    ensures SendReply(s, c, m).drain == s.drain
  {}

  lemma StillNone(s: State, s2: State, now: int)
    requires NoPauseOver(s, now) && s2.tubes.Keys == s.tubes.Keys
    requires forall t :: t in s.tubes ==> s2.tubes[t].pause == s.tubes[t].pause && s2.tubes[t].deadline == s.tubes[t].deadline
    ensures NoPauseOver(s2, now)
  {}

  lemma WaitsAs(s: State, c: ConnId, timeout: int, s1: State)
    requires c in s.conns && c in s1.conns && s1 == WithSoonest(s, c, s1.conns[c].soonest).(tick := s.tick + 1)
    ensures var s2 := StartWaiting(s1, c, timeout).(tick := s.tick + 2);
            && StartWaiting(s1, c, timeout).tick == s.tick + 1 && StartWaiting(s1, c, timeout).jobs == s1.jobs == s.jobs
            && OnlyWaiter(s, c, s2) && s2.tubes.Keys == s.tubes.Keys && s2.drain == s.drain
            && s2.conns == s.conns[c := s.conns[c].(soonest := s1.conns[c].soonest, phase := Wait, pendingTimeout := timeout, waiting := true)]
            && (forall t :: t in s.tubes ==> s2.tubes[t].pause == s.tubes[t].pause && s2.tubes[t].deadline == s.tubes[t].deadline)
  {}

  // ----- reserve in a call that also ends pauses -----

  /** Job k is on offer to c once the pauses that are over at time now have been ended. */
  ghost predicate OnOffer(s: State, c: ConnId, now: int, k: JobId) {
    && c in s.conns && k in s.jobs && s.jobs[k].state == Ready && s.jobs[k].tube in s.conns[c].watch && s.jobs[k].tube in s.tubes
    && (s.tubes[s.jobs[k].tube].pause == 0 || s.tubes[s.jobs[k].tube].deadline <= now)
  }

  /** Such a job is eligible, and c waits for it. */
  lemma OfferedIsEligible(s: State, c: ConnId, now: int, k: JobId)
    requires TubesOwn(s.jobs, s.tubes) && Waits(s) && c in s.conns && s.conns[c].waiting && OnOffer(s, c, now, k)
    ensures k in Eligible(ClearPauses(s, now)) && WaitsFor(ClearPauses(s, now), k, c)
  {
    var t := s.jobs[k].tube;
    assert At(s.jobs, k, Ready, t) && WaitsOn(s.conns, c, t);
    hide TubesOwn, Waits;
  }

  /** The connection that was handed job j is at its place in the order. */
  lemma HandoutOf(s: State, h: seq<Handout>, r: State, c: ConnId, j: JobId) returns (a: nat)
    requires Delivered(s, h, r) && c in s.conns && c in r.conns && r.conns[c].reserved == [j] + s.conns[c].reserved
    requires ConnsOwn(r.jobs, r.conns) && ConnsOwn(s.jobs, s.conns) && j in s.jobs
    ensures a < |h| && h[a] == Handout(j, c)
  {
    assert j in r.conns[c].reserved && Held(r.jobs, j, c);
    assert j !in s.conns[c].reserved by { assert r.conns[c].reserved[0] == j && NoDup(r.conns[c].reserved); InTail(j, s.conns[c].reserved); }
    assert !Held(s.jobs, j, c);
    assert exists b :: 0 <= b < |h| && h[b].job == j;
    a :| a < |h| && h[a].job == j;
  }

  lemma InTail(j: JobId, list: seq<JobId>)
    requires NoDup([j] + list)
    ensures j !in list
  {
    assert forall i :: 0 <= i < |list| ==> ([j] + list)[i + 1] == list[i];
    assert ([j] + list)[0] == j;
  }

  /** A more urgent job that c waited for was handed out before c was given its own. */
  lemma PassedEarlier(s: State, h: seq<Handout>, c: ConnId, a: nat, k: JobId)
    requires NeverSkips(s, h) && OneEach(h) && a < |h| && h[a].conn == c
    requires h[a].job in s.jobs && k in s.jobs && k in Eligible(s) && WaitsFor(s, k, c) && MoreUrgent(s.jobs, k, h[a].job)
    ensures exists b :: 0 <= b < a && h[b].job == k
  {
    hide Eligible, WaitsFor, MoreUrgent;
    assert (forall b :: 0 <= b < a ==> h[b].job != k) ==> Passed(s, h, a, k);
  }

  /** It went to somebody else. */
  lemma PassedWasTaken(s: State, now: int, h: seq<Handout>, r: State, c: ConnId, a: nat, k: JobId)
    requires NeverSkips(ClearPauses(s, now), h) && OneEach(h) && Delivered(s, h, r) && a < |h| && h[a].conn == c
    requires h[a].job in s.jobs && k in s.jobs && k in Eligible(ClearPauses(s, now)) && WaitsFor(ClearPauses(s, now), k, c)
    requires MoreUrgent(s.jobs, k, h[a].job)
    ensures k in r.jobs && exists e :: e != c && Held(r.jobs, k, e)
  {
    hide Eligible, WaitsFor, MoreUrgent, NeverSkips, Held, WaitsOn;
    ClearPausesJobs(s, now);
    hide ClearPauses;
    PassedEarlier(ClearPauses(s, now), h, c, a, k);
    var b :| 0 <= b < a && h[b].job == k;
    assert h[b].conn != c && Held(r.jobs, k, h[b].conn);
  }

  lemma EligibleIsOffered(s: State, c: ConnId, now: int, j: JobId)
    requires TubesOwn(s.jobs, s.tubes) && c in s.conns && j in s.jobs && j in Eligible(ClearPauses(s, now))
    requires WaitsOn(s.conns, c, s.jobs[j].tube)
    ensures OnOffer(s, c, now, j)
  {
    var t := s.jobs[j].tube;
    assert j in s.tubes[t].ready <==> At(s.jobs, j, Ready, t);
  }

  /** Job j is the best that c can get: every other job on offer is less urgent, or somebody else has it. */
  ghost predicate BestFor(s: State, c: ConnId, now: int, j: JobId, r: State) {
    && OnOffer(s, c, now, j)
    && forall k :: OnOffer(s, c, now, k) && k != j ==> MoreUrgent(s.jobs, j, k) || exists e :: e != c && Held(r.jobs, k, e)
  }

  lemma ServedBest(s: State, c: ConnId, now: int, h: seq<Handout>, r: State, j: JobId)
    requires TubesOwn(s.jobs, s.tubes) && ConnsOwn(s.jobs, s.conns) && Waits(s) && ConnsOwn(r.jobs, r.conns)
    requires FromEligible(ClearPauses(s, now), h) && Delivered(s, h, r) && NeverSkips(ClearPauses(s, now), h) && OneEach(h)
    requires c in s.conns && s.conns[c].waiting && c in r.conns && r.conns[c].reserved == [j] + s.conns[c].reserved && j in s.jobs
    ensures BestFor(s, c, now, j, r)
  {
    var a := HandoutOf(s, h, r, c, j);
    ClearPausesJobs(s, now);
    assert WaitsOn(s.conns, h[a].conn, s.jobs[h[a].job].tube) && h[a].job in Eligible(ClearPauses(s, now));
    EligibleIsOffered(s, c, now, j);
    forall k | OnOffer(s, c, now, k) && k != j ensures MoreUrgent(s.jobs, j, k) || exists e :: e != c && Held(r.jobs, k, e) {
      hide TubesOwn, ConnsOwn, Waits, FromEligible, Delivered, NeverSkips, OneEach, Eligible, WaitsFor, Held, ClearPauses;
      OfferedIsEligible(s, c, now, k);
      if MoreUrgent(s.jobs, k, j) { PassedWasTaken(s, now, h, r, c, a, k); }
    }
  }

  lemma ServedOrWaits(s: State, r: State, c: ConnId)
    requires Served(s, r) && c in s.conns && s.conns[c].waiting
    ensures c in r.conns
    ensures r.conns[c].waiting ==> r.conns[c] == s.conns[c]
    ensures !r.conns[c].waiting ==>
              && r.conns[c].out.Live? && r.conns[c].reserved == [r.conns[c].out.job] + s.conns[c].reserved
              && r.conns[c].reply == ReservedJob(r.conns[c].out.job) && r.conns[c].phase == SendJob
    ensures r.jobs.Keys == s.jobs.Keys
  {
    assert ConnServed(s.conns[c], r.conns[c]);
  }

  lemma NothingForWaiter(s: State, c: ConnId)
    requires Waits(s) && NoLostWakeup(s) && c in s.conns && s.conns[c].waiting
    ensures forall t :: t in s.tubes && t in s.conns[c].watch && s.tubes[t].pause == 0 ==> s.tubes[t].ready == {}
  {
    assert forall t :: t in s.conns[c].watch ==> WaitsOn(s.conns, c, t);
  }

  lemma OutInIndex(s: State, c: ConnId)
    requires Mid(s, s.jobs, Nothing) && c in s.conns && s.conns[c].out.Live?
    ensures s.conns[c].out.job in s.jobs
  {
    hide Mid, Shape, Own, Waits, Counts, Memo, Refs;
    MidParts(s, s.jobs, Nothing);
    ConnFacts(s, c);
  }

  lemma WaiterServed(s: State, c: ConnId, now: int, clock: Clock)
    requires Settled(s) && Mid(s, s.jobs, Nothing) && c in s.conns && s.conns[c].waiting
    ensures var r := Drain(s, now, clock);
            && c in r.conns
            && if r.conns[c].waiting then
                 && r.conns[c] == s.conns[c]
                 && forall t :: t in r.tubes && t in r.conns[c].watch && r.tubes[t].pause == 0 ==> r.tubes[t].ready == {}
               else
                 && r.conns[c].out.Live? && r.conns[c].reply == ReservedJob(r.conns[c].out.job) && r.conns[c].phase == SendJob
                 && r.conns[c].reserved == [r.conns[c].out.job] + s.conns[c].reserved
                 && BestFor(s, c, now, r.conns[c].out.job, r)
  {
    hide *;
    var r := Drain(s, now, clock);
    DispatchOrder(s, now, clock);
    DrainMid(s, now, clock, Nothing);
    ServedOrWaits(s, r, c);
    MidParts(s, s.jobs, Nothing);
    OwnParts(s.jobs, s);
    MidParts(r, r.jobs, Nothing);
    OwnParts(r.jobs, r);
    if r.conns[c].waiting {
      NothingForWaiter(r, c);
    } else {
      OutInIndex(r, c);
      ServedBest(s, c, now, Handouts(s, now, clock), r, r.conns[c].out.job);
    }
  }

  lemma SameOffer(s: State, c: ConnId, now: int, s2: State, j: JobId, r: State)
    requires c in s.conns && c in s2.conns && s2.jobs == s.jobs && s2.conns[c].watch == s.conns[c].watch && s2.tubes.Keys == s.tubes.Keys
    requires forall t :: t in s.tubes ==> s2.tubes[t].pause == s.tubes[t].pause && s2.tubes[t].deadline == s.tubes[t].deadline
    ensures BestFor(s2, c, now, j, r) ==> BestFor(s, c, now, j, r)
  {
    hide Held;
    assert forall k :: OnOffer(s2, c, now, k) <==> OnOffer(s, c, now, k);
    hide OnOffer;
  }

  /** reserve in general, pauses ending or not: a client that is not told DEADLINE_SOON gets at most one
      job, and none on offer to it at that moment is more urgent unless somebody else has got it; or it
      waits, and then no unpaused tube it watches has a ready job. */
  lemma ReserveBest(s: State, c: ConnId, timeout: int, clock: Clock)
    requires Inv(s) && Idle(s, c) && !(DeadlineClose(s, c, clock(s.tick)) && !ReadyWatched(s, c))
    ensures var r, now := Reserve(s, c, timeout, clock), clock(s.tick + 1);
            && c in r.conns
            && if r.conns[c].waiting then
                 && r.conns[c].reserved == s.conns[c].reserved && r.conns[c].pendingTimeout == timeout
                 && forall t :: t in r.tubes && t in s.conns[c].watch && r.tubes[t].pause == 0 ==> r.tubes[t].ready == {}
               else
                 && r.conns[c].out.Live? && r.conns[c].reply == ReservedJob(r.conns[c].out.job) && r.conns[c].phase == SendJob
                 && r.conns[c].reserved == [r.conns[c].out.job] + s.conns[c].reserved
                 && BestFor(s, c, now, r.conns[c].out.job, r)
  {
    hide Inv, Mid, Settled, NoLostWakeup, FillMemo, StartWaiting, HasReady, ReadyWatched, DeadlineNear, DeadlineClose, Drain, OnlyWaiter,
      MemoOk, BestFor;
    IdleFacts(s, c);
    HasReadyIs(s, c);
    ReserveOk(s, c, timeout);
    NearIsClose(s, c, s.tick + 1, clock(s.tick));
    var s1 := FillMemo(s.(tick := s.tick + 1), c);
    var s2 := StartWaiting(s1, c, timeout).(tick := s.tick + 2);
    WaitsAs(s, c, timeout, s1);
    TickSettled(StartWaiting(s1, c, timeout), s.tick + 2);
    TickMid(StartWaiting(s1, c, timeout), s1.jobs, s.tick + 2, Nothing);
    WaiterServed(s2, c, clock(s.tick + 1), clock);
    var r := Reserve(s, c, timeout, clock);
    assert r == Drain(s2, clock(s.tick + 1), clock);
    if !r.conns[c].waiting { SameOffer(s, c, clock(s.tick + 1), s2, r.conns[c].out.job, r); }
  }
}
