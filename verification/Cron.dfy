/** conn_cron: due delayed jobs become ready, expired pauses end. */
module Cron {
  import opened Counting
  import opened Lists
  import opened State
  import opened Moves
  import opened JobMoves
  import opened Queue
  import opened Steps
  import opened Kick

  // ----- soonest_delay_job -----

  ghost predicate DelayedKnown(s: State, t: TubeId) {
    t in s.tubes && forall j :: j in s.tubes[t].delayed ==> At(s.jobs, j, Delayed, t)
  }

  /** One tube of the scan: its delay heap's top replaces the candidate only if strictly sooner. */
  ghost function Sooner(s: State, t: TubeId, best: Option<JobId>): (r: Option<JobId>)
    requires DelayedKnown(s, t)
    requires best.Some? ==> best.value in s.jobs && s.jobs[best.value].state == Delayed
    ensures r.Some? ==> r.value in s.jobs && s.jobs[r.value].state == Delayed
    ensures best.Some? ==> r.Some? && s.jobs[r.value].deadline <= s.jobs[best.value].deadline
    ensures forall j :: j in s.tubes[t].delayed ==> r.Some? && j in s.jobs && s.jobs[r.value].deadline <= s.jobs[j].deadline
  {
    if s.tubes[t].delayed == {} then best
    else
      var top := Top(s.jobs, Deadline, s.tubes[t].delayed);
      if best == None || s.jobs[top].deadline < s.jobs[best.value].deadline then Some(top) else best
  }

  /** The scan over the tubes in their list order. */
  ghost function SoonestFrom(s: State, list: seq<TubeId>, best: Option<JobId>): (r: Option<JobId>)
    requires forall t :: t in list ==> t in s.tubes && DelayedKnown(s, t)
    requires best.Some? ==> best.value in s.jobs && s.jobs[best.value].state == Delayed
    ensures r.Some? ==> r.value in s.jobs && s.jobs[r.value].state == Delayed
    ensures best.Some? ==> r.Some? && s.jobs[r.value].deadline <= s.jobs[best.value].deadline
    ensures forall t, j :: t in list && j in s.tubes[t].delayed ==>
              r.Some? && j in s.jobs && s.jobs[r.value].deadline <= s.jobs[j].deadline
  {
    hide Sooner;
    if list == [] then best
    else
      assert list == [list[0]] + list[1..];
      SoonestFrom(s, list[1..], Sooner(s, list[0], best))
  }

  ghost function SoonestDelay(s: State): (r: Option<JobId>)
    requires Settled(s)
    ensures r.Some? ==> r.value in s.jobs && s.jobs[r.value].state == Delayed && Known(s, r.value)
    ensures r == None ==> forall j :: j in s.jobs ==> s.jobs[j].state != Delayed
    ensures r.Some? ==> forall j :: j in s.jobs && s.jobs[j].state == Delayed ==> s.jobs[r.value].deadline <= s.jobs[j].deadline
  {
    SettledTubes(s);
    SettledKnows(s);
    hide Settled;
    SoonestFrom(s, s.tubeList, None)
  }

  lemma SettledTubes(s: State)
    requires Settled(s)
    ensures forall t :: t in s.tubeList <==> t in s.tubes
    ensures forall j :: j in s.jobs && s.jobs[j].state == Delayed ==>
              s.jobs[j].tube in s.tubes && j in s.tubes[s.jobs[j].tube].delayed
  {
    hide Mid, Shape, Own, TubesOwn, ConnsOwn, Incoming, Waits, Phases, Counts, Memo, Refs;
    var d :| Mid(s, s.jobs, d);
    MidParts(s, s.jobs, d);
    OwnParts(s.jobs, s);
    DelayedAreHeld(s);
  }

  lemma DelayedAreHeld(s: State)
    requires Shape(s) && TubesOwn(s.jobs, s.tubes)
    ensures forall t :: t in s.tubeList <==> t in s.tubes
    ensures forall j :: j in s.jobs && s.jobs[j].state == Delayed ==>
              s.jobs[j].tube in s.tubes && j in s.tubes[s.jobs[j].tube].delayed
  {
    assert forall j :: j in s.jobs && s.jobs[j].state == Delayed ==> At(s.jobs, j, Delayed, s.jobs[j].tube);
  }

  // ----- the promotion loop -----

  ghost function PromoteOne(s: State, j: JobId, clock: Clock): (r: State)
    requires Settled(s) && Known(s, j) && s.jobs[j].state == Delayed
    ensures Settled(r) && SameKeys(s, r)
  {
    hide Settled, InFlight, DelayRemove, Enqueue;
    PromoteOk(s, j, clock);
    Enqueue(DelayRemove(s, j), j, 0, clock)
  }

  lemma PromoteMid(s: State, j: JobId, clock: Clock, d: Slack)
    requires Mid(s, s.jobs, d) && Known(s, j) && s.jobs[j].state == Delayed
    ensures InFlight(DelayRemove(s, j), j)
    ensures var s2 := Enqueue(DelayRemove(s, j), j, 0, clock); Mid(s2, s2.jobs, d) && NoLostWakeup(s2)
  {
    hide Mid, InFlight, NoLostWakeup, DelayRemove, Enqueue, Served;
    DelayRemoveMid(s, j, d);
    DelayRemoveEffect(s, j);
    InFlightBy(DelayRemove(s, j), j, d);
    EnqueueMid(DelayRemove(s, j), j, 0, clock, d);
  }

  lemma PromoteOk(s: State, j: JobId, clock: Clock)
    requires Settled(s) && Known(s, j) && s.jobs[j].state == Delayed
    ensures InFlight(DelayRemove(s, j), j) && SameKeys(s, DelayRemove(s, j))
    ensures Settled(Enqueue(DelayRemove(s, j), j, 0, clock))
  {
    hide Mid, InFlight, NoLostWakeup, DelayRemove, Enqueue;
    var d :| Mid(s, s.jobs, d);
    PromoteMid(s, j, clock, d);
    DelayRemoveEffect(s, j);
    SettledBy(Enqueue(DelayRemove(s, j), j, 0, clock), d);
  }

  /** A promotion lets go of its job and of nothing else. */
  lemma PromoteStep(s: State, j: JobId, clock: Clock)
    requires Settled(s) && Known(s, j) && s.jobs[j].state == Delayed
    ensures Freed(s, {j}, PromoteOne(s, j, clock))
    ensures Count(PromoteOne(s, j, clock).jobs, HasState(Delayed)) < Count(s.jobs, HasState(Delayed))
  {
    hide Settled, InFlight, DelayRemove, Enqueue, Freed;
    PromoteOk(s, j, clock);
    DelayRemoveEffect(s, j);
    EnqueueFreed(s, DelayRemove(s, j), j, clock);
    FewerDelayed(s, j, PromoteOne(s, j, clock));
  }

  lemma FewerDelayed(s: State, j: JobId, r: State)
    requires Freed(s, {j}, r) && j in s.jobs && s.jobs[j].state == Delayed
    ensures Count(r.jobs, HasState(Delayed)) < Count(s.jobs, HasState(Delayed))
  {
    var a, b := Matching(s.jobs, HasState(Delayed)), Matching(r.jobs, HasState(Delayed));
    forall k | k in s.jobs && k in r.jobs ensures k in b ==> k in a && k != j {
      assert if k == j then JobFreed(s, s.jobs[k], r.jobs[k]) else JobServed(s, s.jobs[k], r.jobs[k]);
    }
    assert j in a && b <= a - {j};
    SubsetSize(b, a - {j});
  }

  ghost predicate Due(s: State, now: int)
    requires Settled(s)
  {
    SoonestDelay(s).Some? && s.jobs[SoonestDelay(s).value].deadline <= now
  }

  /** conn_cron's first loop; the jobs it promotes, in order, are Promoted. */
  ghost function Promote(s: State, now: int, clock: Clock): (r: State)
    requires Settled(s)
    ensures Settled(r)
    decreases Count(s.jobs, HasState(Delayed))
  {
    hide Settled, PromoteOne, SoonestDelay;
    if !Due(s, now) then s
    else
      var j := SoonestDelay(s).value;
      PromoteStep(s, j, clock);
      Promote(PromoteOne(s, j, clock), now, clock)
  }

  ghost function Promoted(s: State, now: int, clock: Clock): seq<JobId>
    requires Settled(s)
    decreases Count(s.jobs, HasState(Delayed))
  {
    hide Settled, PromoteOne, SoonestDelay;
    if !Due(s, now) then []
    else
      var j := SoonestDelay(s).value;
      PromoteStep(s, j, clock);
      [j] + Promoted(PromoteOne(s, j, clock), now, clock)
  }

  ghost function DueJobs(s: State, now: int): set<JobId> {
    set j | j in s.jobs && s.jobs[j].state == Delayed && s.jobs[j].deadline <= now
  }

  /** p lists the due jobs of s, each once, in nondecreasing order of deadline. */
  ghost predicate DueInOrder(s: State, now: int, p: seq<JobId>) {
    && Elements(p) == DueJobs(s, now) && NoDup(p)
    && (forall a, b :: 0 <= a < b < |p| ==> p[a] in s.jobs && p[b] in s.jobs && s.jobs[p[a]].deadline <= s.jobs[p[b]].deadline)
  }

  /** Exactly the due jobs leave the delay heaps, in nondecreasing order of deadline, and
      afterwards no delayed job is due. */
  lemma {:induction false} PromoteExact(s: State, now: int, clock: Clock)
    requires Settled(s)
    ensures var r, p := Promote(s, now, clock), Promoted(s, now, clock);
            DueInOrder(s, now, p) && Freed(s, DueJobs(s, now), r) && DueJobs(r, now) == {}
    decreases Count(s.jobs, HasState(Delayed))
  {
    hide Settled, PromoteOne, SoonestDelay, Freed, DueInOrder;
    if !Due(s, now) {
      assert DueJobs(s, now) == {};
      NoneDue(s, now);
      FreedNone(s);
    } else {
      var j := SoonestDelay(s).value;
      var s1 := PromoteOne(s, j, clock);
      PromoteStep(s, j, clock);
      PromoteExact(s1, now, clock);
      DueAfter(s, j, s1, now);
      FreedTrans(s, {j}, s1, DueJobs(s1, now), Promote(s1, now, clock));
      PromoteJoin(s, j, s1, now, Promoted(s1, now, clock));
    }
  }

  lemma DueAfter(s: State, j: JobId, s1: State, now: int)
    requires Freed(s, {j}, s1) && j in DueJobs(s, now)
    ensures DueJobs(s, now) == {j} + DueJobs(s1, now) && j !in DueJobs(s1, now)
    ensures forall k :: k in DueJobs(s1, now) ==> k in s.jobs && k in s1.jobs && s1.jobs[k] == s.jobs[k]
  {
    forall k | k in s.jobs && k in s1.jobs
      ensures k in DueJobs(s1, now) <==> k in DueJobs(s, now) && k != j
      ensures k in DueJobs(s1, now) ==> s1.jobs[k] == s.jobs[k]
    {
      assert if k == j then JobFreed(s, s.jobs[k], s1.jobs[k]) else JobServed(s, s.jobs[k], s1.jobs[k]);
    }
  }

  lemma NoneDue(s: State, now: int)
    requires DueJobs(s, now) == {}
    ensures DueInOrder(s, now, [])
  {}

  lemma PromoteJoin(s: State, j: JobId, s1: State, now: int, p: seq<JobId>)
    requires j in s.jobs && forall k :: k in DueJobs(s1, now) ==> k in s.jobs && k in s1.jobs && s1.jobs[k] == s.jobs[k]
    requires forall k :: k in DueJobs(s1, now) ==> k in s.jobs && s.jobs[j].deadline <= s.jobs[k].deadline
    requires DueJobs(s, now) == {j} + DueJobs(s1, now) && j !in DueJobs(s1, now)
    requires DueInOrder(s1, now, p)
    ensures DueInOrder(s, now, [j] + p)
  {
    hide DueJobs;
    assert forall a :: 0 <= a < |p| ==> p[a] in Elements(p);
    assert Elements([j] + p) == {j} + Elements(p);
  }

  lemma {:induction false} PromoteMidAll(s: State, now: int, clock: Clock)
    requires Settled(s) && Mid(s, s.jobs, Nothing) && NoLostWakeup(s)
    ensures var r := Promote(s, now, clock); Mid(r, r.jobs, Nothing) && NoLostWakeup(r)
    decreases Count(s.jobs, HasState(Delayed))
  {
    hide Settled, SoonestDelay, Mid, NoLostWakeup, InFlight, DelayRemove, Enqueue;
    if Due(s, now) {
      var j := SoonestDelay(s).value;
      PromoteStep(s, j, clock);
      PromoteMid(s, j, clock, Nothing);
      PromoteMidAll(PromoteOne(s, j, clock), now, clock);
    }
  }

  // ----- the pauses -----

  /** One turn of conn_cron's second loop. */
  ghost function EndPause(s: State, t: TubeId, now: int, clock: Clock): (r: State)
    requires Settled(s) && t in s.tubes
    ensures Settled(r) && SameKeys(s, r)
  {
    hide Settled, ProcessQueue;
    if s.tubes[t].pause != 0 && s.tubes[t].deadline <= now then
      EndPauseOk(s, t, clock);
      ProcessQueue(PutTube(s, t, s.tubes[t].(pause := 0)), clock)
    else s
  }

  lemma EndPauseMid(s: State, t: TubeId, clock: Clock, d: Slack)
    requires Mid(s, s.jobs, d) && t in s.tubes
    ensures var s1 := PutTube(s, t, s.tubes[t].(pause := 0));
            && Settled(s1) && Mid(ProcessQueue(s1, clock), ProcessQueue(s1, clock).jobs, d)
            && NoLostWakeup(ProcessQueue(s1, clock)) && Served(s1, ProcessQueue(s1, clock))
  {
    hide Mid, Settled, ProcessQueue, NoLostWakeup, Served;
    var x := s.tubes[t].(pause := 0);
    TubeStatsMid(s, t, x, s.jobs, d);
    SettledBy(PutTube(s, t, x), d);
    ProcessQueueMid(PutTube(s, t, x), clock, d);
  }

  lemma EndPauseOk(s: State, t: TubeId, clock: Clock)
    requires Settled(s) && t in s.tubes
    ensures var s1 := PutTube(s, t, s.tubes[t].(pause := 0));
            Settled(s1) && Settled(ProcessQueue(s1, clock)) && Served(s1, ProcessQueue(s1, clock)) && SameKeys(s, s1)
  {
    hide Mid, ProcessQueue, NoLostWakeup, Served;
    var d :| Mid(s, s.jobs, d);
    EndPauseMid(s, t, clock, d);
    SettledBy(ProcessQueue(PutTube(s, t, s.tubes[t].(pause := 0)), clock), d);
  }

  ghost function EndPauses(s: State, list: seq<TubeId>, now: int, clock: Clock): (r: State)
    requires Settled(s) && forall t :: t in list ==> t in s.tubes
    decreases list
  {
    hide Settled, EndPause;
    if list == [] then s
    else
      assert forall t :: t in list[1..] ==> t in list;
      EndPauses(EndPause(s, list[0], now, clock), list[1..], now, clock)
  }

  /** A pause that is over; process_queue ends only such pauses and starts none. */
  predicate Paused(x: Tube, now: int) { x.pause != 0 && x.deadline > now }

  lemma EndPauseEffect(s: State, t: TubeId, now: int, clock: Clock)
    requires Settled(s) && t in s.tubes
    ensures var r := EndPause(s, t, now, clock);
            && SameKeys(s, r) && (r.tubes[t].pause == 0 || Paused(r.tubes[t], now))
            && (forall u :: u in s.tubes ==> r.tubes[u].deadline == s.tubes[u].deadline
                                             && (r.tubes[u].pause == 0 || r.tubes[u].pause == s.tubes[u].pause))
  {
    hide Settled, ProcessQueue, Served;
    if s.tubes[t].pause != 0 && s.tubes[t].deadline <= now {
      EndPauseOk(s, t, clock);
      var s1 := PutTube(s, t, s.tubes[t].(pause := 0));
      ServedPauses(s1, ProcessQueue(s1, clock));
    }
  }

  lemma ServedPauses(s: State, s2: State)
    requires Served(s, s2)
    ensures SameKeys(s, s2)
    ensures forall u :: u in s.tubes ==> s2.tubes[u].deadline == s.tubes[u].deadline
                                         && (s2.tubes[u].pause == 0 || s2.tubes[u].pause == s.tubes[u].pause)
  {
    assert forall u :: u in s.tubes ==> TubeServed(s.tubes[u], s2.tubes[u]);
    hide Served;
  }

  lemma {:induction false} EndPausesExact(s: State, list: seq<TubeId>, now: int, clock: Clock)
    requires Settled(s) && forall t :: t in list ==> t in s.tubes
    ensures var r := EndPauses(s, list, now, clock);
            && SameKeys(s, r)
            && (forall t :: t in list ==> r.tubes[t].pause == 0 || Paused(r.tubes[t], now))
            && (forall u :: u in s.tubes ==> r.tubes[u].deadline == s.tubes[u].deadline
                                             && (r.tubes[u].pause == 0 || r.tubes[u].pause == s.tubes[u].pause))
    decreases list
  {
    hide Settled, EndPause;
    if list != [] {
      assert list == [list[0]] + list[1..];
      EndPauseEffect(s, list[0], now, clock);
      EndPausesExact(EndPause(s, list[0], now, clock), list[1..], now, clock);
    }
  }

  lemma {:induction false} EndPausesMid(s: State, list: seq<TubeId>, now: int, clock: Clock)
    requires Settled(s) && (forall t :: t in list ==> t in s.tubes) && Mid(s, s.jobs, Nothing) && NoLostWakeup(s)
    ensures var r := EndPauses(s, list, now, clock); Mid(r, r.jobs, Nothing) && NoLostWakeup(r)
    decreases list
  {
    hide Settled, ProcessQueue, Mid, NoLostWakeup, Served;
    if list != [] {
      assert forall t :: t in list[1..] ==> t in list;
      EndPauseMid(s, list[0], clock, Nothing);
      EndPausesMid(EndPause(s, list[0], now, clock), list[1..], now, clock);
    }
  }

  /** conn_cron up to the tick events. */
  ghost function CronTick(s: State, clock: Clock): State
    requires Inv(s)
  {
    CronOk(s);
    var now := clock(s.tick);
    var s1 := Promote(s.(tick := s.tick + 1), now, clock);
    SettledTubes(s1);
    EndPauses(s1, s1.tubeList, now, clock)
  }

  lemma CronOk(s: State)
    requires Inv(s)
    ensures Settled(s.(tick := s.tick + 1)) && NoLostWakeup(s.(tick := s.tick + 1))
    ensures Mid(s.(tick := s.tick + 1), s.jobs, Nothing)
  {
    hide Inv, Mid, Settled;
    InvParts(s);
    TickMid(s, s.jobs, s.tick + 1, Nothing);
    SettledBy(s.(tick := s.tick + 1), Nothing);
    SameTubesNoLostWakeup(s, s.(tick := s.tick + 1));
  }

  lemma CronTickInv(s: State, clock: Clock)
    requires Inv(s)
    ensures Inv(CronTick(s, clock))
  {
    hide Inv, Mid, Settled, NoLostWakeup, Promote, EndPauses;
    CronOk(s);
    var now := clock(s.tick);
    var s0 := s.(tick := s.tick + 1);
    PromoteMidAll(s0, now, clock);
    var s1 := Promote(s0, now, clock);
    SettledTubes(s1);
    EndPausesMid(s1, s1.tubeList, now, clock);
    InvParts(EndPauses(s1, s1.tubeList, now, clock));
  }

  lemma ServedIsFreed(s: State, s1: State, s2: State)
    requires Served(s1, s2) && SameKeys(s, s1) && s1.jobs == s.jobs && s1.conns == s.conns
    ensures Freed(s, {}, s2)
  {
    assert SameKeys(s1, s2);
    assert forall j :: j in s.jobs ==> JobServed(s1, s1.jobs[j], s2.jobs[j]);
    assert forall c :: c in s.conns ==> ConnServed(s1.conns[c], s2.conns[c]);
    hide Served;
  }

  lemma {:induction false} EndPausesFreed(s: State, list: seq<TubeId>, now: int, clock: Clock)
    requires Settled(s) && (forall t :: t in list ==> t in s.tubes)
    ensures Freed(s, {}, EndPauses(s, list, now, clock))
    decreases list
  {
    hide Settled, ProcessQueue, Freed, Served;
    if list == [] {
      FreedNone(s);
    } else {
      assert forall t :: t in list[1..] ==> t in list;
      var t, s1 := list[0], EndPause(s, list[0], now, clock);
      if s.tubes[t].pause != 0 && s.tubes[t].deadline <= now {
        EndPauseOk(s, t, clock);
        ServedIsFreed(s, PutTube(s, t, s.tubes[t].(pause := 0)), s1);
      } else {
        FreedNone(s);
      }
      EndPausesFreed(s1, list[1..], now, clock);
      FreedTrans(s, {}, s1, {}, EndPauses(s1, list[1..], now, clock));
      var none: set<JobId> := {};
      assert none + none == none;
    }
  }

  lemma FreedDue(s: State, r: State, now: int)
    requires Freed(s, {}, r) && DueJobs(s, now) == {}
    ensures DueJobs(r, now) == {}
  {
    forall j | j in r.jobs && j in s.jobs ensures j !in DueJobs(r, now) {
      assert JobServed(s, s.jobs[j], r.jobs[j]) && j !in DueJobs(s, now);
    }
    hide JobServed;
  }

  /** After a cron tick no delayed job is due and no pause is over: exactly the due jobs were
      let go, and every tube is open or paused beyond the tick's own time. */
  lemma CronTickExact(s: State, clock: Clock)
    requires Inv(s)
    ensures var r, now := CronTick(s, clock), clock(s.tick);
            && Freed(s, DueJobs(s, now), r) && DueJobs(r, now) == {}
            && (forall t :: t in r.tubes ==> r.tubes[t].pause == 0 || Paused(r.tubes[t], now))
  {
    hide Inv, Settled, NoLostWakeup, Promote, EndPauses, Freed, Mid, DueJobs;
    CronOk(s);
    var now := clock(s.tick);
    var s0 := s.(tick := s.tick + 1);
    PromoteExact(s0, now, clock);
    var s1 := Promote(s0, now, clock);
    SettledTubes(s1);
    EndPausesExact(s1, s1.tubeList, now, clock);
    EndPausesFreed(s1, s1.tubeList, now, clock);
    var r := EndPauses(s1, s1.tubeList, now, clock);
    FreedDue(s1, r, now);
    FreedTrans(s0, DueJobs(s0, now), s1, {}, r);
    assert DueJobs(s0, now) + {} == DueJobs(s0, now);
    TickFreed(s, s0, DueJobs(s0, now), r, now);
  }

  lemma TickFreed(s: State, s0: State, m: set<JobId>, r: State, now: int)
    requires s0 == s.(tick := s.tick + 1) && Freed(s0, m, r)
    ensures Freed(s, m, r) && DueJobs(s0, now) == DueJobs(s, now)
  {}
}
