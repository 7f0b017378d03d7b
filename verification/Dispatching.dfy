/** conn.c's waiting sets and process_queue, in place. */
module Dispatching {
  import Counting
  import opened Lists
  import opened State
  import opened Moves
  import opened JobMoves
  import opened Queue
  import opened Objects
  import opened Machine
  import opened Queueing

  // ----- waiting sets -----

  /** set_take on the waiting set of a tube. */
  method TakeFirstWaiter(sv: Server, t: TubeId) returns (c: ConnId)
    requires sv.Rep() && t in sv.model.tubes && sv.model.tubes[t].waiting.items != []
    modifies sv.Repr
    ensures sv.Rep() && sv.Grows() && c == NextWaiter(old(sv.model).tubes[t]) && sv.model == TakeWaiter(old(sv.model), t)
  {
    hide Server.Rep, Take, TakeIndex;
    var x := sv.TubeRec(t);
    c := NextWaiter(x);
    sv.SetTube(t, x.(waiting := Take(x.waiting)));
  }

  /** RemoveWaiting, as far as the tubes in list. */
  ghost function LeaveSome(s: State, c: ConnId, list: seq<TubeId>): State
    requires c in s.conns
  {
    s.(conns := s.conns[c := s.conns[c].(waiting := false)], waitingCnt := s.waitingCnt - 1,
       tubes := map t | t in s.tubes :: LeaveTube(s.tubes[t], t in list, c))
  }

  lemma LeaveNone(s: State, c: ConnId)
    requires c in s.conns
    ensures LeaveSome(s, c, []) == Counted(PutConn(s, c, s.conns[c].(waiting := false)), 0, 0, 0, 0, -1)
  {
    assert (map t | t in s.tubes :: LeaveTube(s.tubes[t], t in [], c)) == s.tubes;
  }

  lemma LeaveOneMore(s: State, c: ConnId, list: seq<TubeId>, t: TubeId)
    requires c in s.conns && t in s.tubes && t !in list
    ensures t in LeaveSome(s, c, list).tubes && LeaveSome(s, c, list).tubes[t] == s.tubes[t]
    ensures PutTube(LeaveSome(s, c, list), t, LeaveTube(s.tubes[t], true, c)) == LeaveSome(s, c, list + [t])
  {
    assert LeaveSome(s, c, list).tubes[t := LeaveTube(s.tubes[t], true, c)] == LeaveSome(s, c, list + [t]).tubes;
  }

  ghost predicate WatchOk(s: State, c: ConnId) {
    c in s.conns && NoDup(s.conns[c].watch) && forall t :: t in s.conns[c].watch ==> t in s.tubes
  }

  /** conn_remove_waiting. */
  method LeaveWaiting(sv: Server, c: ConnId)
    requires sv.Rep() && WatchOk(sv.model, c)
    modifies sv.Repr
    ensures sv.Rep() && sv.Grows() && sv.model == RemoveWaiting(old(sv.model), c)
  {
    hide Server.Rep, LeaveSome, SwapRemove;
    ghost var s := sv.model;
    var k := sv.ConnRec(c);
    if k.waiting {
      sv.SetConn(c, k.(waiting := false));
      sv.Count(0, 0, 0, 0, -1);
      LeaveNone(s, c);
      for i := 0 to |k.watch|
        invariant sv.Rep() && sv.Grows() && sv.model == LeaveSome(s, c, k.watch[..i])
      {
        var t := k.watch[i];
        LeaveOneMore(s, c, k.watch[..i], t);
        var x := sv.TubeRec(t);
        sv.SetTube(t, LeaveTube(x, true, c));
        assert k.watch[..i + 1] == k.watch[..i] + [t];
      }
      assert k.watch[..|k.watch|] == k.watch;
      LeaveAll(s, c);
    }
  }

  lemma LeaveAll(s: State, c: ConnId)
    requires c in s.conns && s.conns[c].waiting
    ensures LeaveSome(s, c, s.conns[c].watch) == RemoveWaiting(s, c)
  {}

  /** EnqueueWaiting, as far as the tubes in list. */
  ghost function JoinSome(s: State, c: ConnId, list: seq<TubeId>): State
    requires c in s.conns
  {
    s.(conns := s.conns[c := s.conns[c].(waiting := true)], waitingCnt := s.waitingCnt + 1,
       tubes := map t | t in s.tubes :: JoinTube(s.tubes[t], t in list, c))
  }

  lemma JoinNone(s: State, c: ConnId)
    requires c in s.conns
    ensures JoinSome(s, c, []) == PutConn(Counted(s, 0, 0, 0, 0, 1), c, s.conns[c].(waiting := true))
  {
    assert (map t | t in s.tubes :: JoinTube(s.tubes[t], t in [], c)) == s.tubes;
  }

  lemma JoinOneMore(s: State, c: ConnId, list: seq<TubeId>, t: TubeId)
    requires c in s.conns && t in s.tubes && t !in list
    ensures t in JoinSome(s, c, list).tubes && JoinSome(s, c, list).tubes[t] == s.tubes[t]
    ensures PutTube(JoinSome(s, c, list), t, JoinTube(s.tubes[t], true, c)) == JoinSome(s, c, list + [t])
  {
    assert JoinSome(s, c, list).tubes[t := JoinTube(s.tubes[t], true, c)] == JoinSome(s, c, list + [t]).tubes;
  }

  /** conn_enqueue_waiting. */
  method JoinWaiting(sv: Server, c: ConnId)
    requires sv.Rep() && WatchOk(sv.model, c)
    modifies sv.Repr
    ensures sv.Rep() && sv.Grows() && sv.model == EnqueueWaiting(old(sv.model), c)
  {
    hide Server.Rep, JoinSome;
    ghost var s := sv.model;
    var k := sv.ConnRec(c);
    sv.Count(0, 0, 0, 0, 1);
    sv.SetConn(c, k.(waiting := true));
    JoinNone(s, c);
    for i := 0 to |k.watch|
      invariant sv.Rep() && sv.Grows() && sv.model == JoinSome(s, c, k.watch[..i])
    {
      var t := k.watch[i];
      JoinOneMore(s, c, k.watch[..i], t);
      sv.SetTube(t, JoinTube(sv.TubeRec(t), true, c));
      assert k.watch[..i + 1] == k.watch[..i] + [t];
    }
    assert k.watch[..|k.watch|] == k.watch;
    JoinAll(s, c);
  }

  lemma JoinAll(s: State, c: ConnId)
    requires c in s.conns
    ensures JoinSome(s, c, s.conns[c].watch) == EnqueueWaiting(s, c)
  {}

  // ----- next_eligible_job -----

  /** ClearPauses, as far as the tubes in list. */
  ghost function ClearSome(s: State, now: int, list: seq<TubeId>): State {
    s.(tubes := map t | t in s.tubes :: if t in list then Unpaused(s.tubes[t], now) else s.tubes[t])
  }

  lemma ClearNone(s: State, now: int)
    ensures ClearSome(s, now, []) == s
  {
    assert ClearSome(s, now, []).tubes == s.tubes;
  }

  lemma ClearOneMore(s: State, now: int, list: seq<TubeId>, t: TubeId)
    requires t in s.tubes && t !in list
    ensures t in ClearSome(s, now, list).tubes && ClearSome(s, now, list).tubes[t] == s.tubes[t]
    ensures PutTube(ClearSome(s, now, list), t, Unpaused(s.tubes[t], now)) == ClearSome(s, now, list + [t])
    ensures Unpaused(s.tubes[t], now) == s.tubes[t] ==> ClearSome(s, now, list + [t]) == ClearSome(s, now, list)
  {
    assert ClearSome(s, now, list).tubes[t := Unpaused(s.tubes[t], now)] == ClearSome(s, now, list + [t]).tubes;
    assert Unpaused(s.tubes[t], now) == s.tubes[t] ==> ClearSome(s, now, list + [t]).tubes == ClearSome(s, now, list).tubes;
  }

  lemma ClearAll(s: State, now: int, list: seq<TubeId>)
    requires forall t :: t in s.tubes ==> t in list
    ensures ClearSome(s, now, list) == ClearPauses(s, now)
  {
    assert ClearSome(s, now, list).tubes == ClearPauses(s, now).tubes;
  }

  /** The eligible jobs of the tubes in list. */
  ghost function EligibleIn(s: State, list: seq<TubeId>): set<JobId> {
    set j | j in Eligible(s) && s.jobs[j].tube in list
  }

  /** best is the most urgent eligible job of the tubes in list, if there is any. */
  ghost predicate Best(s: State, list: seq<TubeId>, best: Option<JobId>) {
    match best
    case None => EligibleIn(s, list) == {}
    case Some(j) => j in EligibleIn(s, list) && EligibleIn(s, list) <= s.jobs.Keys && IsTop(s.jobs, Pri, EligibleIn(s, list), j)
  }

  /** Where jobs are, and that all tubes are listed. */
  ghost predicate Placed(s: State) {
    && TubesOwn(s.jobs, s.tubes) && NoDup(s.tubeList)
    && (forall t :: t in s.tubeList <==> t in s.tubes)
    && (forall j :: j in s.jobs ==> s.jobs[j].tube in s.tubes)
  }

  /** One more tube considered: its most urgent ready job competes if it is open. */
  lemma BestStep(s: State, list: seq<TubeId>, t: TubeId, best: Option<JobId>, root: Option<JobId>)
    requires Placed(s) && t in s.tubes && t !in list && Best(s, list, best)
    requires if Open(s, t) && s.tubes[t].ready != {} then
               root.Some? && s.tubes[t].ready <= s.jobs.Keys && IsTop(s.jobs, Pri, s.tubes[t].ready, root.value)
             else root == None
    ensures best.Some? ==> best.value in s.jobs
    ensures root.Some? ==> root.value in s.jobs
    ensures Best(s, list + [t], if root.Some? && (best == None || Less(s.jobs, Pri, root.value, best.value)) then root else best)
  {
    forall j | j in Eligible(s) ensures s.jobs[j].tube == t ==> Open(s, t) && j in s.tubes[t].ready {}
    forall j | j in s.jobs && Open(s, t) && j in s.tubes[t].ready ensures j in Eligible(s) && s.jobs[j].tube == t {
      assert At(s.jobs, j, Ready, t);
    }
    var a, b := EligibleIn(s, list), EligibleIn(s, list + [t]);
    assert Open(s, t) ==> b == a + s.tubes[t].ready;
    assert !Open(s, t) ==> b == a;
  }

  lemma PlacedClear(s: State, now: int, list: seq<TubeId>)
    requires Placed(s)
    ensures Placed(ClearSome(s, now, list))
  {
    hide NoDup;
    TubesOwnFrame(s.jobs, s.jobs, s.tubes, ClearSome(s, now, list).tubes);
  }

  /** Clearing the pause of one more tube does not change what the others offer. */
  lemma BestKeeps(s: State, now: int, list: seq<TubeId>, t: TubeId, best: Option<JobId>)
    requires Best(ClearSome(s, now, list), list, best) && t !in list
    ensures Best(ClearSome(s, now, list + [t]), list, best)
  {
    var a, b := ClearSome(s, now, list), ClearSome(s, now, list + [t]);
    assert forall u :: u in list && u in s.tubes ==> b.tubes[u] == a.tubes[u];
    assert EligibleIn(b, list) == EligibleIn(a, list);
  }

  lemma TopUnique(jobs: map<JobId, Job>, key: Job -> int, s: set<JobId>, j: JobId, k: JobId)
    requires s <= jobs.Keys && IsTop(jobs, key, s, j) && IsTop(jobs, key, s, k)
    ensures j == k
  {}

  lemma BestOfAll(s: State, list: seq<TubeId>, best: Option<JobId>)
    requires Placed(s) && Best(s, list, best) && forall t :: t in s.tubes ==> t in list
    ensures best == None <==> Eligible(s) == {}
    ensures best.Some? ==> best.value in Eligible(s) && best.value == NextEligible(s)
  {
    assert EligibleIn(s, list) == Eligible(s);
    if best.Some? { TopUnique(s.jobs, Pri, Eligible(s), best.value, NextEligible(s)); }
  }

  /** job_pri_less. */
  predicate PriLess(x: Job, i: JobId, y: Job, j: JobId) {
    x.pri < y.pri || (x.pri == y.pri && i < j)
  }

  /** The body of next_eligible_job's loop. */
  method ConsiderTube(sv: Server, t: TubeId, now: int, best: Option<JobId>, ghost s: State, ghost list: seq<TubeId>)
    returns (better: Option<JobId>)
    requires sv.Rep() && Placed(s) && sv.model == ClearSome(s, now, list) && t in s.tubes && t !in list && Best(sv.model, list, best)
    modifies sv.Repr
    ensures sv.Rep() && sv.Grows() && sv.model == ClearSome(s, now, list + [t]) && Best(sv.model, list + [t], better)
  {
    hide Server.Rep, ClearSome, Placed, Best, TubesOwn, IsTop, Server.HeapSize, Server.HeapRoot;
    ClearOneMore(s, now, list, t);
    PlacedClear(s, now, list + [t]);
    BestKeeps(s, now, list, t, best);
    var x := sv.TubeRec(t);
    if x.pause != 0 && x.deadline <= now {
      sv.SetTube(t, x.(pause := 0));
    }
    assert sv.model == ClearSome(s, now, list + [t]);
    better := Compete(sv, t, best, list);
  }

  /** The second half of the loop's body: the root of an open tube competes with the best so far. */
  method Compete(sv: Server, t: TubeId, best: Option<JobId>, ghost list: seq<TubeId>) returns (better: Option<JobId>)
    requires sv.Rep() && Placed(sv.model) && t in sv.model.tubes && t !in list && Best(sv.model, list, best)
    ensures Best(sv.model, list + [t], better)
  {
    hide Server.Rep, Best, TubesOwn, IsTop, Server.HeapSize, Server.HeapRoot;
    sv.RootIsTop(t, ByPri);
    var x := sv.TubeRec(t);
    var root := None;
    if x.pause == 0 && x.waiting.items != [] && sv.HeapSize(t, ByPri) > 0 {
      root := Some(sv.HeapRoot(t, ByPri));
    }
    BestStep(sv.model, list, t, best, root);
    better := best;
    if root.Some? && (best == None || PriLess(sv.JobRec(root.value), root.value, sv.JobRec(best.value), best.value)) {
      better := root;
    }
  }

  /** next_eligible_job: end the pauses that are over, and find the most urgent job that can be handed out. */
  method NextEligibleJob(sv: Server, now: int) returns (best: Option<JobId>)
    requires sv.Rep() && Placed(sv.model)
    modifies sv.Repr
    ensures sv.Rep() && sv.Grows() && sv.model == ClearPauses(old(sv.model), now)
    ensures best == None <==> Eligible(sv.model) == {}
    ensures best.Some? ==> best.value in Eligible(sv.model) && best.value == NextEligible(sv.model)
    ensures best.Some? ==>
              forall k :: k in Eligible(sv.model) && k != best.value ==>
                k in sv.model.jobs && best.value in sv.model.jobs && MoreUrgent(sv.model.jobs, best.value, k)
  {
    hide Server.Rep, MoreUrgent, ClearSome, ClearPauses, Best, TubesOwn, Eligible, NextEligible, NoDup;
    ghost var s := sv.model;
    var list := sv.Tubes();
    best := None;
    ClearNone(s, now);
    NothingYet(s);
    for i := 0 to |list|
      invariant sv.Rep() && sv.Grows() && sv.model == ClearSome(s, now, list[..i]) && Best(sv.model, list[..i], best)
    {
      NotYet(list, i);
      best := ConsiderTube(sv, list[i], now, best, s, list[..i]);
      assert list[..i + 1] == list[..i] + [list[i]];
    }
    assert list[..|list|] == list;
    ClearAll(s, now, list);
    PlacedClear(s, now, list);
    ClearTubes(s, now, list);
    BestOfAll(sv.model, list, best);
  }

  lemma ClearTubes(s: State, now: int, list: seq<TubeId>)
    ensures ClearSome(s, now, list).tubes.Keys == s.tubes.Keys
  {}

  lemma NothingYet(s: State)
    ensures Best(s, [], None)
  {}

  lemma NotYet<T(!new)>(list: seq<T>, i: nat)
    requires i < |list| && NoDup(list)
    ensures list[i] !in list[..i]
  {}

  // ----- process_queue -----

  lemma SettledPlaced(s: State)
    requires Settled(s)
    ensures Placed(s)
  {
    hide ConnsOwn, Incoming, Waits, Phases, Counts, Memo, Refs;
    var d :| Mid(s, s.jobs, d);
  }

  /** What process_queue's body relies on when it hands out job j. */
  ghost predicate CanHandOut(s: State, j: JobId) {
    && Known(s, j) && Open(s, s.jobs[j].tube) && InHeapOf(s, s.jobs[j].tube, ByPri, j)
    && NoHeap(ReadyRemove(s, j), j)
    && WatchOk(s, NextWaiter(s.tubes[s.jobs[j].tube])) && MemoKnown(s, NextWaiter(s.tubes[s.jobs[j].tube]))
  }

  /** A job in flight is in no heap. */
  lemma FlightNoHeap(live: map<JobId, Job>, s: State, j: JobId)
    requires TubesOwn(live, s.tubes) && j !in live
    ensures NoHeap(s, j)
  {
    assert forall st, t :: !At(live, j, st, t);
  }

  lemma WaiterWatchOk(s: State, t: TubeId)
    requires Shape(s) && Waits(s) && t in s.tubes && s.tubes[t].waiting.items != []
    ensures WatchOk(s, NextWaiter(s.tubes[t]))
  {
    assert WaitsOn(s.conns, NextWaiter(s.tubes[t]), t);
  }

  lemma SettledHandOut(s: State, j: JobId)
    requires Settled(s) && j in Eligible(s)
    requires Known(s, j) && Open(s, s.jobs[j].tube) && MemoKnown(s, NextWaiter(s.tubes[s.jobs[j].tube]))
    ensures CanHandOut(s, j)
  {
    var d :| Mid(s, s.jobs, d);
    assert s.jobs[j].state == Ready by { DispatchIsHandMid(s, j, _ => 0, d); }
    hide *;
    MidParts(s, s.jobs, d);
    assert Open(s, s.jobs[j].tube) && j in s.tubes[s.jobs[j].tube].ready && s.tubes[s.jobs[j].tube].waiting.items != [] by {
      EligibleOpen(s, j);
    }
    WaiterWatchOk(s, s.jobs[j].tube);
    ReadyRemoveMid(s, j, d);
    MidParts(ReadyRemove(s, j), s.jobs - {j}, d);
    OwnParts(s.jobs - {j}, ReadyRemove(s, j));
    FlightNoHeap(s.jobs - {j}, ReadyRemove(s, j), j);
    CanHandOutBy(s, j);
  }

  lemma EligibleOpen(s: State, j: JobId)
    requires j in Eligible(s)
    ensures j in s.jobs && Known(s, j) && Open(s, s.jobs[j].tube) && j in s.tubes[s.jobs[j].tube].ready
    ensures s.tubes[s.jobs[j].tube].waiting.items != []
  {}

  lemma CanHandOutBy(s: State, j: JobId)
    requires Known(s, j) && Open(s, s.jobs[j].tube) && j in s.tubes[s.jobs[j].tube].ready && NoHeap(ReadyRemove(s, j), j)
    requires s.tubes[s.jobs[j].tube].waiting.items != []
    requires WatchOk(s, NextWaiter(s.tubes[s.jobs[j].tube])) && MemoKnown(s, NextWaiter(s.tubes[s.jobs[j].tube]))
    ensures CanHandOut(s, j)
  {}

  lemma HandOutSteps(s: State, j: JobId)
    requires CanHandOut(s, j)
    ensures var t, s1 := s.jobs[j].tube, ReadyRemove(s, j);
            && s1.jobs == s.jobs && t in s1.tubes && s1.tubes[t].waiting == s.tubes[t].waiting
            && (var c, s2 := NextWaiter(s.tubes[t]), TakeWaiter(s1, t);
                && WatchOk(s2, c) && Known(RemoveWaiting(s2, c), j) && RemoveWaiting(s2, c).jobs == s.jobs
                && MemoKnown(RemoveWaiting(s2, c), c) && NoHeap(RemoveWaiting(s2, c), j))
  {}

  /** The body of process_queue's loop. */
  method HandOut(sv: Server, j: JobId)
    requires sv.Rep() && CanHandOut(sv.model, j)
    modifies sv.Repr
    ensures sv.Rep() && sv.Grows()
    ensures CanHandOut(old(sv.model), j) && sv.model == Dispatch(old(sv.model), j, sv.clock)
  {
    hide Server.Rep, ReadyRemove, TakeWaiter, RemoveWaiting, ReserveJob, NoHeap, WatchOk, MemoKnown;
    HandOutSteps(sv.model, j);
    var t := sv.JobRec(j).tube;
    TakeReady(sv, j);
    var c := TakeFirstWaiter(sv, t);
    LeaveWaiting(sv, c);
    Reserve(sv, c, j);
  }

  /** process_queue. */
  method ProcessQueue(sv: Server)
    requires sv.Rep() && Settled(sv.model)
    modifies sv.Repr
    ensures sv.Rep() && sv.Grows() && sv.model == Queue.ProcessQueue(old(sv.model), sv.clock)
  {
    hide Server.Rep, Settled, Placed, Dispatch, ClearPauses, Eligible, NextEligible, CanHandOut, Open, MemoKnown, Counting.Count, Drain;
    ghost var start := sv.model;
    TickSettled(start, start.tick + 1);
    var now := sv.Ustime();
    ghost var s := sv.model;
    SettledPlaced(s);
    var j := NextEligibleJob(sv, now);
    while j.Some?
      invariant sv.Rep() && sv.Grows() && Settled(s) && sv.model == ClearPauses(s, now)
      invariant Queue.ProcessQueue(start, sv.clock) == Drain(s, now, sv.clock)
      invariant j == None <==> Eligible(sv.model) == {}
      invariant j.Some? ==> j.value in Eligible(sv.model) && j.value == NextEligible(sv.model)
      decreases Counting.Count(s.jobs, HasState(Ready))
    {
      DrainRound(s, now, j.value, sv.clock);
      ClearedSettled(s, now);
      SettledHandOut(sv.model, j.value);
      HandOut(sv, j.value);
      s := sv.model;
      SettledPlaced(s);
      j := NextEligibleJob(sv, now);
    }
    DrainEnd(s, now, sv.clock);
  }

  lemma ClearedSettled(s: State, now: int)
    requires Settled(s)
    ensures Settled(ClearPauses(s, now))
  {
    hide Mid, ClearPauses;
    var d :| Mid(s, s.jobs, d);
    ClearPausesMid(s, now, d);
    SettledBy(ClearPauses(s, now), d);
  }
}
