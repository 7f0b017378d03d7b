/** The single-step state changes of conn.c, tube.c and job.c that contain no loop over jobs. */
module Moves {
  import opened Lists
  import opened State

  ghost function PutJob(s: State, j: JobId, x: Job): State { s.(jobs := s.jobs[j := x]) }

  ghost function PutTube(s: State, t: TubeId, x: Tube): State { s.(tubes := s.tubes[t := x]) }

  ghost function PutConn(s: State, c: ConnId, x: Conn): State { s.(conns := s.conns[c := x]) }

  function One(b: bool): int { if b then 1 else 0 }

  /** Job j exists and so does its tube. */
  ghost predicate Known(s: State, j: JobId) { j in s.jobs && s.jobs[j].tube in s.tubes }

  function IsUrgent(x: Job): bool { x.pri < URGENT_THRESHOLD }

  // ----- taking a job out of its container -----

  /** remove_ready_job, and the first half of process_queue's body. */
  ghost function ReadyRemove(s: State, j: JobId): State
    requires Known(s, j)
  {
    var x := s.jobs[j];
    var t := s.tubes[x.tube];
    var u := One(IsUrgent(x));
    PutTube(s, x.tube, t.(ready := t.ready - {j}, urgentCnt := t.urgentCnt - u))
      .(readyCnt := s.readyCnt - 1, urgentCnt := s.urgentCnt - u)
  }

  /** heap_remove on the delay heap. */
  ghost function DelayRemove(s: State, j: JobId): State
    requires Known(s, j)
  {
    var t := s.tubes[s.jobs[j].tube];
    PutTube(s, s.jobs[j].tube, t.(delayed := t.delayed - {j}))
  }

  /** remove_buried_job: the oldest buried job of the tube leaves. */
  ghost function BuriedPop(s: State, t: TubeId): State
    requires t in s.tubes && s.tubes[t].buried != []
  {
    var x := s.tubes[t];
    PutTube(s, t, x.(buried := x.buried[1..], buriedCnt := x.buriedCnt - 1))
      .(buriedCnt := s.buriedCnt - 1)
  }

  /** remove_reserved_job, when the search finds the job. */
  ghost function ReservedRemove(s: State, c: ConnId, j: JobId): State
    requires c in s.conns && Known(s, j)
  {
    var x := s.jobs[j];
    var t := s.tubes[x.tube];
    var k := s.conns[c];
    PutTube(PutConn(PutJob(s, j, x.(reserver := None)), c, k.(reserved := Unlink(k.reserved, j), soonest := None)),
            x.tube, t.(reservedCnt := t.reservedCnt - 1))
      .(reservedCnt := s.reservedCnt - 1)
  }

  // ----- putting a job into a container -----

  /** The first half of enqueue_job: into the delay heap or the ready heap. */
  ghost function Insert(s: State, j: JobId, delay: int, clock: Clock): State
    requires Known(s, j)
  {
    var x := s.jobs[j].(reserver := None);
    var t := s.tubes[x.tube];
    if delay != 0 then
      PutTube(PutJob(s, j, x.(deadline := clock(s.tick) + delay, state := Delayed)),
              x.tube, t.(delayed := t.delayed + {j}))
        .(tick := s.tick + 1)
    else
      var u := One(IsUrgent(x));
      PutTube(PutJob(s, j, x.(state := Ready)), x.tube, t.(ready := t.ready + {j}, urgentCnt := t.urgentCnt + u))
        .(readyCnt := s.readyCnt + 1, urgentCnt := s.urgentCnt + u)
  }

  /** bury_job. */
  ghost function BuryJob(s: State, j: JobId): State
    requires Known(s, j)
  {
    var x := s.jobs[j];
    var t := s.tubes[x.tube];
    PutTube(PutJob(s, j, x.(state := Buried, reserver := None, buries := x.buries + 1)),
            x.tube, t.(buried := t.buried + [j], buriedCnt := t.buriedCnt + 1))
      .(buriedCnt := s.buriedCnt + 1)
  }

  /** reserve_job, with the reply_job it ends in. */
  ghost function ReserveJob(s: State, c: ConnId, j: JobId, clock: Clock): State
    requires Known(s, j) && MemoKnown(s, c)
  {
    var x := s.jobs[j];
    var t := s.tubes[x.tube];
    var k := s.conns[c];
    var at := clock(s.tick) + x.ttr;
    var sooner := k.soonest.Some? && at < (if k.soonest.value == j then at else s.jobs[k.soonest.value].deadline);
    PutTube(PutConn(PutJob(s, j, x.(deadline := at, state := Reserved, reserver := Some(c), reserves := x.reserves + 1)),
                    c, k.(reserved := [j] + k.reserved, soonest := if sooner then Some(j) else k.soonest,
                          out := Live(j), phase := SendJob, reply := ReservedJob(j))),
            x.tube, t.(reservedCnt := t.reservedCnt + 1))
      .(reservedCnt := s.reservedCnt + 1, tick := s.tick + 1)
  }

  // ----- waiting sets -----

  /** conn_remove_waiting. */
  ghost function RemoveWaiting(s: State, c: ConnId): State
    requires c in s.conns
  {
    var k := s.conns[c];
    if !k.waiting then s
    else
      s.(conns := s.conns[c := k.(waiting := false)],
         waitingCnt := s.waitingCnt - 1,
         tubes := map t | t in s.tubes :: LeaveTube(s.tubes[t], t in k.watch, c))
  }

  function LeaveTube(x: Tube, watched: bool, c: ConnId): Tube {
    if watched then
      x.(waitingCnt := x.waitingCnt - 1, waiting := x.waiting.(items := SwapRemove(x.waiting.items, c)))
    else x
  }

  /** conn_enqueue_waiting. */
  ghost function EnqueueWaiting(s: State, c: ConnId): State
    requires c in s.conns
  {
    var k := s.conns[c];
    s.(conns := s.conns[c := k.(waiting := true)],
       waitingCnt := s.waitingCnt + 1,
       tubes := map t | t in s.tubes :: JoinTube(s.tubes[t], t in k.watch, c))
  }

  function JoinTube(x: Tube, watched: bool, c: ConnId): Tube {
    if watched then
      x.(waitingCnt := x.waitingCnt + 1, waiting := x.waiting.(items := x.waiting.items + [c]))
    else x
  }

  /** set_take on the waiting set of tube t. */
  ghost function TakeWaiter(s: State, t: TubeId): State
    requires t in s.tubes && s.tubes[t].waiting.items != []
  {
    PutTube(s, t, s.tubes[t].(waiting := Take(s.tubes[t].waiting)))
  }

  function NextWaiter(x: Tube): ConnId
    requires x.waiting.items != []
  {
    x.waiting.items[TakeIndex(x.waiting)]
  }

  // ----- the memo -----

  /** The scan of conn_soonest_reserved_job: the last job of least deadline in list order. */
  function Scan(jobs: map<JobId, Job>, reserved: seq<JobId>, best: Option<JobId>): (r: Option<JobId>)
    requires forall j :: j in reserved ==> j in jobs
    requires best.Some? ==> best.value in jobs
    ensures r == None <==> best == None && reserved == []
    ensures r.Some? ==> r.value in jobs && (r == best || r.value in reserved)
    ensures r.Some? ==> forall k :: k in reserved || (best.Some? && k == best.value) ==>
                          jobs[r.value].deadline <= jobs[k].deadline
  {
    if reserved == [] then best
    else
      var j := reserved[0];
      var pick := if best == None || jobs[j].deadline <= jobs[best.value].deadline then Some(j) else best;
      assert reserved == [j] + reserved[1..];
      Scan(jobs, reserved[1..], pick)
  }

  /** conn_soonest_reserved_job: use the memo, else scan and remember. */
  ghost function FillMemo(s: State, c: ConnId): State
    requires c in s.conns
    requires forall j :: j in s.conns[c].reserved ==> j in s.jobs
  {
    var k := s.conns[c];
    if k.soonest.Some? then s else PutConn(s, c, k.(soonest := Scan(s.jobs, k.reserved, None)))
  }

  // ----- process_queue's parts -----

  function Unpaused(x: Tube, now: int): Tube {
    if x.pause != 0 && x.deadline <= now then x.(pause := 0) else x
  }

  /** The pauses that next_eligible_job finds expired while scanning. */
  ghost function ClearPauses(s: State, now: int): State {
    s.(tubes := map t | t in s.tubes :: Unpaused(s.tubes[t], now))
  }

  ghost predicate Open(s: State, t: TubeId) {
    t in s.tubes && s.tubes[t].pause == 0 && s.tubes[t].waiting.items != []
  }

  /** The ready jobs of all unpaused tubes that somebody waits on. */
  ghost function Eligible(s: State): set<JobId> {
    set j | j in s.jobs && Open(s, s.jobs[j].tube) && j in s.tubes[s.jobs[j].tube].ready
  }

  /** What next_eligible_job returns: the most urgent of them. */
  ghost function NextEligible(s: State): (j: JobId)
    requires Eligible(s) != {}
    ensures j in Eligible(s)
    ensures forall k :: k in Eligible(s) && k != j ==> k in s.jobs && j in s.jobs && MoreUrgent(s.jobs, j, k)
  {
    Top(s.jobs, Pri, Eligible(s))
  }

  ghost predicate MemoKnown(s: State, c: ConnId) {
    c in s.conns && (s.conns[c].soonest.Some? ==> s.conns[c].soonest.value in s.jobs)
  }

  /** The loop body of process_queue for job j. */
  ghost function Dispatch(s: State, j: JobId, clock: Clock): State
    requires Known(s, j) && Open(s, s.jobs[j].tube)
    requires MemoKnown(s, NextWaiter(s.tubes[s.jobs[j].tube]))
  {
    var t := s.jobs[j].tube;
    var c := NextWaiter(s.tubes[t]);
    ReserveJob(RemoveWaiting(TakeWaiter(ReadyRemove(s, j), t), c), c, j, clock)
  }

  // ----- replies -----

  /** reply: the connection starts sending one line. */
  ghost function SendReply(s: State, c: ConnId, m: Reply): State
    requires c in s.conns
  {
    PutConn(s, c, s.conns[c].(phase := SendWord, reply := m))
  }

  // ----- tubes -----

  ghost predicate Named(s: State, t: TubeId, name: string) {
    t in s.tubes && s.tubes[t].name == name
  }

  function NewTube(name: string): Tube {
    Tube(name, 0, {}, {}, [], Ring([], 0), 0, 0, 0, 0, 0, 0, 0, 0, 0, 0, 0)
  }

  /** tube_make_and_insert. */
  ghost function MakeTube(s: State, name: string): State {
    s.(tubes := s.tubes[s.nextTube := NewTube(name)],
       tubeList := s.tubeList + [s.nextTube],
       nextTube := s.nextTube + 1)
  }

  /** tube_dref: drop one reference, free the tube with the last one. */
  ghost function DropRef(s: State, t: TubeId): (r: State)
    requires t in s.tubes
    ensures r.conns == s.conns && r.jobs == s.jobs
  {
    var x := s.tubes[t];
    if x.refs < 1 then s
    else if x.refs == 1 then FreeTube(s, t)
    else PutTube(s, t, x.(refs := x.refs - 1))
  }

  /** tube_free_and_remove. */
  ghost function FreeTube(s: State, t: TubeId): State {
    s.(tubes := s.tubes - {t}, tubeList := SwapRemove(s.tubeList, t))
  }
}
