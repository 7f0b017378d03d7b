/** conn.c's work on single jobs, in place: taking a job out of a container and putting it
    into one, with all the counters. */
module Queueing {
  import opened Lists
  import opened State
  import opened Moves
  import opened Objects
  import opened Machine

  /** remove_ready_job after its test, and the first half of process_queue's body. */
  method TakeReady(sv: Server, j: JobId)
    requires sv.Rep() && Known(sv.model, j) && InHeapOf(sv.model, sv.model.jobs[j].tube, ByPri, j)
    modifies sv.Repr
    ensures sv.Rep() && sv.Grows() && sv.model == ReadyRemove(old(sv.model), j)
  {
    hide Server.Rep;
    var x := sv.JobRec(j);
    sv.TakeFromHeap(x.tube, ByPri, j);
    var urgent := if x.pri < URGENT_THRESHOLD then 1 else 0;
    sv.Count(-1, -urgent, 0, 0, 0);
    sv.SetTube(x.tube, sv.TubeRec(x.tube).(urgentCnt := sv.TubeRec(x.tube).urgentCnt - urgent));
  }

  /** remove_reserved_job: search the connection's list, and take the job off it. */
  method TakeReserved(sv: Server, c: ConnId, j: JobId) returns (found: bool)
    requires sv.Rep() && c in sv.model.conns && Known(sv.model, j)
    modifies sv.Repr
    ensures sv.Rep() && sv.Grows() && found == (j in old(sv.model).conns[c].reserved)
    ensures sv.model == if found then ReservedRemove(old(sv.model), c, j) else old(sv.model)
  {
    hide Server.Rep, Unlink;
    var k := sv.ConnRec(c);
    found := j in k.reserved;
    if found {
      sv.SetConn(c, k.(reserved := Unlink(k.reserved, j), soonest := None));
      sv.Count(0, 0, -1, 0, 0);
      var x := sv.JobRec(j);
      var t := sv.TubeRec(x.tube);
      sv.SetTube(x.tube, t.(reservedCnt := t.reservedCnt - 1));
      sv.SetJob(j, x.(reserver := None));
    }
  }

  /** remove_buried_job on a tube with a buried job. */
  method PopBuried(sv: Server, t: TubeId) returns (j: JobId)
    requires sv.Rep() && t in sv.model.tubes && sv.model.tubes[t].buried != []
    modifies sv.Repr
    ensures sv.Rep() && sv.Grows() && j == old(sv.model).tubes[t].buried[0] && sv.model == BuriedPop(old(sv.model), t)
  {
    hide Server.Rep;
    var x := sv.TubeRec(t);
    j := x.buried[0];
    sv.SetTube(t, x.(buried := x.buried[1..], buriedCnt := x.buriedCnt - 1));
    sv.Count(0, 0, 0, -1, 0);
  }

  /** enqueue_job's first branch: into the delay heap. */
  method InsertDelayed(sv: Server, j: JobId, delay: int)
    requires sv.Rep() && Known(sv.model, j) && NoHeap(sv.model, j) && delay != 0
    modifies sv.Repr
    ensures sv.Rep() && sv.Grows() && sv.model == Moves.Insert(old(sv.model), j, delay, sv.clock)
  {
    hide Server.Rep;
    var now := sv.Ustime();
    var x := sv.JobRec(j);
    sv.SetJob(j, x.(reserver := None, deadline := now + delay, state := Delayed));
    sv.AddToHeap(x.tube, ByDeadline, j);
  }

  /** enqueue_job's second branch: into the ready heap. */
  method InsertReady(sv: Server, j: JobId)
    requires sv.Rep() && Known(sv.model, j) && NoHeap(sv.model, j)
    modifies sv.Repr
    ensures sv.Rep() && sv.Grows() && sv.model == Moves.Insert(old(sv.model), j, 0, sv.clock)
  {
    hide Server.Rep;
    var x := sv.JobRec(j);
    sv.SetJob(j, x.(reserver := None, state := Ready));
    sv.AddToHeap(x.tube, ByPri, j);
    var urgent := if x.pri < URGENT_THRESHOLD then 1 else 0;
    sv.Count(1, urgent, 0, 0, 0);
    var t := sv.TubeRec(x.tube);
    sv.SetTube(x.tube, t.(urgentCnt := t.urgentCnt + urgent));
  }

  /** The first half of enqueue_job. */
  method Insert(sv: Server, j: JobId, delay: int)
    requires sv.Rep() && Known(sv.model, j) && NoHeap(sv.model, j)
    modifies sv.Repr
    ensures sv.Rep() && sv.Grows() && sv.model == Moves.Insert(old(sv.model), j, delay, sv.clock)
  {
    hide Server.Rep, Moves.Insert;
    if delay != 0 {
      InsertDelayed(sv, j, delay);
    } else {
      InsertReady(sv, j);
    }
  }

  /** bury_job. */
  method Bury(sv: Server, j: JobId)
    requires sv.Rep() && Known(sv.model, j) && NoHeap(sv.model, j)
    modifies sv.Repr
    ensures sv.Rep() && sv.Grows() && sv.model == BuryJob(old(sv.model), j)
  {
    hide Server.Rep;
    var x := sv.JobRec(j);
    var t := sv.TubeRec(x.tube);
    sv.SetTube(x.tube, t.(buried := t.buried + [j], buriedCnt := t.buriedCnt + 1));
    sv.Count(0, 0, 0, 1, 0);
    sv.SetJob(j, x.(state := Buried, reserver := None, buries := x.buries + 1));
  }

  /** What reserve_job does to the job and the counters. */
  ghost function Booked(s: State, c: ConnId, j: JobId, now: int): State
    requires Known(s, j)
  {
    var x := s.jobs[j];
    var t := s.tubes[x.tube];
    PutTube(Counted(PutJob(s, j, x.(deadline := now + x.ttr, state := Reserved, reserver := Some(c), reserves := x.reserves + 1)),
                    0, 0, 1, 0, 0), x.tube, t.(reservedCnt := t.reservedCnt + 1))
  }

  method Book(sv: Server, c: ConnId, j: JobId, now: int)
    requires sv.Rep() && Known(sv.model, j) && NoHeap(sv.model, j)
    modifies sv.Repr
    ensures sv.Rep() && sv.Grows() && sv.model == Booked(old(sv.model), c, j, now)
  {
    hide Server.Rep;
    var x := sv.JobRec(j);
    sv.SetJob(j, x.(deadline := now + x.ttr, state := Reserved, reserver := Some(c), reserves := x.reserves + 1));
    sv.Count(0, 0, 1, 0, 0);
    var t := sv.TubeRec(x.tube);
    sv.SetTube(x.tube, t.(reservedCnt := t.reservedCnt + 1));
  }

  lemma BookedIs(s: State, c: ConnId, j: JobId, clock: Clock)
    requires Known(s, j) && MemoKnown(s, c)
    ensures var s1 := Booked(s.(tick := s.tick + 1), c, j, clock(s.tick));
            && j in s1.jobs && c in s1.conns && s1.conns == s.conns && MemoKnown(s1, c)
            && var k := s.conns[c];
               var sooner := k.soonest.Some? && s1.jobs[j].deadline < s1.jobs[k.soonest.value].deadline;
               ReserveJob(s, c, j, clock) ==
               PutConn(s1, c, k.(reserved := [j] + k.reserved, soonest := if sooner then Some(j) else k.soonest,
                                 out := Live(j), phase := SendJob, reply := ReservedJob(j)))
  {}

  /** reserve_job. */
  method Reserve(sv: Server, c: ConnId, j: JobId)
    requires sv.Rep() && Known(sv.model, j) && MemoKnown(sv.model, c) && NoHeap(sv.model, j)
    modifies sv.Repr
    ensures sv.Rep() && sv.Grows() && sv.model == ReserveJob(old(sv.model), c, j, sv.clock)
  {
    hide Server.Rep, Booked, ReserveJob, PutConn;
    BookedIs(sv.model, c, j, sv.clock);
    var now := sv.Ustime();
    Book(sv, c, j, now);
    var k := sv.ConnRec(c);
    var soonest := k.soonest;
    if soonest.Some? && sv.JobRec(j).deadline < sv.JobRec(soonest.value).deadline {
      soonest := Some(j);
    }
    sv.SetConn(c, k.(reserved := [j] + k.reserved, soonest := soonest, out := Live(j), phase := SendJob, reply := ReservedJob(j)));
  }

  /** reply and reply_job: what is to be sent, and the phase in which it is sent. */
  method Answer(sv: Server, c: ConnId, phase: Phase, out: Out, m: Reply)
    requires sv.Rep() && c in sv.model.conns
    modifies sv.Repr
    ensures sv.Rep() && sv.Grows()
    ensures var k := old(sv.model).conns[c]; sv.model == PutConn(old(sv.model), c, k.(out := out, phase := phase, reply := m))
  {
    hide Server.Rep;
    sv.SetConn(c, sv.ConnRec(c).(out := out, phase := phase, reply := m));
  }
}
