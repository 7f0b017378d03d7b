/** The server's data: jobs, tubes and connections (job.h, tube.h, conn.h, srv.h).
    Pointers become identities: a job is named by its id, a tube and a connection by an
    address that is never handed out twice. */
module State {
  import opened Counting
  import opened Lists

  type JobId = nat
  type TubeId = nat
  type ConnId = nat

  datatype Option<+T> = None | Some(value: T)

  const SECOND: int := 1000000
  const SAFETY_MARGIN: int := 1000000
  const URGENT_THRESHOLD: nat := 1024

  datatype JobState = Invalid | Ready | Reserved | Buried | Delayed

  datatype Job = Job(
    pri: nat, delay: int, ttr: int, deadline: int, state: JobState,
    tube: TubeId, reserver: Option<ConnId>,
    reserves: nat, timeouts: nat, releases: nat, buries: nat, kicks: nat)

  /** ready and delayed are heaps: what the server relies on is which jobs they hold and
      which one is on top (see Top below; Objects.Heap is heap.c, and Machine.Server.RootIsTop ties the two). */
  datatype Tube = Tube(
    name: string, refs: int,
    ready: set<JobId>, delayed: set<JobId>, buried: seq<JobId>, waiting: Ring<ConnId>,
    usingCnt: int, watchingCnt: int, pause: int, deadline: int,
    urgentCnt: int, reservedCnt: int, buriedCnt: int, waitingCnt: int,
    pauseCnt: int, deleteCnt: int, totalCnt: int)

  datatype Phase = WantCommand | WantData | SendJob | SendWord | Wait

  /** out_job: nothing, a job of the index, or a private copy (JOB_COPY). */
  datatype Out = NoJob | Live(job: JobId) | Copy

  datatype Reply =
    | Silent | Inserted(id: JobId) | ReservedJob(id: JobId) | FoundJob(id: JobId)
    | NotFound | Deleted | Released | BuriedMsg | Touched | Kicked(count: nat)
    | Using(name: string) | Watching(count: nat) | NotIgnored | Paused
    | DeadlineSoon | TimedOut | ExpectedCrlf | Draining

  datatype Conn = Conn(
    phase: Phase, waiting: bool, use: TubeId, watch: seq<TubeId>,
    reserved: seq<JobId>, soonest: Option<JobId>, inJob: Option<JobId>, out: Out,
    pendingTimeout: int, reply: Reply)

  datatype State = State(
    jobs: map<JobId, Job>, nextJob: JobId,
    tubes: map<TubeId, Tube>, tubeList: seq<TubeId>, nextTube: TubeId, defaultTube: TubeId,
    conns: map<ConnId, Conn>, nextConn: ConnId,
    readyCnt: int, urgentCnt: int, reservedCnt: int, buriedCnt: int, waitingCnt: int,
    totalJobs: int, timeoutCnt: int, drain: bool,
    tick: nat)

  /** The wall clock: the i-th call of ustime() returns clock(i); State.tick counts the calls. */
  type Clock = nat -> int

  ghost predicate Monotone(clock: Clock) {
    forall i, j :: 0 <= i <= j ==> clock(i) <= clock(j)
  }

  // ----- the two heap orders (job.c) -----

  function Pri(job: Job): int { job.pri }

  function Deadline(job: Job): int { job.deadline }

  /** job_pri_less with key Pri, job_delay_less with key Deadline: ties go to the smaller id. */
  predicate Less(jobs: map<JobId, Job>, key: Job -> int, a: JobId, b: JobId)
    requires a in jobs && b in jobs
  {
    key(jobs[a]) < key(jobs[b]) || (key(jobs[a]) == key(jobs[b]) && a < b)
  }

  /** Job a is handed out before job b: the smaller priority number first, then the older job. */
  ghost predicate MoreUrgent(jobs: map<JobId, Job>, a: JobId, b: JobId)
    requires a in jobs && b in jobs
  {
    jobs[a].pri < jobs[b].pri || (jobs[a].pri == jobs[b].pri && a < b)
  }

  /** The earlier deadline first, then the older job. */
  ghost predicate DueEarlier(jobs: map<JobId, Job>, a: JobId, b: JobId)
    requires a in jobs && b in jobs
  {
    jobs[a].deadline < jobs[b].deadline || (jobs[a].deadline == jobs[b].deadline && a < b)
  }

  /** The two comparisons of job.c are these two orders. */
  lemma LessIs(jobs: map<JobId, Job>, a: JobId, b: JobId)
    requires a in jobs && b in jobs
    ensures Less(jobs, Pri, a, b) <==> MoreUrgent(jobs, a, b)
    ensures Less(jobs, Deadline, a, b) <==> DueEarlier(jobs, a, b)
  {}

  ghost predicate IsTop(jobs: map<JobId, Job>, key: Job -> int, s: set<JobId>, j: JobId)
    requires s <= jobs.Keys
  {
    j in s && forall k :: k in s && k != j ==> Less(jobs, key, j, k)
  }

  lemma {:induction false} TopExists(jobs: map<JobId, Job>, key: Job -> int, s: set<JobId>)
    requires s != {} && s <= jobs.Keys
    ensures exists j :: IsTop(jobs, key, s, j)
    decreases s
  {
    var x :| x in s;
    var rest := s - {x};
    assert s == rest + {x};
    if rest == {} {
      assert IsTop(jobs, key, s, x);
    } else {
      TopExists(jobs, key, rest);
      var y :| IsTop(jobs, key, rest, y);
      assert IsTop(jobs, key, s, if Less(jobs, key, x, y) then x else y);
    }
  }

  /** The job at the root of a heap holding exactly the jobs s. */
  ghost function Top(jobs: map<JobId, Job>, key: Job -> int, s: set<JobId>): (j: JobId)
    requires s != {} && s <= jobs.Keys
    ensures IsTop(jobs, key, s, j)
  {
    TopExists(jobs, key, s);
    var j :| IsTop(jobs, key, s, j); j
  }

  // ----- where a job is, according to its own fields -----

  ghost predicate At(jobs: map<JobId, Job>, j: JobId, st: JobState, t: TubeId) {
    j in jobs && jobs[j].state == st && jobs[j].tube == t
  }

  ghost predicate Held(jobs: map<JobId, Job>, j: JobId, c: ConnId) {
    j in jobs && jobs[j].state == Reserved && jobs[j].reserver == Some(c)
  }

  ghost predicate WaitsOn(conns: map<ConnId, Conn>, c: ConnId, t: TubeId) {
    c in conns && conns[c].waiting && t in conns[c].watch
  }

  // ----- what the statistics count -----

  ghost function HasState(st: JobState): Job -> bool { (x: Job) => x.state == st }

  ghost function StateIn(st: JobState, t: TubeId): Job -> bool { (x: Job) => x.state == st && x.tube == t }

  ghost function Urgent(): Job -> bool { (x: Job) => x.state == Ready && x.pri < URGENT_THRESHOLD }

  ghost function UrgentIn(t: TubeId): Job -> bool {
    (x: Job) => x.state == Ready && x.pri < URGENT_THRESHOLD && x.tube == t
  }

  ghost function InTube(t: TubeId): Job -> bool { (x: Job) => x.tube == t }

  ghost function IsWaiting(): Conn -> bool { (x: Conn) => x.waiting }

  ghost function Uses(t: TubeId): Conn -> bool { (x: Conn) => x.use == t }

  ghost function Watches(t: TubeId): Conn -> bool { (x: Conn) => t in x.watch }

  // ----- the invariant, one concern at a time -----

  /** Every reference leads to something that exists; identities and tube names are unique. */
  ghost predicate Shape(s: State) {
    && NoDup(s.tubeList)
    && (forall t :: t in s.tubeList <==> t in s.tubes)
    && (forall t :: t in s.tubes ==> t < s.nextTube && 0 <= s.tubes[t].pause)
    && (forall t, u :: t in s.tubes && u in s.tubes && t != u ==> s.tubes[t].name != s.tubes[u].name)
    && s.defaultTube in s.tubes
    && (forall j :: j in s.jobs ==> j < s.nextJob && s.jobs[j].tube in s.tubes && s.jobs[j].ttr >= SECOND)
    && (forall c :: c in s.conns ==> c < s.nextConn && s.conns[c].use in s.tubes && NoDup(s.conns[c].watch))
    && (forall c, t :: c in s.conns && t in s.conns[c].watch ==> t in s.tubes)
  }

  /** Each job of `live` sits in exactly the container its own fields name, and nowhere else.
      `live` is the whole index except while a step carries one job from a container to another. */
  ghost predicate TubesOwn(live: map<JobId, Job>, tubes: map<TubeId, Tube>) {
    forall t :: t in tubes ==>
      && (forall j :: j in tubes[t].ready <==> At(live, j, Ready, t))
      && (forall j :: j in tubes[t].delayed <==> At(live, j, Delayed, t))
      && (forall j :: j in tubes[t].buried <==> At(live, j, Buried, t))
      && NoDup(tubes[t].buried)
  }

  ghost predicate ConnsOwn(live: map<JobId, Job>, conns: map<ConnId, Conn>) {
    && (forall c :: c in conns ==>
          && NoDup(conns[c].reserved)
          && (forall j :: j in conns[c].reserved <==> Held(live, j, c)))
    && (forall j :: j in live ==>
          && (live[j].state == Reserved <==> live[j].reserver.Some?)
          && (live[j].reserver.Some? ==> live[j].reserver.value in conns))
  }

  ghost predicate Incoming(live: map<JobId, Job>, conns: map<ConnId, Conn>) {
    && (forall c :: c in conns && conns[c].inJob.Some? ==>
          conns[c].inJob.value in live && live[conns[c].inJob.value].state == Invalid)
    && (forall c, d :: c in conns && d in conns && c != d && conns[c].inJob.Some? ==> conns[c].inJob != conns[d].inJob)
    && (forall j :: j in live && live[j].state == Invalid ==> exists c :: c in conns && conns[c].inJob == Some(j))
  }

  ghost predicate Own(live: map<JobId, Job>, s: State) {
    TubesOwn(live, s.tubes) && ConnsOwn(live, s.conns) && Incoming(live, s.conns)
  }

  /** A connection is in a tube's waiting set, once, iff it waits and watches that tube. */
  ghost predicate Waits(s: State) {
    && (forall t :: t in s.tubes ==>
          && NoDup(s.tubes[t].waiting.items)
          && (forall c :: c in s.tubes[t].waiting.items <==> WaitsOn(s.conns, c, t))
          && s.tubes[t].waitingCnt == |s.tubes[t].waiting.items|)
    && s.waitingCnt == Count(s.conns, IsWaiting())
  }

  /** What the connection's phase says about its other fields, and: a job that is being
      written out is a copy or is reserved by the very connection that writes it. */
  ghost predicate ConnOk(live: map<JobId, Job>, c: ConnId, x: Conn) {
    && (x.waiting <==> x.phase == Wait)
    && (x.inJob.Some? <==> x.phase == WantData)
    && (x.out != NoJob ==> x.phase == SendJob || x.phase == SendWord)
    && (x.phase == SendJob ==> x.out != NoJob)
    && (x.out.Live? ==> Held(live, x.out.job, c))
  }

  /** A connection in the middle of its own step (conn_free, enqueue_incoming_job) is not
      bound by ConnOk and its memo may be stale. And in conn_free, after a job left the reserved
      list, one reservation is still counted for the job's tube, because the counters drop only
      after a nested process_queue. */
  datatype Slack = Nothing | Loose(conn: ConnId, owed: Option<TubeId>)

  predicate Exempt(d: Slack, c: ConnId) { d.Loose? && d.conn == c }

  function OwedIn(d: Slack, t: TubeId): int { if d.Loose? && d.owed == Some(t) then 1 else 0 }

  function OwedAll(d: Slack): int { if d.Loose? && d.owed.Some? then 1 else 0 }

  ghost predicate Phases(live: map<JobId, Job>, s: State, d: Slack) {
    forall c :: c in s.conns ==>
      if Exempt(d, c) then !s.conns[c].waiting && s.conns[c].inJob == None && s.conns[c].out == NoJob
      else ConnOk(live, c, s.conns[c])
  }

  ghost predicate TubeCounts(live: map<JobId, Job>, t: TubeId, x: Tube, d: Slack) {
    && x.urgentCnt == Count(live, UrgentIn(t))
    && x.reservedCnt == Count(live, StateIn(Reserved, t)) + OwedIn(d, t)
    && x.buriedCnt == Count(live, StateIn(Buried, t))
  }

  ghost predicate Counts(live: map<JobId, Job>, s: State, d: Slack) {
    && s.readyCnt == Count(live, HasState(Ready))
    && s.urgentCnt == Count(live, Urgent())
    && s.reservedCnt == Count(live, HasState(Reserved)) + OwedAll(d)
    && s.buriedCnt == Count(live, HasState(Buried))
    && (forall t :: t in s.tubes ==> TubeCounts(live, t, s.tubes[t], d))
  }

  /** A remembered soonest_job is a reserved job of the connection with the least deadline. */
  ghost predicate MemoOk(jobs: map<JobId, Job>, x: Conn) {
    x.soonest.Some? ==>
      && x.soonest.value in x.reserved
      && x.soonest.value in jobs
      && (forall k :: k in x.reserved && k in jobs ==> jobs[x.soonest.value].deadline <= jobs[k].deadline)
  }

  ghost predicate Memo(s: State, d: Slack) {
    forall c :: c in s.conns && !Exempt(d, c) ==> MemoOk(s.jobs, s.conns[c])
  }

  ghost predicate TubeRefs(s: State, t: TubeId, x: Tube) {
    && x.usingCnt == Count(s.conns, Uses(t))
    && x.watchingCnt == Count(s.conns, Watches(t))
    && x.refs >= x.usingCnt + x.watchingCnt + Count(s.jobs, InTube(t)) + (if t == s.defaultTube then 1 else 0)
    && x.refs >= 1
  }

  ghost predicate Refs(s: State) {
    forall t :: t in s.tubes ==> TubeRefs(s, t, s.tubes[t])
  }

  /** No tube that may be served has both a ready job and a waiting connection. */
  ghost predicate NoLostWakeup(s: State) {
    forall t :: t in s.tubes && s.tubes[t].pause == 0 ==> s.tubes[t].waiting.items == [] || s.tubes[t].ready == {}
  }

  /** All of the above, for a step that may have one job in flight and one connection loose. */
  ghost predicate Mid(s: State, live: map<JobId, Job>, d: Slack) {
    && Shape(s) && Own(live, s) && Waits(s) && Phases(live, s, d)
    && Counts(live, s, d) && Memo(s, d) && Refs(s)
  }

  /** What holds between any two steps. */
  ghost predicate Inv(s: State) {
    Mid(s, s.jobs, Nothing) && NoLostWakeup(s)
  }
}
