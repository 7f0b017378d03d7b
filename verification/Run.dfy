/** Runs of the server: any sequence of events, from the moment srv_init returns. */
module Run {
  import opened Counting
  import opened Lists
  import opened State
  import opened Moves
  import opened JobMoves
  import opened Queue
  import opened Steps
  import opened JobCommands
  import opened Kick
  import opened Waiting
  import opened Tubes
  import opened Conns
  import opened Cron
  import opened Timeout

  datatype Event =
    | Connect
    | Disconnect(c: ConnId)
    | ReplySent(c: ConnId)
    | Expired(c: ConnId)
    | CronEvent
    | DrainMode
    | PutCmd(c: ConnId, pri: nat, delay: int, ttr: int, body: Option<bool>)
    | BodyEnd(c: ConnId, trailerOk: bool)
    | ReserveCmd(c: ConnId, timeout: int)
    | DeleteCmd(c: ConnId, id: JobId)
    | ReleaseCmd(c: ConnId, id: JobId, pri: nat, delay: int)
    | BuryCmd(c: ConnId, id: JobId, pri: nat)
    | KickCmd(c: ConnId, n: nat)
    | TouchCmd(c: ConnId, id: JobId)
    | PeekCmd(c: ConnId, id: JobId)
    | ReportCmd(c: ConnId)
    | LineCmd(c: ConnId, m: Reply)
    | UseCmd(c: ConnId, name: string)
    | WatchCmd(c: ConnId, name: string)
    | IgnoreCmd(c: ConnId, name: string)
    | PauseTubeCmd(c: ConnId, name: string, delay: int)

  /** srv_init: one tube, named default, held by the server itself. */
  ghost function Init(): State {
    State(map[], 1,
          map[0 := Tube("default", 1, {}, {}, [], Ring([], 0), 0, 0, 0, 0, 0, 0, 0, 0, 0, 0, 0)], [0], 1, 0,
          map[], 0, 0, 0, 0, 0, 0, 0, 0, false, 0)
  }

  lemma InitCounts()
    ensures Counts(Init().jobs, Init(), Nothing)
  {
    var s := Init();
    NobodyCounts(s.jobs, HasState(Ready));
    NobodyCounts(s.jobs, Urgent());
    NobodyCounts(s.jobs, HasState(Reserved));
    NobodyCounts(s.jobs, HasState(Buried));
    NobodyCounts(s.jobs, UrgentIn(0));
    NobodyCounts(s.jobs, StateIn(Reserved, 0));
    NobodyCounts(s.jobs, StateIn(Buried, 0));
    hide Count;
  }

  lemma InitRefs()
    ensures Refs(Init()) && Waits(Init())
  {
    var s := Init();
    NobodyCounts(s.conns, IsWaiting());
    NobodyCounts(s.conns, Uses(0));
    NobodyCounts(s.conns, Watches(0));
    NobodyCounts(s.jobs, InTube(0));
    hide Count;
  }

  lemma InitInv()
    ensures Inv(Init())
  {
    hide Counts, Refs, Waits;
    InitCounts();
    InitRefs();
    OneItem(0);
  }

  // ----- the remaining small steps -----

  ghost predicate Sending(s: State, c: ConnId) {
    c in s.conns && (s.conns[c].phase == SendJob || s.conns[c].phase == SendWord)
  }

  /** conn_reset, when a reply or a job is completely written. */
  ghost function Reset(s: State, c: ConnId): State
    requires Sending(s, c)
  {
    PutConn(s, c, s.conns[c].(out := NoJob, phase := WantCommand))
  }

  lemma OrderlyInv(s: State, c: ConnId, k: Conn)
    requires Inv(s) && c in s.conns && k == s.conns[c].(out := k.out, phase := k.phase, reply := k.reply)
    requires ConnOk(s.jobs, c, s.conns[c]) ==> ConnOk(s.jobs, c, k)
    ensures Inv(PutConn(s, c, k))
  {
    hide Inv, Mid, Shape, Own, Waits, Phases, Counts, Memo, Refs, NoLostWakeup;
    InvParts(s);
    MidParts(s, s.jobs, Nothing);
    ConnFacts(s, c);
    SameMemo(s.jobs, s.conns[c], k);
    hide MemoOk, ConnOk;
    PutConnMid(s, c, k, Nothing);
    InvParts(PutConn(s, c, k));
    SameTubesNoLostWakeup(s, PutConn(s, c, k));
  }

  /** peek: the job is sent from a private copy, which holds a reference to the tube. */
  ghost function Peek(s: State, c: ConnId, id: JobId): State
    requires Inv(s) && Idle(s, c)
  {
    IdleFacts(s, c);
    hide Inv;
    if id !in s.jobs then SendReply(s, c, NotFound)
    else PutConn(Bump(s, s.jobs[id].tube), c, s.conns[c].(out := Copy, phase := SendJob, reply := FoundJob(id)))
  }

  lemma PeekInv(s: State, c: ConnId, id: JobId)
    requires Inv(s) && Idle(s, c)
    ensures Inv(Peek(s, c, id))
  {
    hide Inv, Mid, Settled, NoLostWakeup;
    IdleFacts(s, c);
    InvParts(s);
    if id !in s.jobs {
      NotFoundInv(s, c);
    } else {
      var t := s.jobs[id].tube;
      BumpMid(s, t, Nothing);
      SameReadyNoLostWakeup(s, Bump(s, t));
      InvParts(Bump(s, t));
      OrderlyInv(Bump(s, t), c, s.conns[c].(out := Copy, phase := SendJob, reply := FoundJob(id)));
    }
  }

  lemma DrainModeInv(s: State)
    requires Inv(s)
    ensures Inv(s.(drain := true))
  {
    hide Inv, Mid, NoLostWakeup;
    InvParts(s);
    StatsMid(s, s.(drain := true), s.jobs, Nothing);
    SameTubesNoLostWakeup(s, s.(drain := true));
    InvParts(s.(drain := true));
  }

  // ----- events -----

  ghost predicate Enabled(s: State, e: Event) {
    match e
    case Connect => true
    case CronEvent => true
    case DrainMode => true
    case Disconnect(c) => c in s.conns
    case Expired(c) => c in s.conns
    case ReplySent(c) => Sending(s, c)
    case BodyEnd(c, _) => Reading(s, c)
    case PauseTubeCmd(c, _, delay) => Idle(s, c) && delay >= 0
    case _ => Idle(s, e.c)
  }

  /** Commands that name a job or ask for one. */
  predicate IsJobEvent(e: Event) {
    e.PutCmd? || e.BodyEnd? || e.ReserveCmd? || e.DeleteCmd? || e.ReleaseCmd? || e.BuryCmd? || e.KickCmd? || e.TouchCmd? || e.PeekCmd?
  }

  ghost function JobEvent(s: State, e: Event, clock: Clock): State
    requires Inv(s) && Enabled(s, e) && IsJobEvent(e)
  {
    hide Inv, Idle, Reading;
    match e
    case PutCmd(c, pri, delay, ttr, body) => Put(s, c, pri, delay, ttr, body, clock)
    case BodyEnd(c, ok) => FinishBody(s, c, ok, clock)
    case ReserveCmd(c, timeout) => Reserve(s, c, timeout, clock)
    case DeleteCmd(c, id) => Delete(s, c, id)
    case ReleaseCmd(c, id, pri, delay) => Release(s, c, id, pri, delay, clock)
    case BuryCmd(c, id, pri) => Bury(s, c, id, pri)
    case KickCmd(c, n) => KickJobs(s, c, n, clock)
    case TouchCmd(c, id) => Touch(s, c, id, clock)
    case PeekCmd(c, id) => Peek(s, c, id)
  }

  ghost function Step(s: State, e: Event, clock: Clock): State
    requires Inv(s) && Enabled(s, e) && Monotone(clock)
  {
    hide Inv, Monotone, Reading;
    DefaultExists(s);
    if IsJobEvent(e) then JobEvent(s, e, clock)
    else
      match e
      case Connect => Accept(s)
      case Disconnect(c) => Close(s, c, clock)
      case ReplySent(c) => Reset(s, c)
      case Expired(c) => ConnTimeout(s, c, clock)
      case CronEvent => CronTick(s, clock)
      case DrainMode => s.(drain := true)
      case ReportCmd(c) => PutConn(s, c, s.conns[c].(out := Copy, phase := SendJob))
      case LineCmd(c, m) => SendReply(s, c, m)
      case UseCmd(c, name) => Use(s, c, name)
      case WatchCmd(c, name) => Watch(s, c, name)
      case IgnoreCmd(c, name) => Ignore(s, c, name)
      case PauseTubeCmd(c, name, delay) => PauseTube(s, c, name, delay, clock)
  }

  /** A delete that names a job the caller may delete and the code can find (see DeleteSafe). */
  ghost predicate Safe(s: State, e: Event)
    requires Inv(s) && Enabled(s, e)
  {
    e.DeleteCmd? ==> DeleteSafe(s, e.c, e.id)
  }

  lemma ResetInv(s: State, c: ConnId)
    requires Inv(s) && Sending(s, c)
    ensures Inv(Reset(s, c))
  {
    hide Inv;
    OrderlyInv(s, c, s.conns[c].(out := NoJob, phase := WantCommand));
  }

  lemma ReportInv(s: State, c: ConnId)
    requires Inv(s) && Idle(s, c)
    ensures Inv(PutConn(s, c, s.conns[c].(out := Copy, phase := SendJob)))
  {
    hide Inv;
    OrderlyInv(s, c, s.conns[c].(out := Copy, phase := SendJob));
  }

  lemma LineInv(s: State, c: ConnId, m: Reply)
    requires Inv(s) && Idle(s, c)
    ensures Inv(SendReply(s, c, m))
  {
    hide Inv, Mid, NoLostWakeup, Settled;
    IdleFacts(s, c);
    InvParts(s);
    ReplyInv(s, c, m);
  }

  lemma ConnEventInv(s: State, e: Event, clock: Clock)
    requires Inv(s) && Enabled(s, e) && Monotone(clock)
    requires e.Connect? || e.Disconnect? || e.ReplySent? || e.Expired? || e.CronEvent? || e.DrainMode? || e.ReportCmd? || e.LineCmd?
    ensures Inv(Step(s, e, clock))
  {
    hide Inv, Accept, Close, ConnTimeout, CronTick, Monotone, SendReply, JobEvent, Use, Watch, Ignore, PauseTube, Reading, Sending,
      Reset, PutConn;
    match e
    case Connect => AcceptInv(s);
    case Disconnect(c) => CloseInv(s, c, clock);
    case ReplySent(c) => ResetInv(s, c);
    case Expired(c) => ConnTimeoutInv(s, c, clock);
    case CronEvent => CronTickInv(s, clock);
    case DrainMode => DrainModeInv(s);
    case ReportCmd(c) => ReportInv(s, c);
    case LineCmd(c, m) => LineInv(s, c, m);
  }

  /** Every event keeps the invariant, except an unsafe delete, which always breaks it. */
  lemma StepInv(s: State, e: Event, clock: Clock)
    requires Inv(s) && Enabled(s, e) && Monotone(clock)
    ensures Inv(Step(s, e, clock)) <==> Safe(s, e)
  {
    hide Inv, Put, FinishBody, Reserve, Delete, Release, Bury, KickJobs, Touch, Peek, Use, Watch, Ignore, PauseTube,
      Accept, Close, ConnTimeout, CronTick, Monotone, SendReply, DeleteSafe, Reset, Sending, Reading, Idle;
    match e
    case PutCmd(c, pri, delay, ttr, body) => PutInv(s, c, pri, delay, ttr, body, clock);
    case BodyEnd(c, ok) => FinishBodyInv(s, c, ok, clock);
    case ReserveCmd(c, timeout) => ReserveInv(s, c, timeout, clock);
    case DeleteCmd(c, id) => DeleteInvIffSafe(s, c, id);
    case ReleaseCmd(c, id, pri, delay) => ReleaseInv(s, c, id, pri, delay, clock);
    case BuryCmd(c, id, pri) => BuryInv(s, c, id, pri);
    case KickCmd(c, n) => KickInv(s, c, n, clock);
    case TouchCmd(c, id) => TouchInv(s, c, id, clock);
    case PeekCmd(c, id) => PeekInv(s, c, id);
    case UseCmd(c, name) => UseInv(s, c, name);
    case WatchCmd(c, name) => WatchInv(s, c, name);
    case IgnoreCmd(c, name) => IgnoreInv(s, c, name);
    case PauseTubeCmd(c, name, delay) => PauseTubeInv(s, c, name, delay, clock);
    case _ => ConnEventInv(s, e, clock);
  }

  // ----- runs -----

  /** Each event of the list is possible in the state it meets, and safe. */
  ghost predicate CanRun(s: State, es: seq<Event>, clock: Clock)
    requires Inv(s) && Monotone(clock)
    decreases |es|
  {
    es == [] ||
    (&& Enabled(s, es[0]) && Safe(s, es[0])
     && (StepInv(s, es[0], clock); CanRun(Step(s, es[0], clock), es[1..], clock)))
  }

  ghost function After(s: State, es: seq<Event>, clock: Clock): (r: State)
    requires Inv(s) && Monotone(clock) && CanRun(s, es, clock)
    ensures Inv(r)
    decreases |es|
  {
    hide Inv, Enabled, Safe, Step, Monotone;
    if es == [] then s
    else
      StepInv(s, es[0], clock);
      After(Step(s, es[0], clock), es[1..], clock)
  }
}
