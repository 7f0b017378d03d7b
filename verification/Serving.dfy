/** The whole server, in place: it starts, and handles events one after another. */
module Serving {
  import opened State
  import opened Moves
  import opened Steps
  import opened Tubes
  import opened Run
  import opened Meaning
  import opened Machine
  import Queueing
  import Commands
  import Handling
  import Linking
  import Leaving
  import Ticking
  import JobCommands
  import Kick
  import Waiting
  import Conns
  import Cron
  import Timeout

  lemma BootIsInit()
    ensures Blank().nextTube == 0 && 0 !in Blank().tubes
    ensures var s := MakeTube(Blank(), "default"); 0 in s.tubes && Bump(s, 0) == Init()
  {
    assert Bump(MakeTube(Blank(), "default"), 0).tubes == Init().tubes;
  }

  /** srv_init: the server itself holds a reference to the default tube. */
  method Boot(clock: Clock) returns (sv: Server)
    ensures sv.Rep() && fresh(sv.Repr) && sv.clock == clock && sv.model == Init()
  {
    hide Server.Rep, Bump, Init, Blank, MakeTube;
    BootIsInit();
    sv := new Server(clock);
    var t := sv.AddTube("default");
    Linking.Hold(sv, t);
  }

  /** conn_reset. */
  method Reset(sv: Server, c: ConnId)
    requires sv.Rep() && Sending(sv.model, c)
    modifies sv.Repr
    ensures sv.Rep() && sv.Grows() && sv.model == Run.Reset(old(sv.model), c)
  {
    hide Server.Rep;
    sv.SetConn(c, sv.ConnRec(c).(out := NoJob, phase := WantCommand));
  }

  /** The event frees no job that a heap still holds; no state of the objects would stand for that. */
  ghost predicate LeavesHeaps(s: State, e: Event)
    requires Inv(s) && Enabled(s, e)
  {
    e.DeleteCmd? ==> Commands.LeavesHeaps(s, e.c, e.id)
  }

  lemma SafeLeavesHeaps(s: State, e: Event)
    requires Inv(s) && Enabled(s, e) && Safe(s, e)
    ensures LeavesHeaps(s, e)
  {
    hide Inv, Commands.LeavesHeaps, JobCommands.DeleteSafe;
    if e.DeleteCmd? { Commands.SafeLeavesHeaps(s, e.c, e.id); }
  }

  /** The commands on jobs. */
  method HandleJob(sv: Server, e: Event)
    requires sv.Rep() && Inv(sv.model) && Enabled(sv.model, e) && LeavesHeaps(sv.model, e) && IsJobEvent(e)
    modifies sv.Repr
    ensures sv.Rep() && sv.Grows() && sv.model == JobEvent(old(sv.model), e, sv.clock)
  {
    hide Server.Rep, Inv, JobCommands.Put, JobCommands.FinishBody, Waiting.Reserve, Steps.Delete, Steps.Release, Steps.Bury,
      Kick.KickJobs, Steps.Touch, Run.Peek, Commands.LeavesHeaps, Idle, JobCommands.Reading;
    match e
    case PutCmd(c, pri, delay, ttr, body) => Commands.Put(sv, c, pri, delay, ttr, body);
    case BodyEnd(c, ok) => Commands.FinishBody(sv, c, ok);
    case ReserveCmd(c, timeout) => Handling.Reserve(sv, c, timeout);
    case DeleteCmd(c, id) => Commands.Delete(sv, c, id);
    case ReleaseCmd(c, id, pri, delay) => Commands.Release(sv, c, id, pri, delay);
    case BuryCmd(c, id, pri) => Commands.Bury(sv, c, id, pri);
    case KickCmd(c, n) => Handling.KickJobs(sv, c, n);
    case TouchCmd(c, id) => Commands.Touch(sv, c, id);
    case PeekCmd(c, id) => Linking.Peek(sv, c, id);
  }

  /** Any event, unsafe deletes that leave the heaps alone included: what the objects become is what the
      specification says, and they are in a good state again if and only if the event was safe. */
  method Handle(sv: Server, e: Event)
    requires sv.Rep() && Inv(sv.model) && Enabled(sv.model, e) && LeavesHeaps(sv.model, e) && Monotone(sv.clock)
    modifies sv.Repr
    ensures sv.Rep() && sv.Grows() && sv.model == Step(old(sv.model), e, sv.clock)
    ensures Inv(sv.model) <==> Safe(old(sv.model), e)
  {
    hide Server.Rep, Inv, JobEvent, Conns.Accept, Conns.Close, Timeout.ConnTimeout, Cron.CronTick, Tubes.Use, Tubes.Watch,
      Tubes.Ignore, Tubes.PauseTube, Monotone, Safe, LeavesHeaps, SendReply, Run.Reset;
    StepInv(sv.model, e, sv.clock);
    if IsJobEvent(e) {
      HandleJob(sv, e);
    } else {
      match e
      case Connect => var c := Leaving.Accept(sv);
      case Disconnect(c) => Leaving.Close(sv, c);
      case ReplySent(c) => Reset(sv, c);
      case Expired(c) => Ticking.ConnTimeout(sv, c);
      case CronEvent => Ticking.CronTick(sv);
      case DrainMode =>
        var g := sv.Own();
        sv.SetStats(g.totalJobs, g.timeoutCnt, true);
      case ReportCmd(c) => Queueing.Answer(sv, c, SendJob, Copy, sv.ConnRec(c).reply);
      case LineCmd(c, m) => Commands.Say(sv, c, m);
      case UseCmd(c, name) => Linking.Use(sv, c, name);
      case WatchCmd(c, name) => Linking.Watch(sv, c, name);
      case IgnoreCmd(c, name) => Linking.Ignore(sv, c, name);
      case PauseTubeCmd(c, name, delay) => Linking.PauseTube(sv, c, name, delay);
    }
  }

  /** From its start through any run of events the server does what the specification says,
      and ends in a sound state. */
  method Serve(clock: Clock, es: seq<Event>) returns (sv: Server)
    requires Monotone(clock) && (InitInv(); CanRun(Init(), es, clock))
    ensures sv.Rep() && fresh(sv.Repr) && sv.model == (InitInv(); After(Init(), es, clock)) && Sound(sv.model)
  {
    hide Server.Rep, Inv, Enabled, Safe, LeavesHeaps, Step, Monotone, Init, Sound;
    InitInv();
    sv := Boot(clock);
    for i := 0 to |es|
      invariant sv.Rep() && fresh(sv.Repr) && sv.clock == clock && Inv(sv.model) && CanRun(sv.model, es[i..], clock)
      invariant After(Init(), es, clock) == After(sv.model, es[i..], clock)
    {
      assert es[i..][0] == es[i] && es[i..][1..] == es[i + 1..];
      SafeLeavesHeaps(sv.model, es[i]);
      Handle(sv, es[i]);
    }
    InvSound(sv.model);
  }
}
