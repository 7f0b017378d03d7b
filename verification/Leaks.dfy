/** Tubes that are never deleted. A job takes a reference of its tube, and nothing ever gives it back: a tube
    that nobody refers to any more goes only if no such reference was ever taken. */
module Leaks {
  import opened Counting
  import opened Lists
  import opened State
  import opened Moves
  import opened JobMoves
  import opened Queue
  import opened Steps
  import opened JobCommands
  import opened Tubes
  import opened Conns
  import opened Cron
  import opened Timeout
  import opened TubeEffects
  import opened Effects
  import opened Run
  import opened Lasting
  import opened Findings
  import Bystanders

  /** No tube with a kept reference goes, the others keep what they kept, and a new one keeps nothing. */
  ghost predicate Keeps(s: State, r: State) {
    && (forall t :: t in s.tubes && Kept(s.tubes[t]) > 0 ==> t in r.tubes)
    && (forall t :: t in r.tubes ==> Kept(r.tubes[t]) == if t in s.tubes then Kept(s.tubes[t]) else 0)
  }

  /** No tube goes, and only tube u keeps n references more. */
  ghost predicate Shifted(s: State, r: State, u: TubeId, n: int) {
    && s.tubes.Keys <= r.tubes.Keys
    && forall t :: t in r.tubes ==>
         Kept(r.tubes[t]) == (if t in s.tubes then Kept(s.tubes[t]) else 0) + if t == u then n else 0
  }

  lemma ObtainShift(s: State, name: string)
    requires s.nextTube !in s.tubes
    ensures Shifted(s, Obtain(s, name).0, Obtain(s, name).1, 1)
  {}

  /** A client that starts to use or watch tube t accounts for the reference it has just taken. */
  lemma UseShift(s: State, s1: State, c: ConnId, t: TubeId)
    requires Shifted(s, s1, t, 1) && c in s1.conns && s1.conns[c].use in s1.tubes
    ensures Shifted(s, Relink(s1, c, s1.conns[c].(use := t)), s1.conns[c].use, 1)
  {}

  lemma WatchShift(s: State, s1: State, c: ConnId, t: TubeId)
    requires Shifted(s, s1, t, 1) && c in s1.conns && t !in s1.conns[c].watch
    ensures Keeps(s, Relink(s1, c, s1.conns[c].(watch := s1.conns[c].watch + [t])))
  {}

  lemma IgnoreShift(s: State, c: ConnId, t: TubeId)
    requires c in s.conns && t in s.conns[c].watch && NoDup(s.conns[c].watch) && t in s.tubes
    ensures Shifted(s, Relink(s, c, s.conns[c].(watch := SwapRemove(s.conns[c].watch, t))), t, 1)
  {
    SwapRemoveMembers(s.conns[c].watch, t);
    hide SwapRemove, NoDup;
  }

  lemma ShiftThenDrop(s: State, s1: State, u: TubeId, d: Slack)
    requires Shifted(s, s1, u, 1) && Mid(s1, s1.jobs, d) && u in s1.tubes
    ensures Keeps(s, DropRef(s1, u))
  {
    hide Mid, DropRef, Shifted, Keeps;
    DropIsDropped(s1, u, d);
    ShiftedKeeps(s, s1, u, DropRef(s1, u));
  }

  lemma ShiftedKeeps(s: State, s1: State, u: TubeId, r: State)
    requires Shifted(s, s1, u, 1) && u in s1.tubes && Dropped(s1, u, r)
    ensures Keeps(s, r)
  {}

  lemma SayKeeps(s: State, s1: State, c: ConnId, m: Reply)
    requires Keeps(s, s1) && c in s1.conns
    ensures Keeps(s, SendReply(s1, c, m))
  {
    hide Kept;
  }

  lemma SameKeeps(s: State)
    ensures Keeps(s, s)
  {
    hide Kept;
  }

  lemma UseKeeps(s: State, c: ConnId, name: string)
    requires Inv(s) && Idle(s, c)
    ensures Keeps(s, Use(s, c, name))
  {
    hide Inv, Mid, Obtain, HasSpare, DropRef, Relink, SendReply, NoLostWakeup, Keeps, Shifted;
    LinksExist(s, c);
    UseRelinked(s, c, name);
    ObtainShift(s, name);
    var (s1, t) := Obtain(s, name);
    var s2, prev := Relink(s1, c, s1.conns[c].(use := t)), s.conns[c].use;
    UseShift(s, s1, c, t);
    RelinkIs(s1, c, s1.conns[c].(use := t));
    ShiftThenDrop(s, s2, prev, Nothing);
    DropRefIs(s2, prev);
    SayKeeps(s, DropRef(s2, prev), c, Using(name));
  }

  lemma WatchKeeps(s: State, c: ConnId, name: string)
    requires Inv(s) && Idle(s, c)
    ensures Keeps(s, Watch(s, c, name))
  {
    hide Inv, Mid, Obtain, HasSpare, Relink, SendReply, NoLostWakeup, Keeps, Shifted;
    LinksExist(s, c);
    InvParts(s);
    ObtainMid(s, name);
    ObtainShift(s, name);
    SameKeeps(s);
    var (s1, t) := Obtain(s, name);
    var w := s.conns[c].watch;
    SayKeeps(s, s, c, Watching(|w|));
    if t !in w {
      WatchShift(s, s1, c, t);
      RelinkIs(s1, c, s1.conns[c].(watch := w + [t]));
      SayKeeps(s, Relink(s1, c, s1.conns[c].(watch := w + [t])), c, Watching(|w| + 1));
    }
  }

  lemma IgnoreKeeps(s: State, c: ConnId, name: string)
    requires Inv(s) && Idle(s, c)
    ensures Keeps(s, Ignore(s, c, name))
  {
    hide Inv, Mid, DropRef, Relink, SwapRemove, NoDup, IsWatched, SendReply, Keeps, Shifted, HasSpare, NoLostWakeup, Settled, Find;
    LinksExist(s, c);
    SameKeeps(s);
    var w := s.conns[c].watch;
    SayKeeps(s, s, c, Watching(|w|));
    SayKeeps(s, s, c, NotIgnored);
    if IsWatched(s, c, name) && |w| >= 2 {
      var t := WatchedTube(s, c, name);
      var k := s.conns[c].(watch := SwapRemove(w, t));
      IgnoreShift(s, c, t);
      FindIndex(w, t);
      IdleFacts(s, c);
      InvParts(s);
      UnwatchSpare(s, c, Find(w, t), Nothing);
      RelinkIs(s, c, k);
      ShiftThenDrop(s, Relink(s, c, k), t, Nothing);
      DropRefIs(Relink(s, c, k), t);
      SayKeeps(s, DropRef(Relink(s, c, k), t), c, Watching(|w| - 1));
    }
  }

  lemma PauseKeeps(s: State, c: ConnId, name: string, delay: int, clock: Clock)
    requires Inv(s) && Idle(s, c) && delay >= 0
    ensures Keeps(s, PauseTube(s, c, name, delay, clock))
  {
    hide Inv;
  }

  lemma LinkKeeps(s: State, e: Event, clock: Clock)
    requires Inv(s) && Enabled(s, e) && Monotone(clock) && IsLink(e)
    ensures Keeps(s, Step(s, e, clock))
  {
    hide Inv, Use, Watch, Ignore, PauseTube, Monotone, IsWatched, Exists, NoDup, JobEvent, Accept, Close, ConnTimeout, CronTick, Reset,
      SendReply, Sending, Reading, Keeps;
    match e
    case UseCmd(c, name) => UseKeeps(s, c, name);
    case WatchCmd(c, name) => WatchKeeps(s, c, name);
    case IgnoreCmd(c, name) => IgnoreKeeps(s, c, name);
    case PauseTubeCmd(c, name, delay) => PauseKeeps(s, c, name, delay, clock);
  }

  lemma KeepsNone(s: State, e: Event, r: State, t: TubeId)
    requires Keeps(s, r) && !e.PutCmd? && !e.PeekCmd? && t in s.tubes
    ensures Kept(s.tubes[t]) + Added(s, e, t) > 0 ==> t in r.tubes
    ensures t in r.tubes ==> Kept(r.tubes[t]) == Kept(s.tubes[t]) + Added(s, e, t)
  {}

  lemma SteadyKept(s: State, e: Event, r: State, t: TubeId, clock: Clock)
    requires Steady(Noted(s, e), r, clock) && t in s.tubes
    ensures Kept(s.tubes[t]) + Added(s, e, t) > 0 ==> t in r.tubes
    ensures t in r.tubes ==> Kept(r.tubes[t]) >= Kept(s.tubes[t]) + Added(s, e, t)
  {
    hide StaysClosed, NotReached, Added;
    assert Kept(Noted(s, e).tubes[t]) == Kept(s.tubes[t]) + Added(s, e, t);
  }

  lemma CalmKept(s: State, e: Event, r: State, t: TubeId, clock: Clock)
    requires Calm(Noted(s, e), r, clock) && t in r.tubes && t in s.tubes
    ensures Kept(r.tubes[t]) == Kept(s.tubes[t]) + Added(s, e, t)
  {
    hide StaysClosed, NotReached, Added;
    assert Kept(Noted(s, e).tubes[t]) == Kept(s.tubes[t]) + Added(s, e, t);
  }

  /** A step adds what Added says to the references that a tube keeps, and never takes any away; a tube
      that keeps any stays. Only conn_timeout may add one more, for the copy of a job that is being sent. */
  lemma KeptIs(s: State, e: Event, clock: Clock, t: TubeId)
    requires Inv(s) && Enabled(s, e) && Monotone(clock) && t in s.tubes
    ensures var r, n := Step(s, e, clock), Kept(s.tubes[t]) + Added(s, e, t);
            && (n > 0 ==> t in r.tubes)
            && (t in r.tubes ==> Kept(r.tubes[t]) >= n && (e.Expired? || Kept(r.tubes[t]) == n))
  {
    hide Inv, Enabled, Monotone, Step, Steady, Calm, Noted, Keeps, Kept, Added;
    var r := Step(s, e, clock);
    if IsLink(e) {
      LinkKeeps(s, e, clock);
      KeepsNone(s, e, r, t);
    } else if e.DrainMode? {
      DrainModeIs(s, e, clock);
      SameKeeps(s);
      KeepsSame(s, r);
      KeepsNone(s, e, r, t);
    } else {
      EventSteady(s, e, clock);
      SteadyKept(s, e, r, t, clock);
      if !e.Expired? {
        EventCalm(s, e, clock);
        if t in r.tubes { CalmKept(s, e, r, t, clock); }
      }
    }
  }

  lemma KeepsSame(s: State, r: State)
    requires r.tubes == s.tubes
    ensures Keeps(s, r)
  {
    hide Kept;
  }

  /** A tube that keeps a reference is there for good, whatever happens. */
  lemma {:induction false} KeptLasts(s: State, es: seq<Event>, clock: Clock, t: TubeId)
    requires Inv(s) && Monotone(clock) && CanRun(s, es, clock) && t in s.tubes && Kept(s.tubes[t]) > 0
    ensures var r := After(s, es, clock); t in r.tubes && Kept(r.tubes[t]) >= Kept(s.tubes[t])
    decreases |es|
  {
    hide Inv, Enabled, Safe, Step, Monotone, Kept, Added;
    if es != [] {
      StepInv(s, es[0], clock);
      KeptIs(s, es[0], clock, t);
      KeptLasts(Step(s, es[0], clock), es[1..], clock, t);
    }
  }

  /** A tube into which a job is put is there for good: neither the end of the job nor that of all its clients
      makes it go. */
  lemma PutKeepsTube(s: State, c: ConnId, es: seq<Event>, clock: Clock)
    requires Inv(s) && Monotone(clock) && CanRun(s, es, clock) && es != [] && es[0].PutCmd? && es[0].c == c && c in s.conns
    ensures s.conns[c].use in After(s, es, clock).tubes
  {
    hide Inv, Enabled, Safe, Step, Monotone, Kept;
    var t := s.conns[c].use;
    LinksExist(s, c);
    RefsAccount(s, t);
    StepInv(s, es[0], clock);
    KeptIs(s, es[0], clock, t);
    KeptLasts(Step(s, es[0], clock), es[1..], clock, t);
  }

  lemma RefsAccount(s: State, t: TubeId)
    requires Inv(s) && t in s.tubes
    ensures Kept(s.tubes[t]) >= Count(s.jobs, InTube(t)) + (if t == s.defaultTube then 1 else 0)
  {
    hide Shape, Own, Waits, Phases, Counts, Memo, NoLostWakeup, Count;
    assert TubeRefs(s, t, s.tubes[t]);
  }

  /** No client uses or watches tube t. */
  ghost predicate Abandoned(s: State, t: TubeId) {
    forall c :: c in s.conns ==> s.conns[c].use != t && t !in s.conns[c].watch
  }

  lemma AbandonedKept(s: State, t: TubeId)
    requires Inv(s) && t in s.tubes && Abandoned(s, t)
    ensures Kept(s.tubes[t]) >= 1
  {
    hide Shape, Own, Waits, Phases, Counts, Memo, NoLostWakeup;
    assert TubeRefs(s, t, s.tubes[t]);
    NobodyCounts(s.conns, Uses(t));
    NobodyCounts(s.conns, Watches(t));
    hide Count;
  }

  /** When a client lets go of a tube that nobody else uses or watches, the tube goes if and only if no reference
      is kept from the jobs it ever held. */
  lemma TubeGoesIff(s: State, e: Event, clock: Clock, t: TubeId)
    requires Inv(s) && Enabled(s, e) && Monotone(clock) && (e.UseCmd? || e.IgnoreCmd? || e.Disconnect?)
    requires t in s.tubes && Abandoned(Step(s, e, clock), t)
    ensures t !in Step(s, e, clock).tubes <==> Kept(s.tubes[t]) == 0
  {
    hide Inv, Enabled, Step, Monotone, Kept, Abandoned;
    RefsAccount(s, t);
    KeptIs(s, e, clock, t);
    StepInv(s, e, clock);
    if t in Step(s, e, clock).tubes {
      AbandonedKept(Step(s, e, clock), t);
    }
  }

  // ----- a run that leaves such a tube behind -----

  /** Client 0, alone and idle, uses tube t, which is not the default tube, and watches that one. */
  ghost predicate OnTube(s: State, t: TubeId) {
    && Inv(s) && s.conns.Keys == {0} && Idle(s, 0) && s.conns[0].use == t && s.conns[0].watch == [0] && !s.drain
    && t in s.tubes && s.tubes[t].name == "x" && t != 0 && s.defaultTube == 0
  }

  /** An event of client 0, and then its reply has been sent. */
  lemma Done(s: State, e: Event, clock: Clock) returns (r: State)
    requires Inv(s) && Monotone(clock) && Reachable(clock, s) && Enabled(s, e) && Safe(s, e) && Sending(Step(s, e, clock), 0)
    ensures Reachable(clock, r) && Inv(r) && Idle(r, 0)
    ensures r == Reset(Step(s, e, clock), 0)
  {
    hide *;
    ReachNext(clock, s, e);
    var s1 := Step(s, e, clock);
    ResetIs(s1, clock);
    ReachNext(clock, s1, ReplySent(0));
    r := Step(s1, ReplySent(0), clock);
    IdleAgain(s1);
  }

  lemma ResetIs(s: State, clock: Clock)
    requires Inv(s) && Monotone(clock) && Sending(s, 0)
    ensures Enabled(s, ReplySent(0)) && Safe(s, ReplySent(0)) && Step(s, ReplySent(0), clock) == Reset(s, 0)
  {
    hide Inv, Monotone, Reset;
  }

  lemma IdleAgain(s: State)
    requires Sending(s, 0)
    ensures Idle(Reset(s, 0), 0)
  {}

  lemma UseIs(s: State, name: string, clock: Clock)
    requires Inv(s) && Monotone(clock) && Idle(s, 0)
    ensures var e := UseCmd(0, name); Enabled(s, e) && Safe(s, e) && Step(s, e, clock) == Use(s, 0, name)
  {
    hide Inv, Monotone, Use;
  }

  lemma DeleteIs(s: State, id: JobId, clock: Clock)
    requires Inv(s) && Monotone(clock) && Idle(s, 0)
    ensures var e := DeleteCmd(0, id);
            Enabled(s, e) && Step(s, e, clock) == Delete(s, 0, id) && (Safe(s, e) <==> DeleteSafe(s, 0, id))
  {
    hide Inv, Monotone, Delete, DeleteSafe;
  }

  /** It uses a tube of its own, which has no job. */
  lemma UseOwn(clock: Clock) returns (s: State, t: TubeId)
    requires Monotone(clock)
    ensures Reachable(clock, s) && OnTube(s, t) && s.jobs == map[]
  {
    hide *;
    var s0 := Connected(clock);
    var e := UseCmd(0, "x");
    AloneIs(s0);
    UseIs(s0, "x", clock);
    DrainStays(s0, e, clock);
    t := TubeFor(s0, "x");
    UseOwnIs(s0, t);
    s := Done(s0, e, clock);
    UsedOwn(Step(s0, e, clock), t);
  }

  /** Client 0 has been answered, and otherwise OnTube holds. */
  ghost predicate OnTubeSends(s: State, t: TubeId) {
    && s.conns.Keys == {0} && Sending(s, 0) && s.conns[0].use == t && s.conns[0].watch == [0] && !s.drain
    && t in s.tubes && s.tubes[t].name == "x" && t != 0 && s.defaultTube == 0
  }

  lemma UsedOwn(s: State, t: TubeId)
    requires OnTubeSends(s, t) && Sending(s, 0) && Inv(Reset(s, 0))
    ensures OnTube(Reset(s, 0), t) && Reset(s, 0).jobs == s.jobs && Reset(s, 0).tubes == s.tubes
  {
    hide Inv;
  }

  lemma UseOwnIs(s: State, t: TubeId)
    requires Alone(s) && AllOpen(s) && Inv(s) && Idle(s, 0) && s.jobs == map[] && s.defaultTube == 0 && s.tubes[0].name == "default"
    requires t == TubeFor(s, "x") && Use(s, 0, "x").defaultTube == s.defaultTube && Use(s, 0, "x").drain == s.drain
    ensures OnTubeSends(Use(s, 0, "x"), t) && Sending(Use(s, 0, "x"), 0) && Use(s, 0, "x").jobs == map[]
  {
    hide Inv, Use, TubeFor;
    UseExact(s, 0, "x");
  }

  /** It puts a job there, which is ready. */
  lemma PutOwn(s: State, t: TubeId, clock: Clock) returns (r: State)
    requires Monotone(clock) && Reachable(clock, s) && OnTube(s, t) && s.jobs == map[]
    ensures Reachable(clock, r) && OnTube(r, t) && Kept(r.tubes[t]) > 0
    ensures r.jobs.Keys == {s.nextJob} && r.jobs[s.nextJob].state == Ready && r.jobs[s.nextJob].tube == t
  {
    hide *;
    var e := PutCmd(0, 0, 0, SECOND, Some(true));
    OnTubeIs(s, t);
    PutIs(s, 0, clock);
    DrainStays(s, e, clock);
    PutOwnIs(s, t, clock);
    r := Done(s, e, clock);
    KeptIs(s, e, clock, t);
    RefsAccount(s, t);
    AddsOne(s, e, t);
    UsedOwn(Step(s, e, clock), t);
  }

  lemma AddsOne(s: State, e: Event, t: TubeId)
    requires e == PutCmd(0, 0, 0, SECOND, Some(true)) && 0 in s.conns && s.conns[0].use == t
    ensures Added(s, e, t) == 1
  {}

  lemma OnTubeIs(s: State, t: TubeId)
    requires OnTube(s, t)
    ensures Inv(s) && Idle(s, 0) && s.conns.Keys == {0} && s.conns[0].use == t && t in s.tubes && t != 0 && s.defaultTube == 0 && !s.drain
  {
    hide Inv;
  }

  lemma NobodyWaitsThere(s: State, t: TubeId)
    requires OnTube(s, t)
    ensures !s.conns[0].waiting && forall d, u :: !WaitsOn(s.conns, d, u)
  {
    hide Inv;
    IdleFacts(s, 0);
    hide Settled, Mid;
  }

  lemma PutOwnIs(s: State, t: TubeId, clock: Clock)
    requires OnTube(s, t) && Inv(s) && Idle(s, 0) && s.jobs == map[]
    requires var r := Put(s, 0, 0, 0, SECOND, Some(true), clock); r.defaultTube == s.defaultTube && r.drain == s.drain
    ensures var r := Put(s, 0, 0, 0, SECOND, Some(true), clock);
            && OnTubeSends(r, t) && Sending(r, 0)
            && r.jobs.Keys == {s.nextJob} && r.jobs[s.nextJob].state == Ready && r.jobs[s.nextJob].tube == t
  {
    hide Inv, Put, WaitsOn;
    NobodyWaitsThere(s, t);
    PutExact(s, 0, 0, 0, SECOND, true, clock);
  }

  /** It deletes the job, and goes back to the default tube. */
  lemma DeleteOwn(s: State, t: TubeId, j: JobId, clock: Clock) returns (r: State)
    requires Monotone(clock) && Reachable(clock, s) && OnTube(s, t) && s.jobs.Keys == {j} && s.jobs[j].state == Ready && Kept(s.tubes[t]) > 0
    ensures Reachable(clock, r) && OnTube(r, t) && r.jobs == map[] && Kept(r.tubes[t]) > 0
  {
    hide *;
    var e := DeleteCmd(0, j);
    OnTubeIs(s, t);
    DeleteIs(s, j, clock);
    DrainStays(s, e, clock);
    DeleteOwnIs(s, t, j);
    r := Done(s, e, clock);
    KeptIs(s, e, clock, t);
    UsedOwn(Step(s, e, clock), t);
  }

  lemma DeleteOwnIs(s: State, t: TubeId, j: JobId)
    requires OnTube(s, t) && Inv(s) && Idle(s, 0) && s.jobs.Keys == {j} && s.jobs[j].state == Ready
    requires Delete(s, 0, j).defaultTube == s.defaultTube && Delete(s, 0, j).drain == s.drain
    ensures DeleteSafe(s, 0, j) && OnTubeSends(Delete(s, 0, j), t) && Sending(Delete(s, 0, j), 0) && Delete(s, 0, j).jobs == map[]
  {
    hide Inv, Delete, Mid, Settled, BesideBuried, Held;
    IdleFacts(s, 0);
    DeleteExact(s, 0, j);
    hide Unlink;
  }

  /** A client alone gets there: it puts a job into a tube of its own, deletes it and leaves the tube, which then
      holds nothing and is referred to by nobody, and is there for good. */
  lemma LeakIsReachable(clock: Clock)
    requires Monotone(clock)
    ensures exists s, t :: Reachable(clock, s) && Inv(s) && t in s.tubes && Unreferenced(s, t) && Kept(s.tubes[t]) > 0
  {
    hide *;
    var s0, t := UseOwn(clock);
    var s1 := PutOwn(s0, t, clock);
    var s2 := DeleteOwn(s1, t, s0.nextJob, clock);
    OnTubeIs(s2, t);
    var e := UseCmd(0, "default");
    UseIs(s2, "default", clock);
    DrainStays(s2, e, clock);
    ReachNext(clock, s2, e);
    KeptIs(s2, e, clock, t);
    LeftBehind(s2, t);
    var s := Step(s2, e, clock);
    assert Reachable(clock, s) && Inv(s) && t in s.tubes && Unreferenced(s, t) && Kept(s.tubes[t]) > 0;
  }

  lemma LeftBehind(s: State, t: TubeId)
    requires OnTube(s, t) && Inv(s) && Idle(s, 0) && s.jobs == map[] && t in Use(s, 0, "default").tubes
    requires Use(s, 0, "default").defaultTube == s.defaultTube
    ensures Unreferenced(Use(s, 0, "default"), t)
  {
    hide Inv, Use, TubeFor;
    UseExact(s, 0, "default");
  }
}
