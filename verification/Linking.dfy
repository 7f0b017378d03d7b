/** Tubes and the connections that use and watch them, in place: tube.c, and do_cmd's use,
    watch, ignore, pause-tube and peek. */
module Linking {
  import opened Lists
  import opened State
  import opened Moves
  import opened JobMoves
  import opened Queue
  import opened Steps
  import opened Tubes
  import opened Run
  import opened Machine
  import opened Queueing
  import opened Commands
  import opened SmallSteps
  import opened Objects
  import Dispatching

  // ----- tube.c -----

  /** tube_iref. */
  method Hold(sv: Server, t: TubeId)
    requires sv.Rep() && t in sv.model.tubes
    modifies sv.Repr
    ensures sv.Rep() && sv.Grows() && sv.model == Bump(old(sv.model), t)
  {
    hide Server.Rep;
    var x := sv.TubeRec(t);
    sv.SetTube(t, x.(refs := x.refs + 1));
  }

  /** The tube may lose a reference: if it is the last one, its heaps are empty. */
  ghost predicate Droppable(s: State, t: TubeId) {
    t in s.tubes && (s.tubes[t].refs == 1 ==> s.tubes[t].ready == {} && s.tubes[t].delayed == {})
  }

  lemma SpareDroppable(s: State, t: TubeId, d: Slack)
    requires Mid(s, s.jobs, d) && HasSpare(s, t)
    ensures Droppable(s, t)
  {
    assert t in s.tubes by { hide Mid; }
    hide *;
    MidParts(s, s.jobs, d);
    OwnParts(s.jobs, s);
    if s.tubes[t].refs == 1 {
      LastReference(s, t);
      UnreferencedIsEmpty(s, t);
    }
    DroppableIs(s, t);
  }

  lemma DroppableIs(s: State, t: TubeId)
    ensures Droppable(s, t) <==> t in s.tubes && (s.tubes[t].refs == 1 ==> s.tubes[t].ready == {} && s.tubes[t].delayed == {})
  {}

  /** tube_dref, with tube_free_and_remove. */
  method DropRef(sv: Server, t: TubeId)
    requires sv.Rep() && Droppable(sv.model, t)
    modifies sv.Repr
    ensures sv.Rep() && sv.Grows() && sv.model == Moves.DropRef(old(sv.model), t)
  {
    hide Server.Rep, FreeTube;
    var x := sv.TubeRec(t);
    if x.refs >= 1 {
      if x.refs == 1 {
        sv.RemoveTube(t);
      } else {
        sv.SetTube(t, x.(refs := x.refs - 1));
      }
    }
  }

  /** tube_find. */
  method FindTube(sv: Server, name: string) returns (t: Option<TubeId>)
    requires sv.Rep() && forall t :: t in sv.model.tubeList <==> t in sv.model.tubes
    ensures t == None ==> !Exists(sv.model, name)
    ensures t.Some? ==> Named(sv.model, t.value, name)
  {
    hide Server.Rep;
    var list := sv.Tubes();
    t := None;
    var i := 0;
    while i < |list| && t == None
      invariant i <= |list| && (t.Some? ==> Named(sv.model, t.value, name))
      invariant t == None ==> forall u :: u in list[..i] ==> !Named(sv.model, u, name)
    {
      if sv.TubeRec(list[i]).name == name { t := Some(list[i]); }
      assert list[..i + 1] == list[..i] + [list[i]];
      i := i + 1;
    }
  }

  /** tube_find_or_create, and the reference its caller takes. */
  method ObtainTube(sv: Server, name: string) returns (t: TubeId)
    requires sv.Rep() && Shape(sv.model) && sv.model.nextTube !in sv.model.tubes
    modifies sv.Repr
    ensures sv.Rep() && sv.Grows() && (sv.model, t) == Obtain(old(sv.model), name)
  {
    hide Server.Rep, Bump, NoDup;
    var found := FindTube(sv, name);
    if found.Some? {
      t := found.value;
      FindUnique(sv.model, name, t);
    } else {
      t := sv.AddTube(name);
    }
    Hold(sv, t);
  }

  // ----- use -----

  /** The order in which OP_USE moves the connection does not matter. */
  lemma UseInOrder(s: State, c: ConnId, t: TubeId)
    requires c in s.conns && t in s.tubes && s.conns[c].use in s.tubes && (t == s.conns[c].use ==> s.tubes[t].refs >= 2)
    ensures var prev := s.conns[c].use;
            var x := s.tubes[prev];
            var s1 := Moves.DropRef(PutTube(s, prev, x.(usingCnt := x.usingCnt - 1)), prev);
            && t in s1.tubes
            && PutTube(PutConn(s1, c, s.conns[c].(use := t)), t, s1.tubes[t].(usingCnt := s1.tubes[t].usingCnt + 1))
               == Moves.DropRef(Relink(s, c, s.conns[c].(use := t)), prev)
  {
    var prev := s.conns[c].use;
    var x := s.tubes[prev];
    var s1 := Moves.DropRef(PutTube(s, prev, x.(usingCnt := x.usingCnt - 1)), prev);
    hide SwapRemove;
    if x.refs == 1 {
      UseFrees(s, c, t);
    } else {
      var a := PutTube(PutConn(s1, c, s.conns[c].(use := t)), t, s1.tubes[t].(usingCnt := s1.tubes[t].usingCnt + 1));
      var b := Moves.DropRef(Relink(s, c, s.conns[c].(use := t)), prev);
      assert a.tubes == b.tubes;
    }
  }

  lemma UseFrees(s: State, c: ConnId, t: TubeId)
    requires c in s.conns && t in s.tubes && s.conns[c].use in s.tubes && t != s.conns[c].use
    requires s.tubes[s.conns[c].use].refs == 1
    ensures var prev := s.conns[c].use;
            var x := s.tubes[prev];
            var s1 := Moves.DropRef(PutTube(s, prev, x.(usingCnt := x.usingCnt - 1)), prev);
            && t in s1.tubes
            && PutTube(PutConn(s1, c, s.conns[c].(use := t)), t, s1.tubes[t].(usingCnt := s1.tubes[t].usingCnt + 1))
               == Moves.DropRef(Relink(s, c, s.conns[c].(use := t)), prev)
  {
    hide SwapRemove;
    var prev := s.conns[c].use;
    var s1 := FreeTube(s, prev);
    assert PutTube(s1, t, s1.tubes[t].(usingCnt := s1.tubes[t].usingCnt + 1)).tubes
        == Moves.DropRef(Relink(s, c, s.conns[c].(use := t)), prev).tubes;
  }

  lemma UsedTwice(s: State, c: ConnId, t: TubeId)
    requires Refs(s) && HasSpare(s, t) && c in s.conns && s.conns[c].use == t
    ensures s.tubes[t].refs >= 2
  {
    assert TubeRefs(s, t, s.tubes[t]);
    if s.tubes[t].usingCnt == 0 { CountZero(s.conns, Uses(t), c); }
  }

  lemma UseOk(s: State, c: ConnId, name: string)
    requires Inv(s) && Idle(s, c)
    ensures Shape(s) && s.nextTube !in s.tubes
    ensures var (s1, t) := Obtain(s, name);
            && s1.conns == s.conns && s.conns[c].use in s1.tubes && t in s1.tubes
            && var prev := s.conns[c].use;
               && (t == prev ==> s1.tubes[t].refs >= 2)
               && (s1.tubes[prev].refs == 1 ==> s1.tubes[prev].ready == {} && s1.tubes[prev].delayed == {})
  {
    UseRelinked(s, c, name);
    var (s1, t) := Obtain(s, name);
    var prev := s.conns[c].use;
    var s2 := Relink(s1, c, s1.conns[c].(use := t));
    assert s2.tubes[prev].ready == s1.tubes[prev].ready && s2.tubes[prev].delayed == s1.tubes[prev].delayed
           && s2.tubes[prev].refs == s1.tubes[prev].refs by { hide Inv, Mid, Obtain, HasSpare; }
    hide *;
    InvParts(s);
    MidParts(s, s.jobs, Nothing);
    MidParts(s1, s1.jobs, Nothing);
    SpareDroppable(s2, prev, Nothing);
    assert s2.tubes[prev].refs == 1 ==> s2.tubes[prev].ready == {} && s2.tubes[prev].delayed == {} by { DroppableIs(s2, prev); }
    if t == prev { UsedTwice(s1, c, t); }
  }

  /** Leave the tube in use for tube t, in the order of the program: first the old one's counter and reference. */
  method Switch(sv: Server, c: ConnId, t: TubeId)
    requires sv.Rep() && c in sv.model.conns && t in sv.model.tubes && sv.model.conns[c].use in sv.model.tubes
    requires var m := sv.model; var prev := m.conns[c].use;
             && (t == prev ==> m.tubes[t].refs >= 2)
             && (m.tubes[prev].refs == 1 ==> m.tubes[prev].ready == {} && m.tubes[prev].delayed == {})
    modifies sv.Repr
    ensures sv.Rep() && sv.Grows() && c in sv.model.conns
    ensures var m := old(sv.model);
            sv.model == Moves.DropRef(Relink(m, c, m.conns[c].(use := t)), m.conns[c].use)
  {
    hide Server.Rep, Moves.DropRef, Relink;
    UseInOrder(sv.model, c, t);
    var k := sv.ConnRec(c);
    var x := sv.TubeRec(k.use);
    sv.SetTube(k.use, x.(usingCnt := x.usingCnt - 1));
    DropRef(sv, k.use);
    sv.SetConn(c, k.(use := t));
    var y := sv.TubeRec(t);
    sv.SetTube(t, y.(usingCnt := y.usingCnt + 1));
  }

  /** OP_USE. */
  method Use(sv: Server, c: ConnId, name: string)
    requires sv.Rep() && Inv(sv.model) && Idle(sv.model, c)
    modifies sv.Repr
    ensures sv.Rep() && sv.Grows() && sv.model == Tubes.Use(old(sv.model), c, name)
  {
    hide Server.Rep, Inv, Obtain, Moves.DropRef, Relink, SendReply, Shape;
    UseOk(sv.model, c, name);
    var t := ObtainTube(sv, name);
    Switch(sv, c, t);
    Say(sv, c, Using(name));
  }

  // ----- watch and ignore -----

  /** The tubes of other names are not touched when one more is watched. */
  lemma WatchRelinked(s: State, c: ConnId, t: TubeId)
    requires c in s.conns && t in s.tubes && t !in s.conns[c].watch
    ensures var x, k := s.tubes[t], s.conns[c];
            PutTube(PutConn(s, c, k.(watch := k.watch + [t])), t, x.(watchingCnt := x.watchingCnt + 1))
            == Relink(s, c, k.(watch := k.watch + [t]))
  {
    var k := s.conns[c];
    assert forall u :: u in k.watch + [t] <==> u in k.watch || u == t;
    assert Relink(s, c, k.(watch := k.watch + [t])).tubes == s.tubes[t := s.tubes[t].(watchingCnt := s.tubes[t].watchingCnt + 1)];
  }

  /** set_append on the watch set, with on_watch. */
  method WatchOne(sv: Server, c: ConnId, t: TubeId)
    requires sv.Rep() && c in sv.model.conns && t in sv.model.tubes && t !in sv.model.conns[c].watch
    modifies sv.Repr
    ensures sv.Rep() && sv.Grows()
    ensures var s1 := Bump(old(sv.model), t);
            c in sv.model.conns && sv.model == Relink(s1, c, s1.conns[c].(watch := s1.conns[c].watch + [t]))
  {
    hide Server.Rep, Relink;
    Hold(sv, t);
    WatchRelinked(sv.model, c, t);
    var k := sv.ConnRec(c);
    sv.SetConn(c, k.(watch := k.watch + [t]));
    var x := sv.TubeRec(t);
    sv.SetTube(t, x.(watchingCnt := x.watchingCnt + 1));
  }

  lemma ShapeOf(s: State)
    requires Inv(s)
    ensures Shape(s) && s.nextTube !in s.tubes && forall t :: t in s.tubeList <==> t in s.tubes
  {
    hide Own, Waits, Phases, Counts, Memo, Refs, NoLostWakeup;
  }

  /** OP_WATCH. */
  method Watch(sv: Server, c: ConnId, name: string)
    requires sv.Rep() && Inv(sv.model) && Idle(sv.model, c)
    modifies sv.Repr
    ensures sv.Rep() && sv.Grows() && sv.model == Tubes.Watch(old(sv.model), c, name)
  {
    hide Server.Rep, Inv, Relink, SendReply, Bump, MakeTube, Shape, Mid, HasSpare;
    LinksExist(sv.model, c);
    InvParts(sv.model);
    ObtainMid(sv.model, name);
    ShapeOf(sv.model);
    NewNotWatched(sv.model, c);
    var w := sv.ConnRec(c).watch;
    var found := FindTube(sv, name);
    var t;
    if found.Some? {
      t := found.value;
      FindUnique(sv.model, name, t);
    } else {
      MadeKeeps(sv.model, name);
      t := sv.AddTube(name);
    }
    if t in w {
      Say(sv, c, Watching(|w|));
    } else {
      WatchOne(sv, c, t);
      Say(sv, c, Watching(|w| + 1));
    }
  }

  lemma NewNotWatched(s: State, c: ConnId)
    requires Inv(s) && c in s.conns
    ensures s.nextTube !in s.conns[c].watch
  {
    ShapeOf(s);
    hide Inv;
  }

  lemma MadeKeeps(s: State, name: string)
    ensures MakeTube(s, name).conns == s.conns && s.nextTube in MakeTube(s, name).tubes
  {}

  /** The watch set of a connection loses the tube in slot i, with on_ignore. */
  method UnwatchSlot(sv: Server, c: ConnId, i: nat, ghost d: Slack)
    requires sv.Rep() && Mid(sv.model, sv.model.jobs, d) && c in sv.model.conns && !sv.model.conns[c].waiting
    requires i < |sv.model.conns[c].watch|
    modifies sv.Repr
    ensures sv.Rep() && sv.Grows()
    ensures var s := old(sv.model);
            var t, k := s.conns[c].watch[i], s.conns[c].(watch := SwapDelete(s.conns[c].watch, i));
            c in sv.model.conns && t in Relink(s, c, k).tubes && sv.model == Moves.DropRef(Relink(s, c, k), t)
  {
    hide Server.Rep, Mid, Relink, Moves.DropRef, SwapDelete, NoLostWakeup;
    UnwatchMid(sv.model, c, i, d);
    UnwatchDroppable(sv.model, c, i, d);
    var k := sv.ConnRec(c);
    var t := k.watch[i];
    UnwatchRelinked(sv.model, c, i);
    sv.SetConn(c, k.(watch := SwapDelete(k.watch, i)));
    var x := sv.TubeRec(t);
    sv.SetTube(t, x.(watchingCnt := x.watchingCnt - 1));
    DropRef(sv, t);
  }

  lemma UnwatchDroppable(s: State, c: ConnId, i: nat, d: Slack)
    requires Mid(s, s.jobs, d) && c in s.conns && !s.conns[c].waiting && i < |s.conns[c].watch|
    ensures NoDup(s.conns[c].watch)
    ensures Droppable(Relink(s, c, s.conns[c].(watch := SwapDelete(s.conns[c].watch, i))), s.conns[c].watch[i])
  {
    hide *;
    var k, t := s.conns[c].(watch := SwapDelete(s.conns[c].watch, i)), s.conns[c].watch[i];
    MidParts(s, s.jobs, d);
    WatchNoDup(s, c);
    UnwatchRelinks(s, c, i);
    UnwatchCovers(s, c, k, t);
    RelinkMid(s, c, k, d);
    SpareDroppable(Relink(s, c, k), t, d);
  }

  lemma WatchNoDup(s: State, c: ConnId)
    requires Shape(s) && c in s.conns
    ensures NoDup(s.conns[c].watch)
  {}

  lemma UnwatchRelinked(s: State, c: ConnId, i: nat)
    requires c in s.conns && i < |s.conns[c].watch| && s.conns[c].watch[i] in s.tubes && NoDup(s.conns[c].watch)
    ensures var k, t := s.conns[c], s.conns[c].watch[i];
            PutTube(PutConn(s, c, k.(watch := SwapDelete(k.watch, i))), t, s.tubes[t].(watchingCnt := s.tubes[t].watchingCnt - 1))
            == Relink(s, c, k.(watch := SwapDelete(k.watch, i)))
  {
    var k, t := s.conns[c], s.conns[c].watch[i];
    SwapDeleteMembers(k.watch, i);
    assert t in k.watch;
    hide SwapDelete, NoDup;
    assert Relink(s, c, k.(watch := SwapDelete(k.watch, i))).tubes
        == s.tubes[t := s.tubes[t].(watchingCnt := s.tubes[t].watchingCnt - 1)];
  }

  /** OP_IGNORE: search the watch set for the name. */
  method Ignore(sv: Server, c: ConnId, name: string)
    requires sv.Rep() && Inv(sv.model) && Idle(sv.model, c)
    modifies sv.Repr
    ensures sv.Rep() && sv.Grows() && sv.model == Tubes.Ignore(old(sv.model), c, name)
  {
    hide Server.Rep, Inv, Mid, Settled, Moves.DropRef, Relink, SendReply, SwapDelete, SwapRemove, Find, Shape, NoDup;
    IdleFacts(sv.model, c);
    LinksExist(sv.model, c);
    ShapeOf(sv.model);
    var w := sv.ConnRec(c).watch;
    var i := 0;
    while i < |w| && sv.TubeRec(w[i]).name != name
      invariant i <= |w| && forall u :: u in w[..i] ==> !Named(sv.model, u, name)
    {
      assert w[..i + 1] == w[..i] + [w[i]];
      i := i + 1;
    }
    assert w[..|w|] == w;
    if i == |w| {
      Say(sv, c, Watching(|w|));
    } else {
      WatchedIs(sv.model, c, name, i);
      if |w| < 2 {
        Say(sv, c, NotIgnored);
      } else {
        UnwatchSlot(sv, c, i, Nothing);
        Say(sv, c, Watching(|w| - 1));
      }
    }
  }

  lemma WatchedIs(s: State, c: ConnId, name: string, i: nat)
    requires Shape(s) && c in s.conns && i < |s.conns[c].watch| && Named(s, s.conns[c].watch[i], name)
    requires forall u :: u in s.conns[c].watch[..i] ==> !Named(s, u, name)
    ensures var w := s.conns[c].watch;
            IsWatched(s, c, name) && WatchedTube(s, c, name) == w[i] && SwapRemove(w, w[i]) == SwapDelete(w, i)
  {
    hide SwapDelete;
    var w := s.conns[c].watch;
    assert w[i] in w;
    assert w[i] !in w[..i];
    FirstHit(w, w[i], i);
  }

  // ----- pause-tube, peek and connections that come -----

  /** Tube t is paused for d, from the reading of the clock on. */
  ghost function PausedFor(s: State, t: TubeId, d: int, now: int): State
    requires t in s.tubes
  {
    PutTube(s, t, s.tubes[t].(deadline := now + d, pause := d, pauseCnt := s.tubes[t].pauseCnt + 1)).(tick := s.tick + 1)
  }

  lemma PauseIs(s: State, c: ConnId, name: string, delay: int, clock: Clock)
    requires Inv(s) && Idle(s, c) && delay >= 0
    ensures Exists(s, name) ==>
              var t := Tubes.FindTube(s, name);
              var s1 := PausedFor(s, t, if delay == 0 then 1 else delay, clock(s.tick));
              c in s1.conns && Tubes.PauseTube(s, c, name, delay, clock) == SendReply(s1, c, Paused)
    ensures !Exists(s, name) ==> Tubes.PauseTube(s, c, name, delay, clock) == SendReply(s, c, NotFound)
  {
    hide Inv, Exists, SendReply;
  }

  method PauseOne(sv: Server, t: TubeId, d: int)
    requires sv.Rep() && t in sv.model.tubes
    modifies sv.Repr
    ensures sv.Rep() && sv.Grows() && sv.model == PausedFor(old(sv.model), t, d, sv.clock(old(sv.model).tick))
  {
    hide Server.Rep;
    var now := sv.Ustime();
    var x := sv.TubeRec(t);
    sv.SetTube(t, x.(deadline := now + d, pause := d, pauseCnt := x.pauseCnt + 1));
  }

  /** OP_PAUSE_TUBE. */
  method PauseTube(sv: Server, c: ConnId, name: string, delay: int)
    requires sv.Rep() && Inv(sv.model) && Idle(sv.model, c) && delay >= 0
    modifies sv.Repr
    ensures sv.Rep() && sv.Grows() && sv.model == Tubes.PauseTube(old(sv.model), c, name, delay, sv.clock)
  {
    hide Server.Rep, Inv, SendReply, Shape, Tubes.PauseTube, PausedFor;
    PauseIs(sv.model, c, name, delay, sv.clock);
    ShapeOf(sv.model);
    var found := FindTube(sv, name);
    if found.Some? {
      var t := found.value;
      FindUnique(sv.model, name, t);
      PauseOne(sv, t, if delay == 0 then 1 else delay);
      Say(sv, c, Paused);
    } else {
      Say(sv, c, NotFound);
    }
  }

  /** OP_PEEKJOB, with job_copy and reply_job. */
  method Peek(sv: Server, c: ConnId, id: JobId)
    requires sv.Rep() && Inv(sv.model) && Idle(sv.model, c)
    modifies sv.Repr
    ensures sv.Rep() && sv.Grows() && sv.model == Run.Peek(old(sv.model), c, id)
  {
    hide Server.Rep, Inv, Mid, Settled;
    IdleFacts(sv.model, c);
    if sv.HasJob(id) {
      Hold(sv, sv.JobRec(id).tube);
      Answer(sv, c, SendJob, Copy, FoundJob(id));
    } else {
      Say(sv, c, NotFound);
    }
  }

  /** OP_PEEK_READY and OP_PEEK_DELAYED: the job at the root of one of the two heaps of the tube in use. */
  method PeekRoot(sv: Server, c: ConnId, order: Order)
    requires sv.Rep() && Inv(sv.model) && Idle(sv.model, c)
    modifies sv.Repr
    ensures sv.Rep() && sv.Grows() && sv.model == if order.ByPri? then PeekReady(old(sv.model), c) else PeekDelayed(old(sv.model), c)
  {
    hide Server.Rep, Inv, Server.HeapSize, Server.HeapRoot, IsTop, Run.Peek, SendReply;
    UsedTube(sv.model, c);
    var t := sv.ConnRec(c).use;
    sv.RootIsTop(t, order);
    if sv.HeapSize(t, order) == 0 {
      Say(sv, c, NotFound);
    } else {
      var j := sv.HeapRoot(t, order);
      Dispatching.TopUnique(sv.model.jobs, KeyOf(order), HeapSet(sv.model, t, order), j, Top(sv.model.jobs, KeyOf(order), HeapSet(sv.model, t, order)));
      Peek(sv, c, j);
    }
  }
}
