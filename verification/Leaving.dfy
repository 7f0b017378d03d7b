/** Connections come and go, in place: conn_accept and conn_free. */
module Leaving {
  import opened Lists
  import opened State
  import opened Moves
  import opened Queue
  import opened Steps
  import opened JobCommands
  import opened Tubes
  import opened Conns
  import opened Machine
  import opened Dispatching
  import opened Commands
  import opened Linking

  /** conn_create for the default tube. */
  method Accept(sv: Server) returns (c: ConnId)
    requires sv.Rep() && Inv(sv.model)
    modifies sv.Repr
    ensures sv.Rep() && sv.Grows() && c == old(sv.model).nextConn
    ensures old(sv.model).defaultTube in old(sv.model).tubes && sv.model == Conns.Accept(old(sv.model))
  {
    hide Server.Rep, Inv;
    DefaultExists(sv.model);
    var t := sv.Own().defaultTube;
    var x := sv.TubeRec(t);
    sv.SetTube(t, x.(refs := x.refs + 2, usingCnt := x.usingCnt + 1, watchingCnt := x.watchingCnt + 1));
    c := sv.AddConn(Conn(WantCommand, false, t, [t], [], None, None, NoJob, -1, Silent));
  }

  // ----- conn_free -----

  lemma LetGoOk(s: State, c: ConnId)
    requires Inv(s) && c in s.conns
    ensures WatchOk(s, c)
    ensures s.conns[c].inJob.Some? ==> s.conns[c].inJob.value in s.jobs && NoHeap(DropIncoming(s, c), s.conns[c].inJob.value)
  {
    hide Inv, Mid, WatchOk, NoHeap;
    InvParts(s);
    LinksExist(s, c);
    assert WatchOk(s, c) by { WatchOkBy(s, c); }
    if s.conns[c].inJob.Some? {
      var j := s.conns[c].inJob.value;
      LeaveIncomingMid(s, c, j);
      MidNoHeap(DropIncoming(s, c), s.jobs - {j}, j, Loose(c, None));
    }
  }

  lemma WatchOkBy(s: State, c: ConnId)
    requires c in s.conns && NoDup(s.conns[c].watch) && forall t :: t in s.conns[c].watch ==> t in s.tubes
    ensures WatchOk(s, c)
  {}

  /** The first part of conn_free: give up what is being read and sent, and stop waiting. */
  method LetGo(sv: Server, c: ConnId)
    requires sv.Rep() && Inv(sv.model) && c in sv.model.conns
    modifies sv.Repr
    ensures sv.Rep() && sv.Grows() && sv.model == Conns.LetGo(old(sv.model), c)
  {
    hide Server.Rep, Inv, RemoveWaiting, NoHeap, NoDup;
    LetGoOk(sv.model, c);
    var k := sv.ConnRec(c);
    if k.inJob.Some? {
      sv.SetConn(c, k.(inJob := None));
      sv.RemoveJob(k.inJob.value);
    }
    sv.SetConn(c, sv.ConnRec(c).(out := NoJob));
    LeaveWaiting(sv, c);
  }

  /** The end of that loop's body: the counters and the memo follow. */
  method PayDebt(sv: Server, c: ConnId, t: TubeId)
    requires sv.Rep() && c in sv.model.conns && t in sv.model.tubes
    modifies sv.Repr
    ensures sv.Rep() && sv.Grows() && sv.model == Conns.PayDebt(old(sv.model), c, t)
  {
    hide Server.Rep;
    sv.Count(0, 0, -1, 0, 0);
    var x := sv.TubeRec(t);
    sv.SetTube(t, x.(reservedCnt := x.reservedCnt - 1));
    sv.SetConn(c, sv.ConnRec(c).(soonest := None));
  }

  /** The body of enqueue_reserved_jobs' loop. */
  method ReturnOne(sv: Server, c: ConnId)
    requires sv.Rep() && Mid(sv.model, sv.model.jobs, Loose(c, None)) && c in sv.model.conns && sv.model.conns[c].reserved != []
    modifies sv.Repr
    ensures sv.Rep() && sv.Grows() && sv.model == Conns.ReturnOne(old(sv.model), c, sv.clock)
  {
    hide Server.Rep, Mid, InFlight, Enqueue, NoLostWakeup, Known, Conns.PayDebt, SameKeys;
    ReturnOneOk(sv.model, c, sv.clock);
    assert sv.model.jobs[sv.model.conns[c].reserved[0]].tube in sv.model.tubes by { KnownIs(sv.model, sv.model.conns[c].reserved[0]); }
    var k := sv.ConnRec(c);
    var j := k.reserved[0];
    var t := sv.JobRec(j).tube;
    sv.SetConn(c, k.(reserved := k.reserved[1..]));
    EnqueueJob(sv, j, 0);
    PayDebt(sv, c, t);
  }

  lemma KnownIs(s: State, j: JobId)
    requires Known(s, j)
    ensures j in s.jobs && s.jobs[j].tube in s.tubes
  {}

  /** enqueue_reserved_jobs. */
  method ReturnAll(sv: Server, c: ConnId)
    requires sv.Rep() && Mid(sv.model, sv.model.jobs, Loose(c, None)) && c in sv.model.conns
    modifies sv.Repr
    ensures sv.Rep() && sv.Grows() && sv.model == Conns.ReturnAll(old(sv.model), c, sv.clock)
  {
    hide Server.Rep, Mid, Conns.ReturnOne;
    ghost var s := sv.model;
    while sv.ConnRec(c).reserved != []
      invariant sv.Rep() && sv.Grows() && Mid(sv.model, sv.model.jobs, Loose(c, None)) && c in sv.model.conns
      invariant Conns.ReturnAll(s, c, sv.clock) == Conns.ReturnAll(sv.model, c, sv.clock)
      decreases |sv.model.conns[c].reserved|
    {
      ReturnOne(sv, c);
    }
  }

  /** set_clear on the watch set. */
  method UnwatchAll(sv: Server, c: ConnId)
    requires sv.Rep() && Mid(sv.model, sv.model.jobs, Loose(c, None)) && c in sv.model.conns
    modifies sv.Repr
    ensures sv.Rep() && sv.Grows() && sv.model == Conns.UnwatchAll(old(sv.model), c)
  {
    hide Server.Rep, Mid, Relink, Moves.DropRef, SwapDelete;
    ghost var s := sv.model;
    while sv.ConnRec(c).watch != []
      invariant sv.Rep() && sv.Grows() && Mid(sv.model, sv.model.jobs, Loose(c, None)) && c in sv.model.conns
      invariant Conns.UnwatchAll(s, c) == Conns.UnwatchAll(sv.model, c)
      decreases |sv.model.conns[c].watch|
    {
      LooseIdle(sv.model, c);
      UnwatchFirstOk(sv.model, c);
      UnwatchSlot(sv, c, 0, Loose(c, None));
    }
  }

  lemma VanishInOrder(s: State, c: ConnId)
    requires c in s.conns && s.conns[c].use in s.tubes
    ensures var t := s.conns[c].use;
            var s1 := Moves.DropRef(PutTube(s, t, s.tubes[t].(usingCnt := s.tubes[t].usingCnt - 1)), t);
            s1.(conns := s1.conns - {c}) == Moves.DropRef(Vanish(s, c), t)
  {}

  lemma VanishDroppable(s: State, c: ConnId)
    requires Mid(s, s.jobs, Loose(c, None)) && c in s.conns && s.conns[c].reserved == [] && s.conns[c].watch == []
    ensures s.conns[c].use in s.tubes
    ensures var t := s.conns[c].use; Droppable(PutTube(s, t, s.tubes[t].(usingCnt := s.tubes[t].usingCnt - 1)), t)
  {
    hide Mid, HasSpare;
    VanishMid(s, c);
    SpareDroppable(Vanish(s, c), s.conns[c].use, Nothing);
  }

  /** conn_free. */
  method Close(sv: Server, c: ConnId)
    requires sv.Rep() && Inv(sv.model) && c in sv.model.conns
    modifies sv.Repr
    ensures sv.Rep() && sv.Grows() && sv.model == Conns.Close(old(sv.model), c, sv.clock)
  {
    hide Server.Rep, Inv, Mid, NoLostWakeup, Conns.LetGo, Conns.ReturnAll, Conns.UnwatchAll, Returned, Moves.DropRef, Vanish, Droppable;
    CloseOk(sv.model, c, sv.clock);
    LetGo(sv, c);
    ReturnAll(sv, c);
    UnwatchAll(sv, c);
    VanishDroppable(sv.model, c);
    VanishInOrder(sv.model, c);
    var t := sv.ConnRec(c).use;
    var x := sv.TubeRec(t);
    sv.SetTube(t, x.(usingCnt := x.usingCnt - 1));
    Linking.DropRef(sv, t);
    sv.RemoveConn(c);
  }
}
