/** What the steps that move no job do: a new connection, the peeks, and a reply that has been written. */
module SmallSteps {
  import opened Lists
  import opened State
  import opened Moves
  import opened JobMoves
  import opened Queue
  import opened Steps
  import opened Tubes
  import opened Conns
  import opened Run

  /** No job changes, no tube but t and of t only who refers to it, and no connection but c. */
  ghost predicate OnlyRefers(s: State, c: ConnId, t: TubeId, r: State) {
    && r.jobs == s.jobs && t in s.tubes && r.tubes.Keys == s.tubes.Keys && r.drain == s.drain && r.tick == s.tick
    && (forall u :: u in s.tubes && u != t ==> r.tubes[u] == s.tubes[u])
    && r.tubes[t] == s.tubes[t].(refs := r.tubes[t].refs, usingCnt := r.tubes[t].usingCnt, watchingCnt := r.tubes[t].watchingCnt)
    && r.conns.Keys == s.conns.Keys + {c} && (forall d :: d in s.conns && d != c ==> r.conns[d] == s.conns[d])
  }

  /** peek answers FOUND with the id, and sends a copy that holds the job's tube, if and only if there is a job
      of that id, in whatever state; if not, it answers NOT_FOUND. The job itself stays where it is. */
  lemma PeekExact(s: State, c: ConnId, id: JobId)
    requires Inv(s) && Idle(s, c)
    ensures var r := Peek(s, c, id);
            if id in s.jobs then
              && OnlyRefers(s, c, s.jobs[id].tube, r)
              && r.tubes[s.jobs[id].tube].refs == s.tubes[s.jobs[id].tube].refs + 1
              && r.conns[c] == s.conns[c].(out := Copy, phase := SendJob, reply := FoundJob(id))
            else
              r == s.(conns := s.conns[c := s.conns[c].(phase := SendWord, reply := NotFound)])
  {
    hide Inv, Mid, Settled;
    IdleFacts(s, c);
  }

  /** Connection c is new and idle, and refers to tube t alone; nobody else notices. */
  ghost predicate Joined(s: State, c: ConnId, t: TubeId, r: State) {
    && OnlyRefers(s, c, t, r) && r.nextConn == c + 1 && r.tubes[t].refs == s.tubes[t].refs + 2
    && Idle(r, c) && r.conns[c].use == t && r.conns[c].watch == [t] && r.conns[c].reserved == []
    && !r.conns[c].waiting && r.conns[c].inJob == None && r.conns[c].out == NoJob
  }

  /** A new connection may send a command. It uses and watches the default tube and nothing else, reserves
      nothing and waits for nothing; nobody else notices. */
  lemma AcceptExact(s: State)
    requires Inv(s)
    ensures s.defaultTube in s.tubes && s.nextConn !in s.conns
    ensures Joined(s, s.nextConn, s.defaultTube, Accept(s))
  {
    hide *;
    InvParts(s);
    MidParts(s, s.jobs, Nothing);
    AcceptShape(s);
    DefaultExists(s);
    Accepted(s);
  }

  lemma Accepted(s: State)
    requires s.defaultTube in s.tubes && s.nextConn !in s.conns
    ensures Joined(s, s.nextConn, s.defaultTube, Accept(s))
  {}

  /** A reply, or a job, that has been written leaves its connection ready for the next command, and nothing
      else changes: the jobs it reserved are still its own. */
  lemma ReplySentExact(s: State, c: ConnId)
    requires Inv(s) && Sending(s, c)
    ensures var r := Reset(s, c);
            && Idle(r, c) && r.conns[c].out == NoJob && r.conns[c].inJob == None && !r.conns[c].waiting
            && r == s.(conns := s.conns[c := s.conns[c].(out := NoJob, phase := WantCommand)])
  {
    hide Shape, Own, Waits, Counts, Memo, Refs, NoLostWakeup;
    assert ConnOk(s.jobs, c, s.conns[c]);
  }

  // ----- peek-ready, peek-delayed, peek-buried -----

  lemma UsedTube(s: State, c: ConnId)
    requires Inv(s) && Idle(s, c)
    ensures s.conns[c].use in s.tubes && TubesOwn(s.jobs, s.tubes)
    ensures var x := s.tubes[s.conns[c].use]; x.ready <= s.jobs.Keys && x.delayed <= s.jobs.Keys && forall j :: j in x.buried ==> j in s.jobs
  {
    hide *;
    IdleConn(s, c);
    LinksExist(s, c);
    InvParts(s);
    MidParts(s, s.jobs, Nothing);
    OwnParts(s.jobs, s);
    HeldInIndex(s, s.conns[c].use);
  }

  lemma HeldInIndex(s: State, t: TubeId)
    requires TubesOwn(s.jobs, s.tubes) && t in s.tubes
    ensures var x := s.tubes[t];
            && x.ready <= s.jobs.Keys && x.delayed <= s.jobs.Keys && (forall j :: j in x.buried ==> j in s.jobs)
            && (forall j :: j in x.ready <==> At(s.jobs, j, Ready, t)) && (forall j :: j in x.delayed <==> At(s.jobs, j, Delayed, t))
            && (forall j :: j in x.buried <==> At(s.jobs, j, Buried, t))
  {
    hide NoDup;
    assert forall j, st :: At(s.jobs, j, st, t) ==> j in s.jobs;
  }

  /** peek at the root of a heap. */
  ghost function PeekRoot(s: State, c: ConnId, key: Job -> int, heap: set<JobId>): State
    requires Inv(s) && Idle(s, c) && heap <= s.jobs.Keys
  {
    hide Inv;
    if heap == {} then SendReply(s, c, NotFound) else Peek(s, c, Top(s.jobs, key, heap))
  }

  ghost function PeekReady(s: State, c: ConnId): State
    requires Inv(s) && Idle(s, c)
  {
    UsedTube(s, c);
    hide Inv;
    PeekRoot(s, c, Pri, s.tubes[s.conns[c].use].ready)
  }

  ghost function PeekDelayed(s: State, c: ConnId): State
    requires Inv(s) && Idle(s, c)
  {
    UsedTube(s, c);
    hide Inv;
    PeekRoot(s, c, Deadline, s.tubes[s.conns[c].use].delayed)
  }

  /** peek-ready is peek at the most urgent ready job of the tube the client uses, or finds nothing if that
      tube has no ready job. */
  lemma PeekReadyExact(s: State, c: ConnId)
    requires Inv(s) && Idle(s, c)
    ensures var t := s.conns[c].use;
            if exists j :: At(s.jobs, j, Ready, t) then
              exists j :: At(s.jobs, j, Ready, t) && PeekReady(s, c) == Peek(s, c, j)
                          && forall k :: At(s.jobs, k, Ready, t) && k != j ==> MoreUrgent(s.jobs, j, k)
            else PeekReady(s, c) == SendReply(s, c, NotFound)
  {
    hide Inv, Peek, TubesOwn, Less;
    UsedTube(s, c);
    var t := s.conns[c].use;
    HeldInIndex(s, t);
    var heap := s.tubes[t].ready;
    if heap != {} {
      var j := Top(s.jobs, Pri, heap);
      assert At(s.jobs, j, Ready, t);
      forall k | At(s.jobs, k, Ready, t) && k != j ensures MoreUrgent(s.jobs, j, k) { LessIs(s.jobs, j, k); }
    }
  }

  /** peek-delayed is peek at the delayed job of that tube that is due first. */
  lemma PeekDelayedExact(s: State, c: ConnId)
    requires Inv(s) && Idle(s, c)
    ensures var t := s.conns[c].use;
            if exists j :: At(s.jobs, j, Delayed, t) then
              exists j :: At(s.jobs, j, Delayed, t) && PeekDelayed(s, c) == Peek(s, c, j)
                          && forall k :: At(s.jobs, k, Delayed, t) && k != j ==> DueEarlier(s.jobs, j, k)
            else PeekDelayed(s, c) == SendReply(s, c, NotFound)
  {
    hide Inv, Peek, TubesOwn, Less;
    UsedTube(s, c);
    var t := s.conns[c].use;
    HeldInIndex(s, t);
    var heap := s.tubes[t].delayed;
    if heap != {} {
      var j := Top(s.jobs, Deadline, heap);
      assert At(s.jobs, j, Delayed, t);
      forall k | At(s.jobs, k, Delayed, t) && k != j ensures DueEarlier(s.jobs, j, k) { LessIs(s.jobs, j, k); }
    }
  }

  /** peek-buried as it is: it looks whether the tube has a buried job, and then takes the first job of the
      caller's own reserved list. Without one it has nothing to send. */
  ghost function PeekBuried(s: State, c: ConnId): Option<State>
    requires Inv(s) && Idle(s, c)
  {
    UsedTube(s, c);
    hide Inv;
    if s.tubes[s.conns[c].use].buried == [] then Some(SendReply(s, c, NotFound))
    else if s.conns[c].reserved == [] then None
    else Some(Peek(s, c, s.conns[c].reserved[0]))
  }

  /** peek-buried as the protocol has it: the next job of the tube's buried list. */
  ghost function PeekBuriedMeant(s: State, c: ConnId): State
    requires Inv(s) && Idle(s, c)
  {
    UsedTube(s, c);
    hide Inv;
    var list := s.tubes[s.conns[c].use].buried;
    if list == [] then SendReply(s, c, NotFound) else Peek(s, c, list[0])
  }

  /** peek-buried does what it is meant to do if and only if there is no buried job: the job it finds is
      one that the caller has reserved, never a buried one. */
  lemma PeekBuriedRightIff(s: State, c: ConnId)
    requires Inv(s) && Idle(s, c)
    ensures s.conns[c].use in s.tubes
    ensures PeekBuried(s, c) == Some(PeekBuriedMeant(s, c)) <==> s.tubes[s.conns[c].use].buried == []
    ensures var r := PeekBuried(s, c);
            r.Some? ==> c in r.value.conns && forall j :: r.value.conns[c].reply == FoundJob(j) ==> Held(s.jobs, j, c)
  {
    hide Inv, TubesOwn, Mid, Settled;
    UsedTube(s, c);
    IdleFacts(s, c);
    HeldInIndex(s, s.conns[c].use);
    var list, mine := s.tubes[s.conns[c].use].buried, s.conns[c].reserved;
    if list != [] && mine != [] {
      assert list[0] in list && mine[0] in mine;
      PeekExact(s, c, list[0]);
      PeekExact(s, c, mine[0]);
    }
  }

  lemma PeekIsStep(s: State, c: ConnId, id: JobId, clock: Clock)
    requires Inv(s) && Idle(s, c) && Monotone(clock)
    ensures var e := PeekCmd(c, id); Enabled(s, e) && Safe(s, e) && Step(s, e, clock) == Peek(s, c, id)
    ensures var e := LineCmd(c, NotFound); Enabled(s, e) && Safe(s, e) && Step(s, e, clock) == SendReply(s, c, NotFound)
  {
    hide Inv, Monotone, Peek, SendReply;
  }

  /** Each of the three is one of the events of Run, so that all that is said of runs holds with them, too. */
  lemma PeeksAreSteps(s: State, c: ConnId, r: State, clock: Clock)
    requires Inv(s) && Idle(s, c) && Monotone(clock)
    requires r == PeekReady(s, c) || r == PeekDelayed(s, c) || PeekBuried(s, c) == Some(r)
    ensures exists e :: Enabled(s, e) && Safe(s, e) && Step(s, e, clock) == r
  {
    hide Inv, Monotone, Peek, SendReply, Step, Enabled, Safe, Idle, Top, IsTop, TubesOwn;
    IdleConn(s, c);
    UsedTube(s, c);
    PeekIsStep(s, c, 0, clock);
    if r != SendReply(s, c, NotFound) {
      var id :| r == Peek(s, c, id);
      PeekIsStep(s, c, id, clock);
    }
  }
}
