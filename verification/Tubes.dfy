/** Tubes and their references: use, watch, ignore, pause-tube. */
module Tubes {
  import opened Counting
  import opened Lists
  import opened State
  import opened Moves
  import opened JobMoves
  import opened Queue
  import opened Steps

  lemma CountZero<K(!new), V(!new)>(m: map<K, V>, p: V -> bool, k: K)
    requires Count(m, p) == 0 && k in m
    ensures !p(m[k])
  {
    assert k in Matching(m, p) <==> p(m[k]);
  }

  /** tube_iref. */
  ghost function Bump(s: State, t: TubeId): State
    requires t in s.tubes
  {
    PutTube(s, t, s.tubes[t].(refs := s.tubes[t].refs + 1))
  }

  /** One reference of t is held by nobody. */
  ghost predicate HasSpare(s: State, t: TubeId) {
    && t in s.tubes
    && s.tubes[t].refs >= 1 + s.tubes[t].usingCnt + s.tubes[t].watchingCnt + Count(s.jobs, InTube(t))
                          + (if t == s.defaultTube then 1 else 0)
  }

  /** s2 differs from s only in the reference fields of tube t. */
  ghost predicate OnlyRefs(s: State, t: TubeId, s2: State) {
    && t in s.tubes && t in s2.tubes && s2 == s.(tubes := s.tubes[t := s2.tubes[t]])
    && s2.tubes[t] == s.tubes[t].(refs := s2.tubes[t].refs, usingCnt := s2.tubes[t].usingCnt, watchingCnt := s2.tubes[t].watchingCnt)
  }

  lemma OnlyRefsShape(s: State, t: TubeId, s2: State)
    requires OnlyRefs(s, t, s2) && Shape(s)
    ensures Shape(s2)
  {
    hide NoDup;
  }

  lemma OnlyRefsCounts(s: State, t: TubeId, s2: State, d: Slack)
    requires OnlyRefs(s, t, s2) && Counts(s.jobs, s, d)
    ensures Counts(s2.jobs, s2, d)
  {
    forall u | u in s2.tubes ensures TubeCounts(s2.jobs, u, s2.tubes[u], d) {
      assert TubeCounts(s.jobs, u, s.tubes[u], d);
      hide Count;
    }
    hide TubeCounts, Count;
  }

  lemma OnlyRefsWaiting(s: State, t: TubeId, s2: State)
    requires OnlyRefs(s, t, s2)
    ensures SameWaiting(s, s2)
  {}

  lemma OnlyRefsConns(s: State, t: TubeId, s2: State, d: Slack)
    requires OnlyRefs(s, t, s2)
    ensures (Phases(s.jobs, s, d) ==> Phases(s2.jobs, s2, d)) && (Memo(s, d) ==> Memo(s2, d))
  {
    hide ConnOk, MemoOk;
  }

  lemma OnlyRefsRest(s: State, t: TubeId, s2: State, d: Slack)
    requires OnlyRefs(s, t, s2)
    ensures Shape(s) ==> Shape(s2)
    ensures SameWaiting(s, s2)
    ensures Phases(s.jobs, s, d) ==> Phases(s2.jobs, s2, d)
    ensures Memo(s, d) ==> Memo(s2, d)
    ensures Counts(s.jobs, s, d) ==> Counts(s2.jobs, s2, d)
  {
    hide *;
    if Shape(s) { OnlyRefsShape(s, t, s2); }
    if Counts(s.jobs, s, d) { OnlyRefsCounts(s, t, s2, d); }
    OnlyRefsConns(s, t, s2, d);
    OnlyRefsWaiting(s, t, s2);
  }

  lemma OnlyRefsOwn(s: State, t: TubeId, s2: State)
    requires OnlyRefs(s, t, s2) && Own(s.jobs, s)
    ensures Own(s2.jobs, s2)
  {
    hide TubesOwn, ConnsOwn, Incoming;
    TubesOwnFrame(s.jobs, s2.jobs, s.tubes, s2.tubes);
  }

  lemma BumpRefs(s: State, t: TubeId)
    requires Refs(s) && t in s.tubes
    ensures Refs(Bump(s, t)) && HasSpare(Bump(s, t), t)
  {
    hide Count;
    assert TubeRefs(s, t, s.tubes[t]);
    forall u | u in Bump(s, t).tubes ensures TubeRefs(Bump(s, t), u, Bump(s, t).tubes[u]) {
      assert TubeRefs(s, u, s.tubes[u]);
    }
  }

  lemma BumpOnlyRefs(s: State, t: TubeId)
    requires t in s.tubes
    ensures Bump(s, t).jobs == s.jobs && OnlyRefs(s, t, Bump(s, t))
  {}

  lemma BumpMid(s: State, t: TubeId, d: Slack)
    requires Mid(s, s.jobs, d) && t in s.tubes
    ensures Mid(Bump(s, t), Bump(s, t).jobs, d) && HasSpare(Bump(s, t), t)
  {
    hide *;
    var s2 := Bump(s, t);
    BumpOnlyRefs(s, t);
    MidParts(s, s.jobs, d);
    MidParts(s2, s2.jobs, d);
    OnlyRefsRest(s, t, s2, d);
    OnlyRefsOwn(s, t, s2);
    FrameWaits(s, s2);
    BumpRefs(s, t);
  }

  // ----- tube_dref -----

  /** Nobody and nothing refers to tube t. */
  ghost predicate Unreferenced(s: State, t: TubeId) {
    && t != s.defaultTube
    && (forall c :: c in s.conns ==> s.conns[c].use != t && t !in s.conns[c].watch)
    && (forall j :: j in s.jobs ==> s.jobs[j].tube != t)
  }

  lemma LastReference(s: State, t: TubeId)
    requires Refs(s) && HasSpare(s, t) && s.tubes[t].refs == 1
    ensures Unreferenced(s, t)
  {
    assert TubeRefs(s, t, s.tubes[t]);
    forall c | c in s.conns ensures s.conns[c].use != t && t !in s.conns[c].watch {
      CountZero(s.conns, Uses(t), c);
      CountZero(s.conns, Watches(t), c);
    }
    forall j | j in s.jobs ensures s.jobs[j].tube != t {
      CountZero(s.jobs, InTube(t), j);
    }
  }

  /** A tube that is freed holds nothing. */
  lemma UnreferencedIsEmpty(s: State, t: TubeId)
    requires t in s.tubes && Unreferenced(s, t) && TubesOwn(s.jobs, s.tubes) && Waits(s)
    ensures s.tubes[t].ready == {} && s.tubes[t].delayed == {} && s.tubes[t].buried == [] && s.tubes[t].waiting.items == []
  {
    var x := s.tubes[t];
    assert forall st, j :: !At(s.jobs, j, st, t);
    assert forall c :: !WaitsOn(s.conns, c, t);
    SomeItem(x.buried);
    SomeItem(x.waiting.items);
  }

  lemma FreeTubeShape(s: State, t: TubeId)
    requires Shape(s) && t in s.tubes && Unreferenced(s, t)
    ensures Shape(FreeTube(s, t))
  {
    SwapRemoveMembers(s.tubeList, t);
    hide NoDup;
  }

  lemma FreeTubeRest(s: State, t: TubeId, d: Slack)
    requires t in s.tubes
    ensures Own(s.jobs, s) ==> Own(s.jobs, FreeTube(s, t))
    ensures Waits(s) ==> Waits(FreeTube(s, t))
    ensures Phases(s.jobs, s, d) ==> Phases(s.jobs, FreeTube(s, t), d)
    ensures Memo(s, d) ==> Memo(FreeTube(s, t), d)
    ensures Counts(s.jobs, s, d) ==> Counts(s.jobs, FreeTube(s, t), d)
    ensures Refs(s) ==> Refs(FreeTube(s, t))
  {
    hide ConnOk, MemoOk, Count, NoDup, ConnsOwn, Incoming, At, WaitsOn, TubeCounts;
  }

  lemma FreeTubeMid(s: State, t: TubeId, d: Slack)
    requires Mid(s, s.jobs, d) && t in s.tubes && Unreferenced(s, t)
    ensures Mid(FreeTube(s, t), FreeTube(s, t).jobs, d)
  {
    assert FreeTube(s, t).jobs == s.jobs;
    hide *;
    MidParts(s, s.jobs, d);
    MidParts(FreeTube(s, t), s.jobs, d);
    FreeTubeShape(s, t);
    FreeTubeRest(s, t, d);
  }

  ghost function Debump(s: State, t: TubeId): State
    requires t in s.tubes
  {
    PutTube(s, t, s.tubes[t].(refs := s.tubes[t].refs - 1))
  }

  lemma DebumpRefs(s: State, t: TubeId)
    requires Refs(s) && HasSpare(s, t) && s.tubes[t].refs > 1
    ensures Refs(Debump(s, t)) && OnlyRefs(s, t, Debump(s, t)) && Debump(s, t).jobs == s.jobs
  {
    hide Count;
    assert forall u :: u in s.tubes && TubeRefs(s, u, s.tubes[u]) ==> TubeRefs(Debump(s, t), u, Debump(s, t).tubes[u]);
  }

  lemma DebumpMid(s: State, t: TubeId, d: Slack)
    requires Mid(s, s.jobs, d) && HasSpare(s, t) && s.tubes[t].refs > 1
    ensures Mid(Debump(s, t), Debump(s, t).jobs, d)
  {
    hide Mid;
    assert t in s.tubes;
    hide *;
    var s2 := Debump(s, t);
    MidParts(s, s.jobs, d);
    DebumpRefs(s, t);
    MidParts(s2, s2.jobs, d);
    OnlyRefsRest(s, t, s2, d);
    OnlyRefsOwn(s, t, s2);
    FrameWaits(s, s2);
  }

  /** Dropping a spare reference keeps the invariant; the last one frees an empty tube. */
  lemma DropRefMid(s: State, t: TubeId, d: Slack)
    requires Mid(s, s.jobs, d) && HasSpare(s, t)
    ensures Mid(DropRef(s, t), DropRef(s, t).jobs, d)
    ensures DropRef(s, t).tubes.Keys == if s.tubes[t].refs == 1 then s.tubes.Keys - {t} else s.tubes.Keys
    ensures s.tubes[t].refs == 1 ==> Unreferenced(s, t)
  {
    assert Refs(s) && s.tubes[t].refs >= 1 by {
      hide Shape, Own, Waits, Counts, Memo, Phases;
      assert TubeRefs(s, t, s.tubes[t]);
    }
    hide Mid, HasSpare, Refs, FreeTube, Debump, Unreferenced;
    if s.tubes[t].refs == 1 {
      LastReference(s, t);
      FreeTubeMid(s, t, d);
      assert DropRef(s, t) == FreeTube(s, t) by { DropRefCases(s, t); }
    } else {
      DebumpMid(s, t, d);
      assert DropRef(s, t) == Debump(s, t) by { DropRefCases(s, t); }
    }
    DropRefKeys(s, t);
  }

  lemma DropRefKeys(s: State, t: TubeId)
    requires t in s.tubes && s.tubes[t].refs >= 1
    ensures DropRef(s, t).tubes.Keys == if s.tubes[t].refs == 1 then s.tubes.Keys - {t} else s.tubes.Keys
  {}

  lemma DropRefCases(s: State, t: TubeId)
    requires t in s.tubes && s.tubes[t].refs >= 1
    ensures DropRef(s, t) == if s.tubes[t].refs == 1 then FreeTube(s, t) else Debump(s, t)
  {}

  // ----- links between a connection and a tube, references aside -----

  lemma CountUses(s: State, c: ConnId, k: Conn, u: TubeId)
    requires c in s.conns
    ensures Count(s.conns[c := k], Uses(u)) == Count(s.conns, Uses(u)) - One(s.conns[c].use == u) + One(k.use == u)
    ensures Count(s.conns[c := k], Watches(u)) ==
            Count(s.conns, Watches(u)) - One(u in s.conns[c].watch) + One(u in k.watch)
  {
    CountUpdate(s.conns, c, k, Uses(u));
    CountUpdate(s.conns, c, k, Watches(u));
  }

  /** Connection c becomes k, which waits no more than c did and differs in use or watch. */
  ghost predicate Relinks(s: State, c: ConnId, k: Conn) {
    && c in s.conns && !s.conns[c].waiting
    && k == s.conns[c].(use := k.use, watch := k.watch)
    && k.use in s.tubes && NoDup(k.watch) && (forall t :: t in k.watch ==> t in s.tubes)
  }

  /** ... and the tubes' counts follow. */
  ghost function Relink(s: State, c: ConnId, k: Conn): State
    requires c in s.conns
  {
    s.(conns := s.conns[c := k],
       tubes := map t | t in s.tubes ::
         s.tubes[t].(usingCnt := s.tubes[t].usingCnt - One(s.conns[c].use == t) + One(k.use == t),
                     watchingCnt := s.tubes[t].watchingCnt - One(t in s.conns[c].watch) + One(t in k.watch)))
  }

  /** The references still suffice where the counts grew. */
  ghost predicate Covered(s: State, c: ConnId, k: Conn)
    requires c in s.conns
  {
    forall t :: t in s.tubes ==>
      s.tubes[t].refs >= s.tubes[t].usingCnt - One(s.conns[c].use == t) + One(k.use == t)
                         + s.tubes[t].watchingCnt - One(t in s.conns[c].watch) + One(t in k.watch)
                         + Count(s.jobs, InTube(t)) + (if t == s.defaultTube then 1 else 0)
  }

  lemma RelinkRefs(s: State, c: ConnId, k: Conn)
    requires Relinks(s, c, k) && Refs(s) && Covered(s, c, k)
    ensures Refs(Relink(s, c, k))
  {
    hide Count;
    var s2 := Relink(s, c, k);
    forall t | t in s2.tubes ensures TubeRefs(s2, t, s2.tubes[t]) {
      assert TubeRefs(s, t, s.tubes[t]);
      CountUses(s, c, k, t);
    }
  }

  lemma RelinkShape(s: State, c: ConnId, k: Conn)
    requires Relinks(s, c, k) && Shape(s)
    ensures Shape(Relink(s, c, k))
  {
    hide NoDup;
  }

  lemma RelinkWaits(s: State, c: ConnId, k: Conn)
    requires Relinks(s, c, k) && Waits(s)
    ensures Waits(Relink(s, c, k))
  {
    var s2 := Relink(s, c, k);
    CountUpdate(s.conns, c, k, IsWaiting());
    forall t | t in s2.tubes
      ensures forall e :: e in s2.tubes[t].waiting.items <==> WaitsOn(s2.conns, e, t)
    {
      forall e ensures WaitsOn(s2.conns, e, t) <==> WaitsOn(s.conns, e, t) {}
    }
  }

  lemma RelinkOwn(s: State, c: ConnId, k: Conn)
    requires Relinks(s, c, k) && Own(s.jobs, s)
    ensures Own(s.jobs, Relink(s, c, k))
  {
    hide TubesOwn, ConnsOwn, Incoming;
    var s2 := Relink(s, c, k);
    TubesOwnFrame(s.jobs, s.jobs, s.tubes, s2.tubes);
    ConnsOwnFrame(s.jobs, s.jobs, s.conns, s2.conns);
    IncomingFrame(s.jobs, s.jobs, s.conns, s2.conns);
  }

  lemma RelinkRest(s: State, c: ConnId, k: Conn, d: Slack)
    requires Relinks(s, c, k)
    ensures Phases(s.jobs, s, d) ==> Phases(s.jobs, Relink(s, c, k), d)
    ensures Memo(s, d) ==> Memo(Relink(s, c, k), d)
    ensures Counts(s.jobs, s, d) ==> Counts(s.jobs, Relink(s, c, k), d)
  {
    hide Count, NoDup;
  }

  lemma RelinkMid(s: State, c: ConnId, k: Conn, d: Slack)
    requires Mid(s, s.jobs, d) && Relinks(s, c, k) && c in s.conns && Covered(s, c, k)
    ensures Mid(Relink(s, c, k), Relink(s, c, k).jobs, d)
  {
    assert Relink(s, c, k).jobs == s.jobs;
    hide *;
    MidParts(s, s.jobs, d);
    MidParts(Relink(s, c, k), s.jobs, d);
    RelinkShape(s, c, k);
    RelinkOwn(s, c, k);
    RelinkWaits(s, c, k);
    RelinkRest(s, c, k, d);
    RelinkRefs(s, c, k);
  }

  // ----- tube_find_or_create -----

  ghost predicate Exists(s: State, name: string) {
    exists t :: Named(s, t, name)
  }

  ghost function FindTube(s: State, name: string): (t: TubeId)
    requires Exists(s, name)
    ensures Named(s, t, name)
  {
    var t :| Named(s, t, name); t
  }

  /** The name decides which tube is found. */
  lemma FindUnique(s: State, name: string, t: TubeId)
    requires Shape(s) && Named(s, t, name)
    ensures FindTube(s, name) == t
  {}

  /** tube_find_or_create and the reference its caller takes. */
  ghost function Obtain(s: State, name: string): (r: (State, TubeId))
    requires s.nextTube !in s.tubes
    ensures r.1 in r.0.tubes
  {
    if Exists(s, name) then (Bump(s, FindTube(s, name)), FindTube(s, name))
    else (Bump(MakeTube(s, name), s.nextTube), s.nextTube)
  }

  /** s2 is s with one more tube, which the caller holds. */
  ghost predicate Made(s: State, name: string, s2: State) {
    && s.nextTube !in s.tubes
    && s2 == s.(tubes := s.tubes[s.nextTube := NewTube(name).(refs := 1)], tubeList := s.tubeList + [s.nextTube], nextTube := s.nextTube + 1)
  }

  lemma MadeIs(s: State, name: string)
    requires s.nextTube !in s.tubes
    ensures Made(s, name, Bump(MakeTube(s, name), s.nextTube))
  {
    var t := s.nextTube;
    assert Bump(MakeTube(s, name), t).tubes == s.tubes[t := NewTube(name).(refs := 1)];
  }

  lemma MadeOwn(s: State, name: string, s2: State)
    requires Shape(s) && Made(s, name, s2) && TubesOwn(s.jobs, s.tubes)
    ensures TubesOwn(s2.jobs, s2.tubes)
  {
    assert forall st, j :: !At(s.jobs, j, st, s.nextTube);
  }

  lemma MadeShape(s: State, name: string, s2: State)
    requires Shape(s) && !Exists(s, name) && Made(s, name, s2)
    ensures Shape(s2)
  {
    hide NoDup, Exists;
    AppendMembers(s.tubeList, s.nextTube);
    MadeNames(s, name, s2);
  }

  lemma MadeNames(s: State, name: string, s2: State)
    requires Made(s, name, s2) && !Exists(s, name)
    requires forall t, u :: t in s.tubes && u in s.tubes && t != u ==> s.tubes[t].name != s.tubes[u].name
    ensures forall t, u :: t in s2.tubes && u in s2.tubes && t != u ==> s2.tubes[t].name != s2.tubes[u].name
  {
    assert forall t :: t in s.tubes ==> !Named(s, t, name);
    hide Exists;
  }

  lemma NobodyCounts<K(!new), V(!new)>(m: map<K, V>, p: V -> bool)
    requires forall k :: k in m ==> !p(m[k])
    ensures Count(m, p) == 0
  {
    assert Matching(m, p) == {};
  }

  lemma NoJobsIn(s: State, t: TubeId)
    requires forall j :: j in s.jobs ==> s.jobs[j].tube != t
    ensures Count(s.jobs, UrgentIn(t)) == Count(s.jobs, StateIn(Reserved, t)) == Count(s.jobs, StateIn(Buried, t)) == 0
    ensures Count(s.jobs, InTube(t)) == 0
  {
    NobodyCounts(s.jobs, UrgentIn(t));
    NobodyCounts(s.jobs, StateIn(Reserved, t));
    NobodyCounts(s.jobs, StateIn(Buried, t));
    NobodyCounts(s.jobs, InTube(t));
  }

  lemma NoConnsAt(s: State, t: TubeId)
    requires forall c :: c in s.conns ==> s.conns[c].use != t && t !in s.conns[c].watch
    ensures Count(s.conns, Uses(t)) == Count(s.conns, Watches(t)) == 0
  {
    NobodyCounts(s.conns, Uses(t));
    NobodyCounts(s.conns, Watches(t));
  }

  lemma NextIsUnknown(s: State)
    requires Shape(s)
    ensures s.nextTube !in s.tubes && s.nextTube != s.defaultTube
    ensures forall j :: j in s.jobs ==> s.jobs[j].tube != s.nextTube
    ensures forall c :: c in s.conns ==> s.conns[c].use != s.nextTube && s.nextTube !in s.conns[c].watch
  {}

  lemma MadeCounts(s: State, name: string, s2: State, d: Slack)
    requires Shape(s) && Made(s, name, s2) && Counts(s.jobs, s, d) && NothingOwed(d)
    ensures Counts(s2.jobs, s2, d)
  {
    hide Shape, Count;
    NextIsUnknown(s);
    NoJobsIn(s, s.nextTube);
  }

  lemma MadeRefs(s: State, name: string, s2: State)
    requires Shape(s) && Made(s, name, s2) && Refs(s)
    ensures Refs(s2) && HasSpare(s2, s.nextTube)
  {
    hide Shape, Count;
    NextIsUnknown(s);
    NoJobsIn(s, s.nextTube);
    NoConnsAt(s, s.nextTube);
    assert forall u :: u in s.tubes && TubeRefs(s, u, s.tubes[u]) ==> TubeRefs(s2, u, s2.tubes[u]);
  }

  lemma MadeRest(s: State, name: string, s2: State, d: Slack)
    requires Shape(s) && Made(s, name, s2)
    ensures ConnsOwn(s.jobs, s.conns) ==> ConnsOwn(s2.jobs, s2.conns)
    ensures Incoming(s.jobs, s.conns) ==> Incoming(s2.jobs, s2.conns)
    ensures Phases(s.jobs, s, d) ==> Phases(s2.jobs, s2, d)
    ensures Memo(s, d) ==> Memo(s2, d)
    ensures s2.jobs == s.jobs && s2.conns == s.conns
  {
    hide ConnOk, MemoOk, NoDup, ConnsOwn, Incoming;
  }

  lemma MadeWaits(s: State, name: string, s2: State)
    requires Shape(s) && Made(s, name, s2) && Waits(s)
    ensures Waits(s2)
  {
    assert forall c :: !WaitsOn(s.conns, c, s.nextTube);
    hide Count;
  }

  lemma ObtainMid(s: State, name: string)
    requires Mid(s, s.jobs, Nothing)
    ensures s.nextTube !in s.tubes
    ensures var (s2, t) := Obtain(s, name);
            && Mid(s2, s2.jobs, Nothing) && HasSpare(s2, t) && s2.conns == s.conns && s2.jobs == s.jobs
  {
    hide Mid;
    assert s.nextTube !in s.tubes by { MidParts(s, s.jobs, Nothing); hide Own, Waits, Phases, Counts, Memo, Refs; }
    if Exists(s, name) {
      BumpMid(s, FindTube(s, name), Nothing);
    } else {
      var s2 := Bump(MakeTube(s, name), s.nextTube);
      assert NothingOwed(Nothing);
      hide Shape, Own, TubesOwn, ConnsOwn, Incoming, Waits, Phases, Counts, Memo, Refs, MakeTube, Bump, HasSpare, Made;
      MadeIs(s, name);
      MidParts(s, s.jobs, Nothing);
      OwnParts(s.jobs, s);
      MadeOwn(s, name, s2);
      MadeShape(s, name, s2);
      MadeCounts(s, name, s2, Nothing);
      MadeRefs(s, name, s2);
      MadeRest(s, name, s2, Nothing);
      MadeWaits(s, name, s2);
      OwnParts(s2.jobs, s2);
      MidParts(s2, s2.jobs, Nothing);
    }
  }

  // ----- use, watch, ignore, pause-tube -----

  /** The tube a connection uses and the tubes it watches exist. */
  lemma LinksExist(s: State, c: ConnId)
    requires Inv(s) && c in s.conns
    ensures s.conns[c].use in s.tubes && s.nextTube !in s.tubes
    ensures NoDup(s.conns[c].watch) && forall t :: t in s.conns[c].watch ==> t in s.tubes
  {
    hide Own, Waits, Phases, Counts, Memo, Refs;
  }

  /** OP_USE; the reference of the old tube is dropped last here. */
  ghost function Use(s: State, c: ConnId, name: string): State
    requires Inv(s) && Idle(s, c)
  {
    LinksExist(s, c);
    ObtainMid(s, name);
    hide Inv, Mid, Obtain, HasSpare, DropRef;
    var (s1, t) := Obtain(s, name);
    SendReply(DropRef(Relink(s1, c, s1.conns[c].(use := t)), s.conns[c].use), c, Using(name))
  }

  /** OP_WATCH. */
  ghost function Watch(s: State, c: ConnId, name: string): State
    requires Inv(s) && Idle(s, c)
  {
    LinksExist(s, c);
    ObtainMid(s, name);
    var (s1, t) := Obtain(s, name);
    var w := s.conns[c].watch;
    if t in w then SendReply(s, c, Watching(|w|))
    else SendReply(Relink(s1, c, s1.conns[c].(watch := w + [t])), c, Watching(|w| + 1))
  }

  ghost predicate IsWatched(s: State, c: ConnId, name: string) {
    c in s.conns && exists t :: t in s.conns[c].watch && Named(s, t, name)
  }

  ghost function WatchedTube(s: State, c: ConnId, name: string): (t: TubeId)
    requires IsWatched(s, c, name)
    ensures t in s.conns[c].watch && Named(s, t, name)
  {
    var t :| t in s.conns[c].watch && Named(s, t, name); t
  }

  /** OP_IGNORE. */
  ghost function Ignore(s: State, c: ConnId, name: string): State
    requires Inv(s) && Idle(s, c)
  {
    hide Inv, DropRef, IsWatched;
    var w := s.conns[c].watch;
    if !IsWatched(s, c, name) then SendReply(s, c, Watching(|w|))
    else if |w| < 2 then SendReply(s, c, NotIgnored)
    else
      var t := WatchedTube(s, c, name);
      SendReply(DropRef(Relink(s, c, s.conns[c].(watch := SwapRemove(w, t))), t), c, Watching(|w| - 1))
  }

  /** OP_PAUSE_TUBE. */
  ghost function PauseTube(s: State, c: ConnId, name: string, delay: int, clock: Clock): State
    requires Inv(s) && Idle(s, c) && delay >= 0
  {
    if !Exists(s, name) then SendReply(s, c, NotFound)
    else
      var t, d := FindTube(s, name), if delay == 0 then 1 else delay;
      var x := s.tubes[t];
      SendReply(PutTube(s, t, x.(deadline := clock(s.tick) + d, pause := d, pauseCnt := x.pauseCnt + 1)).(tick := s.tick + 1),
                c, Paused)
  }

  lemma SpareCovers(s: State, c: ConnId, k: Conn, t: TubeId)
    requires Relinks(s, c, k) && Refs(s) && HasSpare(s, t)
    requires forall u :: u in s.tubes && u != t ==> (k.use == u ==> s.conns[c].use == u) && (u in k.watch ==> u in s.conns[c].watch)
    requires (k.use == t ==> s.conns[c].use == t) || (t in k.watch ==> t in s.conns[c].watch)
    ensures Covered(s, c, k)
  {
    hide Count;
    assert forall u :: u in s.tubes ==> TubeRefs(s, u, s.tubes[u]);
  }

  /** After a relink a tube that lost a user or a watcher has a reference to spare. */
  lemma LostIsSpare(s: State, c: ConnId, k: Conn, t: TubeId)
    requires Relinks(s, c, k) && t in s.tubes && TubeRefs(s, t, s.tubes[t])
    requires || (HasSpare(s, t) && k.use == t && s.conns[c].use == t && k.watch == s.conns[c].watch)
             || (s.conns[c].use == t && k.use != t && k.watch == s.conns[c].watch)
             || (t in s.conns[c].watch && t !in k.watch && k.use == s.conns[c].use)
    ensures HasSpare(Relink(s, c, k), t)
  {
    hide Count;
  }

  lemma RelinkNoLostWakeup(s: State, c: ConnId, k: Conn)
    requires NoLostWakeup(s) && c in s.conns
    ensures NoLostWakeup(Relink(s, c, k))
  {}

  lemma DropRefNoLostWakeup(s: State, t: TubeId)
    requires NoLostWakeup(s) && t in s.tubes
    ensures NoLostWakeup(DropRef(s, t)) && DropRef(s, t).conns == s.conns && DropRef(s, t).jobs == s.jobs
  {}

  lemma ObtainNoLostWakeup(s: State, name: string)
    requires NoLostWakeup(s) && s.nextTube !in s.tubes
    ensures NoLostWakeup(Obtain(s, name).0)
  {}

  /** use, before the old tube's reference is dropped. */
  lemma UseRelinked(s: State, c: ConnId, name: string)
    requires Inv(s) && Idle(s, c)
    ensures s.nextTube !in s.tubes
    ensures var (s1, t) := Obtain(s, name);
            var prev := s.conns[c].use;
            && s1.conns == s.conns && HasSpare(s1, t) && Mid(s1, s1.jobs, Nothing)
            && prev in s1.tubes && NoLostWakeup(s1) && !s.conns[c].waiting
            && var s2 := Relink(s1, c, s1.conns[c].(use := t));
               Mid(s2, s2.jobs, Nothing) && HasSpare(s2, prev)
  {
    hide Inv, Mid, Settled, NoLostWakeup, Obtain, Relink, HasSpare, Covered;
    IdleFacts(s, c);
    LinksExist(s, c);
    InvParts(s);
    ObtainMid(s, name);
    ObtainNoLostWakeup(s, name);
    var (s1, t) := Obtain(s, name);
    var prev := s.conns[c].use;
    var k := s1.conns[c].(use := t);
    RelinksIn(s1, c, k, prev);
    SpareCovers(s1, c, k, t);
    RelinkMid(s1, c, k, Nothing);
    LostIsSpare(s1, c, k, prev);
  }

  lemma UseInv(s: State, c: ConnId, name: string)
    requires Inv(s) && Idle(s, c)
    ensures Inv(Use(s, c, name))
  {
    hide Inv, Mid, Settled, NoLostWakeup, Obtain, Relink, DropRef, HasSpare, SendReply;
    IdleFacts(s, c);
    UseRelinked(s, c, name);
    var (s1, t) := Obtain(s, name);
    var prev := s.conns[c].use;
    var k := s1.conns[c].(use := t);
    DropRefMid(Relink(s1, c, k), prev, Nothing);
    RelinkConn(s1, c, k);
    RelinkNoLostWakeup(s1, c, k);
    DropRefNoLostWakeup(Relink(s1, c, k), prev);
    ReplyInv(DropRef(Relink(s1, c, k), prev), c, Using(name));
  }

  lemma RelinksIn(s: State, c: ConnId, k: Conn, prev: TubeId)
    requires Mid(s, s.jobs, Nothing) && c in s.conns && !s.conns[c].waiting && s.conns[c].use == prev
    requires k == s.conns[c].(use := k.use) && k.use in s.tubes
    ensures Relinks(s, c, k) && Refs(s) && prev in s.tubes && TubeRefs(s, prev, s.tubes[prev])
  {
    hide Own, Waits, Phases, Counts, Memo;
  }

  lemma RelinkConn(s: State, c: ConnId, k: Conn)
    requires c in s.conns
    ensures Relink(s, c, k).conns == s.conns[c := k] && Relink(s, c, k).tubes.Keys == s.tubes.Keys
  {}

  lemma WatchInv(s: State, c: ConnId, name: string)
    requires Inv(s) && Idle(s, c)
    ensures Inv(Watch(s, c, name))
  {
    hide Inv, Mid, Settled, NoLostWakeup, Obtain, Relink, HasSpare, Covered, SendReply;
    IdleFacts(s, c);
    LinksExist(s, c);
    InvParts(s);
    ObtainMid(s, name);
    ObtainNoLostWakeup(s, name);
    var (s1, t) := Obtain(s, name);
    var w := s.conns[c].watch;
    if t in w {
      ReplyInv(s, c, Watching(|w|));
    } else {
      var k := s1.conns[c].(watch := w + [t]);
      WatchRelinks(s1, c, t);
      SpareCovers(s1, c, k, t);
      RelinkMid(s1, c, k, Nothing);
      RelinkConn(s1, c, k);
      RelinkNoLostWakeup(s1, c, k);
      ReplyInv(Relink(s1, c, k), c, Watching(|w| + 1));
    }
  }

  lemma WatchRelinks(s: State, c: ConnId, t: TubeId)
    requires Mid(s, s.jobs, Nothing) && c in s.conns && !s.conns[c].waiting && t in s.tubes && t !in s.conns[c].watch
    ensures Relinks(s, c, s.conns[c].(watch := s.conns[c].watch + [t])) && Refs(s)
    ensures forall u :: u in s.conns[c].watch + [t] <==> u in s.conns[c].watch || u == t
  {
    hide *;
    MidParts(s, s.jobs, Nothing);
    WatchMore(s, c, t);
  }

  lemma WatchMore(s: State, c: ConnId, t: TubeId)
    requires Shape(s) && c in s.conns && !s.conns[c].waiting && t in s.tubes && t !in s.conns[c].watch
    ensures Relinks(s, c, s.conns[c].(watch := s.conns[c].watch + [t]))
    ensures forall u :: u in s.conns[c].watch + [t] <==> u in s.conns[c].watch || u == t
  {
    hide NoDup;
    AppendMembers(s.conns[c].watch, t);
  }

  /** Dropping tube t from the watch list of c. */
  lemma UnwatchRelinks(s: State, c: ConnId, i: nat)
    requires Shape(s) && c in s.conns && !s.conns[c].waiting && i < |s.conns[c].watch|
    ensures var k := s.conns[c].(watch := SwapDelete(s.conns[c].watch, i));
            && Relinks(s, c, k) && s.conns[c].watch[i] in s.tubes && s.conns[c].watch[i] in s.conns[c].watch
            && (forall u :: u in k.watch <==> u in s.conns[c].watch && u != s.conns[c].watch[i])
  {
    assert s.conns[c].watch[i] in s.conns[c].watch;
    SwapDeleteMembers(s.conns[c].watch, i);
    hide NoDup, SwapDelete;
  }

  lemma UnwatchCovers(s: State, c: ConnId, k: Conn, t: TubeId)
    requires Relinks(s, c, k) && Refs(s) && t in s.tubes && t in s.conns[c].watch && k.use == s.conns[c].use
    requires forall u :: u in k.watch <==> u in s.conns[c].watch && u != t
    ensures Covered(s, c, k) && HasSpare(Relink(s, c, k), t)
  {
    hide Count, NoDup;
    assert forall u :: u in s.tubes ==> TubeRefs(s, u, s.tubes[u]);
    LostIsSpare(s, c, k, t);
    hide Relink;
  }

  /** A tube that is no longer watched has a reference to drop. */
  lemma UnwatchSpare(s: State, c: ConnId, i: nat, d: Slack)
    requires Mid(s, s.jobs, d) && c in s.conns && !s.conns[c].waiting && i < |s.conns[c].watch|
    ensures var k := s.conns[c].(watch := SwapDelete(s.conns[c].watch, i));
            && s.conns[c].watch[i] in Relink(s, c, k).tubes && s.conns[c].watch[i] in s.tubes && Relinks(s, c, k)
            && Mid(Relink(s, c, k), Relink(s, c, k).jobs, d) && HasSpare(Relink(s, c, k), s.conns[c].watch[i])
  {
    hide Mid, Relink, HasSpare, Covered, Relinks, Shape, Own, Waits, Phases, Counts, Memo, Refs, SwapDelete;
    var k := s.conns[c].(watch := SwapDelete(s.conns[c].watch, i));
    MidParts(s, s.jobs, d);
    UnwatchRelinks(s, c, i);
    UnwatchCovers(s, c, k, s.conns[c].watch[i]);
    RelinkMid(s, c, k, d);
    RelinkConn(s, c, k);
  }

  lemma UnwatchMid(s: State, c: ConnId, i: nat, d: Slack)
    requires Mid(s, s.jobs, d) && c in s.conns && !s.conns[c].waiting && i < |s.conns[c].watch|
    ensures var k := s.conns[c].(watch := SwapDelete(s.conns[c].watch, i));
            && s.conns[c].watch[i] in Relink(s, c, k).tubes && s.conns[c].watch[i] in s.tubes
            && var s2 := DropRef(Relink(s, c, k), s.conns[c].watch[i]);
               Mid(s2, s2.jobs, d) && s2.conns == s.conns[c := k] && (NoLostWakeup(s) ==> NoLostWakeup(s2)) && s2.jobs == s.jobs
  {
    hide Mid, NoLostWakeup, Relink, DropRef, HasSpare, Relinks, Shape, SwapDelete;
    var k := s.conns[c].(watch := SwapDelete(s.conns[c].watch, i));
    UnwatchSpare(s, c, i, d);
    RelinkConn(s, c, k);
    RelinkJobs(s, c, k);
    DropRefMid(Relink(s, c, k), s.conns[c].watch[i], d);
    if NoLostWakeup(s) {
      RelinkNoLostWakeup(s, c, k);
      DropRefNoLostWakeup(Relink(s, c, k), s.conns[c].watch[i]);
    }
  }

  lemma RelinkJobs(s: State, c: ConnId, k: Conn)
    requires c in s.conns
    ensures Relink(s, c, k).jobs == s.jobs
  {}

  lemma IgnoreInv(s: State, c: ConnId, name: string)
    requires Inv(s) && Idle(s, c)
    ensures Inv(Ignore(s, c, name))
  {
    hide Inv, Mid, Settled, NoLostWakeup, Relink, DropRef, SendReply, SwapRemove, Find, IsWatched;
    IdleFacts(s, c);
    InvParts(s);
    var w := s.conns[c].watch;
    if !IsWatched(s, c, name) {
      ReplyInv(s, c, Watching(|w|));
    } else if |w| < 2 {
      ReplyInv(s, c, NotIgnored);
    } else {
      var t := WatchedTube(s, c, name);
      var k := s.conns[c].(watch := SwapRemove(w, t));
      FindIndex(w, t);
      UnwatchMid(s, c, Find(w, t), Nothing);
      ReplyInv(DropRef(Relink(s, c, k), t), c, Watching(|w| - 1));
    }
  }

  lemma FindIndex(w: seq<TubeId>, t: TubeId)
    requires t in w
    ensures Find(w, t) < |w| && w[Find(w, t)] == t && SwapRemove(w, t) == SwapDelete(w, Find(w, t))
  {}

  lemma PausedMid(s: State, t: TubeId, d: int, now: int)
    requires Mid(s, s.jobs, Nothing) && t in s.tubes && d >= 0
    ensures var r := PutTube(s, t, s.tubes[t].(deadline := now + d, pause := d, pauseCnt := s.tubes[t].pauseCnt + 1)).(tick := s.tick + 1);
            Mid(r, r.jobs, Nothing) && r.conns == s.conns && (NoLostWakeup(s) && d > 0 ==> NoLostWakeup(r))
  {
    hide Mid, NoLostWakeup;
    var x := s.tubes[t].(deadline := now + d, pause := d, pauseCnt := s.tubes[t].pauseCnt + 1);
    TubeStatsMid(s, t, x, s.jobs, Nothing);
    var s1 := PutTube(s, t, x);
    TickMid(s1, s1.jobs, s.tick + 1, Nothing);
    if NoLostWakeup(s) && d > 0 { SameReadyNoLostWakeup(s, s1.(tick := s.tick + 1)); }
  }

  lemma PauseTubeInv(s: State, c: ConnId, name: string, delay: int, clock: Clock)
    requires Inv(s) && Idle(s, c) && delay >= 0
    ensures Inv(PauseTube(s, c, name, delay, clock))
  {
    hide Inv, Mid, Settled, NoLostWakeup, SendReply, PutTube;
    IdleFacts(s, c);
    InvParts(s);
    if !Exists(s, name) {
      NotFoundInv(s, c);
    } else {
      var t, d := FindTube(s, name), if delay == 0 then 1 else delay;
      PausedMid(s, t, d, clock(s.tick));
      var x := s.tubes[t].(deadline := clock(s.tick) + d, pause := d, pauseCnt := s.tubes[t].pauseCnt + 1);
      ReplyInv(PutTube(s, t, x).(tick := s.tick + 1), c, Paused);
    }
  }
}
