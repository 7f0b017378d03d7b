/** What the invariant means, said without it, for every state a run can reach. */
module Meaning {
  import opened Counting
  import opened Lists
  import opened State
  import opened JobMoves
  import opened Steps
  import opened Tubes
  import opened Run

  // ----- unique ownership -----

  datatype Place = InReady(t: TubeId) | InDelay(t: TubeId) | InBuried(t: TubeId) | ReservedBy(c: ConnId) | ReadBy(c: ConnId)

  ghost predicate In(s: State, j: JobId, p: Place) {
    match p
    case InReady(t) => t in s.tubes && j in s.tubes[t].ready
    case InDelay(t) => t in s.tubes && j in s.tubes[t].delayed
    case InBuried(t) => t in s.tubes && j in s.tubes[t].buried
    case ReservedBy(c) => c in s.conns && j in s.conns[c].reserved
    case ReadBy(c) => c in s.conns && s.conns[c].inJob == Some(j)
  }

  /** The job's own fields name place p. */
  ghost predicate Says(x: Job, p: Place) {
    match p
    case InReady(t) => x.state == Ready && x.tube == t
    case InDelay(t) => x.state == Delayed && x.tube == t
    case InBuried(t) => x.state == Buried && x.tube == t
    case ReservedBy(c) => x.state == Reserved && x.reserver == Some(c)
    case ReadBy(_) => x.state == Invalid
  }

  /** Every job of the index is in exactly one place, once, and its fields say which. */
  ghost predicate OwnedOnce(s: State) {
    && (forall j :: j in s.jobs ==> exists p: Place :: In(s, j, p))
    && (forall j, p, q :: In(s, j, p) && In(s, j, q) ==> p == q)
    && (forall j, p :: In(s, j, p) ==> j in s.jobs && Says(s.jobs[j], p))
    && (forall t :: t in s.tubes ==> NoDup(s.tubes[t].buried))
    && (forall c :: c in s.conns ==> NoDup(s.conns[c].reserved))
    && (forall j :: j in s.jobs ==> j < s.nextJob)
  }

  lemma InSays(s: State, j: JobId, p: Place)
    requires Own(s.jobs, s) && In(s, j, p)
    ensures j in s.jobs && Says(s.jobs[j], p)
  {
    match p
    case InReady(t) => assert At(s.jobs, j, Ready, t);
    case InDelay(t) => assert At(s.jobs, j, Delayed, t);
    case InBuried(t) => assert At(s.jobs, j, Buried, t);
    case ReservedBy(c) => assert Held(s.jobs, j, c);
    case ReadBy(c) =>
  }

  lemma SomePlace(s: State, j: JobId) returns (p: Place)
    requires Own(s.jobs, s) && Shape(s) && j in s.jobs
    ensures In(s, j, p)
  {
    var x := s.jobs[j];
    match x.state
    case Ready =>
      assert At(s.jobs, j, Ready, x.tube);
      p := InReady(x.tube);
    case Delayed =>
      assert At(s.jobs, j, Delayed, x.tube);
      p := InDelay(x.tube);
    case Buried =>
      assert At(s.jobs, j, Buried, x.tube);
      p := InBuried(x.tube);
    case Reserved =>
      assert Held(s.jobs, j, x.reserver.value);
      p := ReservedBy(x.reserver.value);
    case Invalid =>
      var c :| c in s.conns && s.conns[c].inJob == Some(j);
      p := ReadBy(c);
  }

  lemma OnePlace(s: State, j: JobId, p: Place, q: Place)
    requires Own(s.jobs, s) && In(s, j, p) && In(s, j, q)
    ensures p == q
  {
    InSays(s, j, p);
    InSays(s, j, q);
  }

  lemma InvOwnedOnce(s: State)
    requires Inv(s)
    ensures OwnedOnce(s)
  {
    hide Waits, Phases, Counts, Memo, Refs, NoLostWakeup;
    assert Own(s.jobs, s) && Shape(s);
    assert forall t :: t in s.tubes ==> NoDup(s.tubes[t].buried);
    assert forall c :: c in s.conns ==> NoDup(s.conns[c].reserved);
    assert forall j :: j in s.jobs ==> j < s.nextJob;
    hide Inv, Own, Shape, NoDup, In, Says;
    forall j | j in s.jobs ensures exists p: Place :: In(s, j, p) { var p := SomePlace(s, j); }
    forall j, p | In(s, j, p) ensures j in s.jobs && Says(s.jobs[j], p) { InSays(s, j, p); }
    forall j, p, q | In(s, j, p) && In(s, j, q) ensures p == q { OnePlace(s, j, p, q); }
  }

  // ----- counters -----

  ghost function Sum(list: seq<TubeId>, f: TubeId -> int): int {
    if list == [] then 0 else f(list[0]) + Sum(list[1..], f)
  }

  /** Job x satisfies p and lives in one of the listed tubes. */
  ghost function Among(p: Job -> bool, list: seq<TubeId>): Job -> bool {
    (x: Job) => p(x) && x.tube in list
  }

  ghost function CountsIn(jobs: map<JobId, Job>, p: Job -> bool): TubeId -> int {
    (t: TubeId) => Count(jobs, Among(p, [t])) as int
  }

  lemma AmongSplit(jobs: map<JobId, Job>, p: Job -> bool, t: TubeId, rest: seq<TubeId>)
    requires t !in rest
    ensures Count(jobs, Among(p, [t] + rest)) == Count(jobs, Among(p, [t])) + Count(jobs, Among(p, rest))
  {
    var a, b, c := Matching(jobs, Among(p, [t] + rest)), Matching(jobs, Among(p, [t])), Matching(jobs, Among(p, rest));
    assert a == b + c;
    assert b !! c;
  }

  /** Counting tube by tube is counting once. */
  lemma {:induction false} CountByTube(jobs: map<JobId, Job>, p: Job -> bool, list: seq<TubeId>)
    requires NoDup(list)
    ensures Sum(list, CountsIn(jobs, p)) == Count(jobs, Among(p, list))
  {
    hide Count;
    if list == [] {
      NobodyCounts(jobs, Among(p, list));
    } else {
      CountByTube(jobs, p, list[1..]);
      AmongSplit(jobs, p, list[0], list[1..]);
      assert list == [list[0]] + list[1..];
    }
  }

  lemma SumSame(list: seq<TubeId>, f: TubeId -> int, g: TubeId -> int)
    requires forall t :: t in list ==> f(t) == g(t)
    ensures Sum(list, f) == Sum(list, g)
  {}

  lemma CountAgree(jobs: map<JobId, Job>, p: Job -> bool, q: Job -> bool)
    requires forall j :: j in jobs ==> p(jobs[j]) == q(jobs[j])
    ensures Count(jobs, p) == Count(jobs, q)
  {
    CountSame(jobs, jobs, p);
    assert Matching(jobs, p) == Matching(jobs, q);
  }

  ghost function ReadyLen(s: State): TubeId -> int { (t: TubeId) => if t in s.tubes then |s.tubes[t].ready| else 0 }

  ghost function UrgentLen(s: State): TubeId -> int {
    (t: TubeId) => if t in s.tubes then |set j | j in s.tubes[t].ready && j in s.jobs && s.jobs[j].pri < URGENT_THRESHOLD| else 0
  }

  ghost function BuriedLen(s: State): TubeId -> int { (t: TubeId) => if t in s.tubes then |s.tubes[t].buried| else 0 }

  ghost function ReservedLen(s: State): TubeId -> int {
    (t: TubeId) => |set j | j in s.jobs && s.jobs[j].state == Reserved && s.jobs[j].tube == t|
  }

  /** Each tube's counters are the sizes of its containers, each global counter is their sum. */
  ghost predicate CountersExact(s: State) {
    && (forall t :: t in s.tubes ==>
          && s.tubes[t].urgentCnt == UrgentLen(s)(t)
          && s.tubes[t].buriedCnt == |s.tubes[t].buried|
          && s.tubes[t].reservedCnt == ReservedLen(s)(t)
          && s.tubes[t].waitingCnt == |s.tubes[t].waiting.items|)
    && s.readyCnt == Sum(s.tubeList, ReadyLen(s))
    && s.urgentCnt == Sum(s.tubeList, UrgentLen(s))
    && s.buriedCnt == Sum(s.tubeList, BuriedLen(s))
    && s.reservedCnt == Sum(s.tubeList, ReservedLen(s))
    && s.waitingCnt == |set c | c in s.conns && s.conns[c].waiting|
  }

  lemma ReadySize(s: State, t: TubeId)
    requires TubesOwn(s.jobs, s.tubes) && t in s.tubes
    ensures |s.tubes[t].ready| == Count(s.jobs, Among(HasState(Ready), [t]))
    ensures UrgentLen(s)(t) == Count(s.jobs, UrgentIn(t)) == Count(s.jobs, Among(Urgent(), [t]))
  {
    assert forall j :: j in s.tubes[t].ready <==> At(s.jobs, j, Ready, t);
    assert s.tubes[t].ready == Matching(s.jobs, Among(HasState(Ready), [t]));
    CountAgree(s.jobs, UrgentIn(t), Among(Urgent(), [t]));
    assert (set j | j in s.tubes[t].ready && j in s.jobs && s.jobs[j].pri < URGENT_THRESHOLD) == Matching(s.jobs, UrgentIn(t));
  }

  lemma BuriedSize(s: State, t: TubeId)
    requires TubesOwn(s.jobs, s.tubes) && t in s.tubes
    ensures |s.tubes[t].buried| == Count(s.jobs, StateIn(Buried, t)) == Count(s.jobs, Among(HasState(Buried), [t]))
  {
    assert forall j :: j in s.tubes[t].buried <==> At(s.jobs, j, Buried, t);
    NoDupSize(s.tubes[t].buried);
    assert Elements(s.tubes[t].buried) == Matching(s.jobs, StateIn(Buried, t));
    CountAgree(s.jobs, StateIn(Buried, t), Among(HasState(Buried), [t]));
  }

  lemma ReservedSize(s: State, t: TubeId)
    ensures ReservedLen(s)(t) == Count(s.jobs, StateIn(Reserved, t)) == Count(s.jobs, Among(HasState(Reserved), [t]))
  {
    CountAgree(s.jobs, StateIn(Reserved, t), Among(HasState(Reserved), [t]));
    var members := set j | j in s.jobs && s.jobs[j].state == Reserved && s.jobs[j].tube == t;
    assert members == Matching(s.jobs, StateIn(Reserved, t));
  }

  lemma WholeSum(s: State, p: Job -> bool, f: TubeId -> int)
    requires Shape(s) && forall t :: t in s.tubes ==> f(t) == Count(s.jobs, Among(p, [t]))
    ensures Sum(s.tubeList, f) == Count(s.jobs, p)
  {
    CountByTube(s.jobs, p, s.tubeList);
    SumSame(s.tubeList, f, CountsIn(s.jobs, p));
    CountAgree(s.jobs, p, Among(p, s.tubeList));
  }

  lemma WaitingSize(s: State)
    requires Waits(s)
    ensures s.waitingCnt == |set c | c in s.conns && s.conns[c].waiting|
    ensures forall t :: t in s.tubes ==> s.tubes[t].waitingCnt == |s.tubes[t].waiting.items|
  {
    var members := set c | c in s.conns && s.conns[c].waiting;
    assert members == Matching(s.conns, IsWaiting());
  }

  lemma GlobalSums(s: State)
    requires Shape(s) && TubesOwn(s.jobs, s.tubes)
    ensures Sum(s.tubeList, ReadyLen(s)) == Count(s.jobs, HasState(Ready))
    ensures Sum(s.tubeList, UrgentLen(s)) == Count(s.jobs, Urgent())
    ensures Sum(s.tubeList, BuriedLen(s)) == Count(s.jobs, HasState(Buried))
    ensures Sum(s.tubeList, ReservedLen(s)) == Count(s.jobs, HasState(Reserved))
  {
    hide Shape, TubesOwn, Count, UrgentLen, ReservedLen, Sum, Among;
    forall t | t in s.tubes
      ensures ReadyLen(s)(t) == Count(s.jobs, Among(HasState(Ready), [t]))
      ensures UrgentLen(s)(t) == Count(s.jobs, Among(Urgent(), [t]))
      ensures BuriedLen(s)(t) == Count(s.jobs, Among(HasState(Buried), [t]))
      ensures ReservedLen(s)(t) == Count(s.jobs, Among(HasState(Reserved), [t]))
    {
      ReadySize(s, t);
      BuriedSize(s, t);
      ReservedSize(s, t);
    }
    hide ReadyLen, BuriedLen;
    WholeSum(s, HasState(Ready), ReadyLen(s));
    WholeSum(s, Urgent(), UrgentLen(s));
    WholeSum(s, HasState(Buried), BuriedLen(s));
    WholeSum(s, HasState(Reserved), ReservedLen(s));
  }

  lemma CountersFrom(s: State)
    requires Shape(s) && TubesOwn(s.jobs, s.tubes) && Waits(s) && Counts(s.jobs, s, Nothing)
    ensures CountersExact(s)
  {
    hide Shape, TubesOwn, Waits, Count, ReadyLen, UrgentLen, BuriedLen, ReservedLen, Sum;
    GlobalSums(s);
    WaitingSize(s);
    forall t | t in s.tubes
      ensures s.tubes[t].urgentCnt == UrgentLen(s)(t) && s.tubes[t].buriedCnt == |s.tubes[t].buried|
      ensures s.tubes[t].reservedCnt == ReservedLen(s)(t)
    {
      assert TubeCounts(s.jobs, t, s.tubes[t], Nothing);
      ReadySize(s, t);
      BuriedSize(s, t);
      ReservedSize(s, t);
    }
  }

  lemma InvCountersExact(s: State)
    requires Inv(s)
    ensures CountersExact(s)
  {
    hide *;
    InvParts(s);
    MidParts(s, s.jobs, Nothing);
    OwnParts(s.jobs, s);
    CountersFrom(s);
  }

  // ----- connections -----

  /** A job being written out is reserved by the connection that writes it. */
  ghost predicate WritingSafe(s: State) {
    forall c :: c in s.conns && s.conns[c].out.Live? ==>
      var j := s.conns[c].out.job;
      && j in s.jobs && s.jobs[j].state == Reserved && s.jobs[j].reserver == Some(c)
      && j in s.conns[c].reserved
      && (forall d :: d in s.conns && d != c ==> j !in s.conns[d].reserved)
  }

  /** Waiting sets, WAITING bits and watch sets agree; each waiter is listed once. */
  ghost predicate WaitingRegistered(s: State) {
    forall t :: t in s.tubes ==>
      && NoDup(s.tubes[t].waiting.items)
      && (forall c :: c in s.tubes[t].waiting.items <==> c in s.conns && s.conns[c].waiting && t in s.conns[c].watch)
  }

  /** The remembered soonest job of every connection really is the soonest it holds. */
  ghost predicate MemoLeast(s: State) {
    forall c :: c in s.conns && s.conns[c].soonest.Some? ==>
      var j := s.conns[c].soonest.value;
      && j in s.conns[c].reserved
      && (forall k :: k in s.conns[c].reserved ==> k in s.jobs && j in s.jobs && s.jobs[j].deadline <= s.jobs[k].deadline)
  }

  /** No tube reference dangles: what jobs and connections name exists, names are unique, users and
      watchers are counted exactly, and the reference count covers them, the jobs, and the server's own
      hold on the default tube. */
  ghost predicate TubesAlive(s: State) {
    && s.defaultTube in s.tubes
    && (forall j :: j in s.jobs ==> s.jobs[j].tube in s.tubes)
    && (forall c :: c in s.conns ==> s.conns[c].use in s.tubes)
    && (forall c, t :: c in s.conns && t in s.conns[c].watch ==> t in s.tubes)
    && (forall t :: t in s.tubeList <==> t in s.tubes)
    && (forall t, u :: t in s.tubes && u in s.tubes && t != u ==> s.tubes[t].name != s.tubes[u].name)
    && (forall t :: t in s.tubes ==> RefsExact(s, t))
  }

  ghost predicate RefsExact(s: State, t: TubeId)
    requires t in s.tubes
  {
    && s.tubes[t].usingCnt == |set c | c in s.conns && s.conns[c].use == t|
    && s.tubes[t].watchingCnt == |set c | c in s.conns && t in s.conns[c].watch|
    && s.tubes[t].refs >= 1
    && s.tubes[t].refs >= s.tubes[t].usingCnt + s.tubes[t].watchingCnt + |set j | j in s.jobs && s.jobs[j].tube == t|
                          + (if t == s.defaultTube then 1 else 0)
  }

  lemma WritingFrom(s: State)
    requires ConnsOwn(s.jobs, s.conns) && Phases(s.jobs, s, Nothing)
    ensures WritingSafe(s)
  {
    forall c | c in s.conns && s.conns[c].out.Live?
      ensures var j := s.conns[c].out.job; Held(s.jobs, j, c)
    {
      assert ConnOk(s.jobs, c, s.conns[c]);
    }
    hide Phases;
    forall c, d | c in s.conns && s.conns[c].out.Live? && d in s.conns && d != c
      ensures s.conns[c].out.job !in s.conns[d].reserved
    {
      assert !Held(s.jobs, s.conns[c].out.job, d);
    }
  }

  lemma WaitingFrom(s: State)
    requires Waits(s)
    ensures WaitingRegistered(s)
  {
    forall t, c | t in s.tubes
      ensures c in s.tubes[t].waiting.items <==> c in s.conns && s.conns[c].waiting && t in s.conns[c].watch
    {
      assert c in s.tubes[t].waiting.items <==> WaitsOn(s.conns, c, t);
    }
  }

  lemma MemoFrom(s: State)
    requires Memo(s, Nothing) && ConnsOwn(s.jobs, s.conns)
    ensures MemoLeast(s)
  {
    forall c, k | c in s.conns && k in s.conns[c].reserved ensures k in s.jobs {
      assert Held(s.jobs, k, c);
    }
    hide ConnsOwn;
    forall c | c in s.conns ensures MemoOk(s.jobs, s.conns[c]) {}
  }

  lemma RefsCover(s: State, t: TubeId)
    requires Refs(s) && t in s.tubes
    ensures RefsExact(s, t)
  {
    assert TubeRefs(s, t, s.tubes[t]);
    hide Refs;
    var a, b, c := set c | c in s.conns && s.conns[c].use == t, set c | c in s.conns && t in s.conns[c].watch,
      set j | j in s.jobs && s.jobs[j].tube == t;
    assert a == Matching(s.conns, Uses(t));
    assert b == Matching(s.conns, Watches(t));
    assert c == Matching(s.jobs, InTube(t));
  }

  lemma TubesFrom(s: State)
    requires Shape(s) && Refs(s)
    ensures TubesAlive(s)
  {
    hide Refs, RefsExact;
    forall t | t in s.tubes ensures RefsExact(s, t) {
      RefsCover(s, t);
    }
  }

  /** Everything at once. */
  ghost predicate Sound(s: State) {
    && OwnedOnce(s) && CountersExact(s) && WritingSafe(s) && WaitingRegistered(s) && MemoLeast(s) && TubesAlive(s)
    && NoLostWakeup(s)
  }

  lemma SoundParts(s: State)
    ensures (OwnedOnce(s) && CountersExact(s) && WritingSafe(s) && WaitingRegistered(s) && MemoLeast(s) && TubesAlive(s)
             && NoLostWakeup(s)) ==> Sound(s)
  {}

  lemma InvSound(s: State)
    requires Inv(s)
    ensures Sound(s)
  {
    InvOwnedOnce(s);
    InvCountersExact(s);
    SoundParts(s);
    hide *;
    InvParts(s);
    MidParts(s, s.jobs, Nothing);
    OwnParts(s.jobs, s);
    WritingFrom(s);
    WaitingFrom(s);
    MemoFrom(s);
    TubesFrom(s);
  }

  /** Safety over whole runs: after any sequence of events, in any interleaving, with any clock
      that does not run backwards, the server is sound. */
  lemma EveryRunSound(es: seq<Event>, clock: Clock)
    requires Monotone(clock)
    ensures (InitInv(); CanRun(Init(), es, clock) ==> Sound(After(Init(), es, clock)))
  {
    InitInv();
    hide *;
    if CanRun(Init(), es, clock) {
      InvSound(After(Init(), es, clock));
    }
  }
}
