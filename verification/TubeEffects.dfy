/** What use, watch, ignore and pause-tube do, told from outside. */
module TubeEffects {
  import opened Lists
  import opened State
  import opened Moves
  import opened Queue
  import opened Steps
  import opened Order
  import opened Tubes

  /** The tube a name stands for, once somebody asked for it. */
  ghost function TubeFor(s: State, name: string): TubeId {
    if Exists(s, name) then FindTube(s, name) else s.nextTube
  }

  /** Tubes keep what they hold; only who refers to them changes. Tube t is there, tube gone may
      have been freed, and then nobody and nothing refers to it. */
  ghost predicate Relinked(s: State, t: TubeId, name: string, gone: set<TubeId>, r: State) {
    && r.jobs == s.jobs && t in r.tubes && r.tubes[t].name == name
    && s.tubes.Keys - gone <= r.tubes.Keys <= s.tubes.Keys + {t}
    && (forall u :: u in s.tubes && u in r.tubes ==>
         r.tubes[u] == s.tubes[u].(refs := r.tubes[u].refs, usingCnt := r.tubes[u].usingCnt, watchingCnt := r.tubes[u].watchingCnt))
    && (forall u :: u in s.tubes && u !in r.tubes ==> Unreferenced(r, u))
  }

  lemma ObtainIs(s: State, name: string)
    requires s.nextTube !in s.tubes
    ensures var (s1, t) := Obtain(s, name);
            && t == TubeFor(s, name) && s1.tubes.Keys == s.tubes.Keys + {t} && s1.tubes[t].name == name
            && s1.jobs == s.jobs && s1.conns == s.conns
            && (forall u :: u in s.tubes ==> s1.tubes[u] == s.tubes[u].(refs := s1.tubes[u].refs))
  {}

  lemma RelinkIs(s: State, c: ConnId, k: Conn)
    requires c in s.conns
    ensures var r := Relink(s, c, k);
            && r.conns == s.conns[c := k] && r.jobs == s.jobs && r.tubes.Keys == s.tubes.Keys
            && (forall u :: u in s.tubes ==>
                 r.tubes[u] == s.tubes[u].(usingCnt := r.tubes[u].usingCnt, watchingCnt := r.tubes[u].watchingCnt))
  {}

  lemma DropRefIs(s: State, t: TubeId)
    requires t in s.tubes
    ensures var r := DropRef(s, t);
            && r.conns == s.conns && r.jobs == s.jobs && s.tubes.Keys - {t} <= r.tubes.Keys <= s.tubes.Keys
            && (forall u :: u in r.tubes ==> r.tubes[u] == s.tubes[u].(refs := r.tubes[u].refs))
  {}

  /** A tube that is not there is not referred to. */
  lemma MissingIsUnreferenced(s: State, u: TubeId)
    requires Inv(s) && u !in s.tubes
    ensures Unreferenced(s, u)
  {
    hide Own, Waits, Phases, Counts, Memo, Refs, NoLostWakeup;
  }

  lemma UsesExisting(s: State, c: ConnId)
    requires Inv(s) && c in s.conns
    ensures s.conns[c].use in s.tubes && forall t :: t in s.conns[c].watch ==> t in s.tubes
  {
    hide Own, Waits, Phases, Counts, Memo, Refs, NoLostWakeup;
  }

  /** use: the client puts into the tube of that name from now on; the tube is made if need be, and
      the tube it used before is freed only if nothing refers to it. */
  lemma UseExact(s: State, c: ConnId, name: string)
    requires Inv(s) && Idle(s, c)
    ensures var r, t := Use(s, c, name), TubeFor(s, name);
            && Relinked(s, t, name, {s.conns[c].use}, r)
            && r.conns == s.conns[c := s.conns[c].(use := t, phase := SendWord, reply := Using(name))]
  {
    hide Inv, Mid, Obtain, HasSpare, DropRef, Relink, TubeFor, Unreferenced, NoLostWakeup;
    LinksExist(s, c);
    UseRelinked(s, c, name);
    ObtainIs(s, name);
    var (s1, t) := Obtain(s, name);
    var k := s1.conns[c].(use := t);
    RelinkIs(s1, c, k);
    DropRefIs(Relink(s1, c, k), s.conns[c].use);
    UseInv(s, c, name);
    var r := Use(s, c, name);
    UsesExisting(r, c);
    forall u | u in s.tubes && u !in r.tubes ensures Unreferenced(r, u) { MissingIsUnreferenced(r, u); }
  }

  /** watch: the tube of that name joins the watch list, once. */
  lemma WatchExact(s: State, c: ConnId, name: string)
    requires Inv(s) && Idle(s, c)
    ensures var r, t, w := Watch(s, c, name), TubeFor(s, name), s.conns[c].watch;
            var w2 := if t in w then w else w + [t];
            && Relinked(s, t, name, {}, r)
            && r.conns == s.conns[c := s.conns[c].(watch := w2, phase := SendWord, reply := Watching(|w2|))]
  {
    hide Inv, Mid, Obtain, HasSpare, Relink, TubeFor, Unreferenced, NoLostWakeup;
    LinksExist(s, c);
    InvParts(s);
    ObtainMid(s, name);
    ObtainIs(s, name);
    var (s1, t) := Obtain(s, name);
    if t !in s.conns[c].watch {
      RelinkIs(s1, c, s1.conns[c].(watch := s.conns[c].watch + [t]));
    } else {
      WatchedName(s, name, t);
    }
  }

  lemma WatchedName(s: State, name: string, t: TubeId)
    requires t in s.tubes && t == TubeFor(s, name) && s.nextTube !in s.tubes
    ensures s.tubes[t].name == name
  {}

  /** ignore: the tube of that name leaves the watch list, unless it is not on it, or alone on it. */
  lemma IgnoreExact(s: State, c: ConnId, name: string)
    requires Inv(s) && Idle(s, c)
    ensures var r, w, k := Ignore(s, c, name), s.conns[c].watch, s.conns[c].(phase := SendWord);
            if !IsWatched(s, c, name) then r == PutConn(s, c, k.(reply := Watching(|w|)))
            else if |w| == 1 then r == PutConn(s, c, k.(reply := NotIgnored))
            else
              var t := WatchedTube(s, c, name);
              && c in r.conns && (forall u :: u in r.conns[c].watch <==> u in w && u != t) && NoDup(r.conns[c].watch)
              && r.conns == s.conns[c := k.(watch := r.conns[c].watch, reply := Watching(|w| - 1))] && r.jobs == s.jobs
              && s.tubes.Keys - {t} <= r.tubes.Keys <= s.tubes.Keys
              && (forall u :: u in r.tubes ==>
                   r.tubes[u] == s.tubes[u].(refs := r.tubes[u].refs, watchingCnt := r.tubes[u].watchingCnt, usingCnt := r.tubes[u].usingCnt))
              && (t !in r.tubes ==> Unreferenced(r, t))
  {
    hide Inv, Mid, DropRef, Relink, SwapRemove, Unreferenced, NoDup, IsWatched;
    LinksExist(s, c);
    var w := s.conns[c].watch;
    if IsWatched(s, c, name) {
      var t := WatchedTube(s, c, name);
      if |w| >= 2 {
        SwapRemoveMembers(w, t);
        var k := s.conns[c].(watch := SwapRemove(w, t));
        RelinkIs(s, c, k);
        DropRefIs(Relink(s, c, k), t);
        IgnoreInv(s, c, name);
        if t !in Ignore(s, c, name).tubes { MissingIsUnreferenced(Ignore(s, c, name), t); }
      }
    }
  }

  // ----- pause-tube -----

  /** pause-tube: the tube is paused from now on for the given time, at least a microsecond. */
  lemma PauseTubeExact(s: State, c: ConnId, name: string, delay: int, clock: Clock)
    requires Inv(s) && Idle(s, c) && delay >= 0
    ensures var r := PauseTube(s, c, name, delay, clock);
            if Exists(s, name) then
              var t := FindTube(s, name);
              && t in r.tubes && r.tubes == s.tubes[t := r.tubes[t]] && r.jobs == s.jobs
              && r.tubes[t] == s.tubes[t].(pause := r.tubes[t].pause, deadline := r.tubes[t].deadline, pauseCnt := s.tubes[t].pauseCnt + 1)
              && r.tubes[t].pause > 0 && r.tubes[t].deadline == clock(s.tick) + r.tubes[t].pause
              && (delay > 0 ==> r.tubes[t].pause == delay)
              && r.conns == s.conns[c := s.conns[c].(phase := SendWord, reply := Paused)]
            else r == SendReply(s, c, NotFound)
  {
    hide Inv, Exists;
  }

  /** While a tube is paused process_queue hands out none of its jobs. */
  lemma PausedIsNotServed(s: State, now: int, clock: Clock, t: TubeId)
    requires Settled(s) && t in s.tubes && s.tubes[t].pause != 0 && s.tubes[t].deadline > now
    ensures forall j :: j in s.jobs && s.jobs[j].tube == t ==> Drain(s, now, clock).jobs[j] == s.jobs[j]
  {
    hide Settled, Drain, Handouts, Ordered;
    DispatchOrder(s, now, clock);
    var h := Handouts(s, now, clock);
    assert !Open(ClearPauses(s, now), t);
  }
}
