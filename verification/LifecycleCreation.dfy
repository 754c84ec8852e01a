/** What a new request is, and what it leaves untouched: the outcome of
    treq_CreateNewRequest() for every way treq_RequestRun() can go. */
module LifecycleCreation {
  import opened Common
  import opened Lifecycle
  import opened LifecycleRelease
  import opened LifecycleSteps

  /** The request could not be started: an option call failed, or the pool refused it. */
  predicate NotStarted(out: RunOutcome) {
    out.SetupFails? || (out.Async? && out.add != Added)
  }

  /** The request as it has been set up. */
  predicate SetUp(r: Req, sid: Option<Addr>, o: RequestOptions) {
    && r.interp == o.interp && r.async == o.async && r.callback == o.callback && r.session == sid
    && r.event.None? && !r.pooled && !r.error && !r.token && !r.isDead && r.state == Created
  }

  /** The request as treq_RequestRun() leaves it. */
  ghost predicate RunTo(r: Req, r1: Req, out: RunOutcome, called: Option<nat>) {
    && r1 == r.(state := r1.state, error := r1.error, pooled := r1.pooled, event := called)
    && (r1.state == Done <==> out.Sync? && out.ok)
    && (r1.state == InProgress <==> out == Async(Added))
    && (r1.state == Error <==> NotStarted(out) || (out.Sync? && !out.ok))
    && (r1.error <==> NotStarted(out) || (out.Sync? && out.writeFailed))
    && (r1.pooled <==> out == Async(Added))
  }

  /** The pool behind a hand-over that was tried. */
  ghost predicate PoolAfter(s: State, t: State, a: Addr, out: RunOutcome) {
    var p, p1 := s.pool, t.pool;
    match out
    case Async(Added) =>
      var was := if p.None? then EMPTY_POOL else p.value;
      && p1.Some? && p1.value.isActive && p1.value.needRefresh && p1.value.isDead == was.isDead
      && p1.value.requests == [a] + was.requests && p1.value.count == was.count + 1
      && p1.value.multi.running == was.multi.running + {a} && p1.value.multi.attached == was.multi.attached + {a}
      && p1.value.multi.msgs == was.multi.msgs
      && t.sources == s.sources + if was.isActive then 0 else 1
    case Async(AddHandleFails) => p1 == (if p.None? then Some(EMPTY_POOL) else p) && t.sources == s.sources
    case _ => p1 == p && t.sources == s.sources
  }

  /** Nothing else has changed but what belongs to the request `a`. */
  ghost predicate OnlyRequest(s: State, t: State, a: Addr) {
    && a in t.reqs && t.reqs == s.reqs[a := t.reqs[a]] && t.sessions == s.sessions && t.commands == s.commands
    && t.deletedInterps == s.deletedInterps && t.exited == s.exited && t.nextReq == s.nextReq
    && t.nextSession == s.nextSession && t.invoked == s.invoked && t.freed == s.freed
    && t.named == s.named && t.deletedCommands == s.deletedCommands
  }

  /** The callback event that is queued, if any. */
  ghost predicate Called(s: State, t: State, a: Addr, wanted: bool) {
    && t.queue == s.queue + (if wanted then [CallbackEvent(s.nextEvent, Some(a))] else [])
    && t.nextEvent == s.nextEvent + (if wanted then 1 else 0)
    && t.scheduled == s.scheduled + (if wanted then multiset{a} else multiset{})
  }

  lemma InitEffect(s: State, sid: Option<Addr>, o: RequestOptions)
    requires (sid.Some? ==> sid.value in s.sessions) && (o.callback ==> o.async)
    ensures var t := InitRequest(s, sid, o);
            && SetUp(t.reqs[s.nextReq], sid, o)
            && t == s.(reqs := s.reqs[s.nextReq := t.reqs[s.nextReq]], nextReq := s.nextReq + 1,
                       sessions := if sid.None? then s.sessions
                                   else s.sessions[sid.value := [s.nextReq] + s.sessions[sid.value]])
  {}

  lemma ErrorExitEffect(s: State, a: Addr)
    requires Live(s, a) && s.reqs[a].interp !in s.deletedInterps && (s.reqs[a].callback ==> s.reqs[a].async)
    ensures var t, wanted := RunErrorExit(s, a), s.reqs[a].callback;
            && OnlyRequest(s, t, a) && Called(s, t, a, wanted) && t.pool == s.pool && t.sources == s.sources
            && t.reqs[a] == s.reqs[a].(state := Error, error := true,
                                       event := if wanted then Some(s.nextEvent) else s.reqs[a].event)
  {}

  lemma AddEffect(s: State, a: Addr, add: AddOutcome)
    requires Live(s, a)
    ensures var (t, ok) := PoolAddRequest(s, a, add);
            && (ok <==> add == Added) && OnlyRequest(s, t, a) && Called(s, t, a, false)
            && PoolAfter(s, t, a, Async(add))
            && t.reqs[a] == s.reqs[a].(pooled := s.reqs[a].pooled || add == Added)
  {}

  lemma AsyncEffect(s: State, a: Addr, add: AddOutcome)
    requires Live(s, a) && s.reqs[a].async && s.reqs[a].event.None? && !s.reqs[a].pooled && !s.reqs[a].error
    requires s.reqs[a].interp !in s.deletedInterps
    ensures var t, wanted := RequestRun(s, a, Async(add)), add != Added && s.reqs[a].callback;
            && OnlyRequest(s, t, a) && Called(s, t, a, wanted) && PoolAfter(s, t, a, Async(add))
            && RunTo(s.reqs[a], t.reqs[a], Async(add), if wanted then Some(s.nextEvent) else None)
  {
    AsyncUnfold(s, a, add);
    hide RequestRun, PoolAddRequest, RunErrorExit, PoolAfter;
    var s1 := SetReqState(s, a, InProgress);
    var (s2, ok) := PoolAddRequest(s1, a, add);
    AddEffect(s1, a, add);
    if !ok { ErrorExitEffect(s2, a); }
  }

  lemma RunEffect(s: State, a: Addr, out: RunOutcome)
    requires Live(s, a) && (out.SetupFails? || (out.Async? <==> s.reqs[a].async))
    requires s.reqs[a].event.None? && !s.reqs[a].pooled && !s.reqs[a].error && s.reqs[a].interp !in s.deletedInterps
    requires s.reqs[a].callback ==> s.reqs[a].async
    ensures var t, wanted := RequestRun(s, a, out), NotStarted(out) && s.reqs[a].callback;
            && OnlyRequest(s, t, a) && Called(s, t, a, wanted) && PoolAfter(s, t, a, out)
            && RunTo(s.reqs[a], t.reqs[a], out, if wanted then Some(s.nextEvent) else None)
  {
    match out {
      case SetupFails => ErrorExitEffect(s, a);
      case Async(add) => AsyncEffect(s, a, add); hide RequestRun;
      case Sync(_, _) => assert RequestRun(s, a, out).reqs == s.reqs[a := RequestRun(s, a, out).reqs[a]];
    }
  }

  /** The state after a request that stays: it has its command, its place in its session and
      in the pool, and the state that its run came to; everything else is as it was. */
  ghost predicate Made(s: State, t: State, sid: Option<Addr>, o: RequestOptions, out: RunOutcome) {
    var a, wanted := s.nextReq, NotStarted(out) && o.callback;
    && Live(t, a) && t.reqs == s.reqs[a := t.reqs[a]] && t.nextReq == a + 1
    && (exists r :: SetUp(r, sid, o) &&
          RunTo(r, t.reqs[a].(token := false), out, if wanted then Some(s.nextEvent) else None))
    && t.reqs[a].token && t.commands == s.commands + {a} && t.named == s.named + {a}
    && t.sessions.Keys == s.sessions.Keys
    && (forall k :: k in s.sessions ==> t.sessions[k] == (if sid == Some(k) then [a] else []) + s.sessions[k])
    && Called(s, t, a, wanted) && PoolAfter(s, t, a, out)
    && t.deletedInterps == s.deletedInterps && t.exited == s.exited && t.nextSession == s.nextSession
    && t.invoked == s.invoked && t.freed == s.freed && t.deletedCommands == s.deletedCommands
  }

  /** A request with a command: how it is created and run, for every outcome. */
  lemma CreatedStays(s: State, sid: Option<Addr>, o: RequestOptions, out: RunOutcome)
    requires (sid.Some? ==> sid.value in s.sessions) && RunFits(o, out) && s.nextReq !in s.reqs
    requires o.interp !in s.deletedInterps && !o.simple
    ensures Made(s, CreateRequest(s, sid, o, out), sid, o, out)
  {
    var a := s.nextReq;
    var s1 := InitRequest(s, sid, o);
    InitEffect(s, sid, o);
    assert s1.reqs[a].callback == o.callback;
    hide InitRequest, RequestRun, PoolAfter, RunTo, Called, OnlyRequest, SetUp, Made;
    RunFitsNew(s1.reqs[a], sid, o, out);
    RunEffect(s1, a, out);
    MadeFrom(s, s1, RequestRun(s1, a, out), sid, o, out);
  }

  lemma RunFitsNew(r: Req, sid: Option<Addr>, o: RequestOptions, out: RunOutcome)
    requires SetUp(r, sid, o) && RunFits(o, out)
    ensures out.SetupFails? || (out.Async? <==> r.async)
    ensures r.event.None? && !r.pooled && !r.error && r.interp == o.interp && (r.callback ==> r.async)
  {}

  lemma RunToToken(r: Req, r1: Req, sid: Option<Addr>, o: RequestOptions, out: RunOutcome, called: Option<nat>)
    requires SetUp(r, sid, o) && RunTo(r, r1, out, called)
    ensures r1.(token := true).(token := false) == r1
  {}

  lemma MadeFrom(s: State, s1: State, s2: State, sid: Option<Addr>, o: RequestOptions, out: RunOutcome)
    requires (sid.Some? ==> sid.value in s.sessions) && s.nextReq in s1.reqs
    requires s1 == s.(reqs := s.reqs[s.nextReq := s1.reqs[s.nextReq]], nextReq := s.nextReq + 1,
                      sessions := if sid.None? then s.sessions
                                  else s.sessions[sid.value := [s.nextReq] + s.sessions[sid.value]])
    requires SetUp(s1.reqs[s.nextReq], sid, o) && OnlyRequest(s1, s2, s.nextReq)
    requires Called(s1, s2, s.nextReq, NotStarted(out) && o.callback) && PoolAfter(s1, s2, s.nextReq, out)
    requires RunTo(s1.reqs[s.nextReq], s2.reqs[s.nextReq], out,
                   if NotStarted(out) && o.callback then Some(s.nextEvent) else None)
    ensures Made(s, CreateCommand(s2, s.nextReq), sid, o, out)
  {
    var a := s.nextReq;
    var called := if NotStarted(out) && o.callback then Some(s.nextEvent) else None;
    RunToToken(s1.reqs[a], s2.reqs[a], sid, o, out, called);
    hide PoolAfter, RunTo, SetUp;
    var t := CreateCommand(s2, a);
    assert t.reqs[a].(token := false) == s2.reqs[a];
  }

  /** A `-simple` request is released before the command returns, and leaves everything else
      as it was, its session's list included. */
  lemma CreatedSimple(s: State, sid: Option<Addr>, o: RequestOptions, out: RunOutcome)
    requires (sid.Some? ==> sid.value in s.sessions) && RunFits(o, out) && s.nextReq !in s.reqs
    requires o.interp !in s.deletedInterps && o.simple
    ensures CreateRequest(s, sid, o, out) == s.(nextReq := s.nextReq + 1, freed := s.freed + multiset{s.nextReq})
  {
    var a := s.nextReq;
    var s1 := InitRequest(s, sid, o);
    InitEffect(s, sid, o);
    RunEffect(s1, a, out);
    var s2 := RequestRun(s1, a, out);
    SyncSame(s1, a, out);
    hide InitRequest, RequestRun, RequestFree;
    FreeTail(s2, a);
    assert s2.reqs - {a} == s.reqs;
    if sid.Some? {
      assert RemoveFirst([a] + s.sessions[sid.value], a) == s.sessions[sid.value];
      assert s2.sessions[sid.value := s.sessions[sid.value]] == s.sessions;
    }
  }

  lemma SyncSame(s: State, a: Addr, out: RunOutcome)
    requires Live(s, a) && !s.reqs[a].async && !out.Async?
    ensures var t := RequestRun(s, a, out); t == s.(reqs := s.reqs[a := t.reqs[a]])
  {
    assert RequestRun(s, a, out).reqs == s.reqs[a := RequestRun(s, a, out).reqs[a]];
  }

  /** In any case the other requests, the messages and the queued events stay, and the source
      of a pool that has been made is not registered before a request is in it. */
  lemma CreateFrame(s: State, sid: Option<Addr>, o: RequestOptions, out: RunOutcome)
    requires (sid.Some? ==> sid.value in s.sessions) && RunFits(o, out) && s.nextReq !in s.reqs
    requires o.interp !in s.deletedInterps
    ensures var t, a := CreateRequest(s, sid, o, out), s.nextReq;
            && t.nextReq == a + 1 && t.exited == s.exited && s.reqs.Keys <= t.reqs.Keys
            && (forall b :: b in t.reqs && b != a ==> b in s.reqs && t.reqs[b] == s.reqs[b])
            && (t.queue == s.queue || (Live(t, a) && t.queue == s.queue + [CallbackEvent(s.nextEvent, Some(a))]))
            && (t.scheduled == s.scheduled || t.scheduled == s.scheduled + multiset{a})
            && (t.pool.Some? && t.pool.value.multi.msgs != [] ==>
                  s.pool.Some? && t.pool.value.multi.msgs == s.pool.value.multi.msgs)
            && (t.pool == s.pool || (t.pool.Some? && (t.pool.value.requests == [] ==> !t.pool.value.isActive)))
  {
    hide CreateRequest, RunTo, SetUp;
    if o.simple { CreatedSimple(s, sid, o, out); } else { CreatedStays(s, sid, o, out); }
  }
}
