/** Creating requests and sessions, serving events, and the environment's own steps. */
module LifecycleSteps {
  import opened Common
  import opened Lifecycle
  import opened LifecycleInvariant
  import opened LifecycleRelease

  // ------------------------------------------------------------------ creation

  lemma InitSessions(s: State, sid: Option<Addr>, o: RequestOptions)
    requires SessionLinks(s) && s.nextReq !in s.reqs && (sid.Some? ==> sid.value in s.sessions)
    ensures SessionLinks(InitRequest(s, sid, o))
  {
    var t := InitRequest(s, sid, o);
    var a := s.nextReq;
    forall k, b | k in t.sessions
      ensures b in t.sessions[k] <==> b in t.reqs && t.reqs[b].session == Some(k)
    {
      assert b in s.sessions[k] <==> b in s.reqs && s.reqs[b].session == Some(k);
      assert a !in s.sessions[k];
    }
    forall k | k in t.sessions ensures k < t.nextSession && NoDuplicates(t.sessions[k]) {
      assert a !in s.sessions[k];
    }
  }

  lemma InitPool(s: State, sid: Option<Addr>, o: RequestOptions)
    requires PoolLinks(s) && SourceInv(s) && s.nextReq !in s.reqs && (sid.Some? ==> sid.value in s.sessions)
    ensures PoolLinks(InitRequest(s, sid, o)) && SourceInv(InitRequest(s, sid, o))
  {
    hide MultiOk;
  }

  lemma InitEvents(s: State, sid: Option<Addr>, o: RequestOptions)
    requires EventLinks(s) && s.nextReq !in s.reqs && (sid.Some? ==> sid.value in s.sessions)
    ensures EventLinks(InitRequest(s, sid, o))
  {
    var t := InitRequest(s, sid, o);
    assert t.reqs.Keys == s.reqs.Keys + {s.nextReq};
    assert forall b :: b in s.reqs ==> t.reqs[b] == s.reqs[b];
    assert t.reqs[s.nextReq].event.None?;
    hide InitRequest;
  }

  lemma InitHistory(s: State, sid: Option<Addr>, o: RequestOptions)
    requires HistoryInv(s) && (sid.Some? ==> sid.value in s.sessions)
    ensures HistoryInv(InitRequest(s, sid, o)) && OthersOk(s, InitRequest(s, sid, o), s.nextReq)
  {}

  lemma InitKeeps(s: State, sid: Option<Addr>, o: RequestOptions)
    requires Global(s) && (sid.Some? ==> sid.value in s.sessions)
    ensures var t := InitRequest(s, sid, o);
            && Global(t) && OthersOk(s, t, s.nextReq)
            && s.nextReq !in t.named && s.nextReq !in t.commands
            && t.scheduled[s.nextReq] == 0 && t.invoked[s.nextReq] == 0
            && s.nextReq !in s.reqs
  {
    HistoryBounds(s);
    hide HistoryInv, PoolLinks, EventLinks, SourceInv, SessionLinks, OthersOk, ReqOk;
    InitPool(s, sid, o);
    InitEvents(s, sid, o);
    InitHistory(s, sid, o);
    InitSessions(s, sid, o);
  }

  lemma HistoryBounds(s: State)
    requires HistoryInv(s)
    ensures s.nextReq !in s.reqs && s.nextReq !in s.named && s.nextReq !in s.commands
    ensures s.scheduled[s.nextReq] == 0 && s.invoked[s.nextReq] == 0
  {
    assert s.invoked[s.nextReq] <= s.scheduled[s.nextReq];
  }

  /** A request that has just been made, before treq_RequestRun(). */
  ghost predicate Unrun(s: State, a: Addr) {
    && Live(s, a)
    && var r := s.reqs[a];
       && r.event.None? && !r.pooled && !r.token && !r.isDead && (r.callback ==> r.async)
       && s.scheduled[a] == 0 && s.invoked[a] == 0
       && r.interp !in s.deletedInterps
  }

  /** The request after treq_RequestRun(), all but its command. */
  ghost predicate HasRun(s: State, a: Addr) {
    Live(s, a) && StateOk(s.reqs[a]) && CallbackOk(s, a) && !s.reqs[a].token && !s.reqs[a].isDead
  }

  lemma ErrorExitSeen(s: State, a: Addr)
    requires Unrun(s, a)
    ensures var t := RunErrorExit(s, a); HasRun(t, a) && t.commands == s.commands && t.named == s.named
  {}

  lemma ErrorExitKeeps(s: State, a: Addr)
    requires Global(s) && Unrun(s, a)
    ensures var t := RunErrorExit(s, a);
            Global(t) && OthersOk(s, t, a) && HasRun(t, a) && t.commands == s.commands && t.named == s.named
  {
    var s1 := SetError(s, a);
    ErrorExitSeen(s, a);
    hide Global, OthersOk, ReqOk, HasRun;
    RewriteRequest(s, a, s.reqs[a].(error := true, state := Error));
    if s1.reqs[a].async {
      ScheduleKeeps(s1, a);
      OthersTrans(s, s1, ScheduleCallback(s1, a), a);
    }
  }

  /** Handing the request to the pool, as seen from the request. */
  lemma AddSeen(s: State, a: Addr, add: AddOutcome)
    requires Unrun(s, a) && s.reqs[a].async && s.reqs[a].state == InProgress
    ensures var (t, ok) := PoolAddRequest(s, a, add);
            (if ok then HasRun(t, a) else Unrun(t, a)) && t.commands == s.commands && t.named == s.named
  {}

  lemma StartKeeps(s: State, a: Addr)
    requires Global(s) && Unrun(s, a)
    ensures var t := SetReqState(s, a, InProgress);
            && Global(t) && OthersOk(s, t, a) && Unrun(t, a)
            && t.reqs[a].state == InProgress && t.reqs[a].async == s.reqs[a].async
  {
    var t := SetReqState(s, a, InProgress);
    hide Global, OthersOk;
    RewriteRequest(s, a, s.reqs[a].(state := InProgress));
  }

  lemma StartSame(s: State, a: Addr)
    requires Live(s, a) && Quiet(s)
    ensures var t := SetReqState(s, a, InProgress);
            Live(t, a) && Quiet(t) && t.commands == s.commands && t.named == s.named
  {}

  lemma AsyncUnfold(s: State, a: Addr, add: AddOutcome)
    requires Live(s, a) && s.reqs[a].async
    ensures Live(SetReqState(s, a, InProgress), a)
    ensures var (t, ok) := PoolAddRequest(SetReqState(s, a, InProgress), a, add);
            RequestRun(s, a, Async(add)) == if ok then t else RunErrorExit(t, a)
  {}

  lemma PoolStepKeeps(s: State, a: Addr, add: AddOutcome)
    requires Global(s) && Unrun(s, a) && Quiet(s) && s.reqs[a].async && s.reqs[a].state == InProgress
    ensures var (t, ok) := PoolAddRequest(s, a, add);
            && Global(t) && OthersOk(s, t, a) && t.commands == s.commands && t.named == s.named
            && if ok then HasRun(t, a) else Unrun(t, a)
  {
    assert !s.reqs[a].pooled;
    hide Global, OthersOk, PoolAddRequest, Quiet, Unrun, HasRun;
    AddSeen(s, a, add);
    AddKeeps(s, a, add);
  }

  lemma AsyncRunKeeps(s: State, a: Addr, add: AddOutcome)
    requires Global(s) && Unrun(s, a) && Quiet(s) && !s.exited && s.reqs[a].async
    ensures var t := RequestRun(s, a, Async(add));
            Global(t) && OthersOk(s, t, a) && HasRun(t, a) && t.commands == s.commands && t.named == s.named
  {
    AsyncUnfold(s, a, add);
    StartSame(s, a);
    hide Global, OthersOk, PoolAddRequest, Quiet, Unrun, HasRun, SetReqState, RunErrorExit, RequestRun;
    var s1 := SetReqState(s, a, InProgress);
    StartKeeps(s, a);
    PoolStepKeeps(s1, a, add);
    var (s2, ok) := PoolAddRequest(s1, a, add);
    OthersTrans(s, s1, s2, a);
    if !ok {
      ErrorExitKeeps(s2, a);
      OthersTrans(s, s2, RunErrorExit(s2, a), a);
    }
  }

  lemma SyncSeen(s: State, a: Addr, out: RunOutcome)
    requires Unrun(s, a) && !s.reqs[a].async && out.Sync?
    ensures var t := RequestRun(s, a, out);
            HasRun(t, a) && t == s.(reqs := s.reqs[a := t.reqs[a]]) &&
            t.reqs[a] == s.reqs[a].(state := t.reqs[a].state, error := t.reqs[a].error)
  {
    var t := RequestRun(s, a, out);
    assert t.reqs == s.reqs[a := t.reqs[a]];
  }

  lemma SyncRunKeeps(s: State, a: Addr, out: RunOutcome)
    requires Global(s) && Unrun(s, a) && !s.reqs[a].async && out.Sync?
    ensures var t := RequestRun(s, a, out);
            Global(t) && OthersOk(s, t, a) && HasRun(t, a) && t.commands == s.commands && t.named == s.named
  {
    SyncSeen(s, a, out);
    hide RequestRun, OthersOk, Global, HasRun, Unrun;
    RewriteRequest(s, a, RequestRun(s, a, out).reqs[a]);
  }

  lemma RunKeeps(s: State, a: Addr, out: RunOutcome)
    requires Global(s) && Unrun(s, a) && Quiet(s) && !s.exited
    requires out.SetupFails? || (out.Async? <==> s.reqs[a].async)
    ensures var t := RequestRun(s, a, out);
            Global(t) && OthersOk(s, t, a) && HasRun(t, a) && t.commands == s.commands && t.named == s.named
  {
    hide Global, OthersOk, HasRun, Unrun, Quiet;
    match out
    case SetupFails => ErrorExitKeeps(s, a);
    case Async(add) => AsyncRunKeeps(s, a, add);
    case Sync(_, _) => SyncRunKeeps(s, a, out);
  }

  lemma CommandHistory(s: State, a: Addr)
    requires HistoryInv(s) && HasRun(s, a) && a !in s.named
    ensures var t := CreateCommand(s, a); HistoryInv(t) && OthersOk(s, t, a) && ReqOk(t, a)
  {}

  lemma CommandKeeps(s: State, a: Addr)
    requires Global(s) && Live(s, a) && HasRun(s, a) && a !in s.named
    ensures var t := CreateCommand(s, a); Global(t) && OthersOk(s, t, a) && ReqOk(t, a)
  {
    hide PoolLinks, SessionLinks, EventLinks, SourceInv, HistoryInv, OthersOk, ReqOk, HasRun, DeactivationOk;
    var t := CreateCommand(s, a);
    CommandHistory(s, a);
    PoolFrame(s, t);
    SessionFrame(s, t);
    EventDeactivation(s);
    EventFrame(s, t);
    SourceFrame(s, t);
  }

  lemma NewIsUnrun(s: State, sid: Option<Addr>, o: RequestOptions)
    requires Global(s) && Quiet(s) && !s.exited && (sid.Some? ==> sid.value in s.sessions)
    requires (o.callback ==> o.async) && o.interp !in s.deletedInterps
    ensures var t := InitRequest(s, sid, o);
            && Unrun(t, s.nextReq) && Quiet(t) && !t.exited && t.reqs[s.nextReq].async == o.async
            && t.reqs[s.nextReq].session == sid && (sid.Some? ==> sid.value in t.sessions)
  {
    HistoryBounds(s);
  }

  /** What a run leaves as it was. */
  lemma RunSame(s: State, a: Addr, out: RunOutcome)
    requires Live(s, a) && (out.SetupFails? || (out.Async? <==> s.reqs[a].async))
    ensures var t := RequestRun(s, a, out);
            t.exited == s.exited && t.reqs[a].async == s.reqs[a].async && t.reqs[a].session == s.reqs[a].session
  {
    match out {
      case SetupFails =>
      case Async(add) => AsyncUnfold(s, a, add); hide RequestRun;
      case Sync(_, _) =>
    }
  }

  /** Every way a request can be made keeps the invariant. */
  lemma CreateKeeps(s: State, sid: Option<Addr>, o: RequestOptions, out: RunOutcome)
    requires Inv(s) && Quiet(s) && !s.exited && (sid.Some? ==> sid.value in s.sessions)
    requires RunFits(o, out) && o.interp !in s.deletedInterps
    ensures Inv(CreateRequest(s, sid, o, out))
  {
    var a := s.nextReq;
    InvGlobal(s);
    var s1 := InitRequest(s, sid, o);
    NewIsUnrun(s, sid, o);
    hide Inv, Global, OthersOk, ReqOk, Unrun, Quiet, HasRun, InitRequest, RequestRun;
    InitKeeps(s, sid, o);
    RunKeeps(s1, a, out);
    var s2 := RequestRun(s1, a, out);
    OthersTrans(s, s1, s2, a);
    RunSame(s1, a, out);
    if o.simple {
      SimpleReleases(s2, a);
      OthersTrans(s, s2, RequestFree(s2, a), a);
      InvFromOthers(s, RequestFree(s2, a), a);
    } else {
      CommandKeeps(s2, a);
      OthersTrans(s, s2, CreateCommand(s2, a), a);
      InvFromOthers(s, CreateCommand(s2, a), a);
    }
  }

  /** A `-simple` request is released at once; it never had a command. */
  lemma SimpleReleases(s: State, a: Addr)
    requires Global(s) && HasRun(s, a) && !s.reqs[a].async && a !in s.commands && !s.exited
    requires s.reqs[a].session.Some? ==> s.reqs[a].session.value in s.sessions
    ensures Linked(s, a)
    ensures Global(RequestFree(s, a)) && OthersOk(s, RequestFree(s, a), a) && a !in RequestFree(s, a).reqs
  {
    assert s.pool.Some? ==> !s.pool.value.isDead;
    assert Releasable(s, a);
    hide Global, OthersOk, RequestFree;
    ReleaseKeeps(s, a);
  }

  lemma SessionKeeps(s: State)
    requires Inv(s)
    ensures Inv(CreateSession(s))
  {
    var t := CreateSession(s);
    NewSessionLinks(s);
    hide PoolLinks, SessionLinks, EventLinks, SourceInv, HistoryInv, DeactivationOk;
    PoolFrame(s, t);
    EventDeactivation(s);
    EventFrame(s, t);
    SourceFrame(s, t);
    HistoryFrame(s, t);
    forall a | a in t.reqs ensures ReqOk(t, a) { assert ReqOk(s, a); }
  }

  lemma NewSessionLinks(s: State)
    requires SessionLinks(s)
    ensures SessionLinks(CreateSession(s))
  {
    assert s.nextSession !in s.sessions;
  }

  /** Destroying a session that has just been made leaves everything as it was. */
  lemma SessionRoundTrip(s: State)
    requires Inv(s)
    ensures var t, sid := CreateSession(s), s.nextSession;
            && sid !in s.sessions && SessionMembersLinked(t, sid)
            && SessionFree(t, sid) == s.(nextSession := s.nextSession + 1)
  {
    assert s.nextSession !in s.sessions;
    hide Inv;
    assert CreateSession(s).sessions - {s.nextSession} == s.sessions;
  }

  // ------------------------------------------------------------- serving events

  /** Only the head of the queue is ever served: a deactivation sits nowhere else. */
  lemma HeadOrNone(s: State, fileEvents: bool)
    requires EventLinks(s)
    ensures var i := NextReady(s.queue, fileEvents); i == 0 || i == |s.queue|
  {
    var i := NextReady(s.queue, fileEvents);
    if i < |s.queue| && !fileEvents { assert s.queue[i].DeactivateEvent?; }
    if i < |s.queue| && fileEvents { }
  }

  ghost predicate ServeDefined(s: State) {
    forall i :: 0 <= i < |s.queue| && s.queue[i].DeactivateEvent? ==> s.pool.Some?
  }

  /** The event that is served names a request that has been freed. */
  ghost predicate ServesDangling(s: State, fileEvents: bool) {
    && fileEvents && s.queue != []
    && s.queue[0].CallbackEvent? && s.queue[0].request.Some?
    && !Live(s, s.queue[0].request.value)
  }

  /** Serving an event touches freed memory exactly when the event dangles. */
  lemma FaultIff(s: State, fileEvents: bool)
    requires Inv(s)
    ensures ServeDefined(s)
    ensures Service(s, fileEvents).UseAfterFree? <==> ServesDangling(s, fileEvents)
  {
    hide ReqOk;
    HeadOrNone(s, fileEvents);
  }

  /** What is served: the head of the queue, unless it is a callback and the pass serves no
      file events. */
  lemma HeadServed(s: State, fileEvents: bool)
    requires EventLinks(s) && ServeDefined(s) && Service(s, fileEvents).Next?
    ensures var s1, t := s.(queue := if s.queue == [] then [] else s.queue[1..]), Service(s, fileEvents).state;
            if s.queue == [] || (!fileEvents && s.queue[0].CallbackEvent?) then t == s
            else
              match s.queue[0]
              case DeactivateEvent => s.pool.Some? && t == PoolDeactivate(s1)
              case CallbackEvent(_, None) => t == s1
              case CallbackEvent(_, Some(a)) =>
                && Live(s, a)
                && t == s1.(reqs := s.reqs[a := s.reqs[a].(event := None)], invoked := s.invoked + multiset{a})
  {
    HeadOrNone(s, fileEvents);
    hide EventLinks;
    if s.queue != [] { assert s.queue[..0] + s.queue[0 + 1..] == s.queue[1..]; }
  }

  lemma ServeDeactivate(s: State)
    requires Inv(s) && s.queue != [] && s.queue[0].DeactivateEvent?
    ensures s.pool.Some?
    ensures Inv(PoolDeactivate(s.(queue := s.queue[1..])))
  {
    var t := PoolDeactivate(s.(queue := s.queue[1..]));
    assert PoolLinks(t) by { hide ReqOk, MultiOk; }
    assert SourceInv(t) by { hide ReqOk, PoolLinks; }
    SessionFrame(s, t);
    HistoryFrame(s, t);
    assert EventLinks(t) by {
      hide ReqOk, PoolLinks, SessionLinks, HistoryInv;
      TailEvents(s, t);
    }
    hide PoolLinks, SessionLinks, EventLinks, SourceInv, HistoryInv;
    forall a | a in t.reqs ensures ReqOk(t, a) { assert ReqOk(s, a); }
  }

  /** Dropping the head of the queue, and with it the `event` field that named it. */
  lemma TailEvents(s: State, t: State)
    requires EventLinks(s) && s.queue != [] && t.queue == s.queue[1..]
    requires t.nextEvent == s.nextEvent && t.nextReq == s.nextReq && t.reqs.Keys == s.reqs.Keys
    requires s.queue[0].DeactivateEvent? || t.pool == s.pool
    requires forall b :: b in s.reqs ==> t.reqs[b].event == if Names(s.queue[0], b) then None else s.reqs[b].event
    ensures EventLinks(t)
  {
    forall b | b in t.reqs && t.reqs[b].event.Some?
      ensures CallbackEvent(t.reqs[b].event.value, Some(b)) in t.queue
    {
      var k :| 0 <= k < |s.queue| && s.queue[k] == CallbackEvent(s.reqs[b].event.value, Some(b));
      assert k != 0;
      assert t.queue[k - 1] == s.queue[k];
    }
    forall i | 0 <= i < |t.queue| && t.queue[i].CallbackEvent? && t.queue[i].request.Some? &&
        t.queue[i].request.value in t.reqs
      ensures t.reqs[t.queue[i].request.value].event == Some(t.queue[i].id)
    {
      assert t.queue[i] == s.queue[i + 1];
    }
  }

  predicate Names(e: Event, a: Addr) {
    e.CallbackEvent? && e.request == Some(a)
  }

  lemma ServedHistory(s: State, t: State, a: Addr)
    requires HistoryInv(s) && Live(s, a) && ReqOk(s, a) && s.reqs[a].event.Some?
    requires t == s.(queue := t.queue, reqs := s.reqs[a := s.reqs[a].(event := None)],
            invoked := s.invoked + multiset{a})
    ensures HistoryInv(t) && ReqOk(t, a) && OthersOk(s, t, a)
  {}

  lemma ServeCallback(s: State)
    requires Inv(s) && s.queue != [] && s.queue[0].CallbackEvent?
    requires s.queue[0].request.Some? && Live(s, s.queue[0].request.value)
    ensures var a := s.queue[0].request.value;
            Inv(s.(queue := s.queue[1..],
                reqs := s.reqs[a := s.reqs[a].(event := None)], invoked := s.invoked + multiset{a}))
  {
    var a := s.queue[0].request.value;
    var t := s.(queue := s.queue[1..], reqs := s.reqs[a := s.reqs[a].(event := None)],
        invoked := s.invoked + multiset{a});
    assert s.reqs[a].event == Some(s.queue[0].id);
    assert ReqOk(s, a);
    hide PoolLinks, SessionLinks, SourceInv, HistoryInv, EventLinks, ReqOk, OthersOk;
    ServedHistory(s, t, a);
    PoolFrame(s, t);
    SessionFrame(s, t);
    SourceFrame(s, t);
    TailEvents(s, t);
    InvFromOthers(s, t, a);
  }

  lemma ServeNobody(s: State)
    requires Inv(s) && s.queue != [] && s.queue[0].CallbackEvent? && s.queue[0].request.None?
    ensures Inv(s.(queue := s.queue[1..]))
  {
    var t := s.(queue := s.queue[1..]);
    PoolFrame(s, t);
    SessionFrame(s, t);
    SourceFrame(s, t);
    HistoryFrame(s, t);
    hide PoolLinks, SessionLinks, SourceInv, HistoryInv;
    TailEvents(s, t);
    hide EventLinks;
    forall b | b in t.reqs ensures ReqOk(t, b) { assert ReqOk(s, b); }
  }

  /** Serving an event that does not dangle keeps the invariant. */
  lemma ServeKeeps(s: State, fileEvents: bool)
    requires Inv(s)
    ensures ServeDefined(s)
    ensures var r := Service(s, fileEvents); r.Next? ==> Inv(r.state)
  {
    FaultIff(s, fileEvents);
    HeadOrNone(s, fileEvents) by { hide ReqOk; }
    var i := NextReady(s.queue, fileEvents);
    if i < |s.queue| {
      assert s.queue[..i] + s.queue[i + 1..] == s.queue[1..];
      if s.queue[0].DeactivateEvent? {
        ServeDeactivate(s);
      } else if s.queue[0].request.None? {
        ServeNobody(s);
      } else if Live(s, s.queue[0].request.value) {
        ServeCallback(s);
      }
    }
    hide Inv;
  }

  // ------------------------------------------------------ the environment's steps

  lemma WriteFailsKeeps(s: State, a: Addr)
    requires Inv(s) && s.pool.Some? && a in s.pool.value.multi.running
    ensures Live(s, a) && Inv(WriteFails(s, a))
  {
    assert a in s.pool.value.multi.attached;
    assert a in s.pool.value.requests;
    assert ReqOk(s, a);
    var t := WriteFails(s, a);
    assert ReqOk(t, a) by { hide Global; }
    InvGlobal(s);
    RewriteRequest(s, a, s.reqs[a].(error := true, state := Error));
    InvFromOthers(s, t, a) by { hide Inv, Global, ReqOk, OthersOk; }
    hide Inv;
  }

  lemma DeleteInterpKeeps(s: State, i: Interp)
    requires Inv(s)
    ensures Inv(DeleteInterp(s, i))
  {
    var t := DeleteInterp(s, i);
    forall a | a in t.reqs ensures ReqOk(t, a) { assert ReqOk(s, a); }
    hide ReqOk;
    PoolFrame(s, t);
    SessionFrame(s, t);
    EventDeactivation(s);
    EventFrame(s, t);
    SourceFrame(s, t);
  }
}
