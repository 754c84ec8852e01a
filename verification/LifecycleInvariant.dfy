/** What every operation of the lifecycle keeps. `Global` relates the four
    structures to each other and holds even in the middle of an operation;
    `ReqOk` says what is true of one request between operations. */
module LifecycleInvariant {
  import opened Common
  import opened Lifecycle

  ghost predicate MultiOk(m: Multi) {
    && m.running <= m.attached
    && (forall k :: k in m.msgs ==> k.handle in m.attached && k.handle !in m.running)
    && (forall i, j :: 0 <= i < j < |m.msgs| ==> m.msgs[i].handle != m.msgs[j].handle)
    && (forall a :: a in m.attached ==> a in m.running || a in Handles(m.msgs))
  }

  /** The pool's list, its counter, the requests' `pool` fields and libcurl's
      handles tell the same story. */
  ghost predicate PoolLinks(s: State) {
    match s.pool
    case None => forall a :: a in s.reqs ==> !s.reqs[a].pooled
    case Some(p) =>
      && NoDuplicates(p.requests)
      && (forall a :: a in p.requests <==> a in s.reqs && s.reqs[a].pooled)
      && p.count == |p.requests|
      && p.multi.attached == Elements(p.requests)
      && MultiOk(p.multi)
      && (p.isDead ==> s.exited)
  }

  /** Each session's list holds exactly the requests that point back at it. */
  ghost predicate SessionLinks(s: State) {
    && (forall sid :: sid in s.sessions ==> sid < s.nextSession && NoDuplicates(s.sessions[sid]))
    && (forall sid, a :: sid in s.sessions ==>
          (a in s.sessions[sid] <==> a in s.reqs && s.reqs[a].session == Some(sid)))
    && (forall a :: a in s.reqs && s.reqs[a].session.Some? ==> s.reqs[a].session.value in s.sessions)
  }

  /** A queued callback event names its request, the request names the event.
      An event may still name a request that is gone: see NoDangling. */
  ghost predicate EventLinks(s: State) {
    && (forall i :: 0 <= i < |s.queue| && s.queue[i].CallbackEvent? ==> s.queue[i].id < s.nextEvent)
    && (forall i, j :: 0 <= i < j < |s.queue| && s.queue[i].CallbackEvent? && s.queue[j].CallbackEvent? ==>
          s.queue[i].id != s.queue[j].id)
    && (forall i :: 0 <= i < |s.queue| && s.queue[i].CallbackEvent? && s.queue[i].request.Some? ==>
          && s.queue[i].request.value < s.nextReq
          && (s.queue[i].request.value in s.reqs ==> s.reqs[s.queue[i].request.value].event == Some(s.queue[i].id)))
    && (forall a :: a in s.reqs && s.reqs[a].event.Some? ==>
          CallbackEvent(s.reqs[a].event.value, Some(a)) in s.queue)
    && (forall i :: 0 <= i < |s.queue| && s.queue[i].DeactivateEvent? ==>
          i == 0 && s.pool.Some? && s.pool.value.requests == [] && s.pool.value.isActive)
  }

  /** The event source is registered exactly when the pool is active, never
      twice, and a pool that holds requests is active. */
  ghost predicate SourceInv(s: State) {
    s.exited ||
    match s.pool
    case None => s.sources == 0
    case Some(p) => s.sources == (if p.isActive then 1 else 0) && (p.requests != [] ==> p.isActive)
  }

  /** Blocks and commands are released once, callbacks are queued once. */
  ghost predicate HistoryInv(s: State) {
    && (forall a: Addr :: s.freed[a] == if a < s.nextReq && a !in s.reqs then 1 else 0)
    && (forall a: Addr :: s.deletedCommands[a] == if a in s.named && a !in s.commands then 1 else 0)
    && (forall a :: a in s.commands ==> a in s.named && a in s.reqs)
    && (forall a :: a in s.named ==> a < s.nextReq)
    && (forall a :: a in s.reqs ==> a < s.nextReq)
    && (forall a: Addr :: s.invoked[a] <= s.scheduled[a] <= 1)
    && (forall a: Addr :: s.nextReq <= a ==> s.scheduled[a] == 0)
  }

  ghost predicate Global(s: State) {
    PoolLinks(s) && SessionLinks(s) && EventLinks(s) && SourceInv(s) && HistoryInv(s)
  }

  /** Callback bookkeeping of one live request. */
  ghost predicate CallbackOk(s: State, a: Addr)
    requires a in s.reqs
  {
    var r := s.reqs[a];
    && s.scheduled[a] == s.invoked[a] + (if r.event.Some? then 1 else 0)
    && (r.pooled || !r.callback ==> s.scheduled[a] == 0)
    && (r.callback && !r.pooled && r.interp !in s.deletedInterps && !s.exited ==> s.scheduled[a] == 1)
    && (r.callback ==> r.async)
  }

  ghost predicate StateOk(r: Req) {
    if r.pooled then r.async && (r.state == InProgress || (r.state == Error && r.error))
    else r.state == Done || r.state == Error
  }

  ghost predicate ReqOk(s: State, a: Addr)
    requires a in s.reqs
  {
    var r := s.reqs[a];
    && r.token && !r.isDead && a in s.commands
    && StateOk(r)
    && CallbackOk(s, a)
  }

  ghost predicate Inv(s: State) {
    Global(s) && forall a :: a in s.reqs ==> ReqOk(s, a)
  }

  /** The requests other than `a` are as sound in `t` as in `s`. */
  ghost predicate OthersOk(s: State, t: State, a: Addr) {
    forall b :: b in t.reqs && b != a ==> b in s.reqs && (ReqOk(s, b) ==> ReqOk(t, b))
  }

  lemma InvGlobal(s: State)
    requires Inv(s)
    ensures Global(s)
  {}

  lemma InvFromOthers(s: State, t: State, a: Addr)
    requires Inv(s) && Global(t) && OthersOk(s, t, a) && (a in t.reqs ==> ReqOk(t, a))
    ensures Inv(t)
  {
    hide Global, ReqOk;
  }

  // -------------------------------------------------------------------- frames

  lemma PoolFrame(s: State, t: State)
    requires PoolLinks(s) && t.pool == s.pool && t.exited == s.exited && t.reqs.Keys == s.reqs.Keys
    requires forall a :: a in s.reqs ==> t.reqs[a].pooled == s.reqs[a].pooled
    ensures PoolLinks(t)
  {}

  lemma SessionFrame(s: State, t: State)
    requires SessionLinks(s) && t.sessions == s.sessions && t.nextSession == s.nextSession
    requires t.reqs.Keys == s.reqs.Keys && forall a :: a in s.reqs ==> t.reqs[a].session == s.reqs[a].session
    ensures SessionLinks(t)
  {}

  lemma EventDeactivation(s: State)
    requires EventLinks(s)
    ensures DeactivationOk(s.queue, s.pool)
  {}

  /** The pool and the queue's deactivation event. */
  ghost predicate DeactivationOk(queue: seq<Event>, pool: Option<Pool>) {
    forall i :: 0 <= i < |queue| && queue[i].DeactivateEvent? ==>
      i == 0 && pool.Some? && pool.value.requests == [] && pool.value.isActive
  }

  lemma EventFrame(s: State, t: State)
    requires EventLinks(s) && t.queue == s.queue && t.nextEvent == s.nextEvent && s.nextReq <= t.nextReq
    requires DeactivationOk(t.queue, t.pool)
    requires t.reqs.Keys == s.reqs.Keys && forall a :: a in s.reqs ==> t.reqs[a].event == s.reqs[a].event
    ensures EventLinks(t)
  {}

  lemma SourceFrame(s: State, t: State)
    requires SourceInv(s) && t.pool == s.pool && t.sources == s.sources && t.exited == s.exited
    ensures SourceInv(t)
  {}

  lemma HistoryFrame(s: State, t: State)
    requires HistoryInv(s) && SameHistory(s, t) && t.reqs.Keys == s.reqs.Keys
    ensures HistoryInv(t)
  {}

  // ------------------------------------------------------- one field at a time

  ghost predicate SameHistory(s: State, t: State) {
    && t.nextReq == s.nextReq && t.scheduled == s.scheduled && t.invoked == s.invoked && t.freed == s.freed
    && t.named == s.named && t.deletedCommands == s.deletedCommands && t.commands == s.commands
    && t.deletedInterps == s.deletedInterps && t.exited == s.exited
  }

  lemma OthersFrame(s: State, t: State, a: Addr)
    requires a in s.reqs && a in t.reqs && t.reqs == s.reqs[a := t.reqs[a]] && SameHistory(s, t)
    ensures OthersOk(s, t, a)
  {}

  lemma RewriteRequest(s: State, a: Addr, r: Req)
    requires Global(s) && Live(s, a)
    requires r.pooled == s.reqs[a].pooled && r.session == s.reqs[a].session && r.event == s.reqs[a].event
    ensures Global(s.(reqs := s.reqs[a := r])) && OthersOk(s, s.(reqs := s.reqs[a := r]), a)
  {
    hide PoolLinks, SessionLinks, EventLinks, SourceInv, HistoryInv, ReqOk, OthersOk, DeactivationOk;
    var t := s.(reqs := s.reqs[a := r]);
    PoolFrame(s, t);
    SessionFrame(s, t);
    EventDeactivation(s);
    EventFrame(s, t);
    SourceFrame(s, t);
    HistoryFrame(s, t);
    OthersFrame(s, t, a);
  }

  lemma AppendEvent(s: State, a: Addr, t: State)
    requires EventLinks(s) && Live(s, a) && s.reqs[a].event.None? && a < s.nextReq
    requires t == s.(reqs := s.reqs[a := s.reqs[a].(event := Some(s.nextEvent))],
                     queue := s.queue + [CallbackEvent(s.nextEvent, Some(a))],
                     nextEvent := s.nextEvent + 1, scheduled := t.scheduled)
    ensures EventLinks(t)
  {
    AppendedNames(s, a, t);
    AppendedIds(s, a, t);
    forall b | b in t.reqs && t.reqs[b].event.Some?
      ensures CallbackEvent(t.reqs[b].event.value, Some(b)) in t.queue
    {
      AppendedEvent(s, a, t, b);
    }
  }

  lemma AppendedIds(s: State, a: Addr, t: State)
    requires EventLinks(s) && t.nextEvent == s.nextEvent + 1
    requires t.queue == s.queue + [CallbackEvent(s.nextEvent, Some(a))]
    ensures forall i :: 0 <= i < |t.queue| && t.queue[i].CallbackEvent? ==> t.queue[i].id < t.nextEvent
    ensures forall i, j :: 0 <= i < j < |t.queue| && t.queue[i].CallbackEvent? && t.queue[j].CallbackEvent? ==>
              t.queue[i].id != t.queue[j].id
  {}

  lemma AppendedNames(s: State, a: Addr, t: State)
    requires EventLinks(s) && Live(s, a) && s.reqs[a].event.None? && a < s.nextReq && t.nextReq == s.nextReq
    requires t.reqs == s.reqs[a := s.reqs[a].(event := Some(s.nextEvent))]
    requires t.queue == s.queue + [CallbackEvent(s.nextEvent, Some(a))]
    ensures forall i :: 0 <= i < |t.queue| && t.queue[i].CallbackEvent? && t.queue[i].request.Some? ==>
              && t.queue[i].request.value < t.nextReq
              && (t.queue[i].request.value in t.reqs ==> t.reqs[t.queue[i].request.value].event == Some(t.queue[i].id))
  {}

  lemma AppendedEvent(s: State, a: Addr, t: State, b: Addr)
    requires EventLinks(s) && Live(s, a) && Live(s, b)
    requires t.reqs == s.reqs[a := s.reqs[a].(event := Some(s.nextEvent))]
    requires t.queue == s.queue + [CallbackEvent(s.nextEvent, Some(a))] && t.reqs[b].event.Some?
    ensures CallbackEvent(t.reqs[b].event.value, Some(b)) in t.queue
  {
    if b == a {
      assert t.queue[|s.queue|] == CallbackEvent(s.nextEvent, Some(a));
    } else {
      assert CallbackEvent(s.reqs[b].event.value, Some(b)) in s.queue;
    }
  }

  lemma ScheduleHistory(s: State, a: Addr)
    requires HistoryInv(s) && Live(s, a) && s.scheduled[a] == 0
    ensures HistoryInv(ScheduleCallback(s, a))
  {}

  lemma ScheduleOthers(s: State, a: Addr)
    requires Live(s, a)
    ensures OthersOk(s, ScheduleCallback(s, a), a)
  {}

  lemma ScheduleKeeps(s: State, a: Addr)
    requires Global(s) && Live(s, a) && s.reqs[a].event.None? && s.scheduled[a] == 0
    ensures Global(ScheduleCallback(s, a)) && OthersOk(s, ScheduleCallback(s, a), a)
  {
    hide PoolLinks, SessionLinks, EventLinks, SourceInv, HistoryInv, ReqOk, OthersOk;
    var t := ScheduleCallback(s, a);
    var r := s.reqs[a];
    ScheduleHistory(s, a);
    ScheduleOthers(s, a);
    if r.callback && r.interp !in s.deletedInterps {
      PoolFrame(s, t);
      SessionFrame(s, t);
      AddressBound(s, a);
      AppendEvent(s, a, t);
      SourceFrame(s, t);
    }
  }

  lemma AddressBound(s: State, a: Addr)
    requires HistoryInv(s) && Live(s, a)
    ensures a < s.nextReq
  {}

  // ------------------------------------------------------------------ the pool

  lemma MultiRemoveOk(m: Multi, a: Addr)
    requires MultiOk(m)
    ensures MultiOk(MultiRemove(m, a))
  {
    WithoutHandleShrinks(m.msgs, a);
    WithoutHandleDistinct(m.msgs, a);
    var n := MultiRemove(m, a);
    forall b | b in n.attached ensures b in n.running || b in Handles(n.msgs) {
      if b !in m.running {
        var k :| k in m.msgs && k.handle == b;
        assert k in n.msgs;
      }
    }
  }

  lemma {:induction false} WithoutHandleDistinct(msgs: seq<Msg>, a: Addr)
    requires forall i, j :: 0 <= i < j < |msgs| ==> msgs[i].handle != msgs[j].handle
    ensures forall i, j :: 0 <= i < j < |WithoutHandle(msgs, a)| ==>
              WithoutHandle(msgs, a)[i].handle != WithoutHandle(msgs, a)[j].handle
  {
    if msgs != [] {
      WithoutHandleDistinct(msgs[1..], a);
      WithoutHandleShrinks(msgs[1..], a);
      var w := WithoutHandle(msgs[1..], a);
      forall k | k in w ensures k.handle != msgs[0].handle {
        assert k in msgs[1..];
      }
    }
  }

  lemma LeavePoolLinks(s: State, a: Addr)
    requires PoolLinks(s) && Live(s, a) && s.reqs[a].pooled && !s.pool.value.isDead
    ensures PoolLinks(LeavePool(s, a))
  {
    var t := LeavePool(s, a);
    var p := s.pool.value;
    RemoveFirstMembers(p.requests, a);
    MultiRemoveOk(p.multi, a);
    hide MultiOk;
    assert t.pool.value.multi.attached == Elements(t.pool.value.requests);
  }

  lemma LeavePoolDeactivation(s: State, a: Addr)
    requires PoolLinks(s) && Live(s, a) && s.reqs[a].pooled && DeactivationOk(s.queue, s.pool)
    ensures DeactivationOk(s.queue, LeavePool(s, a).pool)
  {
    assert a in s.pool.value.requests;
  }

  lemma LeavePoolSource(s: State, a: Addr)
    requires PoolLinks(s) && Live(s, a) && s.reqs[a].pooled && SourceInv(s)
    ensures SourceInv(LeavePool(s, a))
  {
    assert a in s.pool.value.requests;
  }

  lemma LeavePoolKeeps(s: State, a: Addr)
    requires Global(s) && Live(s, a) && s.reqs[a].pooled && s.pool.Some? && !s.pool.value.isDead
    ensures Global(LeavePool(s, a)) && OthersOk(s, LeavePool(s, a), a)
  {
    hide PoolLinks, SessionLinks, EventLinks, SourceInv, HistoryInv, ReqOk, OthersOk, DeactivationOk;
    var t := LeavePool(s, a);
    LeavePoolLinks(s, a);
    SessionFrame(s, t);
    EventDeactivation(s);
    LeavePoolDeactivation(s, a);
    EventFrame(s, t);
    LeavePoolSource(s, a);
    HistoryFrame(s, t);
    OthersFrame(s, t, a);
  }

  lemma OthersTrans(s: State, t: State, u: State, a: Addr)
    requires OthersOk(s, t, a) && OthersOk(t, u, a)
    ensures OthersOk(s, u, a)
  {}

  /** Leaving the pool keeps everything linked, unless the pool is being freed. */
  lemma RemoveKeeps(s: State, a: Addr)
    requires Global(s) && Live(s, a) && s.reqs[a].pooled && s.pool.Some? && !s.pool.value.isDead
    requires s.reqs[a].event.None? && s.scheduled[a] == 0
    ensures Global(PoolRemoveRequest(s, a)) && OthersOk(s, PoolRemoveRequest(s, a), a)
  {
    hide Global, ReqOk, OthersOk;
    var s1 := LeavePool(s, a);
    LeavePoolKeeps(s, a);
    var r := s1.reqs[a];
    if r.state == InProgress && r.interp !in s.deletedInterps {
      RewriteRequest(s1, a, r.(error := true, state := Error));
      ScheduleKeeps(SetError(s1, a), a);
      OthersTrans(s, s1, SetError(s1, a), a);
      OthersTrans(s, SetError(s1, a), PoolRemoveRequest(s, a), a);
    }
  }

  ghost predicate Quiet(s: State) {
    forall i :: 0 <= i < |s.queue| ==> s.queue[i].CallbackEvent?
  }

  lemma AddLinks(s: State, a: Addr)
    requires PoolLinks(s) && Live(s, a) && !s.reqs[a].pooled
    ensures PoolLinks(PoolAddRequest(s, a, Added).0)
  {
    var t := PoolAddRequest(s, a, Added).0;
    var p := if s.pool.None? then EMPTY_POOL else s.pool.value;
    assert t.pool.value.requests == [a] + p.requests;
    assert t.pool.value.multi.attached == Elements(t.pool.value.requests);
    assert t.pool.value.multi == MultiAdd(p.multi, a);
    assert MultiOk(t.pool.value.multi);
  }

  lemma NewPoolLinks(s: State)
    requires PoolLinks(s) && SourceInv(s) && s.pool.None?
    ensures PoolLinks(s.(pool := Some(EMPTY_POOL))) && SourceInv(s.(pool := Some(EMPTY_POOL)))
  {
    assert EMPTY_POOL.multi.attached == Elements(EMPTY_POOL.requests);
  }

  lemma AddKeeps(s: State, a: Addr, out: AddOutcome)
    requires Global(s) && Live(s, a) && !s.reqs[a].pooled && Quiet(s)
    ensures var t := PoolAddRequest(s, a, out).0; Global(t) && OthersOk(s, t, a) && Quiet(t) && SameHistory(s, t)
  {
    hide PoolLinks, SessionLinks, EventLinks, SourceInv, HistoryInv, ReqOk, OthersOk;
    var t := PoolAddRequest(s, a, out).0;
    if out.Added? {
      AddLinks(s, a);
      AddSource(s, a);
    } else if s.pool.None? && out.AddHandleFails? {
      NewPoolLinks(s);
    }
    SessionFrame(s, t);
    EventFrame(s, t);
    HistoryFrame(s, t);
    OthersFrame(s, t, a);
  }

  lemma AddSource(s: State, a: Addr)
    requires SourceInv(s) && Live(s, a)
    ensures SourceInv(PoolAddRequest(s, a, Added).0)
  {}

  // -------------------------------------------------------------- the sessions

  lemma SessionRemoveLinks(s: State, a: Addr)
    requires SessionLinks(s) && Live(s, a) && s.reqs[a].session.Some?
    ensures s.reqs[a].session.value in s.sessions
    ensures SessionLinks(SessionRemoveRequest(s, a))
  {
    var sid := s.reqs[a].session.value;
    RemoveFirstMembers(s.sessions[sid], a);
    var t := SessionRemoveRequest(s, a);
    forall k, b | k in t.sessions
      ensures b in t.sessions[k] <==> b in t.reqs && t.reqs[b].session == Some(k)
    {
      assert b in s.sessions[k] <==> b in s.reqs && s.reqs[b].session == Some(k);
    }
  }

  lemma SessionRemoveKeeps(s: State, a: Addr)
    requires Global(s) && Live(s, a) && s.reqs[a].session.Some?
    ensures s.reqs[a].session.value in s.sessions
    ensures Global(SessionRemoveRequest(s, a)) && OthersOk(s, SessionRemoveRequest(s, a), a)
  {
    hide PoolLinks, SessionLinks, EventLinks, SourceInv, HistoryInv, ReqOk, OthersOk, DeactivationOk;
    SessionRemoveLinks(s, a);
    var t := SessionRemoveRequest(s, a);
    PoolFrame(s, t);
    EventDeactivation(s);
    EventFrame(s, t);
    SourceFrame(s, t);
    HistoryFrame(s, t);
    OthersFrame(s, t, a);
  }
}
