/** Releasing requests and sessions: treq_RequestFree(), the deletion of a
    request's command, treq_SessionFree(). */
module LifecycleRelease {
  import opened Common
  import opened Lifecycle
  import opened LifecycleInvariant

  /** The request has left its session and its pool. */
  function Settled(s: State, a: Addr): (t: State)
    requires Linked(s, a)
    ensures a in t.reqs
  {
    var s1 := if s.reqs[a].session.Some? then SessionRemoveRequest(s, a) else s;
    if s.reqs[a].pooled then PoolRemoveRequest(s1, a) else s1
  }

  /** `u` without the block of request `a`, without its command, and with queue `q`. */
  function Gone(u: State, a: Addr, q: seq<Event>): State
    requires Live(u, a)
  {
    u.(queue := q,
       reqs := u.reqs - {a},
       commands := u.commands - {a},
       deletedCommands := if u.reqs[a].token then u.deletedCommands + multiset{a} else u.deletedCommands,
       freed := u.freed + multiset{a})
  }

  /** A request that owns a command exactly when its token is set, as
      treq_RequestFree() finds it. A pending event excludes being in a pool. */
  ghost predicate Releasable(s: State, a: Addr) {
    && Linked(s, a)
    && !s.reqs[a].isDead
    && (s.reqs[a].token <==> a in s.commands)
    && (s.reqs[a].event.Some? ==> !s.reqs[a].pooled)
  }

  lemma FreeTail(s: State, a: Addr)
    requires Linked(s, a) && !s.reqs[a].isDead
    ensures var u := Unlink(s, a);
            RequestFree(s, a) == u.(reqs := u.reqs - {a}, freed := u.freed + multiset{a},
              commands := if s.reqs[a].token then u.commands - {a} else u.commands,
              deletedCommands := if s.reqs[a].token then u.deletedCommands + multiset{a} else u.deletedCommands)
  {
    var u := Unlink(s, a);
    hide Unlink;
    if u.reqs[a].token {
      var d := u.(reqs := u.reqs[a := u.reqs[a].(isDead := true)]);
      var d1 := d.(commands := d.commands - {a}, deletedCommands := d.deletedCommands + multiset{a});
      assert HandleDelete(d1, a) == d1;
      assert DeleteCommand(d, a) == d1;
      assert d1.reqs - {a} == u.reqs - {a};
    }
  }

  lemma SettledCommands(s: State, a: Addr)
    requires Linked(s, a)
    ensures Settled(s, a).commands == s.commands && Settled(s, a).reqs[a].token == s.reqs[a].token
    ensures s.reqs[a].event.Some? && !s.reqs[a].pooled ==> Settled(s, a).queue == s.queue
    ensures s.reqs[a].event.Some? && !s.reqs[a].pooled ==> Settled(s, a).reqs[a].event == s.reqs[a].event
  {}

  /** treq_RequestFree() in one step. */
  lemma FreeClosed(s: State, a: Addr)
    requires Releasable(s, a)
    ensures var u := Settled(s, a);
            RequestFree(s, a) ==
                Gone(u, a, if s.reqs[a].event.Some? then Detach(u.queue, s.reqs[a].event.value) else u.queue)
  {
    FreeTail(s, a);
    SettledCommands(s, a);
    hide RequestFree;
    var u := Settled(s, a);
    if s.reqs[a].event.Some? {
      assert Unlink(s, a) == u.(queue := Detach(u.queue, s.reqs[a].event.value));
    } else {
      assert Unlink(s, a) == u;
    }
    if !s.reqs[a].token { assert u.commands - {a} == u.commands; }
  }

  /** The request has lost its command; this is what treq_RequestHandleDelete() sees. */
  function Stripped(s: State, a: Addr): (t: State)
    requires Live(s, a)
    ensures Live(t, a) && t.reqs[a] == s.reqs[a].(token := false)
    ensures t.pool == s.pool && t.sessions == s.sessions && t.queue == s.queue && t.deletedInterps == s.deletedInterps
  {
    s.(commands := s.commands - {a}, deletedCommands := s.deletedCommands + multiset{a},
       reqs := s.reqs[a := s.reqs[a].(token := false)])
  }

  lemma ScheduleStripped(s: State, a: Addr)
    requires Live(s, a)
    ensures ScheduleCallback(Stripped(s, a), a) == Stripped(ScheduleCallback(s, a), a)
  {
    assert ScheduleCallback(Stripped(s, a), a).reqs == Stripped(ScheduleCallback(s, a), a).reqs;
  }

  lemma SetErrorStripped(s: State, a: Addr)
    requires Live(s, a)
    ensures SetError(Stripped(s, a), a) == Stripped(SetError(s, a), a)
  {
    assert SetError(Stripped(s, a), a).reqs == Stripped(SetError(s, a), a).reqs;
  }

  lemma LeavePoolStripped(s: State, a: Addr)
    requires Live(s, a) && s.pool.Some?
    ensures Live(LeavePool(s, a), a) && LeavePool(Stripped(s, a), a) == Stripped(LeavePool(s, a), a)
    ensures LeavePool(s, a).deletedInterps == s.deletedInterps
  {
    assert LeavePool(Stripped(s, a), a).reqs == Stripped(LeavePool(s, a), a).reqs;
  }

  lemma RemoveStripped(s: State, a: Addr)
    requires Live(s, a) && s.pool.Some?
    ensures PoolRemoveRequest(Stripped(s, a), a) == Stripped(PoolRemoveRequest(s, a), a)
  {
    hide Stripped, LeavePool, SetError, ScheduleCallback;
    LeavePoolStripped(s, a);
    var l := LeavePool(s, a);
    SetErrorStripped(l, a);
    ScheduleStripped(SetError(l, a), a);
  }

  lemma SessionRemoveStripped(s: State, a: Addr)
    requires Live(s, a) && s.reqs[a].session.Some? && s.reqs[a].session.value in s.sessions
    ensures Live(SessionRemoveRequest(s, a), a)
    ensures SessionRemoveRequest(Stripped(s, a), a) == Stripped(SessionRemoveRequest(s, a), a)
    ensures SessionRemoveRequest(s, a).pool == s.pool
  {
    assert SessionRemoveRequest(Stripped(s, a), a).reqs == Stripped(SessionRemoveRequest(s, a), a).reqs;
  }

  lemma DetachStripped(s: State, a: Addr, q: seq<Event>)
    requires Live(s, a)
    ensures Stripped(s, a).(queue := q) == Stripped(s.(queue := q), a)
  {}

  lemma UnlinkStripped(s: State, a: Addr)
    requires Linked(s, a)
    ensures Unlink(Stripped(s, a), a) == Stripped(Unlink(s, a), a)
  {
    hide Stripped, SessionRemoveRequest, PoolRemoveRequest, Detach;
    var r := s.reqs[a];
    var s1 := if r.event.Some? then s.(queue := Detach(s.queue, r.event.value)) else s;
    if r.event.Some? { DetachStripped(s, a, Detach(s.queue, r.event.value)); }
    if r.session.Some? { SessionRemoveStripped(s1, a); }
    var s2 := if r.session.Some? then SessionRemoveRequest(s1, a) else s1;
    if r.pooled { RemoveStripped(s2, a); }
  }

  /** Whichever side starts, the end is the same: deleting the command of a live
      request leads through the delete procedure to exactly the state that
      freeing the request (which then deletes its own command) leads to. */
  lemma SameEndFromEitherSide(s: State, a: Addr)
    requires Linked(s, a) && s.reqs[a].token && !s.reqs[a].isDead
    ensures DeleteCommand(s, a) == RequestFree(s, a)
  {
    var s1 := Stripped(s, a);
    assert DeleteCommand(s, a) == RequestFree(s1, a) by {
      var s0 := s.(commands := s.commands - {a}, deletedCommands := s.deletedCommands + multiset{a});
      assert DeleteCommand(s, a) == HandleDelete(s0, a);
      assert HandleDelete(s0, a) == RequestFree(s1, a);
    }
    UnlinkStripped(s, a);
    FreeTail(s, a);
    FreeTail(s1, a);
    var u := Unlink(s, a);
    hide Unlink, RequestFree, DeleteCommand;
    assert Stripped(u, a).reqs - {a} == u.reqs - {a};
  }

  // ------------------------------------------------- what releasing one request keeps

  lemma SettledKeeps(s: State, a: Addr)
    requires Global(s) && Linked(s, a) && CallbackOk(s, a) && (s.pool.Some? ==> !s.pool.value.isDead)
    ensures var u := Settled(s, a);
            Global(u) && OthersOk(s, u, a) && !u.reqs[a].pooled && u.reqs[a].session.None?
  {
    hide Global, ReqOk, OthersOk;
    var s1 := if s.reqs[a].session.Some? then SessionRemoveRequest(s, a) else s;
    if s.reqs[a].session.Some? {
      SessionRemoveKeeps(s, a);
    } else {
      OthersSelf(s, a);
    }
    if s.reqs[a].pooled {
      RemoveKeeps(s1, a);
      OthersTrans(s, s1, PoolRemoveRequest(s1, a), a);
    }
  }

  lemma OthersSelf(s: State, a: Addr)
    ensures OthersOk(s, s, a)
  {}

  lemma GonePoolAndSessions(u: State, a: Addr, q: seq<Event>)
    requires PoolLinks(u) && SessionLinks(u) && SourceInv(u) && Live(u, a)
    requires !u.reqs[a].pooled && u.reqs[a].session.None?
    ensures PoolLinks(Gone(u, a, q)) && SessionLinks(Gone(u, a, q)) && SourceInv(Gone(u, a, q))
  {
    hide MultiOk;
  }

  lemma GoneHistory(u: State, a: Addr, q: seq<Event>)
    requires HistoryInv(u) && Live(u, a) && (u.reqs[a].token <==> a in u.commands)
    ensures HistoryInv(Gone(u, a, q)) && OthersOk(u, Gone(u, a, q), a)
  {}

  ghost predicate QueueAfter(u: State, a: Addr, q: seq<Event>)
    requires Live(u, a)
  {
    q == u.queue || (u.reqs[a].event.Some? && q == Detach(u.queue, u.reqs[a].event.value))
  }

  lemma GoneEvents(u: State, a: Addr, q: seq<Event>)
    requires EventLinks(u) && Live(u, a) && QueueAfter(u, a, q)
    ensures EventLinks(Gone(u, a, q))
  {
    var t := Gone(u, a, q);
    forall b | b in t.reqs && t.reqs[b].event.Some?
      ensures CallbackEvent(t.reqs[b].event.value, Some(b)) in t.queue
    {
      GoneEventKept(u, a, q, b);
    }
  }

  /** The event of another request is not touched. */
  lemma GoneEventKept(u: State, a: Addr, q: seq<Event>, b: Addr)
    requires EventLinks(u) && Live(u, a) && QueueAfter(u, a, q) && Live(u, b) && b != a && u.reqs[b].event.Some?
    ensures CallbackEvent(u.reqs[b].event.value, Some(b)) in q
  {
    var k :| 0 <= k < |u.queue| && u.queue[k] == CallbackEvent(u.reqs[b].event.value, Some(b));
    if q != u.queue {
      assert CallbackEvent(u.reqs[a].event.value, Some(a)) in u.queue;
      assert q[k] == u.queue[k];
    }
  }

  lemma GoneKeeps(u: State, a: Addr, q: seq<Event>)
    requires Global(u) && Live(u, a) && QueueAfter(u, a, q) && (u.reqs[a].token <==> a in u.commands)
    requires !u.reqs[a].pooled && u.reqs[a].session.None?
    ensures Global(Gone(u, a, q)) && OthersOk(u, Gone(u, a, q), a)
  {
    hide PoolLinks, SessionLinks, EventLinks, SourceInv, HistoryInv, OthersOk, QueueAfter, Gone;
    GonePoolAndSessions(u, a, q);
    GoneHistory(u, a, q);
    GoneEvents(u, a, q);
  }

  lemma ReleaseKeeps(s: State, a: Addr)
    requires Global(s) && Releasable(s, a) && CallbackOk(s, a) && (s.pool.Some? ==> !s.pool.value.isDead)
    ensures Global(RequestFree(s, a)) && OthersOk(s, RequestFree(s, a), a)
  {
    hide Global, OthersOk, ReqOk, CallbackOk, RequestFree, Gone, Detach;
    FreeClosed(s, a);
    SettledKeeps(s, a);
    SettledCommands(s, a);
    var u := Settled(s, a);
    hide Settled;
    var q := if s.reqs[a].event.Some? then Detach(u.queue, s.reqs[a].event.value) else u.queue;
    GoneKeeps(u, a, q);
    OthersTrans(s, u, Gone(u, a, q), a);
  }

  lemma LiveIsReleasable(s: State, a: Addr)
    requires Inv(s) && Live(s, a)
    ensures Releasable(s, a) && CallbackOk(s, a) && (s.pool.Some? && !s.exited ==> !s.pool.value.isDead)
  {
    assert ReqOk(s, a);
  }

  /** Freeing any live request keeps the invariant. */
  lemma FreeKeepsInv(s: State, a: Addr)
    requires Inv(s) && Live(s, a) && !s.exited
    ensures Inv(RequestFree(s, a))
  {
    LiveIsReleasable(s, a);
    ReleaseKeeps(s, a);
    hide Global, RequestFree, ReqOk;
    assert forall b :: b in s.reqs ==> ReqOk(s, b);
  }

  // ------------------------------------------------------------- dangling events

  /** Every queued callback event names a live request or none. */
  ghost predicate NoDangling(s: State) {
    forall i :: 0 <= i < |s.queue| && s.queue[i].CallbackEvent? && s.queue[i].request.Some? ==>
      Live(s, s.queue[i].request.value)
  }

  /** Freeing `a` would queue a callback event for it after its pending event was
      detached: it is in progress in the pool and wants a callback, and its
      interpreter is there. A caller can test this before the call. */
  predicate Abandons(s: State, a: Addr)
    requires Live(s, a)
  {
    var r := s.reqs[a];
    r.pooled && r.state == InProgress && r.callback && r.interp !in s.deletedInterps
  }

  lemma SettledQueue(s: State, a: Addr)
    requires Linked(s, a)
    ensures Settled(s, a).queue ==
            if Abandons(s, a) then s.queue + [CallbackEvent(s.nextEvent, Some(a))] else s.queue
    ensures Settled(s, a).reqs.Keys == s.reqs.Keys
  {}

  /** The event as the freeing of request `a` leaves it: detached if it names the request. */
  function Detached(e: Event, a: Addr): Event {
    if e.CallbackEvent? && e.request == Some(a) then CallbackEvent(e.id, None) else e
  }

  lemma DetachOwn(s: State, a: Addr, i: nat)
    requires EventLinks(s) && Live(s, a) && i < |s.queue|
    ensures s.reqs[a].event.None? ==> s.queue[i] == Detached(s.queue[i], a)
    ensures s.reqs[a].event.Some? ==> Detach(s.queue, s.reqs[a].event.value)[i] == Detached(s.queue[i], a)
  {
    if s.reqs[a].event.Some? {
      var k :| 0 <= k < |s.queue| && s.queue[k] == CallbackEvent(s.reqs[a].event.value, Some(a));
    }
  }

  /** What freeing does to the queue: the events stay where they are, those of the request
      lose its name, and a new event comes last exactly when it abandons the request. */
  lemma FreeQueue(s: State, a: Addr)
    requires Inv(s) && Live(s, a)
    ensures Linked(s, a)
    ensures var q := RequestFree(s, a).queue;
            && |q| == |s.queue| + (if Abandons(s, a) then 1 else 0)
            && (forall i :: 0 <= i < |s.queue| ==> q[i] == Detached(s.queue[i], a))
            && (Abandons(s, a) ==> q[|s.queue|] == CallbackEvent(s.nextEvent, Some(a)))
  {
    LiveIsReleasable(s, a);
    assert EventLinks(s);
    hide Inv, RequestFree, Settled, Linked, EventLinks;
    FreeClosed(s, a);
    SettledQueue(s, a);
    forall i | 0 <= i < |s.queue| ensures RequestFree(s, a).queue[i] == Detached(s.queue[i], a) {
      DetachOwn(s, a, i);
    }
  }

  /** Freeing a request leaves a dangling event behind exactly when it abandons one. */
  lemma FreeDanglesIff(s: State, a: Addr)
    requires Inv(s) && Live(s, a) && NoDangling(s)
    ensures NoDangling(RequestFree(s, a)) <==> !Abandons(s, a)
  {
    LiveIsReleasable(s, a);
    assert EventLinks(s);
    hide Inv, RequestFree, Settled, Linked;
    FreeClosed(s, a);
    SettledQueue(s, a);
    GoneDanglesIff(s, Settled(s, a), RequestFree(s, a), a);
  }

  lemma GoneDanglesIff(s: State, u: State, t: State, a: Addr)
    requires EventLinks(s) && Live(s, a) && NoDangling(s) && Live(u, a) && u.reqs.Keys == s.reqs.Keys
    requires s.reqs[a].event.Some? ==> !s.reqs[a].pooled
    requires u.queue == if Abandons(s, a) then s.queue + [CallbackEvent(s.nextEvent, Some(a))] else s.queue
    requires t == Gone(u, a, if s.reqs[a].event.Some? then Detach(u.queue, s.reqs[a].event.value) else u.queue)
    ensures NoDangling(t) <==> !Abandons(s, a)
  {
    if Abandons(s, a) {
      assert t.queue[|s.queue|] == CallbackEvent(s.nextEvent, Some(a));
    } else {
      forall i | 0 <= i < |t.queue| && t.queue[i].CallbackEvent? && t.queue[i].request.Some?
        ensures Live(t, t.queue[i].request.value)
      {
        assert s.queue[i] == t.queue[i];
      }
    }
  }

  // ------------------------------------------------------------------ sessions

  lemma RemoveIgnoresSessions(s: State, a: Addr, m: map<Addr, seq<Addr>>)
    requires Live(s, a) && s.pool.Some?
    ensures PoolRemoveRequest(s.(sessions := m), a) == PoolRemoveRequest(s, a).(sessions := m)
  {
    hide MultiRemove, RemoveFirst;
    var l := LeavePool(s, a);
    assert LeavePool(s.(sessions := m), a) == l.(sessions := m);
    hide LeavePool;
    assert SetError(l.(sessions := m), a) == SetError(l, a).(sessions := m);
  }

  /** A pass of the session's list-freeing loop releases the head and moves on;
      its body leaves the list alone because the back pointer was cleared first. */
  lemma SessionPassIsFree(s: State, sid: Addr)
    requires Inv(s) && sid in s.sessions && s.sessions[sid] != [] && SessionMembersLinked(s, sid)
    ensures Live(s, s.sessions[sid][0]) && Linked(s, s.sessions[sid][0])
    ensures SessionFreePass(s, sid) == RequestFree(s, s.sessions[sid][0])
  {
    var a := s.sessions[sid][0];
    assert a in s.sessions[sid];
    assert s.reqs[a].session == Some(sid);
    LiveIsReleasable(s, a);
    var s1 := s.(reqs := s.reqs[a := s.reqs[a].(session := None)]);
    SessionPassSettled(s, sid, a, s1);
    assert Releasable(s1, a);
    FreeClosed(s, a);
    FreeClosed(s1, a);
  }

  lemma SessionPassSettled(s: State, sid: Addr, a: Addr, s1: State)
    requires Linked(s, a) && s.reqs[a].session == Some(sid) && s.sessions[sid] != [] && s.sessions[sid][0] == a
    requires s1 == s.(reqs := s.reqs[a := s.reqs[a].(session := None)])
    ensures Linked(s1, a) && Settled(s1, a).sessions == s.sessions
    ensures Settled(s, a) == Settled(s1, a).(sessions := s.sessions[sid := s.sessions[sid][1..]])
  {
    var m := s.sessions[sid := s.sessions[sid][1..]];
    assert SessionRemoveRequest(s, a) == s1.(sessions := m);
    hide SessionRemoveRequest, PoolRemoveRequest;
    if s.reqs[a].pooled { RemoveIgnoresSessions(s1, a, m); }
  }

  lemma SessionMembers(s: State, sid: Addr)
    requires Inv(s) && sid in s.sessions
    ensures SessionMembersLinked(s, sid)
    ensures forall a :: a in s.sessions[sid] ==> Live(s, a)
  {
    forall i | 0 <= i < |s.sessions[sid]|
      ensures s.sessions[sid][i] in s.reqs && (s.reqs[s.sessions[sid][i]].pooled ==> s.pool.Some?)
    {
      assert s.sessions[sid][i] in s.sessions[sid];
    }
  }

  ghost predicate SameReleases(s: State, t: State) {
    && t.freed == s.freed && t.deletedCommands == s.deletedCommands && t.deletedInterps == s.deletedInterps
    && t.exited == s.exited && t.invoked == s.invoked && t.nextSession == s.nextSession
    && t.named == s.named && t.nextReq == s.nextReq && t.sessions.Keys == s.sessions.Keys
  }

  lemma RemoveHistory(s: State, a: Addr)
    requires Live(s, a) && s.pool.Some?
    ensures SameReleases(s, PoolRemoveRequest(s, a))
  {}

  lemma SettledHistory(s: State, a: Addr)
    requires Linked(s, a)
    ensures SameReleases(s, Settled(s, a))
  {
    var s1 := if s.reqs[a].session.Some? then SessionRemoveRequest(s, a) else s;
    assert SameReleases(s, s1);
    hide SessionRemoveRequest, PoolRemoveRequest;
    if s.reqs[a].pooled { RemoveHistory(s1, a); }
  }

  /** Freeing a request releases its block once and deletes its command once,
      and nothing else is released. */
  lemma FreeEffect(s: State, a: Addr)
    requires Inv(s) && Live(s, a)
    ensures Linked(s, a)
    ensures var t := RequestFree(s, a);
            && t.reqs == s.reqs - {a}
            && t.freed == s.freed + multiset{a}
            && t.deletedCommands == s.deletedCommands + multiset{a}
            && t.deletedInterps == s.deletedInterps && t.exited == s.exited
            && t.sessions.Keys == s.sessions.Keys
  {
    LiveIsReleasable(s, a);
    assert s.reqs[a].token by { assert ReqOk(s, a); }
    FreeClosed(s, a);
    SettledHistory(s, a);
    SettledCommands(s, a);
    hide Settled;
  }

  /** Detaching the events of a live request leaves a dangling one as it is. */
  lemma DetachSparesDangling(s: State, a: Addr, i: nat)
    requires EventLinks(s) && Live(s, a) && s.reqs[a].event.Some?
    requires i < |s.queue| && s.queue[i].CallbackEvent? && s.queue[i].request.Some?
    requires !Live(s, s.queue[i].request.value)
    ensures s.queue[i].id != s.reqs[a].event.value
  {
    assert CallbackEvent(s.reqs[a].event.value, Some(a)) in s.queue;
  }

  lemma StillDangling(s: State, a: Addr)
    requires Inv(s) && Live(s, a) && !NoDangling(s)
    ensures Linked(s, a) && !NoDangling(RequestFree(s, a))
  {
    LiveIsReleasable(s, a);
    FreeClosed(s, a);
    SettledQueue(s, a);
    var i :| 0 <= i < |s.queue| && s.queue[i].CallbackEvent? && s.queue[i].request.Some? &&
             !Live(s, s.queue[i].request.value);
    if s.reqs[a].event.Some? { DetachSparesDangling(s, a, i); }
    var t := RequestFree(s, a);
    hide RequestFree, Settled, Linked, Inv;
    assert t.queue[i] == s.queue[i];
  }

  lemma DropSession(s: State, sid: Addr)
    requires Inv(s) && sid in s.sessions && s.sessions[sid] == []
    ensures Inv(s.(sessions := s.sessions - {sid}))
  {
    var t := s.(sessions := s.sessions - {sid});
    DroppedLinks(s, sid);
    hide PoolLinks, SessionLinks, EventLinks, SourceInv, HistoryInv, DeactivationOk;
    PoolFrame(s, t);
    EventDeactivation(s);
    EventFrame(s, t);
    SourceFrame(s, t);
    HistoryFrame(s, t);
    forall a | a in t.reqs ensures ReqOk(t, a) { assert ReqOk(s, a); }
  }

  lemma DroppedLinks(s: State, sid: Addr)
    requires SessionLinks(s) && sid in s.sessions && s.sessions[sid] == []
    ensures SessionLinks(s.(sessions := s.sessions - {sid}))
  {
    var t := s.(sessions := s.sessions - {sid});
    forall a | a in t.reqs && t.reqs[a].session.Some? ensures t.reqs[a].session.value in t.sessions {
      assert a in s.sessions[t.reqs[a].session.value];
    }
  }

  /** From `s` to `t`, session `sid` went, and with it exactly the requests `q`:
      each block released once, each command deleted once. */
  ghost predicate ReleasedWith(s: State, t: State, sid: Addr, q: seq<Addr>) {
    && t.reqs == s.reqs - Elements(q)
    && t.freed == s.freed + multiset(q)
    && t.deletedCommands == s.deletedCommands + multiset(q)
    && t.sessions.Keys == s.sessions.Keys - {sid}
    && t.exited == s.exited && t.deletedInterps == s.deletedInterps
  }

  lemma ReleasedStep(s: State, s1: State, t: State, sid: Addr, q: seq<Addr>)
    requires q != [] && ReleasedWith(s1, t, sid, q[1..])
    requires s1.reqs == s.reqs - {q[0]} && s1.freed == s.freed + multiset{q[0]}
    requires s1.deletedCommands == s.deletedCommands + multiset{q[0]}
    requires s1.sessions.Keys == s.sessions.Keys
    requires s1.deletedInterps == s.deletedInterps && s1.exited == s.exited
    ensures ReleasedWith(s, t, sid, q)
  {
    HeadAndTail(s.reqs, q);
  }

  /** Destroying a session releases exactly its requests, each once, deletes each
      of their commands once, and keeps everything else linked. */
  lemma {:induction false} SessionFreeKeeps(s: State, sid: Addr)
    requires Inv(s) && sid in s.sessions && !s.exited
    ensures SessionMembersLinked(s, sid)
    ensures Inv(SessionFree(s, sid)) && ReleasedWith(s, SessionFree(s, sid), sid, s.sessions[sid])
    decreases |s.sessions[sid]|
  {
    SessionMembers(s, sid);
    var q := s.sessions[sid];
    if q == [] {
      DropSession(s, sid);
      hide Inv;
      assert s.reqs - Elements(q) == s.reqs;
    } else {
      hide Inv, ReleasedWith;
      SessionPassIsFree(s, sid);
      FreeKeepsInv(s, q[0]);
      FreeEffect(s, q[0]);
      var s1 := SessionFreePass(s, sid);
      hide RequestFree, SessionFreePass, SessionMembersLinked, Linked;
      SessionFreeKeeps(s1, sid);
      ReleasedStep(s, s1, SessionFree(s1, sid), sid, q);
    }
  }

  lemma HeadAndTail(m: map<Addr, Req>, q: seq<Addr>)
    requires q != []
    ensures m - Elements(q) == (m - {q[0]}) - Elements(q[1..])
    ensures multiset(q) == multiset{q[0]} + multiset(q[1..])
  {
    assert q == [q[0]] + q[1..];
    assert Elements(q) == {q[0]} + Elements(q[1..]);
  }

  ghost predicate AbandonsAny(s: State, q: seq<Addr>) {
    exists a :: a in q && Live(s, a) && Abandons(s, a)
  }

  /** Destroying a session leaves a dangling event behind exactly when one of its
      requests is abandoned. */
  lemma {:induction false} SessionDanglesIff(s: State, sid: Addr)
    requires Inv(s) && sid in s.sessions && !s.exited
    ensures SessionMembersLinked(s, sid)
    ensures NoDangling(SessionFree(s, sid)) <==> NoDangling(s) && !AbandonsAny(s, s.sessions[sid])
    decreases |s.sessions[sid]|
  {
    SessionMembers(s, sid);
    var q := s.sessions[sid];
    if q == [] {
    } else {
      assert Live(s, q[0]);
      SessionPassIsFree(s, sid);
      FreeKeepsInv(s, q[0]);
      FreeEffect(s, q[0]);
      if NoDangling(s) { FreeDanglesIff(s, q[0]); } else { StillDangling(s, q[0]); }
      var s1 := SessionFreePass(s, sid);
      hide RequestFree, SessionFreePass, NoDangling, Inv;
      SessionDanglesIff(s1, sid);
      AbandonsHead(s, s1, q);
    }
  }

  lemma AbandonsHead(s: State, s1: State, q: seq<Addr>)
    requires q != [] && NoDuplicates(q) && Live(s, q[0]) && s1.reqs == s.reqs - {q[0]}
    requires s1.deletedInterps == s.deletedInterps
    ensures AbandonsAny(s, q) <==> Abandons(s, q[0]) || AbandonsAny(s1, q[1..])
  {
    assert q[0] !in q[1..];
    assert forall a :: a in q <==> a == q[0] || a in q[1..];
    if AbandonsAny(s, q) {
      var a :| a in q && Live(s, a) && Abandons(s, a);
      if a != q[0] { assert a in q[1..] && Live(s1, a) && Abandons(s1, a); }
    }
    if AbandonsAny(s1, q[1..]) {
      var a :| a in q[1..] && Live(s1, a) && Abandons(s1, a);
      assert a in q && Live(s, a) && Abandons(s, a);
    }
  }
}
