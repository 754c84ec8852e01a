/** The release of the pool when the thread exits. */
module LifecycleExit {
  import opened Common
  import opened Lifecycle
  import opened LifecycleInvariant
  import opened LifecycleRelease

  function SetDead(s: State, dead: bool): State
    requires s.pool.Some?
  {
    s.(pool := Some(s.pool.value.(isDead := dead)))
  }

  /** What treq_PoolRemoveRequest() does once the request has left. */
  function AfterLeaving(s: State, a: Addr): State
    requires Live(s, a)
  {
    if s.reqs[a].state == InProgress && s.reqs[a].interp !in s.deletedInterps
    then ScheduleCallback(SetError(s, a), a)
    else s
  }

  lemma RemoveIsLeaving(s: State, a: Addr)
    requires Live(s, a) && s.pool.Some?
    ensures PoolRemoveRequest(s, a) == AfterLeaving(LeavePool(s, a), a)
  {
    hide MultiRemove, RemoveFirst, SetError, ScheduleCallback;
  }

  lemma LeavingIgnoresPool(s: State, a: Addr, p: Option<Pool>)
    requires Live(s, a)
    ensures AfterLeaving(s.(pool := p), a) == AfterLeaving(s, a).(pool := p)
    ensures AfterLeaving(s, a).pool == s.pool
  {}

  lemma LeaveDead(s: State)
    requires s.pool.Some? && s.pool.value.isDead && s.pool.value.requests != [] && PoolMembersLive(s)
    ensures Live(s, s.pool.value.requests[0])
    ensures var l := LeavePool(s, s.pool.value.requests[0]);
            LeavePool(SetDead(s, false), s.pool.value.requests[0]) ==
            l.(pool := Some(l.pool.value.(isDead := false, requests := s.pool.value.requests[1..])))
    ensures LeavePool(s, s.pool.value.requests[0]).pool.value.isDead
    ensures LeavePool(s, s.pool.value.requests[0]).pool.value.requests == s.pool.value.requests
  {
    hide MultiRemove;
  }

  /** In a dead pool the loop's own step takes the place of the list removal. */
  lemma PassIsRemove(s: State)
    requires s.pool.Some? && s.pool.value.isDead && s.pool.value.requests != [] && PoolMembersLive(s)
    ensures var a := s.pool.value.requests[0];
            Live(s, a) && PoolFreePass(s) == SetDead(PoolRemoveRequest(SetDead(s, false), a), true)
  {
    LeaveDead(s);
    var a := s.pool.value.requests[0];
    hide LeavePool, AfterLeaving, PoolRemoveRequest;
    RemoveIsLeaving(s, a);
    RemoveIsLeaving(SetDead(s, false), a);
    LeavingIgnoresPool(LeavePool(s, a), a, LeavePool(SetDead(s, false), a).pool);
    LeavingIgnoresPool(LeavePool(s, a), a, LeavePool(s, a).pool);
  }

  lemma DeadKeeps(s: State, dead: bool)
    requires Global(s) && s.exited && s.pool.Some?
    ensures Global(SetDead(s, dead))
  {
    var t := SetDead(s, dead);
    assert PoolLinks(t) by { hide MultiOk; }
    SessionFrame(s, t);
    EventDeactivation(s);
    EventFrame(s, t);
    HistoryFrame(s, t);
    hide PoolLinks, SessionLinks, EventLinks, HistoryInv;
  }

  /** What becomes of a pooled request when the pool is released: one that is in
      progress fails and, if its interpreter is there, has its callback queued. */
  ghost predicate Expelled(s: State, t: State, a: Addr)
    requires Live(s, a) && Live(t, a)
  {
    var r, r1 := s.reqs[a], t.reqs[a];
    var fails := r.state == InProgress && r.interp !in s.deletedInterps;
    && r1 == r.(pooled := false, state := if fails then Error else r.state,
        error := fails || r.error, event := r1.event)
    && (r1.event.Some? <==> r.event.Some? || Abandons(s, a))
    && t.scheduled[a] == s.scheduled[a] + if Abandons(s, a) then 1 else 0
  }

  ghost predicate Untouched(s: State, t: State, a: Addr)
    requires Live(s, a) && Live(t, a)
  {
    t.reqs[a] == s.reqs[a] && t.scheduled[a] == s.scheduled[a]
  }

  /** The requests `q` have been expelled, each once; nobody else is affected. */
  ghost predicate ExpelledAll(s: State, t: State, q: seq<Addr>) {
    && t.reqs.Keys == s.reqs.Keys
    && t.deletedInterps == s.deletedInterps && t.exited == s.exited
    && forall a :: a in s.reqs ==> if a in q then Expelled(s, t, a) else Untouched(s, t, a)
  }

  lemma LeaveFrame(s: State, a: Addr)
    requires Live(s, a) && s.pool.Some?
    ensures var l := LeavePool(s, a);
            && l.reqs == s.reqs[a := s.reqs[a].(pooled := false)]
            && l.deletedInterps == s.deletedInterps && l.scheduled == s.scheduled && l.exited == s.exited
  {
    hide MultiRemove, RemoveFirst;
  }

  lemma AfterLeavingOne(l: State, t: State, a: Addr)
    requires Live(l, a) && t == AfterLeaving(l, a)
    ensures a in t.reqs && t.reqs == l.reqs[a := t.reqs[a]]
    ensures t.deletedInterps == l.deletedInterps && t.exited == l.exited
    ensures var r := l.reqs[a];
            var fails := r.state == InProgress && r.interp !in l.deletedInterps;
            && t.reqs[a] == r.(state := if fails then Error else r.state,
                error := fails || r.error, event := t.reqs[a].event)
            && t.reqs[a].event == (if fails && r.callback then Some(l.nextEvent) else r.event)
            && t.scheduled == (if fails && r.callback then l.scheduled + multiset{a} else l.scheduled)
  {}

  lemma RemoveExpels(s: State, a: Addr)
    requires Live(s, a) && s.pool.Some? && s.reqs[a].pooled
    ensures ExpelledAll(s, PoolRemoveRequest(s, a), [a])
  {
    var t := PoolRemoveRequest(s, a);
    hide LeavePool, AfterLeaving, PoolRemoveRequest;
    RemoveIsLeaving(s, a);
    LeaveFrame(s, a);
    AfterLeavingOne(LeavePool(s, a), t, a);
    forall b | b in s.reqs && b != a ensures Untouched(s, t, b) {}
  }

  lemma ExpelledJoin(s: State, t: State, u: State, q: seq<Addr>)
    requires q != [] && NoDuplicates(q)
    requires ExpelledAll(s, t, [q[0]]) && ExpelledAll(t, u, q[1..])
    ensures ExpelledAll(s, u, q)
  {
    assert q == [q[0]] + q[1..];
    assert q[0] !in q[1..];
    forall a | a in s.reqs ensures if a in q then Expelled(s, u, a) else Untouched(s, u, a) {
      assert a in q <==> a == q[0] || a in q[1..];
    }
  }

  /** The requests that are still in the pool have no event pending. */
  ghost predicate Fresh(s: State) {
    forall a :: a in s.reqs && s.reqs[a].pooled ==> s.reqs[a].event.None? && s.scheduled[a] == 0
  }

  lemma MembersLive(s: State)
    requires Global(s)
    ensures PoolMembersLive(s)
    ensures s.pool.Some? ==> NoDuplicates(s.pool.value.requests)
    ensures s.pool.Some? ==> forall a :: a in s.pool.value.requests <==> a in s.reqs && s.reqs[a].pooled
  {
    if s.pool.Some? {
      var q := s.pool.value.requests;
      forall i | 0 <= i < |q| ensures q[i] in s.reqs { assert q[i] in q; }
    }
  }

  lemma FreshAfter(s: State, t: State, q: seq<Addr>)
    requires Fresh(s) && ExpelledAll(s, t, q)
    ensures Fresh(t)
  {}

  ghost predicate Exiting(s: State) {
    Global(s) && s.exited && s.pool.Some? && s.pool.value.isDead && Fresh(s) && Quiet(s)
  }

  lemma PassExpels(s: State)
    requires Exiting(s) && s.pool.value.requests != []
    ensures PoolMembersLive(s)
    ensures var t := PoolFreePass(s);
            && Exiting(t)
            && t.pool.value.requests == s.pool.value.requests[1..]
            && ExpelledAll(s, t, [s.pool.value.requests[0]])
  {
    MembersLive(s);
    PassIsRemove(s);
    var a := s.pool.value.requests[0];
    assert a in s.pool.value.requests;
    var s0 := SetDead(s, false);
    DeadKeeps(s, false);
    hide Global, PoolFreePass, PoolRemoveRequest, OthersOk, ExpelledAll, Quiet, PoolMembersLive;
    RemoveKeeps(s0, a);
    RemoveExpels(s0, a);
    var s1 := PoolRemoveRequest(s0, a);
    ExitedSame(s0, a);
    DeadKeeps(s1, true);
    RequestsTail(s0, a);
    ExpelledShift(s, s0, s1, SetDead(s1, true), [a]);
    FreshAfter(s, SetDead(s1, true), [a]);
    QuietAfter(s, s0, a);
  }

  lemma QuietAfter(s: State, s0: State, a: Addr)
    requires Quiet(s) && s.pool.Some? && s0 == SetDead(s, false) && Live(s0, a)
    ensures Quiet(SetDead(PoolRemoveRequest(s0, a), true))
  {}

  /** The freeing loop visits every pooled request once and empties the list. */
  lemma {:induction false} LoopExpels(s: State)
    requires Exiting(s)
    ensures PoolMembersLive(s)
    ensures var t := PoolFreeLoop(s);
            Exiting(t) && ExpelledAll(s, t, s.pool.value.requests) && t.pool.value.requests == []
    decreases |s.pool.value.requests|
  {
    MembersLive(s);
    var q := s.pool.value.requests;
    if q == [] {
      hide Exiting;
    } else {
      hide Exiting, ExpelledAll, PoolMembersLive, PoolFreePass;
      PassExpels(s);
      var s1 := PoolFreePass(s);
      LoopExpels(s1);
      ExpelledJoin(s, s1, PoolFreeLoop(s1), q);
    }
  }

  lemma ExitedSame(s: State, a: Addr)
    requires Live(s, a) && s.pool.Some?
    ensures PoolRemoveRequest(s, a).exited == s.exited
  {}

  lemma RequestsTail(s: State, a: Addr)
    requires Live(s, a) && s.pool.Some? && !s.pool.value.isDead
    requires s.pool.value.requests != [] && s.pool.value.requests[0] == a
    ensures PoolRemoveRequest(s, a).pool.value.requests == s.pool.value.requests[1..]
  {}

  lemma ExpelledShift(s: State, s0: State, t0: State, t: State, q: seq<Addr>)
    requires s.pool.Some? && t0.pool.Some? && s0 == SetDead(s, false) && t == SetDead(t0, true)
    requires ExpelledAll(s0, t0, q)
    ensures ExpelledAll(s, t, q)
  {
    forall a | a in s.reqs ensures if a in q then Expelled(s, t, a) else Untouched(s, t, a) {}
  }

  lemma InvFresh(s: State)
    requires Inv(s)
    ensures Fresh(s)
  {
    forall a | a in s.reqs && s.reqs[a].pooled ensures s.reqs[a].event.None? && s.scheduled[a] == 0 {
      assert ReqOk(s, a);
    }
  }

  lemma ExitStart(s: State)
    requires Inv(s)
    ensures Global(s.(exited := true))
  {
    var t := s.(exited := true);
    PoolExit(s, t);
    SessionFrame(s, t);
    EventDeactivation(s);
    EventFrame(s, t);
  }

  lemma PoolExit(s: State, t: State)
    requires PoolLinks(s) && t == s.(exited := true)
    ensures PoolLinks(t)
  {}

  lemma ExitEnd(s: State)
    requires Global(s) && s.exited && s.pool.Some? && s.pool.value.requests == [] && Quiet(s)
    ensures Global(s.(pool := None))
  {
    var t := s.(pool := None);
    SessionFrame(s, t);
    EventFrame(s, t);
    HistoryFrame(s, t);
    hide SessionLinks, EventLinks, HistoryInv;
    assert PoolLinks(t);
  }

  ghost predicate Pooled(s: State, a: Addr) {
    a in s.reqs && s.reqs[a].pooled
  }

  /** When the thread exits the pool goes. Every pooled request is expelled, each
      once: one in progress ends in error and, when it wants a callback and its
      interpreter is there, has exactly one queued. Nobody else is affected. */
  lemma ExitEffect(s: State)
    requires Inv(s) && !s.exited && Quiet(s)
    ensures PoolMembersLive(s)
    ensures var t := ThreadExit(s);
            && t.pool.None? && Global(t)
            && t.reqs.Keys == s.reqs.Keys
            && forall a :: a in s.reqs ==> if Pooled(s, a) then Expelled(s, t, a) else Untouched(s, t, a)
  {
    MembersLive(s);
    InvFresh(s);
    ExitStart(s);
    var s0 := s.(exited := true);
    if s.pool.None? {
      hide Global;
    } else {
      assert Exiting(SetDead(s0, true)) by {
        DeadKeeps(s0, true);
        hide Global;
      }
      LoopExpels(SetDead(s0, true));
      ExitEnd(PoolFreeLoop(SetDead(s0, true)));
      ExitSpread(s, PoolFreeLoop(SetDead(s0, true)));
      hide Inv, Global, PoolFreeLoop, Exiting, ExpelledAll;
    }
  }

  lemma ExitSpread(s: State, t: State)
    requires s.pool.Some? && ExpelledAll(SetDead(s.(exited := true), true), t, s.pool.value.requests)
    requires forall a :: a in s.pool.value.requests <==> Pooled(s, a)
    ensures forall a :: a in s.reqs ==>
              if Pooled(s, a) then Expelled(s, t.(pool := None), a) else Untouched(s, t.(pool := None), a)
  {
    var s1 := SetDead(s.(exited := true), true);
    forall a | a in s.reqs
      ensures if Pooled(s, a) then Expelled(s, t.(pool := None), a) else Untouched(s, t.(pool := None), a)
    {
      assert if a in s.pool.value.requests then Expelled(s1, t, a) else Untouched(s1, t, a);
    }
  }
}
