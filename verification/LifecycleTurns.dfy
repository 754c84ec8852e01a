/** What every operation but the check procedure has in common: it queues no
    deactivation, and the callbacks it queues are added to those queued before. */
module LifecycleTurns {
  import opened Common
  import opened Lifecycle
  import opened LifecycleInvariant
  import opened LifecycleExit
  import opened LifecycleCreation

  /** From `s` to `t` callback events at most have been queued, and none for a request
      that was gone before. */
  ghost predicate Onward(s: State, t: State) {
    && t.exited == s.exited
    && (Quiet(s) ==> Quiet(t))
    && (forall a: Addr :: s.scheduled[a] <= t.scheduled[a])
    && (forall a: Addr :: IsGone(s, a) ==> IsGone(t, a) && t.scheduled[a] == s.scheduled[a])
  }

  /** The address was used, and its block has been released. */
  predicate IsGone(s: State, a: Addr) {
    a < s.nextReq && a !in s.reqs
  }

  lemma OnwardTrans(s: State, t: State, u: State)
    requires Onward(s, t) && Onward(t, u)
    ensures Onward(s, u)
  {
    hide Quiet, IsGone;
    assert forall a: Addr :: s.scheduled[a] <= t.scheduled[a] <= u.scheduled[a];
  }

  /** The fields that decide are the same. */
  lemma OnwardSame(s: State, t: State)
    requires t.exited == s.exited && t.queue == s.queue && t.scheduled == s.scheduled
    requires s.nextReq <= t.nextReq && forall a :: a in t.reqs ==> a in s.reqs || s.nextReq <= a
    ensures Onward(s, t)
  {}

  lemma ScheduleOnward(s: State, a: Addr)
    requires Live(s, a)
    ensures Onward(s, ScheduleCallback(s, a))
  {}

  lemma AfterLeavingOnward(s: State, a: Addr)
    requires Live(s, a)
    ensures Onward(s, AfterLeaving(s, a))
  {
    OnwardSame(s, SetError(s, a));
    ScheduleOnward(SetError(s, a), a);
    hide Onward, ScheduleCallback, SetError;
    OnwardTrans(s, SetError(s, a), ScheduleCallback(SetError(s, a), a));
    OnwardSame(s, s);
  }

  lemma RemoveOnward(s: State, a: Addr)
    requires Live(s, a) && s.pool.Some?
    ensures Onward(s, PoolRemoveRequest(s, a))
  {
    var l := LeavePool(s, a);
    assert Onward(s, l) by { hide MultiRemove, RemoveFirst; }
    hide Onward, PoolRemoveRequest, LeavePool, AfterLeaving;
    RemoveIsLeaving(s, a);
    AfterLeavingOnward(l, a);
    OnwardTrans(s, l, AfterLeaving(l, a));
  }

  // ----------------------------------------------------------- releasing requests

  lemma DetachQuiet(s: State, e: nat)
    ensures Onward(s, s.(queue := Detach(s.queue, e)))
  {}

  lemma UnlinkOnward(s: State, a: Addr)
    requires Linked(s, a)
    ensures Onward(s, Unlink(s, a))
  {
    var r := s.reqs[a];
    var s1 := if r.event.Some? then s.(queue := Detach(s.queue, r.event.value)) else s;
    var s2 := if r.session.Some? then SessionRemoveRequest(s1, a) else s1;
    if r.event.Some? { DetachQuiet(s, r.event.value); }
    OnwardSame(s1, s2) by { hide RemoveFirst; }
    OnwardSame(s, s);
    hide Onward, PoolRemoveRequest, SessionRemoveRequest, Detach;
    OnwardTrans(s, s1, s2);
    if r.pooled {
      RemoveOnward(s2, a);
      OnwardTrans(s, s2, PoolRemoveRequest(s2, a));
    }
  }

  lemma FreeTailOnward(u: State, a: Addr)
    requires Live(u, a)
    ensures var d := u.(reqs := u.reqs[a := u.reqs[a].(isDead := true)]);
      Onward(u, DeleteCommand(d, a))
  {
    var d := u.(reqs := u.reqs[a := u.reqs[a].(isDead := true)]);
    var d1 := d.(commands := d.commands - {a}, deletedCommands := d.deletedCommands + multiset{a});
    assert HandleDelete(d1, a) == d1;
    assert DeleteCommand(d, a) == d1;
    OnwardSame(u, d1);
  }

  lemma FreeOnward(s: State, a: Addr)
    requires Linked(s, a)
    ensures Onward(s, RequestFree(s, a))
  {
    var u := Unlink(s, a);
    UnlinkOnward(s, a);
    FreeTailOnward(u, a);
    hide Onward, Unlink, DeleteCommand;
    var s2 := if u.reqs[a].token then DeleteCommand(u.(reqs := u.reqs[a := u.reqs[a].(isDead := true)]), a) else u;
    OnwardSame(u, u);
    OnwardTrans(s, u, s2);
    OnwardSame(s2, RequestFree(s, a));
    OnwardTrans(s, s2, RequestFree(s, a));
  }

  lemma DeleteOnward(s: State, a: Addr)
    requires Live(s, a) && (s.reqs[a].isDead || Linked(s, a))
    ensures Onward(s, DeleteCommand(s, a))
  {
    var s1 := s.(commands := s.commands - {a}, deletedCommands := s.deletedCommands + multiset{a});
    OnwardSame(s, s1);
    if s.reqs[a].isDead {
      assert HandleDelete(s1, a) == s1;
    } else {
      var s2 := s1.(reqs := s1.reqs[a := s1.reqs[a].(token := false)]);
      assert HandleDelete(s1, a) == RequestFree(s2, a);
      OnwardSame(s, s2);
      hide Onward, RequestFree;
      FreeOnward(s2, a);
      OnwardTrans(s, s2, RequestFree(s2, a));
    }
  }

  lemma {:induction false} SessionOnward(s: State, sid: Addr)
    requires SessionMembersLinked(s, sid)
    ensures Onward(s, SessionFree(s, sid))
    decreases |s.sessions[sid]|
  {
    if s.sessions[sid] == [] {
      OnwardSame(s, SessionFree(s, sid));
    } else {
      var a := s.sessions[sid][0];
      var s1 := s.(reqs := s.reqs[a := s.reqs[a].(session := None)]);
      var s3 := SessionFreePass(s, sid);
      OnwardSame(s, s1);
      FreeOnward(s1, a);
      OnwardSame(RequestFree(s1, a), s3);
      hide Onward, RequestFree, SessionFreePass, SessionMembersLinked;
      OnwardTrans(s, s1, RequestFree(s1, a));
      OnwardTrans(s, RequestFree(s1, a), s3);
      SessionOnward(s3, sid);
      OnwardTrans(s, s3, SessionFree(s3, sid));
    }
  }

  lemma CreateOnward(s: State, sid: Option<Addr>, o: RequestOptions, out: RunOutcome)
    requires (sid.Some? ==> sid.value in s.sessions) && RunFits(o, out) && s.nextReq !in s.reqs
    requires o.interp !in s.deletedInterps
    ensures Onward(s, CreateRequest(s, sid, o, out))
  {
    hide CreateRequest;
    CreateFrame(s, sid, o, out);
  }

  // ------------------------------------------------------------ the thread's exit

  lemma {:induction false} ExitLoopOnward(s: State)
    requires s.pool.Some? && s.pool.value.isDead && PoolMembersLive(s)
    ensures Onward(s, PoolFreeLoop(s))
    decreases |s.pool.value.requests|
  {
    if s.pool.value.requests == [] {
      OnwardSame(s, s);
    } else {
      var a := s.pool.value.requests[0];
      var s1 := PoolFreePass(s);
      RemoveOnward(s, a);
      OnwardSame(PoolRemoveRequest(s, a), s1);
      hide Onward, PoolFreePass, PoolRemoveRequest;
      OnwardTrans(s, PoolRemoveRequest(s, a), s1);
      ExitLoopOnward(s1);
      OnwardTrans(s, s1, PoolFreeLoop(s1));
    }
  }
}
