/** How requests move over a run. */
module LifecycleProgress {
  import opened Common
  import opened Lifecycle
  import opened LifecycleInvariant
  import opened LifecycleRelease
  import opened LifecyclePool
  import opened LifecycleExit
  import opened LifecycleSteps
  import opened LifecycleCreation
  import opened LifecycleRuns

  // --------------------------------------------------------- honest completions

  /** No undelivered message reports success for a request that recorded a failed
      write. libcurl ends a transfer whose write callback fails with an error. */
  ghost predicate Honest(s: State) {
    s.pool.Some? ==>
      forall m :: m in s.pool.value.multi.msgs && m.ok && Live(s, m.handle) ==> s.reqs[m.handle].state != Error
  }

  /** What decides honesty: the messages shrink and their requests keep their state. */
  ghost predicate HonestFrame(s: State, t: State) {
    t.pool.Some? ==>
      && (forall m :: m in t.pool.value.multi.msgs ==> s.pool.Some? && m in s.pool.value.multi.msgs)
      && (forall m :: m in t.pool.value.multi.msgs && Live(t, m.handle) ==>
            Live(s, m.handle) && t.reqs[m.handle].state == s.reqs[m.handle].state)
  }

  lemma FrameHonest(s: State, t: State)
    requires Honest(s) && HonestFrame(s, t)
    ensures Honest(t)
  {}

  lemma FrameTrans(s: State, t: State, u: State)
    requires HonestFrame(s, t) && HonestFrame(t, u)
    ensures HonestFrame(s, u)
  {}

  /** A request that is not attached to libcurl may change freely. */
  lemma FrameOutside(s: State, t: State, a: Addr)
    requires s.pool.Some? ==> forall m :: m in s.pool.value.multi.msgs ==> m.handle != a
    requires t.pool.Some? && t.pool.value.multi.msgs != [] ==>
            s.pool.Some? && t.pool.value.multi.msgs == s.pool.value.multi.msgs
    requires forall b :: b in t.reqs && b != a ==> b in s.reqs && t.reqs[b] == s.reqs[b]
    ensures HonestFrame(s, t)
  {}

  lemma MessagesPooled(s: State)
    requires Inv(s)
    ensures s.pool.Some? ==> forall m :: m in s.pool.value.multi.msgs ==> Live(s, m.handle) && s.reqs[m.handle].pooled
  {
    if s.pool.Some? {
      forall m | m in s.pool.value.multi.msgs ensures Live(s, m.handle) && s.reqs[m.handle].pooled {
        MessageOwner(s, m);
      }
    }
  }

  lemma RemoveFrame(s: State, a: Addr)
    requires Live(s, a) && s.pool.Some?
    ensures HonestFrame(s, PoolRemoveRequest(s, a))
  {
    WithoutHandleShrinks(s.pool.value.multi.msgs, a);
  }

  lemma SettledFrame(s: State, a: Addr)
    requires Linked(s, a)
    ensures HonestFrame(s, Settled(s, a))
  {
    var s1 := if s.reqs[a].session.Some? then SessionRemoveRequest(s, a) else s;
    assert HonestFrame(s, s1);
    if s.reqs[a].pooled { RemoveFrame(s1, a); FrameTrans(s, s1, PoolRemoveRequest(s1, a)); }
  }

  lemma FreeFrame(s: State, a: Addr)
    requires Inv(s) && Live(s, a)
    ensures Linked(s, a) && HonestFrame(s, RequestFree(s, a))
  {
    LiveIsReleasable(s, a);
    FreeClosed(s, a);
    SettledFrame(s, a);
    var u := Settled(s, a);
    hide Inv, Settled, Releasable;
    assert HonestFrame(u, RequestFree(s, a));
    FrameTrans(s, u, RequestFree(s, a));
  }

  lemma {:induction false} SessionFrameHonest(s: State, sid: Addr)
    requires Inv(s) && sid in s.sessions && !s.exited
    ensures SessionMembersLinked(s, sid) && HonestFrame(s, SessionFree(s, sid))
    decreases |s.sessions[sid]|
  {
    SessionMembers(s, sid);
    if s.sessions[sid] == [] {
      hide Inv;
    } else {
      var a := s.sessions[sid][0];
      SessionPassIsFree(s, sid);
      FreeKeepsInv(s, a);
      FreeEffect(s, a);
      FreeFrame(s, a);
      var s1 := SessionFreePass(s, sid);
      hide Inv, RequestFree, SessionFreePass, HonestFrame, SessionMembersLinked;
      SessionFrameHonest(s1, sid);
      FrameTrans(s, s1, SessionFree(s1, sid));
    }
  }

  lemma CheckHonest(s: State, c: CheckInput)
    requires Inv(s) && CheckEnabled(s, c) && Honest(s)
    ensures MessagesLive(s) && AllLive(s, c.completions) && Honest(EventCheck(s, c))
  {
    CheckKeeps(s, c);
    if c.fileEvents {
      if s.pool.value.needRefresh {
        var s1 := s.(pool := Some(s.pool.value.(needRefresh := false)));
        RefreshedKeeps(s);
        PerformHonest(s1, c.performOk, c.completions);
      } else if c.wait.WaitReady? {
        PerformHonest(s, c.performOk, c.completions);
      }
    }
    hide Inv, PerformAndDrain;
  }

  lemma PerformHonest(s: State, performOk: bool, completions: seq<Msg>)
    requires Inv(s) && !s.exited && Quiet(s) && s.pool.Some? && s.pool.value.isActive
    requires CanComplete(s, completions) && Honest(s)
    ensures MessagesLive(s) && AllLive(s, completions) && Honest(PerformAndDrain(s, performOk, completions))
  {
    PerformAndDrainKeeps(s, performOk, completions);
    hide Inv, Quiet, MessagesLive, AllLive;
    if performOk {
      hide PerformAndDrain;
    } else {
      var t := PerformAndDrain(s, performOk, completions);
      assert t == SetMulti(s, MultiPerform(s.pool.value.multi, completions));
      hide PerformAndDrain;
      forall m | m in t.pool.value.multi.msgs && m.ok && Live(t, m.handle) ensures t.reqs[m.handle].state != Error {
        assert m in s.pool.value.multi.msgs || m in completions;
      }
    }
  }

  lemma StepHonest(s: State, l: Label)
    requires Inv(s) && Enabled(s, l) && InTurn(s, l) && Honest(s)
    ensures Step(s, l).Next? ==> Honest(Step(s, l).state)
  {
    FaultOnlyByServing(s, l);
    match l {
      case NewSession => hide Inv;
      case NewRequest(sid, o, out) =>
        HistoryBounds(s);
        MessagesPooled(s);
        CreateFrame(s, sid, o, out);
        FrameOutside(s, CreateRequest(s, sid, o, out), s.nextReq);
        FrameHonest(s, CreateRequest(s, sid, o, out));
        hide Inv;
      case DestroyRequest(a) =>
        LiveIsReleasable(s, a);
        assert s.reqs[a].token;
        SameEndFromEitherSide(s, a);
        FreeFrame(s, a);
        FrameHonest(s, RequestFree(s, a));
        hide Inv;
      case DestroySession(sid) =>
        SessionFrameHonest(s, sid);
        FrameHonest(s, SessionFree(s, sid));
        hide Inv;
      case FailWrite(a) => WriteHonest(s, a); hide Inv;
      case PoolCheck(c) => assert s.pool.Some?; CheckHonest(s, c); hide Inv;
      case ServeEvent(f) => ServeHonest(s, f); hide Inv;
      case LoseInterp(i) => hide Inv;
      case ExitThread => ExitEffect(s); hide Inv;
    }
  }

  lemma WriteHonest(s: State, a: Addr)
    requires Inv(s) && Honest(s) && s.pool.Some? && a in s.pool.value.multi.running && Live(s, a)
    ensures Honest(WriteFails(s, a))
  {
    assert forall m :: m in s.pool.value.multi.msgs ==> m.handle != a;
    hide Inv;
  }

  lemma ServeHonest(s: State, f: bool)
    requires Inv(s) && Honest(s)
    ensures ServeDefined(s) && (Service(s, f).Next? ==> Honest(Service(s, f).state))
  {
    FaultIff(s, f);
    hide Inv;
  }

  // ------------------------------------------------------------ how requests move

  /** A request goes from in progress to done or to error; done is never left,
      neither is error, a recorded error stays, and nobody re-enters the pool. */
  predicate Moves(r: Req, r1: Req) {
    && (r1.state == r.state || (r.state == InProgress && (r1.state == Done || r1.state == Error)))
    && r1.interp == r.interp && r1.async == r.async && r1.callback == r.callback
    && (r.error ==> r1.error)
    && (r1.pooled ==> r.pooled)
  }

  ghost predicate Evolves(s: State, t: State) {
    && s.nextReq <= t.nextReq
    && forall a :: a in t.reqs ==> s.nextReq <= a || (a in s.reqs && Moves(s.reqs[a], t.reqs[a]))
  }

  lemma EvolvesTrans(s: State, t: State, u: State)
    requires Evolves(s, t) && Evolves(t, u)
    ensures Evolves(s, u)
  {}

  lemma EvolvesShrink(s: State, t: State)
    requires t.nextReq >= s.nextReq
    requires forall a :: a in t.reqs ==> s.nextReq <= a || (a in s.reqs && t.reqs[a] == s.reqs[a])
    ensures Evolves(s, t)
  {}

  lemma DrainEvolves(s: State)
    requires Inv(s) && !s.exited && s.pool.Some? && Honest(s)
    ensures MessagesLive(s) && Evolves(s, Drain(s))
  {
    MessagesPooled(s);
    var msgs := s.pool.value.multi.msgs;
    forall m | m in msgs ensures s.reqs[m.handle].state == InProgress || s.reqs[m.handle].state == Error {
      PooledState(s, m.handle);
    }
    hide Inv, Drain, MessagesLive;
    DrainEffect(s);
    DrainExact(s);
    DrainedEvolves(s, Drain(s), msgs);
  }

  lemma DrainedEvolves(s: State, t: State, msgs: seq<Msg>)
    requires AllLive(s, msgs) && Drained(s, t, msgs) && t.nextReq == s.nextReq
    requires forall m :: m in msgs ==> Live(s, m.handle)
    requires forall m :: m in msgs ==> s.reqs[m.handle].state == InProgress || s.reqs[m.handle].state == Error
    requires forall m :: m in msgs && m.ok ==> s.reqs[m.handle].state != Error
    ensures Evolves(s, t)
  {
    forall a | a in t.reqs ensures a in s.reqs && Moves(s.reqs[a], t.reqs[a]) {
      if a in Handles(msgs) {
        var i :| 0 <= i < |msgs| && msgs[i].handle == a;
        assert msgs[i] in msgs && Settles(s.reqs[a], t.reqs[a], msgs[i].ok);
      }
    }
  }

  lemma PooledState(s: State, a: Addr)
    requires Inv(s) && Live(s, a) && s.reqs[a].pooled
    ensures s.reqs[a].state == InProgress || s.reqs[a].state == Error
  {
    assert ReqOk(s, a);
  }

  lemma PerformEvolves(s: State, performOk: bool, completions: seq<Msg>)
    requires Inv(s) && !s.exited && s.pool.Some? && CanComplete(s, completions) && Honest(s)
    ensures MessagesLive(s) && AllLive(s, completions) && Evolves(s, PerformAndDrain(s, performOk, completions))
  {
    MessagesAreLive(s);
    CompletionsLive(s, completions);
    PerformKeeps(s, completions);
    var s1 := SetMulti(s, MultiPerform(s.pool.value.multi, completions));
    assert Honest(s1) by { hide Inv, MessagesLive, AllLive; }
    assert Evolves(s, s1);
    assert !s1.exited && s1.pool.Some?;
    DrainEvolves(s1);
    EvolvesTrans(s, s1, Drain(s1));
    hide Inv, Drain, MessagesLive, AllLive, CanComplete, Honest;
  }

  lemma CheckEvolves(s: State, c: CheckInput)
    requires Inv(s) && CheckEnabled(s, c) && Honest(s)
    ensures MessagesLive(s) && AllLive(s, c.completions) && Evolves(s, EventCheck(s, c))
  {
    CheckKeeps(s, c);
    if c.fileEvents {
      if s.pool.value.needRefresh {
        var s1 := s.(pool := Some(s.pool.value.(needRefresh := false)));
        RefreshedKeeps(s);
        PerformEvolves(s1, c.performOk, c.completions);
      } else if c.wait.WaitReady? {
        PerformEvolves(s, c.performOk, c.completions);
      }
    }
    hide Inv, PerformAndDrain;
  }

  lemma ExitEvolves(s: State)
    requires Inv(s) && !s.exited && Quiet(s)
    ensures PoolMembersLive(s) && Evolves(s, ThreadExit(s))
  {
    ExitEffect(s);
    ExitNext(s);
    var t := ThreadExit(s);
    hide Inv, Global, ThreadExit;
    forall a | a in t.reqs ensures a in s.reqs && Moves(s.reqs[a], t.reqs[a]) {
      assert if Pooled(s, a) then Expelled(s, t, a) else Untouched(s, t, a);
    }
  }

  lemma ExitNext(s: State)
    requires PoolMembersLive(s)
    ensures ThreadExit(s).nextReq == s.nextReq && ThreadExit(s).invoked == s.invoked
    ensures ThreadExit(s).deletedInterps == s.deletedInterps
  {
    if s.pool.Some? { LoopNext(SetDead(s.(exited := true), true)); }
  }

  lemma {:induction false} LoopNext(s: State)
    requires s.pool.Some? && s.pool.value.isDead && PoolMembersLive(s)
    ensures PoolFreeLoop(s).nextReq == s.nextReq && PoolFreeLoop(s).invoked == s.invoked
    ensures PoolFreeLoop(s).deletedInterps == s.deletedInterps
    decreases |s.pool.value.requests|
  {
    if s.pool.value.requests != [] {
      assert PoolFreePass(s).nextReq == s.nextReq && PoolFreePass(s).invoked == s.invoked;
      assert PoolFreePass(s).deletedInterps == s.deletedInterps;
      LoopNext(PoolFreePass(s));
    }
  }

  lemma FreeNext(s: State, a: Addr)
    requires Inv(s) && Live(s, a)
    ensures Linked(s, a) && RequestFree(s, a).nextReq == s.nextReq && RequestFree(s, a).invoked == s.invoked
  {
    LiveIsReleasable(s, a);
    FreeClosed(s, a);
    SettledHistory(s, a);
    hide Inv, Settled;
  }

  lemma {:induction false} SessionNext(s: State, sid: Addr)
    requires Inv(s) && sid in s.sessions && !s.exited
    ensures SessionMembersLinked(s, sid)
    ensures SessionFree(s, sid).nextReq == s.nextReq && SessionFree(s, sid).invoked == s.invoked
    ensures SessionFree(s, sid).deletedInterps == s.deletedInterps
    decreases |s.sessions[sid]|
  {
    SessionMembers(s, sid);
    if s.sessions[sid] != [] {
      var a := s.sessions[sid][0];
      SessionPassIsFree(s, sid);
      FreeKeepsInv(s, a);
      FreeEffect(s, a);
      FreeNext(s, a);
      var s1 := SessionFreePass(s, sid);
      hide Inv, RequestFree, SessionFreePass, SessionMembersLinked;
      SessionNext(s1, sid);
    }
  }

  lemma DestroyEvolves(s: State, a: Addr)
    requires Inv(s) && Live(s, a)
    ensures Linked(s, a) && DeleteCommand(s, a) == RequestFree(s, a) && Evolves(s, RequestFree(s, a))
  {
    LiveIsReleasable(s, a);
    assert s.reqs[a].token;
    SameEndFromEitherSide(s, a);
    FreeEffect(s, a);
    FreeNext(s, a);
    hide Inv, RequestFree, DeleteCommand;
    EvolvesShrink(s, RequestFree(s, a));
  }

  lemma SessionEvolves(s: State, sid: Addr)
    requires Inv(s) && sid in s.sessions && !s.exited
    ensures SessionMembersLinked(s, sid) && Evolves(s, SessionFree(s, sid))
  {
    SessionFreeKeeps(s, sid);
    SessionNext(s, sid);
    hide Inv, SessionFree;
    EvolvesShrink(s, SessionFree(s, sid));
  }

  lemma ServeEvolves(s: State, f: bool)
    requires ServeDefined(s) && Service(s, f).Next?
    ensures Evolves(s, Service(s, f).state)
  {}

  lemma StepEvolves(s: State, l: Label)
    requires Inv(s) && Enabled(s, l) && InTurn(s, l) && Honest(s)
    ensures Step(s, l).Next? ==> Evolves(s, Step(s, l).state)
  {
    FaultOnlyByServing(s, l);
    match l {
      case NewSession => hide Inv;
      case NewRequest(sid, o, out) =>
        HistoryBounds(s);
        CreateFrame(s, sid, o, out);
        EvolvesShrink(s, CreateRequest(s, sid, o, out));
        hide Inv;
      case DestroyRequest(a) => assert Live(s, a); DestroyEvolves(s, a); hide Inv, Evolves;
      case DestroySession(sid) => SessionEvolves(s, sid); hide Inv, Evolves;
      case FailWrite(a) => WriteEvolves(s, a); hide Inv, Evolves;
      case PoolCheck(c) => assert s.pool.Some?; CheckEvolves(s, c); hide Inv, Evolves;
      case ServeEvent(f) =>
        FaultIff(s, f);
        hide Inv;
        if Service(s, f).Next? { ServeEvolves(s, f); }
        hide Evolves;
      case LoseInterp(i) => hide Inv;
      case ExitThread => ExitEvolves(s); hide Inv, Evolves;
    }
  }

  lemma WriteEvolves(s: State, a: Addr)
    requires Inv(s) && s.pool.Some? && a in s.pool.value.multi.running && Live(s, a)
    ensures Evolves(s, WriteFails(s, a))
  {
    assert a in s.pool.value.multi.attached;
    assert a in s.pool.value.requests;
    PooledState(s, a);
    hide Inv;
  }

  /** Over every run the undelivered messages stay honest. */
  lemma {:induction false} RunHonest(s: State, ls: seq<Label>, checked: bool)
    requires Good(s, checked) && Scheduled(s, ls, checked) && Honest(s)
    ensures Exec(s, ls, checked).Next? ==> Honest(Exec(s, ls, checked).state)
    decreases |ls|
  {
    hide Good, Honest, Inv, Enabled, InTurn;
    if ls != [] {
      GoodSteps(s, ls[0], checked);
      StepHonest(s, ls[0]);
      hide Step;
      if Step(s, ls[0]).Next? { RunHonest(Step(s, ls[0]).state, ls[1..], ls[0].PoolCheck?); }
    }
  }

  /** Over every run, however long, a request that is still there has only moved
      forward: created requests have run, in progress may end, done and error stay. */
  lemma {:induction false} RunEvolves(s: State, ls: seq<Label>, checked: bool)
    requires Good(s, checked) && Scheduled(s, ls, checked) && Honest(s)
    ensures Exec(s, ls, checked).Next? ==> Evolves(s, Exec(s, ls, checked).state)
    decreases |ls|
  {
    if ls == [] {
      hide Good;
    } else {
      hide Good, Honest, Evolves, Inv, Enabled, InTurn;
      GoodSteps(s, ls[0], checked);
      StepHonest(s, ls[0]);
      StepEvolves(s, ls[0]);
      if Step(s, ls[0]).Next? {
        var t := Step(s, ls[0]).state;
        RunEvolves(t, ls[1..], ls[0].PoolCheck?);
        var o := Exec(t, ls[1..], ls[0].PoolCheck?);
        if o.Next? { EvolvesTrans(s, t, o.state); }
      }
    }
  }
}
