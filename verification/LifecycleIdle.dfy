/** The pool that is empty and yet keeps its event source: which steps lead to it, and
    that no turn of the event loop leads away from it. */
module LifecycleIdle {
  import opened Common
  import opened Lifecycle
  import opened LifecycleInvariant
  import opened LifecycleRelease
  import opened LifecyclePool
  import opened LifecycleSteps
  import opened LifecycleCreation
  import opened LifecycleTurns
  import opened LifecycleRuns
  import opened LifecycleProgress

  /** The pool is empty, still active, and no deactivation is on its way. */
  ghost predicate Idle(s: State) {
    Inv(s) && !s.exited && Quiet(s) && Hollow(s)
  }

  predicate Hollow(s: State) {
    s.pool.Some? && s.pool.value.requests == [] && s.pool.value.isActive
  }

  /** Passes of the event loop: check procedures and served events. */
  ghost predicate LoopPasses(ls: seq<Label>) {
    forall i :: 0 <= i < |ls| ==> ls[i].PoolCheck? || ls[i].ServeEvent?
  }

  lemma IdleStep(s: State, l: Label)
    requires Idle(s) && Enabled(s, l) && (l.PoolCheck? || l.ServeEvent?)
    ensures Step(s, l).Next? ==> Idle(Step(s, l).state)
  {
    StepKeeps(s, l);
    FaultOnlyByServing(s, l);
    if l.PoolCheck? {
      IdleCheck(s, l.input);
      hide Inv;
    } else {
      if Service(s, l.fileEvents).Next? { IdleServe(s, l.fileEvents); }
      hide Inv;
    }
  }

  lemma IdleServe(s: State, f: bool)
    requires Idle(s) && ServeDefined(s) && Service(s, f).Next?
    ensures var t := Service(s, f).state; Quiet(t) && t.pool == s.pool && !t.exited
  {
    FaultIff(s, f);
    hide Inv;
  }

  lemma NoneToComplete(s: State, completions: seq<Msg>)
    requires s.pool.Some? && CanComplete(s, completions)
    ensures completions == [] || s.pool.value.multi.running != {}
  {
    assert completions == [] || completions[0] in completions;
  }

  lemma IdleCheck(s: State, c: CheckInput)
    requires Idle(s) && CheckEnabled(s, c)
    ensures MessagesLive(s) && AllLive(s, c.completions)
    ensures var t := EventCheck(s, c);
            && t.pool.Some? && Quiet(t) && t.pool.value.requests == [] && t.pool.value.isActive && !t.exited
  {
    MessagesAreLive(s);
    CompletionsLive(s, c.completions);
    CounterIsAttached(s);
    var m := s.pool.value.multi;
    assert m.running == {} && m.msgs == [];
    NoneToComplete(s, c.completions);
    assert MultiPerform(m, []) == m by { assert m.msgs + [] == m.msgs; assert m.running - Handles([]) == m.running; }
    hide Inv, MessagesLive, AllLive;
  }

  /** A pool that becomes empty other than by the drain loop (its last request was
      destroyed) keeps its event source: however long the event loop turns, the
      source stays registered until another request is added and completes. */
  lemma {:induction false} IdleSourceStays(s: State, ls: seq<Label>, checked: bool)
    requires Idle(s) && LoopPasses(ls) && Scheduled(s, ls, checked)
    ensures var o := Exec(s, ls, checked); o.Next? ==> Idle(o.state) && o.state.sources == 1
    decreases |ls|
  {
    if ls == [] {
    } else {
      IdleStep(s, ls[0]);
      hide Idle, Enabled;
      if Step(s, ls[0]).Next? { IdleSourceStays(Step(s, ls[0]).state, ls[1..], ls[0].PoolCheck?); }
    }
  }

  // ---------------------------------------------------------- the steps that lead there

  /** The step releases every request that is in the pool, by its own command or with
      the session that owns them all. */
  ghost predicate Empties(s: State, l: Label) {
    && s.pool.Some? && s.pool.value.requests != []
    && match l
       case DestroyRequest(a) => s.pool.value.requests == [a]
       case DestroySession(sid) =>
         forall a :: a in s.pool.value.requests && Live(s, a) ==> s.reqs[a].session == Some(sid)
       case _ => false
  }

  /** The pool of `t` is that of `s` without the requests that are gone. */
  lemma Members(s: State, t: State)
    requires PoolLinks(s) && PoolLinks(t) && s.pool.Some? && t.pool.Some?
    requires forall a :: a in t.reqs ==> a in s.reqs && t.reqs[a].pooled == s.reqs[a].pooled
    ensures forall a :: a in t.pool.value.requests <==> a in s.pool.value.requests && a in t.reqs
  {}

  lemma NoneLeft(q: seq<Addr>)
    ensures q == [] <==> forall a :: a !in q
  {
    if q != [] { assert q[0] in q; }
  }

  lemma OnlyOne(q: seq<Addr>, a: Addr)
    requires NoDuplicates(q) && q != [] && forall b :: b in q ==> b == a
    ensures q == [a]
  {
    assert q[0] in q;
    ElementsSize(q);
    assert Elements(q) == {a};
  }

  /** Releasing a request leaves the source and the pool's flag alone. */
  lemma FreeActive(s: State, a: Addr)
    requires Inv(s) && Live(s, a)
    ensures Linked(s, a)
    ensures var t := RequestFree(s, a);
      t.pool.Some? == s.pool.Some? && (s.pool.Some? ==> t.pool.value.isActive == s.pool.value.isActive)
  {
    LiveIsReleasable(s, a);
    FreeClosed(s, a);
    SettledActive(s, a);
    hide Inv, Settled, RequestFree;
  }

  lemma SettledActive(s: State, a: Addr)
    requires Linked(s, a)
    ensures var t := Settled(s, a);
      t.pool.Some? == s.pool.Some? && (s.pool.Some? ==> t.pool.value.isActive == s.pool.value.isActive)
  {
    hide MultiRemove, RemoveFirst;
  }

  lemma {:induction false} SessionActive(s: State, sid: Addr)
    requires Inv(s) && sid in s.sessions && !s.exited
    ensures SessionMembersLinked(s, sid)
    ensures var t := SessionFree(s, sid);
      t.pool.Some? == s.pool.Some? && (s.pool.Some? ==> t.pool.value.isActive == s.pool.value.isActive)
    decreases |s.sessions[sid]|
  {
    SessionMembers(s, sid);
    if s.sessions[sid] != [] {
      var a := s.sessions[sid][0];
      SessionPassIsFree(s, sid);
      FreeKeepsInv(s, a);
      FreeEffect(s, a);
      FreeActive(s, a);
      hide Inv, RequestFree, SessionFreePass, SessionMembersLinked;
      SessionActive(SessionFreePass(s, sid), sid);
    }
  }

  lemma Parts(s: State)
    requires Inv(s)
    ensures PoolLinks(s) && SourceInv(s) && SessionLinks(s)
  {}

  /** `t` is idle exactly when the requests that are gone were all that the pool had. */
  lemma IdleAfterRelease(s: State, t: State, gone: set<Addr>)
    requires Inv(s) && Inv(t) && !s.exited && !t.exited && Quiet(s) && Quiet(t) && !Idle(s)
    requires t.pool.Some? == s.pool.Some? && (s.pool.Some? ==> t.pool.value.isActive == s.pool.value.isActive)
    requires t.reqs == s.reqs - gone
    ensures Idle(t) <==>
              s.pool.Some? && s.pool.value.requests != [] && forall a :: a in s.pool.value.requests ==> a in gone
  {
    Parts(s);
    Parts(t);
    hide Inv, MultiOk, Quiet;
    if s.pool.Some? {
      Members(s, t);
      HollowIff(s, t, gone);
    }
  }

  lemma DestroyIdleIff(s: State, a: Addr)
    requires Inv(s) && !s.exited && Quiet(s) && !Idle(s) && Live(s, a)
    ensures Linked(s, a) && (Idle(DeleteCommand(s, a)) <==> Empties(s, DestroyRequest(a)))
  {
    Parts(s);
    hide Inv, RequestFree, DeleteCommand, Linked, Idle, Quiet;
    DestroyEvolves(s, a);
    FreeKeepsInv(s, a);
    FreeEffect(s, a);
    FreeActive(s, a);
    DeleteOnward(s, a);
    hide Evolves;
    IdleAfterRelease(s, RequestFree(s, a), {a});
    AllIsOne(s, a);
    hide PoolLinks, SessionLinks, SourceInv;
  }

  lemma AllIsOne(s: State, a: Addr)
    requires PoolLinks(s)
    ensures (s.pool.Some? && s.pool.value.requests != [] && forall b :: b in s.pool.value.requests ==> b in {a}) <==>
              Empties(s, DestroyRequest(a))
  {
    hide MultiOk;
    if s.pool.Some? && s.pool.value.requests != [] && forall b :: b in s.pool.value.requests ==> b in {a} {
      OnlyOne(s.pool.value.requests, a);
    }
  }

  /** What is left of the pool's list when the requests `gone` have gone. */
  lemma HollowIff(s: State, t: State, gone: set<Addr>)
    requires s.pool.Some? && t.pool.Some? && t.pool.value.isActive == s.pool.value.isActive
    requires s.pool.value.requests != [] ==> s.pool.value.isActive
    requires t.reqs.Keys == s.reqs.Keys - gone && forall a :: a in s.pool.value.requests ==> a in s.reqs
    requires forall a :: a in t.pool.value.requests <==> a in s.pool.value.requests && a in t.reqs
    requires !Hollow(s)
    ensures Hollow(t) <==>
              s.pool.value.requests != [] && forall a :: a in s.pool.value.requests ==> a in gone
  {
    NoneLeft(s.pool.value.requests);
    NoneLeft(t.pool.value.requests);
  }

  lemma DestroySessionIdleIff(s: State, sid: Addr)
    requires Inv(s) && !s.exited && Quiet(s) && !Idle(s) && sid in s.sessions
    ensures SessionMembersLinked(s, sid) && (Idle(SessionFree(s, sid)) <==> Empties(s, DestroySession(sid)))
  {
    hide Inv, SessionFree, SessionMembersLinked, Idle, Quiet, PoolLinks, SessionLinks, SourceInv, Empties, Elements;
    Parts(s);
    AllAreMembers(s, sid);
    SessionFreeKeeps(s, sid);
    SessionActive(s, sid);
    SessionOnward(s, sid);
    IdleAfterRelease(s, SessionFree(s, sid), Elements(s.sessions[sid]));
  }

  lemma AllAreMembers(s: State, sid: Addr)
    requires PoolLinks(s) && SessionLinks(s) && sid in s.sessions
    ensures (&& s.pool.Some? && s.pool.value.requests != []
             && forall a :: a in s.pool.value.requests ==> a in Elements(s.sessions[sid])) <==>
              Empties(s, DestroySession(sid))
  {
    hide MultiOk;
  }

  /** Creating a request leaves the pool as it was, or puts the request into it, or
      leaves a new one that is not active. */
  lemma CreatePool(s: State, sid: Option<Addr>, o: RequestOptions, out: RunOutcome)
    requires Inv(s) && (sid.Some? ==> sid.value in s.sessions) && RunFits(o, out) && o.interp !in s.deletedInterps
    ensures var t := CreateRequest(s, sid, o, out); (t.pool == s.pool || !Hollow(t)) && Onward(s, t)
  {
    HistoryBounds(s);
    hide Inv, CreateRequest;
    CreateFrame(s, sid, o, out);
    CreateOnward(s, sid, o, out);
  }

  lemma CheckNotIdle(s: State, c: CheckInput)
    requires Inv(s) && CheckEnabled(s, c) && !Hollow(s)
    ensures MessagesLive(s) && AllLive(s, c.completions) && !Idle(EventCheck(s, c))
  {
    CheckKeeps(s, c);
    assert s.pool.value.isActive && s.pool.value.requests != [];
    if c.fileEvents {
      if s.pool.value.needRefresh {
        RefreshedKeeps(s);
        PerformNotIdle(s.(pool := Some(s.pool.value.(needRefresh := false))), c.performOk, c.completions);
      } else if c.wait.WaitReady? {
        PerformNotIdle(s, c.performOk, c.completions);
      }
    }
    hide Inv, PerformAndDrain;
  }

  /** A drain that leaves nothing in the pool queues the deactivation. */
  lemma PerformNotIdle(s: State, performOk: bool, completions: seq<Msg>)
    requires Inv(s) && !s.exited && Quiet(s) && s.pool.Some? && s.pool.value.isActive && s.pool.value.requests != []
    requires CanComplete(s, completions)
    ensures MessagesLive(s) && AllLive(s, completions) && !Idle(PerformAndDrain(s, performOk, completions))
  {
    PerformAndDrainKeeps(s, performOk, completions);
    PerformKeeps(s, completions);
    var s1 := SetMulti(s, MultiPerform(s.pool.value.multi, completions));
    assert s1.pool.Some? && !s1.exited && s1.pool.value.requests == s.pool.value.requests;
    DrainEffect(s1);
    if Hollow(Drain(s1)) { NoneRuns(Drain(s1)); }
    hide Inv, Drain, MessagesLive, AllLive, CanComplete;
    var t := PerformAndDrain(s, performOk, completions);
    assert t.queue != [] && t.queue[0].DeactivateEvent? ==> !Quiet(t);
  }

  lemma NoneRuns(s: State)
    requires Inv(s) && Hollow(s)
    ensures s.pool.value.multi.running == {}
  {
    assert s.pool.value.multi.attached == {};
  }

  lemma ServeNotIdle(s: State, fileEvents: bool)
    requires Inv(s) && !s.exited && !Idle(s) && ServeDefined(s) && Service(s, fileEvents).Next?
    ensures !Idle(Service(s, fileEvents).state)
  {
    assert EventLinks(s);
    HeadOrNone(s, fileEvents);
    var i := NextReady(s.queue, fileEvents);
    if i == |s.queue| {
      NoneReady(s.queue, fileEvents);
    } else if s.queue[0].CallbackEvent? {
      assert Quiet(s);
    }
    hide Inv;
  }

  /** A step leads to an empty pool with a registered source exactly when it releases
      all that was in the pool. */
  lemma IdleIff(s: State, l: Label)
    requires Inv(s) && Enabled(s, l) && InTurn(s, l) && !Idle(s) && Step(s, l).Next?
    ensures Idle(Step(s, l).state) <==> Empties(s, l)
  {
    FaultOnlyByServing(s, l);
    match l {
      case NewSession => hide Inv;
      case NewRequest(sid, o, out) => CreatePool(s, sid, o, out); hide Inv, Quiet;
      case DestroyRequest(a) => DestroyIdleIff(s, a); hide Inv, Idle;
      case DestroySession(sid) => DestroySessionIdleIff(s, sid); hide Inv, Idle;
      case FailWrite(a) => hide Inv, Quiet;
      case PoolCheck(c) => CheckNotIdle(s, c); hide Inv;
      case ServeEvent(f) => ServeNotIdle(s, f); hide Inv;
      case LoseInterp(i) => hide Inv, Quiet;
      case ExitThread => ExitIsGood(s); hide Inv;
    }
  }
}
