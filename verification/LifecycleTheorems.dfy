/** The lifecycle's main results, spelled out for every state that some run from
    the start reaches, and the places where the code is narrower than its intent. */
module LifecycleTheorems {
  import opened Common
  import opened Lifecycle
  import opened LifecycleInvariant
  import opened LifecycleCheck
  import opened LifecycleExit
  import opened LifecycleSteps
  import opened LifecycleCreation
  import opened LifecycleTurns
  import opened LifecycleRuns
  import opened LifecycleProgress
  import opened LifecycleCallbacks

  /** Some run leads from the start to `s`. */
  ghost predicate ReachedBy(ls: seq<Label>, s: State) {
    Scheduled(INIT, ls) && Exec(INIT, ls) == Next(s)
  }

  lemma ReachedIsGood(ls: seq<Label>, s: State)
    requires ReachedBy(ls, s)
    ensures Good(s, EndsChecked(ls))
  {
    InitIsGood();
    hide Good;
    EveryRunIsGood(INIT, ls, false);
  }

  /** In every reachable state the pool's list, its counter, libcurl's handles and
      the requests' pool pointers agree. */
  lemma PoolAgrees(ls: seq<Label>, s: State)
    requires ReachedBy(ls, s) && s.pool.Some?
    ensures var p := s.pool.value;
            && NoDuplicates(p.requests)
            && (forall a :: a in p.requests <==> Live(s, a) && s.reqs[a].pooled)
            && p.count == |p.requests| == |p.multi.attached|
            && p.multi.attached == Elements(p.requests)
  {
    ReachedIsGood(ls, s);
    ElementsSize(s.pool.value.requests);
  }

  /** In every reachable state each session's list and its requests' session
      pointers agree. */
  lemma SessionsAgree(ls: seq<Label>, s: State)
    requires ReachedBy(ls, s)
    ensures forall sid :: sid in s.sessions ==> NoDuplicates(s.sessions[sid])
    ensures forall sid, a :: sid in s.sessions ==>
              (a in s.sessions[sid] <==> Live(s, a) && s.reqs[a].session == Some(sid))
    ensures forall a :: Live(s, a) && s.reqs[a].session.Some? ==> s.reqs[a].session.value in s.sessions
  {
    ReachedIsGood(ls, s);
  }

  /** Until the thread exits the event source is registered exactly when the pool
      is active, never twice; a pool with requests is active; and a deactivation
      event waits only at the head of the queue, on an empty, active pool. */
  lemma SourceFollowsPool(ls: seq<Label>, s: State)
    requires ReachedBy(ls, s) && !s.exited
    ensures s.sources == if s.pool.Some? && s.pool.value.isActive then 1 else 0
    ensures s.pool.Some? && s.pool.value.requests != [] ==> s.pool.value.isActive
    ensures forall i :: 0 <= i < |s.queue| && s.queue[i].DeactivateEvent? ==>
              i == 0 && s.pool.Some? && s.pool.value.requests == [] && s.pool.value.isActive
  {
    ReachedIsGood(ls, s);
  }

  /** Deactivation always comes first. In every reachable state but the one between a
      check and the event served after it, no deactivation waits at all: a script, and
      with it a callback that adds a request, never finds one in the queue. */
  lemma QuietBetweenTurns(ls: seq<Label>, s: State)
    requires ReachedBy(ls, s) && !s.exited && !EndsChecked(ls)
    ensures Quiet(s)
  {
    ReachedIsGood(ls, s);
    hide Inv;
  }

  /** And in that one state the next step, whatever it is, serves the deactivation, on
      an empty pool. */
  lemma DeactivationIsNext(ls: seq<Label>, s: State, l: Label)
    requires ReachedBy(ls, s) && !s.exited && !Quiet(s) && Scheduled(s, [l], EndsChecked(ls))
    ensures s.pool.Some? && s.pool.value.requests == []
    ensures Step(s, l) == Next(PoolDeactivate(s.(queue := s.queue[1..])))
  {
    ReachedIsGood(ls, s);
    var k :| 0 <= k < |s.queue| && s.queue[k].DeactivateEvent?;
    assert k == 0 && l.ServeEvent?;
    assert s.pool.Some? && s.pool.value.requests == [];
    FaultIff(s, l.fileEvents);
    hide Inv;
    assert NextReady(s.queue, l.fileEvents) == 0;
    assert s.queue[..0] + s.queue[0 + 1..] == s.queue[1..];
  }

  /** In every reachable state a request in the pool is in progress or has recorded a
      failed write, and one outside it has run to its end. */
  lemma StateFollowsPool(ls: seq<Label>, s: State, a: Addr)
    requires ReachedBy(ls, s) && !s.exited && Live(s, a)
    ensures var r := s.reqs[a];
            if r.pooled then r.async && (r.state == InProgress || (r.state == Error && r.error))
            else r.state == Done || r.state == Error
  {
    ReachedIsGood(ls, s);
    assert ReqOk(s, a);
  }

  /** Over every run a request only moves forward: whatever happens between two reachable
      states, in progress may have become done or error, done and error are for good, a
      recorded error stays recorded, and nobody has entered the pool again. */
  lemma ReachedEvolves(ls: seq<Label>, s: State, more: seq<Label>, t: State)
    requires ReachedBy(ls, s)
    requires Scheduled(s, more, EndsChecked(ls)) && Exec(s, more, EndsChecked(ls)) == Next(t)
    ensures Evolves(s, t)
  {
    hide Good, Honest, Evolves;
    ReachedIsHonest(ls, s);
    RunEvolves(s, more, EndsChecked(ls));
  }

  lemma ReachedIsHonest(ls: seq<Label>, s: State)
    requires ReachedBy(ls, s)
    ensures Good(s, EndsChecked(ls)) && Honest(s)
  {
    InitIsGood();
    assert Honest(INIT);
    hide Good, Honest;
    RunHonest(INIT, ls, false);
    ReachedIsGood(ls, s);
  }

  /** Over every run each request block is released at most once, and exactly once
      when the request is gone; the same for its command. */
  lemma ReleasedOnce(ls: seq<Label>, s: State, a: Addr)
    requires ReachedBy(ls, s) && a < s.nextReq
    ensures s.freed[a] == (if Live(s, a) then 0 else 1)
    ensures a in s.named ==> s.deletedCommands[a] == (if a in s.commands then 0 else 1)
    ensures a !in s.named ==> s.deletedCommands[a] == 0
    ensures !s.exited ==> (a in s.commands <==> Live(s, a))
  {
    ReachedIsGood(ls, s);
    if !s.exited && Live(s, a) { assert ReqOk(s, a); }
  }

  /** Over every run a request has at most one callback event queued and at most
      one callback run. A live request that wants a callback has had exactly one
      queued once it is out of the pool, and none while it is in it; what was
      queued is either still pending or has run. */
  lemma CallbackOnce(ls: seq<Label>, s: State, a: Addr)
    requires ReachedBy(ls, s)
    ensures s.invoked[a] <= s.scheduled[a] <= 1
    ensures !s.exited && Live(s, a) ==>
              s.scheduled[a] == s.invoked[a] + (if s.reqs[a].event.Some? then 1 else 0)
    ensures !s.exited && Live(s, a) && s.reqs[a].callback && s.reqs[a].interp !in s.deletedInterps ==>
              (s.scheduled[a] == 1 <==> !s.reqs[a].pooled)
  {
    ReachedIsGood(ls, s);
    if !s.exited && Live(s, a) { assert ReqOk(s, a); }
  }

  /** A request that was once alive outside the pool and wanted its callback has exactly
      one event queued for it, in every later state of the run, freed or not. */
  lemma CallbackCounted(ls: seq<Label>, s: State, more: seq<Label>, t: State, a: Addr)
    requires ReachedBy(ls, s) && !s.exited && Live(s, a) && !s.reqs[a].pooled
    requires s.reqs[a].callback && s.reqs[a].interp !in s.deletedInterps
    requires Scheduled(s, more, EndsChecked(ls)) && Exec(s, more, EndsChecked(ls)) == Next(t)
    ensures t.scheduled[a] == 1
  {
    CallbackOnce(ls, s, a);
    hide Good, Honest;
    ReachedIsHonest(ls, s);
    RunCounts(s, more, EndsChecked(ls), a);
    EveryRunIsGood(s, more, EndsChecked(ls));
    GoodCounts(t, EndsChecked(more, EndsChecked(ls)), a);
  }

  /** A request that is destroyed while it is in the pool and wants its callback has one
      event queued for it, in every later state of the run, exactly when it was in
      progress: one that had recorded a failed write has none. */
  lemma DestroyedCounted(ls: seq<Label>, s: State, l: Label, more: seq<Label>, t: State, a: Addr)
    requires ReachedBy(ls, s) && Wants(s, a) && s.reqs[a].pooled && Destroys(s, l, a)
    requires Scheduled(s, [l] + more, EndsChecked(ls)) && Exec(s, [l] + more, EndsChecked(ls)) == Next(t)
    ensures t.scheduled[a] == if s.reqs[a].state == InProgress then 1 else 0
  {
    assert ([l] + more)[0] == l && ([l] + more)[1..] == more;
    hide Good, Honest, Inv, InTurn, Wants, Destroys, IsGone;
    ReachedIsHonest(ls, s);
    GoodSteps(s, l, EndsChecked(ls));
    DestroyCounts(s, l, a);
    StepHonest(s, l);
    RunCounts(Step(s, l).state, more, l.PoolCheck?, a);
    hide Step, Enabled;
  }

  /** From the deletion of its interpreter on nothing is queued for a request any more,
      whatever happens to it. */
  lemma SilentAfterLoss(ls: seq<Label>, s: State, more: seq<Label>, t: State, a: Addr)
    requires ReachedBy(ls, s) && Live(s, a) && s.reqs[a].interp in s.deletedInterps
    requires Scheduled(s, more, EndsChecked(ls)) && Exec(s, more, EndsChecked(ls)) == Next(t)
    ensures t.scheduled[a] == s.scheduled[a]
  {
    hide Good, Honest;
    ReachedIsHonest(ls, s);
    RunMute(s, more, EndsChecked(ls), a);
  }

  lemma GoodCounts(s: State, checked: bool, a: Addr)
    requires Good(s, checked)
    ensures s.scheduled[a] <= 1
  {
    assert HistoryInv(s);
  }

  /** At the thread's exit a pooled request that wants a callback has one queued exactly
      when it is in progress: one that already recorded a failed write has none. */
  lemma ExitCallbackIff(ls: seq<Label>, s: State, a: Addr)
    requires ReachedBy(ls, s) && !s.exited && !EndsChecked(ls)
    requires Pooled(s, a) && s.reqs[a].callback && s.reqs[a].interp !in s.deletedInterps
    ensures PoolMembersLive(s)
    ensures ThreadExit(s).scheduled[a] == 1 <==> s.reqs[a].state == InProgress
  {
    ReachedIsGood(ls, s);
    QuietBetweenTurns(ls, s);
    assert ReqOk(s, a);
    ExitEffect(s);
    assert Expelled(s, ThreadExit(s), a);
  }

  /** A pending callback event is never replaced by another one: after any step it
      is still there, or it has just been served. */
  lemma PendingKept(s: State, l: Label, a: Addr)
    requires Inv(s) && Enabled(s, l) && InTurn(s, l) && Live(s, a) && s.reqs[a].event.Some?
    requires Step(s, l).Next? && Live(Step(s, l).state, a)
    ensures var e := Step(s, l).state.reqs[a].event;
            e == s.reqs[a].event || (e.None? && l.ServeEvent? && Step(s, l).state.invoked[a] == s.invoked[a] + 1)
  {
    assert ReqOk(s, a);
    assert !s.reqs[a].pooled;
    StepEffect(s, l, a);
    StepRunsIff(s, l, a);
    if l.PoolCheck? && s.pool.Some? { NoMessageAbout(s, l.input, a); }
    hide Inv, Enabled, InTurn, Step;
  }

  lemma NoMessageAbout(s: State, c: CheckInput, a: Addr)
    requires Inv(s) && s.pool.Some? && CanComplete(s, c.completions) && Live(s, a) && !s.reqs[a].pooled
    ensures a !in Handles(Messages(s, c))
  {
    assert a !in s.pool.value.requests && a !in s.pool.value.multi.attached;
    assert forall m :: m in Messages(s, c) ==> m in s.pool.value.multi.msgs || m in c.completions;
  }

  // -------------------------------------------------------- where intent and code part

  /** Why the deactivation must come first: were a request made while it waits, serving
      it would leave a wrong source exactly when that request entered the pool. */
  lemma OvertakenDeactivationIff(s: State, o: RequestOptions, add: AddOutcome)
    requires Inv(s) && !s.exited && s.queue != [] && s.queue[0].DeactivateEvent?
    requires o.async && !o.simple && o.interp !in s.deletedInterps
    ensures var t := CreateRequest(s, None, o, Async(add));
            && t.queue != [] && t.queue[0].DeactivateEvent? && t.pool.Some?
            && (SourceInv(PoolDeactivate(t.(queue := t.queue[1..]))) <==> !add.Added?)
  {
    HistoryBounds(s);
    assert s.pool.Some? && s.pool.value.requests == [] && s.pool.value.isActive && s.sources == 1;
    hide Inv, CreateRequest, RunTo, SetUp;
    CreatedStays(s, None, o, Async(add));
  }
}
