/** Concrete runs: what the code does at the inputs where it is narrower than its
    intent, and what it would do if the deactivation were queued at the tail. */
module LifecycleExamples {
  import opened Common
  import opened Lifecycle
  import opened LifecycleInvariant
  import opened LifecycleRelease
  import opened LifecycleExit
  import opened LifecycleCreation
  import opened LifecycleRuns
  import opened LifecycleDangling
  import opened LifecycleProgress
  import opened LifecycleIdle

  const ASYNC_CALLBACK := RequestOptions(0, true, true, false)
  const START := NewRequest(None, ASYNC_CALLBACK, Async(Added))

  /** One asynchronous request with a callback has been started. */
  function First(): State {
    CreateRequest(INIT, None, ASYNC_CALLBACK, Async(Added))
  }

  ghost predicate JustStarted(s: State) {
    && s.pool == Some(Pool(Multi({0}, {0}, []), [0], false, true, true, 1)) && s.sources == 1 && s.queue == []
    && s.reqs == map[0 := Req(0, true, true, InProgress, false, true, None, None, true, false)]
    && s.nextReq == 1 && s.nextEvent == 0 && s.deletedInterps == {} && !s.exited && s.scheduled == multiset{}
    && s.commands == {0}
  }

  lemma FirstPool()
    ensures JustStarted(First())
  {
    var s1 := InitRequest(INIT, None, ASYNC_CALLBACK);
    var (s3, ok) := PoolAddRequest(SetReqState(s1, 0, InProgress), 0, Added);
    assert RequestRun(s1, 0, Async(Added)) == s3;
    assert MultiAdd(Multi({}, {}, []), 0) == Multi({0}, {0}, []);
    assert [0] + [] == [0];
  }

  lemma FirstStep()
    ensures Enabled(INIT, START) && Step(INIT, START) == Next(First())
  {
    hide First, CreateRequest;
    assert Step(INIT, START) == Next(CreateRequest(INIT, None, ASYNC_CALLBACK, Async(Added)));
    FirstIs();
  }

  lemma FirstIs()
    ensures First() == CreateRequest(INIT, None, ASYNC_CALLBACK, Async(Added))
  {
    hide CreateRequest;
  }

  lemma FirstIsGood()
    ensures JustStarted(First()) && Inv(First()) && NoDangling(First())
  {
    FirstPool();
    FirstStep();
    InitIsGood();
    hide First, Step, Inv, Enabled;
    StepKeeps(INIT, START);
    InTurnQuiet(First());
  }

  lemma InTurnQuiet(s: State)
    requires s.queue == []
    ensures Quiet(s) && NoDangling(s)
  {}

  /** The code's order in treq_RequestFree() (detach the pending event, then leave
      the pool) is not safe on all runs: start an asynchronous request with a
      callback, destroy it while it is in progress, serve the event queue. */
  lemma DestroyInProgressFaults()
    ensures var ls := [START, DestroyRequest(0), ServeEvent(true)];
            Scheduled(INIT, ls) && Exec(INIT, ls).UseAfterFree?
  {
    hide First, Inv, Good, Enabled, Offends, NoDangling, InTurn, Step, JustStarted, DeleteCommand;
    FirstStep();
    FirstIsGood();
    var s := First();
    var d := DestroyRequest(0);
    FirstOffends(s);
    OffenceCanFault(s, d);
    var t := Step(s, d).state;
    assert Serves(1) == [ServeEvent(true)];
    RunCons(s, d, t, [ServeEvent(true)], false);
    RunCons(INIT, START, s, [d] + [ServeEvent(true)], false);
    assert [START] + ([d] + [ServeEvent(true)]) == [START, d, ServeEvent(true)];
  }

  lemma FirstOffends(s: State)
    requires JustStarted(s) && Inv(s) && NoDangling(s)
    ensures var d := DestroyRequest(0);
      Enabled(s, d) && InTurn(s, d) && Offends(s, d) && Step(s, d).Next? && |Step(s, d).state.queue| == 1
  {
    var d := DestroyRequest(0);
    assert Enabled(s, d) && InTurn(s, d) && Offends(s, d);
    DestroyedQueue(s);
    assert PointersValid(s, d) && Step(s, d) == Next(DeleteCommand(s, 0)) by { hide Inv, DeleteCommand; }
    hide Inv, Step, Enabled;
  }

  lemma DestroyedQueue(s: State)
    requires Inv(s) && Live(s, 0) && s.queue == [] && Abandons(s, 0)
    ensures Linked(s, 0) && |DeleteCommand(s, 0).queue| == 1
  {
    LiveIsReleasable(s, 0);
    DestroyEvolves(s, 0);
    FreeClosed(s, 0);
    SettledQueue(s, 0);
    hide Inv, Settled, DeleteCommand, RequestFree;
  }

  // ------------------------------------------------------------ an idle source

  /** Start a request and destroy it: the pool is empty, its source registered. */
  lemma DestroyLeavesIdle()
    ensures var ls := [START, DestroyRequest(0)];
            Scheduled(INIT, ls) && Exec(INIT, ls).Next? && Idle(Exec(INIT, ls).state)
  {
    hide First, Inv, Enabled, Idle, Empties, Step, InTurn, JustStarted, Offends, NoDangling;
    FirstStep();
    FirstIsGood();
    var s := First();
    var d := DestroyRequest(0);
    FirstOffends(s);
    FirstEmpties(s);
    IdleIff(s, d);
    RunCons(s, d, Step(s, d).state, [], false);
    RunCons(INIT, START, s, [d] + [], false);
    assert [START] + ([d] + []) == [START, d];
  }

  lemma FirstEmpties(s: State)
    requires JustStarted(s)
    ensures !Idle(s) && Empties(s, DestroyRequest(0))
  {
    hide Inv;
  }

  // ---------------------------------------------------- an exit without a callback

  const STALLED := PoolCheck(CheckInput(true, WaitIdle, false, []))

  /** A write fails while libcurl performs, and so does the performing itself: the
      request stays in the pool, in error. When the thread then exits it leaves the pool
      with no callback event queued, although it wanted one and its interpreter is there. */
  lemma ExitWithoutCallback()
    ensures var ls := [START, FailWrite(0), STALLED, ServeEvent(true), ExitThread];
            && Scheduled(INIT, ls) && Exec(INIT, ls).Next?
            && var t := Exec(INIT, ls).state;
               && Live(t, 0) && !t.reqs[0].pooled && t.reqs[0].callback && t.reqs[0].interp !in t.deletedInterps
               && t.scheduled[0] == 0
  {
    hide First, Enabled, Step, JustStarted;
    FirstStep();
    FirstPool();
    FailedWrite(First());
    var s2 := WriteFails(First(), 0);
    hide WriteFails, SetError;
    StalledCheck(s2);
    var s3 := s2.(pool := Some(s2.pool.value.(needRefresh := false)));
    NothingToServe(s3);
    ExitStep(s3);
    var t := Step(s3, ExitThread).state;
    var l3 := [ServeEvent(true)] + [ExitThread];
    RunCons(s3, ExitThread, t, [], false);
    assert [ExitThread] + [] == [ExitThread];
    RunCons(s3, ServeEvent(true), s3, [ExitThread], true);
    RunCons(s2, STALLED, s3, l3, false);
    RunCons(First(), FailWrite(0), s2, [STALLED] + l3, false);
    RunCons(INIT, START, First(), [FailWrite(0)] + ([STALLED] + l3), false);
    assert [START] + ([FailWrite(0)] + ([STALLED] + l3)) ==
        [START, FailWrite(0), STALLED, ServeEvent(true), ExitThread];
  }

  lemma FailedWrite(s: State)
    requires JustStarted(s)
    ensures Enabled(s, FailWrite(0)) && Step(s, FailWrite(0)) == Next(WriteFails(s, 0))
    ensures WriteFails(s, 0) == s.(reqs := map[0 := Req(0, true, true, Error, true, true, None, None, true, false)])
    ensures s.queue == [] && s.scheduled == multiset{} && s.deletedInterps == {} && !s.exited && s.sources > 0
    ensures s.pool.Some? && s.pool.value.needRefresh && s.pool.value.multi.msgs == [] && s.pool.value.requests == [0]
  {}

  lemma NothingToServe(s: State)
    requires s.queue == [] && !s.exited
    ensures Enabled(s, ServeEvent(true)) && Step(s, ServeEvent(true)) == Next(s)
  {}

  lemma StalledCheck(s: State)
    requires s.pool.Some? && s.pool.value.needRefresh && s.pool.value.multi.msgs == [] && s.sources > 0 && !s.exited
    ensures Enabled(s, STALLED)
    ensures Step(s, STALLED) == Next(s.(pool := Some(s.pool.value.(needRefresh := false))))
  {
    var m := s.pool.value.multi;
    assert MultiPerform(m, []) == m by { assert m.msgs + [] == m.msgs; assert m.running - Handles([]) == m.running; }
  }

  lemma ExitStep(s: State)
    requires s.pool.Some? && s.pool.value.requests == [0] && Live(s, 0) && s.reqs[0].state == Error && !s.exited
    ensures Enabled(s, ExitThread)
    ensures Step(s, ExitThread).Next?
    ensures var t := Step(s, ExitThread).state;
      && t.reqs == s.reqs[0 := s.reqs[0].(pooled := false)] && t.scheduled == s.scheduled
      && t.deletedInterps == s.deletedInterps
  {
    var s1 := SetDead(s.(exited := true), true);
    var s2 := PoolFreePass(s1);
    assert s2.pool.value.requests == [];
    assert PoolFreeLoop(s1) == PoolFreeLoop(s2) == s2;
  }

  // ---------------------------------------------- a deactivation queued at the tail

  /** What the check would do if it queued the deactivation at the tail. */
  function AtTail(q: seq<Event>): seq<Event> {
    if q != [] && q[0].DeactivateEvent? then q[1..] + [q[0]] else q
  }

  ghost function TailStep(s: State, l: Label): Outcome
    requires Enabled(s, l)
  {
    var o := Step(s, l);
    if l.PoolCheck? && o.Next? then Next(o.state.(queue := AtTail(o.state.queue))) else o
  }

  ghost predicate TailScheduled(s: State, ls: seq<Label>, checked: bool := false)
    decreases |ls|
  {
    ls == [] ||
    (&& Enabled(s, ls[0]) && (checked ==> ls[0].ServeEvent?)
     && (TailStep(s, ls[0]).Next? ==> TailScheduled(TailStep(s, ls[0]).state, ls[1..], ls[0].PoolCheck?)))
  }

  ghost function TailExec(s: State, ls: seq<Label>, checked: bool := false): Outcome
    requires TailScheduled(s, ls, checked)
    decreases |ls|
  {
    if ls == [] then Next(s)
    else
      match TailStep(s, ls[0])
      case UseAfterFree => UseAfterFree
      case Next(t) => TailExec(t, ls[1..], ls[0].PoolCheck?)
  }

  const FINISHED := PoolCheck(CheckInput(true, WaitIdle, true, [Msg(0, true)]))
  const TWO_REQUESTS := [START, FINISHED, ServeEvent(true), START, ServeEvent(true)]

  ghost predicate JustFinished(s: State) {
    && s.pool == Some(Pool(Multi({}, {}, []), [], false, true, false, 0)) && s.sources == 1
    && s.reqs.Keys == {0} && s.nextReq == 1 && s.deletedInterps == {} && !s.exited
  }

  lemma FinishedCheck(s: State)
    requires JustStarted(s)
    ensures Enabled(s, FINISHED) && s.pool.Some? && MessagesLive(s) && AllLive(s, FINISHED.input.completions)
    ensures var t := EventCheck(s, FINISHED.input);
      && JustFinished(t) && t.queue == [DeactivateEvent, CallbackEvent(0, Some(0))]
      && Step(s, FINISHED) == Next(t)
      && TailStep(s, FINISHED) == Next(t.(queue := [CallbackEvent(0, Some(0)), DeactivateEvent]))
  {
    FinishedLive(s);
    FinishedPerform(s.(pool := Some(s.pool.value.(needRefresh := false))));
    hide PerformAndDrain;
  }

  lemma FinishedLive(s: State)
    requires JustStarted(s)
    ensures Enabled(s, FINISHED) && PointersValid(s, FINISHED)
  {
    assert CanComplete(s, [Msg(0, true)]);
  }

  lemma FinishedPerform(s: State)
    requires s.pool == Some(Pool(Multi({0}, {0}, []), [0], false, true, false, 1)) && s.sources == 1
    requires s.reqs == map[0 := Req(0, true, true, InProgress, false, true, None, None, true, false)]
    requires s.queue == [] && s.nextReq == 1 && s.nextEvent == 0 && s.deletedInterps == {} && !s.exited
    ensures MessagesLive(s) && AllLive(s, [Msg(0, true)])
    ensures var t := PerformAndDrain(s, true, [Msg(0, true)]);
      JustFinished(t) && t.queue == [DeactivateEvent, CallbackEvent(0, Some(0))]
  {
    var m := Msg(0, true);
    FinishedMulti(m);
    var s2 := SetMulti(s, Multi({0}, {}, [m]));
    FinishedDrain(s2);
    hide Drain, MultiPerform;
  }

  lemma FinishedMulti(m: Msg)
    requires m.handle == 0
    ensures MultiPerform(Multi({0}, {0}, []), [m]) == Multi({0}, {}, [m])
  {
    assert m in [m];
    assert Handles([m]) == {0};
  }

  lemma FinishedDrain(s: State)
    requires s.pool == Some(Pool(Multi({0}, {}, [Msg(0, true)]), [0], false, true, false, 1)) && s.sources == 1
    requires s.reqs == map[0 := Req(0, true, true, InProgress, false, true, None, None, true, false)]
    requires s.queue == [] && s.nextReq == 1 && s.nextEvent == 0 && s.deletedInterps == {} && !s.exited
    ensures MessagesLive(s) && JustFinished(Drain(s)) && Drain(s).queue == [CallbackEvent(0, Some(0))]
  {
    var s1 := PopMessage(s);
    var t := Deliver(s1, Msg(0, true));
    assert [Msg(0, true)][1..] == [];
    assert MultiRemove(Multi({0}, {}, []), 0) == Multi({}, {}, []);
    assert RemoveFirst([0], 0) == [];
    assert JustFinished(t) && t.queue == [CallbackEvent(0, Some(0))];
    assert Drain(s) == Drain(t) == t;
  }

  lemma ServeHeadEvent(s: State)
    requires !s.exited && s.pool.Some? && s.queue != []
    requires s.queue[0].CallbackEvent? && s.queue[0].request.Some? ==> Live(s, s.queue[0].request.value)
    ensures Enabled(s, ServeEvent(true)) && PointersValid(s, ServeEvent(true)) && Service(s, true).Next?
    ensures var t := Service(s, true).state;
      && Step(s, ServeEvent(true)) == Next(t) && TailStep(s, ServeEvent(true)) == Next(t)
      && t.queue == s.queue[1..] && t.reqs.Keys == s.reqs.Keys && t.exited == s.exited && t.nextReq == s.nextReq
      && t.deletedInterps == s.deletedInterps
      && t.pool == (if s.queue[0].DeactivateEvent? then Some(s.pool.value.(isActive := false)) else s.pool)
      && t.sources == (if s.queue[0].DeactivateEvent? && s.sources > 0 then s.sources - 1 else s.sources)
  {
    assert NextReady(s.queue, true) == 0;
    assert s.queue[..0] + s.queue[0 + 1..] == s.queue[1..];
  }

  lemma NextStart(s: State)
    requires !s.exited && s.pool.Some? && s.nextReq !in s.reqs && s.deletedInterps == {}
    ensures Enabled(s, START) && PointersValid(s, START)
    ensures var t := CreateRequest(s, None, ASYNC_CALLBACK, Async(Added));
      && Step(s, START) == Next(t) && TailStep(s, START) == Next(t)
      && t.queue == s.queue && t.reqs.Keys == s.reqs.Keys + {s.nextReq} && !t.exited && t.pool.Some?
      && t.pool.value.requests == [s.nextReq] + s.pool.value.requests && t.pool.value.isActive
      && t.sources == (if s.pool.value.isActive then s.sources else s.sources + 1)
  {
    hide CreateRequest, RunTo, SetUp;
    CreatedStays(s, None, ASYNC_CALLBACK, Async(Added));
  }

  /** The first request ends, one event is served, a second request is started, one more
      event is served. With the deactivation at the head the source is registered in the
      end; at the tail the callback is served first, its script starts the second request,
      and the deactivation then takes the source away from under it. */
  lemma TailInsertionBreaks()
    ensures Scheduled(INIT, TWO_REQUESTS) && Exec(INIT, TWO_REQUESTS).Next?
    ensures var t := Exec(INIT, TWO_REQUESTS).state;
            t.pool.Some? && t.pool.value.requests == [1] && t.pool.value.isActive && t.sources == 1
    ensures TailScheduled(INIT, TWO_REQUESTS) && TailExec(INIT, TWO_REQUESTS).Next?
    ensures var t := TailExec(INIT, TWO_REQUESTS).state;
            t.pool.Some? && t.pool.value.requests == [1] && !t.pool.value.isActive && t.sources == 0
  {
    hide First, Enabled, JustStarted, Step, TailStep;
    FirstStep();
    FirstPool();
    var s1 := First();
    HeadRun(s1);
    TailRun(s1);
    RunCons(INIT, START, s1, REST, false);
    TailSame(INIT, START);
    TailCons(INIT, START, s1, REST, false);
    assert TWO_REQUESTS == [START] + REST;
  }

  lemma TailSame(s: State, l: Label)
    requires Enabled(s, l) && !l.PoolCheck?
    ensures TailStep(s, l) == Step(s, l)
  {}

  const REST := [FINISHED, ServeEvent(true), START, ServeEvent(true)]

  lemma HeadRun(s: State)
    requires JustStarted(s)
    ensures Scheduled(s, REST) && Exec(s, REST).Next?
    ensures var t := Exec(s, REST).state;
            t.pool.Some? && t.pool.value.requests == [1] && t.pool.value.isActive && t.sources == 1
  {
    hide CreateRequest, EventCheck, Service, Enabled, PointersValid, Step, TailStep, JustStarted;
    FinishedCheck(s);
    var s2 := EventCheck(s, FINISHED.input);
    ServeHeadEvent(s2);
    var s3 := Service(s2, true).state;
    NextStart(s3);
    var s4 := CreateRequest(s3, None, ASYNC_CALLBACK, Async(Added));
    ServeHeadEvent(s4);
    var s5 := Service(s4, true).state;
    RunCons(s4, ServeEvent(true), s5, [], false);
    RunCons(s3, START, s4, [ServeEvent(true)] + [], false);
    RunCons(s2, ServeEvent(true), s3, [START] + ([ServeEvent(true)] + []), true);
    RunCons(s, FINISHED, s2, [ServeEvent(true)] + ([START] + ([ServeEvent(true)] + [])), false);
    assert [FINISHED] + ([ServeEvent(true)] + ([START] + ([ServeEvent(true)] + []))) == REST;
  }

  lemma TailCons(s: State, l: Label, t: State, ls: seq<Label>, checked: bool)
    requires Enabled(s, l) && (checked ==> l.ServeEvent?) && TailStep(s, l) == Next(t)
    requires TailScheduled(t, ls, l.PoolCheck?)
    ensures TailScheduled(s, [l] + ls, checked) && TailExec(s, [l] + ls, checked) == TailExec(t, ls, l.PoolCheck?)
  {
    hide Enabled, TailStep;
    assert ([l] + ls)[0] == l && ([l] + ls)[1..] == ls;
  }

  lemma TailRun(s: State)
    requires JustStarted(s)
    ensures TailScheduled(s, REST) && TailExec(s, REST).Next?
    ensures var t := TailExec(s, REST).state;
            t.pool.Some? && t.pool.value.requests == [1] && !t.pool.value.isActive && t.sources == 0
  {
    hide CreateRequest, EventCheck, Service, Enabled, PointersValid, Step, TailStep, JustStarted;
    FinishedCheck(s);
    var u2 := EventCheck(s, FINISHED.input).(queue := [CallbackEvent(0, Some(0)), DeactivateEvent]);
    ServeHeadEvent(u2);
    var u3 := Service(u2, true).state;
    NextStart(u3);
    var u4 := CreateRequest(u3, None, ASYNC_CALLBACK, Async(Added));
    ServeHeadEvent(u4);
    var u5 := Service(u4, true).state;
    TailCons(u4, ServeEvent(true), u5, [], false);
    TailCons(u3, START, u4, [ServeEvent(true)] + [], false);
    TailCons(u2, ServeEvent(true), u3, [START] + ([ServeEvent(true)] + []), true);
    TailCons(s, FINISHED, u2, [ServeEvent(true)] + ([START] + ([ServeEvent(true)] + [])), false);
    assert [FINISHED] + ([ServeEvent(true)] + ([START] + ([ServeEvent(true)] + []))) == REST;
  }
}
