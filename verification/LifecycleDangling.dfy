/** When a run can touch freed memory: exactly when some step releases a request
    that is still in progress in the pool, wants a callback, and has an interpreter. */
module LifecycleDangling {
  import opened Common
  import opened Lifecycle
  import opened LifecycleInvariant
  import opened LifecycleRelease
  import opened LifecyclePool
  import opened LifecycleExit
  import opened LifecycleSteps
  import opened LifecycleCreation
  import opened LifecycleRuns

  /** The step releases a request whose callback event it then queues. */
  ghost predicate Offends(s: State, l: Label) {
    match l
    case DestroyRequest(a) => Live(s, a) && Abandons(s, a)
    case DestroySession(sid) => sid in s.sessions && AbandonsAny(s, s.sessions[sid])
    case _ => false
  }

  // ------------------------------------------------- queues of the single steps

  /** The queue only gained events that name live requests, or lost its head. */
  ghost predicate QueueGrows(s: State, t: State) {
    && |s.queue| <= |t.queue| && t.queue[..|s.queue|] == s.queue
    && (forall i :: |s.queue| <= i < |t.queue| && t.queue[i].CallbackEvent? && t.queue[i].request.Some? ==>
          Live(t, t.queue[i].request.value))
    && s.reqs.Keys <= t.reqs.Keys
  }

  lemma GrowsClean(s: State, t: State)
    requires NoDangling(s) && QueueGrows(s, t)
    ensures NoDangling(t)
  {
    forall i | 0 <= i < |t.queue| && t.queue[i].CallbackEvent? && t.queue[i].request.Some?
      ensures Live(t, t.queue[i].request.value)
    {
      if i < |s.queue| { assert t.queue[i] == t.queue[..|s.queue|][i] == s.queue[i]; }
    }
  }

  lemma CreateGrows(s: State, sid: Option<Addr>, o: RequestOptions, out: RunOutcome)
    requires (sid.Some? ==> sid.value in s.sessions) && RunFits(o, out) && s.nextReq !in s.reqs
    requires o.interp !in s.deletedInterps
    ensures QueueGrows(s, CreateRequest(s, sid, o, out))
  {
    hide CreateRequest;
    CreateFrame(s, sid, o, out);
  }

  lemma DrainGrows(s: State)
    requires Inv(s) && !s.exited && s.pool.Some?
    ensures MessagesLive(s) && QueueGrows(s, Drain(s))
  {
    DrainEffect(s);
    MessagesAreLive(s);
    var msgs := s.pool.value.multi.msgs;
    NumberedQuiet(Notified(s, msgs), s.nextEvent);
    NotifiedLive(s, msgs);
    hide Inv, Drain, Numbered, Notified;
  }

  lemma {:induction false} NotifiedLive(s: State, msgs: seq<Msg>)
    requires AllLive(s, msgs)
    ensures forall a :: a in Notified(s, msgs) ==> Live(s, a)
  {
    if msgs != [] { NotifiedLive(s, msgs[1..]); }
  }

  lemma CheckClean(s: State, c: CheckInput)
    requires Inv(s) && CheckEnabled(s, c) && NoDangling(s)
    ensures MessagesLive(s) && AllLive(s, c.completions) && NoDangling(EventCheck(s, c))
  {
    CheckKeeps(s, c);
    if c.fileEvents {
      if s.pool.value.needRefresh {
        RefreshedKeeps(s);
        var s1 := s.(pool := Some(s.pool.value.(needRefresh := false)));
        PerformClean(s1, c.performOk, c.completions);
      } else if c.wait.WaitReady? {
        PerformClean(s, c.performOk, c.completions);
      }
    }
    hide Inv, PerformAndDrain;
  }

  lemma DrainClean(s: State)
    requires Inv(s) && !s.exited && s.pool.Some? && NoDangling(s)
    ensures MessagesLive(s) && NoDangling(Drain(s))
    ensures NoDangling(Drain(s).(queue := [DeactivateEvent] + Drain(s).queue))
  {
    hide Inv, Drain, QueueGrows, MessagesLive, NoDangling;
    DrainGrows(s);
    GrowsClean(s, Drain(s));
    PushClean(Drain(s));
  }

  lemma PushClean(s: State)
    requires NoDangling(s)
    ensures NoDangling(s.(queue := [DeactivateEvent] + s.queue))
  {}

  lemma PerformClean(s: State, performOk: bool, completions: seq<Msg>)
    requires Inv(s) && !s.exited && s.pool.Some? && CanComplete(s, completions) && NoDangling(s)
    ensures MessagesLive(s) && AllLive(s, completions) && NoDangling(PerformAndDrain(s, performOk, completions))
  {
    MessagesAreLive(s);
    CompletionsLive(s, completions);
    PerformKeeps(s, completions);
    var s1 := SetMulti(s, MultiPerform(s.pool.value.multi, completions));
    assert NoDangling(s1) && !s1.exited && s1.pool.Some?;
    hide Inv, Drain, NoDangling, MessagesLive, AllLive, CanComplete;
    DrainClean(s1);
  }

  lemma RemoveGrows(s: State, a: Addr)
    requires Live(s, a) && s.pool.Some?
    ensures QueueGrows(s, PoolRemoveRequest(s, a))
  {}

  lemma {:induction false} ExitLoopClean(s: State)
    requires s.pool.Some? && s.pool.value.isDead && PoolMembersLive(s) && NoDangling(s)
    ensures NoDangling(PoolFreeLoop(s))
    decreases |s.pool.value.requests|
  {
    if s.pool.value.requests != [] {
      var a := s.pool.value.requests[0];
      RemoveGrows(s, a);
      GrowsClean(s, PoolRemoveRequest(s, a));
      var s1 := PoolFreePass(s);
      assert NoDangling(s1) by { hide QueueGrows; }
      hide PoolFreePass, NoDangling;
      ExitLoopClean(s1);
    }
  }

  lemma ExitClean(s: State)
    requires PoolMembersLive(s) && NoDangling(s)
    ensures NoDangling(ThreadExit(s))
  {
    if s.pool.Some? {
      var s1 := SetDead(s.(exited := true), true);
      assert PoolMembersLive(s1) && NoDangling(s1);
      ExitLoopClean(s1);
    }
  }

  lemma ServeClean(s: State, fileEvents: bool)
    requires Inv(s) && NoDangling(s)
    ensures ServeDefined(s) && Service(s, fileEvents).Next? && NoDangling(Service(s, fileEvents).state)
  {
    assert EventLinks(s);
    hide Inv, EventLinks;
    FaultIff(s, fileEvents);
    HeadOrNone(s, fileEvents);
    ServeShorter(s, fileEvents);
    hide Service;
    assert !ServesDangling(s, fileEvents);
  }

  lemma ServeShorter(s: State, fileEvents: bool)
    requires ServeDefined(s) && Service(s, fileEvents).Next?
    requires var i := NextReady(s.queue, fileEvents); i == 0 || i == |s.queue|
    ensures var t := Service(s, fileEvents).state;
            t.reqs.Keys == s.reqs.Keys && (t.queue == s.queue || (s.queue != [] && t.queue == s.queue[1..]))
  {
    var i := NextReady(s.queue, fileEvents);
    hide NextReady;
    if i < |s.queue| {
      assert s.queue[..i] + s.queue[i + 1..] == s.queue[1..];
    }
  }

  // ----------------------------------------------------------------- one step

  /** From a state without dangling events no step touches freed memory, and the
      next state has a dangling event exactly when the step offends. */
  lemma StepDanglesIff(s: State, l: Label)
    requires Inv(s) && Enabled(s, l) && InTurn(s, l) && NoDangling(s)
    ensures Step(s, l).Next?
    ensures NoDangling(Step(s, l).state) <==> !Offends(s, l)
  {
    FaultOnlyByServing(s, l);
    match l {
      case NewSession => hide Inv;
      case NewRequest(sid, o, out) =>
        HistoryBounds(s);
        CreateGrows(s, sid, o, out);
        GrowsClean(s, CreateRequest(s, sid, o, out));
        hide Inv;
      case DestroyRequest(a) =>
        assert Live(s, a);
        LiveIsReleasable(s, a);
        assert s.reqs[a].token;
        SameEndFromEitherSide(s, a);
        FreeDanglesIff(s, a);
        hide Inv;
      case DestroySession(sid) => SessionDanglesIff(s, sid); hide Inv;
      case FailWrite(a) => hide Inv;
      case PoolCheck(c) => assert s.pool.Some?; CheckClean(s, c); hide Inv;
      case ServeEvent(f) => ServeClean(s, f); hide Inv;
      case LoseInterp(i) => hide Inv;
      case ExitThread => ExitClean(s); hide Inv;
    }
  }

  // --------------------------------------------------------------- whole runs

  /** Every state of the run, the first included, is free of dangling events. */
  ghost predicate AlwaysClean(s: State, ls: seq<Label>, checked: bool := false)
    requires Scheduled(s, ls, checked)
    decreases |ls|
  {
    && NoDangling(s)
    && (ls != [] && Step(s, ls[0]).Next? ==> AlwaysClean(Step(s, ls[0]).state, ls[1..], ls[0].PoolCheck?))
  }

  /** No step of the run offends. */
  ghost predicate NeverOffends(s: State, ls: seq<Label>, checked: bool := false)
    requires Scheduled(s, ls, checked)
    decreases |ls|
  {
    ls != [] ==>
      && !Offends(s, ls[0])
      && (Step(s, ls[0]).Next? ==> NeverOffends(Step(s, ls[0]).state, ls[1..], ls[0].PoolCheck?))
  }

  /** Over every run: every queued callback event always names a live request or
      none if and only if no step of the run offends. */
  lemma {:induction false} RunCleanIff(s: State, ls: seq<Label>, checked: bool)
    requires Good(s, checked) && NoDangling(s) && Scheduled(s, ls, checked)
    ensures AlwaysClean(s, ls, checked) <==> NeverOffends(s, ls, checked)
    decreases |ls|
  {
    hide Good, NoDangling, Offends, Enabled, InTurn;
    if ls == [] {
    } else {
      GoodSteps(s, ls[0], checked);
      StepDanglesIff(s, ls[0]);
      var t := Step(s, ls[0]).state;
      if !Offends(s, ls[0]) { RunCleanIff(t, ls[1..], ls[0].PoolCheck?); }
    }
  }

  /** A run that never offends never touches freed memory. */
  lemma {:induction false} NoOffenceNoFault(s: State, ls: seq<Label>, checked: bool)
    requires Good(s, checked) && NoDangling(s) && Scheduled(s, ls, checked) && NeverOffends(s, ls, checked)
    ensures Exec(s, ls, checked).Next? && NoDangling(Exec(s, ls, checked).state)
    decreases |ls|
  {
    hide Good, NoDangling, Offends, Enabled, InTurn;
    if ls == [] {
    } else {
      GoodSteps(s, ls[0], checked);
      StepDanglesIff(s, ls[0]);
      NoOffenceNoFault(Step(s, ls[0]).state, ls[1..], ls[0].PoolCheck?);
    }
  }

  /** Serving `n` events. */
  function Serves(n: nat): (ls: seq<Label>)
    ensures |ls| == n
  {
    if n == 0 then [] else [ServeEvent(true)] + Serves(n - 1)
  }

  lemma ServeHead(s: State)
    requires s.queue != [] && ServeDefined(s) && Service(s, true).Next?
    ensures var t := Service(s, true).state;
            t.queue == s.queue[1..] && t.reqs.Keys == s.reqs.Keys && t.exited == s.exited
  {
    assert NextReady(s.queue, true) == 0;
    assert s.queue[..0] + s.queue[0 + 1..] == s.queue[1..];
  }

  lemma TailDangles(s: State, t: State)
    requires !NoDangling(s) && !ServesDangling(s, true) && t.queue == s.queue[1..] && t.reqs.Keys == s.reqs.Keys
    ensures !NoDangling(t)
  {
    var k :| 0 <= k < |s.queue| && s.queue[k].CallbackEvent? && s.queue[k].request.Some? &&
             !Live(s, s.queue[k].request.value);
    assert t.queue[k - 1] == s.queue[k];
  }

  lemma ServeShortens(s: State)
    requires Inv(s) && !s.exited && !NoDangling(s) && !ServesDangling(s, true)
    ensures ServeDefined(s) && Service(s, true).Next?
    ensures var t := Service(s, true).state;
            |t.queue| == |s.queue| - 1 && !NoDangling(t) && !t.exited
  {
    assert s.queue != [];
    hide Inv, Service, NoDangling, ServesDangling, ServeDefined;
    FaultIff(s, true);
    ServeHead(s);
    TailDangles(s, Service(s, true).state);
  }

  /** And an offence is never harmless: once an event dangles, merely serving the
      queue ends in a use of freed memory. */
  lemma {:induction false} DanglingFaults(s: State, checked: bool)
    requires Inv(s) && !s.exited && !NoDangling(s)
    ensures Scheduled(s, Serves(|s.queue|), checked) && Exec(s, Serves(|s.queue|), checked).UseAfterFree?
    decreases |s.queue|
  {
    hide Inv, NoDangling, Service, Step, Enabled, ServesDangling;
    var ls := Serves(|s.queue|);
    ServeSteps(s);
    if s.queue == [] {
      EmptyIsClean(s);
    } else if ServesDangling(s, true) {
      assert ls[0] == ServeEvent(true);
    } else {
      ServeShortens(s);
      ServeKeeps(s, true);
      var t := Service(s, true).state;
      DanglingFaults(t, false);
      RunCons(s, ServeEvent(true), t, Serves(|t.queue|), checked);
      assert ls == [ServeEvent(true)] + Serves(|t.queue|);
    }
  }

  lemma EmptyIsClean(s: State)
    requires s.queue == []
    ensures NoDangling(s)
  {}

  /** Serving an event as a step. */
  lemma ServeSteps(s: State)
    requires Inv(s) && !s.exited
    ensures ServeDefined(s) && Enabled(s, ServeEvent(true)) && Step(s, ServeEvent(true)) == Service(s, true)
    ensures Service(s, true).UseAfterFree? <==> ServesDangling(s, true)
  {
    hide Inv;
    FaultIff(s, true);
  }

  /** A run that offends can be continued into a use of freed memory. */
  lemma OffenceCanFault(s: State, l: Label)
    requires Inv(s) && NoDangling(s) && Enabled(s, l) && InTurn(s, l) && Offends(s, l)
    ensures Step(s, l).Next?
    ensures var t := Step(s, l).state;
            Scheduled(t, Serves(|t.queue|)) && Exec(t, Serves(|t.queue|)).UseAfterFree?
  {
    StepDanglesIff(s, l);
    StepKeeps(s, l);
    OffenceStays(s, l);
    hide Inv, NoDangling, Offends, Enabled, Step;
    DanglingFaults(Step(s, l).state, false);
  }

  lemma OffenceStays(s: State, l: Label)
    requires Inv(s) && Enabled(s, l) && InTurn(s, l) && Offends(s, l)
    ensures Step(s, l).Next? ==> !Step(s, l).state.exited && Inv(Step(s, l).state)
  {
    StepKeeps(s, l);
    match l {
      case DestroyRequest(a) =>
        LiveIsReleasable(s, a);
        assert s.reqs[a].token;
        SameEndFromEitherSide(s, a);
        FreeEffect(s, a);
        hide Inv;
      case DestroySession(sid) => SessionFreeKeeps(s, sid); hide Inv;
      case _ =>
    }
  }
}
