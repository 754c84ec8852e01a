/** Whole runs of the lifecycle: any interleaving of commands, callbacks,
    completions, event loop passes, interpreter deletions and the thread's exit. */
module LifecycleRuns {
  import opened Common
  import opened Lifecycle
  import opened LifecycleInvariant
  import opened LifecycleRelease
  import opened LifecyclePool
  import opened LifecycleExit
  import opened LifecycleSteps
  import opened LifecycleTurns

  datatype Label =
    | NewSession
    | NewRequest(session: Option<Addr>, options: RequestOptions, run: RunOutcome)
    | DestroyRequest(request: Addr)    // the request's command is deleted
    | DestroySession(which: Addr)      // the session's command is deleted
    | FailWrite(handle: Addr)          // a write callback fails to allocate, wherever libcurl calls it
    | PoolCheck(input: CheckInput)     // the event source's check procedure
    | ServeEvent(fileEvents: bool)
    | LoseInterp(interp: Interp)
    | ExitThread

  /** What the caller, libcurl and the event loop may do next; what is in the event
      queue plays no part. */
  ghost predicate Enabled(s: State, l: Label) {
    && !s.exited
    && match l
       case NewSession => true
       case NewRequest(sid, o, out) =>
         (sid.Some? ==> sid.value in s.sessions) && RunFits(o, out) && o.interp !in s.deletedInterps
       case DestroyRequest(a) => a in s.commands
       case DestroySession(sid) => sid in s.sessions
       case FailWrite(a) => s.pool.Some? && a in s.pool.value.multi.running
       case PoolCheck(c) => s.sources > 0 && (s.pool.Some? ==> CanComplete(s, c.completions))
       case ServeEvent(_) => true
       case LoseInterp(_) => true
       case ExitThread => true
  }

  /** Every pointer that the step follows is valid. */
  ghost predicate PointersValid(s: State, l: Label) {
    match l
    case DestroyRequest(a) => Live(s, a) && (s.reqs[a].isDead || Linked(s, a))
    case DestroySession(sid) => SessionMembersLinked(s, sid)
    case FailWrite(a) => Live(s, a)
    case PoolCheck(c) => s.pool.Some? && MessagesLive(s) && AllLive(s, c.completions)
    case ServeEvent(_) => ServeDefined(s)
    case ExitThread => PoolMembersLive(s)
    case _ => true
  }

  /** One step. A step that follows an invalid pointer touches freed memory. */
  ghost function Step(s: State, l: Label): Outcome
    requires Enabled(s, l)
  {
    if !PointersValid(s, l) then UseAfterFree
    else
      match l
      case NewSession => Next(CreateSession(s))
      case NewRequest(sid, o, out) => Next(CreateRequest(s, sid, o, out))
      case DestroyRequest(a) => Next(DeleteCommand(s, a))
      case DestroySession(sid) => Next(SessionFree(s, sid))
      case FailWrite(a) => Next(WriteFails(s, a))
      case PoolCheck(c) => Next(EventCheck(s, c))
      case ServeEvent(f) => Service(s, f)
      case LoseInterp(i) => Next(DeleteInterp(s, i))
      case ExitThread => Next(ThreadExit(s))
  }

  /** `ls` can be performed from `s`, one step after the other, up to a fault. One turn
      of the event loop calls the check procedures and then serves one event before it
      returns to any script; so the step after a check serves an event, and apart from
      that anything may happen at any time. `checked` says that the last step was a check. */
  ghost predicate Scheduled(s: State, ls: seq<Label>, checked: bool := false)
    decreases |ls|
  {
    ls == [] ||
    (&& Enabled(s, ls[0]) && (checked ==> ls[0].ServeEvent?)
     && (Step(s, ls[0]).Next? ==> Scheduled(Step(s, ls[0]).state, ls[1..], ls[0].PoolCheck?)))
  }

  ghost function Exec(s: State, ls: seq<Label>, checked: bool := false): Outcome
    requires Scheduled(s, ls, checked)
    decreases |ls|
  {
    if ls == [] then Next(s)
    else
      match Step(s, ls[0])
      case UseAfterFree => UseAfterFree
      case Next(t) => Exec(t, ls[1..], ls[0].PoolCheck?)
  }

  /** A run of one step more. */
  lemma RunCons(s: State, l: Label, t: State, ls: seq<Label>, checked: bool)
    requires Enabled(s, l) && (checked ==> l.ServeEvent?) && Step(s, l) == Next(t)
    requires Scheduled(t, ls, l.PoolCheck?)
    ensures Scheduled(s, [l] + ls, checked) && Exec(s, [l] + ls, checked) == Exec(t, ls, l.PoolCheck?)
  {
    hide Enabled, Step;
    assert ([l] + ls)[0] == l && ([l] + ls)[1..] == ls;
  }

  // ------------------------------------------------------------------ one step

  /** The queue when a step begins: a deactivation waits at most between the check that
      queued it and the event served next. */
  ghost predicate InOrder(s: State, checked: bool) {
    checked || Quiet(s)
  }

  /** No step but the serving of an event meets a waiting deactivation. This is not a
      rule of the runs; TurnsInOrder derives it for every step of a run. */
  ghost predicate InTurn(s: State, l: Label) {
    l.ServeEvent? || Quiet(s)
  }

  /** What holds between the steps: the full invariant until the thread exits,
      and then still the links between the structures, with no pool left. */
  ghost predicate Good(s: State, checked: bool := false) {
    if s.exited then Global(s) && s.pool.None? else Inv(s) && InOrder(s, checked)
  }

  /** The only step that can touch freed memory is serving a dangling event. */
  lemma FaultOnlyByServing(s: State, l: Label)
    requires Inv(s) && Enabled(s, l)
    ensures Step(s, l).UseAfterFree? <==> l.ServeEvent? && ServesDangling(s, l.fileEvents)
  {
    match l {
      case DestroyRequest(a) =>
        assert Live(s, a);
        LiveIsReleasable(s, a);
        hide Inv;
      case DestroySession(sid) => SessionMembers(s, sid); hide Inv;
      case FailWrite(a) => WriteFailsKeeps(s, a); hide Inv;
      case PoolCheck(c) =>
        assert s.pool.Some?;
        MessagesAreLive(s);
        CompletionsLive(s, c.completions);
        hide Inv;
      case ServeEvent(f) => FaultIff(s, f); hide Inv;
      case ExitThread => MembersLive(s); hide Inv;
      case NewSession => hide Inv;
      case NewRequest(_, _, _) => hide Inv;
      case LoseInterp(_) => hide Inv;
    }
  }

  lemma ExitIsGood(s: State)
    requires Inv(s) && !s.exited && Quiet(s)
    ensures PoolMembersLive(s) && Sound(ThreadExit(s)) && ThreadExit(s).exited
  {
    ExitEffect(s);
    hide Inv;
    ExitedStays(s);
  }

  lemma ExitedStays(s: State)
    requires PoolMembersLive(s) && Global(ThreadExit(s)) && ThreadExit(s).pool.None?
    ensures ThreadExit(s).exited
  {
    hide Global;
    if s.pool.Some? { LoopExited(SetDead(s.(exited := true), true)); }
  }

  lemma {:induction false} LoopExited(s: State)
    requires s.pool.Some? && s.pool.value.isDead && PoolMembersLive(s)
    ensures PoolFreeLoop(s).exited == s.exited
    decreases |s.pool.value.requests|
  {
    if s.pool.value.requests != [] {
      assert PoolFreePass(s).exited == s.exited;
      LoopExited(PoolFreePass(s));
    }
  }

  /** Every step keeps what holds between the steps. */
  lemma StepKeeps(s: State, l: Label)
    requires Inv(s) && Enabled(s, l) && InTurn(s, l)
    ensures Step(s, l).Next? ==> Good(Step(s, l).state, l.PoolCheck?)
  {
    StepInOrder(s, l);
    StepSound(s, l);
    hide Inv, Global, Enabled, Step, InOrder;
  }

  /** The invariant after a step. */
  ghost predicate Sound(s: State) {
    if s.exited then Global(s) && s.pool.None? else Inv(s)
  }

  lemma StepSound(s: State, l: Label)
    requires Inv(s) && Enabled(s, l) && InTurn(s, l)
    ensures Step(s, l).Next? ==> Sound(Step(s, l).state)
  {
    FaultOnlyByServing(s, l);
    match l {
      case NewSession => SessionKeeps(s); hide Inv;
      case NewRequest(sid, o, out) =>
        HistoryBounds(s);
        CreateKeeps(s, sid, o, out);
        CreateOnward(s, sid, o, out);
        hide Inv, Quiet;
      case DestroyRequest(a) =>
        assert Live(s, a);
        LiveIsReleasable(s, a);
        assert s.reqs[a].token;
        SameEndFromEitherSide(s, a);
        FreeKeepsInv(s, a);
        FreeEffect(s, a);
        hide Inv;
      case DestroySession(sid) => SessionFreeKeeps(s, sid); hide Inv;
      case FailWrite(a) => WriteFailsKeeps(s, a); hide Inv;
      case PoolCheck(c) =>
        assert s.pool.Some?;
        CheckKeeps(s, c);
        hide Inv;
      case ServeEvent(f) => ServeKeeps(s, f); hide Inv;
      case LoseInterp(i) => DeleteInterpKeeps(s, i); hide Inv;
      case ExitThread => ExitIsGood(s); hide Inv;
    }
  }

  /** The deactivation event goes to the head of the queue, and that is what keeps the
      turns in order: the event served after the check is the deactivation if one was
      queued, so that none is left when a script may run again. */
  lemma StepInOrder(s: State, l: Label)
    requires Inv(s) && Enabled(s, l) && InTurn(s, l)
    ensures Step(s, l).Next? && !Step(s, l).state.exited ==> InOrder(Step(s, l).state, l.PoolCheck?)
  {
    FaultOnlyByServing(s, l);
    match l {
      case NewSession =>
      case NewRequest(sid, o, out) => HistoryBounds(s); CreateOnward(s, sid, o, out); hide Inv;
      case DestroyRequest(a) => DeleteOnward(s, a); hide Inv;
      case DestroySession(sid) => SessionOnward(s, sid); hide Inv;
      case FailWrite(a) =>
      case PoolCheck(c) =>
      case ServeEvent(f) => if Service(s, f).Next? { ServeLeavesQuiet(s, f); } hide Inv;
      case LoseInterp(i) =>
      case ExitThread => ExitIsGood(s); hide Inv;
    }
  }

  /** Whatever kind of pass it is, serving leaves no deactivation in the queue. */
  lemma ServeLeavesQuiet(s: State, fileEvents: bool)
    requires Inv(s) && ServeDefined(s) && Service(s, fileEvents).Next?
    ensures Quiet(Service(s, fileEvents).state)
  {
    assert EventLinks(s);
    hide Inv;
    HeadOrNone(s, fileEvents);
    var i := NextReady(s.queue, fileEvents);
    if i < |s.queue| {
      assert s.queue[..i] + s.queue[i + 1..] == s.queue[1..];
    } else {
      NoneReady(s.queue, fileEvents);
    }
  }

  lemma {:induction false} NoneReady(q: seq<Event>, fileEvents: bool)
    requires NextReady(q, fileEvents) == |q|
    ensures forall i :: 0 <= i < |q| ==> q[i].CallbackEvent?
  {
    if q != [] {
      NoneReady(q[1..], fileEvents);
      assert q == [q[0]] + q[1..];
    }
  }

  /** Every step of a run is in turn. */
  lemma TurnsInOrder(s: State, l: Label, checked: bool)
    requires InOrder(s, checked) && (checked ==> l.ServeEvent?)
    ensures InTurn(s, l)
  {}

  // ------------------------------------------------------------------ whole runs

  /** In every reachable state of every run the structures agree, callbacks are
      queued and run at most once, blocks and commands are released at most once. */
  lemma {:induction false} EveryRunIsGood(s: State, ls: seq<Label>, checked: bool)
    requires Good(s, checked) && Scheduled(s, ls, checked)
    ensures Exec(s, ls, checked).Next? ==> Good(Exec(s, ls, checked).state, EndsChecked(ls, checked))
    decreases |ls|
  {
    hide Good, Enabled;
    if ls == [] {
    } else {
      GoodSteps(s, ls[0], checked);
      if Step(s, ls[0]).Next? { EveryRunIsGood(Step(s, ls[0]).state, ls[1..], ls[0].PoolCheck?); }
    }
  }

  /** The last step of the run was a check, and no event has been served since. */
  predicate EndsChecked(ls: seq<Label>, checked: bool := false) {
    if ls == [] then checked else ls[|ls| - 1].PoolCheck?
  }

  lemma GoodSteps(s: State, l: Label, checked: bool)
    requires Good(s, checked) && Enabled(s, l) && (checked ==> l.ServeEvent?)
    ensures Inv(s) && InTurn(s, l)
    ensures Step(s, l).Next? ==> Good(Step(s, l).state, l.PoolCheck?)
  {
    TurnsInOrder(s, l, checked);
    hide Inv, Global, InOrder, InTurn, Step;
    StepKeeps(s, l);
  }

  lemma InitIsGood()
    ensures Good(INIT) && NoDangling(INIT)
  {}
}
