/** What one step does to each request, and which steps queue and run its callback. */
module LifecycleCallbacks {
  import opened Common
  import opened Lifecycle
  import opened LifecycleInvariant
  import opened LifecycleRelease
  import opened LifecyclePool
  import opened LifecycleCheck
  import opened LifecycleExit
  import opened LifecycleSteps
  import opened LifecycleCreation
  import opened LifecycleTurns
  import opened LifecycleRuns
  import opened LifecycleProgress

  // ------------------------------------------------------- queueing the callback

  /** The request wants its callback and has a live interpreter. */
  predicate Wants(s: State, a: Addr) {
    Live(s, a) && s.reqs[a].callback && s.reqs[a].interp !in s.deletedInterps
  }

  /** The request is in progress in the pool and wants its callback. */
  predicate Abandoned(s: State, a: Addr) {
    Live(s, a) && Abandons(s, a)
  }

  /** The step queues a callback event for the request. */
  ghost predicate Queues(s: State, l: Label, a: Addr) {
    match l
    case NewRequest(_, o, out) => a == s.nextReq && o.callback && NotStarted(out)
    case DestroyRequest(b) => a == b && Abandoned(s, a)
    case DestroySession(sid) => sid in s.sessions && a in s.sessions[sid] && Abandoned(s, a)
    case PoolCheck(c) => s.pool.Some? && Due(s, c) && c.performOk && a in Handles(Messages(s, c)) && Wants(s, a)
    case ExitThread => Abandoned(s, a)
    case _ => false
  }

  lemma SettledScheduled(s: State, a: Addr)
    requires Linked(s, a)
    ensures Settled(s, a).scheduled == if Abandons(s, a) then s.scheduled + multiset{a} else s.scheduled
  {
    var s1 := if s.reqs[a].session.Some? then SessionRemoveRequest(s, a) else s;
    assert s1.reqs[a] == s.reqs[a].(session := None) && s1.scheduled == s.scheduled;
    assert s1.pool == s.pool && s1.deletedInterps == s.deletedInterps;
    hide SessionRemoveRequest, PoolRemoveRequest, LeavePool, AfterLeaving;
    if s.reqs[a].pooled {
      RemoveIsLeaving(s1, a);
      LeaveFrame(s1, a);
      AfterLeavingOne(LeavePool(s1, a), PoolRemoveRequest(s1, a), a);
    }
  }

  lemma FreeScheduled(s: State, a: Addr)
    requires Inv(s) && Live(s, a)
    ensures Linked(s, a)
    ensures RequestFree(s, a).scheduled == if Abandoned(s, a) then s.scheduled + multiset{a} else s.scheduled
  {
    LiveIsReleasable(s, a);
    hide Inv, Settled, RequestFree;
    FreeClosed(s, a);
    SettledScheduled(s, a);
  }

  /** One pass of the session's loop, as far as the request `a` is concerned. */
  lemma PassScheduled(s: State, sid: Addr, a: Addr)
    requires Inv(s) && sid in s.sessions && !s.exited && s.sessions[sid] != []
    ensures SessionMembersLinked(s, sid) && Live(s, s.sessions[sid][0])
    ensures var h, s1 := s.sessions[sid][0], SessionFreePass(s, sid);
            && Inv(s1) && !s1.exited && sid in s1.sessions && s1.sessions[sid] == s.sessions[sid][1..]
            && s1.scheduled[a] == s.scheduled[a] + (if a == h && Abandoned(s, a) then 1 else 0)
            && (a != h ==> (Abandoned(s1, a) <==> Abandoned(s, a)))
  {
    hide Inv, RequestFree, SessionFreePass, Abandoned, SessionMembersLinked;
    SessionMembers(s, sid);
    var h := s.sessions[sid][0];
    SessionPassIsFree(s, sid);
    FreeKeepsInv(s, h);
    FreeEffect(s, h);
    FreeScheduled(s, h);
    AbandonedOther(s, SessionFreePass(s, sid), h, a);
  }

  lemma AbandonedOther(s: State, t: State, h: Addr, a: Addr)
    requires t.reqs == s.reqs - {h} && t.deletedInterps == s.deletedInterps
    ensures a != h ==> (Abandoned(t, a) <==> Abandoned(s, a))
  {}

  lemma SessionDistinct(s: State, sid: Addr)
    requires Inv(s) && sid in s.sessions
    ensures NoDuplicates(s.sessions[sid])
  {}

  lemma {:induction false} SessionScheduled(s: State, sid: Addr, a: Addr)
    requires Inv(s) && sid in s.sessions && !s.exited
    ensures SessionMembersLinked(s, sid)
    ensures SessionFree(s, sid).scheduled[a] ==
            s.scheduled[a] + if a in s.sessions[sid] && Abandoned(s, a) then 1 else 0
    decreases |s.sessions[sid]|
  {
    SessionMembers(s, sid);
    if s.sessions[sid] != [] {
      hide Inv, SessionFreePass, SessionMembersLinked, Abandoned;
      SessionDistinct(s, sid);
      assert s.sessions[sid] == [s.sessions[sid][0]] + s.sessions[sid][1..];
      PassScheduled(s, sid, a);
      SessionScheduled(SessionFreePass(s, sid), sid, a);
    }
  }

  lemma {:induction false} NotifiedCount(s: State, msgs: seq<Msg>, a: Addr)
    requires AllLive(s, msgs)
    requires forall i, j :: 0 <= i < j < |msgs| ==> msgs[i].handle != msgs[j].handle
    ensures multiset(Notified(s, msgs))[a] == if a in Handles(msgs) && Wants(s, a) then 1 else 0
  {
    if msgs != [] {
      HandlesHead(msgs);
      NotifiedCount(s, msgs[1..], a);
      assert msgs[0].handle !in Handles(msgs[1..]) by {
        assert forall m :: m in msgs[1..] ==> m.handle != msgs[0].handle;
      }
      hide Handles;
    }
  }

  lemma MessagesApart(s: State, c: CheckInput)
    requires Inv(s) && s.pool.Some? && CanComplete(s, c.completions)
    ensures var msgs := Messages(s, c); forall i, j :: 0 <= i < j < |msgs| ==> msgs[i].handle != msgs[j].handle
  {
    PoolMulti(s);
    hide Inv;
    PerformMulti(s.pool.value.multi, c.completions);
  }

  lemma CheckQueues(s: State, c: CheckInput, a: Addr)
    requires Inv(s) && CheckEnabled(s, c)
    ensures MessagesLive(s) && AllLive(s, c.completions)
    ensures var t := EventCheck(s, c);
            && t.scheduled[a] == s.scheduled[a] + (if Queues(s, PoolCheck(c), a) then 1 else 0)
            && t.invoked == s.invoked && t.deletedInterps == s.deletedInterps
  {
    MessagesAreLive(s);
    CompletionsLive(s, c.completions);
    if !Due(s, c) {
      CheckRests(s, c);
    } else if !c.performOk {
      CheckFails(s, c);
    } else {
      CheckEffect(s, c);
      MessagesApart(s, c);
      NotifiedCount(s, Messages(s, c), a);
      hide Inv, EventCheck, Notified, CanComplete;
    }
  }

  lemma ExitQueues(s: State, a: Addr)
    requires Inv(s) && !s.exited && Quiet(s)
    ensures PoolMembersLive(s)
    ensures ThreadExit(s).scheduled[a] == s.scheduled[a] + if Abandoned(s, a) then 1 else 0
  {
    ExitEffect(s);
    ExitNext(s);
    var t := ThreadExit(s);
    if Live(s, a) {
      assert if Pooled(s, a) then Expelled(s, t, a) else Untouched(s, t, a);
    } else if a < s.nextReq {
      ExitGone(s, a);
    } else {
      assert HistoryInv(t) && HistoryInv(s);
    }
  }

  lemma ExitGone(s: State, a: Addr)
    requires PoolMembersLive(s) && IsGone(s, a)
    ensures ThreadExit(s).scheduled[a] == s.scheduled[a]
  {
    if s.pool.Some? { ExitLoopOnward(SetDead(s.(exited := true), true)); }
    hide PoolFreeLoop;
  }

  lemma CreateQueues(s: State, sid: Option<Addr>, o: RequestOptions, out: RunOutcome, a: Addr)
    requires Inv(s) && (sid.Some? ==> sid.value in s.sessions) && RunFits(o, out) && o.interp !in s.deletedInterps
    ensures var t := CreateRequest(s, sid, o, out);
            && t.scheduled[a] == s.scheduled[a] + (if Queues(s, NewRequest(sid, o, out), a) then 1 else 0)
            && t.invoked == s.invoked && t.deletedInterps == s.deletedInterps
  {
    HistoryBounds(s);
    hide Inv, CreateRequest, PoolAfter, RunTo, SetUp;
    if o.simple { CreatedSimple(s, sid, o, out); } else { CreatedStays(s, sid, o, out); }
  }

  lemma DestroyQueues(s: State, b: Addr, a: Addr)
    requires Inv(s) && Live(s, b)
    ensures Linked(s, b)
    ensures var t := DeleteCommand(s, b);
            && t.scheduled[a] == s.scheduled[a] + (if Queues(s, DestroyRequest(b), a) then 1 else 0)
            && t.invoked == s.invoked && t.deletedInterps == s.deletedInterps
  {
    hide Inv, RequestFree, DeleteCommand, Linked, Abandons;
    DestroyEvolves(s, b);
    FreeEffect(s, b);
    FreeScheduled(s, b);
    FreeNext(s, b);
  }

  /** Which steps queue a callback event, and for whom: exactly these, one at a time. */
  lemma StepQueuesIff(s: State, l: Label, a: Addr)
    requires Inv(s) && Enabled(s, l) && InTurn(s, l)
    ensures Step(s, l).Next? ==>
              Step(s, l).state.scheduled[a] == s.scheduled[a] + (if Queues(s, l, a) then 1 else 0)
  {
    FaultOnlyByServing(s, l);
    match l {
      case NewSession => hide Inv;
      case NewRequest(sid, o, out) => CreateQueues(s, sid, o, out, a); hide Inv, Queues;
      case DestroyRequest(b) => assert Live(s, b); DestroyQueues(s, b, a); hide Inv, Queues;
      case DestroySession(sid) => SessionScheduled(s, sid, a); hide Inv;
      case FailWrite(b) => hide Inv;
      case PoolCheck(c) => assert s.pool.Some?; CheckQueues(s, c, a); hide Inv, Queues;
      case ServeEvent(f) => hide Inv;
      case LoseInterp(i) => hide Inv;
      case ExitThread => ExitQueues(s, a); hide Inv;
    }
  }

  // --------------------------------------------------------- running the callback

  /** The step runs the request's callback. */
  predicate Runs(s: State, l: Label, a: Addr) {
    l.ServeEvent? && l.fileEvents && s.queue != [] && Names(s.queue[0], a)
  }

  lemma ServeRuns(s: State, f: bool, a: Addr)
    requires Inv(s) && ServeDefined(s) && Service(s, f).Next?
    ensures Service(s, f).state.invoked[a] == s.invoked[a] + (if Runs(s, ServeEvent(f), a) then 1 else 0)
  {
    assert EventLinks(s);
    hide Inv, EventLinks, Service, ServeDefined;
    HeadServed(s, f);
  }

  /** A callback runs exactly when an event that names its request is served: it is the
      head of the queue, and the pass serves file events. */
  lemma StepRunsIff(s: State, l: Label, a: Addr)
    requires Inv(s) && Enabled(s, l) && InTurn(s, l)
    ensures Step(s, l).Next? ==>
              Step(s, l).state.invoked[a] == s.invoked[a] + (if Runs(s, l, a) then 1 else 0)
  {
    FaultOnlyByServing(s, l);
    match l {
      case NewSession => hide Inv;
      case NewRequest(sid, o, out) => CreateQueues(s, sid, o, out, a); hide Inv;
      case DestroyRequest(b) => assert Live(s, b); DestroyQueues(s, b, a); hide Inv;
      case DestroySession(sid) => SessionNext(s, sid); hide Inv;
      case FailWrite(b) => hide Inv;
      case PoolCheck(c) => assert s.pool.Some?; CheckQueues(s, c, a); hide Inv;
      case ServeEvent(f) =>
        FaultIff(s, f);
        if Service(s, f).Next? { ServeRuns(s, f, a); }
        hide Inv;
      case LoseInterp(i) => hide Inv;
      case ExitThread => MembersLive(s); ExitNext(s); hide Inv;
    }
  }

  // --------------------------------------------------------- each request by itself

  /** What a step makes of a live request, whatever the other requests are. */
  ghost predicate Becomes(s: State, l: Label, t: State, a: Addr)
    requires Live(s, a)
  {
    var r := s.reqs[a];
    match l
    case DestroyRequest(b) => if b == a then !Live(t, a) else Live(t, a) && t.reqs[a] == r
    case DestroySession(sid) => if r.session == Some(sid) then !Live(t, a) else Live(t, a) && t.reqs[a] == r
    case FailWrite(b) => Live(t, a) && t.reqs[a] == if b == a then r.(state := Error, error := true) else r
    case PoolCheck(c) =>
      s.pool.Some? && Live(t, a) && CheckedTo(s, c, r, t.reqs[a], a)
    case ServeEvent(_) => Live(t, a) && t.reqs[a] == if Runs(s, l, a) then r.(event := None) else r
    case ExitThread =>
      Live(t, a) &&
      var fails := r.state == InProgress && r.interp !in s.deletedInterps;
      if r.pooled
      then t.reqs[a] == r.(pooled := false, state := if fails then Error else r.state, error := r.error || fails,
                           event := t.reqs[a].event)
      else t.reqs[a] == r
    case _ => Live(t, a) && t.reqs[a] == r
  }

  /** What a check makes of it. */
  ghost predicate CheckedTo(s: State, c: CheckInput, r: Req, r1: Req, a: Addr)
    requires s.pool.Some?
  {
    if Due(s, c) && c.performOk && a in Handles(Messages(s, c))
    then exists m :: m in Messages(s, c) && m.handle == a && Settles(r, r1, m.ok)
    else r1 == r
  }

  lemma EndedTo(s: State, t: State, msgs: seq<Msg>, a: Addr)
    requires AllLive(s, msgs) && Ended(s, t, msgs) && Live(s, a)
    ensures Live(t, a)
    ensures a in Handles(msgs) ==> exists m :: m in msgs && m.handle == a && Settles(s.reqs[a], t.reqs[a], m.ok)
    ensures a !in Handles(msgs) ==> t.reqs[a] == s.reqs[a]
  {
    hide Counted, Notified;
    if a in Handles(msgs) {
      var i :| 0 <= i < |msgs| && msgs[i].handle == a;
      assert msgs[i] in msgs && Settles(s.reqs[a], t.reqs[a], msgs[i].ok);
    }
  }

  lemma CheckBecomes(s: State, c: CheckInput, a: Addr)
    requires Inv(s) && CheckEnabled(s, c) && Live(s, a)
    ensures MessagesLive(s) && AllLive(s, c.completions)
    ensures var t := EventCheck(s, c); Live(t, a) && CheckedTo(s, c, s.reqs[a], t.reqs[a], a)
  {
    MessagesAreLive(s);
    CompletionsLive(s, c.completions);
    hide Inv, CanComplete, Ended, Queued, Refreshed, Settles;
    if !Due(s, c) {
      CheckRests(s, c);
    } else if !c.performOk {
      CheckFails(s, c);
    } else {
      hide EventCheck;
      CheckEffect(s, c);
      EndedTo(s, EventCheck(s, c), Messages(s, c), a);
    }
  }

  lemma ServeBecomes(s: State, f: bool, a: Addr)
    requires Inv(s) && ServeDefined(s) && Service(s, f).Next? && Live(s, a)
    ensures var t := Service(s, f).state;
            Live(t, a) && t.reqs[a] == if Runs(s, ServeEvent(f), a) then s.reqs[a].(event := None) else s.reqs[a]
  {
    assert EventLinks(s);
    hide Inv, EventLinks, Service, ServeDefined;
    HeadServed(s, f);
  }

  lemma CreateBecomes(s: State, sid: Option<Addr>, o: RequestOptions, out: RunOutcome, a: Addr)
    requires Inv(s) && (sid.Some? ==> sid.value in s.sessions) && RunFits(o, out) && o.interp !in s.deletedInterps
    requires Live(s, a)
    ensures var t := CreateRequest(s, sid, o, out); Live(t, a) && t.reqs[a] == s.reqs[a]
  {
    HistoryBounds(s);
    hide Inv, CreateRequest, PoolAfter, RunTo, SetUp, Called;
    if o.simple { CreatedSimple(s, sid, o, out); } else { CreatedStays(s, sid, o, out); }
  }

  lemma SessionBecomes(s: State, sid: Addr, a: Addr)
    requires Inv(s) && sid in s.sessions && !s.exited && Live(s, a)
    ensures SessionMembersLinked(s, sid) && Becomes(s, DestroySession(sid), SessionFree(s, sid), a)
  {
    MemberIff(s, sid, a);
    hide Inv, SessionFree, SessionMembersLinked, ReleasedWith;
    SessionFreeKeeps(s, sid);
    ReleasedOne(s, SessionFree(s, sid), sid, s.sessions[sid], a);
  }

  lemma ReleasedOne(s: State, t: State, sid: Addr, q: seq<Addr>, a: Addr)
    requires ReleasedWith(s, t, sid, q) && Live(s, a)
    ensures if a in q then !Live(t, a) else Live(t, a) && t.reqs[a] == s.reqs[a]
  {}

  lemma MemberIff(s: State, sid: Addr, a: Addr)
    requires Inv(s) && sid in s.sessions && Live(s, a)
    ensures a in s.sessions[sid] <==> s.reqs[a].session == Some(sid)
  {}

  lemma DestroyBecomes(s: State, b: Addr, a: Addr)
    requires Inv(s) && Live(s, b) && Live(s, a)
    ensures Linked(s, b) && Becomes(s, DestroyRequest(b), DeleteCommand(s, b), a)
  {
    hide Inv, RequestFree, DeleteCommand, Linked;
    DestroyEvolves(s, b);
    FreeEffect(s, b);
  }

  lemma ExitBecomes(s: State, a: Addr)
    requires Inv(s) && !s.exited && Quiet(s) && Live(s, a)
    ensures PoolMembersLive(s) && Becomes(s, ExitThread, ThreadExit(s), a)
  {
    hide Inv, ThreadExit, Global, Quiet, PoolMembersLive;
    ExitEffect(s);
    var t := ThreadExit(s);
    assert if Pooled(s, a) then Expelled(s, t, a) else Untouched(s, t, a);
  }

  /** Seen by itself each request goes through a small automaton: what a step makes of it
      depends on the step, its own fields, the messages about it and the queue's head. */
  lemma StepEffect(s: State, l: Label, a: Addr)
    requires Inv(s) && Enabled(s, l) && InTurn(s, l) && Live(s, a)
    ensures Step(s, l).Next? ==> Becomes(s, l, Step(s, l).state, a)
  {
    hide CreateRequest, DeleteCommand, SessionFree, EventCheck, ThreadExit;
    FaultOnlyByServing(s, l);
    match l {
      case NewSession => hide Inv;
      case NewRequest(sid, o, out) => CreateBecomes(s, sid, o, out, a); hide Inv;
      case DestroyRequest(b) => assert Live(s, b); DestroyBecomes(s, b, a); hide Inv, Becomes;
      case DestroySession(sid) => SessionBecomes(s, sid, a); hide Inv, Becomes;
      case FailWrite(b) => hide Inv;
      case PoolCheck(c) => assert s.pool.Some?; CheckBecomes(s, c, a); hide Inv, CheckedTo;
      case ServeEvent(f) =>
        FaultIff(s, f);
        if Service(s, f).Next? { ServeBecomes(s, f, a); }
        hide Inv, Runs, Service;
      case LoseInterp(i) => hide Inv;
      case ExitThread => ExitBecomes(s, a); hide Inv, Becomes;
    }
  }

  // ------------------------------------------------------------------- whole runs

  /** No event that was queued for `a` is taken back, and none is queued once it is gone. */
  ghost predicate Counts(s: State, t: State, a: Addr) {
    s.scheduled[a] <= t.scheduled[a] && (IsGone(s, a) ==> IsGone(t, a) && t.scheduled[a] == s.scheduled[a])
  }

  lemma GoneStays(s: State, l: Label, a: Addr)
    requires Inv(s) && Enabled(s, l) && InTurn(s, l) && Honest(s) && IsGone(s, a)
    ensures Step(s, l).Next? ==> IsGone(Step(s, l).state, a)
  {
    StepEvolves(s, l);
    hide Inv, Enabled, InTurn, Honest, Step;
  }

  lemma StepCounts(s: State, l: Label, a: Addr)
    requires Inv(s) && Enabled(s, l) && InTurn(s, l) && Honest(s)
    ensures Step(s, l).Next? ==> Counts(s, Step(s, l).state, a)
  {
    StepQueuesIff(s, l, a);
    if IsGone(s, a) { GoneStays(s, l, a); }
    hide Inv, Enabled, InTurn, Honest, Step;
  }

  /** Over every run the number of callback events queued for a request never falls,
      and once the request is gone it never changes. */
  lemma {:induction false} RunCounts(s: State, ls: seq<Label>, checked: bool, a: Addr)
    requires Good(s, checked) && Scheduled(s, ls, checked) && Honest(s)
    ensures Exec(s, ls, checked).Next? ==> Counts(s, Exec(s, ls, checked).state, a)
    decreases |ls|
  {
    hide Good, Inv, Enabled, InTurn, Honest;
    if ls != [] {
      GoodSteps(s, ls[0], checked);
      StepCounts(s, ls[0], a);
      StepHonest(s, ls[0]);
      hide Step;
      if Step(s, ls[0]).Next? { RunCounts(Step(s, ls[0]).state, ls[1..], ls[0].PoolCheck?, a); }
    }
  }

  /** The request is gone, or its interpreter has been deleted. */
  predicate Mute(s: State, a: Addr) {
    IsGone(s, a) || (Live(s, a) && s.reqs[a].interp in s.deletedInterps)
  }

  /** Interpreters stay deleted. */
  lemma InterpsGrow(s: State, l: Label)
    requires Inv(s) && Enabled(s, l) && InTurn(s, l)
    ensures Step(s, l).Next? ==>
              Step(s, l).state.deletedInterps == s.deletedInterps + if l.LoseInterp? then {l.interp} else {}
  {
    hide Queues, CreateRequest, DeleteCommand, SessionFree, EventCheck, ThreadExit;
    FaultOnlyByServing(s, l);
    match l {
      case NewSession => hide Inv;
      case NewRequest(sid, o, out) => CreateQueues(s, sid, o, out, 0); hide Inv;
      case DestroyRequest(b) => assert Live(s, b); DestroyQueues(s, b, 0); hide Inv;
      case DestroySession(sid) => SessionNext(s, sid); hide Inv;
      case FailWrite(b) => hide Inv;
      case PoolCheck(c) => assert s.pool.Some?; CheckQueues(s, c, 0); hide Inv;
      case ServeEvent(f) =>
        FaultIff(s, f);
        if Service(s, f).Next? { ServeInterps(s, f); }
        hide Inv, Service;
      case LoseInterp(i) => hide Inv;
      case ExitThread => MembersLive(s); ExitNext(s); hide Inv;
    }
  }

  lemma ServeInterps(s: State, f: bool)
    requires ServeDefined(s) && Service(s, f).Next?
    ensures Service(s, f).state.deletedInterps == s.deletedInterps
  {}

  lemma StepMute(s: State, l: Label, a: Addr)
    requires Inv(s) && Enabled(s, l) && InTurn(s, l) && Honest(s) && Mute(s, a)
    ensures Step(s, l).Next? ==>
              var t := Step(s, l).state; Mute(t, a) && t.scheduled[a] == s.scheduled[a]
  {
    StepQueuesIff(s, l, a);
    InterpsGrow(s, l);
    StepEvolves(s, l);
    MuteBound(s, a);
    hide Inv, Enabled, InTurn, Honest, Step;
  }

  lemma MuteBound(s: State, a: Addr)
    requires Inv(s) && Mute(s, a)
    ensures a < s.nextReq
  {}

  /** Over every run nothing is queued for a request once its interpreter is deleted. */
  lemma {:induction false} RunMute(s: State, ls: seq<Label>, checked: bool, a: Addr)
    requires Good(s, checked) && Scheduled(s, ls, checked) && Honest(s) && Mute(s, a)
    ensures Exec(s, ls, checked).Next? ==> Exec(s, ls, checked).state.scheduled[a] == s.scheduled[a]
    decreases |ls|
  {
    hide Good, Inv, Enabled, InTurn, Honest, Mute;
    if ls != [] {
      GoodSteps(s, ls[0], checked);
      StepMute(s, ls[0], a);
      StepHonest(s, ls[0]);
      hide Step;
      if Step(s, ls[0]).Next? { RunMute(Step(s, ls[0]).state, ls[1..], ls[0].PoolCheck?, a); }
    }
  }

  // ---------------------------------------- a request that is destroyed in the pool

  ghost predicate Destroys(s: State, l: Label, a: Addr) {
    || l == DestroyRequest(a)
    || (l.DestroySession? && Live(s, a) && s.reqs[a].session == Some(l.which))
  }

  /** Destroying it queues a callback event exactly when it is in progress. */
  lemma DestroyCounts(s: State, l: Label, a: Addr)
    requires Inv(s) && Enabled(s, l) && InTurn(s, l) && Honest(s)
    requires Destroys(s, l, a) && Wants(s, a) && s.reqs[a].pooled
    ensures Step(s, l).Next?
    ensures var t := Step(s, l).state;
            IsGone(t, a) && t.scheduled[a] == if s.reqs[a].state == InProgress then 1 else 0
  {
    FaultOnlyByServing(s, l);
    StepQueuesIff(s, l, a);
    StepEffect(s, l, a);
    StepEvolves(s, l);
    assert ReqOk(s, a) && a < s.nextReq;
    if l.DestroySession? { MemberIff(s, l.which, a); }
    hide Inv, Enabled, InTurn, Honest, Step;
  }
}
