/** Every callback arrives: once all transfers have ended, one successful check and
    the service of the queue it leaves bring the pool to rest, with every callback run. */
module LifecycleDelivery {
  import opened Lifecycle
  import opened LifecycleInvariant
  import opened LifecycleRelease
  import opened LifecyclePool
  import opened LifecycleCheck
  import opened LifecycleSteps
  import opened LifecycleRuns
  import opened LifecycleDangling
  import opened LifecycleTheorems

  // ---------------------------------------------------------------- the check

  /** The same requests, as far as their callbacks are concerned. */
  ghost predicate SameRequests(s: State, t: State) {
    && t.reqs.Keys == s.reqs.Keys && t.deletedInterps == s.deletedInterps
    && forall a :: a in s.reqs ==> t.reqs[a].callback == s.reqs[a].callback && t.reqs[a].interp == s.reqs[a].interp
  }

  /** Each finished transfer's request is in the state its message reports. */
  ghost predicate Reported(t: State, msgs: seq<Msg>) {
    forall m :: m in msgs ==> Live(t, m.handle) && t.reqs[m.handle].state == if m.ok then Done else Error
  }

  lemma EndedReports(s: State, t: State, msgs: seq<Msg>)
    requires AllLive(s, msgs) && Ended(s, t, msgs)
    ensures SameRequests(s, t) && Reported(t, msgs)
  {
    hide Notified, Remaining;
    forall a | a in Handles(msgs)
      ensures t.reqs[a].callback == s.reqs[a].callback && t.reqs[a].interp == s.reqs[a].interp
    {
      var i :| 0 <= i < |msgs| && msgs[i].handle == a;
      assert Settles(s.reqs[a], t.reqs[a], msgs[i].ok);
    }
    forall m | m in msgs ensures Live(t, m.handle) && t.reqs[m.handle].state == if m.ok then Done else Error {
      var i :| 0 <= i < |msgs| && msgs[i] == m;
      assert Settles(s.reqs[m.handle], t.reqs[m.handle], m.ok);
    }
  }

  lemma SomethingAttached(s: State)
    requires Inv(s) && s.pool.Some? && s.pool.value.requests != []
    ensures s.pool.value.multi.msgs != [] || s.pool.value.multi.running != {}
  {
    CounterIsAttached(s);
  }

  /** When every running transfer has ended the check puts the deactivation before the callbacks. */
  lemma CheckEmpties(s: State, c: CheckInput)
    requires Inv(s) && CheckEnabled(s, c) && s.pool.value.requests != []
    requires Handles(c.completions) == s.pool.value.multi.running && Due(s, c) && c.performOk
    ensures MessagesLive(s) && AllLive(s, c.completions)
    ensures var t := EventCheck(s, c);
      SameRequests(s, t) && Reported(t, Messages(s, c)) && t.queue != [] && t.queue[0].DeactivateEvent?
  {
    hide Inv, EventCheck, CanComplete, Ended, SameRequests, Reported, Notified, Numbered;
    SomethingAttached(s);
    CheckEffect(s, c);
    EndedReports(s, EventCheck(s, c), Messages(s, c));
  }

  // ---------------------------------------------------------------- the queue

  /** Serving an event changes a request in its `callback_event` at most. */
  ghost predicate Served(s: State, t: State) {
    && t.reqs.Keys == s.reqs.Keys && t.deletedInterps == s.deletedInterps
    && forall a :: a in s.reqs ==> t.reqs[a] == s.reqs[a].(event := t.reqs[a].event)
  }

  lemma ServiceHead(s: State)
    requires EventLinks(s) && s.queue != [] && ServeDefined(s) && Service(s, true).Next?
    ensures var t := Service(s, true).state;
      && Served(s, t) && t.queue == s.queue[1..] && t.exited == s.exited
      && if s.queue[0].DeactivateEvent? then s.pool.Some? && t == PoolDeactivate(s.(queue := s.queue[1..]))
         else t.pool == s.pool && t.sources == s.sources
  {
    hide Service, ServeDefined, EventLinks;
    HeadServed(s, true);
  }

  lemma ServeOne(s: State)
    requires Inv(s) && !s.exited && NoDangling(s) && s.queue != []
    ensures Enabled(s, ServeEvent(true)) && Step(s, ServeEvent(true)).Next?
    ensures var t := Step(s, ServeEvent(true)).state;
      && Inv(t) && !t.exited && NoDangling(t) && Served(s, t) && t.queue == s.queue[1..]
      && if s.queue[0].DeactivateEvent? then s.pool.Some? && t == PoolDeactivate(s.(queue := s.queue[1..]))
         else t.pool == s.pool && t.sources == s.sources
  {
    assert EventLinks(s);
    hide Inv, NoDangling, Service, ServeDefined, EventLinks;
    ServeClean(s, true);
    ServeKeeps(s, true);
    ServiceHead(s);
  }

  /** Serving all callbacks that wait. */
  lemma {:induction false} ServeCallbacks(s: State, checked: bool)
    requires Inv(s) && !s.exited && NoDangling(s) && Quiet(s)
    ensures Scheduled(s, Serves(|s.queue|), checked) && Exec(s, Serves(|s.queue|), checked).Next?
    ensures var t := Exec(s, Serves(|s.queue|), checked).state;
      Inv(t) && !t.exited && Served(s, t) && t.queue == [] && t.pool == s.pool && t.sources == s.sources
    decreases |s.queue|
  {
    hide Inv, NoDangling, Enabled, Step;
    if s.queue != [] {
      ServeOne(s);
      var t := Step(s, ServeEvent(true)).state;
      assert Quiet(t);
      ServeCallbacks(t, false);
      RunCons(s, ServeEvent(true), t, Serves(|t.queue|), checked);
      assert Serves(|s.queue|) == [ServeEvent(true)] + Serves(|t.queue|);
    }
  }

  /** At rest with an empty pool every callback that was wanted has run, once. */
  lemma AllCalled(s: State)
    requires Inv(s) && !s.exited && s.queue == [] && s.pool.Some? && s.pool.value.requests == []
    ensures forall a :: Live(s, a) && s.reqs[a].callback && s.reqs[a].interp !in s.deletedInterps ==> s.invoked[a] == 1
  {
    forall a | Live(s, a) && s.reqs[a].callback && s.reqs[a].interp !in s.deletedInterps ensures s.invoked[a] == 1 {
      assert ReqOk(s, a);
      assert a !in s.pool.value.requests;
    }
  }

  // ---------------------------------------------------------------- the theorem

  /** The pool has come to rest, and every request has been told. */
  ghost predicate Delivered(s: State, t: State, msgs: seq<Msg>) {
    && t.queue == [] && !t.exited
    && t.pool.Some? && t.pool.value.requests == [] && !t.pool.value.isActive && t.sources == 0
    && SameRequests(s, t) && Reported(t, msgs)
    && forall a :: Live(t, a) && t.reqs[a].callback && t.reqs[a].interp !in t.deletedInterps ==> t.invoked[a] == 1
  }

  lemma DeactivationWaits(s: State)
    requires Inv(s) && !s.exited && s.queue != [] && s.queue[0].DeactivateEvent?
    ensures s.pool.Some? && s.pool.value.requests == [] && s.sources == 1
    ensures forall i :: 1 <= i < |s.queue| ==> s.queue[i].CallbackEvent?
  {}

  lemma DeactivationFirst(s: State, t: State)
    requires forall i :: 1 <= i < |s.queue| ==> s.queue[i].CallbackEvent?
    requires s.queue != [] && t.queue == s.queue[1..]
    ensures Quiet(t)
  {}

  /** Serving the deactivation, then the callbacks. */
  lemma ServeAll(s: State)
    requires Inv(s) && !s.exited && NoDangling(s) && s.queue != [] && s.queue[0].DeactivateEvent?
    ensures Scheduled(s, Serves(|s.queue|), true) && Exec(s, Serves(|s.queue|), true).Next?
    ensures var t := Exec(s, Serves(|s.queue|), true).state;
      && Inv(t) && !t.exited && Served(s, t) && t.queue == []
      && t.pool.Some? && t.pool.value.requests == [] && !t.pool.value.isActive && t.sources == 0
  {
    DeactivationWaits(s);
    hide Inv, NoDangling, Enabled, Step, Quiet;
    ServeOne(s);
    var t := Step(s, ServeEvent(true)).state;
    assert Quiet(t) by { DeactivationFirst(s, t); }
    ServeCallbacks(t, false);
    RunCons(s, ServeEvent(true), t, Serves(|t.queue|), true);
    assert Serves(|s.queue|) == [ServeEvent(true)] + Serves(|t.queue|);
  }

  /** From any reachable state without dangling events, in which the pool holds requests:
      let every running transfer end, as well or badly as it may, let the check procedure
      drive libcurl, and serve the events. Then the pool is empty and inactive and its
      source gone, every transfer's request is in the state that was reported for it, and
      every request that wants its callback has had it, once. */
  lemma EverythingDelivered(ls: seq<Label>, s: State, c: CheckInput)
    requires ReachedBy(ls, s) && !s.exited && !EndsChecked(ls) && NoDangling(s)
    requires s.pool.Some? && s.pool.value.requests != [] && CanComplete(s, c.completions)
    requires Handles(c.completions) == s.pool.value.multi.running && Due(s, c) && c.performOk
    ensures MessagesLive(s) && AllLive(s, c.completions)
    ensures var run := [PoolCheck(c)] + Serves(|EventCheck(s, c).queue|);
      && Scheduled(s, run, EndsChecked(ls)) && Exec(s, run, EndsChecked(ls)).Next?
      && Delivered(s, Exec(s, run, EndsChecked(ls)).state, Messages(s, c))
  {
    CheckPossible(ls, s, c);
    hide Inv, ReachedBy, NoDangling, CanComplete, CheckEnabled, EventCheck, AllLive, MessagesLive, Step, Enabled;
    hide Delivered;
    CheckKeeps(s, c);
    CheckClean(s, c);
    CheckEmpties(s, c);
    var t := EventCheck(s, c);
    CheckStep(s, c, t);
    ServeAll(t);
    RunCons(s, PoolCheck(c), t, Serves(|t.queue|), EndsChecked(ls));
    AllDelivered(s, t, Exec(t, Serves(|t.queue|), true).state, Messages(s, c));
  }

  lemma CheckPossible(ls: seq<Label>, s: State, c: CheckInput)
    requires ReachedBy(ls, s) && !s.exited && !EndsChecked(ls)
    requires s.pool.Some? && s.pool.value.requests != [] && CanComplete(s, c.completions)
    ensures Inv(s) && CheckEnabled(s, c)
  {
    ReachedIsGood(ls, s);
    QuietBetweenTurns(ls, s);
    SourceFollowsPool(ls, s);
    hide Inv, ReachedBy;
  }

  lemma AllDelivered(s: State, t: State, u: State, msgs: seq<Msg>)
    requires SameRequests(s, t) && Reported(t, msgs) && Served(t, u)
    requires Inv(u) && !u.exited && u.queue == []
    requires u.pool.Some? && u.pool.value.requests == [] && !u.pool.value.isActive && u.sources == 0
    ensures Delivered(s, u, msgs)
  {
    hide Inv;
    AllCalled(u);
    assert SameRequests(s, u);
    assert Reported(u, msgs);
  }

  lemma CheckStep(s: State, c: CheckInput, t: State)
    requires CheckEnabled(s, c) && MessagesLive(s) && AllLive(s, c.completions) && t == EventCheck(s, c)
    ensures Enabled(s, PoolCheck(c)) && Step(s, PoolCheck(c)) == Next(t)
  {}
}
