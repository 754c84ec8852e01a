/** The whole effect of the pool's check procedure: when it leaves everything alone, and
    what becomes of the requests, the queue and the pool when it does not. */
module LifecycleCheck {
  import opened Common
  import opened Lifecycle
  import opened LifecycleInvariant
  import opened LifecyclePool

  /** The check procedure may drive libcurl: the pass serves file events, and either a
      request has been added or libcurl reports descriptors that are ready. */
  predicate Due(s: State, c: CheckInput)
    requires s.pool.Some?
  {
    c.fileEvents && (s.pool.value.needRefresh || c.wait.WaitReady?)
  }

  /** Otherwise it leaves everything as it is, whatever libcurl would have reported. */
  lemma CheckRests(s: State, c: CheckInput)
    requires s.pool.Some? && MessagesLive(s) && AllLive(s, c.completions) && !Due(s, c)
    ensures EventCheck(s, c) == s
  {}

  /** If driving libcurl fails the transfers have moved on, but no message is read. */
  lemma CheckFails(s: State, c: CheckInput)
    requires s.pool.Some? && MessagesLive(s) && AllLive(s, c.completions) && Due(s, c) && !c.performOk
    ensures var p := s.pool.value;
            EventCheck(s, c) ==
                s.(pool := Some(p.(needRefresh := false, multi := MultiPerform(p.multi, c.completions))))
  {
    var s0 := s.(pool := Some(s.pool.value.(needRefresh := false)));
    assert !s.pool.value.needRefresh ==> s0 == s;
    hide MultiPerform;
  }

  /** All messages that libcurl has to report once it has been driven. */
  function Messages(s: State, c: CheckInput): seq<Msg>
    requires s.pool.Some?
  {
    s.pool.value.multi.msgs + c.completions
  }

  /** What becomes of the requests: every message ends the request it is about, in the
      reported state, and nothing happens to the others. */
  ghost predicate Ended(s: State, t: State, msgs: seq<Msg>)
    requires AllLive(s, msgs)
  {
    && t.reqs.Keys == s.reqs.Keys
    && (forall i :: 0 <= i < |msgs| ==> Settles(s.reqs[msgs[i].handle], t.reqs[msgs[i].handle], msgs[i].ok))
    && (forall a :: a in s.reqs && a !in Handles(msgs) ==> t.reqs[a] == s.reqs[a])
    && Counted(s, t, Notified(s, msgs), Handles(msgs))
  }

  /** What becomes of the queue: the wanted callbacks come last, in the order of the messages,
      and a deactivation comes first if there was a message and no transfer goes on. */
  ghost predicate Queued(s: State, c: CheckInput, t: State, msgs: seq<Msg>)
    requires s.pool.Some? && AllLive(s, msgs)
  {
    t.queue == (if msgs != [] && s.pool.value.multi.running <= Handles(c.completions) then [DeactivateEvent] else [])
               + s.queue + Numbered(Notified(s, msgs), s.nextEvent)
  }

  /** What becomes of the pool besides its list: the messages are gone, no refresh is due. */
  ghost predicate Refreshed(s: State, c: CheckInput, t: State)
    requires s.pool.Some?
  {
    && t.pool.Some? && !t.pool.value.needRefresh && t.pool.value.isActive == s.pool.value.isActive
    && t.pool.value.multi.msgs == []
    && t.pool.value.multi.running == s.pool.value.multi.running - Handles(c.completions)
    && t.sources == s.sources && t.exited == s.exited
  }

  lemma PerformIsDrain(s: State, completions: seq<Msg>)
    requires Inv(s) && !s.exited && s.pool.Some? && CanComplete(s, completions)
    ensures MessagesLive(s) && AllLive(s, completions)
    ensures var s1 := SetMulti(s, MultiPerform(s.pool.value.multi, completions));
            && Inv(s1) && MessagesLive(s1) && s1.pool.value.multi.msgs == s.pool.value.multi.msgs + completions
            && var d := Drain(s1);
               var m := s1.pool.value.multi;
               PerformAndDrain(s, true, completions) ==
                 d.(queue := (if m.msgs != [] && m.running == {} then [DeactivateEvent] else []) + d.queue)
  {
    MessagesAreLive(s);
    CompletionsLive(s, completions);
    PerformKeeps(s, completions);
    var s1 := SetMulti(s, MultiPerform(s.pool.value.multi, completions));
    MessagesAreLive(s1);
    EarlyReturnIff(s1);
    hide Inv, MessagesLive, AllLive, CanComplete;
    if s1.pool.value.multi.msgs == [] { assert Drain(s1) == s1; }
    hide Drain;
    assert [] + Drain(s1).queue == Drain(s1).queue;
  }

  lemma EndedFrom(s: State, s1: State, t: State, msgs: seq<Msg>)
    requires AllLive(s1, msgs) && Drained(s1, t, msgs) && Counted(s1, t, Notified(s1, msgs), Handles(msgs))
    requires s.pool.Some? && s1.pool.Some?
    requires s1 == s.(pool := s1.pool) && s1.pool.value.requests == s.pool.value.requests
    ensures AllLive(s, msgs) && Ended(s, t, msgs) && t.queue == s.queue + Numbered(Notified(s, msgs), s.nextEvent)
  {
    NotifiedFrame(s, s1, msgs);
    hide Notified, Numbered, Remaining, Handles, Settles;
  }

  lemma EndedQueue(s: State, t: State, msgs: seq<Msg>, q: seq<Event>)
    requires AllLive(s, msgs) && Ended(s, t, msgs)
    ensures Ended(s, t.(queue := q), msgs)
  {
    hide Notified, Remaining, Handles, Settles;
  }

  /** `s1` is `s` after libcurl has been driven. */
  ghost predicate Driven(s: State, c: CheckInput, s1: State)
    requires s.pool.Some?
  {
    var p := s.pool.value;
    s1 == s.(pool := Some(p.(needRefresh := false, multi := MultiPerform(p.multi, c.completions))))
  }

  lemma DrainEnds(s: State, c: CheckInput, s1: State)
    requires s.pool.Some? && Driven(s, c, s1) && Inv(s1) && !s1.exited
    ensures MessagesLive(s1) && AllLive(s, Messages(s, c))
    ensures var d := Drain(s1);
            && Ended(s, d, Messages(s, c)) && Refreshed(s, c, d)
            && d.queue == s.queue + Numbered(Notified(s, Messages(s, c)), s.nextEvent)
  {
    hide Inv, Drain, Drained, Counted, Ended;
    DrainEffect(s1);
    DrainExact(s1);
    EndedFrom(s, s1, Drain(s1), s1.pool.value.multi.msgs);
    RefreshedFrom(s, c, s1, Drain(s1));
  }

  lemma RefreshedFrom(s: State, c: CheckInput, s1: State, d: State)
    requires s.pool.Some? && Driven(s, c, s1) && d.pool.Some?
    requires d.pool.value.multi.msgs == [] && d.pool.value.multi.running == s1.pool.value.multi.running
    requires d.pool.value.isActive == s1.pool.value.isActive && !d.pool.value.needRefresh
    requires d.exited == s1.exited && d.sources == s1.sources
    ensures Refreshed(s, c, d)
  {}

  lemma PerformEnds(s: State, s0: State, c: CheckInput)
    requires Inv(s0) && !s0.exited && s.pool.Some?
    requires s0 == s.(pool := Some(s.pool.value.(needRefresh := false))) && CanComplete(s0, c.completions)
    ensures MessagesLive(s0) && AllLive(s0, c.completions) && AllLive(s, Messages(s, c))
    ensures var t := PerformAndDrain(s0, true, c.completions);
            Ended(s, t, Messages(s, c)) && Queued(s, c, t, Messages(s, c)) && Refreshed(s, c, t)
  {
    hide Inv, Drain, MessagesLive, AllLive, CanComplete, PerformAndDrain, Ended, Notified, Numbered;
    PerformIsDrain(s0, c.completions);
    var s1 := SetMulti(s0, MultiPerform(s0.pool.value.multi, c.completions));
    DrainEnds(s, c, s1);
    EndedQueue(s, Drain(s1), Messages(s, c), PerformAndDrain(s0, true, c.completions).queue);
    NothingRuns(s.pool.value.multi.running, Handles(c.completions));
  }

  lemma NothingRuns(running: set<Addr>, done: set<Addr>)
    ensures running - done == {} <==> running <= done
  {
    if running - done == {} {
      assert forall a :: a in running && a !in done ==> a in running - done;
    }
  }

  /** When it drives libcurl with success, every message that libcurl has ends its request,
      and only these: in the reported state, off the pool's list, whose order stays, with its
      callback queued behind everything else. If no transfer goes on, the deactivation is
      queued in front of everything else. */
  lemma CheckEffect(s: State, c: CheckInput)
    requires Inv(s) && CheckEnabled(s, c) && Due(s, c) && c.performOk
    ensures MessagesLive(s) && AllLive(s, c.completions) && AllLive(s, Messages(s, c))
    ensures var t := EventCheck(s, c);
            Ended(s, t, Messages(s, c)) && Queued(s, c, t, Messages(s, c)) && Refreshed(s, c, t)
  {
    var s0 := s.(pool := Some(s.pool.value.(needRefresh := false)));
    RefreshedKeeps(s);
    MessagesAreLive(s);
    CompletionsLive(s, c.completions);
    hide Inv, Ended, Queued, Refreshed, PerformAndDrain;
    assert !s.pool.value.needRefresh ==> s0 == s;
    PerformEnds(s, s0, c);
  }

  /** A request leaves the pool in a check exactly when the check drives libcurl with success
      and libcurl has a message about it. */
  lemma LeavesByCheckIff(s: State, c: CheckInput, a: Addr)
    requires Inv(s) && CheckEnabled(s, c) && Live(s, a) && s.reqs[a].pooled
    ensures MessagesLive(s) && AllLive(s, c.completions) && Live(EventCheck(s, c), a)
    ensures !EventCheck(s, c).reqs[a].pooled <==> Due(s, c) && c.performOk && a in Handles(Messages(s, c))
  {
    MessagesAreLive(s);
    CompletionsLive(s, c.completions);
    if !Due(s, c) {
      CheckRests(s, c);
    } else if !c.performOk {
      CheckFails(s, c);
    } else {
      CheckEffect(s, c);
      hide Inv, EventCheck, Counted;
      if a in Handles(Messages(s, c)) {
        var msgs := Messages(s, c);
        var i :| 0 <= i < |msgs| && msgs[i].handle == a;
        assert Settles(s.reqs[a], EventCheck(s, c).reqs[a], msgs[i].ok);
      }
    }
  }
}
