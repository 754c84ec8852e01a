/** The pool's event check procedure with its drain loop. */
module LifecyclePool {
  import opened Common
  import opened Lifecycle
  import opened LifecycleInvariant

  // --------------------------------------------------------- one message

  lemma MessageOwner(s: State, m: Msg)
    requires Inv(s) && s.pool.Some? && m in s.pool.value.multi.msgs
    ensures Live(s, m.handle) && s.reqs[m.handle].pooled
    ensures ReqOk(s, m.handle) && s.reqs[m.handle].event.None? && s.scheduled[m.handle] == 0
  {
    assert m.handle in s.pool.value.multi.attached;
    assert m.handle in s.pool.value.requests;
  }

  lemma MessagesAreLive(s: State)
    requires Inv(s)
    ensures MessagesLive(s)
  {
    if s.pool.Some? {
      var msgs := s.pool.value.multi.msgs;
      forall i | 0 <= i < |msgs| ensures msgs[i].handle in s.reqs {
        MessageOwner(s, msgs[i]);
      }
    }
  }

  /** What a request becomes when libcurl reports the end of its transfer. */
  ghost predicate DeliveredAs(s: State, t: State, m: Msg)
    requires Live(s, m.handle)
  {
    var a := m.handle;
    var wants := s.reqs[a].callback && s.reqs[a].interp !in s.deletedInterps;
    && t.reqs == s.reqs[a := s.reqs[a].(state := if m.ok then Done else Error, pooled := false,
                                        event := if wants then Some(s.nextEvent) else s.reqs[a].event)]
    && t.scheduled == (if wants then s.scheduled + multiset{a} else s.scheduled)
    && t.queue == (if wants then s.queue + [CallbackEvent(s.nextEvent, Some(a))] else s.queue)
    && t.nextEvent == (if wants then s.nextEvent + 1 else s.nextEvent)
    && t.invoked == s.invoked && t.deletedInterps == s.deletedInterps && t.exited == s.exited
    && t.commands == s.commands && t.freed == s.freed && t.sources == s.sources && t.nextReq == s.nextReq
    && t.sessions == s.sessions
  }

  /** A finished request leaves the pool without being marked as removed. */
  lemma DeliverLeaves(s: State, m: Msg)
    requires s.pool.Some? && Live(s, m.handle)
    ensures var a, l := m.handle, LeavePool(SetReqState(s, m.handle, if m.ok then Done else Error), m.handle);
            && l.reqs == s.reqs[a := s.reqs[a].(state := if m.ok then Done else Error, pooled := false)]
            && l == s.(reqs := l.reqs, pool := l.pool) && l.pool.Some?
            && Deliver(s, m) == ScheduleCallback(l, a)
  {
    var l := LeavePool(SetReqState(s, m.handle, if m.ok then Done else Error), m.handle);
    hide ScheduleCallback;
    assert l.reqs[m.handle].state != InProgress;
  }

  /** Taking the head message off first makes no difference: removing the handle
      drops it as well. */
  lemma PopIrrelevant(s: State)
    requires s.pool.Some? && s.pool.value.multi.msgs != [] && Live(s, s.pool.value.multi.msgs[0].handle)
    ensures var m := s.pool.value.multi.msgs[0]; Deliver(PopMessage(s), m) == Deliver(s, m)
  {
    var m := s.pool.value.multi.msgs[0];
    var msgs := s.pool.value.multi.msgs;
    assert WithoutHandle(msgs, m.handle) == WithoutHandle(msgs[1..], m.handle);
    DeliverLeaves(s, m);
    DeliverLeaves(PopMessage(s), m);
    hide Deliver, ScheduleCallback, WithoutHandle, RemoveFirst;
  }

  lemma DeliverEffect(s: State, m: Msg)
    requires s.pool.Some? && Live(s, m.handle)
    ensures DeliveredAs(s, Deliver(s, m), m)
  {
    hide LeavePool, Deliver;
    DeliverLeaves(s, m);
    hide ScheduleCallback, DeliveredAs;
    ScheduledAs(s, LeavePool(SetReqState(s, m.handle, if m.ok then Done else Error), m.handle), m);
  }

  lemma ScheduledAs(s: State, l: State, m: Msg)
    requires Live(s, m.handle) && l == s.(reqs := l.reqs, pool := l.pool)
    requires l.reqs == s.reqs[m.handle := s.reqs[m.handle].(state := if m.ok then Done else Error, pooled := false)]
    ensures DeliveredAs(s, ScheduleCallback(l, m.handle), m)
  {
    assert l.reqs[m.handle].event == s.reqs[m.handle].event;
  }

  lemma DeliverPool(s: State, m: Msg)
    requires s.pool.Some? && Live(s, m.handle)
    ensures var p, q := s.pool.value, Deliver(s, m).pool.value;
            && q.multi == MultiRemove(p.multi, m.handle) && q.isActive == p.isActive && q.isDead == p.isDead
            && q.requests == (if p.isDead then p.requests else RemoveFirst(p.requests, m.handle))
            && q.needRefresh == p.needRefresh
  {
    DeliverLeaves(s, m);
    hide Deliver, ScheduleCallback;
  }

  lemma DeliveredReqOk(s: State, t: State, m: Msg)
    requires Live(s, m.handle) && ReqOk(s, m.handle) && s.reqs[m.handle].pooled && !s.exited
    requires DeliveredAs(s, t, m)
    ensures Live(t, m.handle) && ReqOk(t, m.handle)
  {}

  lemma DeliverKeeps(s: State, m: Msg)
    requires Inv(s) && !s.exited && s.pool.Some? && m in s.pool.value.multi.msgs
    ensures Live(s, m.handle) && Inv(Deliver(s, m))
  {
    MessageOwner(s, m);
    var a := m.handle;
    assert !s.pool.value.isDead;
    var s1 := SetReqState(s, a, if m.ok then Done else Error);
    var t := Deliver(s, m);
    DeliverLeaves(s, m);
    DeliverEffect(s, m);
    DeliveredReqOk(s, t, m);
    InvGlobal(s);
    hide Inv, Global, ReqOk, OthersOk, LeavePool, Deliver, DeliveredAs, ScheduleCallback;
    RewriteRequest(s, a, s.reqs[a].(state := if m.ok then Done else Error));
    LeavePoolKeeps(s1, a);
    var l := LeavePool(s1, a);
    ScheduleKeeps(l, a);
    OthersTrans(s, s1, l, a);
    OthersTrans(s, l, t, a);
    InvFromOthers(s, t, a);
  }

  // --------------------------------------------------------------- the drain loop

  /** The callback events for the requests `q`, numbered from `n`. */
  function Numbered(q: seq<Addr>, n: nat): seq<Event> {
    if q == [] then [] else [CallbackEvent(n, Some(q[0]))] + Numbered(q[1..], n + 1)
  }

  /** The finished requests that get a callback, in the order of their messages. */
  function Notified(s: State, msgs: seq<Msg>): seq<Addr>
    requires AllLive(s, msgs)
  {
    if msgs == [] then []
    else
      var r := s.reqs[msgs[0].handle];
      (if r.callback && r.interp !in s.deletedInterps then [msgs[0].handle] else []) + Notified(s, msgs[1..])
  }

  /** A finished request: out of the pool, in the reported state, otherwise as it was. */
  predicate Settles(r: Req, r1: Req, ok: bool) {
    r1 == r.(state := if ok then Done else Error, pooled := false, event := r1.event)
  }

  /** From `s` to `t` every finished transfer has been accounted for. */
  ghost predicate Drained(s: State, t: State, msgs: seq<Msg>)
    requires AllLive(s, msgs)
  {
    && t.reqs.Keys == s.reqs.Keys
    && (forall i :: 0 <= i < |msgs| ==> Settles(s.reqs[msgs[i].handle], t.reqs[msgs[i].handle], msgs[i].ok))
    && (forall a :: a in s.reqs && a !in Handles(msgs) ==> t.reqs[a] == s.reqs[a])
    && t.queue == s.queue + Numbered(Notified(s, msgs), s.nextEvent)
  }

  lemma {:induction false} NotifiedFrame(s: State, t: State, msgs: seq<Msg>)
    requires AllLive(s, msgs) && AllLive(t, msgs) && t.deletedInterps == s.deletedInterps
    requires forall i :: 0 <= i < |msgs| ==> t.reqs[msgs[i].handle] == s.reqs[msgs[i].handle]
    ensures Notified(t, msgs) == Notified(s, msgs)
  {
    if msgs != [] { NotifiedFrame(s, t, msgs[1..]); }
  }

  lemma DrainStep(s: State, s1: State, t: State, msgs: seq<Msg>)
    requires msgs != [] && AllLive(s, msgs) && DeliveredAs(s, s1, msgs[0])
    requires forall i, j :: 0 <= i < j < |msgs| ==> msgs[i].handle != msgs[j].handle
    requires AllLive(s1, msgs[1..]) && Drained(s1, t, msgs[1..])
    ensures Drained(s, t, msgs)
  {
    var tail := msgs[1..];
    var h := msgs[0].handle;
    assert h !in Handles(tail) by {
      assert forall k :: k in tail ==> k.handle != h;
    }
    assert Handles(msgs) == {h} + Handles(tail) by {
      assert msgs == [msgs[0]] + tail;
    }
    assert t.queue == s.queue + Numbered(Notified(s, msgs), s.nextEvent) by {
      NotifiedHead(s, s1, msgs);
      var r := s.reqs[h];
      NumberedHead(s.queue, s1.queue, h, Notified(s1, tail), s.nextEvent,
                   r.callback && r.interp !in s.deletedInterps);
    }
    hide Handles, Notified, Numbered;
    assert t.reqs[h] == s1.reqs[h];
    forall i | 0 <= i < |msgs|
      ensures Settles(s.reqs[msgs[i].handle], t.reqs[msgs[i].handle], msgs[i].ok)
    {
      if i > 0 { assert msgs[i] == tail[i - 1]; }
    }
  }

  lemma NumberedHead(q: seq<Event>, q1: seq<Event>, h: Addr, n: seq<Addr>, id: nat, wants: bool)
    requires q1 == if wants then q + [CallbackEvent(id, Some(h))] else q
    ensures q + Numbered(if wants then [h] + n else n, id) == q1 + Numbered(n, if wants then id + 1 else id)
  {
    assert ([h] + n)[1..] == n;
  }

  lemma NotifiedHead(s: State, s1: State, msgs: seq<Msg>)
    requires msgs != [] && AllLive(s, msgs) && DeliveredAs(s, s1, msgs[0])
    requires forall i :: 1 <= i < |msgs| ==> msgs[0].handle != msgs[i].handle
    ensures AllLive(s1, msgs[1..])
    ensures var r := s.reqs[msgs[0].handle];
            Notified(s, msgs) == if r.callback && r.interp !in s.deletedInterps
                                 then [msgs[0].handle] + Notified(s1, msgs[1..]) else Notified(s1, msgs[1..])
  {
    NotifiedFrame(s, s1, msgs[1..]);
  }

  /** The drain loop takes the head message and goes on from there. */
  lemma DrainUnfold(s: State)
    requires Inv(s) && s.pool.Some? && s.pool.value.multi.msgs != []
    ensures var m := s.pool.value.multi;
            && Live(s, m.msgs[0].handle) && MessagesLive(s)
            && MessagesLive(Deliver(s, m.msgs[0])) && Drain(s) == Drain(Deliver(s, m.msgs[0]))
  {
    MessagesAreLive(s);
    DrainStart(s);
  }

  lemma DrainStart(s: State)
    requires s.pool.Some? && s.pool.value.multi.msgs != [] && MessagesLive(s)
    ensures var m := s.pool.value.multi.msgs[0];
            Live(s, m.handle) && MessagesLive(Deliver(s, m)) && Drain(s) == Drain(Deliver(s, m))
  {
    var msgs := s.pool.value.multi.msgs;
    PopIrrelevant(s);
    WithoutHandleShrinks(msgs[1..], msgs[0].handle);
    DeliverEffect(s, msgs[0]);
    DeliverPool(s, msgs[0]);
    WithoutHandleShrinks(msgs, msgs[0].handle);
    hide Deliver;
  }

  lemma DeliverMulti(m: Multi)
    requires MultiOk(m) && m.msgs != []
    ensures MultiRemove(m, m.msgs[0].handle).msgs == m.msgs[1..]
    ensures MultiRemove(m, m.msgs[0].handle).running == m.running
  {
    var k := m.msgs[0];
    assert k in m.msgs && k.handle !in m.running;
    assert forall i :: 0 <= i < |m.msgs[1..]| ==> m.msgs[1..][i] == m.msgs[i + 1];
    assert forall j :: j in m.msgs[1..] ==> j.handle != k.handle;
    hide MultiOk;
    WithoutHandleShrinks(m.msgs[1..], k.handle);
    assert WithoutHandle(m.msgs, k.handle) == WithoutHandle(m.msgs[1..], k.handle);
  }

  lemma PoolMulti(s: State)
    requires Inv(s) && s.pool.Some?
    ensures MultiOk(s.pool.value.multi)
  {}

  /** The drain loop ends with no message left and leaves libcurl's running
      transfers alone. Every message is honoured: its request leaves the pool in
      the reported state, and the callbacks are queued in message order. */
  lemma {:induction false} DrainEffect(s: State)
    requires Inv(s) && !s.exited && s.pool.Some?
    ensures MessagesLive(s)
    ensures Inv(Drain(s)) && Drained(s, Drain(s), s.pool.value.multi.msgs)
    ensures var p, q := s.pool.value, Drain(s).pool.value;
            q.multi.msgs == [] && q.multi.running == p.multi.running && q.isActive == p.isActive
    ensures Drain(s).exited == s.exited && Drain(s).sources == s.sources
    decreases |s.pool.value.multi.msgs|
  {
    MessagesAreLive(s);
    PoolMulti(s);
    var m := s.pool.value.multi;
    if m.msgs == [] {
    } else {
      var k := m.msgs[0];
      DrainUnfold(s);
      DeliverKeeps(s, k);
      DeliverEffect(s, k);
      DeliverPool(s, k);
      DeliverMulti(m);
      var s1 := Deliver(s, k);
      hide Inv, Deliver, Drained, MultiOk, MultiRemove;
      DrainEffect(s1);
      DrainStep(s, s1, Drain(s1), m.msgs);
    }
  }

  /** The list without these requests, in order. */
  function Remaining(q: seq<Addr>, gone: set<Addr>): seq<Addr> {
    if q == [] then [] else (if q[0] in gone then [] else [q[0]]) + Remaining(q[1..], gone)
  }

  lemma {:induction false} RemainingNone(q: seq<Addr>, gone: set<Addr>)
    requires forall x :: x in q ==> x !in gone
    ensures Remaining(q, gone) == q
  {
    if q != [] { RemainingNone(q[1..], gone); }
  }

  lemma {:induction false} RemainingOne(q: seq<Addr>, x: Addr)
    requires NoDuplicates(q)
    ensures RemoveFirst(q, x) == Remaining(q, {x})
  {
    if q != [] {
      if q[0] == x {
        RemainingNone(q[1..], {x});
      } else {
        RemainingOne(q[1..], x);
      }
    }
  }

  lemma {:induction false} RemainingTwice(q: seq<Addr>, a: set<Addr>, b: set<Addr>)
    ensures Remaining(Remaining(q, a), b) == Remaining(q, a + b)
  {
    if q != [] {
      RemainingTwice(q[1..], a, b);
      assert ([q[0]] + Remaining(q[1..], a))[1..] == Remaining(q[1..], a);
      assert [] + Remaining(q[1..], a) == Remaining(q[1..], a);
    }
  }

  lemma HandlesHead(msgs: seq<Msg>)
    requires msgs != []
    ensures Handles(msgs) == {msgs[0].handle} + Handles(msgs[1..])
  {
    assert msgs == [msgs[0]] + msgs[1..];
  }

  lemma MessagesDistinct(s: State)
    requires Inv(s) && s.pool.Some?
    ensures NoDuplicates(s.pool.value.requests) && (s.pool.value.isDead ==> s.exited)
    ensures var msgs := s.pool.value.multi.msgs; forall i :: 1 <= i < |msgs| ==> msgs[0].handle != msgs[i].handle
  {}

  /** What else the drain loop does: it queues the callbacks of `called` and takes the
      requests in `gone` off the pool's list. */
  ghost predicate Counted(s: State, t: State, called: seq<Addr>, gone: set<Addr>) {
    && t.scheduled == s.scheduled + multiset(called)
    && t.invoked == s.invoked && t.deletedInterps == s.deletedInterps && t.nextReq == s.nextReq
    && s.pool.Some? && t.pool.Some? && t.pool.value.requests == Remaining(s.pool.value.requests, gone)
  }

  lemma CountedOne(s: State, m: Msg)
    requires s.pool.Some? && !s.pool.value.isDead && NoDuplicates(s.pool.value.requests) && Live(s, m.handle)
    ensures var wants := s.reqs[m.handle].callback && s.reqs[m.handle].interp !in s.deletedInterps;
            Counted(s, Deliver(s, m), if wants then [m.handle] else [], {m.handle})
    ensures Deliver(s, m).pool.value.needRefresh == s.pool.value.needRefresh
  {
    DeliverEffect(s, m);
    DeliverPool(s, m);
    hide Deliver;
    RemainingOne(s.pool.value.requests, m.handle);
  }

  lemma CountedTrans(s: State, s1: State, t: State, c1: seq<Addr>, g1: set<Addr>, c2: seq<Addr>, g2: set<Addr>)
    requires Counted(s, s1, c1, g1) && Counted(s1, t, c2, g2)
    ensures Counted(s, t, c1 + c2, g1 + g2)
  {
    RemainingTwice(s.pool.value.requests, g1, g2);
  }

  /** The callbacks are those of the messages, and the list keeps its order. */
  lemma {:induction false} DrainExact(s: State)
    requires Inv(s) && !s.exited && s.pool.Some?
    ensures MessagesLive(s)
    ensures var msgs := s.pool.value.multi.msgs; Counted(s, Drain(s), Notified(s, msgs), Handles(msgs))
    ensures Drain(s).pool.value.needRefresh == s.pool.value.needRefresh
    decreases |s.pool.value.multi.msgs|
  {
    MessagesAreLive(s);
    PoolMulti(s);
    MessagesDistinct(s);
    var m := s.pool.value.multi;
    if m.msgs == [] {
      RemainingNone(s.pool.value.requests, Handles(m.msgs));
      hide Inv;
    } else {
      var k := m.msgs[0];
      DrainUnfold(s);
      DeliverKeeps(s, k);
      DeliverEffect(s, k);
      DeliverPool(s, k);
      DeliverMulti(m);
      CountedOne(s, k);
      var s1 := Deliver(s, k);
      hide Inv, Deliver, Counted, MultiOk, MultiRemove;
      DrainExact(s1);
      CountedStep(s, s1, Drain(s1), m.msgs);
    }
  }

  lemma CountedStep(s: State, s1: State, t: State, msgs: seq<Msg>)
    requires msgs != [] && AllLive(s, msgs) && DeliveredAs(s, s1, msgs[0]) && AllLive(s1, msgs[1..])
    requires forall i :: 1 <= i < |msgs| ==> msgs[0].handle != msgs[i].handle
    requires var h, r := msgs[0].handle, s.reqs[msgs[0].handle];
             Counted(s, s1, if r.callback && r.interp !in s.deletedInterps then [h] else [], {h})
    requires Counted(s1, t, Notified(s1, msgs[1..]), Handles(msgs[1..]))
    ensures Counted(s, t, Notified(s, msgs), Handles(msgs))
  {
    var h, r := msgs[0].handle, s.reqs[msgs[0].handle];
    var wants := r.callback && r.interp !in s.deletedInterps;
    NotifiedHead(s, s1, msgs);
    HandlesHead(msgs);
    hide Counted, Notified, Handles, DeliveredAs;
    CountedTrans(s, s1, t, if wants then [h] else [], {h}, Notified(s1, msgs[1..]), Handles(msgs[1..]));
    assert [] + Notified(s1, msgs[1..]) == Notified(s1, msgs[1..]);
  }

  // --------------------------------------------------------- the check procedure

  lemma {:induction false} HandlesSize(msgs: seq<Msg>)
    requires forall i, j :: 0 <= i < j < |msgs| ==> msgs[i].handle != msgs[j].handle
    ensures |Handles(msgs)| == |msgs|
  {
    if msgs == [] {
    } else {
      HandlesSize(msgs[1..]);
      assert msgs == [msgs[0]] + msgs[1..];
      assert forall k :: k in msgs[1..] ==> k.handle != msgs[0].handle;
      assert Handles(msgs) == {msgs[0].handle} + Handles(msgs[1..]);
    }
  }

  /** The counter is the number of handles attached to libcurl: those still
      running and those whose completion message has not been read. */
  lemma CounterIsAttached(s: State)
    requires Inv(s) && s.pool.Some?
    ensures var p := s.pool.value;
            p.count == |p.multi.attached| && p.count == |p.multi.running| + |p.multi.msgs|
  {
    var p := s.pool.value;
    ElementsSize(p.requests);
    HandlesSize(p.multi.msgs);
    assert p.multi.attached == p.multi.running + Handles(p.multi.msgs);
    assert p.multi.running !! Handles(p.multi.msgs);
  }

  /** The early return of the check procedure is taken exactly when libcurl holds
      no undelivered completion message. */
  lemma EarlyReturnIff(s: State)
    requires Inv(s) && s.pool.Some?
    ensures |s.pool.value.multi.running| == s.pool.value.count <==> s.pool.value.multi.msgs == []
  {
    CounterIsAttached(s);
  }

  lemma PerformMulti(m: Multi, completions: seq<Msg>)
    requires MultiOk(m)
    requires forall k :: k in completions ==> k.handle in m.running
    requires forall i, j :: 0 <= i < j < |completions| ==> completions[i].handle != completions[j].handle
    ensures MultiOk(MultiPerform(m, completions)) && MultiPerform(m, completions).attached == m.attached
  {
    var n := MultiPerform(m, completions);
    forall k | k in n.msgs ensures k.handle in n.attached && k.handle !in n.running {
      if k in completions { assert k.handle in Handles(completions); }
    }
    forall i, j | 0 <= i < j < |n.msgs| ensures n.msgs[i].handle != n.msgs[j].handle {
      if i < |m.msgs| && |m.msgs| <= j {
        assert m.msgs[i] in m.msgs && completions[j - |m.msgs|] in completions;
      }
    }
    forall a | a in n.attached ensures a in n.running || a in Handles(n.msgs) {
      if a in Handles(m.msgs) {
        var k :| k in m.msgs && k.handle == a;
        assert k in n.msgs;
      } else if a in Handles(completions) {
        var k :| k in completions && k.handle == a;
        assert k in n.msgs;
      }
    }
  }

  lemma SetMultiKeeps(s: State, m: Multi)
    requires Inv(s) && s.pool.Some? && MultiOk(m) && m.attached == s.pool.value.multi.attached
    ensures Inv(SetMulti(s, m))
  {
    var t := SetMulti(s, m);
    hide MultiOk;
    assert PoolLinks(t);
    assert SourceInv(t);
    SessionFrame(s, t);
    EventFrame(s, t);
    HistoryFrame(s, t);
    hide PoolLinks, SessionLinks, EventLinks, HistoryInv, SourceInv;
    forall a | a in t.reqs ensures ReqOk(t, a) { assert ReqOk(s, a); }
  }

  lemma CompletionsLive(s: State, completions: seq<Msg>)
    requires Inv(s) && s.pool.Some? && CanComplete(s, completions)
    ensures AllLive(s, completions)
  {
    forall i | 0 <= i < |completions| ensures completions[i].handle in s.reqs {
      assert completions[i].handle in s.pool.value.multi.attached;
      assert completions[i].handle in s.pool.value.requests;
    }
  }

  lemma PerformKeeps(s: State, completions: seq<Msg>)
    requires Inv(s) && s.pool.Some? && CanComplete(s, completions)
    ensures Inv(SetMulti(s, MultiPerform(s.pool.value.multi, completions)))
  {
    PoolMulti(s);
    PerformMulti(s.pool.value.multi, completions);
    hide Inv;
    SetMultiKeeps(s, MultiPerform(s.pool.value.multi, completions));
  }

  /** A deactivation event may go to the head of the queue once the pool is empty. */
  lemma PushDeactivation(s: State)
    requires Inv(s) && Quiet(s) && s.pool.Some? && s.pool.value.requests == [] && s.pool.value.isActive
    ensures Inv(s.(queue := [DeactivateEvent] + s.queue))
  {
    var t := s.(queue := [DeactivateEvent] + s.queue);
    PoolFrame(s, t);
    SessionFrame(s, t);
    SourceFrame(s, t);
    HistoryFrame(s, t);
    hide PoolLinks, SessionLinks, HistoryInv, SourceInv, ReqOk;
    assert EventLinks(t) by {
      forall a | a in t.reqs && t.reqs[a].event.Some?
        ensures CallbackEvent(t.reqs[a].event.value, Some(a)) in t.queue
      {
        var k :| 0 <= k < |s.queue| && s.queue[k] == CallbackEvent(s.reqs[a].event.value, Some(a));
        assert t.queue[k + 1] == s.queue[k];
      }
    }
    hide EventLinks;
    forall a | a in t.reqs ensures ReqOk(t, a) { PushReqOk(s, t, a); }
  }

  lemma PushReqOk(s: State, t: State, a: Addr)
    requires Inv(s) && a in s.reqs && t == s.(queue := t.queue)
    ensures ReqOk(t, a)
  {
    hide Global;
    assert ReqOk(s, a);
  }

  lemma {:induction false} NumberedQuiet(q: seq<Addr>, n: nat)
    ensures forall i :: 0 <= i < |Numbered(q, n)| ==> Numbered(q, n)[i].CallbackEvent?
    ensures forall i :: 0 <= i < |Numbered(q, n)| ==>
              Numbered(q, n)[i].request.Some? && Numbered(q, n)[i].request.value in q
  {
    if q != [] { NumberedQuiet(q[1..], n + 1); }
  }

  /** Where the check procedure leaves things after libcurl has been driven. */
  ghost predicate CaughtUp(t: State) {
    t.pool.Some? && t.pool.value.multi.msgs == [] && t.pool.value.count == |t.pool.value.multi.running|
  }

  lemma DrainCatchesUp(s: State)
    requires Inv(s) && !s.exited && Quiet(s) && s.pool.Some? && s.pool.value.isActive
    ensures MessagesLive(s)
    ensures var t := Drain(s);
            && Inv(t) && CaughtUp(t) && Quiet(t)
            && t.pool.value.multi.running == s.pool.value.multi.running && t.exited == s.exited
            && (|s.pool.value.multi.running| == 0 ==>
                  CaughtUp(t.(queue := [DeactivateEvent] + t.queue)) && Inv(t.(queue := [DeactivateEvent] + t.queue)))
  {
    DrainEffect(s);
    DrainQuiet(s);
    var t := Drain(s);
    CounterIsAttached(t);
    hide Drain, Drained, MessagesLive;
    if |s.pool.value.multi.running| == 0 {
      EmptyWhenNoneRun(t);
      hide Inv, Quiet;
      PushDeactivation(t);
    }
  }

  lemma PerformAndDrainKeeps(s: State, performOk: bool, completions: seq<Msg>)
    requires Inv(s) && !s.exited && Quiet(s) && s.pool.Some? && s.pool.value.isActive && CanComplete(s, completions)
    ensures MessagesLive(s) && AllLive(s, completions)
    ensures Inv(PerformAndDrain(s, performOk, completions)) && !PerformAndDrain(s, performOk, completions).exited
    ensures performOk ==> CaughtUp(PerformAndDrain(s, performOk, completions))
  {
    MessagesAreLive(s);
    CompletionsLive(s, completions);
    PerformKeeps(s, completions);
    var s1 := SetMulti(s, MultiPerform(s.pool.value.multi, completions));
    CounterIsAttached(s1);
    hide Inv, Drain, MessagesLive, AllLive, CanComplete;
    DrainCatchesUp(s1);
  }

  lemma EmptyWhenNoneRun(s: State)
    requires Inv(s) && s.pool.Some? && s.pool.value.count == 0
    ensures s.pool.value.requests == []
  {}

  lemma DrainQuiet(s: State)
    requires Inv(s) && !s.exited && s.pool.Some? && Quiet(s)
    ensures MessagesLive(s) && Quiet(Drain(s))
  {
    DrainEffect(s);
    MessagesAreLive(s);
    var msgs := s.pool.value.multi.msgs;
    NumberedQuiet(Notified(s, msgs), s.nextEvent);
    hide Inv, Drain;
  }

  /** A pass of the event loop may call the check procedure: the source is
      registered and no deactivation is waiting. */
  ghost predicate CheckEnabled(s: State, c: CheckInput) {
    !s.exited && Quiet(s) && s.sources > 0 && s.pool.Some? && CanComplete(s, c.completions)
  }

  lemma RefreshedKeeps(s: State)
    requires Inv(s) && s.pool.Some?
    ensures Inv(s.(pool := Some(s.pool.value.(needRefresh := false))))
  {
    var t := s.(pool := Some(s.pool.value.(needRefresh := false)));
    assert PoolLinks(t);
    assert SourceInv(t);
    SessionFrame(s, t);
    EventFrame(s, t);
    HistoryFrame(s, t);
    hide PoolLinks, SessionLinks, EventLinks, HistoryInv, SourceInv;
    forall a | a in t.reqs ensures ReqOk(t, a) { assert ReqOk(s, a); }
  }

  /** Every run of the check procedure keeps the invariant; if it drives libcurl
      successfully, no message is left and the counter is libcurl's running count. */
  lemma CheckKeeps(s: State, c: CheckInput)
    requires Inv(s) && CheckEnabled(s, c)
    ensures MessagesLive(s) && AllLive(s, c.completions)
    ensures Inv(EventCheck(s, c)) && !EventCheck(s, c).exited
    ensures c.fileEvents && c.performOk && (s.pool.value.needRefresh || c.wait.WaitReady?) ==>
            CaughtUp(EventCheck(s, c))
  {
    MessagesAreLive(s);
    CompletionsLive(s, c.completions);
    assert s.pool.value.isActive;
    if c.fileEvents {
      if s.pool.value.needRefresh {
        var s1 := s.(pool := Some(s.pool.value.(needRefresh := false)));
        RefreshedKeeps(s);
        hide Inv;
        PerformAndDrainKeeps(s1, c.performOk, c.completions);
      } else if c.wait.WaitReady? {
        PerformAndDrainKeeps(s, c.performOk, c.completions);
      }
    }
  }
}
