/** The objects and the state machine step together: whatever the environment may do
    next, the methods on the heap take the thread from the objects of one state to the
    objects of the state that the machine steps to. */
module Simulation {
  import opened Common
  import opened Lifecycle
  import opened LifecycleInvariant
  import opened LifecycleRelease
  import opened LifecyclePool
  import opened LifecycleSteps
  import opened LifecycleRuns
  import opened Runtime

  lemma InvDelivers(s: State)
    requires Inv(s) && s.pool.Some?
    ensures Deliverable(s)
  {
    var msgs := s.pool.value.multi.msgs;
    forall i | 0 <= i < |msgs| ensures msgs[i].handle in s.reqs && s.reqs[msgs[i].handle].pooled {
      assert msgs[i] in msgs;
      assert msgs[i].handle in s.pool.value.multi.attached;
      assert msgs[i].handle in s.pool.value.requests;
    }
  }

  lemma CheckIsFinishing(s: State, completions: seq<Msg>)
    requires Inv(s) && s.pool.Some? && CanComplete(s, completions)
    ensures Finishing(s, completions)
  {
    PerformKeeps(s, completions);
    InvDelivers(SetMulti(s, MultiPerform(s.pool.value.multi, completions)));
  }

  lemma MembersEnlisted(s: State, sid: Addr)
    requires Inv(s) && sid in s.sessions
    ensures Enlisted(s, sid)
  {
    SessionMembers(s, sid);
  }

  /** What the invariant tells the methods. */
  lemma Parts(s: State)
    requires Inv(s)
    ensures PoolLinks(s) && SessionLinks(s) && EventLinks(s)
  {}

  /** A registered session, found by its address. */
  lemma SessionAt(th: Thread, sid: Addr)
    requires th.Shape() && sid in th.View().sessions
    ensures sid in th.sessions && th.IsSession(th.sessions[sid]) && th.sessions[sid].addr == sid
    ensures th.sessions[sid] in th.Repr()
  {
    hide Thread.RequestsShape, Thread.QueueShape;
    assert th.sessions[sid] in th.Sessions();
  }

  lemma NextSessionFree(th: Thread)
    requires th.Shape() && SessionLinks(th.View())
    ensures th.nextSession !in th.sessions
  {
    hide Thread.Shape;
    assert th.View().nextSession == th.nextSession;
    assert th.View().sessions.Keys == th.sessions.Keys;
  }

  lemma RequestAt(th: Thread, a: Addr)
    requires th.Shape() && a in th.View().reqs
    ensures a in th.memory && th.IsLive(th.memory[a]) && th.memory[a].addr == a
    ensures th.Reach(th.memory[a]) <= th.Repr()
  {
    th.LiveAt(a);
    th.ReachIn(th.memory[a]);
    hide Thread.Shape;
  }

  method TakeNew(th: Thread, sid: Option<Addr>, o: RequestOptions, out: RunOutcome)
    requires th.Shape() && th.Room() && Inv(th.View()) && (sid.Some? ==> sid.value in th.View().sessions)
    requires RunFits(o, out)
    modifies th, th.Repr()
    ensures th.Shape() && th.Room() && th.View() == CreateRequest(old(th.View()), sid, o, out)
  {
    hide Thread.Shape, Thread.View, Inv, Lifecycle.CreateRequest;
    if sid.None? {
      th.CreateRequest(null, o, out);
    } else {
      SessionAt(th, sid.value);
      th.CreateRequest(th.sessions[sid.value], o, out);
    }
  }

  method TakeDestroy(th: Thread, a: Addr)
    requires th.Shape() && th.Room() && a in th.View().reqs
    modifies th, th.Repr()
    ensures th.Shape() && th.Room() && Linked(old(th.View()), a) && th.View() == DeleteCommand(old(th.View()), a)
  {
    hide Thread.Shape, Thread.View, Thread.Repr, Lifecycle.DeleteCommand;
    RequestAt(th, a);
    th.DeleteCommand(th.memory[a]);
  }

  method TakeDestroySession(th: Thread, sid: Addr)
    requires th.Shape() && th.Room() && sid in th.View().sessions && Enlisted(th.View(), sid)
    modifies th, th.Repr()
    ensures th.Shape() && th.Room() && SessionMembersLinked(old(th.View()), sid)
    ensures th.View() == SessionFree(old(th.View()), sid)
  {
    hide Thread.Shape, Thread.View, Enlisted, SessionMembersLinked, Lifecycle.SessionFree;
    SessionAt(th, sid);
    th.SessionFree(th.sessions[sid]);
  }

  method TakeFailedWrite(th: Thread, a: Addr)
    requires th.Shape() && th.Room() && a in th.View().reqs
    modifies th, th.Repr()
    ensures th.Shape() && th.Room() && Live(old(th.View()), a) && th.View() == WriteFails(old(th.View()), a)
  {
    hide Thread.Shape, Thread.View, Thread.Repr, Lifecycle.SetError;
    RequestAt(th, a);
    th.SetError(th.memory[a]);
  }

  method TakeCheck(th: Thread, c: CheckInput)
    requires th.Shape() && th.Room() && Inv(th.View()) && th.View().pool.Some? && CanComplete(th.View(), c.completions)
    modifies th, th.Repr()
    ensures th.Shape() && th.Room() && old(th.View()).pool.Some?
    ensures MessagesLive(old(th.View())) && AllLive(old(th.View()), c.completions)
    ensures th.View() == EventCheck(old(th.View()), c)
  {
    CheckIsFinishing(th.View(), c.completions);
    hide Thread.Shape, Thread.View, Inv, Finishing, MessagesLive, AllLive, Lifecycle.EventCheck;
    th.Fields();
    th.EventCheck(c);
  }

  method TakeServe(th: Thread, fileEvents: bool)
    requires th.Shape() && th.Room() && EventLinks(th.View()) && Service(th.View(), fileEvents).Next?
    modifies th, th.Repr()
    ensures th.Shape() && th.Room() && Service(old(th.View()), fileEvents) == Next(th.View())
  {
    hide Thread.Shape, Thread.View, EventLinks, Lifecycle.Service;
    th.ServiceEvent(fileEvents);
  }

  method TakeExit(th: Thread)
    requires th.Shape() && th.Room() && PoolLinks(th.View()) && Quiet(th.View())
    modifies th, th.Repr()
    ensures th.Shape() && th.Room() && PoolMembersLive(old(th.View())) && th.View() == ThreadExit(old(th.View()))
  {
    hide Thread.Shape, Thread.View, PoolLinks, Quiet, PoolMembersLive, Lifecycle.ThreadExit;
    th.ThreadExit();
  }

  method TakeSession(th: Thread)
    requires th.Shape() && th.Room() && SessionLinks(th.View())
    modifies th, th.Repr()
    ensures th.Shape() && th.Room() && th.View() == CreateSession(old(th.View()))
  {
    NextSessionFree(th);
    hide Thread.Shape, Thread.View, SessionLinks, Lifecycle.CreateSession;
    var ses := th.CreateSession();
  }

  method TakeLoss(th: Thread, i: Interp)
    requires th.Shape() && th.Room()
    modifies th, th.Repr()
    ensures th.Shape() && th.Room() && th.View() == DeleteInterp(old(th.View()), i)
  {
    hide Thread.Shape, Thread.View, Lifecycle.DeleteInterp;
    th.DeleteInterp(i);
  }

  /** Any step of a run of the machine, on the objects. */
  method TakeStep(th: Thread, l: Label)
    requires th.Shape() && th.Room() && Inv(th.View()) && Enabled(th.View(), l) && InTurn(th.View(), l)
    requires Step(th.View(), l).Next?
    modifies th, th.Repr()
    ensures th.Shape() && th.Room() && Step(old(th.View()), l) == Next(th.View())
    ensures Good(th.View(), l.PoolCheck?)
  {
    hide Thread.Shape, Thread.View, Thread.Repr, Thread.Room, Inv, Good, PoolLinks, SessionLinks, EventLinks, Quiet,
      Enlisted, SessionMembersLinked, PoolMembersLive, MessagesLive, AllLive, CanComplete, ServeDefined, Linked,
      Lifecycle.CreateSession, Lifecycle.CreateRequest, Lifecycle.DeleteCommand, Lifecycle.SessionFree,
      Lifecycle.WriteFails, Lifecycle.EventCheck, Lifecycle.Service, Lifecycle.DeleteInterp, Lifecycle.ThreadExit;
    ghost var s := th.View();
    Parts(s);
    StepKeeps(s, l);
    match l {
      case NewSession => TakeSession(th);
      case NewRequest(sid, o, out) => TakeNew(th, sid, o, out);
      case DestroyRequest(a) => TakeDestroy(th, a);
      case DestroySession(sid) => MembersEnlisted(s, sid); TakeDestroySession(th, sid);
      case FailWrite(a) => TakeFailedWrite(th, a);
      case PoolCheck(c) => TakeCheck(th, c);
      case ServeEvent(f) => TakeServe(th, f);
      case LoseInterp(i) => TakeLoss(th, i);
      case ExitThread => TakeExit(th);
    }
  }
}
