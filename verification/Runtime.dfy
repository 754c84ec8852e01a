/** The same lifecycle on the heap: requests, sessions, the pool and the events are
    objects that point at each other, and each C function is a method that updates
    them in place. Every method is proved to do to the objects what the state
    machine's function of the same name does to their value. */
module Runtime {
  import opened Common
  import opened Lifecycle
  import opened LifecycleInvariant

  class RequestEvent {
    ghost const id: nat
    var request: Request?

    constructor (ghost id: nat, request: Request)
      ensures this.id == id && this.request == request
    {
      this.id := id;
      this.request := request;
    }

    ghost function View(): Event
      reads this
    {
      CallbackEvent(id, if request == null then None else Some(request.addr))
    }
  }

  class Request {
    const addr: Addr
    const interp: Interp
    const async: bool
    const callback: bool
    var state: ReqState
    var error: bool
    var pool: ThreadPool?
    var session: Session?
    var callbackEvent: RequestEvent?
    var cmdToken: bool
    var isDead: bool

    constructor (addr: Addr, o: RequestOptions, session: Session?)
      ensures this.addr == addr && this.session == session
      ensures View() == Req(o.interp, o.async, o.async && o.callback, Created, false, false,
                            if session == null then None else Some(session.addr), None, false, false)
      ensures pool == null && callbackEvent == null
    {
      this.addr := addr;
      interp, async, callback := o.interp, o.async, o.async && o.callback;
      state, error, pool, callbackEvent := Created, false, null, null;
      this.session := session;
      cmdToken, isDead := false, false;
    }

    ghost function View(): Req
      reads this
    {
      Req(interp, async, callback, state, error, pool != null,
          if session == null then None else Some(session.addr),
          if callbackEvent == null then None else Some(callbackEvent.id), cmdToken, isDead)
    }
  }

  /** The addresses of the requests of a list. */
  ghost function Addrs(q: seq<Request>): (r: seq<Addr>)
    ensures |r| == |q| && forall i :: 0 <= i < |q| ==> r[i] == q[i].addr
  {
    seq(|q|, i requires 0 <= i < |q| => q[i].addr)
  }

  class Session {
    const addr: Addr
    var requests: seq<Request>

    constructor (addr: Addr)
      ensures this.addr == addr && requests == []
    {
      this.addr := addr;
      requests := [];
    }
  }

  class ThreadPool {
    var multi: Multi
    var requests: seq<Request>
    var isDead: bool
    var isActive: bool
    var needRefresh: bool
    var activeConnectionCount: int

    constructor ()
      ensures View() == EMPTY_POOL && requests == []
    {
      multi := Multi({}, {}, []);
      requests, isDead, isActive, needRefresh, activeConnectionCount := [], false, false, false, 0;
    }

    ghost function View(): Pool
      reads this
    {
      Pool(multi, Addrs(requests), isDead, isActive, needRefresh, activeConnectionCount)
    }

    /** The pool's side of treq_PoolAddRequest(), up to the activation. */
    method Insert(r: Request)
      modifies this`multi, this`requests
      ensures requests == [r] + old(requests)
      ensures View() == old(View()).(multi := MultiAdd(old(multi), r.addr), requests := [r.addr] + old(View()).requests)
    {
      multi := MultiAdd(multi, r.addr);
      requests := [r] + requests;
    }

    /** The pool's side of treq_PoolRemoveRequest(). */
    method Release(r: Request)
      requires Addrs(RemoveFirst(requests, r)) == RemoveFirst(Addrs(requests), r.addr)
      modifies this
      ensures requests == if old(isDead) then old(requests) else RemoveFirst(old(requests), r)
      ensures View() == Left(old(View()), r.addr) && isDead == old(isDead)
    {
      hide RemoveFirst, MultiRemove;
      multi := MultiRemove(multi, r.addr);
      if !isDead {
        requests := RemoveFirst(requests, r);
      }
      activeConnectionCount := activeConnectionCount - 1;
    }
  }

  ghost function Left(p: Pool, a: Addr): Pool {
    p.(multi := MultiRemove(p.multi, a),
       requests := if p.isDead then p.requests else RemoveFirst(p.requests, a),
       count := p.count - 1)
  }

  /** The request put at the head of the pool's list and among curl's handles. */
  ghost function Joined(s: State, a: Addr): State
    requires Live(s, a) && s.pool.Some?
  {
    var p := s.pool.value;
    s.(pool := Some(p.(multi := MultiAdd(p.multi, a), requests := [a] + p.requests)),
       reqs := s.reqs[a := s.reqs[a].(pooled := true)])
  }

  /** Every undelivered message is about another request that is still in the pool. */
  ghost predicate Deliverable(s: State) {
    && s.pool.Some?
    && (forall i :: 0 <= i < |s.pool.value.multi.msgs| ==> var a := s.pool.value.multi.msgs[i].handle;
          a in s.reqs && s.reqs[a].pooled)
    && (forall i, j :: 0 <= i < j < |s.pool.value.multi.msgs| ==>
          s.pool.value.multi.msgs[i].handle != s.pool.value.multi.msgs[j].handle)
  }

  lemma DeliverableIsLive(s: State)
    requires Deliverable(s)
    ensures MessagesLive(s)
  {}

  lemma DeliverMulti(s: State, m: Msg)
    requires s.pool.Some? && Live(s, m.handle)
    ensures var t := Lifecycle.Deliver(s, m);
      && t.pool.Some? && t.pool.value.multi == MultiRemove(s.pool.value.multi, m.handle)
      && m.handle in t.reqs && t.reqs == s.reqs[m.handle := t.reqs[m.handle]]
  {
    hide MultiRemove, RemoveFirst;
  }

  lemma StillDeliverable(s: State, t: State)
    requires Deliverable(s) && t.pool.Some? && s.pool.value.multi.msgs != []
    requires t.pool.value.multi.msgs == s.pool.value.multi.msgs[1..]
    requires t.reqs.Keys == s.reqs.Keys
    requires forall a :: a in s.reqs && a != s.pool.value.multi.msgs[0].handle ==> t.reqs[a] == s.reqs[a]
    ensures Deliverable(t)
  {}

  lemma HandlesDiffer(s: State)
    requires Deliverable(s) && s.pool.value.multi.msgs != []
    ensures forall m :: m in s.pool.value.multi.msgs[1..] ==> m.handle != s.pool.value.multi.msgs[0].handle
    ensures var a := s.pool.value.multi.msgs[0].handle; a in s.reqs && s.reqs[a].pooled
  {}

  /** Taking and delivering the first message leaves the others as they were. */
  lemma DeliverNext(s: State)
    requires Deliverable(s) && s.pool.value.multi.msgs != []
    ensures MessagesLive(s)
    ensures var a := s.pool.value.multi.msgs[0].handle; a in s.reqs && s.reqs[a].pooled
    ensures var t := Lifecycle.Deliver(PopMessage(s), s.pool.value.multi.msgs[0]);
      Deliverable(t) && t.pool.value.multi.msgs == s.pool.value.multi.msgs[1..]
  {
    var msgs := s.pool.value.multi.msgs;
    HandlesDiffer(s);
    DeliverableIsLive(s);
    hide Lifecycle.Deliver, Deliverable, MessagesLive;
    var t := Lifecycle.Deliver(PopMessage(s), msgs[0]);
    DeliverMulti(PopMessage(s), msgs[0]);
    WithoutHandleShrinks(msgs[1..], msgs[0].handle);
    StillDeliverable(s, t);
  }

  lemma DrainStep(s: State)
    requires s.pool.Some? && MessagesLive(s) && s.pool.value.multi.msgs != []
    ensures Live(s, s.pool.value.multi.msgs[0].handle)
    ensures var t := Lifecycle.Deliver(PopMessage(s), s.pool.value.multi.msgs[0]);
      t.pool.Some? && MessagesLive(t) && Lifecycle.Drain(s) == Lifecycle.Drain(t)
  {
    WithoutHandleShrinks(s.pool.value.multi.msgs[1..], s.pool.value.multi.msgs[0].handle);
    hide Lifecycle.Deliver;
    DeliverMulti(PopMessage(s), s.pool.value.multi.msgs[0]);
  }

  lemma DrainDone(s: State)
    requires s.pool.Some? && MessagesLive(s) && s.pool.value.multi.msgs == []
    ensures Lifecycle.Drain(s) == s
  {}

  /** Deliverable, once `completions` have been added to the messages. */
  ghost predicate Finishing(s: State, completions: seq<Msg>) {
    s.pool.Some? && Deliverable(SetMulti(s, MultiPerform(s.pool.value.multi, completions)))
  }

  lemma FinishingIsLive(s: State, completions: seq<Msg>)
    requires Finishing(s, completions)
    ensures MessagesLive(s) && AllLive(s, completions)
  {
    var msgs := s.pool.value.multi.msgs;
    var all := msgs + completions;
    assert SetMulti(s, MultiPerform(s.pool.value.multi, completions)).pool.value.multi.msgs == all;
    assert forall i :: 0 <= i < |msgs| ==> all[i] == msgs[i];
    assert forall i :: 0 <= i < |completions| ==> all[|msgs| + i] == completions[i];
  }

  /** The callback of request `a` runs. */
  ghost function Invoked(s: State, a: Addr): State
    requires Live(s, a)
  {
    s.(reqs := s.reqs[a := s.reqs[a].(event := None)], invoked := s.invoked + multiset{a})
  }

  /** The event at `i` names no released request. */
  ghost predicate Servable(s: State, i: nat) {
    && i < |s.queue|
    && (s.queue[i].DeactivateEvent? ==> s.pool.Some?)
    && (s.queue[i].CallbackEvent? && s.queue[i].request.Some? ==> Live(s, s.queue[i].request.value))
  }

  ghost function Served(s: State, i: nat): State
    requires Servable(s, i)
  {
    var t := match s.queue[i]
      case DeactivateEvent => PoolDeactivate(s)
      case CallbackEvent(_, None) => s
      case CallbackEvent(_, Some(a)) => Invoked(s, a);
    t.(queue := s.queue[..i] + s.queue[i + 1..])
  }

  lemma ServiceIsServed(s: State, fileEvents: bool)
    requires EventLinks(s) && Service(s, fileEvents).Next?
    ensures var i := NextReady(s.queue, fileEvents);
      if i == |s.queue| then Service(s, fileEvents) == Next(s)
      else Servable(s, i) && Service(s, fileEvents) == Next(Served(s, i))
  {
    hide NextReady;
  }

  /** A pool that is being torn down lists its requests, each once. */
  ghost predicate Expellable(s: State) {
    && s.pool.Some? && s.pool.value.isDead && NoDuplicates(s.pool.value.requests)
    && (forall a :: a in s.pool.value.requests <==> a in s.reqs && s.reqs[a].pooled)
    && Quiet(s)
  }

  lemma StillExpellable(s: State)
    requires Expellable(s) && s.pool.value.requests != []
    ensures PoolMembersLive(s)
    ensures var t := PoolFreePass(s); Expellable(t) && t.pool.value.requests == s.pool.value.requests[1..]
  {
    ExpellableIsLive(s);
    var q := s.pool.value.requests;
    assert q[0] in q;
    var t := PoolRemoveRequest(s, q[0]);
    RemoveQuiet(s, q[0]);
    hide Lifecycle.PoolRemoveRequest, Quiet;
    TailExpellable(s, PoolFreePass(s));
  }

  lemma TailExpellable(s: State, t: State)
    requires Expellable(s) && s.pool.value.requests != [] && Quiet(t)
    requires t.pool.Some? && t.pool.value.isDead && t.pool.value.requests == s.pool.value.requests[1..]
    requires var a := s.pool.value.requests[0];
      a in t.reqs && t.reqs == s.reqs[a := t.reqs[a]] && !t.reqs[a].pooled
    ensures Expellable(t)
  {
    hide Quiet;
    var q := s.pool.value.requests;
    assert q == [q[0]] + q[1..];
    assert forall a :: a in q <==> a == q[0] || a in q[1..];
    assert q[0] !in q[1..];
  }

  lemma RemoveQuiet(s: State, a: Addr)
    requires Quiet(s) && Live(s, a) && s.pool.Some?
    ensures Quiet(PoolRemoveRequest(s, a))
  {
    hide MultiRemove, RemoveFirst;
  }

  lemma LoopStep(s: State)
    requires Expellable(s) && s.pool.value.requests != []
    ensures PoolMembersLive(s)
    ensures var t := PoolFreePass(s);
      Expellable(t) && PoolMembersLive(t) && t.pool.Some? && t.pool.value.isDead && PoolFreeLoop(s) == PoolFreeLoop(t)
  {
    StillExpellable(s);
    ExpellableIsLive(PoolFreePass(s));
    hide Lifecycle.PoolFreePass, Expellable;
  }

  lemma ExpellableIsLive(s: State)
    requires Expellable(s)
    ensures PoolMembersLive(s) && s.pool.Some? && s.pool.value.isDead
  {
    var q := s.pool.value.requests;
    assert forall i :: 0 <= i < |q| ==> q[i] in q;
  }

  lemma LoopDone(s: State)
    requires Expellable(s) && s.pool.value.requests == []
    ensures PoolMembersLive(s) && PoolFreeLoop(s) == s
    ensures Quiet(s) && forall a :: a in s.reqs ==> !s.reqs[a].pooled
  {}

  lemma ExpelStart(s: State, t: State)
    requires PoolLinks(s) && Quiet(s) && s.pool.Some?
    requires t == s.(exited := true, pool := Some(s.pool.value.(isDead := true)))
    ensures Expellable(t) && PoolMembersLive(s) && ThreadExit(s) == PoolFreeLoop(t).(pool := None)
  {
    ExpellableIsLive(t);
    hide Expellable;
    var q := s.pool.value.requests;
    assert forall i :: 0 <= i < |q| ==> q[i] in q;
  }

  lemma NoMembers(s: State)
    requires s.pool.None?
    ensures PoolMembersLive(s) && ThreadExit(s) == s.(exited := true)
  {}

  /** The session's list holds every request that points back at it. */
  ghost predicate Enlisted(s: State, sid: Addr) {
    SessionMembersLinked(s, sid) &&
    forall a :: a in s.reqs && s.reqs[a].session == Some(sid) ==> a in s.sessions[sid]
  }

  lemma StillEnlisted(s: State, sid: Addr)
    requires Enlisted(s, sid) && s.sessions[sid] != []
    ensures Enlisted(SessionFreePass(s, sid), sid)
  {
    var q := s.sessions[sid];
    assert q == [q[0]] + q[1..];
    var s1 := s.(reqs := s.reqs[q[0] := s.reqs[q[0]].(session := None)]);
    hide Lifecycle.RequestFree, SessionMembersLinked;
    assert SessionFreePass(s, sid).reqs == s1.reqs - {q[0]};
  }

  lemma SessionStep(s: State, sid: Addr)
    requires Enlisted(s, sid) && s.sessions[sid] != []
    ensures SessionMembersLinked(SessionFreePass(s, sid), sid)
    ensures SessionFree(s, sid) == SessionFree(SessionFreePass(s, sid), sid)
  {
    hide SessionMembersLinked, Lifecycle.SessionFreePass;
  }

  lemma EnlistedLinked(s: State, sid: Addr)
    requires Enlisted(s, sid)
    ensures SessionMembersLinked(s, sid)
  {}

  lemma SessionDone(s: State, sid: Addr)
    requires Enlisted(s, sid) && s.sessions[sid] == []
    ensures SessionMembersLinked(s, sid) && SessionFree(s, sid) == s.(sessions := s.sessions - {sid})
    ensures forall a :: a in s.reqs ==> s.reqs[a].session != Some(sid)
  {}

  /** A synchronous run involves neither the pool nor a callback. */
  lemma SyncStaysOut(s: State, a: Addr, out: RunOutcome)
    requires Live(s, a) && !s.reqs[a].async && !out.Async?
    ensures var r := RequestRun(s, a, out).reqs[a]; r.pooled == s.reqs[a].pooled && r.event == s.reqs[a].event
  {}

  datatype QueueEntry = Callback(event: RequestEvent) | Deactivate(pool: ThreadPool)

  ghost function Events(q: seq<QueueEntry>): set<RequestEvent> {
    set i | 0 <= i < |q| && q[i].Callback? :: q[i].event
  }

  function FirstReady(q: seq<QueueEntry>, fileEvents: bool): (i: nat)
    ensures i <= |q|
  {
    if q == [] || fileEvents || q[0].Deactivate? then 0 else 1 + FirstReady(q[1..], fileEvents)
  }

  lemma {:induction false} ReadyAlike(q: seq<QueueEntry>, events: seq<Event>, fileEvents: bool)
    requires |events| == |q| && forall i :: 0 <= i < |q| ==> events[i].DeactivateEvent? == q[i].Deactivate?
    ensures FirstReady(q, fileEvents) == NextReady(events, fileEvents)
  {
    if q != [] { ReadyAlike(q[1..], events[1..], fileEvents); }
  }

  ghost function EntryView(e: QueueEntry): Event
    reads if e.Callback? then {e.event} else {}
  {
    if e.Callback? then e.event.View() else DeactivateEvent
  }

  /** What has happened so far, and what Tcl keeps for us without our looking at it. */
  datatype Books = Books(
    nextEvent: nat,
    scheduled: multiset<Addr>,
    invoked: multiset<Addr>,
    freed: multiset<Addr>,
    named: set<Addr>,
    deletedCommands: multiset<Addr>
  )

  /** One thread: its default pool, its event queue, its interpreters' commands, and
      the allocator's view of which blocks are live. */
  class Thread {
    var pool: ThreadPool?
    var sources: nat
    var queue: seq<QueueEntry>
    var commands: set<Addr>
    var deletedInterps: set<Interp>
    var exited: bool
    var nextReq: nat
    var nextSession: nat
    var memory: map<Addr, Request>          // every request block ever allocated
    ghost var live: set<Addr>               // those not yet released
    var sessions: map<Addr, Session>        // the live sessions
    ghost var books: Books

    ghost function Requests(): set<Request>
      reads this
    {
      set a | a in live && a in memory :: memory[a]
    }

    ghost function Repr(): set<object>
      reads this
    {
      {this} + Requests() + Sessions() + (if pool == null then {} else {pool}) + Events(queue)
    }

    ghost predicate Known(r: Request)
      reads this
    {
      r.addr in memory && memory[r.addr] == r
    }

    ghost predicate IsLive(r: Request)
      reads this
    {
      r.addr in live && Known(r)
    }

    /** Blocks lie at their addresses and point only at what is there. */
    ghost predicate RequestsShape()
      reads this, Requests()
    {
      && (forall a :: a in memory ==> memory[a].addr == a)
      && (forall a :: a in live ==> a in memory)
      && (forall r :: r in Requests() && r.pool != null ==> r.pool == pool)
      && (forall r :: r in Requests() && r.session != null ==>
            r.session.addr in sessions && sessions[r.session.addr] == r.session)
      && (forall r :: r in Requests() && r.callbackEvent != null ==> r.callbackEvent in Events(queue))
    }

    ghost function Sessions(): set<Session>
      reads this
    {
      set s | s in sessions :: sessions[s]
    }

    ghost predicate ListsShape()
      reads this, Sessions(), pool
    {
      && (forall s :: s in sessions ==> sessions[s].addr == s)
      && (forall s, i :: s in sessions && 0 <= i < |sessions[s].requests| ==> Known(sessions[s].requests[i]))
      && (pool != null ==> forall i :: 0 <= i < |pool.requests| ==> Known(pool.requests[i]))
    }

    ghost predicate QueueShape()
      reads this, Events(queue)
    {
      && (forall e :: e in Events(queue) && e.request != null ==> Known(e.request))
      && (forall e :: e in Events(queue) ==> e.id < books.nextEvent)
      && (forall i :: 0 <= i < |queue| && queue[i].Deactivate? ==> queue[i].pool == pool)
      && (forall i, j :: 0 <= i < j < |queue| && queue[i].Callback? && queue[j].Callback? ==>
            queue[i].event.id != queue[j].event.id)
    }

    /** The objects are where the addresses say. */
    ghost predicate Shape()
      reads this, Repr()
    {
      RequestsShape() && ListsShape() && QueueShape()
    }

    ghost function ReqsView(): map<Addr, Req>
      reads this, Requests()
    {
      map a | a in live && a in memory :: memory[a].View()
    }

    ghost function QueueView(): (r: seq<Event>)
      reads this, Events(queue)
      ensures |r| == |queue| && forall i :: 0 <= i < |queue| ==> r[i] == EntryView(queue[i])
    {
      seq(|queue|, i requires 0 <= i < |queue| reads this, Events(queue) => EntryView(queue[i]))
    }

    ghost function SessionsView(): map<Addr, seq<Addr>>
      reads this, Sessions()
    {
      map s | s in sessions :: Addrs(sessions[s].requests)
    }

    ghost function PoolView(): Option<Pool>
      reads this, pool
    {
      if pool == null then None else Some(pool.View())
    }

    ghost function View(): State
      reads this, Repr()
    {
      State(ReqsView(), SessionsView(), PoolView(), sources, QueueView(), commands, deletedInterps, exited,
            nextReq, nextSession, books.nextEvent, books.scheduled, books.invoked, books.freed, books.named,
            books.deletedCommands)
    }

    constructor ()
      ensures Shape() && Room() && View() == INIT && fresh(Repr())
    {
      pool, sources, queue, commands, deletedInterps, exited := null, 0, [], {}, {}, false;
      nextReq, nextSession := 0, 0;
      memory, live, sessions := map[], {}, map[];
      books := Books(0, multiset{}, multiset{}, multiset{}, {}, multiset{});
    }

    // ------------------------------------------- what a change leaves as it was

    twostate lemma ReqsFrame(r: Request)
      requires old(RequestsShape()) && old(IsLive(r)) && memory == old(memory) && live == old(live)
      requires unchanged(Requests() - {r})
      ensures ReqsView() == old(ReqsView())[r.addr := r.View()]
    {
      var m := old(ReqsView())[r.addr := r.View()];
      assert r in Requests();
      forall a | a in live ensures ReqsView()[a] == m[a] {
        assert memory[a] in Requests();
      }
    }

    twostate lemma ReqsSame()
      requires unchanged(`memory) && unchanged(`live) && unchanged(Requests())
      ensures ReqsView() == old(ReqsView())
    {
      forall a | a in live && a in memory ensures ReqsView()[a] == old(ReqsView())[a] {
        assert memory[a] in Requests();
      }
    }

    twostate lemma SessionsFrame()
      requires sessions == old(sessions) && unchanged(Sessions())
      ensures SessionsView() == old(SessionsView())
    {
      forall s | s in sessions ensures SessionsView()[s] == old(SessionsView())[s] {
        assert sessions[s] in Sessions();
      }
    }

    twostate lemma QueueFrame()
      requires queue == old(queue) && unchanged(Events(queue))
      ensures QueueView() == old(QueueView())
    {
      forall i | 0 <= i < |queue| ensures EntryView(queue[i]) == old(EntryView(queue[i])) {
        if queue[i].Callback? { assert queue[i].event in Events(queue); }
      }
    }

    twostate lemma RequestsKept(r: Request)
      requires old(RequestsShape()) && old(IsLive(r)) && memory == old(memory) && live == old(live)
      requires unchanged(Requests() - {r}) && sessions == old(sessions) && old(Events(queue)) <= Events(queue)
      requires old(pool) == null || pool == old(pool)
      requires r.pool == null || r.pool == pool
      requires r.session == null || r.session == old(r.session)
      requires r.callbackEvent == null || r.callbackEvent in Events(queue)
      ensures RequestsShape() && IsLive(r)
    {
      assert r in Requests();
    }

    twostate lemma ListsKept()
      requires old(ListsShape()) && memory == old(memory) && sessions == old(sessions) && unchanged(Sessions())
      requires pool != null ==> forall i :: 0 <= i < |pool.requests| ==> Known(pool.requests[i])
      ensures ListsShape()
    {
      forall s | s in sessions ensures sessions[s].requests == old(sessions[s].requests) {
        assert sessions[s] in Sessions();
      }
    }

    twostate lemma QueueKept()
      requires old(QueueShape()) && memory == old(memory) && queue == old(queue) && unchanged(Events(queue))
      requires books == old(books)
      requires old(pool) == null ==> forall i :: 0 <= i < |queue| ==> !queue[i].Deactivate?
      requires old(pool) != null ==> pool == old(pool)
      ensures QueueShape()
    {}

    /** Only the fields of one live request have changed, and its pointers not, or to
        NULL, or to the pool. */
    twostate lemma RequestChanged(r: Request)
      requires old(Shape()) && old(IsLive(r)) && unchanged(this) && unchanged(Repr() - {r})
      requires r.pool == null || r.pool == old(r.pool)
      requires r.session == null || r.session == old(r.session)
      requires r.callbackEvent == null || r.callbackEvent == old(r.callbackEvent)
      ensures Shape() && IsLive(r) && r.addr in old(View()).reqs && old(View()).reqs[r.addr] == old(r.View())
      ensures View() == old(View()).(reqs := old(View()).reqs[r.addr := r.View()])
    {
      assert old(r in Requests());
      ReqsFrame(r);
      SessionsFrame();
      QueueFrame();
      assert PoolView() == old(PoolView());
      ListsSame();
      assert queue == old(queue);
      hide ReqsView, SessionsView, QueueView, PoolView, ListsShape, QueueShape;
      RequestsKept(r);
      hide RequestsShape;
      ListsKept();
      QueueSame();
    }

    twostate lemma ListsSame()
      requires old(ListsShape()) && unchanged(this) && (pool != null ==> pool.requests == old(pool.requests))
      ensures pool != null ==> forall i :: 0 <= i < |pool.requests| ==> Known(pool.requests[i])
    {}

    twostate lemma QueueSame()
      requires old(QueueShape()) && unchanged(this) && unchanged(Events(queue))
      ensures QueueShape()
    {}

    /** treq_RequestSetError() */
    method SetError(r: Request)
      requires Shape() && IsLive(r)
      modifies r`error, r`state
      ensures Shape() && IsLive(r) && r.addr in old(View()).reqs
      ensures View() == Lifecycle.SetError(old(View()), r.addr)
    {
      hide Shape, View, Repr;
      r.error := true;
      r.state := Error;
      RequestChanged(r);
    }

    // ------------------------------------------------------------ the callbacks

    twostate lemma QueueAppended(new ev: RequestEvent)
      requires old(QueueShape()) && memory == old(memory) && pool == old(pool)
      requires queue == old(queue) + [Callback(ev)] && unchanged(old(Events(queue)))
      requires fresh(ev) && ev.id == old(books).nextEvent && books.nextEvent == ev.id + 1
      requires ev.request != null && Known(ev.request)
      ensures QueueShape() && QueueView() == old(QueueView()) + [ev.View()]
      ensures Events(queue) == old(Events(queue)) + {ev}
    {
      assert queue[|queue| - 1] == Callback(ev);
      assert forall i :: 0 <= i < |queue| - 1 ==> queue[i] == old(queue)[i];
      assert Events(queue) == old(Events(queue)) + {ev} by {
        forall e | e in old(Events(queue)) ensures e in Events(queue) {
          var i :| 0 <= i < |old(queue)| && old(queue)[i].Callback? && old(queue)[i].event == e;
          assert queue[i].event == e;
        }
      }
      forall i | 0 <= i < |queue| ensures QueueView()[i] == (old(QueueView()) + [ev.View()])[i] {
        if i < |queue| - 1 && queue[i].Callback? { assert queue[i].event in old(Events(queue)); }
      }
      forall i, j | 0 <= i < j < |queue| && queue[i].Callback? && queue[j].Callback?
        ensures queue[i].event.id != queue[j].event.id
      {
        assert queue[i].event in old(Events(queue));
      }
    }

    lemma Fields()
      ensures View().pool == (if pool == null then None else Some(pool.View())) && View().sources == sources
      ensures View().commands == commands && View().deletedInterps == deletedInterps && View().exited == exited
      ensures View().nextReq == nextReq && View().nextSession == nextSession && View().nextEvent == books.nextEvent
      ensures View().scheduled == books.scheduled && View().invoked == books.invoked && View().freed == books.freed
      ensures View().named == books.named && View().deletedCommands == books.deletedCommands
    {
      hide ReqsView, SessionsView, QueueView;
    }

    lemma ViewOf(r: Request)
      requires Shape() && IsLive(r)
      ensures r in Requests() && r.addr in View().reqs && View().reqs[r.addr] == r.View()
      ensures (r.pool == null || r.pool == pool)
    {
      hide ListsShape, QueueShape;
    }

    /** The second half of treq_RequestScheduleCallback(): a new event for the request. */
    method QueueCallback(r: Request)
      requires Shape() && IsLive(r) && r.callback && r.interp !in deletedInterps
      requires r.addr in View().reqs && View().reqs[r.addr] == r.View()
      modifies this`queue, this`books, r`callbackEvent
      ensures Shape() && View() == Lifecycle.ScheduleCallback(old(View()), r.addr)
      ensures fresh(Events(queue) - old(Events(queue)))
    {
      hide Shape, View, ReqsView, QueueView, SessionsView, PoolView, Repr;
      var event := new RequestEvent(books.nextEvent, r);
      r.callbackEvent := event;
      queue := queue + [Callback(event)];
      books := BooksScheduled(books, r.addr);
      Scheduled(r, event);
      ScheduledView(r, event);
    }

    /** treq_RequestScheduleCallback() */
    method ScheduleCallback(r: Request)
      requires Shape() && IsLive(r)
      modifies this`queue, this`books, r`callbackEvent
      ensures Shape() && IsLive(r) && r.addr in old(View()).reqs
      ensures View() == Lifecycle.ScheduleCallback(old(View()), r.addr)
      ensures fresh(Events(queue) - old(Events(queue)))
    {
      ViewOf(r);
      NothingScheduled(r);
      hide Shape, View, Repr;
      if !r.callback || r.interp in deletedInterps {
        return;
      }
      QueueCallback(r);
    }

    lemma NothingScheduled(r: Request)
      requires Shape() && IsLive(r) && r.addr in View().reqs && View().reqs[r.addr] == r.View()
      ensures !r.callback || r.interp in deletedInterps ==> Lifecycle.ScheduleCallback(View(), r.addr) == View()
    {}

    ghost function BooksScheduled(b: Books, a: Addr): Books {
      b.(nextEvent := b.nextEvent + 1, scheduled := b.scheduled + multiset{a})
    }

    twostate lemma ScheduledView(r: Request, new ev: RequestEvent)
      requires unchanged(`sources) && unchanged(`commands) && unchanged(`deletedInterps) && unchanged(`exited)
      requires unchanged(`nextReq) && unchanged(`nextSession) && books == BooksScheduled(old(books), r.addr)
      requires r.callback && r.interp !in deletedInterps && ev.id == old(books).nextEvent
      requires r.addr in old(View()).reqs && old(View()).reqs[r.addr] == old(r.View())
      requires ReqsView() == old(ReqsView())[r.addr := old(r.View()).(event := Some(ev.id))]
      requires QueueView() == old(QueueView()) + [CallbackEvent(ev.id, Some(r.addr))]
      requires SessionsView() == old(SessionsView()) && PoolView() == old(PoolView())
      ensures View() == Lifecycle.ScheduleCallback(old(View()), r.addr)
    {
      hide ReqsView, QueueView, SessionsView, PoolView, Repr;
    }

    twostate lemma Scheduled(r: Request, new ev: RequestEvent)
      requires old(Shape()) && old(IsLive(r)) && fresh(ev)
      requires unchanged(`memory) && unchanged(`live) && unchanged(`sessions) && unchanged(`pool)
      requires queue == old(queue) + [Callback(ev)] && books.nextEvent == ev.id + 1
      requires unchanged(old(Requests()) - {r}) && unchanged(old(Sessions())) && unchanged(old(Events(queue)))
      requires (pool != null ==> unchanged(pool)) && ev.id == old(books).nextEvent && ev.request == r
      requires r.View() == old(r.View()).(event := Some(ev.id)) && r.callbackEvent == ev
      requires r.pool == old(r.pool) && r.session == old(r.session)
      ensures Shape() && Repr() == old(Repr()) + {ev}
      ensures ReqsView() == old(ReqsView())[r.addr := old(r.View()).(event := Some(ev.id))]
      ensures QueueView() == old(QueueView()) + [CallbackEvent(ev.id, Some(r.addr))]
      ensures SessionsView() == old(SessionsView()) && PoolView() == old(PoolView())
    {
      assert r in old(Requests());
      assert r.pool == null || r.pool == pool;
      ReqsFrame(r);
      SessionsFrame();
      QueueAppended(ev);
      assert PoolView() == old(PoolView());
      assert pool != null ==> forall i :: 0 <= i < |pool.requests| ==> Known(pool.requests[i]);
      hide ReqsView, SessionsView, QueueView, PoolView, QueueShape;
      RequestsKept(r);
      ListsKept();
    }

    // ------------------------------------------------------------------ the pool

    lemma AddrsRemove(q: seq<Request>, r: Request)
      requires Known(r) && forall i :: 0 <= i < |q| ==> Known(q[i])
      ensures Addrs(RemoveFirst(q, r)) == RemoveFirst(Addrs(q), r.addr)
      ensures forall i :: 0 <= i < |RemoveFirst(q, r)| ==> Known(RemoveFirst(q, r)[i])
    {
      if q != [] {
        assert Addrs(q)[1..] == Addrs(q[1..]);
        AddrsRemove(q[1..], r);
      }
    }

    /** The pool and one request have changed. */
    twostate lemma PoolChanged(r: Request)
      requires old(Shape()) && old(IsLive(r)) && unchanged(this) && pool != null
      requires unchanged(Requests() - {r}) && unchanged(Sessions()) && unchanged(Events(queue))
      requires r.pool == null || r.pool == pool
      requires r.session == old(r.session) && r.callbackEvent == old(r.callbackEvent)
      requires forall i :: 0 <= i < |pool.requests| ==> Known(pool.requests[i])
      ensures Shape() && IsLive(r)
      ensures ReqsView() == old(ReqsView())[r.addr := r.View()] && PoolView() == Some(pool.View())
      ensures QueueView() == old(QueueView()) && SessionsView() == old(SessionsView())
    {
      assert old(r in Requests());
      ReqsFrame(r);
      SessionsFrame();
      QueueFrame();
      hide ReqsView, SessionsView, QueueView, QueueShape;
      RequestsKept(r);
      ListsKept();
      QueueSame();
    }

    twostate lemma PoolChangedView(r: Request)
      requires unchanged(this) && pool != null
      requires ReqsView() == old(ReqsView())[r.addr := r.View()] && PoolView() == Some(pool.View())
      requires QueueView() == old(QueueView()) && SessionsView() == old(SessionsView())
      ensures View() == old(View()).(reqs := old(View()).reqs[r.addr := r.View()], pool := Some(pool.View()))
    {
      hide ReqsView, SessionsView, QueueView, PoolView;
    }

    lemma PoolOf(r: Request)
      requires Shape() && IsLive(r) && r.pool != null
      ensures pool == r.pool && View().pool == Some(pool.View())
      ensures forall i :: 0 <= i < |pool.requests| ==> Known(pool.requests[i])
    {
      assert r in Requests();
      hide QueueShape;
    }

    twostate lemma LeftPool(r: Request)
      requires old(Shape()) && old(IsLive(r)) && old(r.pool) != null && unchanged(this)
      requires unchanged(Requests() - {r}) && unchanged(Sessions()) && unchanged(Events(queue))
      requires r.View() == old(r.View()).(pooled := false) && pool == old(r.pool)
      requires r.session == old(r.session) && r.callbackEvent == old(r.callbackEvent)
      requires pool.View() == Left(old(pool.View()), r.addr)
      requires forall i :: 0 <= i < |pool.requests| ==> Known(pool.requests[i])
      ensures Shape() && IsLive(r) && r.addr in old(View()).reqs && old(View()).pool.Some?
      ensures View() == Lifecycle.LeavePool(old(View()), r.addr)
    {
      hide Shape, View, ReqsView, QueueView, SessionsView, PoolView, Repr, RemoveFirst, MultiRemove, Left,
        Lifecycle.LeavePool;
      ViewThen(r);
      PoolChanged(r);
      PoolChangedView(r);
      LeftView(r);
    }

    twostate lemma ViewThen(r: Request)
      requires old(Shape()) && old(IsLive(r))
      ensures old(r in Requests()) && r.addr in old(View()).reqs && old(View()).reqs[r.addr] == old(r.View())
      ensures old(r.pool) != null ==> old(pool) == old(r.pool) && old(View()).pool == Some(old(pool.View()))
    {
      hide ListsShape, QueueShape;
    }

    twostate lemma LeftView(r: Request)
      requires r.addr in old(View()).reqs && old(View()).reqs[r.addr] == old(r.View())
      requires old(pool) != null && old(View()).pool == Some(old(pool.View())) && pool == old(pool)
      requires r.View() == old(r.View()).(pooled := false)
      requires pool.View() == Left(old(pool.View()), r.addr)
      requires View() == old(View()).(reqs := old(View()).reqs[r.addr := r.View()], pool := Some(pool.View()))
      ensures View() == Lifecycle.LeavePool(old(View()), r.addr)
    {
      hide View, RemoveFirst, MultiRemove;
    }

    /** treq_PoolRemoveRequest() up to the test of the request's state. */
    method LeavePool(r: Request)
      requires Shape() && IsLive(r) && r.pool != null
      modifies r.pool, r`pool
      ensures Shape() && IsLive(r) && r.addr in old(View()).reqs && old(View()).pool.Some?
      ensures View() == Lifecycle.LeavePool(old(View()), r.addr)
      ensures r.pool == null && old(r.pool).isDead == old(r.pool.isDead)
      ensures old(r.pool).requests ==
              if old(r.pool.isDead) then old(r.pool.requests) else RemoveFirst(old(r.pool.requests), r)
    {
      hide Shape, View, ReqsView, QueueView, SessionsView, PoolView, Repr, RemoveFirst, Left, Lifecycle.LeavePool;
      PoolOf(r);
      AddrsRemove(pool.requests, r);
      var p := r.pool;
      p.Release(r);
      r.pool := null;
      LeftPool(r);
    }

    /** treq_PoolRemoveRequest() */
    method PoolRemoveRequest(r: Request)
      requires Shape() && IsLive(r) && r.pool != null
      modifies r.pool, r`pool, r`state, r`error, r`callbackEvent, this`queue, this`books
      ensures Shape() && IsLive(r) && r.addr in old(View()).reqs && old(View()).pool.Some?
      ensures View() == Lifecycle.PoolRemoveRequest(old(View()), r.addr)
      ensures r.pool == null && old(r.pool).isDead == old(r.pool.isDead)
      ensures old(r.pool).requests ==
              if old(r.pool.isDead) then old(r.pool.requests) else RemoveFirst(old(r.pool.requests), r)
      ensures fresh(Events(queue) - old(Events(queue)))
    {
      hide Shape, View, Repr, RemoveFirst, Lifecycle.LeavePool, Lifecycle.SetError, Lifecycle.ScheduleCallback;
      Fields();
      LeavePool(r);
      ViewOf(r);
      if r.state == InProgress && r.interp !in deletedInterps {
        SetError(r);
        ScheduleCallback(r);
      }
    }

    /** Nothing that lists, blocks or events depend on has changed, except inside the pool. */
    twostate lemma AsideChanged()
      requires old(Shape()) && unchanged(`memory) && unchanged(`live) && unchanged(`sessions) && unchanged(`queue)
      requires books.nextEvent == old(books).nextEvent && pool == old(pool)
      requires unchanged(Requests()) && unchanged(Sessions()) && unchanged(Events(queue))
      requires pool != null ==> pool.requests == old(pool.requests)
      ensures Shape()
      ensures ReqsView() == old(ReqsView()) && SessionsView() == old(SessionsView()) && QueueView() == old(QueueView())
    {
      SessionsFrame();
      QueueFrame();
      ReqsSame();
      hide ReqsView, SessionsView, QueueView;
      ListsKept();
    }

    twostate lemma AsideView()
      requires pool == old(pool)
      requires ReqsView() == old(ReqsView()) && SessionsView() == old(SessionsView()) && QueueView() == old(QueueView())
      ensures View() == old(View()).(pool := PoolView(), sources := sources, commands := commands,
        deletedInterps := deletedInterps, exited := exited, nextReq := nextReq, nextSession := nextSession,
        nextEvent := books.nextEvent, scheduled := books.scheduled, invoked := books.invoked, freed := books.freed,
        named := books.named, deletedCommands := books.deletedCommands)
    {
      hide ReqsView, SessionsView, QueueView, PoolView;
    }

    /** treq_PoolActivate() */
    method PoolActivate()
      requires Shape() && pool != null
      modifies pool`isActive, this`sources
      ensures Shape() && old(View()).pool.Some? && View() == Lifecycle.PoolActivate(old(View()))
    {
      hide Shape, View, ReqsView, QueueView, SessionsView, Repr;
      Fields();
      pool.isActive := true;
      sources := sources + 1;
      AsideChanged();
      AsideView();
    }

    /** treq_PoolDeactivate() */
    method PoolDeactivate()
      requires Shape() && pool != null
      modifies pool`isActive, this`sources
      ensures Shape() && old(View()).pool.Some? && View() == Lifecycle.PoolDeactivate(old(View()))
    {
      hide Shape, View, ReqsView, QueueView, SessionsView, Repr;
      Fields();
      pool.isActive := false;
      sources := if sources == 0 then 0 else sources - 1;
      AsideChanged();
      AsideView();
    }

    twostate lemma PoolCreated()
      requires old(Shape()) && unchanged(`memory) && unchanged(`live) && unchanged(`sessions) && unchanged(`queue)
      requires unchanged(`books) && old(pool) == null && pool != null && pool.requests == []
      requires unchanged(Requests()) && unchanged(Sessions()) && unchanged(Events(queue))
      ensures Shape()
      ensures ReqsView() == old(ReqsView()) && SessionsView() == old(SessionsView()) && QueueView() == old(QueueView())
    {
      SessionsFrame();
      QueueFrame();
      ReqsSame();
      hide ReqsView, SessionsView, QueueView;
      ListsKept();
      QueueKept();
    }

    /** treq_PoolInit(), and the thread's default pool set to its result. */
    method PoolInit()
      requires Shape() && pool == null
      modifies this`pool
      ensures Shape() && pool != null && fresh(pool)
      ensures View() == old(View()).(pool := Some(EMPTY_POOL))
    {
      hide Shape, View, ReqsView, QueueView, SessionsView, Repr;
      Fields();
      pool := new ThreadPool();
      PoolCreated();
      CreatedView();
    }

    twostate lemma CreatedView()
      requires unchanged(`sources) && unchanged(`commands) && unchanged(`deletedInterps) && unchanged(`exited)
      requires unchanged(`nextReq) && unchanged(`nextSession) && unchanged(`books)
      requires ReqsView() == old(ReqsView()) && SessionsView() == old(SessionsView()) && QueueView() == old(QueueView())
      ensures View() == old(View()).(pool := PoolView())
    {
      hide ReqsView, SessionsView, QueueView, PoolView;
    }

    /** The request's place in the list and its `pool` field, for treq_PoolAddRequest(). */
    method Link(r: Request)
      requires Shape() && IsLive(r) && pool != null
      modifies pool`multi, pool`requests, r`pool
      ensures Shape() && IsLive(r) && r.addr in old(View()).reqs && old(View()).pool.Some?
      ensures View() == Joined(old(View()), r.addr)
    {
      hide Shape, View, ReqsView, QueueView, SessionsView, Repr;
      Fields();
      ViewOf(r);
      AllKnown();
      pool.Insert(r);
      r.pool := pool;
      PoolChanged(r);
      PoolChangedView(r);
    }

    lemma AllKnown()
      requires Shape()
      ensures pool != null ==> forall i :: 0 <= i < |pool.requests| ==> Known(pool.requests[i])
    {
      hide RequestsShape, QueueShape;
    }

    /** The bookkeeping at the end of treq_PoolAddRequest(). */
    method CountIn()
      requires Shape() && pool != null
      modifies pool`activeConnectionCount, pool`needRefresh
      ensures Shape() && old(View()).pool.Some?
      ensures var p := old(View()).pool.value;
        View() == old(View()).(pool := Some(p.(count := p.count + 1, needRefresh := true)))
    {
      hide Shape, View, ReqsView, QueueView, SessionsView, Repr;
      Fields();
      pool.activeConnectionCount := pool.activeConnectionCount + 1;
      pool.needRefresh := true;
      AsideChanged();
      AsideView();
    }

    /** treq_PoolAddRequest() */
    method PoolAddRequest(r: Request, out: AddOutcome) returns (ok: bool)
      requires Shape() && IsLive(r)
      modifies this`pool, this`sources, pool, r`pool
      ensures Shape() && IsLive(r) && r.addr in old(View()).reqs
      ensures (View(), ok) == Lifecycle.PoolAddRequest(old(View()), r.addr, out)
    {
      hide Shape, View, Repr, Lifecycle.PoolActivate;
      Fields();
      ViewOf(r);
      if pool == null {
        if out.PoolInitFails? {
          return false;
        }
        PoolInit();
      }
      if !out.Added? {
        return false;
      }
      Link(r);
      Fields();
      if !pool.isActive {
        PoolActivate();
      }
      CountIn();
      ok := true;
    }

    // ------------------------------------------------------------- the event check

    /** What the loop does with one completion message of request `r`. */
    method Deliver(r: Request, ok: bool)
      requires Shape() && IsLive(r) && r.pool != null
      modifies r.pool, r`pool, r`state, r`error, r`callbackEvent, this`queue, this`books
      ensures Shape() && IsLive(r) && r.addr in old(View()).reqs && old(View()).pool.Some?
      ensures View() == Lifecycle.Deliver(old(View()), Msg(r.addr, ok))
    {
      hide Shape, View, Repr, RemoveFirst, Lifecycle.PoolRemoveRequest, Lifecycle.ScheduleCallback;
      Fields();
      PoolOf(r);
      ViewOf(r);
      r.state := if ok then Done else Error;
      RequestChanged(r);
      PoolRemoveRequest(r);
      ScheduleCallback(r);
    }

    /** curl_multi_info_read() takes the first message. */
    method PopMessage()
      requires Shape() && pool != null && pool.multi.msgs != []
      modifies pool`multi
      ensures Shape() && old(View()).pool == Some(old(pool.View())) && View() == Lifecycle.PopMessage(old(View()))
    {
      hide Shape, View, ReqsView, QueueView, SessionsView, Repr;
      Fields();
      pool.multi := pool.multi.(msgs := pool.multi.msgs[1..]);
      AsideChanged();
      AsideView();
    }

    /** curl_multi_perform() brings some transfers to an end. */
    method Perform(completions: seq<Msg>)
      requires Shape() && pool != null
      modifies pool`multi
      ensures Shape() && old(View()).pool == Some(old(pool.View()))
      ensures View() == SetMulti(old(View()), MultiPerform(old(View()).pool.value.multi, completions))
    {
      hide Shape, View, ReqsView, QueueView, SessionsView, Repr, MultiPerform;
      Fields();
      pool.multi := MultiPerform(pool.multi, completions);
      AsideChanged();
      AsideView();
    }

    twostate lemma QueueLonger()
      requires old(QueueShape()) && unchanged(`memory) && unchanged(`books) && unchanged(old(Events(queue)))
      requires pool != null && pool == old(pool) && queue == [Deactivate(pool)] + old(queue)
      ensures Events(queue) == old(Events(queue)) && QueueShape()
    {
      assert forall i :: 0 < i < |queue| ==> queue[i] == old(queue)[i - 1];
      assert forall i :: 0 <= i < |old(queue)| ==> old(queue)[i] == queue[i + 1];
      assert Events(queue) == old(Events(queue));
    }

    twostate lemma QueueLongerView()
      requires unchanged(old(Events(queue))) && pool != null && queue == [Deactivate(pool)] + old(queue)
      ensures QueueView() == [DeactivateEvent] + old(QueueView())
    {
      forall i | 0 <= i < |queue| ensures QueueView()[i] == ([DeactivateEvent] + old(QueueView()))[i] {
        if 0 < i {
          assert queue[i] == old(queue)[i - 1];
          if queue[i].Callback? { assert queue[i].event in old(Events(queue)); }
        }
      }
    }

    twostate lemma QueuePushed()
      requires old(Shape()) && unchanged(`memory) && unchanged(`live) && unchanged(`sessions) && unchanged(`books)
      requires unchanged(Requests()) && unchanged(Sessions()) && unchanged(old(Events(queue)))
      requires pool != null && pool == old(pool) && unchanged(pool) && queue == [Deactivate(pool)] + old(queue)
      ensures Shape() && QueueView() == [DeactivateEvent] + old(QueueView())
      ensures ReqsView() == old(ReqsView()) && SessionsView() == old(SessionsView())
    {
      hide ReqsView, SessionsView, QueueView;
      SessionsFrame();
      ReqsSame();
      QueueLonger();
      QueueLongerView();
      hide QueueShape;
      ListsKept();
    }

    /** The deferred deactivation, queued at the head. */
    method QueueDeactivate()
      requires Shape() && pool != null
      modifies this`queue
      ensures Shape() && View() == old(View()).(queue := [DeactivateEvent] + old(View()).queue)
    {
      hide Shape, View, ReqsView, QueueView, SessionsView, Repr;
      queue := [Deactivate(pool)] + queue;
      QueuePushed();
      PushedView();
    }

    twostate lemma PushedView()
      requires unchanged(`sources) && unchanged(`commands) && unchanged(`deletedInterps) && unchanged(`exited)
      requires unchanged(`nextReq) && unchanged(`nextSession) && unchanged(`books) && unchanged(`pool)
      requires pool != null && unchanged(pool) && QueueView() == [DeactivateEvent] + old(QueueView())
      requires ReqsView() == old(ReqsView()) && SessionsView() == old(SessionsView())
      ensures View() == old(View()).(queue := [DeactivateEvent] + old(View()).queue)
    {
      hide ReqsView, SessionsView, QueueView;
    }

    lemma LiveAt(a: Addr)
      requires Shape() && a in View().reqs
      ensures a in memory && IsLive(memory[a]) && memory[a] in Requests() && memory[a].addr == a
      ensures View().reqs[a] == memory[a].View()
      ensures memory[a].pool == null || memory[a].pool == pool
    {
      hide ListsShape, QueueShape;
    }

    /** One pass of the loop over curl_multi_info_read(). */
    method DeliverFirst()
      requires Shape() && pool != null && Deliverable(View()) && pool.multi.msgs != []
      modifies pool, Requests(), this`queue, this`books
      ensures Shape() && Deliverable(View()) && MessagesLive(View()) && MessagesLive(old(View()))
      ensures pool.multi.msgs == old(pool.multi.msgs[1..])
      ensures Lifecycle.Drain(View()) == old(Lifecycle.Drain(View()))
    {
      hide Shape, View, Repr, Deliverable, MessagesLive, Lifecycle.Deliver, Lifecycle.Drain, Lifecycle.PopMessage;
      Fields();
      DeliverNext(View());
      DrainStep(View());
      var msg := pool.multi.msgs[0];
      Pooled(msg.handle);
      PopMessage();
      Deliver(memory[msg.handle], msg.ok);
      Fields();
    }

    lemma Pooled(a: Addr)
      requires Shape() && pool != null && a in View().reqs && View().reqs[a].pooled
      ensures a in memory && IsLive(memory[a]) && memory[a] in Requests()
      ensures memory[a].addr == a && memory[a].pool == pool
    {
      LiveAt(a);
    }

    /** The loop over curl_multi_info_read(). */
    method Drain()
      requires Shape() && Deliverable(View()) && pool != null
      modifies pool, Requests(), this`queue, this`books
      ensures Shape() && MessagesLive(old(View())) && View() == Lifecycle.Drain(old(View()))
    {
      hide Shape, View, Repr, Deliverable, MessagesLive, Lifecycle.Drain;
      DeliverableIsLive(View());
      Fields();
      while pool.multi.msgs != []
        invariant Shape() && Deliverable(View()) && View().pool.Some? && MessagesLive(View())
        invariant Lifecycle.Drain(View()) == old(Lifecycle.Drain(View()))
        decreases |pool.multi.msgs|
      {
        DeliverFirst();
        Fields();
      }
      Fields();
      DrainDone(View());
    }

    /** treq_PoolEventCheck() from label `perform` on. */
    method PerformAndDrain(performOk: bool, completions: seq<Msg>)
      requires Shape() && pool != null && Finishing(View(), completions)
      modifies pool, Requests(), this`queue, this`books
      ensures Shape() && old(View()).pool.Some? && MessagesLive(old(View())) && AllLive(old(View()), completions)
      ensures View() == Lifecycle.PerformAndDrain(old(View()), performOk, completions)
    {
      hide Shape, View, Repr, Deliverable, MessagesLive, AllLive, MultiPerform, Lifecycle.Drain;
      FinishingIsLive(View(), completions);
      Fields();
      Perform(completions);
      Fields();
      var numfds := |pool.multi.running|;
      if !performOk {
        return;
      }
      if numfds == pool.activeConnectionCount {
        return;
      }
      Drain();
      if numfds == 0 {
        QueueDeactivate();
      }
    }

    /** treq_PoolEventCheck() */
    method EventCheck(c: CheckInput)
      requires Shape() && pool != null && Finishing(View(), c.completions)
      modifies pool, Requests(), this`queue, this`books
      ensures Shape() && old(View()).pool.Some? && MessagesLive(old(View())) && AllLive(old(View()), c.completions)
      ensures View() == Lifecycle.EventCheck(old(View()), c)
    {
      hide Shape, View, Repr, Deliverable, MessagesLive, AllLive, MultiPerform, Lifecycle.PerformAndDrain;
      FinishingIsLive(View(), c.completions);
      Fields();
      if !c.fileEvents {
        return;
      }
      if pool.needRefresh {
        Refreshed(c.completions);
        PerformAndDrain(c.performOk, c.completions);
        return;
      }
      if !c.wait.WaitReady? {
        return;
      }
      PerformAndDrain(c.performOk, c.completions);
    }

    /** need_refresh is taken back. */
    method Refreshed(ghost completions: seq<Msg>)
      requires Shape() && pool != null && Finishing(View(), completions)
      modifies pool`needRefresh
      ensures Shape() && old(View()).pool.Some? && Finishing(View(), completions)
      ensures View() == old(View()).(pool := Some(old(View()).pool.value.(needRefresh := false)))
    {
      hide Shape, View, ReqsView, QueueView, SessionsView, Repr, MultiPerform;
      Fields();
      pool.needRefresh := false;
      AsideChanged();
      AsideView();
    }

    // ------------------------------------------------------------- the event queue

    ghost predicate Unreferenced(e: QueueEntry)
      reads this, Requests()
    {
      e.Callback? ==> forall r :: r in Requests() ==> r.callbackEvent != e.event
    }

    twostate lemma QueueShorter(i: nat)
      requires old(QueueShape()) && unchanged(`memory) && unchanged(`books) && unchanged(old(Events(queue)))
      requires pool == old(pool) && i < |old(queue)| && queue == old(queue)[..i] + old(queue)[i + 1..]
      ensures QueueShape()
      ensures forall e :: e in old(Events(queue)) && (old(queue)[i].Callback? ==> e != old(queue)[i].event) ==>
        e in Events(queue)
    {
      assert forall j :: 0 <= j < |queue| ==> queue[j] == old(queue)[if j < i then j else j + 1];
      assert forall e :: e in Events(queue) ==> e in old(Events(queue));
      forall e | e in old(Events(queue)) && (old(queue)[i].Callback? ==> e != old(queue)[i].event)
        ensures e in Events(queue)
      {
        var j :| 0 <= j < |old(queue)| && old(queue)[j].Callback? && old(queue)[j].event == e;
        assert queue[if j < i then j else j - 1].event == e;
      }
    }

    twostate lemma QueueShorterView(i: nat)
      requires unchanged(old(Events(queue))) && i < |old(queue)| && queue == old(queue)[..i] + old(queue)[i + 1..]
      ensures QueueView() == old(QueueView())[..i] + old(QueueView())[i + 1..]
    {
      forall j | 0 <= j < |queue|
        ensures QueueView()[j] == (old(QueueView())[..i] + old(QueueView())[i + 1..])[j]
      {
        assert queue[j] == old(queue)[if j < i then j else j + 1];
        if queue[j].Callback? { assert queue[j].event in old(Events(queue)); }
      }
    }

    twostate lemma QueueCut(i: nat)
      requires old(Shape()) && unchanged(`memory) && unchanged(`live) && unchanged(`sessions) && unchanged(`books)
      requires unchanged(Requests()) && unchanged(Sessions()) && unchanged(old(Events(queue)))
      requires pool == old(pool) && (pool != null ==> unchanged(pool))
      requires i < |old(queue)| && queue == old(queue)[..i] + old(queue)[i + 1..] && old(Unreferenced(queue[i]))
      ensures Shape() && QueueView() == old(QueueView())[..i] + old(QueueView())[i + 1..]
      ensures ReqsView() == old(ReqsView()) && SessionsView() == old(SessionsView())
    {
      hide ReqsView, SessionsView, QueueView;
      SessionsFrame();
      ReqsSame();
      QueueShorter(i);
      QueueShorterView(i);
      hide QueueShape;
      ListsKept();
    }

    twostate lemma CutView(i: nat)
      requires unchanged(`sources) && unchanged(`commands) && unchanged(`deletedInterps) && unchanged(`exited)
      requires unchanged(`nextReq) && unchanged(`nextSession) && unchanged(`books) && unchanged(`pool)
      requires (pool != null ==> unchanged(pool)) && i < |old(queue)|
      requires QueueView() == old(QueueView())[..i] + old(QueueView())[i + 1..]
      requires ReqsView() == old(ReqsView()) && SessionsView() == old(SessionsView())
      ensures View() == old(View()).(queue := old(View()).queue[..i] + old(View()).queue[i + 1..])
    {
      hide ReqsView, SessionsView, QueueView;
    }

    /** Tcl takes a served event off the queue. */
    method RemoveEvent(i: nat)
      requires Shape() && i < |queue| && Unreferenced(queue[i])
      modifies this`queue
      ensures Shape() && i < |old(View()).queue|
      ensures View() == old(View()).(queue := old(View()).queue[..i] + old(View()).queue[i + 1..])
    {
      hide Shape, View, ReqsView, QueueView, SessionsView, Repr, Unreferenced;
      QueueLength();
      queue := queue[..i] + queue[i + 1..];
      QueueCut(i);
      CutView(i);
    }

    lemma QueueLength()
      ensures |View().queue| == |queue| && forall i :: 0 <= i < |queue| ==> View().queue[i] == EntryView(queue[i])
    {
      hide ReqsView, SessionsView;
    }

    /** treq_RequestEventProc(), in a pass that serves file events. */
    method RequestEventProc(event: RequestEvent)
      requires Shape() && event in Events(queue)
      requires event.request != null ==> IsLive(event.request)
      modifies this`books, if event.request == null then {} else {event.request}
      ensures Shape()
      ensures event.request == null ==> View() == old(View())
      ensures event.request != null ==> event.request.callbackEvent == null
      ensures event.request != null ==> event.request.addr in old(View()).reqs
      ensures event.request != null ==> View() == Invoked(old(View()), event.request.addr)
    {
      hide Shape, View, ReqsView, QueueView, SessionsView, Repr;
      if event.request == null {
        return;
      }
      var req := event.request;
      ViewOf(req);
      Fields();
      req.callbackEvent := null;
      RequestChanged(req);
      label callback:
      Fields();
      books := books.(invoked := books.invoked + multiset{req.addr});
      AsideChanged@callback();
      AsideView@callback();
    }

    /** Tcl looks for the first event whose procedure accepts it. */
    lemma FirstReadyIs(fileEvents: bool)
      ensures FirstReady(queue, fileEvents) == NextReady(View().queue, fileEvents)
    {
      QueueLength();
      ReadyAlike(queue, View().queue, fileEvents);
    }

    /** An event is pointed at by the request that it names and by no other. */
    lemma OnlyReferrer(i: nat)
      requires Shape() && EventLinks(View()) && i < |queue| && queue[i].Callback?
      ensures forall r :: r in Requests() && r.callbackEvent == queue[i].event ==> queue[i].event.request == r
    {
      QueueLength();
      var q := View().queue;
      forall r | r in Requests() && r.callbackEvent == queue[i].event ensures queue[i].event.request == r {
        RefersBack(r);
        hide View;
        assert View().reqs[r.addr].event == Some(queue[i].event.id);
        var j :| 0 <= j < |q| && q[j] == CallbackEvent(queue[i].event.id, Some(r.addr));
        assert q[i] == queue[i].event.View() && j == i;
        assert queue[i].event in Events(queue);
      }
    }

    lemma RefersBack(r: Request)
      requires Shape() && r in Requests()
      ensures IsLive(r) && r.addr in View().reqs && View().reqs[r.addr] == r.View()
    {
      hide ListsShape, QueueShape;
    }

    /** The entry at `i` as Service() sees it. */
    lemma EntryAt(i: nat)
      requires Shape() && EventLinks(View()) && i < |queue|
      ensures queue[i].Deactivate? ==> queue[i].pool == pool && View().pool.Some?
      ensures queue[i].Callback? ==> queue[i].event in Events(queue)
      ensures queue[i].Callback? && queue[i].event.request != null && queue[i].event.request.addr in View().reqs ==>
        IsLive(queue[i].event.request)
    {
      hide RequestsShape, ListsShape;
    }

    /** The event at `i` is served and removed. */
    method ServeEntry(i: nat)
      requires Shape() && EventLinks(View()) && i < |queue| && Servable(View(), i)
      modifies this`queue, this`books, this`sources, pool, Requests()
      ensures Shape() && Servable(old(View()), i) && View() == Served(old(View()), i)
    {
      hide Shape, View, Repr, EventLinks;
      QueueLength();
      EntryAt(i);
      var entry := queue[i];
      match entry {
        case Deactivate(_) =>
          PoolDeactivate();
        case Callback(event) =>
          OnlyReferrer(i);
          RequestEventProc(event);
      }
      RemoveEvent(i);
    }

    /** Tcl_ServiceEvent(). A callback's script is whatever methods are called next. */
    method ServiceEvent(fileEvents: bool)
      requires Shape() && EventLinks(View()) && Lifecycle.Service(View(), fileEvents).Next?
      modifies this`queue, this`books, this`sources, pool, Requests()
      ensures Shape() && Lifecycle.Service(old(View()), fileEvents) == Next(View())
    {
      hide Shape, View, Repr, Servable, Served, Lifecycle.Service, NextReady;
      ServiceIsServed(View(), fileEvents);
      QueueLength();
      FirstReadyIs(fileEvents);
      var i := FirstReady(queue, fileEvents);
      if i < |queue| {
        ServeEntry(i);
      }
    }

    // -------------------------------------------------------- running a request

    method SetState(r: Request, st: ReqState)
      requires Shape() && IsLive(r)
      modifies r`state
      ensures Shape() && IsLive(r) && r.addr in old(View()).reqs
      ensures View() == SetReqState(old(View()), r.addr, st)
    {
      hide Shape, View, Repr;
      r.state := st;
      RequestChanged(r);
    }

    /** Label `error` of treq_RequestRun(). */
    method RunErrorExit(r: Request)
      requires Shape() && IsLive(r)
      modifies r`state, r`error, r`callbackEvent, this`queue, this`books
      ensures Shape() && IsLive(r) && r.addr in old(View()).reqs
      ensures View() == Lifecycle.RunErrorExit(old(View()), r.addr)
    {
      hide Shape, View, Repr, Lifecycle.SetError, Lifecycle.ScheduleCallback;
      SetError(r);
      ViewOf(r);
      if r.async {
        ScheduleCallback(r);
      }
    }

    /** treq_RequestRun() */
    method RequestRun(r: Request, out: RunOutcome)
      requires Shape() && IsLive(r) && (out.SetupFails? || (out.Async? <==> r.async))
      modifies this`pool, this`sources, this`queue, this`books, pool
      modifies r`pool, r`state, r`error, r`callbackEvent
      ensures Shape() && IsLive(r) && r.addr in old(View()).reqs && old(View()).reqs[r.addr] == old(r.View())
      ensures View() == Lifecycle.RequestRun(old(View()), r.addr, out)
    {
      hide Shape, View, Repr, Lifecycle.RunErrorExit, Lifecycle.PoolAddRequest, Lifecycle.SetError, SetReqState;
      ViewOf(r);
      match out {
        case SetupFails =>
          RunErrorExit(r);
        case Async(add) =>
          SetState(r, InProgress);
          var ok := PoolAddRequest(r, add);
          if !ok {
            RunErrorExit(r);
          }
        case Sync(ok, writeFailed) =>
          SetState(r, InProgress);
          if writeFailed {
            SetError(r);
          }
          SetState(r, if ok then Done else Error);
      }
    }

    // ------------------------------------------------------- releasing a request

    twostate lemma SessionListsKept(ses: Session)
      requires old(ListsShape()) && unchanged(this)
      requires unchanged(Sessions() - {ses}) && (pool != null ==> pool.requests == old(pool.requests))
      requires forall i :: 0 <= i < |ses.requests| ==> Known(ses.requests[i])
      ensures ListsShape()
    {
      forall s | s in sessions && sessions[s] != ses ensures sessions[s].requests == old(sessions[s].requests) {
        assert sessions[s] in Sessions();
      }
    }

    twostate lemma SessionsChanged(ses: Session)
      requires old(ListsShape()) && unchanged(this) && ses.addr in sessions && sessions[ses.addr] == ses
      requires unchanged(Sessions() - {ses})
      ensures SessionsView() == old(SessionsView())[ses.addr := Addrs(ses.requests)]
    {
      forall s | s in sessions && s != ses.addr ensures SessionsView()[s] == old(SessionsView())[s] {
        assert sessions[s] in Sessions();
        assert sessions[s] != ses;
      }
    }

    twostate lemma LeftSession(r: Request)
      requires old(Shape()) && old(IsLive(r)) && old(r.session) != null && unchanged(this)
      requires unchanged(Repr() - {r, old(r.session)}) && r.session == null
      requires r.pool == old(r.pool) && r.callbackEvent == old(r.callbackEvent)
      requires forall i :: 0 <= i < |old(r.session).requests| ==> Known(old(r.session).requests[i])
      ensures Shape() && IsLive(r)
      ensures ReqsView() == old(ReqsView())[r.addr := r.View()]
      ensures SessionsView() == old(SessionsView())[old(r.session).addr := Addrs(old(r.session).requests)]
      ensures QueueView() == old(QueueView()) && PoolView() == old(PoolView())
    {
      assert old(r in Requests());
      ReqsFrame(r);
      QueueFrame();
      SessionsChanged(old(r.session));
      assert PoolView() == old(PoolView());
      SessionListsKept(old(r.session));
      hide ReqsView, SessionsView, QueueView, PoolView, ListsShape, QueueShape;
      RequestsKept(r);
      hide RequestsShape;
      QueueSame();
    }

    lemma SessionOf(r: Request)
      requires Shape() && IsLive(r) && r.session != null
      ensures r.session.addr in sessions && sessions[r.session.addr] == r.session && r.session in Sessions()
      ensures r.session.addr in View().sessions && View().sessions[r.session.addr] == Addrs(r.session.requests)
      ensures forall i :: 0 <= i < |r.session.requests| ==> Known(r.session.requests[i])
    {
      assert r in Requests();
      hide QueueShape;
    }

    twostate lemma LeftSessionView(r: Request)
      requires unchanged(this) && old(r.session) != null && r.addr in old(View()).reqs
      requires old(View()).reqs[r.addr] == old(r.View())
      requires old(r.session).addr in old(View()).sessions
      requires old(View()).sessions[old(r.session).addr] == old(Addrs(r.session.requests))
      requires r.View() == old(r.View()).(session := None)
      requires Addrs(old(r.session).requests) == RemoveFirst(old(Addrs(r.session.requests)), r.addr)
      requires ReqsView() == old(ReqsView())[r.addr := r.View()]
      requires SessionsView() == old(SessionsView())[old(r.session).addr := Addrs(old(r.session).requests)]
      requires QueueView() == old(QueueView()) && PoolView() == old(PoolView())
      ensures View() == Lifecycle.SessionRemoveRequest(old(View()), r.addr)
    {
      hide ReqsView, SessionsView, QueueView, PoolView, RemoveFirst;
    }

    /** treq_SessionRemoveRequest() */
    method SessionRemoveRequest(r: Request)
      requires Shape() && IsLive(r) && r.session != null
      modifies r.session, r`session
      ensures Shape() && IsLive(r) && Linked(old(View()), r.addr) && old(View()).reqs[r.addr].session.Some?
      ensures View() == Lifecycle.SessionRemoveRequest(old(View()), r.addr)
      ensures r.session == null
    {
      hide Shape, View, ReqsView, QueueView, SessionsView, PoolView, Repr, RemoveFirst, Lifecycle.SessionRemoveRequest;
      ViewOf(r);
      LinkedByShape(r);
      SessionOf(r);
      var ses := r.session;
      AddrsRemove(ses.requests, r);
      r.session := null;
      ses.requests := RemoveFirst(ses.requests, r);
      LeftSession(r);
      LeftSessionView(r);
    }

    lemma LinkedByShape(r: Request)
      requires Shape() && IsLive(r)
      ensures Linked(View(), r.addr)
    {
      assert r in Requests();
      hide QueueShape;
    }

    twostate lemma EventDetached(e: RequestEvent)
      requires old(Shape()) && old(e in Events(queue)) && unchanged(this)
      requires unchanged(Repr() - {e}) && e.request == null
      ensures Shape() && QueueView() == Lifecycle.Detach(old(QueueView()), e.id)
      ensures ReqsView() == old(ReqsView()) && SessionsView() == old(SessionsView()) && PoolView() == old(PoolView())
    {
      SessionsFrame();
      ReqsSame();
      assert PoolView() == old(PoolView());
      ListsSame();
      DetachedView(e);
      hide ReqsView, SessionsView, QueueView, PoolView;
      ListsKept();
    }

    twostate lemma DetachedView(e: RequestEvent)
      requires old(QueueShape()) && old(e in Events(queue)) && unchanged(this)
      requires unchanged(Events(queue) - {e}) && e.request == null
      ensures QueueView() == Lifecycle.Detach(old(QueueView()), e.id)
    {
      var k :| 0 <= k < |queue| && queue[k].Callback? && queue[k].event == e;
      forall i | 0 <= i < |queue| ensures QueueView()[i] == Lifecycle.Detach(old(QueueView()), e.id)[i] {
        if queue[i].Callback? {
          assert queue[i].event in Events(queue);
          assert queue[i].event.id == e.id ==> i == k;
        }
      }
    }

    twostate lemma DetachView()
      requires unchanged(this) && (pool != null ==> unchanged(pool))
      requires ReqsView() == old(ReqsView()) && SessionsView() == old(SessionsView())
      ensures View() == old(View()).(queue := QueueView()) && old(View()).queue == old(QueueView())
    {
      hide ReqsView, SessionsView, QueueView;
    }

    lemma EventOf(r: Request)
      requires Shape() && IsLive(r) && r.callbackEvent != null
      ensures r.callbackEvent in Events(queue)
    {
      assert r in Requests();
      hide ListsShape, QueueShape;
    }

    /** The head of treq_RequestFree(): the pending event forgets the request. */
    method DetachEvent(r: Request)
      requires Shape() && IsLive(r) && r.callbackEvent != null
      modifies r.callbackEvent
      ensures Shape() && View() == old(View()).(queue := Lifecycle.Detach(old(View()).queue, r.callbackEvent.id))
    {
      hide Shape, View, ReqsView, QueueView, SessionsView, PoolView, Repr, Lifecycle.Detach;
      EventOf(r);
      r.callbackEvent.request := null;
      EventDetached(r.callbackEvent);
      DetachView();
    }

    /** The objects that treq_RequestFree() may write to. */
    ghost function Reach(r: Request): set<object>
      reads r
    {
      {r} + (if r.pool == null then {} else {r.pool}) + (if r.session == null then {} else {r.session}) +
        (if r.callbackEvent == null then {} else {r.callbackEvent})
    }

    /** treq_RequestFree() up to the deletion of the command. */
    method Unlink(r: Request)
      requires Shape() && IsLive(r)
      modifies Reach(r), this`queue, this`books
      ensures Shape() && IsLive(r) && Linked(old(View()), r.addr)
      ensures View() == Lifecycle.Unlink(old(View()), r.addr)
      ensures fresh(Events(queue) - old(Events(queue)))
    {
      hide Shape, View, Repr, RemoveFirst, Lifecycle.Detach,
          Lifecycle.PoolRemoveRequest, Lifecycle.SessionRemoveRequest;
      ViewOf(r);
      LinkedByShape(r);
      Fields();
      if r.callbackEvent != null {
        DetachEvent(r);
      }
      ViewOf(r);
      if r.session != null {
        SessionRemoveRequest(r);
      }
      ViewOf(r);
      if r.pool != null {
        PoolRemoveRequest(r);
      }
    }

    method SetDead(r: Request)
      requires Shape() && IsLive(r)
      modifies r`isDead
      ensures Shape() && r.addr in old(View()).reqs && r.isDead
      ensures View() == old(View()).(reqs := old(View()).reqs[r.addr := old(View()).reqs[r.addr].(isDead := true)])
    {
      hide Shape, View, Repr;
      ViewOf(r);
      r.isDead := true;
      RequestChanged(r);
    }

    method ClearToken(r: Request)
      requires Shape() && IsLive(r)
      modifies r`cmdToken
      ensures Shape() && r.addr in old(View()).reqs
      ensures View() == old(View()).(reqs := old(View()).reqs[r.addr := old(View()).reqs[r.addr].(token := false)])
    {
      hide Shape, View, Repr;
      ViewOf(r);
      r.cmdToken := false;
      RequestChanged(r);
    }

    /** Tcl takes the command out of the interpreter. */
    method DropCommand(a: Addr)
      requires Shape()
      modifies this`commands, this`books
      ensures Shape()
      ensures View() == old(View()).(commands := old(View()).commands - {a},
        deletedCommands := old(View()).deletedCommands + multiset{a})
    {
      hide Shape, View, ReqsView, QueueView, SessionsView, Repr;
      Fields();
      commands := commands - {a};
      books := books.(deletedCommands := books.deletedCommands + multiset{a});
      AsideChanged();
      AsideView();
    }

    twostate lemma BlockReleased(a: Addr)
      requires old(Shape()) && unchanged(`memory) && unchanged(`sessions) && unchanged(`queue) && unchanged(`pool)
      requires live == old(live) - {a} && books.nextEvent == old(books).nextEvent
      requires unchanged(old(Requests())) && unchanged(Sessions()) && unchanged(Events(queue))
      requires pool != null ==> unchanged(pool)
      ensures Shape() && ReqsView() == old(ReqsView()) - {a}
      ensures QueueView() == old(QueueView()) && SessionsView() == old(SessionsView())
    {
      SessionsFrame();
      QueueFrame();
      assert Requests() <= old(Requests());
      assert ReqsView() == old(ReqsView()) - {a} by {
        forall b | b in live && b in memory ensures ReqsView()[b] == old(ReqsView())[b] {
          assert memory[b] in old(Requests());
        }
      }
      hide ReqsView, SessionsView, QueueView;
      ListsKept();
    }

    twostate lemma ReleasedView(a: Addr)
      requires unchanged(`sources) && unchanged(`commands) && unchanged(`deletedInterps) && unchanged(`exited)
      requires unchanged(`nextReq) && unchanged(`nextSession) && unchanged(`pool) && (pool != null ==> unchanged(pool))
      requires books == old(books).(freed := old(books).freed + multiset{a})
      requires ReqsView() == old(ReqsView()) - {a}
      requires QueueView() == old(QueueView()) && SessionsView() == old(SessionsView())
      ensures View() == old(View()).(reqs := old(View()).reqs - {a}, freed := old(View()).freed + multiset{a})
    {
      hide ReqsView, SessionsView, QueueView;
    }

    /** ckfree() of a request's block: what points at it points at freed memory from now on. */
    method Release(r: Request)
      requires Shape() && IsLive(r)
      modifies this`live, this`books
      ensures Shape() && live == old(live) - {r.addr}
      ensures View() == old(View()).(reqs := old(View()).reqs - {r.addr}, freed := old(View()).freed + multiset{r.addr})
    {
      hide Shape, View, ReqsView, QueueView, SessionsView, PoolView, Repr;
      live := live - {r.addr};
      books := books.(freed := books.freed + multiset{r.addr});
      BlockReleased(r.addr);
      ReleasedView(r.addr);
    }

    /** treq_RequestFree() */
    method RequestFree(r: Request)
      requires Shape() && IsLive(r)
      modifies Reach(r), this`queue, this`books, this`commands, this`live
      ensures Shape() && Linked(old(View()), r.addr) && View() == Lifecycle.RequestFree(old(View()), r.addr)
      ensures live == old(live) - {r.addr}
      ensures fresh(Events(queue) - old(Events(queue)))
      decreases 4
    {
      hide Shape, View, Repr, Lifecycle.Unlink, Lifecycle.DeleteCommand;
      Unlink(r);
      ViewOf(r);
      if r.cmdToken {
        SetDead(r);
        DeleteCommand(r);
      }
      Release(r);
    }

    /** Tcl_DeleteCommandFromToken(), which calls the command's delete procedure. */
    method DeleteCommand(r: Request)
      requires Shape() && IsLive(r)
      modifies if r.isDead then {} else Reach(r)
      modifies this`queue, this`books, this`commands, this`live
      ensures Shape() && Linked(old(View()), r.addr) && View() == Lifecycle.DeleteCommand(old(View()), r.addr)
      ensures live == if old(r.isDead) then old(live) else old(live) - {r.addr}
      ensures fresh(Events(queue) - old(Events(queue)))
      decreases if r.isDead then 1 else 6
    {
      hide Shape, View, Repr, Lifecycle.HandleDelete;
      ViewOf(r);
      LinkedByShape(r);
      DropCommand(r.addr);
      HandleDelete(r);
    }

    /** treq_RequestHandleDelete() */
    method HandleDelete(r: Request)
      requires Shape() && IsLive(r)
      modifies if r.isDead then {} else Reach(r)
      modifies this`queue, this`books, this`commands, this`live
      ensures Shape() && Linked(old(View()), r.addr) && View() == Lifecycle.HandleDelete(old(View()), r.addr)
      ensures live == if old(r.isDead) then old(live) else old(live) - {r.addr}
      ensures fresh(Events(queue) - old(Events(queue)))
      decreases if r.isDead then 0 else 5
    {
      hide Shape, View, Repr, Lifecycle.RequestFree;
      ViewOf(r);
      LinkedByShape(r);
      if r.isDead {
        return;
      }
      ClearToken(r);
      RequestFree(r);
    }

    // ------------------------------------------------------------- the thread's exit

    /** The pool's list is shorter. */
    twostate lemma ListShorter()
      requires old(Shape()) && unchanged(this) && pool != null
      requires unchanged(Requests()) && unchanged(Sessions()) && unchanged(Events(queue))
      requires forall i :: 0 <= i < |pool.requests| ==> Known(pool.requests[i])
      ensures Shape()
      ensures ReqsView() == old(ReqsView()) && SessionsView() == old(SessionsView()) && QueueView() == old(QueueView())
    {
      SessionsFrame();
      QueueFrame();
      ReqsSame();
      hide ReqsView, SessionsView, QueueView;
      ListsKept();
    }

    /** The step of the list-freeing macro. */
    method PopRequest()
      requires Shape() && pool != null && pool.requests != []
      modifies pool`requests
      ensures pool.requests == old(pool.requests)[1..]
      ensures Shape() && View().pool.Some? && old(View()).pool == Some(old(pool.View()))
      ensures View() == old(View()).(pool := Some(old(pool.View()).(requests := old(pool.View()).requests[1..])))
    {
      hide Shape, View, ReqsView, QueueView, SessionsView, Repr;
      Fields();
      AllKnown();
      assert Addrs(pool.requests[1..]) == Addrs(pool.requests)[1..];
      pool.requests := pool.requests[1..];
      ListShorter();
      AsideView();
    }

    lemma FirstPooled()
      requires Shape() && pool != null && Expellable(View()) && pool.requests != []
      ensures var r := pool.requests[0]; IsLive(r) && r in Requests() && r.pool == pool
      ensures View().pool == Some(pool.View()) && View().pool.value.requests[0] == pool.requests[0].addr
    {
      Fields();
      AllKnown();
      hide Shape, View, Repr;
      var r := pool.requests[0];
      assert Addrs(pool.requests)[0] == r.addr;
      assert r.addr in View().pool.value.requests;
      LiveAt(r.addr);
    }

    /** One pass of the loop of treq_PoolFree(). */
    method PoolFreePass()
      requires Shape() && pool != null && Expellable(View()) && pool.requests != []
      modifies pool, Requests(), this`queue, this`books
      ensures Shape() && PoolMembersLive(old(View())) && |pool.requests| == old(|pool.requests|) - 1
      ensures old(View()).pool == Some(old(pool.View())) && View() == Lifecycle.PoolFreePass(old(View()))
    {
      hide Shape, View, Repr, PoolMembersLive, RemoveFirst, Lifecycle.PoolRemoveRequest;
      FirstPooled();
      ExpellableIsLive(View());
      hide Expellable;
      assert pool.isDead;
      PoolRemoveRequest(pool.requests[0]);
      PopRequest();
    }

    method PoolFreeLoop()
      requires Shape() && pool != null && Expellable(View())
      modifies pool, Requests(), this`queue, this`books
      ensures Shape() && PoolMembersLive(old(View())) && View() == Lifecycle.PoolFreeLoop(old(View()))
      ensures Quiet(View()) && forall a :: a in View().reqs ==> !View().reqs[a].pooled
    {
      hide Shape, View, Repr, Expellable, PoolMembersLive, Quiet, Lifecycle.PoolFreeLoop, Lifecycle.PoolFreePass;
      ExpellableIsLive(View());
      while pool.requests != []
        invariant Shape() && Expellable(View()) && View().pool.Some? && View().pool.value.isDead
        invariant PoolMembersLive(View()) && Lifecycle.PoolFreeLoop(View()) == old(Lifecycle.PoolFreeLoop(View()))
        decreases |pool.requests|
      {
        Fields();
        LoopStep(View());
        PoolFreePass();
      }
      Fields();
      LoopDone(View());
    }

    twostate lemma PoolGone()
      requires old(Shape()) && unchanged(`memory) && unchanged(`live) && unchanged(`sessions) && unchanged(`queue)
      requires unchanged(`books) && pool == null
      requires unchanged(Requests()) && unchanged(Sessions()) && unchanged(Events(queue))
      requires forall r :: r in Requests() ==> r.pool == null
      requires forall i :: 0 <= i < |queue| ==> queue[i].Callback?
      ensures Shape()
      ensures ReqsView() == old(ReqsView()) && SessionsView() == old(SessionsView()) && QueueView() == old(QueueView())
    {
      SessionsFrame();
      QueueFrame();
      ReqsSame();
      hide ReqsView, SessionsView, QueueView;
      ListsKept();
    }

    lemma NothingPooled()
      requires Shape() && Quiet(View()) && forall a :: a in View().reqs ==> !View().reqs[a].pooled
      ensures forall r :: r in Requests() ==> r.pool == null
      ensures forall i :: 0 <= i < |queue| ==> queue[i].Callback?
    {
      QueueLength();
      forall r | r in Requests() ensures r.pool == null { RefersBack(r); }
      forall i | 0 <= i < |queue| ensures queue[i].Callback? {
        assert View().queue[i] == EntryView(queue[i]);
      }
    }

    /** The pool's block is released and the thread's pointer to it cleared. */
    method DropPool()
      requires Shape() && Quiet(View()) && forall a :: a in View().reqs ==> !View().reqs[a].pooled
      modifies this`pool
      ensures Shape() && View() == old(View()).(pool := None)
    {
      hide Shape, View, ReqsView, QueueView, SessionsView, Repr, Quiet;
      NothingPooled();
      pool := null;
      PoolGone();
      CreatedView();
    }

    /** The thread starts to exit; treq_PoolFree() marks the pool. */
    method StartExit()
      requires Shape()
      modifies this`exited, pool
      ensures Shape() && View().pool.Some? == old(View()).pool.Some?
      ensures old(View()).pool.None? ==> View() == old(View()).(exited := true)
      ensures old(View()).pool.Some? ==>
        View() == old(View()).(exited := true, pool := Some(old(View()).pool.value.(isDead := true)))
    {
      hide Shape, View, ReqsView, QueueView, SessionsView, Repr;
      Fields();
      exited := true;
      if pool != null {
        pool.isDead := true;
      }
      AsideChanged();
      AsideView();
    }

    /** treq_PoolThreadExitProc() and treq_PoolFree() */
    method ThreadExit()
      requires Shape() && PoolLinks(View()) && Quiet(View())
      modifies this`exited, this`pool, pool, Requests(), this`queue, this`books
      ensures Shape() && PoolMembersLive(old(View())) && View() == Lifecycle.ThreadExit(old(View()))
    {
      hide Shape, View, Repr, PoolLinks, Quiet, Expellable, PoolMembersLive, Lifecycle.PoolFreeLoop;
      ghost var s := View();
      Fields();
      StartExit();
      if pool != null {
        ExpelStart(s, View());
        PoolFreeLoop();
        DropPool();
      } else {
        NoMembers(s);
      }
    }

    // ----------------------------------------------------------------- the sessions

    method ClearSession(r: Request)
      requires Shape() && IsLive(r)
      modifies r`session
      ensures Shape() && IsLive(r) && r.addr in old(View()).reqs && r.session == null
      ensures View() == old(View()).(reqs := old(View()).reqs[r.addr := old(View()).reqs[r.addr].(session := None)])
    {
      hide Shape, View, Repr;
      ViewOf(r);
      r.session := null;
      RequestChanged(r);
    }

    twostate lemma SessionListChanged(ses: Session)
      requires old(Shape()) && unchanged(this) && ses.addr in sessions && sessions[ses.addr] == ses
      requires unchanged(Repr() - {ses}) && forall i :: 0 <= i < |ses.requests| ==> Known(ses.requests[i])
      ensures Shape() && SessionsView() == old(SessionsView())[ses.addr := Addrs(ses.requests)]
      ensures ReqsView() == old(ReqsView()) && QueueView() == old(QueueView()) && PoolView() == old(PoolView())
    {
      ReqsSame();
      QueueFrame();
      SessionsChanged(ses);
      assert PoolView() == old(PoolView());
      SessionListsKept(ses);
      hide ReqsView, SessionsView, QueueView, PoolView, ListsShape;
    }

    twostate lemma SessionListView()
      requires unchanged(this)
      requires ReqsView() == old(ReqsView()) && QueueView() == old(QueueView()) && PoolView() == old(PoolView())
      ensures View() == old(View()).(sessions := SessionsView()) && old(View()).sessions == old(SessionsView())
    {
      hide ReqsView, SessionsView, QueueView, PoolView;
    }

    ghost predicate IsSession(ses: Session)
      reads this
    {
      ses.addr in sessions && sessions[ses.addr] == ses
    }

    lemma SessionList(ses: Session)
      requires Shape() && IsSession(ses)
      ensures ses in Sessions()
      ensures ses.addr in View().sessions && View().sessions[ses.addr] == Addrs(ses.requests)
      ensures forall i :: 0 <= i < |ses.requests| ==> Known(ses.requests[i])
    {
      hide RequestsShape, QueueShape;
    }

    /** The step of the list-freeing macro. */
    method PopMember(ses: Session)
      requires Shape() && IsSession(ses) && ses.requests != []
      modifies ses`requests
      ensures Shape() && ses.requests == old(ses.requests)[1..]
      ensures ses.addr in old(View()).sessions && old(View()).sessions[ses.addr] == old(Addrs(ses.requests))
      ensures View() == old(View()).(sessions := old(View()).sessions[ses.addr := old(Addrs(ses.requests))[1..]])
    {
      hide Shape, View, ReqsView, QueueView, SessionsView, PoolView, Repr;
      SessionList(ses);
      assert Addrs(ses.requests[1..]) == Addrs(ses.requests)[1..];
      ses.requests := ses.requests[1..];
      SessionListChanged(ses);
      SessionListView();
    }

    lemma FirstMember(ses: Session)
      requires Shape() && IsSession(ses) && SessionMembersLinked(View(), ses.addr) && ses.requests != []
      ensures IsLive(ses.requests[0]) && View().sessions[ses.addr] == Addrs(ses.requests)
    {
      SessionList(ses);
      hide Shape, View, Repr;
      assert Addrs(ses.requests)[0] == ses.requests[0].addr;
      LiveAt(ses.requests[0].addr);
    }

    /** What one pass over a session's list may write to. */
    ghost function Everything(): set<object>
      reads this, Requests()
    {
      Requests() + Sessions() + (if pool == null then {} else {pool}) + Events(queue)
    }

    lemma ReachIn(r: Request)
      requires Shape() && IsLive(r)
      ensures Reach(r) <= Everything()
    {
      assert r in Requests();
      hide QueueShape;
    }

    twostate lemma OnlyFresh()
      requires unchanged(`sessions) && unchanged(`memory) && unchanged(`pool) && live <= old(live)
      requires fresh(Events(queue) - old(Events(queue)))
      ensures fresh(Everything() - old(Everything()))
    {}

    /** One pass of the loop of treq_SessionFree(). */
    method SessionFreePass(ses: Session)
      requires Shape() && IsSession(ses) && SessionMembersLinked(View(), ses.addr) && ses.requests != []
      modifies Everything(), this`queue, this`books, this`commands, this`live
      ensures Shape() && IsSession(ses) && ses.requests == old(ses.requests[1..])
      ensures SessionMembersLinked(old(View()), ses.addr) && old(View()).sessions[ses.addr] != []
      ensures View() == Lifecycle.SessionFreePass(old(View()), ses.addr)
      ensures unchanged(`sessions) && unchanged(`memory) && unchanged(`pool)
      ensures live <= old(live) && fresh(Events(queue) - old(Events(queue)))
    {
      hide Shape, View, Repr, Everything, SessionMembersLinked, Lifecycle.RequestFree;
      FirstMember(ses);
      ReachIn(ses.requests[0]);
      MemberOf(ses);
      var r := ses.requests[0];
      ViewOf(r);
      ClearSession(r);
      ReachIn(r);
      RequestFree(r);
      PopMember(ses);
    }

    lemma MemberOf(ses: Session)
      requires Shape() && IsSession(ses)
      ensures ses in Everything()
    {
      hide Shape;
    }

    twostate lemma SessionGone(ses: Session)
      requires old(Shape()) && old(IsSession(ses)) && sessions == old(sessions) - {ses.addr}
      requires unchanged(`memory) && unchanged(`live) && unchanged(`queue) && unchanged(`books) && unchanged(`pool)
      requires unchanged(Requests()) && unchanged(old(Sessions())) && unchanged(Events(queue))
      requires (pool != null ==> unchanged(pool)) && forall r :: r in Requests() ==> r.session != ses
      ensures Shape() && SessionsView() == old(SessionsView()) - {ses.addr}
      ensures ReqsView() == old(ReqsView()) && QueueView() == old(QueueView())
    {
      ReqsSame();
      QueueFrame();
      forall k | k in sessions ensures SessionsView()[k] == old(SessionsView())[k] {
        assert sessions[k] in old(Sessions());
      }
      hide ReqsView, SessionsView, QueueView;
    }

    twostate lemma SessionGoneView(a: Addr)
      requires unchanged(`sources) && unchanged(`commands) && unchanged(`deletedInterps) && unchanged(`exited)
      requires unchanged(`nextReq) && unchanged(`nextSession) && unchanged(`books) && unchanged(`pool)
      requires (pool != null ==> unchanged(pool)) && SessionsView() == old(SessionsView()) - {a}
      requires ReqsView() == old(ReqsView()) && QueueView() == old(QueueView())
      ensures View() == old(View()).(sessions := old(View()).sessions - {a})
    {
      hide ReqsView, SessionsView, QueueView;
    }

    lemma NoMemberLeft(ses: Session)
      requires Shape() && IsSession(ses) && forall a :: a in View().reqs ==> View().reqs[a].session != Some(ses.addr)
      ensures forall r :: r in Requests() ==> r.session != ses
    {
      forall r | r in Requests() ensures r.session != ses { RefersBack(r); }
    }

    /** ckfree() of a session's block. */
    method DropSession(ses: Session)
      requires Shape() && IsSession(ses) && forall a :: a in View().reqs ==> View().reqs[a].session != Some(ses.addr)
      modifies this`sessions
      ensures Shape() && View() == old(View()).(sessions := old(View()).sessions - {ses.addr})
    {
      hide Shape, View, ReqsView, QueueView, SessionsView, Repr;
      NoMemberLeft(ses);
      sessions := sessions - {ses.addr};
      SessionGone(ses);
      SessionGoneView(ses.addr);
    }

    /** treq_SessionFree() */
    method SessionFree(ses: Session)
      requires Shape() && IsSession(ses) && Enlisted(View(), ses.addr)
      modifies Everything(), this`queue, this`books, this`commands, this`live, this`sessions
      ensures Shape() && SessionMembersLinked(old(View()), ses.addr)
      ensures View() == Lifecycle.SessionFree(old(View()), ses.addr)
    {
      hide Shape, View, Repr, Everything, Enlisted, SessionMembersLinked,
          Lifecycle.SessionFree, Lifecycle.SessionFreePass;
      var sid := ses.addr;
      EnlistedLinked(View(), sid);
      while ses.requests != []
        invariant Shape() && IsSession(ses) && Enlisted(View(), sid) && SessionMembersLinked(View(), sid)
        invariant unchanged(`sessions) && unchanged(`memory) && unchanged(`pool)
        invariant live <= old(live) && fresh(Events(queue) - old(Events(queue)))
        invariant Lifecycle.SessionFree(View(), sid) == old(Lifecycle.SessionFree(View(), sid))
        decreases |ses.requests|
      {
        SessionList(ses);
        StillEnlisted(View(), sid);
        SessionStep(View(), sid);
        OnlyFresh();
        ghost var before := Events(queue);
        SessionFreePass(ses);
        assert fresh(before - old(Events(queue))) && fresh(Events(queue) - before);
      }
      SessionList(ses);
      SessionDone(View(), sid);
      DropSession(ses);
    }

    // ------------------------------------------------------- creating requests

    /** The next address has never been used. */
    ghost predicate Room()
      reads this
    {
      forall a :: a in memory ==> a < nextReq
    }

    twostate lemma BlockAdded(new r: Request)
      requires old(Shape()) && old(Room()) && r.addr == old(nextReq) && fresh(r)
      requires memory == old(memory)[r.addr := r] && live == old(live) + {r.addr}
      requires unchanged(`sessions) && unchanged(`queue) && unchanged(`books) && unchanged(`pool)
      requires unchanged(old(Requests())) && unchanged(Sessions()) && unchanged(Events(queue))
      requires (pool != null ==> unchanged(pool)) && r.pool == null && r.callbackEvent == null
      requires r.session != null ==> IsSession(r.session)
      ensures Shape() && ReqsView() == old(ReqsView())[r.addr := r.View()]
      ensures QueueView() == old(QueueView()) && SessionsView() == old(SessionsView())
    {
      SessionsFrame();
      QueueFrame();
      hide SessionsView, QueueView;
      BlockInReqs(r);
      hide ReqsView;
      BlockInShape(r);
      BlockInLists(r);
      hide RequestsShape, ListsShape;
    }

    twostate lemma BlockInReqs(new r: Request)
      requires old(Room()) && r.addr == old(nextReq)
      requires memory == old(memory)[r.addr := r] && live == old(live) + {r.addr}
      requires unchanged(old(Requests()))
      ensures ReqsView() == old(ReqsView())[r.addr := r.View()]
    {
      forall a | a in live && a in memory && a != r.addr
        ensures a in old(ReqsView()) && ReqsView()[a] == old(ReqsView())[a]
      {
        assert memory[a] in old(Requests());
      }
      assert ReqsView().Keys == old(ReqsView())[r.addr := r.View()].Keys;
    }

    twostate lemma BlockInShape(new r: Request)
      requires old(RequestsShape()) && old(Room()) && r.addr == old(nextReq)
      requires memory == old(memory)[r.addr := r] && live == old(live) + {r.addr}
      requires unchanged(`sessions) && unchanged(`queue) && unchanged(`pool) && unchanged(old(Requests()))
      requires r.pool == null && r.callbackEvent == null && (r.session != null ==> IsSession(r.session))
      ensures RequestsShape()
    {
      forall q | q in Requests() && q != r ensures q in old(Requests()) {
        var a :| a in live && a in memory && memory[a] == q;
        assert a in old(live) && memory[a] == old(memory)[a];
      }
    }

    twostate lemma BlockInLists(new r: Request)
      requires old(ListsShape()) && old(Room()) && r.addr == old(nextReq)
      requires memory == old(memory)[r.addr := r] && unchanged(`sessions) && unchanged(`pool)
      requires unchanged(Sessions()) && (pool != null ==> unchanged(pool))
      ensures ListsShape()
    {
      forall s | s in sessions ensures sessions[s].requests == old(sessions[s].requests) {
        assert sessions[s] in Sessions();
      }
    }

    twostate lemma BlockAddedView(new r: Request)
      requires unchanged(`sources) && unchanged(`commands) && unchanged(`deletedInterps) && unchanged(`exited)
      requires nextReq == old(nextReq) + 1 && unchanged(`nextSession) && unchanged(`books) && unchanged(`pool)
      requires pool != null ==> unchanged(pool)
      requires ReqsView() == old(ReqsView())[r.addr := r.View()]
      requires QueueView() == old(QueueView()) && SessionsView() == old(SessionsView())
      ensures View() == old(View()).(reqs := old(View()).reqs[r.addr := r.View()], nextReq := old(View()).nextReq + 1)
    {
      hide ReqsView, SessionsView, QueueView;
    }

    /** treq_RequestInit(), with the fields that treq_CreateNewRequest() fills in. */
    method Allocate(o: RequestOptions, ses: Session?) returns (r: Request)
      requires Shape() && Room() && (ses != null ==> IsSession(ses))
      modifies this`memory, this`live, this`nextReq
      ensures Shape() && Room() && fresh(r) && IsLive(r) && r.addr == old(nextReq) && r.session == ses
      ensures r.async == o.async && r.pool == null && r.callbackEvent == null
      ensures View() == old(View()).(reqs := old(View()).reqs[r.addr := r.View()], nextReq := old(View()).nextReq + 1)
      ensures r.View() == Req(o.interp, o.async, o.async && o.callback, Created, false, false,
                              if ses == null then None else Some(ses.addr), None, false, false)
    {
      hide Shape, View, ReqsView, QueueView, SessionsView, PoolView, Repr;
      r := new Request(nextReq, o, ses);
      memory := memory[nextReq := r];
      live := live + {nextReq};
      nextReq := nextReq + 1;
      BlockAdded(r);
      BlockAddedView(r);
    }

    /** treq_LinkedListInsertNewItem() on a session's list. */
    method PushMember(ses: Session, r: Request)
      requires Shape() && IsSession(ses) && Known(r)
      modifies ses`requests
      ensures Shape() && ses.requests == [r] + old(ses.requests)
      ensures ses.addr in old(View()).sessions
      ensures View() == old(View()).(
              sessions := old(View()).sessions[ses.addr := [r.addr] + old(View()).sessions[ses.addr]])
    {
      hide Shape, View, ReqsView, QueueView, SessionsView, PoolView, Repr;
      SessionList(ses);
      assert Addrs([r] + ses.requests) == [r.addr] + Addrs(ses.requests);
      ses.requests := [r] + ses.requests;
      SessionListChanged(ses);
      SessionListView();
    }

    /** treq_RequestInit() or treq_SessionRequestInit() */
    method InitRequest(ses: Session?, o: RequestOptions) returns (r: Request)
      requires Shape() && Room() && (ses != null ==> IsSession(ses))
      modifies this`memory, this`live, this`nextReq, ses
      ensures Shape() && Room() && fresh(r) && IsLive(r) && r.addr == old(nextReq)
      ensures r.async == o.async && r.pool == null && r.callbackEvent == null && r.session == ses
      ensures var sid := if ses == null then None else Some(ses.addr);
        (sid.Some? ==> sid.value in old(View()).sessions) && View() == Lifecycle.InitRequest(old(View()), sid, o)
    {
      hide Shape, View, Repr;
      Fields();
      if ses != null {
        SessionList(ses);
      }
      r := Allocate(o, ses);
      if ses != null {
        PushMember(ses, r);
      }
    }

    /** Tcl_CreateObjCommand() for the request. */
    method CreateCommand(r: Request)
      requires Shape() && IsLive(r)
      modifies r`cmdToken, this`commands, this`books
      ensures Shape() && r.addr in old(View()).reqs && View() == Lifecycle.CreateCommand(old(View()), r.addr)
    {
      hide Shape, View, ReqsView, QueueView, SessionsView, Repr;
      ViewOf(r);
      r.cmdToken := true;
      RequestChanged(r);
      Fields();
      label registering:
      commands := commands + {r.addr};
      books := books.(named := books.named + {r.addr});
      AsideChanged@registering();
      AsideView@registering();
    }

    /** treq_CreateNewRequest() from the run on: a `-simple` request is freed at once. */
    method RunNew(r: Request, o: RequestOptions, out: RunOutcome)
      requires Shape() && IsLive(r) && RunFits(o, out)
      requires r.async == o.async && r.pool == null && r.callbackEvent == null
      modifies this`live, r, r.session
      modifies this`pool, this`sources, this`queue, this`books, this`commands, pool
      ensures Shape() && r.addr in old(View()).reqs && old(View()).reqs[r.addr].async == o.async
      ensures var s := Lifecycle.RequestRun(old(View()), r.addr, out);
        View() == if o.simple then Lifecycle.RequestFree(s, r.addr) else Lifecycle.CreateCommand(s, r.addr)
    {
      hide Shape, View, Repr, Lifecycle.RequestRun, Lifecycle.RequestFree, Lifecycle.CreateCommand;
      ViewOf(r);
      ghost var s := View();
      RequestRun(r, out);
      ViewOf(r);
      if o.simple {
        SyncStaysOut(s, r.addr, out);
        RequestFree(r);
      } else {
        CreateCommand(r);
      }
    }

    /** treq_CreateNewRequest(), from the request's allocation on. */
    method CreateRequest(ses: Session?, o: RequestOptions, out: RunOutcome)
      requires Shape() && Room() && (ses != null ==> IsSession(ses)) && RunFits(o, out)
      modifies this`memory, this`live, this`nextReq, ses
      modifies this`pool, this`sources, this`queue, this`books, this`commands, pool
      ensures Shape() && Room()
      ensures var sid := if ses == null then None else Some(ses.addr);
        && (sid.Some? ==> sid.value in old(View()).sessions)
        && View() == Lifecycle.CreateRequest(old(View()), sid, o, out)
    {
      hide Shape, View, Repr, Lifecycle.InitRequest, Lifecycle.RequestRun,
          Lifecycle.RequestFree, Lifecycle.CreateCommand;
      Fields();
      var r := InitRequest(ses, o);
      RunNew(r, o, out);
    }

    /** treq_SessionInit() */
    method CreateSession() returns (ses: Session)
      requires Shape() && nextSession !in sessions
      modifies this`sessions, this`nextSession
      ensures Shape() && fresh(ses) && IsSession(ses)
      ensures View() == Lifecycle.CreateSession(old(View()))
    {
      hide Shape, View, ReqsView, QueueView, SessionsView, Repr;
      ses := new Session(nextSession);
      sessions := sessions[nextSession := ses];
      nextSession := nextSession + 1;
      SessionAdded(ses);
      SessionAddedView(ses);
    }

    twostate lemma SessionAdded(new ses: Session)
      requires old(Shape()) && fresh(ses) && ses.addr !in old(sessions) && ses.requests == []
      requires sessions == old(sessions)[ses.addr := ses]
      requires unchanged(`memory) && unchanged(`live) && unchanged(`queue) && unchanged(`books) && unchanged(`pool)
      requires unchanged(Requests()) && unchanged(old(Sessions())) && unchanged(Events(queue))
      requires pool != null ==> unchanged(pool)
      ensures Shape() && SessionsView() == old(SessionsView())[ses.addr := []]
      ensures ReqsView() == old(ReqsView()) && QueueView() == old(QueueView())
    {
      hide ReqsView, SessionsView, QueueView;
      ReqsSame();
      QueueFrame();
      SessionInView(ses);
      SessionInLists(ses);
      hide ListsShape;
    }

    twostate lemma SessionInView(new ses: Session)
      requires ses.requests == [] && sessions == old(sessions)[ses.addr := ses] && unchanged(old(Sessions()))
      ensures SessionsView() == old(SessionsView())[ses.addr := []]
    {
      forall k | k in sessions && k != ses.addr ensures SessionsView()[k] == old(SessionsView())[k] {
        assert sessions[k] in old(Sessions());
      }
    }

    twostate lemma SessionInLists(new ses: Session)
      requires old(ListsShape()) && ses.addr !in old(sessions) && ses.requests == []
      requires sessions == old(sessions)[ses.addr := ses] && unchanged(old(Sessions()))
      requires unchanged(`memory) && unchanged(`pool) && (pool != null ==> unchanged(pool))
      ensures ListsShape()
    {
      forall k | k in sessions && k != ses.addr ensures sessions[k].requests == old(sessions[k].requests) {
        assert sessions[k] in old(Sessions());
      }
    }

    twostate lemma SessionAddedView(new ses: Session)
      requires unchanged(`sources) && unchanged(`commands) && unchanged(`deletedInterps) && unchanged(`exited)
      requires unchanged(`nextReq) && nextSession == old(nextSession) + 1 && ses.addr == old(nextSession)
      requires unchanged(`books) && unchanged(`pool) && (pool != null ==> unchanged(pool))
      requires SessionsView() == old(SessionsView())[ses.addr := []]
      requires ReqsView() == old(ReqsView()) && QueueView() == old(QueueView())
      ensures View() == Lifecycle.CreateSession(old(View()))
    {
      hide ReqsView, SessionsView, QueueView;
    }

    /** An interpreter is deleted. */
    method DeleteInterp(i: Interp)
      requires Shape()
      modifies this`deletedInterps
      ensures Shape() && View() == Lifecycle.DeleteInterp(old(View()), i)
    {
      hide Shape, View, ReqsView, QueueView, SessionsView, Repr;
      Fields();
      deletedInterps := deletedInterps + {i};
      AsideChanged();
      AsideView();
    }
  }
}
