/** The asynchronous request lifecycle as a state machine on values.
    Requests, sessions and callback events are named by the address of their
    block; addresses are never reused, so a stale address stays recognisable.
    Every function below follows one C function, statement by statement. */
module Lifecycle {
  import opened Common

  type Addr = nat
  type Interp = nat

  datatype ReqState = Created | InProgress | Done | Error

  datatype Req = Req(
    interp: Interp,
    async: bool,
    callback: bool,
    state: ReqState,
    error: bool,               // an error text has been recorded
    pooled: bool,              // the `pool` field is not NULL
    session: Option<Addr>,
    event: Option<nat>,        // `callback_event`
    token: bool,               // `cmd_token` is not NULL
    isDead: bool
  )

  /** A completion message that libcurl has not handed out yet. */
  datatype Msg = Msg(handle: Addr, ok: bool)

  /** libcurl's multi handle. A handle is named by its request (CURLOPT_PRIVATE). */
  datatype Multi = Multi(attached: set<Addr>, running: set<Addr>, msgs: seq<Msg>)

  datatype Pool = Pool(
    multi: Multi,
    requests: seq<Addr>,
    isDead: bool,
    isActive: bool,
    needRefresh: bool,
    count: int
  )

  datatype Event = CallbackEvent(id: nat, request: Option<Addr>) | DeactivateEvent

  datatype State = State(
    reqs: map<Addr, Req>,            // live request blocks
    sessions: map<Addr, seq<Addr>>,  // live sessions with their request lists
    pool: Option<Pool>,              // the thread's default pool
    sources: nat,                    // registrations of the pool's event source
    queue: seq<Event>,               // the thread's event queue
    commands: set<Addr>,             // requests that own a Tcl command
    deletedInterps: set<Interp>,
    exited: bool,
    nextReq: nat,
    nextSession: nat,
    nextEvent: nat,
    // what has happened so far
    scheduled: multiset<Addr>,       // callback events queued, per request
    invoked: multiset<Addr>,         // callbacks run, per request
    freed: multiset<Addr>,           // request blocks released
    named: set<Addr>,                // requests that were ever given a command
    deletedCommands: multiset<Addr>  // commands deleted
  )

  const INIT := State(map[], map[], None, 0, [], {}, {}, false, 0, 0, 0,
                      multiset{}, multiset{}, multiset{}, {}, multiset{})

  // ---------------------------------------------------------------- libcurl

  function MultiAdd(m: Multi, a: Addr): Multi {
    m.(attached := m.attached + {a}, running := m.running + {a})
  }

  function WithoutHandle(msgs: seq<Msg>, a: Addr): seq<Msg> {
    if msgs == [] then []
    else (if msgs[0].handle == a then [] else [msgs[0]]) + WithoutHandle(msgs[1..], a)
  }

  /** Removing a handle also drops its undelivered message. */
  function MultiRemove(m: Multi, a: Addr): Multi {
    Multi(m.attached - {a}, m.running - {a}, WithoutHandle(m.msgs, a))
  }

  function Handles(msgs: seq<Msg>): set<Addr> {
    set m | m in msgs :: m.handle
  }

  function MultiPerform(m: Multi, completions: seq<Msg>): Multi {
    m.(running := m.running - Handles(completions), msgs := m.msgs + completions)
  }

  // ------------------------------------------------------- treqRequest.c (1)

  predicate Live(s: State, a: Addr) {
    a in s.reqs
  }

  function SetError(s: State, a: Addr): (t: State)
    requires Live(s, a)
    ensures a in t.reqs && t.reqs == s.reqs[a := t.reqs[a]]
  {
    s.(reqs := s.reqs[a := s.reqs[a].(error := true, state := Error)])
  }

  function ScheduleCallback(s: State, a: Addr): (t: State)
    requires Live(s, a)
    ensures a in t.reqs && t.reqs == s.reqs[a := s.reqs[a].(event := t.reqs[a].event)]
    ensures t.pool == s.pool && t.sessions == s.sessions
  {
    var r := s.reqs[a];
    if !r.callback then s
    else if r.interp in s.deletedInterps then s
    else s.(reqs := s.reqs[a := r.(event := Some(s.nextEvent))],
            queue := s.queue + [CallbackEvent(s.nextEvent, Some(a))],
            nextEvent := s.nextEvent + 1,
            scheduled := s.scheduled + multiset{a})
  }

  // ------------------------------------------------------------- treqPool.c

  function PoolActivate(s: State): State
    requires s.pool.Some?
  {
    s.(pool := Some(s.pool.value.(isActive := true)), sources := s.sources + 1)
  }

  /** Deleting an event source that is not registered has no effect. */
  function PoolDeactivate(s: State): State
    requires s.pool.Some?
  {
    s.(pool := Some(s.pool.value.(isActive := false)),
       sources := if s.sources == 0 then 0 else s.sources - 1)
  }

  const EMPTY_POOL := Pool(Multi({}, {}, []), [], false, false, false, 0)

  datatype AddOutcome = PoolInitFails | AddHandleFails | Added

  function PoolAddRequest(s: State, a: Addr, out: AddOutcome): (r: (State, bool))
    requires Live(s, a)
    ensures r.0.reqs == s.reqs[a := s.reqs[a].(pooled := s.reqs[a].pooled || r.1)] && r.0.sessions == s.sessions
    ensures r.1 ==> r.0.pool.Some?
  {
    if s.pool.None? && out.PoolInitFails? then (s, false)
    else
      var s1 := if s.pool.None? then s.(pool := Some(EMPTY_POOL)) else s;
      if !out.Added? then (s1, false)
      else
        var p := s1.pool.value;
        var s2 := s1.(pool := Some(p.(multi := MultiAdd(p.multi, a), requests := [a] + p.requests)),
                      reqs := s1.reqs[a := s1.reqs[a].(pooled := true)]);
        var s3 := if p.isActive then s2 else PoolActivate(s2);
        var q := s3.pool.value;
        (s3.(pool := Some(q.(count := q.count + 1, needRefresh := true))), true)
  }

  /** treq_PoolRemoveRequest() up to the test of the request's state. */
  function LeavePool(s: State, a: Addr): State
    requires Live(s, a) && s.pool.Some?
  {
    var p := s.pool.value;
    s.(pool := Some(p.(multi := MultiRemove(p.multi, a),
                       requests := if p.isDead then p.requests else RemoveFirst(p.requests, a),
                       count := p.count - 1)),
       reqs := s.reqs[a := s.reqs[a].(pooled := false)])
  }

  function PoolRemoveRequest(s: State, a: Addr): (t: State)
    requires Live(s, a) && s.pool.Some?
    ensures a in t.reqs && t.reqs == s.reqs[a := t.reqs[a]]
    ensures t.sessions == s.sessions && t.pool.Some?
    ensures t.pool.value.isDead == s.pool.value.isDead
    ensures s.pool.value.isDead ==> t.pool.value.requests == s.pool.value.requests
    ensures !t.reqs[a].pooled && t.reqs[a].session == s.reqs[a].session
    ensures t.reqs[a].token == s.reqs[a].token && t.reqs[a].isDead == s.reqs[a].isDead
  {
    var s1 := LeavePool(s, a);
    var r := s1.reqs[a];
    if r.state == InProgress && r.interp !in s.deletedInterps
    then ScheduleCallback(SetError(s1, a), a)
    else s1
  }

  datatype WaitOutcome = WaitFails | WaitIdle | WaitReady

  /** What the environment does during one run of the event check procedure. */
  datatype CheckInput = CheckInput(fileEvents: bool, wait: WaitOutcome, performOk: bool, completions: seq<Msg>)

  /** True when the completion messages can be what libcurl reports for this state:
      each is about a transfer that was still running, and a transfer whose write
      callback failed does not end well. */
  ghost predicate CanComplete(s: State, completions: seq<Msg>)
    requires s.pool.Some?
  {
    && (forall m :: m in completions ==> m.handle in s.pool.value.multi.running)
    && (forall i, j :: 0 <= i < j < |completions| ==> completions[i].handle != completions[j].handle)
    && (forall m :: m in completions && m.ok && Live(s, m.handle) ==> s.reqs[m.handle].state != Error)
  }

  /** The handling of one completion message. */
  function Deliver(s: State, m: Msg): State
    requires s.pool.Some? && Live(s, m.handle)
  {
    var s1 := s.(reqs := s.reqs[m.handle := s.reqs[m.handle].(state := if m.ok then Done else Error)]);
    ScheduleCallback(PoolRemoveRequest(s1, m.handle), m.handle)
  }

  function PopMessage(s: State): State
    requires s.pool.Some? && s.pool.value.multi.msgs != []
  {
    var p := s.pool.value;
    s.(pool := Some(p.(multi := p.multi.(msgs := p.multi.msgs[1..]))))
  }

  predicate AllLive(s: State, msgs: seq<Msg>) {
    forall i :: 0 <= i < |msgs| ==> msgs[i].handle in s.reqs
  }

  predicate MessagesLive(s: State) {
    s.pool.Some? ==> AllLive(s, s.pool.value.multi.msgs)
  }

  /** The `while` loop over curl_multi_info_read(). */
  function Drain(s: State): (t: State)
    requires s.pool.Some? && MessagesLive(s)
    ensures t.pool.Some?
    decreases |s.pool.value.multi.msgs|
  {
    var msgs := s.pool.value.multi.msgs;
    if msgs == [] then s
    else
      WithoutHandleShrinks(msgs[1..], msgs[0].handle);
      Drain(Deliver(PopMessage(s), msgs[0]))
  }

  lemma {:induction false} WithoutHandleShrinks(msgs: seq<Msg>, a: Addr)
    ensures |WithoutHandle(msgs, a)| <= |msgs|
    ensures forall m :: m in WithoutHandle(msgs, a) <==> m in msgs && m.handle != a
    ensures (forall m :: m in msgs ==> m.handle != a) ==> WithoutHandle(msgs, a) == msgs
    ensures forall i :: 0 <= i < |WithoutHandle(msgs, a)| ==> WithoutHandle(msgs, a)[i] in msgs
  {
    if msgs != [] {
      WithoutHandleShrinks(msgs[1..], a);
      assert msgs == [msgs[0]] + msgs[1..];
      assert forall m :: m in msgs <==> m == msgs[0] || m in msgs[1..];
    }
  }

  function SetMulti(s: State, m: Multi): State
    requires s.pool.Some?
  {
    s.(pool := Some(s.pool.value.(multi := m)))
  }

  /** From label `perform` on. */
  function PerformAndDrain(s: State, performOk: bool, completions: seq<Msg>): State
    requires s.pool.Some? && MessagesLive(s) && AllLive(s, completions)
  {
    var s1 := SetMulti(s, MultiPerform(s.pool.value.multi, completions));
    var numfds := |s1.pool.value.multi.running|;
    if !performOk then s1
    else if numfds == s1.pool.value.count then s1
    else
      var s2 := Drain(s1);
      if numfds == 0 then s2.(queue := [DeactivateEvent] + s2.queue) else s2
  }

  function EventCheck(s: State, c: CheckInput): State
    requires s.pool.Some? && MessagesLive(s) && AllLive(s, c.completions)
  {
    if !c.fileEvents then s
    else if s.pool.value.needRefresh then
      PerformAndDrain(s.(pool := Some(s.pool.value.(needRefresh := false))), c.performOk, c.completions)
    else if !c.wait.WaitReady? then s
    else PerformAndDrain(s, c.performOk, c.completions)
  }

  predicate PoolMembersLive(s: State) {
    s.pool.Some? ==> forall i :: 0 <= i < |s.pool.value.requests| ==> s.pool.value.requests[i] in s.reqs
  }

  /** One pass of the list-freeing loop of treq_PoolFree(): the body, then the
      loop's step that unlinks the head. */
  function PoolFreePass(s: State): State
    requires s.pool.Some? && s.pool.value.isDead && s.pool.value.requests != [] && PoolMembersLive(s)
  {
    var t := PoolRemoveRequest(s, s.pool.value.requests[0]);
    var p := t.pool.value;
    t.(pool := Some(p.(requests := p.requests[1..])))
  }

  function PoolFreeLoop(s: State): (t: State)
    requires s.pool.Some? && s.pool.value.isDead && PoolMembersLive(s)
    decreases |s.pool.value.requests|
  {
    if s.pool.value.requests == [] then s
    else PoolFreeLoop(PoolFreePass(s))
  }

  function ThreadExit(s: State): State
    requires PoolMembersLive(s)
  {
    var s0 := s.(exited := true);
    if s0.pool.None? then s0
    else PoolFreeLoop(s0.(pool := Some(s0.pool.value.(isDead := true)))).(pool := None)
  }

  // ---------------------------------------------------------- treqSession.c

  function SessionRemoveRequest(s: State, a: Addr): State
    requires Live(s, a) && s.reqs[a].session.Some? && s.reqs[a].session.value in s.sessions
  {
    var sid := s.reqs[a].session.value;
    s.(reqs := s.reqs[a := s.reqs[a].(session := None)],
       sessions := s.sessions[sid := RemoveFirst(s.sessions[sid], a)])
  }

  // ------------------------------------------- treqRequest.c (2), library.c

  /** The events whose identity is `e` no longer name a request. */
  function Detach(q: seq<Event>, e: nat): seq<Event> {
    seq(|q|, i requires 0 <= i < |q| =>
      if q[i].CallbackEvent? && q[i].id == e then CallbackEvent(e, None) else q[i])
  }

  /** The pointers that treq_RequestFree() follows are valid. */
  predicate Linked(s: State, a: Addr) {
    && Live(s, a)
    && (s.reqs[a].pooled ==> s.pool.Some?)
    && (s.reqs[a].session.Some? ==> s.reqs[a].session.value in s.sessions)
  }

  /** treq_RequestFree() up to the request's departure from the pool. */
  function Parted(s: State, a: Addr): (t: State)
    requires Linked(s, a)
    ensures Live(t, a) && t.reqs == s.reqs[a := t.reqs[a]] && t.pool == s.pool
    ensures s.reqs[a].session.None? ==> t.sessions == s.sessions
    ensures t.reqs[a] == s.reqs[a].(session := None)
  {
    var r := s.reqs[a];
    var s1 := if r.event.Some? then s.(queue := Detach(s.queue, r.event.value)) else s;
    if r.session.Some? then SessionRemoveRequest(s1, a) else s1
  }

  /** treq_RequestFree() up to the deletion of the command. */
  function Unlink(s: State, a: Addr): (t: State)
    requires Linked(s, a)
    ensures Live(t, a) && t.reqs == s.reqs[a := t.reqs[a]]
    ensures s.reqs[a].session.None? ==> t.sessions == s.sessions
    ensures t.pool.Some? == s.pool.Some?
    ensures t.reqs[a].token == s.reqs[a].token && t.reqs[a].isDead == s.reqs[a].isDead
  {
    var s1 := Parted(s, a);
    if s.reqs[a].pooled then PoolRemoveRequest(s1, a) else s1
  }

  function RequestFree(s: State, a: Addr): (t: State)
    requires Linked(s, a)
    ensures t.reqs == s.reqs - {a}
    ensures s.reqs[a].session.None? ==> t.sessions == s.sessions
    ensures t.pool.Some? == s.pool.Some?
    decreases 4
  {
    var s1 := Unlink(s, a);
    var s2 := if s1.reqs[a].token
              then DeleteCommand(s1.(reqs := s1.reqs[a := s1.reqs[a].(isDead := true)]), a)
              else s1;
    s2.(reqs := s2.reqs - {a}, freed := s2.freed + multiset{a})
  }

  /** Tcl_DeleteCommandFromToken() on the command of request `a`. */
  function DeleteCommand(s: State, a: Addr): (t: State)
    requires Live(s, a) && (s.reqs[a].isDead || Linked(s, a))
    ensures s.reqs[a].isDead ==> t.reqs == s.reqs && t.sessions == s.sessions && t.pool == s.pool
    ensures !s.reqs[a].isDead ==> t.reqs == s.reqs - {a}
    ensures !s.reqs[a].isDead && s.reqs[a].session.None? ==> t.sessions == s.sessions
    ensures t.pool.Some? == s.pool.Some?
    decreases if s.reqs[a].isDead then 1 else 6
  {
    HandleDelete(s.(commands := s.commands - {a}, deletedCommands := s.deletedCommands + multiset{a}), a)
  }

  /** treq_RequestHandleDelete() */
  function HandleDelete(s: State, a: Addr): (t: State)
    requires Live(s, a) && (s.reqs[a].isDead || Linked(s, a))
    ensures s.reqs[a].isDead ==> t.reqs == s.reqs && t.sessions == s.sessions && t.pool == s.pool
    ensures !s.reqs[a].isDead ==> t.reqs == s.reqs - {a}
    ensures !s.reqs[a].isDead && s.reqs[a].session.None? ==> t.sessions == s.sessions
    ensures t.pool.Some? == s.pool.Some?
    decreases if s.reqs[a].isDead then 0 else 5
  {
    if s.reqs[a].isDead then s
    else RequestFree(s.(reqs := s.reqs[a := s.reqs[a].(token := false)]), a)
  }

  predicate SessionMembersLinked(s: State, sid: Addr) {
    && sid in s.sessions
    && NoDuplicates(s.sessions[sid])
    && forall i :: 0 <= i < |s.sessions[sid]| ==>
         s.sessions[sid][i] in s.reqs && (s.reqs[s.sessions[sid][i]].pooled ==> s.pool.Some?)
  }

  /** One pass of the list-freeing loop of treq_SessionFree(). */
  function SessionFreePass(s: State, sid: Addr): (t: State)
    requires SessionMembersLinked(s, sid) && s.sessions[sid] != []
    ensures SessionMembersLinked(t, sid) && t.sessions[sid] == s.sessions[sid][1..]
  {
    var a := s.sessions[sid][0];
    var s1 := s.(reqs := s.reqs[a := s.reqs[a].(session := None)]);
    var s2 := RequestFree(s1, a);
    s2.(sessions := s2.sessions[sid := s2.sessions[sid][1..]])
  }

  /** treq_SessionHandleDelete() and treq_SessionFree() */
  function SessionFree(s: State, sid: Addr): State
    requires SessionMembersLinked(s, sid)
    decreases |s.sessions[sid]|
  {
    if s.sessions[sid] == [] then s.(sessions := s.sessions - {sid})
    else SessionFree(SessionFreePass(s, sid), sid)
  }

  /** How treq_RequestRun() goes: the option calls may fail, then an asynchronous
      request is handed to the pool and a synchronous one is performed. */
  datatype RunOutcome =
    | SetupFails
    | Async(add: AddOutcome)
    | Sync(ok: bool, writeFailed: bool)

  function RunErrorExit(s: State, a: Addr): State
    requires Live(s, a)
  {
    var s1 := SetError(s, a);
    if s1.reqs[a].async then ScheduleCallback(s1, a) else s1
  }

  function SetReqState(s: State, a: Addr, st: ReqState): State
    requires Live(s, a)
  {
    s.(reqs := s.reqs[a := s.reqs[a].(state := st)])
  }

  function RequestRun(s: State, a: Addr, out: RunOutcome): (t: State)
    requires Live(s, a)
    requires out.SetupFails? || (out.Async? <==> s.reqs[a].async)
    ensures a in t.reqs && t.reqs == s.reqs[a := t.reqs[a]] && t.sessions == s.sessions
    ensures t.reqs[a].session == s.reqs[a].session
    ensures t.reqs[a].pooled ==> s.reqs[a].pooled || t.pool.Some?
  {
    match out
    case SetupFails => RunErrorExit(s, a)
    case Async(add) =>
      var s1 := SetReqState(s, a, InProgress);
      var (s2, ok) := PoolAddRequest(s1, a, add);
      if ok then s2 else RunErrorExit(s2, a)
    case Sync(ok, writeFailed) =>
      var s1 := SetReqState(s, a, InProgress);
      var s2 := if writeFailed then SetError(s1, a) else s1;
      SetReqState(s2, a, if ok then Done else Error)
  }

  datatype RequestOptions = RequestOptions(interp: Interp, async: bool, callback: bool, simple: bool)

  /** treq_RequestInit() or treq_SessionRequestInit(), and the assignments of
      treq_CreateNewRequest() that the lifecycle depends on. */
  function InitRequest(s: State, sid: Option<Addr>, o: RequestOptions): State
    requires sid.Some? ==> sid.value in s.sessions
  {
    var a := s.nextReq;
    var r := Req(o.interp, o.async, o.async && o.callback, Created, false, false, sid, None, false, false);
    var s1 := s.(reqs := s.reqs[a := r], nextReq := a + 1);
    if sid.None? then s1
    else s1.(sessions := s1.sessions[sid.value := [a] + s1.sessions[sid.value]])
  }

  function CreateCommand(s: State, a: Addr): State
    requires Live(s, a)
  {
    s.(reqs := s.reqs[a := s.reqs[a].(token := true)], commands := s.commands + {a}, named := s.named + {a})
  }

  predicate RunFits(o: RequestOptions, out: RunOutcome) {
    && !(o.async && o.simple)
    && (o.callback ==> o.async)
    && (out.SetupFails? || (out.Async? <==> o.async))
    && (out.Sync? && out.writeFailed ==> !out.ok)
  }

  function CreateRequest(s: State, sid: Option<Addr>, o: RequestOptions, out: RunOutcome): State
    requires sid.Some? ==> sid.value in s.sessions
    requires RunFits(o, out)
  {
    var a := s.nextReq;
    var s1 := RequestRun(InitRequest(s, sid, o), a, out);
    if o.simple then RequestFree(s1, a) else CreateCommand(s1, a)
  }

  function CreateSession(s: State): State {
    s.(sessions := s.sessions[s.nextSession := []], nextSession := s.nextSession + 1)
  }

  // --------------------------------------------------------------- Tcl events

  /** The index of the first event whose procedure accepts it; `|q|` if none does.
      A callback event waits for a pass that serves file events. */
  function NextReady(q: seq<Event>, fileEvents: bool): (i: nat)
    ensures i <= |q|
    ensures i < |q| ==> fileEvents || q[i].DeactivateEvent?
  {
    if q == [] then 0
    else if fileEvents || q[0].DeactivateEvent? then 0
    else 1 + NextReady(q[1..], fileEvents)
  }

  datatype Outcome = Next(state: State) | UseAfterFree

  /** Tcl_ServiceEvent(): runs one event procedure and removes its event. The
      script that a callback runs is whatever steps come next. */
  function Service(s: State, fileEvents: bool): Outcome
    requires forall i :: 0 <= i < |s.queue| && s.queue[i].DeactivateEvent? ==> s.pool.Some?
  {
    var i := NextReady(s.queue, fileEvents);
    if i == |s.queue| then Next(s)
    else
      var s1 := s.(queue := s.queue[..i] + s.queue[i + 1..]);
      match s.queue[i]
      case DeactivateEvent => Next(PoolDeactivate(s1))
      case CallbackEvent(_, None) => Next(s1)
      case CallbackEvent(_, Some(a)) =>
        if !Live(s1, a) then UseAfterFree
        else Next(s1.(reqs := s1.reqs[a := s1.reqs[a].(event := None)], invoked := s1.invoked + multiset{a}))
  }

  /** A write callback of a running transfer fails to allocate. */
  function WriteFails(s: State, a: Addr): State
    requires Live(s, a)
  {
    SetError(s, a)
  }

  function DeleteInterp(s: State, i: Interp): State {
    s.(deletedInterps := s.deletedInterps + {i})
  }
}
