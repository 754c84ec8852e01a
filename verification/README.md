# trequests: a verified model

trequests is a Tcl package over libcurl. A script asks for a transfer, gets a request
object back, and either waits for it or has a callback run when it is done. This project
models the parts of the package where several pieces of state have to agree with each
other, and proves what they keep.

**The asynchronous lifecycle** (`Lifecycle*.dfy`, `Runtime.dfy`, `Simulation.dfy`). A
request is linked from the thread's pool, from a session, from its Tcl command and from a
queued callback event, and points back at most of them. The pool keeps a counter beside
its list, registers an event source while it is active, and defers its own deactivation
through the event queue. `Lifecycle` gives every C function as a function on a value that
holds all of this; libcurl's multi handle is the set of attached handles, those of them
still running, and the undelivered completion messages; Tcl's event queue is a sequence.
`LifecycleInvariant` is what holds between the steps, `LifecycleRuns` the steps and whole
runs of them. `LifecycleCheck`, `LifecycleCreation`, `LifecycleRelease` and `LifecycleExit`
say what an operation does to everything, `LifecycleCallbacks` what a step does to each
request, and `LifecycleTheorems`, `LifecycleDangling`, `LifecycleProgress`,
`LifecycleIdle` and `LifecycleDelivery` the results over all runs. The only rule about
order is that of the event loop: after the check procedures it serves one event before any
script runs again.
`LifecycleExamples` has concrete runs. `Runtime` is the same code on the heap: requests,
sessions, pool and events are objects with pointers to each other, and each C function is
a method that updates them in place and is proved to do to the objects what the function
of the same name does to their value. `Simulation` puts the two together: every step of
the state machine can be taken on the objects, and the invariant holds afterwards.

**The lists of `common.h`** (`LinkedList.dfy`): insertion, removal by item and the freeing
loop on nodes, the loop with the bodies of `treq_PoolFree()` and `treq_SessionFree()`,
which may remove from the list that the loop is freeing.

**Request data** (`Encoding.dfy`, `Fields.dfy`): the data options, the strings built from
them and how a server reads them back. Percent-encoding follows sections 2.1 and 2.3 of
RFC 3986.

**Headers** (`Dictionary.dfy`, `Headers.dfy`): merging ordered dictionaries without regard
to case, as the names of header fields are compared (section 5.1 of RFC 9110).

**Scanners** (`ContentType.dfy`, `ContentTypeReading.dfy`, `Json.dfy`): the Content-Type
scanner over a C string, what it reads in terms of positions in the string, and the
recursive descent JSON parser on tokens.

**Smaller pieces** (`WriteBuffer.dfy`, `AuthScheme.dfy`): the growing response body and the
list of authentication schemes.

## Where the code is narrower than its intent

- `treq_RequestFree()` detaches the pending callback event first and leaves the pool
  afterwards, and leaving the pool may queue a new event. The event that is queued then
  names a released request. `LifecycleExamples.DestroyInProgressFaults` is a run of three
  steps that ends in a use of freed memory. `LifecycleDangling.RunCleanIff` gives the
  exact condition for all runs: every queued event names a live request or none if and
  only if no step destroys a request (directly or with its session) that is in progress
  in the pool, wants a callback and has a live interpreter. `OffenceCanFault` shows that
  every such step can be continued into the fault.
- A pool that is emptied by destroying requests, rather than by their completion, keeps
  its event source registered however long the event loop turns
  (`LifecycleIdle.IdleSourceStays`). A step leads there if and only if it destroys the
  only request of the pool, or a session that owns all of them (`LifecycleIdle.IdleIff`);
  `LifecycleExamples.DestroyLeavesIdle` is a run of two steps that does.
- A pooled request that recorded a failed write has no callback event queued when the
  thread exits (`LifecycleTheorems.ExitCallbackIff`). In the code a write fails inside
  `curl_multi_perform()`, so that such a request is still pooled only if performing failed
  as well: the run of `LifecycleExamples.ExitWithoutCallback`. The failed write is a step
  of its own here so that the results hold wherever libcurl calls the write callback.
- The section scan of `treq_ParseContentType()` steps past the end of the string exactly
  when there are parameters, none of them is a charset, and the last one is not blank
  (`ContentType.Overruns`; `ParseContentType` reports it in that case and only then), as
  on `text/html; x=1` (`ContentType.ParameterOverruns`).
- `treq_OptionListMergeDicts()` compares keys with their case and leaves a repeated key
  where it was. So "the last `-headers` option wins" holds exactly when the last entry's
  spelling is the newest one of that name (`Headers.LastOptionWinsIff`), and fails for
  `A: 1`, `a: 2`, `A: 3` (`Headers.LastOptionCanLose`).
- Without percent-encoding (`-data_fields`) a list of pairs comes back as given exactly
  when every pair is literal: no `&` and no percent sequence in it, and no `=` in the key
  (`Fields.RawRoundTripIff`).

## Model

| member | source | states |
|---|---|---|
| `LifecycleTheorems.PoolAgrees` | src/treqPool.c:250-318 | in every reachable state the pool's list has no duplicates and holds exactly the live requests whose pool field is set; the counter is its length and the number of handles attached to libcurl |
| `LifecycleTheorems.SessionsAgree` | src/treqSession.c:48-113 | in every reachable state each session's list holds exactly the live requests that point back at it, each once |
| `LifecycleTheorems.SourceFollowsPool` | src/treqPool.c:192-229 | until the thread exits the event source is registered exactly once while the pool is active and not otherwise; a pool with requests is active; a deactivation event waits only at the queue's head, on an empty active pool |
| `LifecycleTheorems.StateFollowsPool` | src/treqPool.c:171-188 | in every reachable state a pooled request is in progress or has recorded a failed write; one outside the pool is done or in error |
| `LifecycleTheorems.ReleasedOnce` | src/treqRequest.c:797-802 | over every run each request block and each command is released at most once, and exactly once when it is gone |
| `LifecycleTheorems.CallbackOnce` | src/treqRequest.c:45-67 | over every run at most one callback event is queued and at most one callback run per request; a live request that wants one has exactly one queued if and only if it has left the pool |
| `LifecycleTheorems.CallbackCounted` | src/treqRequest.c:45-67 | a request that was alive outside the pool and wanted its callback has exactly one event queued in every later state of the run, freed or not |
| `LifecycleTheorems.DestroyedCounted` | src/treqPool.c:305-314 | a request destroyed while it is in the pool, directly or with its session, has in every later state one event queued if it was in progress and none if it had recorded a failed write |
| `LifecycleDelivery.EverythingDelivered` | src/treqPool.c:111-206 | from any reachable state without dangling events: after all running transfers have ended, one successful check and the service of the queue leave the pool empty and inactive without a source, every finished request in the reported state, and every wanted callback run exactly once |
| `LifecycleTheorems.ExitCallbackIff` | src/treqPool.c:320-339 | at the thread's exit a pooled request that wants a callback has one queued if and only if it is in progress |
| `LifecycleExamples.ExitWithoutCallback` | src/treqPool.c:153-158 | a run in which a write and then the performing fail and the thread exits: the request leaves the pool with no callback queued |
| `LifecycleTheorems.PendingKept` | src/treqRequest.c:57-63 | no step replaces a pending callback event; it stays or has just been served |
| `LifecycleExamples.DestroyInProgressFaults` | src/treqRequest.c:743-754 | a run of three steps in which the detach-then-leave order ends in a use of freed memory |
| `LifecycleRuns.StepInOrder` | src/treqPool.c:192-215 | no step but the check leaves a deactivation in the queue, and the check leaves it for the event served next, because it goes to the head |
| `LifecycleTheorems.QuietBetweenTurns` | src/treqPool.c:192-215 | in every reachable state but the one between a check and the event served after it, no deactivation waits: no script ever runs while one does |
| `LifecycleTheorems.DeactivationIsNext` | src/treqPool.c:192-215 | in that one state the next step serves the deactivation, on an empty pool |
| `LifecycleTheorems.OvertakenDeactivationIff` | src/treqPool.c:192-215 | were a request created while a deactivation waits, serving the deactivation would leave a wrong source if and only if the request entered the pool |
| `LifecycleExamples.TailInsertionBreaks` | src/treqPool.c:192-203 | a run that ends well with the deactivation at the head, and with a pooled request and no event source were it queued at the tail |
| `LifecycleIdle.IdleIff` | src/treqPool.c:160-163 | a step leads to an empty pool with a registered source and no deactivation queued if and only if it destroys the only pooled request, or a session that owns all of them |
| `LifecycleExamples.DestroyLeavesIdle` | src/treqPool.c:290-318 | a run of two steps that ends there |
| `LifecycleIdle.IdleSourceStays` | src/treqPool.c:111-206 | from there no number of event loop passes takes the source away |
| `LifecycleRuns.InitIsGood` | src/treqPool.c:231-248 | the start satisfies the invariant and has no dangling event |
| `LifecycleRuns.StepKeeps` | src/treqPool.c:111-339 | every step, whatever libcurl reports and the script does, keeps the invariant |
| `LifecycleRuns.FaultOnlyByServing` | src/treqRequest.c:20-43 | the only step that can follow an invalid pointer is serving a callback event whose request is gone, and it does so then |
| `LifecycleRuns.EveryRunIsGood` | src/treqPool.c:111-339 | the invariant holds after every run |
| `LifecycleDangling.StepDanglesIff` | src/treqRequest.c:743-754 | from a state without dangling events a step leaves one behind if and only if it destroys a request in progress in the pool that wants a callback in a live interpreter |
| `LifecycleDangling.RunCleanIff` | src/treqRequest.c:743-754 | over every run: all queued events always name a live request or none if and only if no step does that |
| `LifecycleDangling.NoOffenceNoFault` | src/treqRequest.c:29-38 | a run without such a step never touches freed memory |
| `LifecycleDangling.DanglingFaults` | src/treqRequest.c:20-43 | with a dangling event queued, serving the queue ends in a use of freed memory |
| `LifecycleDangling.OffenceCanFault` | src/treqRequest.c:743-754 | every such step can be continued into a use of freed memory, so the condition is necessary |
| `LifecycleProgress.StepEvolves` | src/treqRequest.c:241-252 | in one step a request's state only moves from in progress to done or error; an error stays recorded; nothing enters the pool again |
| `LifecycleTheorems.ReachedEvolves` | src/treqPool.c:185-187 | between any two states that a run reaches one after the other, however far apart, the same |
| `LifecycleProgress.StepHonest` | src/treqRequest.c:416-420 | a message that reports success is never about a request that recorded a failed write, if libcurl reports failed writes as failed transfers |
| `LifecycleProgress.RunHonest` | src/treqRequest.c:416-420 | the same over every run |
| `LifecycleCallbacks.StepEffect` | src/treqPool.c:111-339 | each request by itself: what every step of the system makes of it is a function of the step, its own fields, the messages about it and the head of the queue |
| `LifecycleCallbacks.StepQueuesIff` | src/treqRequest.c:45-67 | a step queues a callback event for a request, one, if and only if it creates the request and cannot start it, ends it by a message, or destroys or expels it in progress, and the request wants its callback in a live interpreter |
| `LifecycleCallbacks.StepRunsIff` | src/treqRequest.c:20-43 | a step runs a request's callback if and only if it serves the event that names it, at the queue's head, in a pass that serves file events |
| `LifecycleTheorems.SilentAfterLoss` | src/treqRequest.c:49-55 | over every run nothing is queued any more for a request whose interpreter has been deleted |
| `LifecyclePool.CounterIsAttached` | src/treqPool.c:153-163 | the counter is the number of running transfers plus the number of undelivered messages |
| `LifecyclePool.EarlyReturnIff` | src/treqPool.c:160-163 | the early return is taken if and only if libcurl holds no undelivered message |
| `LifecyclePool.DrainEffect` | src/treqPool.c:171-190 | the loop delivers every message: each request leaves the pool in the reported state, callbacks are queued in message order, nobody else is affected, no message is left |
| `LifecyclePool.PopIrrelevant` | src/treqPool.c:171-190 | taking a message off first makes no difference, as removing its handle drops it |
| `LifecyclePool.CheckKeeps` | src/treqPool.c:111-206 | the check procedure keeps the invariant; when it has driven libcurl no message is left and the counter is libcurl's running count |
| `LifecycleCheck.CheckRests` | src/treqPool.c:113-149 | without file events, or with no request added since and no descriptor reported ready or a wait that failed, the check changes nothing, whatever libcurl would have reported |
| `LifecycleCheck.CheckFails` | src/treqPool.c:155-158 | if driving libcurl fails the transfers have moved on but no message is read and no request touched |
| `LifecycleCheck.CheckEffect` | src/treqPool.c:153-206 | if it succeeds exactly the requests that libcurl has a message about end, in the reported state, off the list, whose order stays; their callbacks are queued last in message order; a deactivation is queued first if and only if there was a message and no transfer goes on; the refresh flag is cleared |
| `LifecycleCheck.LeavesByCheckIff` | src/treqPool.c:111-206 | a request leaves the pool in a check if and only if libcurl may be driven, that succeeds, and libcurl has a message about it |
| `LifecycleExit.PassIsRemove` | src/treqPool.c:328-331 | in a dead pool the body plus the loop's own step is the removal of the list's head |
| `LifecycleExit.ExitEffect` | src/treqPool.c:320-356 | at the thread's exit every pooled request is expelled once, its callback queued once if it was in progress, and nobody else is affected |
| `LifecycleRelease.SameEndFromEitherSide` | src/library.c:960-970 | deleting a request's command and freeing the request lead to the same state |
| `LifecycleRelease.FreeEffect` | src/treqRequest.c:739-807 | freeing releases this one block once and this one command once |
| `LifecycleRelease.FreeDanglesIff` | src/treqRequest.c:743-754 | freeing leaves a dangling event if and only if the request is in progress in the pool, wants a callback and its interpreter is alive |
| `LifecycleRelease.FreeQueue` | src/treqRequest.c:743-754 | freeing keeps every queued event in its place, takes the request's name off its own one and no other, and queues a new one last if and only if the request is abandoned so |
| `LifecycleRelease.SessionPassIsFree` | src/treqSession.c:88-92 | a pass of the session's loop, which clears the back pointer first, is the freeing of the list's head |
| `LifecycleRelease.SessionFreeKeeps` | src/treqSession.c:82-113 | destroying a session releases exactly its requests, each once with its command, and keeps the invariant |
| `LifecycleRelease.SessionDanglesIff` | src/treqSession.c:82-113 | it leaves a dangling event if and only if one of its requests is abandoned so |
| `LifecycleSteps.CreateKeeps` | src/library.c:979-1210 | creating and running a request keeps the invariant, `-simple` or not, whatever fails |
| `LifecycleCreation.RunEffect` | src/treqRequest.c:662-697 | the run of a request ends done if and only if the transfer was performed with success; in progress, in the pool, at the head of its list and with a refresh due, if and only if the pool took it; in error otherwise; an error is recorded when it could not be started, and then alone its callback is queued |
| `LifecycleCreation.CreatedStays` | src/library.c:1037-1207 | a created request has the options it was given, the state of its run, a command, and the first place in its session; everything else is as it was |
| `LifecycleCreation.CreatedSimple` | src/library.c:1170-1192 | with `-simple` the request is released at once and nothing else has changed, the session's list included |
| `LifecycleSteps.SessionRoundTrip` | src/treqSession.c:19-46 | making a session and destroying it leaves everything as it was |
| `LifecycleSteps.FaultIff` | src/treqRequest.c:20-43 | serving touches freed memory if and only if the head event names a released request |
| `Runtime.Thread.constructor` | src/treqPool.c:20-40 | a new thread has no pool, no source and an empty queue |
| `Runtime.Thread.SetError` | src/treqRequest.c:241-252 | on the objects: records the error and the error state, nothing else |
| `Runtime.Thread.ScheduleCallback` | src/treqRequest.c:45-67 | on the objects: a new event at the tail that the request points at, or nothing without a callback or an interpreter |
| `Runtime.Thread.PoolInit` | src/treqPool.c:231-248 | on the objects: an empty, inactive pool |
| `Runtime.Thread.PoolActivate` | src/treqPool.c:217-222 | on the objects: active, one more registration |
| `Runtime.Thread.PoolDeactivate` | src/treqPool.c:224-229 | on the objects: inactive, the registration gone |
| `Runtime.Thread.PoolAddRequest` | src/treqPool.c:250-288 | on the objects: the request is attached and linked and counted and the pool activated, or nothing but a possible new pool on failure |
| `Runtime.Thread.PoolRemoveRequest` | src/treqPool.c:290-318 | on the objects: detached, unlinked unless the pool is dead, uncounted; a request in progress ends in error and its callback is queued |
| `Runtime.Thread.Deliver` | src/treqPool.c:179-188 | on the objects: the handling of one completion message |
| `Runtime.Thread.Drain` | src/treqPool.c:171-190 | on the objects: the loop does what the recursive function over the messages does |
| `Runtime.Thread.QueueDeactivate` | src/treqPool.c:192-203 | on the objects: the deactivation event goes to the queue's head |
| `Runtime.Thread.EventCheck` | src/treqPool.c:111-206 | on the objects: the whole check procedure with its early returns |
| `Runtime.Thread.RequestEventProc` | src/treqRequest.c:20-43 | on the objects: a detached event does nothing, another one clears the request's pointer and runs the callback |
| `Runtime.Thread.ServiceEvent` | src/treqRequest.c:20-43 | on the objects: the first ready event is served and removed |
| `Runtime.Thread.RequestRun` | src/treqRequest.c:662-697 | on the objects: the state changes and the error exit of a run |
| `Runtime.Thread.SessionRemoveRequest` | src/treqSession.c:69-80 | on the objects: back pointer cleared, first occurrence unlinked |
| `Runtime.Thread.Unlink` | src/treqRequest.c:743-754 | on the objects: event detached, then session left, then pool left |
| `Runtime.Thread.RequestFree` | src/treqRequest.c:739-807 | on the objects: the mutually recursive release with the `cmd_token`/`isDead` handshake terminates and releases the block once |
| `Runtime.Thread.DeleteCommand` | src/library.c:960-970 | on the objects: the deletion of a command, through its delete procedure |
| `Runtime.Thread.HandleDelete` | src/library.c:960-970 | on the objects: nothing for a dying request, otherwise the token is cleared and the request freed |
| `Runtime.Thread.PoolFreeLoop` | src/treqPool.c:328-331 | on the objects: the list-freeing loop with its re-entrant body visits every request and terminates |
| `Runtime.Thread.ThreadExit` | src/treqPool.c:320-356 | on the objects: pool marked dead, all requests expelled, pool gone |
| `Runtime.Thread.SessionFree` | src/treqSession.c:82-113 | on the objects: the loop that frees every member, then the session |
| `Runtime.Thread.InitRequest` | src/treqSession.c:48-67 | on the objects: a new block, linked at the head of its session's list |
| `Runtime.Thread.CreateRequest` | src/library.c:1037-1210 | on the objects: allocation, run, and the command or, with `-simple`, the release |
| `Runtime.Thread.CreateSession` | src/treqSession.c:19-46 | on the objects: a session with an empty list |
| `Simulation.TakeStep` | src/treqPool.c:111-356 | any step of the state machine that does not fault can be taken on the objects, leads to the objects of the machine's next state, and keeps the invariant |
| `LinkedList.List.InsertNewItem` | src/common.h:102-120 | a new node with the item at the head, the other nodes as they were |
| `LinkedList.List.RemoveByItem` | src/common.h:103-112 | the chain becomes the chain without the first node that holds the item; that node and no other is released; without such a node nothing changes |
| `Common.RemoveFirstIs` | src/common.h:103-112 | taking the first occurrence out of a list leaves the others where they were |
| `LinkedList.PoolNodes.Free` | src/treqPool.c:324-331 | with the pool marked dead, although the body asks for the removal of the item, it sees every item once and every node is released once; unmarked it would pass over every second one and follow NULL in the end if and only if their number is odd |
| `LinkedList.SessionNodes.FreeRequests` | src/treqSession.c:88-92 | the same with the cleared back pointers as the guard; no request points at the session in the end, unguarded the requests passed over would |
| `Encoding.UnescapeEscape` | src/common.c:51-114 | decoding an encoded text gives the text back |
| `Encoding.EscapeAppend` | src/common.c:85-114 | encoding distributes over concatenation, so pieces may be encoded apart |
| `Encoding.EscapeShape` | src/common.c:85-114 | encoded text holds unreserved characters and `%` only and is at most three times as long |
| `Encoding.EscapeOne` | src/common.c:85-114 | one byte is encoded as itself if it is a letter, a digit or one of `-._~`, else as `%` and its two hexadecimal digits in capitals |
| `Encoding.StartsEscapeIff` | src/common.c:51-75 | a percent sequence is `%` and two hexadecimal digits in either case |
| `Encoding.HexValueIff` | src/common.c:51-75 | the value of a hexadecimal digit is its place in the alphabet, in either case |
| `Encoding.Urlencode` | src/common.c:85-114 | for every positive bound the pieces handed to the escaper are the data cut at multiples of the bound, none empty; the result is the whole text encoded; it fails only when libcurl does |
| `Encoding.Urldecode` | src/common.c:51-75 | the decoded text, refused above libcurl's limit; otherwise it fails only when libcurl does |
| `Fields.FieldsRoundTrip` | src/library.c:417-565 | splitting the encoded value at `&`, each part at the first `=`, and decoding gives the pairs back in order, empty keys and values included |
| `Fields.FieldsSplit` | src/library.c:482-507 | between the ampersands there is one part for each pair: the encoded key alone, without an equals sign, if and only if the value is empty, else key and value around one equals sign |
| `Fields.EqualsSigns` | src/library.c:482-507 | encoded or not, the value has one equals sign for each pair with a value that is not empty, besides those inside raw keys and values |
| `Fields.RefusedIff` | src/library.c:404-441 | refused if and only if a typed option is given several times or a field option has an element that is no list or a list of odd length |
| `Fields.PlainRoundTrip` | src/library.c:509-537 | a plain encoded option has one part, never an empty one, for each text that is not empty, and they are read back in order |
| `Fields.PlainRawIff` | src/library.c:509-537 | without encoding the texts are found again between the ampersands if and only if none has an ampersand in it; a single one is sent as it is |
| `Fields.NothingGiven` | src/library.c:416-420 | empty texts and empty lists alone give an empty value |
| `Fields.PairsOfAt` | src/library.c:451-482 | the key comes before its value |
| `Fields.UnescapeSameIff` | src/common.c:51-75 | decoding leaves a text as it is if and only if there is no percent sequence in it |
| `Fields.RawPairIff` | src/library.c:447-500 | without encoding the text of one pair is read back as that pair if and only if it is literal |
| `Fields.RawRoundTripIff` | src/library.c:417-565 | without encoding a list of pairs is read back as given if and only if every pair is literal |
| `Fields.RepeatedOption` | src/library.c:417-553 | giving a fields option several times is giving it once with the concatenated list |
| `Fields.SplitJoined` | src/library.c:417-553 | splitting joined parts at `&` gives the parts |
| `Fields.AppendPair` | src/library.c:447-502 | one turn of the inner loop appends one encoded pair to the object made in this call |
| `Fields.FieldsChunk` | src/library.c:444-504 | the inner loop builds the encoded pairs of one list in an object of its own |
| `Fields.BuildValue` | src/library.c:414-553 | the loops compute the closed form, fail only on refused input or when the escaper fails, and change no object of the caller |
| `Fields.ValidateOptionData` | src/library.c:390-565 | the option's value becomes the closed form, or stays as it was on every error |
| `Headers.MergeDicts` | src/library.c:283-332 | the loop with removal and re-appending is the recursive merge; keys stay distinct |
| `Headers.MergeClosed` | src/library.c:283-332 | first the entries that are not overridden, in order, then the last entry of each name of the second dictionary, in order; no two names equal under case folding |
| `Headers.MergeClosedIff` | src/library.c:299-313 | the closed form holds for every second dictionary if and only if the first has no two names equal under case folding |
| `Headers.MergeIdempotent` | src/library.c:283-332 | merging the same dictionary again changes nothing |
| `Headers.MergeAssociative` | src/library.c:283-332 | layering is associative |
| `Headers.MergedLookup` | src/library.c:283-332 | looking a name up in the result finds the newer layer's entry, else the older one's |
| `Headers.SameNameIff` | src/library.c:303-321 | two names are the same if and only if they have the same length and at each place the same character or the two cases of one of the 26 letters |
| `Headers.FlatAppend` | src/library.c:201-277 | the entries of a dictionary given earlier come earlier |
| `Dictionary.PutOld` | src/library.c:283-332 | putting an existing key gives it its new value where it stands |
| `Dictionary.PutNew` | src/library.c:283-332 | putting a new key appends it |
| `Dictionary.RemoveIs` | src/library.c:299-313 | removing a key takes its entry out and leaves the others where they were |
| `Headers.MergeOptionList` | src/library.c:201-277 | several options are one dictionary with everything put into it in order, refused if and only if one is no dictionary |
| `Headers.SessionHeaders` | src/library.c:1400-1403 | a session keeps the last entry of each name, names distinct |
| `Headers.RequestHeaders` | src/library.c:1050-1052 | a request's headers are the merge of the session's and its own |
| `Headers.SurvivorIsNewest` | src/library.c:201-277 | of the spellings of a name the one first put last survives |
| `Headers.LastOptionWinsIff` | src/library.c:201-277 | the last header option wins if and only if its spelling is the newest of its name |
| `Headers.LastOptionCanLose` | src/library.c:201-277 | an input at which it loses |
| `ContentType.ScanType` | src/common.c:301-316 | the first 128 characters before `;` that are no blanks, lower-cased, in a bounded buffer |
| `ContentType.ScanSections` | src/common.c:318-337 | the cursor ends behind `charset` of the first charset section, at the end, or past it exactly when the string overruns |
| `ContentType.ScanValue` | src/common.c:366-385 | up to 32 characters of the value, quoted or not, lower-cased |
| `ContentType.ParseContentType` | src/common.c:289-394 | type and charset by the declarative reading of the sections; past the end exactly on an overrun |
| `ContentType.ParameterOverruns` | src/common.c:318-337 | an input at which the scan leaves the string |
| `ContentType.ContentTypeRoundTrip` | src/common.c:289-394 | a type and a charset written in the usual form are read back |
| `Common.LowerAllIff` | src/common.c:301-337 | the lower-cased text letter by letter of the alphabet, nothing else changed |
| `ContentTypeReading.IsSpaceIff` | src/common.c:301-337 | blanks are the six white space characters of the C locale |
| `ContentTypeReading.OverrunIff` | src/common.c:318-337 | in terms of positions: the scan leaves the string if and only if there is a semicolon and behind no semicolon comes, after blanks, the word charset or the end |
| `ContentTypeReading.CharsetIs` | src/common.c:318-394 | the charset is what stands behind the word in the first parameter that begins with it, whatever parameters are around it |
| `ContentTypeReading.NoCharsetIs` | src/common.c:318-337 | without such a parameter, and within the string, the charset is empty |
| `ContentTypeReading.ValueIs` | src/common.c:339-394 | blanks may stand around the equals sign; the value goes to the next quote, or to the next semicolon or blank; 32 characters of it are kept, lower-cased |
| `ContentTypeReading.NoValueIs` | src/common.c:339-352 | without an equals sign the charset is empty |
| `ContentTypeReading.TypeIs` | src/common.c:301-316 | 128 characters of the type are kept, lower-cased |
| `ContentTypeReading.NonSpacesAppend` | src/common.c:301-316 | dropping the blanks of a text drops those of its parts |
| `ContentTypeReading.NonSpacesOne` | src/common.c:301-316 | a blank is dropped and any other character kept |
| `Json.Parser.Value` | tests/json/json_tcl.tcl:253-291 | with the shared cursor: the value the grammar gives, the cursor just past it and strictly advanced; terminates on every token list |
| `Json.Parser.Object` | tests/json/json_tcl.tcl:163-189 | the same for an object after its brace |
| `Json.Parser.Members` | tests/json/json_tcl.tcl:133-161 | the same for the loop over members |
| `Json.Parser.Member` | tests/json/json_tcl.tcl:95-131 | the same for a member |
| `Json.Parser.Array` | tests/json/json_tcl.tcl:225-251 | the same for an array after its bracket |
| `Json.Parser.Elements` | tests/json/json_tcl.tcl:191-223 | the same for the loop over elements |
| `Json.PrintedParses` | tests/json/json_tcl.tcl:95-291 | every printed tree, followed by anything, parses to its meaning with the rest left |
| `Json.PrintParseInverse` | tests/json/json_tcl.tcl:95-291 | with distinct member names it parses to itself |
| `Json.ParsedWasPrinted` | tests/json/json_tcl.tcl:95-291 | whatever parses is a printed tree followed by the rest |
| `Json.ParsesIffPrinted` | tests/json/json_tcl.tcl:95-291 | a token list parses if and only if it starts with a printed tree |
| `Json.ManyJson2Dict` | tests/json/json_tcl.tcl:35-63 | the loop computes the recursive reading, limits and errors included |
| `Json.ManyIff` | tests/json/json_tcl.tcl:35-63 | without a limit many values are read if and only if the tokens are those of trees to the very end, with a limit of n if and only if they begin with those of n trees, and what is read are the trees' meanings in order; one broken value makes the whole call fail |
| `Json.ManyRoundTrip` | tests/json/json_tcl.tcl:35-63 | many printed values are all read back; with a limit the first ones, or an error if there are too few |
| `WriteBuffer.Body.WriteCallback` | src/treqRequest.c:387-422 | a chunk is appended whole, or the buffer stays as it is and the error is recorded |
| `WriteBuffer.Body.Feed` | src/treqRequest.c:387-422 | after any sequence of writes the buffer is the concatenation of the accepted chunks; an error is recorded if and only if one was refused |
| `WriteBuffer.AcceptedNext` | src/treqRequest.c:387-422 | the accepted text grows by the accepted chunk only |
| `AuthScheme.ParseOption` | src/treqRequestAuth.c:9-109 | accepted if and only if the list is allowed; then the mask is that of the schemes in it |
| `AuthScheme.MaskByBits` | src/treqRequestAuth.c:57-101 | the mask bit by bit, with the numbers of curl.h: which schemes set it |
| `AuthScheme.OrderIrrelevant` | src/treqRequestAuth.c:9-109 | neither acceptance nor the mask depends on the order |

## Left out

- libcurl and Tcl themselves: transfers, TLS, cookies, the notifier, reference counts and string representations. libcurl's answers are inputs of the steps.
- Messages other than `CURLMSG_DONE`, which the drain loop skips.
- Reuse of addresses: a released block's address is never handed out again, so that a stale pointer stays recognisable.
- The lists inside `Lifecycle` and `Runtime` are sequences; that the macros do this to nodes is `LinkedList`.
- Other event sources that queue at the head between the check procedures and the event served after them.
- Scripts that run inside a step, such as a debug callback or a command trace that destroys a request while it is being performed. A callback's script is whatever steps come next.
- Asynchronous handlers (`Tcl_AsyncMark()`), which may run a script between the check and the event served next.
- What happens after the thread's exit: it is the last step of a run.
- More than one thread: the pool is per thread and nothing is shared.
- `$session request ...`, which passes no session (src/library.c:1315); session requests come from the other path.
- `LinkedList.PoolNodes.Free`: the bodies are modelled as far as the lists, the dead flag and the back pointers go; the rest of the teardown is in `Runtime`.
- `Runtime.Thread.EventCheck`: it demands that every message is about another pooled request, which the invariant implies (`Simulation.CheckIsFinishing`).
- `LifecycleCreation.CreatedSimple`: the result of the command with `-simple`, the text or the error of the request, is not modelled.
- `Runtime.Thread.RequestRun`: the option calls before the run are one outcome, "some call failed"; what they set is not modelled.
- The precedence of a request's options over its session's, the table of options that exclude each other, and option parsing: each is read off one branch. The lifecycle takes the resolved callback; `-async` with `-simple` and `-callback` without `-async` are refused before a request exists (src/library.c:790-806).
- `Encoding.Urlencode`: whether libcurl fails without memory is left open; with memory to spare it does not.
- `Fields.ValidateOptionData`: the text of error results is not modelled, nor is the conversion between a value and its list reading, which is given with the object.
- `AuthScheme.ParseOption`: the mask is a set of bit positions, so no width and no arithmetic on `long`.
- `Json.Parser.Value`: tokens are given with their unescaped text; the tokenising expression and the unescaping are not part of this model.
- `treq_ConvertCharsetToEncoding()`: two of its branches can never be taken as written; the rest is a finite table.
- Integer widths: the buffer sizes of `ckrealloc` and Tcl's `Tcl_Size` are unbounded here; libcurl's input limits are kept.
