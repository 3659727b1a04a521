# Verification of the ordered, atomic replay pipeline

A zen-remote server describes a scene to a client by remote calls. The server stamps the calls of each channel with
serials, the network delivers them in any order, and the client puts them back in order. The client's handlers edit a
*pending* scene; a commit turns the edits into one batch of commands, and the render thread runs whole batches. This
project models each stage with the state and the branches of the code, and proves what the stages promise, alone and
together.

Two forms recur. A class of the source is a Dafny class whose methods are proved against a function of the old value,
so that method and specification cannot drift apart. Around these functions each module has a state machine whose
steps are the critical sections of the source; an action that is not enabled leaves the state as it is, so *every*
finite sequence of actions is a run, and the theorems quantify over all of them. Where a theorem says what a run leads
to, it says so by a recursion over the actions made that does not use the functions of the state machine.

| module | part of the system | main results |
|---|---|---|
| `SerialQueue`, `ClientSession` | reordering of one channel, and of many in a session | one queue keeps order if and only if serials are distinct; in a session order always holds for distinct serials, and completeness fails exactly when a serial awaited by a forgotten channel arrives |
| `JobQueue`, `Pipeline`, `Progress` | numbering, worker thread, shutdown, network, reordering | the client has run a prefix of what was pushed; whatever the schedule, due steps end with every push sent and, up to the first loss, run; shutdown always completes |
| `Responses`, `Outcomes`, `SessionLifecycle` | request callers, sessions, keepalive, discovery | exactly one response per request; which one follows from the requests: rejected, executed as replay runs it, or cancelled with its session; the life of sessions follows from the calls |
| `Container`, `Handlers`, `EndToEnd` | resource containers, unchecked lookups, the whole path | every handler finds its resource, if and only if each channel by itself issues its requests soundly |
| `RwLock` | readers-writer lock over a condition variable | exclusion, shared reading, no lost wakeup, no deadlock, writer preference, progress |
| `AtomicQueue` | command queue with commit marks, executed outside the lock | each frame shows whole batches, those committed when it began, and always comes to its end |
| `VertexArray`, `BaseTechnique`, `Texture` | damage tracking, uniforms, deferred image calls | the incremental update refines replaying every call, with its exact exceptions |
| `Scene`, `CommitEffect` | the recursive commit of a virtual object | compile before link before uniforms, upload before pointer and draw, texture and sampler before binding, one mark per commit; exactly what a commit reaches, changes and flushes |
| `Asked`, `Scenery`, `TextureFlush` | what the edits of a scene ask for | the pending state, what a commit reaches, the technique of each unit, the units and pose of each object, the shaders of each link and the updates of each texture follow from the edits alone |
| `Frame`, `Shown`, `RenderLoop` | edits, commits, queue and render thread together | every technique and vertex array in the scene goes through a run of its stand-alone machine; whenever `UpdateScene` has returned, every technique, vertex array, unit and object shows what was asked for before the last commit that reached it, among those in the queue when it began |
| `BufferOwnership`, `Ledger`, `Uploads` | heap blocks that move from pending state into commands | one owner per block, freed once; the buffer, bytes, target and usage of each upload follow from the calls |

## Where the code falls short of its plain reading

Each of these is proved: a failing run, and the exact condition under which the plain reading holds.

- A repeated serial stops a channel: `SerialQueue.StuckFrontStays`, with `SerialQueue.InOrderIffDistinct`. The numbering
  rules it out: `Pipeline.Always`.
- Above 100 queues a session forgets the next serial of drained channels: `ClientSession.SecondCommandIsLost`. What runs
  stays in order; exactly when something is lost is `ClientSession.ReplayInSession`, and nothing more ever runs:
  `ClientSession.ForgottenChannelStalls`.
- `ForEach` drains newcomers and removals in two critical sections; the removal of a resource added in between is
  lost: `Container.RemovalLost`, with `Container.AlwaysReferenceIff`. Lookups do not suffer: `Container.GetNeverMisses`.
- The main-list search of the loop-intensive `Get` compares with the wrong end iterator, so `Get` is defined only for
  ids that are present: the outcome `NoSuchElement` of `Container.LoopContainer.Get`; when it cannot arise is
  `Handlers.AlwaysFoundIffSound` and `EndToEnd.ApplicationSafeIff`.
- A resource whose parent is on another channel, or gone, may be handled without its parent:
  `EndToEnd.ParentOnOtherChannelFails`, with `EndToEnd.SafeIffEachChannelSound` and `EndToEnd.ApplicationSafeIff`.
- A session replaced by `ResetSession` is not shut down and its keepalive is never answered:
  `SessionLifecycle.ReplacedKeepaliveNeverAnswered`, with `SessionLifecycle.KeepaliveAnsweredExactly`.
- Mipmaps are generated after all image calls of a commit, whatever the call order: `Texture.CallsReachGlInOrderIff`.
- An undamaged vertex array returns before committing its buffers, so new data of a buffer in use can stay behind:
  `CommitEffect.SecondDataIsLeftBehind`, with `CommitEffect.CommitFlushesIff` and `CommitEffect.NewDataUploadedIff`.
- A pointer into a buffer that has no data yet, or whose last data was given for another target than the array target,
  is dropped, and later data does not bring it back: `VertexArray.PointerBeforeDataIsLost` and
  `VertexArray.PointerWithoutArrayDataIsLost`. When a pointer is there: `VertexArray.CommitAndDrainReplay` and
  `VertexArray.LastChangeDecides`; in terms of the calls made, `Scene.TargetBeforePointer` and `Shown.FrameShows`.
- Uniforms committed before a link of their program was asked for are lost: `BaseTechnique.UniformBeforeLinkIsLost`, with
  `BaseTechnique.UniformsReachTheirProgram`; in terms of the calls made, `Scene.LinkedBeforeUniformsIff` and
  `Shown.FrameShowsUniforms`.

## Model

| member | source | states |
|---|---|---|
| `SerialQueue.SerialCommandQueue.Push` | src/client/serial-command-queue.cc:16-29 | late serials run at once, the next one runs and releases its successors, others wait |
| `SerialQueue.SerialCommandQueue.Consume` | src/client/serial-command-queue.cc:37-48 | runs the longest gap-free front of the list |
| `SerialQueue.SerialCommandQueue.Insert` | src/client/serial-command-queue.cc:50-60 | keeps the list sorted, an equal serial behind the pending one |
| `SerialQueue.SerialCommandQueue.IsEmpty` | src/client/serial-command-queue.cc:31-35 | true exactly when nothing waits |
| `SerialQueue.SerialCommandQueue.Destroy` | src/client/serial-command-queue.cc:5-14 | cancels what waits, front to back, and runs nothing |
| `SerialQueue.InsertAscends` | src/client/serial-command-queue.cc:50-60 | inserting a new serial into a strictly sorted list keeps it strictly sorted |
| `SerialQueue.ConsumeConserves` | src/client/serial-command-queue.cc:37-48 | consuming only appends to what ran and moves each item once |
| `SerialQueue.PushConserves` | src/client/serial-command-queue.cc:16-29 | a push loses no command and runs none twice, whatever serials arrive |
| `SerialQueue.RunLeavesList` | src/client/serial-command-queue.cc:16-48 | what one push executes is exactly what leaves the list, the pushed command counted as put there first |
| `SerialQueue.ReceiveConserves` | src/client/serial-command-queue.cc:16-60 | ran and waiting commands together are the arrivals, each once |
| `SerialQueue.ArrivedOnce` | src/client/serial-command-queue.cc:16-60 | a command ran or waits if and only if it arrived |
| `SerialQueue.PushInOrder` | src/client/serial-command-queue.cc:16-60 | a push of a serial not seen before keeps 0, 1, 2, ... run and the rest waiting behind a gap |
| `SerialQueue.DistinctGivesOrder` | src/client/serial-command-queue.cc:16-60 | any arrival order of distinct serials keeps that promise |
| `SerialQueue.InOrderIffDistinct` | src/client/serial-command-queue.cc:16-60 | the promise is kept if and only if no serial arrives twice |
| `SerialQueue.NextIsLeastMissing` | src/client/serial-command-queue.cc:37-48 | the next serial is the least one that has not arrived |
| `SerialQueue.InOrderUnique` | src/client/serial-command-queue.cc:16-60 | an ordered queue is determined by the set of commands it has received |
| `SerialQueue.OrderOfArrivalIrrelevant` | src/client/serial-command-queue.cc:16-60 | two arrival orders of the same distinct commands lead to the same state |
| `SerialQueue.NothingRunsWithoutSerialZero` | src/client/serial-command-queue.cc:16-29 | a new queue that never receives serial 0 never runs anything |
| `SerialQueue.StuckFrontStays` | src/client/serial-command-queue.cc:37-60 | a front below the next serial is never consumed again |
| `ClientSession.CommandQueues.PushCommand` | src/client/session.cc:47-69 | creates a missing queue, pushes, and above 100 queues erases every empty one |
| `ClientSession.SweepForgetsExactly` | src/client/session.cc:60-68 | a push leaves a channel as if alone if and only if the sweep does not find it drained with serials consumed |
| `ClientSession.IndependentIffNeverForgotten` | src/client/session.cc:47-69 | over a whole run a channel equals its own serial queue throughout if and only if it is never forgotten |
| `ClientSession.FewChannelsNeverForgotten` | src/client/session.cc:60-68 | with at most 100 channels nothing is ever forgotten |
| `ClientSession.ChannelsIndependent` | src/client/session.cc:47-69 | with at most 100 channels each channel is its own serial queue, however arrivals interleave |
| `ClientSession.ChannelReplay` | src/client/session.cc:47-69 | such a channel replays in order if and only if its serials are distinct |
| `ClientSession.ReplayInSession` | src/client/session.cc:47-69 | with any number of channels, a channel of distinct serials always runs a prefix of what it would run alone, in order; it runs all of it if and only if the serial it waited for when it was forgotten does not arrive afterwards |
| `ClientSession.StalledSinceForgotten` | src/client/session.cc:60-68 | forgetting happens once, to a channel served until then; from then on its queue waits for serial 0 |
| `ClientSession.SecondCommandIsLost` | src/client/session.cc:60-68 | 101 channels with one command each: the second command of the first is never run |
| `ClientSession.ForgottenChannelStalls` | src/client/session.cc:60-68 | from the moment it is forgotten a channel runs nothing more, whatever arrives on any channel and however often the session sweeps |
| `JobQueue.Queue.StartWorkerThread` | src/server/job-queue.cc:25-31 | the flag is set and the worker waits |
| `JobQueue.Queue.Push` | src/server/job-queue.cc:7-23 | queues while running, otherwise leaves the job to be performed cancelled by the caller |
| `JobQueue.Queue.WorkerWake` | src/server/job-queue.cc:32-55 | sleeps again, starts the front job, or cancels all that is left and exits |
| `JobQueue.Queue.WorkerPop` | src/server/job-queue.cc:44-48 | removes the job that was performed and looks again |
| `JobQueue.Queue.Terminate` | src/server/job-queue.cc:58-73 | clears the flag once |
| `JobQueue.Always` | src/server/job-queue.cc:7-73 | on every run jobs are conserved, done in push order, the performed job is the front, and no wakeup is lost |
| `JobQueue.EveryJobOnce` | src/server/job-queue.cc:7-73 | after exit each pushed job was performed once, uncancelled for a prefix, cancelled otherwise |
| `JobQueue.NoStartAfterTerminate` | src/server/job-queue.cc:34-37 | once the flag is cleared no job starts uncancelled |
| `JobQueue.WorkerNeverStuck` | src/server/job-queue.cc:7-55 | the worker has exited, is rightly idle, or some thread can move |
| `JobQueue.ExitApproaches` | src/server/job-queue.cc:32-72 | after Terminate nothing leads away from the worker's exit and its own steps lead to it |
| `JobQueue.TerminateEnds` | src/server/job-queue.cc:58-73 | Terminate can always be joined: the threads inside lead the worker to its exit, with nothing left queued |
| `Pipeline.Always` | src/server/channel.cc:34-93 | serials are stamped in job order without gaps, each sent request is in flight, arrived once, or lost |
| `Pipeline.RanWasSent` | src/client/serial-command-queue.cc:16-60 | the client's log is an ordered prefix of what was sent |
| `Pipeline.ReplayIsPrefix` | src/server/serial-request-context.cc:7-15 | on every interleaving the client has run a prefix of the pushed jobs, in push order |
| `Pipeline.AllDeliveredAllRun` | src/server/async-grpc-queue.cc:14-25 | when everything sent has been delivered, all of it has run and nothing waits |
| `Pipeline.NothingMissing` | src/server/channel.cc:55-65 | if the channel is up and its queue drained, every push has run |
| `Pipeline.NoSerialWithheld` | src/server/channel.cc:34-43 | the job queue is joined before the call queue stops, so every serial taken is sent |
| `Progress.WorkIsDue` | src/server/job-queue.cc:32-55 | while the channel is up and a job is queued or performed, some worker step is due that changes the state |
| `Progress.DueShrinks` | src/server/serial-request-context.cc:7-15 | each due step, deliveries included, uses up some of a measure |
| `Progress.PushAddsItsShare` | src/server/job-queue.cc:7-23 | which a push raises by a constant |
| `Progress.NothingDueIsSettled` | src/server/channel.cc:55-93 | when nothing is due every push has been sent, and the client has run what was sent up to the first loss |
| `Progress.EveryScheduleSettles` | src/server/channel.cc:55-93 | so due steps in any order end there, after a bounded number |
| `Progress.EveryPushRuns` | src/server/async-grpc-queue.cc:14-25 | from every state of a run with the channel up, due steps alone lead to the client having run all pushes, if nothing was lost |
| `Progress.DisableEnds` | src/server/channel.cc:34-43 | Disable can always be completed, and by then every serial taken has been sent |
| `Responses.AsyncSessionServiceCaller.IsSessionContext` | src/client/service/async-session-service-caller.h:130-164 | valid exactly when all three entries parse, with their values |
| `Responses.AsyncSessionServiceCaller.Process` | src/client/service/async-session-service-caller.h:48-85 | rejects an invalid or expired context at once, otherwise returns the command to queue |
| `Responses.AsyncSessionServiceCaller.Command` | src/client/service/async-session-service-caller.h:67-83 | a queued command answers executed or cancelled |
| `Responses.Always` | src/client/service/async-session-service-caller.h:42-94 | tags, answers, queues and the current session agree with the state of every call |
| `Responses.ExactlyOneResponse` | src/client/service/async-session-service-caller.h:42-94 | no call is answered twice, used after deletion or run outside its session; every other one is listening, unasked or waiting |
| `Responses.PendingIsHeld` | src/client/session.cc:47-69 | a call waits if and only if the current session's queue holds it, exactly once |
| `Responses.DropAnswersAll` | src/client/serial-command-queue.cc:5-14 | destroying a session answers every call it held |
| `Responses.NoResponseOutlivesSession` | src/client/remote.cc:37-83 | whatever ends a session, its waiting calls are answered as cancelled, once |
| `Outcomes.ExecutedAsReplayed` | src/client/serial-command-queue.cc:16-48 | for each session the calls executed are exactly what replay runs of its accepted requests, each under its own channel and serial, in that order |
| `Outcomes.AnswerIsTold` | src/client/service/async-session-service-caller.h:48-85 | a request is rejected exactly when its metadata is incomplete or names another session than the current one, executed exactly when replay has run it, otherwise it waits while its session is current and is cancelled once that has ended |
| `Outcomes.CancelledAtEnd` | src/client/serial-command-queue.cc:5-14 | a call becomes cancelled only by an action that ends its session |
| `SessionLifecycle.AsyncSessionKeepaliveCaller.Finish` | src/client/service/async-session-keepalive-caller.h:23-27 | an attached keepalive becomes answered |
| `SessionLifecycle.ClientSession.Shutdown` | src/client/session.cc:19-31 | the session is inactive, its keepalive answered and forgotten |
| `SessionLifecycle.ClientSession.SetKeepaliveCaller` | src/client/session.cc:33-45 | attaches exactly when active and none is attached |
| `SessionLifecycle.Remote.EnableSession` | src/client/remote.cc:29-35 | enables, and broadcasts if no session is current |
| `SessionLifecycle.Remote.DisableSession` | src/client/remote.cc:37-47 | disables, stops the broadcast, ends the session and answers its keepalive |
| `SessionLifecycle.Remote.ResetSession` | src/client/remote.cc:59-71 | when enabled, a new active session with the next id, and no broadcast |
| `SessionLifecycle.Remote.ClearSession` | src/client/remote.cc:73-83 | ends the session with this id only, answers its keepalive, and broadcasts again |
| `SessionLifecycle.Remote.IsNewSessionAcceptable` | src/client/remote.cc:85-90 | enabled and none current |
| `SessionLifecycle.Lifecycle` | src/client/remote.cc:29-90 | broadcast exactly when acceptable, current session active and newest, ids increase, no second answer |
| `SessionLifecycle.LifeIsAsked` | src/client/remote.cc:29-90 | on every run enabling, broadcast, the current session, its number and its keepalive follow from the calls made |
| `SessionLifecycle.ArrivalWaitsIff` | src/client/service/async-session-keepalive-caller.h:44-58 | a keepalive request waits if and only if it names the current session and is the first to do so |
| `SessionLifecycle.StaleClearHarmless` | src/client/remote.cc:73-83 | a clear by any other id changes nothing |
| `SessionLifecycle.KeepaliveAnsweredExactly` | src/client/service/async-session-keepalive-caller.h:23-65 | an attached keepalive is answered exactly by Disable or the clear of its current session |
| `SessionLifecycle.ReplacedKeepaliveNeverAnswered` | src/client/remote.cc:59-71 | the keepalive of a replaced session is never answered, whatever follows |
| `Container.LoopContainer.Add` | src/client/resource-container.h:30-34 | appends to the newcomers |
| `Container.LoopContainer.Get` | src/client/resource-container.h:36-58 | found exactly when the id is in either collection, newcomers first |
| `Container.LoopContainer.ScheduleRemove` | src/client/resource-container.h:60-64 | adds the id to the removals |
| `Container.LoopContainer.FindIf` | src/client/resource-container.h:46-53 | the first match, or the end |
| `Container.LoopContainer.MergeNewcomers` | src/client/resource-container.h:70-76 | moves all newcomers to the end of the main list, in order |
| `Container.LoopContainer.Purge` | src/client/resource-container.h:78-86 | erases exactly the scheduled ids, keeping order, and empties the removals |
| `Container.LoopContainer.ForEach` | src/client/resource-container.h:66-93 | visits the abstract list once in order, leaves it unchanged, empties both side collections |
| `Container.RefinesList` | src/client/resource-container.h:30-93 | between whole operations the container is an insertion-ordered list |
| `Container.ForEachKeepsView` | src/client/resource-container.h:66-93 | after ForEach the main list is the abstract list |
| `Container.GetNeverMisses` | src/client/resource-container.h:36-93 | a Get of a present, unscheduled id finds it under any interleaving of sections |
| `Container.PurgeLosesRemovalsExactly` | src/client/resource-container.h:70-86 | merging keeps the abstract list, and purging keeps it if and only if no scheduled newcomer is there |
| `Container.AlwaysReferenceIff` | src/client/resource-container.h:30-93 | over an interleaved run the container is the plain list of its additions and removals after every action if and only if no purging section meets a scheduled newcomer |
| `Container.RemovalLost` | src/client/resource-container.h:70-86 | a run that does: the removed resource stays for good |
| `Handlers.FindByIdContainer.Add` | src/client/resource-container.h:116-120 | enters the resource under its id, unless the id is taken |
| `Handlers.FindByIdContainer.Get` | src/client/resource-container.h:122-128 | the resource entered under the id, or nothing |
| `Handlers.FindByIdContainer.ScheduleRemove` | src/client/resource-container.h:130-134 | the entry is gone at once |
| `Handlers.ResourcePool.Lookup` | src/client/resource-pool.h:61-83 | looks in the container of the kind |
| `Handlers.ResourcePool.Handle` | src/client/service/gl-base-technique.cc:63-175 | the pool after New, a call or Delete; fails exactly where the code would use a missing resource |
| `Handlers.GetReturns` | src/client/resource-container.h:36-58 | a Get always returns: ForEach holds the write lock for three sections at most |
| `Handlers.LookupSucceeds` | src/client/service/virtual-object.cc:66-96 | what was created and not deleted is found during any overlap with ForEach |
| `Handlers.LookupsNeverFail` | src/client/service/rendering-unit.cc:33-60 | if each request uses what exists, no handler ever fails |
| `Handlers.PacedRun` | src/client/service/virtual-object.cc:41-96 | with a full ForEach after every request, the first unsound request fails |
| `Handlers.AlwaysFoundIffSound` | src/client/service/gl-base-technique.cc:63-175 | safe under every interleaving if and only if every use lies after creation and before deletion |
| `EndToEnd.SessionSerial.NextResourceSerial` | src/server/session-serial.cc:5-10 | returns the counter and advances it, from 1 |
| `EndToEnd.SessionSerial.NextChannelSerial` | src/server/session-serial.cc:12-17 | likewise for channels |
| `EndToEnd.ApplicationIsOrderly` | src/server/rendering-unit.cc:14-88 | whatever the application does, parents of its choice included, no resource has two creators, no id is reused and only what was created is deleted |
| `EndToEnd.PushedAsCalled` | src/server/rendering-unit.cc:14-88 | a channel has been handed exactly the requests that the calls on its wrappers amount to, in call order |
| `EndToEnd.ApplicationSoundIff` | src/server/rendering-unit.cc:19-54 | each channel's requests are sound if and only if every parent named at Init is a wrapper alive on the same channel |
| `EndToEnd.ApplicationSafeIff` | src/client/service/rendering-unit.cc:33-49 | every delivery and timing is safe if and only if the application keeps that rule |
| `EndToEnd.OwnedByChannel` | src/server/session-serial.cc:5-10 | in any interleaving a resource is created and deleted on its own channel only |
| `EndToEnd.InterleavingIsSound` | src/client/session.cc:47-69 | any interleaving of prefixes of sound channels is sound |
| `EndToEnd.SafeIffEachChannelSound` | src/client/session.cc:47-69 | every delivery is safe if and only if every channel by itself is sound |
| `EndToEnd.ParentOnOtherChannelFails` | src/client/service/rendering-unit.cc:33-49 | a parent on another channel can be missing when its child arrives |
| `EndToEnd.LogOfChannel` | src/client/session.cc:47-69 | with at most 100 channels the handlers run for a channel are what its serial queue runs |
| `EndToEnd.LogOfAnyChannel` | src/client/session.cc:47-69 | with any number they are a prefix of that, and all of it exactly when no awaited serial arrives after the channel was forgotten |
| `EndToEnd.ReplayInterleaves` | src/server/channel.cc:55-93 | on any number of channels at once the handlers have run prefixes of what was issued |
| `EndToEnd.HandlersFindTheirResources` | src/client/service/gl-base-technique.cc:63-175 | from the wrappers of an application that keeps the parent rule to the client's handlers, on any number of channels, every unchecked lookup succeeds |
| `RwLock.ReadersWriterLock.BeginRead` | src/core/readers-writer-lock.cc:31-38 | enters exactly when no writer waits or is active, otherwise sleeps |
| `RwLock.ReadersWriterLock.EndRead` | src/core/readers-writer-lock.cc:40-46 | the last reader wakes everybody |
| `RwLock.ReadersWriterLock.BeginWrite` | src/core/readers-writer-lock.cc:48-57 | counts as waiting until no reader and no writer is active |
| `RwLock.ReadersWriterLock.EndWrite` | src/core/readers-writer-lock.cc:59-65 | leaves and wakes everybody |
| `RwLock.Always` | src/core/readers-writer-lock.cc:31-65 | counters are the numbers of readers and waiting writers; a sleeper not notified has a false predicate |
| `RwLock.MutualExclusion` | src/core/readers-writer-lock.cc:48-65 | a writer is alone |
| `RwLock.ReaderEntersIff` | src/core/readers-writer-lock.cc:31-38 | a thread gets in to read at once if and only if no writer is in or waits; readers share |
| `RwLock.WriterEntersIff` | src/core/readers-writer-lock.cc:48-57 | and to write if and only if nobody reads or writes |
| `RwLock.NoDeadlock` | src/core/readers-writer-lock.cc:31-65 | if any thread is inside the protocol, one can leave or is awake and will get in |
| `RwLock.NoReaderEnters` | src/core/readers-writer-lock.cc:31-38 | while a writer waits no step adds a reader |
| `RwLock.ReadersDrain` | src/core/readers-writer-lock.cc:31-57 | while a writer waits the set of readers only shrinks |
| `RwLock.DueActionsRunOut` | src/core/readers-writer-lock.cc:31-65 | without arrivals every step of a thread inside uses up a well-founded measure |
| `RwLock.SomethingIsDue` | src/core/readers-writer-lock.cc:31-65 | and such a step exists until the lock is empty |
| `AtomicQueue.AtomicCommandQueue.Push` | src/client/atomic-command-queue.cc:20-25 | appends a command |
| `AtomicQueue.AtomicCommandQueue.Commit` | src/client/atomic-command-queue.cc:27-33 | appends a mark and counts it |
| `AtomicQueue.AtomicCommandQueue.ExecuteOnce` | src/client/atomic-command-queue.cc:35-63 | runs exactly the first batch, or nothing if none is committed |
| `AtomicQueue.AtomicCommandQueue.Destroy` | src/client/atomic-command-queue.cc:5-18 | cancels every command left, in order |
| `AtomicQueue.AtomicCommandQueue.UpdateScene` | src/client/remote.cc:49-57 | runs all committed batches and leaves the rest |
| `AtomicQueue.Always` | src/client/atomic-command-queue.cc:20-70 | with pushes and commits interleaved, the count equals the marks and executed plus remaining is the history |
| `AtomicQueue.FramesAreWhole` | src/client/remote.cc:49-57 | after UpdateScene exactly the batches committed at its entry have been executed |
| `AtomicQueue.ExecuteOnceEnds` | src/client/atomic-command-queue.cc:46-62 | concurrent pushes never move the end of an ExecuteOnce away |
| `AtomicQueue.UpdateSceneExecutes` | src/client/remote.cc:49-57 | called between frames, UpdateScene returns, with exactly the batches executed that had been committed by then |
| `AtomicQueue.ExecutedOrCancelled` | src/client/atomic-command-queue.cc:5-18 | each pushed command is executed or left to be cancelled, once, in order |
| `VertexArray.GlVertexArray.EnableVertexAttribArray` | src/client/gl-vertex-array.cc:85-97 | enables the attribute and damages it |
| `VertexArray.GlVertexArray.DisableVertexAttribArray` | src/client/gl-vertex-array.cc:99-111 | disables the attribute and damages it |
| `VertexArray.GlVertexArray.VertexAttribPointer` | src/client/gl-vertex-array.cc:113-133 | stores the pointer and damages it |
| `VertexArray.GlVertexArray.Commit` | src/client/gl-vertex-array.cc:29-83 | nothing when undamaged, otherwise one command with the pending attributes and all damage cleared |
| `VertexArray.VertexArrayObject.Update` | src/client/gl-vertex-array.cc:40-75 | applies exactly the damaged parts of each attribute; skips dead buffers; sets the pointer only if the buffer has a name and its last upload was for the array target, and otherwise clears it (null offset) or leaves it |
| `VertexArray.Always` | src/client/gl-vertex-array.cc:29-133 | the pending state is what the setters asked for, and unless an attribute is damaged the last command that changes it carries exactly its pending state |
| `VertexArray.CommitAndDrainReplay` | src/client/gl-vertex-array.cc:29-133 | commit and drain enable attributes as replaying every setter does; a pointer that was asked for is there if and only if the last execution into a live buffer that GL did not reject was of this pointer, with its buffer bound as array buffer |
| `VertexArray.CommitAndDrainReplayExactly` | src/client/gl-vertex-array.cc:29-133 | GL equals the replay if and only if that holds for every pointer asked for |
| `VertexArray.LastChangeDecides` | src/client/gl-vertex-array.cc:56-71 | the last change of an attribute decides whether its pointer is there: it is if the buffer is alive and bound as array buffer; only if the buffer is dead or GL rejects the call do earlier changes decide |
| `VertexArray.PointerBeforeDataIsLost` | src/client/gl-vertex-array.cc:61-71 | a pointer set and executed before its buffer has data is lost, and later data does not bring it |
| `VertexArray.PointerWithoutArrayDataIsLost` | src/client/gl-vertex-array.cc:66-71 | so is a pointer into a live, named buffer uploaded for another target |
| `VertexArray.SkippedCommitKeepsAttributes` | src/client/gl-vertex-array.cc:29-35 | an undamaged commit pushes nothing, and every attribute is enabled as asked already |
| `BaseTechnique.GlBaseTechnique.Bind` | src/client/gl-base-technique.cc:165-193 | stores the binding and marks it damaged; a texture binding leaves the other units alone |
| `BaseTechnique.PendingIsCalled` | src/client/gl-base-technique.cc:165-216 | on every run the pending state is the last program, the last vertex array, for each unit the last texture bound, the last draw call argument by argument and the index buffer of the last indexed one |
| `BaseTechnique.GlBaseTechnique.DrawArrays` | src/client/gl-base-technique.cc:195-203 | stores the draw call and marks it damaged |
| `BaseTechnique.GlBaseTechnique.DrawElements` | src/client/gl-base-technique.cc:205-216 | stores the draw call with its element buffer |
| `BaseTechnique.GlBaseTechnique.SetUniform` | src/client/gl-base-technique.cc:218-234 | appends the uniform, or ignores one of unsupported shape |
| `BaseTechnique.GlBaseTechnique.Commit` | src/client/gl-base-technique.cc:30-163 | pushes exactly the damaged parts in order, keeps uniforms that have no live program |
| `BaseTechnique.ApplyUniforms` | src/client/gl-base-technique.cc:121-159 | the uniform map after an update, locations looked up by name where needed |
| `BaseTechnique.CommitAndDrain` | src/client/gl-base-technique.cc:30-163 | after commit and drain the rendering state shows what the calls before that commit asked for, textures up to dead bindings |
| `BaseTechnique.UniformsKept` | src/client/gl-base-technique.cc:118-162 | the uniforms of supported shape that were called for are those flushed and then those pending, in call order |
| `BaseTechnique.UniformsReachTheirProgram` | src/client/gl-base-technique.cc:118-162 | flushed uniforms execute with the program they were issued for, and are written if it is alive and linked then, otherwise not at all |
| `BaseTechnique.UniformBeforeLinkIsLost` | src/client/gl-base-technique.cc:118-131 | bind, uniform, commit, then link: the uniform is neither pending nor queued nor written |
| `BaseTechnique.LastWriteWins` | src/client/gl-base-technique.cc:133-158 | the uniform map is the last write per location |
| `BaseTechnique.UniformMap` | src/client/gl-base-technique.cc:133-158 | on every run, and each key equals the stored location |
| `Texture.GlTexture.GlTexImage2D` | src/client/gl-texture.cc:92-108 | appends an image call |
| `Texture.GlTexture.GlTexSubImage2D` | src/client/gl-texture.cc:110-126 | appends a sub-image call |
| `Texture.GlTexture.GlGenerateMipmap` | src/client/gl-texture.cc:128-132 | remembers the last target |
| `Texture.GlTexture.Commit` | src/client/gl-texture.cc:34-90 | one command with all calls since the last commit, or none |
| `Texture.GlTexture.ExecuteFirst` | src/client/gl-texture.cc:43-84 | names the texture once, uploads in order, then generates mipmaps |
| `Texture.CollectedIs` | src/client/gl-texture.cc:92-132 | what a texture has pending is its image calls in order and its last mipmap target |
| `Texture.Replayed` | src/client/gl-texture.cc:34-132 | on every run GL sees, commit by commit, the uploads in order and the last mipmap call at the end |
| `Texture.DeferredInOrderIff` | src/client/gl-texture.cc:77-83 | a commit keeps call order if and only if nothing follows its mipmap call |
| `Texture.CallsReachGlInOrderIff` | src/client/gl-texture.cc:34-132 | a drained run equals the calls in order if and only if that holds for every commit |
| `Scene.Resources.CommitBuffer` | src/client/gl-buffer.cc:29-62 | at most one upload, only when damaged |
| `Scene.Resources.CommitShader` | src/client/gl-shader.cc:31-69 | compiles once |
| `Scene.Resources.CommitProgram` | src/client/gl-program.cc:29-80 | live shaders first, then one link, and the list starts afresh |
| `Scene.Resources.CommitVertexArray` | src/client/gl-vertex-array.cc:29-83 | live buffers of all attributes first, then the attributes |
| `Scene.Resources.CommitTextures` | src/client/gl-base-technique.cc:41-49 | live textures, then live samplers, of all bindings |
| `Scene.Resources.PushUpdates` | src/client/gl-base-technique.cc:57-162 | the technique's own updates in order |
| `Scene.Resources.CommitDependencies` | src/client/gl-base-technique.cc:33-55 | program, vertex array, textures, element buffer, in this order |
| `Scene.Resources.CommitTechnique` | src/client/gl-base-technique.cc:30-163 | dependencies before the technique's own updates |
| `Scene.Resources.CommitUnit` | src/client/rendering-unit.cc:27-44 | the technique if alive, then the unit |
| `Scene.Resources.CommitObject` | src/client/virtual-object.cc:26-43 | live units in list order, expired ones dropped, the object's own command, the mark |
| `Scene.Always` | src/client/virtual-object.cc:26-58 | every command in the history of any run is justified by what stands before it |
| `Scene.CompileBeforeLink` | src/client/gl-program.cc:29-80 | a shader attached, and alive when the link was pushed, is compiled before it |
| `Scene.UploadBeforePointer` | src/client/gl-vertex-array.cc:34-77 | between data for a buffer and an attribute command into it, pushed while it was alive, lies an upload |
| `Scene.TargetBeforePointer` | src/client/gl-buffer.cc:29-79 | when an attribute command is executed, a buffer it points into that was alive at the push has its GL name if and only if data was given before the push, and for the target of the last such call |
| `Scene.LinkBeforeUniforms` | src/client/gl-base-technique.cc:33-55 | between a link request of a program and uniforms for it, pushed while it was alive, lies the link command |
| `Scene.LinkedBeforeUniformsIff` | src/client/gl-base-technique.cc:33-55 | when such uniforms are executed their program has been linked if and only if a link was asked for before the push |
| `Scene.UploadBeforeDraw` | src/client/gl-base-technique.cc:51-73 | between data for an element buffer and a draw command that uses it, pushed while it was alive, lies an upload |
| `Scene.TextureBeforeBinding` | src/client/gl-base-technique.cc:41-49 | between a call on a texture and a command that binds it, pushed while it was alive, lies its update |
| `Scene.SamplerBeforeBinding` | src/client/gl-base-technique.cc:41-49 | a sampler alive when its binding was pushed is updated before |
| `Scene.CommitIsOneBatch` | src/client/virtual-object.cc:26-43 | a recursive commit ends in its one mark |
| `CommitEffect.ObjectEffect` | src/client/virtual-object.cc:26-43 | a recursive commit changes and pushes, for every technique and vertex array it reaches, what one commit of it alone would, for no other anything, and flushes exactly the data it reaches |
| `CommitEffect.VertexArrayFlushesIff` | src/client/gl-vertex-array.cc:29-38 | a vertex array's commit flushes the data of a live buffer it points into if and only if the array is damaged or there is none |
| `CommitEffect.CommitFlushesIff` | src/client/virtual-object.cc:26-43 | on every run an object's commit uploads a buffer's pending data if and only if it is drawn from or a damaged vertex array in reach points into it |
| `CommitEffect.NewDataUploadedIff` | src/client/gl-vertex-array.cc:29-38 | data given right after a commit is uploaded by the next one if and only if it is drawn from |
| `CommitEffect.SecondDataIsLeftBehind` | src/client/gl-vertex-array.cc:29-38 | data, attribute, commit, data, commit: the second data of a live buffer in use is never uploaded |
| `Asked.RunMirrors` | src/client/virtual-object.cc:60-64 | on every run the pending state is what the edits say: units of objects, techniques of units, calls on techniques, attributes of vertex arrays |
| `Asked.ReachIsAsked` | src/client/virtual-object.cc:26-43 | a commit reaches the live techniques made last for the live units added to the object, the vertex arrays bound last to them, and the buffers of their last indexed draw call |
| `Asked.SomeOrderCovers` | src/client/gl-vertex-array.cc:34-38 | in every state there is an order in which a commit can visit everything |
| `Scenery.ObjectGiven` | src/client/virtual-object.cc:26-43 | a commit of an object tells each live unit its pending technique, the object its live units, links the programs it reaches that want it, and nothing else |
| `Scenery.SceneryIsAsked` | src/client/rendering-unit.cc:27-51 | the commands pushed tell each unit the technique made last for it at the last commit that reached it, each object the units added and alive at its last commit, and the pose moved to last |
| `Scenery.LinksAreAsked` | src/client/gl-program.cc:29-92 | a program is linked at exactly the commits that reach it after a link was asked for, each time with the shaders attached since the link before, in call order |
| `Scenery.LinkCarriesAttached` | src/client/gl-program.cc:34-58 | each link command carries those shaders, and those alive at the push are compiled before it |
| `TextureFlush.UpdatesAreAsked` | src/client/gl-base-technique.cc:41-49 | a commit updates a texture if and only if it reaches the texture through a binding and there have been calls on it since the last commit that did |
| `TextureFlush.CallsAreNoted` | src/client/gl-buffer.cc:64-79 | the data, link and texture calls on which the order of commands is stated are those the edits make, in order |
| `Frame.FrameAlways` | src/client/virtual-object.cc:26-58 | in every state of the whole scene the order of commands holds, and what was dead when an entry was pushed was dead when it was executed |
| `Frame.EditIsTechniqueStep` | src/client/gl-base-technique.cc:30-163 | an edit of the scene is for a technique one call, one commit, one death or nothing |
| `Frame.ExecuteIsTechniqueStep` | src/client/atomic-command-queue.cc:35-63 | an executed entry is for a technique its next update, a link or nothing |
| `Frame.EditIsArrayStep` | src/client/gl-vertex-array.cc:29-133 | likewise for a vertex array |
| `Frame.ExecuteIsArrayStep` | src/client/atomic-command-queue.cc:35-63 | its next attribute command, an upload or nothing |
| `Frame.TechniqueIsMachine` | src/client/gl-base-technique.cc:30-235 | on every interleaving of edits, commits, deaths, execution and drawing a technique goes through a run of the stand-alone machine |
| `Frame.ArrayIsMachine` | src/client/gl-vertex-array.cc:29-133 | likewise for a vertex array |
| `Shown.RenderingIsHistory` | src/client/gl-base-technique.cc:57-116 | a technique's bindings and draw call are what its updates executed so far leave, textures up to dead bindings: no edit, queued or not, changes them |
| `Shown.GlIsHistory` | src/client/gl-vertex-array.cc:40-75 | likewise the attributes of a vertex array, on its commands executed and the buffers as they were then |
| `Shown.LastCommitLeft` | src/client/virtual-object.cc:26-43 | executed in a row, all updates a technique has pushed show the calls made on it before the last commit that reached it |
| `Shown.LastCommitCarried` | src/client/virtual-object.cc:26-43 | the last change of an attribute that was pushed is what the setters before the last commit that reached its vertex array amount to |
| `Shown.SceneryIsHistory` | src/client/virtual-object.cc:31-58 | the rendering state of units and objects is what the entries executed have told them; lists up to dead units |
| `Shown.FrameShows` | src/client/virtual-object.cc:26-58 | whenever the render thread stands behind a commit mark, every technique, attribute, unit and object shows what the edits before it ask for, at the last commit that reached them; the pointer is there exactly under the condition of `VertexArray.CommitAndDrainReplay`, with the targets of the data calls |
| `Shown.FrameShowsCommit` | src/client/virtual-object.cc:26-43 | wherever the render thread is behind the mark of a commit, a technique, vertex array or unit the commit reached, and the object, shows what was asked for before it, unless a later command of it has been executed |
| `Shown.FrameShowsProgram` | src/client/gl-program.cc:46-77 | a program in use was made at its first executed link, from the shaders attached before that link and alive then; later links change nothing |
| `Shown.FrameShowsUniforms` | src/client/gl-base-technique.cc:118-162 | in every state the uniform map is the writes, in order, of the uniform commands executed whose program was alive then and had been asked to link before the push |
| `RenderLoop.ExecutionReachesMark` | src/client/atomic-command-queue.cc:46-62 | the render thread reaches any later point of the history, so any mark, by going on, and the scene stays as it is |
| `RenderLoop.AlwaysCoupled` | src/client/atomic-command-queue.cc:20-70 | with entries pushed one by one between the render thread's steps, the queue holds the scene's history and the frame stands where the queue does |
| `RenderLoop.FrameEndsAtMark` | src/client/remote.cc:49-57 | whenever UpdateScene has returned, the frame stands behind the last mark that was in the queue when it began |
| `RenderLoop.EveryFrameShows` | src/client/remote.cc:49-57 | and then every technique, attribute, unit and object shows what the edits before that mark ask for |
| `RenderLoop.UpdateSceneShows` | src/client/remote.cc:49-57 | called between frames, UpdateScene returns, and everything committed by then is shown |
| `RenderLoop.UpdateScenePassesCommit` | src/client/remote.cc:49-57 | and then the frame is behind the mark of each commit that was in the queue when it began |
| `BufferOwnership.CHeap.Free` | src/client/gl-buffer.cc:14-27 | frees an allocated block once; anything else but null is a fault |
| `BufferOwnership.CHeap.Realloc` | src/client/gl-buffer.cc:64-79 | a new block of the size, the old one gone |
| `BufferOwnership.CHeap.Memcpy` | src/client/gl-buffer.cc:64-79 | overwrites a front part that must fit |
| `BufferOwnership.GlBuffer.GlBufferData` | src/client/gl-buffer.cc:64-79 | grows when needed, stores the bytes, keeps the allocation otherwise |
| `BufferOwnership.GlBuffer.Commit` | src/client/gl-buffer.cc:29-62 | hands the block to one command and forgets it |
| `BufferOwnership.GlBuffer.Destroy` | src/client/gl-buffer.cc:14-27 | frees the pending block and pushes the deletion |
| `Ledger.HandOverBalances` | src/client/gl-buffer.cc:29-62 | moving a block into a command keeps the ledger right in both directions |
| `Ledger.OneOwner` | src/client/gl-buffer.cc:29-62 | a right ledger gives every block exactly one owner |
| `BufferOwnership.Always` | src/client/gl-buffer.cc:14-79 | on every run ledger, heap and promised bytes agree |
| `BufferOwnership.OneOwnerPerBlock` | src/client/gl-buffer.cc:14-79 | each allocated block belongs to one pending state or one queued command |
| `BufferOwnership.NoFault` | src/client/gl-buffer.cc:14-79 | no double free, foreign free or overflow |
| `BufferOwnership.NoLeak` | src/client/gl-buffer.cc:14-62 | when buffers and queue are gone every block was freed |
| `BufferOwnership.UploadsCommittedData` | src/client/gl-buffer.cc:38-58 | an upload transfers the bytes of the last data call before its commit |
| `Uploads.QueuedAsSent` | src/client/gl-buffer.cc:29-79 | the commands waiting are those the calls amount to: each upload is for the buffer committed, with the bytes, target and usage given to it last |
| `Uploads.GlHoldsWhatWasSent` | src/client/gl-buffer.cc:38-58 | each GL buffer holds what was sent to it last among the commands taken, unless the queue was destroyed |
| `BufferOwnership.SizeFits` | src/client/gl-buffer.cc:64-79 | the size never exceeds the allocation while data is pending |

## Left out

- gRPC, protobuf and sockets: the network is a set of sent messages, each delivered at most once, in any order.
- Real GL calls, matrices and Render: GL is an attribute map, a uniform map, ids, or a log of calls; compile and link always succeed.
- Fixed-width counters: serials, ids and counts are natural numbers, so overflow at 2^64 is not modelled; the 32-bit uniform location is.
- Memory-model data races: steps have the granularity of critical sections, and `Remote::current()` is read atomically.
- More than one handler thread on the client: requests are handled one at a time, as the one server thread does.
- Server wrappers: each method is one job that takes a serial and sends one request; their marshalling, and arguments a handler passes on as weak pointers without using them, are dropped.
- Metadata syntax: an entry is a number, or missing or unparsable.
- Callers and command queues as one heap structure: `Responses` models the callers' queue and answers on values; the class shows one caller.
- Handlers of kinds other than virtual object, rendering unit and base technique have the same three shapes and share `Handlers.Request`.
- Texture and sampler contents in `Scene`: one event each; `Texture` models the image calls, and the sampler is the same scheme without mipmaps.
- `BaseTechnique.GlBaseTechnique.Commit`: leaves the commits of program, vertex array, textures and element buffer to `Scene`.
- `VertexArray.GlVertexArray.Commit`: leaves the commits of attribute buffers to `Scene`.
- `BufferOwnership.CHeap.Realloc`: always moves the block and never fails.
- A recursive commit reads and changes the scene in one step of the update thread; in `RenderLoop` its entries are pushed one by one, with the render thread in between.
- Iteration order of hash maps and sets: a parameter, any sequence that covers the keys.
- Liveness of weak pointers: a set of dead ids that only grows; an object is not destroyed in the middle of a commit.
- GL arguments other than the buffer target and the pointer offset are assumed valid, and binding an element array buffer changes no attribute.
- The application holds a channel longer than the job running on it: that a job on the worker thread itself drops the last reference, and the worker joins itself, is not part of `Pipeline`.
- Keepalive in `Responses`: its calls are those of `SessionLifecycle` and are not repeated.
- Destructors of `Remote` and of the gRPC servers, discovery timers, PeerManager, logger, busyness and disconnection signals.
- Size arithmetic of textures and parameters: single expressions with nothing to relate.
