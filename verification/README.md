# Verification of the inference manager's core

This project models the parts of the inference manager in which state, concurrency or arithmetic make
correctness hard to see, and proves what they promise over all inputs, runs and interleavings.

| module | what it models |
|---|---|
| `Gcra`, `GcraClock` | the rate limiter, its token bucket, its Redis form and its clock |
| `Tasks`, `TaskOrder`, `TaskSafety`, `Processor` | the task protocol of the server: queueing, assignment, retries, engine removal, bounded result buffers |
| `Streaming`, `Sse` | the event-stream scanner, the relay of the engine, and a chat stream from runtime to client |
| `Manager`, `ManagerRuns`, `ManagerReasons`, `ManagerEffects` | the event loop of the runtime manager, its wait channels, what callers are told, and where events lead |
| `Addresses` | round-robin address selection with an expiring blacklist |
| `Lora`, `LoraSending` | the LoRA adapter reconciler and the orders in which its updates can be delivered |
| `Window` | the circular metrics window as a step function of time |
| `Router`, `Registry`, `Calls`, `Attribution`, `Engines` | routing tables, engine table and the active sets of remote senders |
| `Json`, `Responses`, `Chat`, `WireForm`, `ReadBack`, `Api` | the request converters, forwards and backwards |
| `Autoscaler` | the builtin autoscaler |

Most modules have two layers. A specification on values says what each operation does, and lemmas about
it carry the promises. A class with the fields of the original object has the methods that change them,
each proved to do what the specification says. A protocol is a state machine in which one critical
section, or one channel operation, is one step; what the outside world does or answers is an input of the
step, so that statements about all runs cover all of its behaviours.

`dafny verify dfyconfig.toml` checks everything.

## Findings

Where a promise is false of the code, the code is modelled as it is, and the exact condition is proved.

- The rate limiter's clock subtracts whole seconds from microseconds (`server/internal/rate/store.go:154`), so
  it counts whole seconds twice. The window bound holds in that clock always, but in wall-clock time only for
  configurations whose whole burst is worth at most a microsecond (`GcraClock.WallBoundIff`).
- A retry time rounded down to nanoseconds can be one nanosecond short (`server/internal/rate/store.go:140`,
  `Gcra.RetryInNanoseconds`, `Gcra.RetryTooShort`).
- A task submitted under the ID of a task that is still running replaces the entry of the first one, whose end
  then removes it (`server/internal/infprocessor/infprocessor.go:544-550`): a submission opens the way to a
  stranded task if and only if a running task has its ID (`TaskSafety.SubmitStrandsIff`).
- A full result buffer can drop the error that a task needs
  (`server/internal/infprocessor/infprocessor.go:743-747`, `TaskSafety.FullBufferStrands`). A task is left waiting
  for nothing in its receive loop exactly when one of these two happens to it (`TaskSafety.RunGoodForIff`).
- A result numbered 0 is accepted at any time (`server/internal/infprocessor/infprocessor.go:582`). When a chat
  request gets a second response, its callback waits for good on a channel whose one reader is gone
  (`server/internal/infprocessor/infprocessor.go:1069`): the task stays in progress and cannot be cancelled
  (`Streaming.ChatPrefix`, `Streaming.BlockedChatTask`). A server that only forwards results skips an event instead
  and still ends well (`Streaming.PrefixIffNoRestart`, `Streaming.RepeatedResponseSkipsAnEvent`).
- The relay gives back the same events only for tokens that end in neither LF nor CR LF CR
  (`Sse.RescanIffClean`).
- A readiness check that fails for the last time puts an error reason on a runtime that another check has
  made ready (`engine/internal/runtime/manager.go:700-722`, `ManagerRuns.RunCleanIff`).
- A caller whose pull of an adapter waits behind the base model gets the error of the base model even if the adapter
  has become ready in the meantime (`engine/internal/runtime/runtime.go:194-211`, `ManagerReasons.ToldOfBaseModel`).
  Everything a caller is told is otherwise true of the model it asked for (`ManagerReasons.SuccessIff`).
- The status check of an adapter that a pull started reports a missing pod on a channel that nobody reads, and
  the event loop blocks for good (`engine/internal/runtime/manager.go:424-429`, `ManagerRuns.BlocksIff`).
- A pod deleted while the reconciler looks at it is stored again and its adapters are never announced
  (`Lora.RunExactIff`); one added while it looks is forgotten (`Lora.StaysStoredIff`); and since updates are sent
  after the lock is released, a deletion and a commit can overtake each other (`LoraSending.RunEveryOrderIff`).
- A validated autoscaler configuration can leave its own limits, and can stay outside them
  (`Autoscaler.NeverLeavesIff`, `Autoscaler.NeverLeavesWithIff`, `Autoscaler.ConvergesIff`).
- An engine ID reported for another tenant stays registered for the first; what a sender last reported is what
  is registered through it exactly in runs without such conflicts (`Attribution.RunAttributedIff`).
- An average asked for after the clock was set back can be an index out of range
  (`engine/internal/metrics/client.go:170-182`, `Window.WindowBucket.Average`), and a metrics window shorter than a
  second has no buckets, so that the first sample is one (`Window.WindowBucket.Add`).
- Input other than text, a list or null, and function parameters other than a map or null, are accepted by
  the forward chain and rejected by the reverse one; and a null temperature or top_p comes back as zero
  (`Responses.RoundTrip`, `Chat.RoundTrip`).

## Model

| member | source | states |
|---|---|---|
| Gcra.WindowBound | server/internal/rate/store.go:147-176 | For any key, any stored state and any run of takes, the cost allowed at times in [a, b] is at most burst + (b - a) / interval; not even an ordered clock is needed |
| Gcra.HorizonBound | server/internal/rate/store.go:157-175 | Cost allowed in a window pushes the arrival time up by as much and never past the end of the window plus the burst offset |
| Gcra.RunRefinesBucket | server/internal/rate/store.go:147-176 | In every run over any mix of keys with a clock that does not run backwards, each key is served like its own token bucket: same takes allowed, same credit found |
| Gcra.TakeRefinesBucket | server/internal/rate/store.go:157-175 | One take and one bucket step decide alike and keep the coupling between arrival time and bucket level |
| Gcra.ReportIsLevel | server/internal/rate/store.go:162-175 | A take is allowed if and only if the level covers its cost, and `remaining` is the level minus the cost |
| Gcra.RetryIsTight | server/internal/rate/store.go:168-171 | A denied take leaves the key alone, and the same take succeeds later if and only if its cost is at most the burst and the time is at least now + retryAfter |
| Gcra.ResetIsFresh | server/internal/rate/store.go:166-175 | From now + resetAfter on, a key decides and stores as if it had never been used |
| Gcra.RedisAgrees | server/internal/rate/gcra_ratelimit.lua:16-43 | With expiring keys, the script decides every run on a key as the in-memory store does on the same clock |
| Gcra.ClockGains | server/internal/rate/store.go:151-155 | The clock the store reads is ordered, and runs true between two instants if and only if they lie in the same second; otherwise it gains 0.999999 s per second boundary |
| Gcra.WallBoundWithinSecond | server/internal/rate/store.go:151-176 | The window bound in wall-clock time for windows within one second |
| Gcra.WallBoundFailsAcrossSeconds | server/internal/rate/store.go:151-176 | For any two instants in different seconds there are a valid configuration and takes that exceed the bound in wall-clock time |
| GcraClock.WallBoundIff | server/internal/rate/store.go:151-176 | For each valid configuration: the window bound holds in wall-clock time, for all windows and takes, if and only if the whole burst is worth at most a microsecond, the step of the clock |
| Gcra.RetryInNanoseconds | server/internal/rate/store.go:135-142 | A denied caller that waits exactly the reported nanoseconds is let in only if no fraction was cut off; with one more it is, as far as its cost allows |
| Gcra.RetryTooShort | server/internal/rate/store.go:135-142 | At three tokens a second, a caller told to wait 333333333 nanoseconds is denied again after them |
| Gcra.RemainingIsTight | server/internal/rate/store.go:135-142 | The whole number of tokens reported as remaining is exactly what one more take at the same time can have |
| Gcra.MemoryStore.Take | server/internal/rate/store.go:133-145 | The result in whole tokens and nanoseconds: the burst as limit, and when allowed exactly the n up to `remaining` are numbers of tokens that one more take can have at that time, when denied none remain; stores for the key taken, and touches no other key |
| Gcra.TakenResult | server/internal/rate/store.go:135-142 | Of the result in whole units: the limit is the burst; when allowed, one more take of n tokens at that time succeeds if and only if n is at most `remaining`, and retryAfter is zero; when denied, `remaining` is zero |
| Gcra.ReportedTimes | server/internal/rate/store.go:135-142 | When denied, retryAfter is the largest whole number of nanoseconds that is not past the exact time to wait; resetAfter is exact |
| Gcra.ResetIsTight | server/internal/rate/store.go:162-166 | resetAfter is the least whole number of seconds: after an allowed take, the key decides k seconds later as if never used if and only if k is at least resetAfter |
| Gcra.MemoryStore.TakeTokens | server/internal/rate/store.go:147-176 | Decides and stores as the specification says, for the key taken, and touches no other key |
| Tasks.Reachable | server/internal/infprocessor/infprocessor.go:537-645 | In every reachable state, whatever IDs are submitted, the copies of a task object (queued, behind a timer, dequeued, in hand) are 1 + retryCount and at most 4, no copy is sent twice, and a task with a target has one copy |
| Tasks.RunKeepsInv | server/internal/infprocessor/infprocessor.go:537-748 | Every run of interleaved scheduler, receive-loop, timer, writer and engine steps keeps the copy count, the retry bound, the buffer bound, and that entries of the in-progress map lead to live tasks with that ID |
| Tasks.StepKeepsInv | server/internal/infprocessor/infprocessor.go:537-748 | Every single step keeps them |
| Tasks.RunFreezes | server/internal/infprocessor/infprocessor.go:599-604 | Over any run retryCount and delivered results only grow, and once a result was accepted retryCount never changes |
| Tasks.ResultMakesProgress | server/internal/infprocessor/infprocessor.go:575-630 | One result ends the loop, is accepted, or uses up a retry that is only there without a target and before any accepted result; an error never leaves the task waiting |
| Tasks.RetryIff | server/internal/infprocessor/infprocessor.go:592-622 | A task whose result is an error, or whose callback fails and says that another try may help, is requeued if and only if nothing was accepted, no engine is prescribed, less than three retries were made and there is time; then it ignores exactly the engine it had, too. If not, it ends with an error and is otherwise unchanged |
| Tasks.RetryIsQueued | server/internal/infprocessor/infprocessor.go:599-622 | From any state, such a task is back at the end of the queue after its goroutine has unassigned it and its timer has fired, without an engine, with one retry more, and with the failed engine ignored |
| Tasks.FatalEnds | server/internal/infprocessor/infprocessor.go:580-606 | A fatal error of the callback, and a result with an unexpected index, end the task with an error and change nothing else |
| Tasks.AcceptedOutcome | server/internal/infprocessor/infprocessor.go:1106-1130 | An accepted result is delivered; it ends the loop well if and only if it is the last event, or a response that is not streamed or neither a success, a redirect nor 503, and with an error if and only if it is of an unknown kind |
| TaskOrder.QueueIsFifo | server/internal/infprocessor/task.go:160-176 | In every run the scheduler takes task copies off the queue in the order in which first submissions and retry timers put them in |
| TaskOrder.BufferIsFifo | server/internal/infprocessor/infprocessor.go:570-748 | In every run the receive loop of a task goes through the results in the order in which the writers got them into its buffer, and none is lost or repeated |
| TaskOrder.SubmittedFor | server/internal/infprocessor/infprocessor.go:229-255 | From its submission on, in every run, a task keeps its ID, tenant, target and whether it streams, and one with a target is never assigned to another engine |
| TaskOrder.AssignsOwnEngines | server/internal/infprocessor/infprocessor.go:103-166 | A task is assigned if and only if the engine is registered for the tenant it was submitted for; otherwise nothing about it changes and an error is on its way to its own ID |
| TaskSafety.NothingStranded | server/internal/infprocessor/infprocessor.go:90-172 | In every state of a run that does not clash on the ID of this task and does not drop the error it needs, whatever happens to other tasks: while it is in progress and assigned its engine is registered or an error is coming, unless its goroutine is already ending, unassigning it or blocked in the callback; and while it waits it is on its way, has an error coming, or is with a registered engine |
| TaskSafety.RunGoodForIff | server/internal/infprocessor/infprocessor.go:537-748 | Along every run, one task can be found by its ID and has an error coming whenever it waits and needs one, if and only if no step is a clash on its ID or drops the only error it needs |
| TaskSafety.GoodForIff | server/internal/infprocessor/infprocessor.go:537-748 | The same for a single step |
| TaskSafety.RunGoodIff | server/internal/infprocessor/infprocessor.go:537-748 | The same for all tasks at once: all states are good if and only if no step of the run is a clash or drops a needed error |
| TaskSafety.GoodIff | server/internal/infprocessor/infprocessor.go:537-748 | The same for a single step |
| TaskSafety.OwnedIff | server/internal/infprocessor/infprocessor.go:543-550 | The running tasks of an ID stay where it leads if and only if the step does not submit that ID while a running task has it |
| TaskSafety.SubmitStrandsIff | server/internal/infprocessor/infprocessor.go:543-550 | After a good run, a submission opens the way to a stranded task if and only if a running task with its ID is in progress |
| TaskSafety.ClashStrands | server/internal/infprocessor/infprocessor.go:543-550 | The run after a clash: the first task ends and takes the ID of the second out of the map, then the engine of the second goes and no error reaches it |
| TaskSafety.DeliverIsSafeIff | server/internal/infprocessor/infprocessor.go:743-747 | A delivery keeps a task safe if and only if it does not drop the only error that the task needs |
| TaskSafety.FullBufferStrands | server/internal/infprocessor/infprocessor.go:743-747 | A reachable state with a hundred unread results in which the error of a removed engine is dropped and the task is stranded |
| TaskSafety.StuckForever | server/internal/infprocessor/infprocessor.go:547-591 | A task blocked in the callback of its caller stays so in every run: nothing more is delivered, its entry stays in the in-progress map as long as the ID is not submitted again, and it cannot be cancelled |
| Processor.P.RegisterTask | server/internal/infprocessor/infprocessor.go:543-545 | Takes the submission step with a new task object, over any entry under the same ID |
| Processor.P.AssignTaskToEngine | server/internal/infprocessor/infprocessor.go:156-166 | Assigns if and only if the engine is still registered for the tenant; otherwise an error is posted to the task |
| Processor.P.ReceiveResult | server/internal/infprocessor/infprocessor.go:570-631 | Takes the receive step for the oldest buffered result |
| Processor.P.ProcessOne | server/internal/infprocessor/infprocessor.go:575-630 | The branches of the receive loop on the task fields have the effect that `Tasks.RetryIff`, `Tasks.FatalEnds` and `Tasks.AcceptedOutcome` are about: index check, retry guard, ignored engines, completion |
| Processor.P.UnassignTaskFromEngine | server/internal/infprocessor/infprocessor.go:168-173 | Takes the step that clears the engine and arms the retry timer |
| Processor.P.DeregisterTask | server/internal/infprocessor/infprocessor.go:547-550 | Takes the deregistration step, by ID |
| Processor.P.AddOrUpdateEngineStatus | server/internal/infprocessor/infprocessor.go:648-693 | Takes the engine-status step, and updates engine table and router together |
| Processor.P.CollectRemovalErrors | server/internal/infprocessor/infprocessor.go:699-706 | Exactly the in-progress tasks of the engine get an error |
| Processor.P.RemoveEngine | server/internal/infprocessor/infprocessor.go:696-720 | Takes the engine-removal step: table, router and errors together |
| Processor.P.FindTaskForResult | server/internal/infprocessor/infprocessor.go:727-736 | Takes the look-up step: only tasks in progress are written to |
| Processor.P.SendResult | server/internal/infprocessor/infprocessor.go:743-747 | Takes the delivery step: a full buffer drops the result |
| Processor.P.CountTasks | server/internal/infprocessor/infprocessor.go:206-209 | Counts, for every engine at once, the in-progress tasks assigned to it |
| Processor.P.FindLeastLoadedEngine | server/internal/infprocessor/infprocessor.go:205-226 | The first engine of the list with the fewest in-progress tasks; fails if and only if the list is empty |
| Processor.P.FindMostPreferredEngine | server/internal/infprocessor/infprocessor.go:175-203 | Fails if and only if there is no candidate or one is not registered; otherwise least loaded among the local candidates, or among the remote ones when none is local |
| Streaming.EndToEnd | server/internal/infprocessor/infprocessor.go:570-631 | For a chat task sent once, whatever subset of results arrives in whatever order, the accepted ones are a prefix of those sent and the loop never blocks; ending without error means all events were read in order, and the bytes are those of the runtime when it sends no CR and finishes its events |
| Streaming.FirstResponse | server/internal/infprocessor/infprocessor.go:1045-1065 | The response that a chat task gets first: 503 has it requeued if and only if it can still be retried, 500 and a 503 too late end it with an error and nothing handed over; any other is handed over, and leaves the task waiting for events if and only if it streams and the code is from 200 to 399 |
| Streaming.ChatPrefix | server/internal/infprocessor/infprocessor.go:537-632 | For a chat callback and any arrivals of one stream, repeated or not: the accepted results are always a prefix of those sent, the loop ends without an error only when all were accepted, and it blocks for good if and only if a second response arrives while it is receiving |
| Streaming.RepeatedResponseBlocks | server/internal/infprocessor/infprocessor.go:1069-1074 | A chat loop that gets its response twice blocks, with nothing accepted after the first |
| Streaming.BlockedChatTask | server/internal/infprocessor/infprocessor.go:525-570 | A reachable state with such a task: in every run from there that does not submit the ID again it stays blocked and in progress, and cannot be cancelled |
| Streaming.PrefixIffNoRestart | server/internal/infprocessor/infprocessor.go:580-592 | For a callback that forwards results and accepts them all: the forwarded results are a prefix of those sent if and only if no result numbered 0 arrives after the first while the loop is running |
| Streaming.DistinctNeverRestarts | server/internal/infprocessor/infprocessor.go:580-586 | Arrivals without repetition never bring a second response |
| Streaming.RepeatedResponseSkipsAnEvent | server/internal/taskexchanger/task_receiver.go:420-427 | With a forwarding callback a repeated result numbered 0 makes the loop skip an event and end without an error |
| Streaming.SendStream | engine/internal/processor/processor.go:545-585 | However the body is cut into reads, the results sent are the response, the tokens of the whole body in order, and one last event, numbered without gaps |
| Streaming.BodyOfResults | engine/internal/processor/processor.go:561-571 | What a client reads from all results is the re-printed token stream |
| Sse.Scan | common/pkg/sse/scanner.go:10-60 | Chunk independence: for every byte string and every way of cutting it into reads, the tokens are those of the whole string |
| Sse.Split | common/pkg/sse/scanner.go:28-60 | Cuts at the earliest start of any delimiter, ties to the first listed; asks for more or flushes at the end of the stream when there is none |
| Sse.FoundIsStable | common/pkg/sse/scanner.go:36-53 | A delimiter found in a prefix is never superseded when more bytes arrive |
| Sse.LengthAtIsFirstListed | common/pkg/sse/scanner.go:33-48 | The compact delimiter definition agrees with the four listed delimiters in their order |
| Sse.RescanIffClean | engine/internal/processor/processor.go:561-571 | Scanning the re-printed tokens gives the same tokens if and only if every token has no delimiter and ends in neither LF nor CR LF CR |
| Sse.RelayBytes | engine/internal/processor/processor.go:561-571 | Without CR, re-printing gives back the stream, closed by a double newline if its last event was not finished |
| Sse.RelayClean | engine/internal/processor/processor.go:561-571 | Without CR, the re-printed stream scans to the same tokens unless an unfinished event ends in LF |
| Sse.RelayIsIdentity | engine/internal/processor/processor.go:561-571 | Without CR and with all events finished, re-printing is the identity on bytes and re-scanning the identity on tokens |
| Sse.CleanMeansCutAtEnd | engine/internal/processor/processor.go:561-571 | A token followed by a double newline is cut exactly at its end if and only if it is clean |
| ManagerRuns.WaitChsAreConserved | engine/internal/runtime/manager.go:253-299 | In every run each wait channel that arrived is in exactly one place: with an in-flight pull, waiting on one runtime, behind one pending pull, or notified and closed once |
| ManagerRuns.HandlerPlaces | engine/internal/runtime/manager.go:301-433 | Every handler moves the channel of its event to one place and loses or copies none |
| ManagerRuns.ReconcilePlaces | engine/internal/runtime/manager.go:576-677 | Reconciling keeps every channel, also when a runtime is deleted or found unschedulable |
| ManagerRuns.ReadinessPlaces | engine/internal/runtime/manager.go:679-756 | Readiness success, retry and final failure keep every channel |
| ManagerRuns.DeletePlaces | engine/internal/runtime/manager.go:166-178 | Deleting a runtime requeues its pending pulls and notifies its waiters, one for one |
| ManagerRuns.ClosedPlaces | engine/internal/runtime/runtime.go:194-211 | Closing turns waiters and pending pulls into notices, one for one |
| ManagerRuns.RunKeepsSound | engine/internal/runtime/manager.go:253-299 | In every reachable state a ready runtime has no waiters, no pending pulls and an address, and no runtime has lost its last address |
| ManagerRuns.RunCleanIff | engine/internal/runtime/manager.go:700-722 | Along a run ready runtimes are free of error reasons if and only if no readiness check fails for the last time on a runtime that is already ready |
| ManagerRuns.CleanIff | engine/internal/runtime/manager.go:700-722 | The same for a single step |
| ManagerRuns.ReadyWithAnError | engine/internal/runtime/manager.go:700-722 | A reachable state with a ready runtime that carries an error reason |
| ManagerRuns.RunKeepsWaiting | engine/internal/runtime/runtime.go:194-211 | While every pull has a caller that waits, the loop crashes if and only if an adapter is removed from a runtime that never had addresses; no handler closes a channel that does not exist |
| ManagerRuns.StatusUpdateCrashIff | engine/internal/runtime/manager.go:878-900 | A status update crashes if and only if it removes an adapter from a runtime without an address set |
| ManagerRuns.BlocksIff | engine/internal/runtime/manager.go:765-790 | The loop blocks for good if and only if a status check goes wrong and nobody waits for its outcome |
| ManagerRuns.PullBlocksTheLoop | engine/internal/runtime/manager.go:424-433 | A reachable state in which the status check that a pull started blocks the loop |
| ManagerReasons.ReasonsAreTrue | engine/internal/runtime/manager.go:253-299 | In every run, whatever a caller is told, some handled event told it with a ground that the model it asked for bears out (see `Told`): success only from a runtime that was ready when the pull was handled or became ready in that step; otherwise the stored error of a runtime that is not ready, or the deletion, final readiness failure or unschedulable set of that step |
| ManagerReasons.SuccessIff | engine/internal/runtime/manager.go:301-328 | A caller is told of success if and only if after the step the runtime of its model is ready, and the step handled its pull or the caller was waiting for that very runtime |
| ManagerReasons.ToldOfBaseModel | engine/internal/runtime/manager.go:355-390 | A reachable state in which a caller is told that the base model cannot be scheduled although the adapter it asked for is ready |
| ManagerReasons.HandlerTells | engine/internal/runtime/manager.go:253-299 | Every handler keeps each waiting caller with the model it asked for and adds only notices that have such a ground |
| ManagerReasons.StatusUpdateTells | engine/internal/runtime/manager.go:838-923 | A status update tells exactly waiters of runtimes that it deletes, and only of the deletion |
| ManagerEffects.PullOfBaseModel | engine/internal/runtime/manager.go:301-345 | A pull of a base model without a runtime leads to its stateful set, that to a readiness check, each of up to three failed checks to another, and a check that finds it reachable to a ready runtime at that address, the caller told of success and nothing else changed |
| ManagerEffects.PullAnsweredIff | engine/internal/runtime/manager.go:311-337 | A pull of a model with a runtime is answered at once if and only if the runtime is ready or carries an error; otherwise the caller waits with it |
| ManagerEffects.PullOfAdapter | engine/internal/runtime/manager.go:347-433 | A pull of an adapter with a ready base model leads to status checks for as long as it is not pulled and loaded, then to readiness checks, and then to the same end |
| ManagerEffects.PullBehindBaseModel | engine/internal/runtime/manager.go:355-390 | A pull of an adapter with a base model that is not ready waits behind it, with nobody told, and is in flight again once the base model is ready |
| ManagerEffects.LoadOfAdapter | engine/internal/runtime/manager.go:758-836 | A pod told to load an adapter is asked until it has loaded it; a check that goes wrong ends this |
| ManagerEffects.FourthFailureIsFinal | engine/internal/runtime/manager.go:700-722 | The fourth failed readiness check in a row tells everyone who waits at the runtime, directly or behind it, keeps the error for later callers and asks for the deletion of the model |
| ManagerEffects.Succeeds | engine/internal/runtime/manager.go:740-755 | A readiness success tells every waiter of the runtime, puts all pulls that are pending there back in order, and leaves other runtimes alone |
| ManagerEffects.DeleteIff | engine/internal/runtime/manager.go:483-526 | A deletion takes away the runtime of an adapter and no other; all its waiters are told, all pulls pending there are in flight again |
| ManagerEffects.GoneSetIff | engine/internal/runtime/manager.go:576-605 | A stateful set that is gone changes something if and only if a runtime has its name, and then takes one of that name away |
| ManagerEffects.ReconcileIff | engine/internal/runtime/manager.go:605-677 | With the set there, a runtime is ready afterwards if and only if it was and a replica is wanted; one that is not ready is checked if and only if a replica is ready, and its callers are told if and only if none is and its pod is unschedulable |
| ManagerEffects.StatusUpdateIs | engine/internal/runtime/manager.go:838-923 | After a status update every added adapter is served from the pod, unless its runtime does not serve yet, and exactly those are put back to be tried again; every dropped one is not served from there, and its runtime is gone if that was its last address |
| Manager.Manager.CloseWaitChs | engine/internal/runtime/runtime.go:194-211 | The two loops notify waiters first, then pending pulls, in order; stops where a pending pull has no channel |
| Manager.Manager.RequeuePendingPullModelRequests | engine/internal/runtime/manager.go:172-178 | All pending pulls go back on the event channel, in order |
| Manager.Manager.DeleteRuntimeByModelID | engine/internal/runtime/manager.go:154-170 | Takes the deletion of the specification |
| Manager.Manager.DeleteRuntimeByName | engine/internal/runtime/manager.go:140-152 | Deletes one runtime of that name, or none if and only if there is none |
| Manager.Manager.ProcessPullModelEvent | engine/internal/runtime/manager.go:301-433 | Has the outcome that `ManagerReasons` and `ManagerEffects` are about: told at once, waiting, new runtime, pending behind the base model, or adapter load |
| Manager.Manager.ProcessDeleteModelEvent | engine/internal/runtime/manager.go:483-526 | Has the specified outcome: only adapter runtimes are deleted here |
| Manager.Manager.ProcessReconcileStatefulSetEvent | engine/internal/runtime/manager.go:576-677 | Has the specified outcome for a missing, ready, scaled-to-zero, unschedulable or newly ready stateful set |
| Manager.Manager.ProcessReadinessCheckEvent | engine/internal/runtime/manager.go:679-756 | Has the specified outcome: retry, give up with an error, or become ready |
| Manager.Manager.ProcessLoRAAdapterPullStatusCheckEvent | engine/internal/runtime/manager.go:758-836 | Has the specified outcome: reported to the caller or blocked for want of one, tried again, or on to the readiness check |
| Manager.Manager.ProcessLoRAAdapterStatusUpdateEvent | engine/internal/runtime/manager.go:838-923 | The loops over added and removed adapters have the specified outcome: addresses, retries, and deletion with the last address |
| Manager.Manager.ProcessEvent | engine/internal/runtime/manager.go:253-299 | One turn of the event loop is one step of a run |
| Addresses.EachOncePerRound | engine/internal/runtime/runtime.go:93-120 | With a fixed available set of n addresses, any n consecutive gets select each exactly once, from any starting target |
| Addresses.UseCountsAreFair | engine/internal/runtime/runtime.go:93-120 | After any number of gets the use counts of two available addresses differ by at most one |
| Addresses.AvailableIsHistory | engine/internal/runtime/runtime.go:71-99 | After any run, an address is available if and only if it is a member that was not blacklisted within the duration: forgetting expired entries is never noticed |
| Addresses.SelectedIsHistory | engine/internal/runtime/runtime.go:71-126 | A recently blacklisted address is selected only as the sole member; nothing is selected only when every member is recently blacklisted and none is alone |
| Addresses.RuntimeAddressSet.Get | engine/internal/runtime/runtime.go:71-120 | Purges, takes a sole member at once, else the target-th of the sorted available addresses, and advances the target |
| Addresses.RuntimeAddressSet.PurgeBlacklist | engine/internal/runtime/runtime.go:75-81 | Keeps exactly the entries younger than the duration |
| Addresses.RuntimeAddressSet.NotBlacklisted | engine/internal/runtime/runtime.go:93-99 | Lists each address that is not blacklisted once |
| Addresses.RuntimeAddressSet.BlacklistAddress | engine/internal/runtime/runtime.go:122-126 | Takes the blacklist step |
| Addresses.RuntimeAddressSet.Add | engine/internal/runtime/runtime.go:48-52 | Takes the add step |
| Addresses.RuntimeAddressSet.Remove | engine/internal/runtime/runtime.go:54-58 | Takes the remove step |
| Addresses.SortStrings | engine/internal/runtime/runtime.go:106-107 | Sorting gives the one increasing list of the set |
| Window.WindowBucket.Add | engine/internal/metrics/client.go:97-150 | A crash if and only if there are no buckets; else older samples are dropped, others extend the step function, and in every branch, wraparound included, the array keeps agreeing with it |
| Window.WindowBucket.Average | engine/internal/metrics/client.go:152-185 | Exactly the mean of the step function over the n seconds before t, or up to t when the last sample arrived during t; before the last sample, a crash under an exact condition, or the stated sum |
| Window.WindowBucket.SumWindow | engine/internal/metrics/client.go:168-184 | The weighted last value and the two loops add up to the step function over the window |
| Window.WindowBucket.SumEarly | engine/internal/metrics/client.go:168-184 | What the same arithmetic does for a time before the last sample: a crash if it reaches back beyond bucket zero and not by a multiple of the window, else the stated sum |
| Window.WindowBucket.SumFrom | engine/internal/metrics/client.go:168-183 | The two loops add up the seconds that the buckets from the index on stand for, up to the last sample |
| Window.AgreesBackwards | engine/internal/metrics/client.go:87-95 | The bucket k back from the last one, modulo n, holds the sum of all samples up to k seconds before the last |
| Window.Advance | engine/internal/metrics/client.go:113-149 | Moving on keeps agreement when skipped buckets hold the last value |
| Window.LevelAndTail | engine/internal/metrics/client.go:163-184 | The level part after the last sample and the part before it make up the whole window |
| Window.WindowBucket.constructor | engine/internal/metrics/client.go:79-85 | A new window stands for no samples, with one bucket per whole second |
| Router.RouteMap.AddOrUpdateEngine | server/internal/router/route_map.go:63-84 | On the plain map from engines to model sets: the engine gets exactly the reported models |
| Router.RouteMap.DeleteEngine | server/internal/router/route_map.go:86-94 | On the plain map: the engine goes |
| Router.RouteMap.AddRoute | server/internal/router/route_map.go:38-50 | On the plain map: one model is added to one engine |
| Router.RouteMap.DeleteRoute | server/internal/router/route_map.go:52-61 | On the plain map: one model is taken from one engine, which stays registered |
| Router.RouteMap.GetRoute | server/internal/router/route_map.go:26-36 | Exactly the engines whose set has the model, each once |
| Router.RouteMap.FindLeastLoadedEngine | server/internal/router/route_map.go:97-131 | Fails if and only if all registered engines are ignored; otherwise an engine that is not ignored, with the smallest model set if no engine ID is empty |
| Router.R.AddOrUpdateEngine | server/internal/router/router.go:58-68 | Changes the tables of one tenant only, as on the plain maps |
| Router.R.DeleteEngine | server/internal/router/router.go:71-79 | Changes the tables of one tenant only, as on the plain maps |
| Router.R.GetEnginesForModel | server/internal/router/router.go:30-55 | All engines of the tenant that serve the model; if none, one engine that is not ignored when models are loaded dynamically, with the fewest models unless an engine has the empty ID, or failure |
| Registry.RunKeepsIndexes | server/internal/infprocessor/infprocessor.go:648-713 | After any run of statuses, disconnects and reports the router has exactly the ready engines with exactly their ready models, so it never names an engine the processor does not know; with one owner per engine ID, each sender has exactly its registered engines active |
| Registry.StepKeepsAgreement | server/internal/infprocessor/infprocessor.go:648-713 | Every step keeps router and table in agreement, whoever sends |
| Registry.StepKeepsTracking | server/internal/taskexchanger/task_sender.go:47-81 | Every step by the owners keeps active sets and table in agreement |
| Registry.ReportIsExact | server/internal/taskexchanger/task_sender.go:47-76 | After a report the registered engines of the sender are exactly the reported ones with their last status, and those of others are untouched; the empty report is a disconnect |
| Registry.SharedIdStaysRegistered | server/internal/taskexchanger/task_sender.go:60-75 | An engine ID that moves to another tenant in a report stays registered for the first one |
| Attribution.RunAttributedIff | server/internal/taskexchanger/task_sender.go:47-81 | Along every run, the engines registered through each sender are exactly those in its last report, in every state, if and only if no step uses an engine that is active for someone else or one ID for two tenants |
| Attribution.AttributedIff | server/internal/taskexchanger/task_sender.go:47-76 | The same for a single step |
| Attribution.ReportExactIff | server/internal/taskexchanger/task_sender.go:47-76 | One report, from any state, leaves none of the engines of the sender behind if and only if every registered one whose ID it reports again is reported for the same tenant |
| Attribution.ReportAt | server/internal/taskexchanger/task_sender.go:50-75 | What one report does to one engine: registered, removed or left alone |
| Calls.EntryIsLastCall | server/internal/infprocessor/infprocessor.go:648-720 | After any sequence of processor calls by anyone, so also in the middle of a report, an engine is registered as the last call on it left it, and the router has exactly the ready engines with exactly their ready models |
| Calls.InterleavedReport | server/internal/taskexchanger/task_sender.go:50-73 | However the calls of a report interleave with those of others, an engine that no other call is about ends up as if the report were alone |
| Registry.EngineTables.AddOrUpdateEngineStatus | server/internal/infprocessor/infprocessor.go:654-692 | Table and inverted routing tables take the specified step together |
| Registry.EngineTables.RemoveEngine | server/internal/infprocessor/infprocessor.go:708-712 | Table and inverted routing tables take the specified step together |
| Registry.EngineTables.GetEnginesForModel | server/internal/infprocessor/infprocessor.go:138-154 | Every engine offered for a model is a ready engine of the table in the same state, given that router and table agree, which every run keeps |
| Registry.TaskSenders.AddOrUpdateEngines | server/internal/taskexchanger/task_sender.go:47-76 | Makes one update call per reported engine in order and one removal per engine active before and not reported, in any order, replaces the active set, and with no call of others in between takes the report step |
| Lora.RunKeepsCovered | engine/internal/runtime/lora_reconciler.go:144-270 | In every interleaving of looks, commits, additions and deletions the replayed updates of a pod are a subset of what is stored, and empty right after its deletion |
| Lora.RunExactIff | engine/internal/runtime/lora_reconciler.go:217-270 | Replayed and stored sets are equal along a run if and only if no commit brings back a pod, with adapters, that was deleted after the look began |
| Lora.ExactIff | engine/internal/runtime/lora_reconciler.go:249-270 | The same for a single step |
| Lora.QuietRunsAreExact | engine/internal/runtime/lora_reconciler.go:144-270 | They are equal in every state of a run without a deletion between a look and its commit |
| Lora.AllSentIsExact | engine/internal/runtime/lora_reconciler.go:159-214 | If moreover a pod is deleted or looked at anew only when no update about it is pending, what was delivered replays to what is stored |
| Lora.DeliveredInOrder | engine/internal/runtime/lora_reconciler.go:159-214 | In such runs the updates about a pod are delivered in the order of the lock |
| Lora.RevivedPod | engine/internal/runtime/lora_reconciler.go:217-270 | A reachable state in which a deleted pod is stored again and its adapters were never announced |
| Lora.OvertakenUpdate | engine/internal/runtime/lora_reconciler.go:167-212 | A reachable state, everything sent, in which a reader still believes in an adapter of a pod that is gone |
| LoraSending.RunEveryOrderIff | engine/internal/runtime/lora_reconciler.go:144-270 | Along every run, in every state, every order of sending what is unsent ends with the delivered updates replaying to what is stored for the pod, if and only if no step spoils it: no deletion while unsent updates add adapters of the pod, no commit that adds what an unsent deletion removes, no commit that revives a pod with adapters |
| LoraSending.AgreesIff | engine/internal/runtime/lora_reconciler.go:144-270 | The same for a single step, in terms of the two extreme orders |
| LoraSending.EveryOrderIff | engine/internal/runtime/lora_reconciler.go:167-212 | All orders of sending end with what is stored if and only if the two extreme ones do, deletions first and deletions last |
| LoraSending.DeletionOvertakenIff | engine/internal/runtime/lora_reconciler.go:159-185 | After a run that was fine so far, a deletion can be overtaken harmfully if and only if unsent updates of commits add an adapter of the pod |
| LoraSending.SendNarrows | engine/internal/runtime/lora_reconciler.go:167-212 | Each update that is sent narrows what a reader can still end up with |
| Lora.StaysStoredIff | engine/internal/runtime/lora_reconciler.go:217-270 | A pod that was added and not deleted stays stored along a run if and only if every commit has seen it |
| Lora.ForgottenPod | engine/internal/runtime/lora_reconciler.go:144-157 | A reachable state in which a commit forgets a pod that was added during the look |
| Lora.CommitIff | engine/internal/runtime/lora_reconciler.go:249-270 | A look ends the loop with an error, and nothing stored or announced, if and only if it finds a pod on another base model; otherwise exactly what was seen is stored |
| Lora.RunKeepsBase | engine/internal/runtime/lora_reconciler.go:272-346 | In every run, as long as a pod is stored its base model is the one it was first seen with |
| Lora.DiffIff | engine/internal/runtime/lora_reconciler.go:272-346 | What was stored, plus what is added, minus what is removed, is what was seen; nothing is added that was there or removed that was not, nothing is announced of a pod that is as stored, and it fails if and only if the base models differ |
| Lora.ReplayUpdates | engine/internal/runtime/lora_reconciler.go:254-265 | The updates of one commit act on a pod exactly as its own difference, in whatever order pods are visited |
| Lora.UpdateLoRALoadingStatusForPod | engine/internal/runtime/lora_reconciler.go:272-346 | The loops find the specified difference: none, lists of added and removed adapters, or a changed base model |
| Lora.LoRAReconciler.UpdateLoRALoadingStatus | engine/internal/runtime/lora_reconciler.go:249-270 | Takes the commit step; a changed base model leaves everything as it was |
| Lora.LoRAReconciler.AddPod | engine/internal/runtime/lora_reconciler.go:144-153 | Takes the add step |
| Lora.LoRAReconciler.DeletePod | engine/internal/runtime/lora_reconciler.go:159-182 | Takes the delete step, with all stored adapters removed |
| Lora.LoRAReconciler.StartLooking | engine/internal/runtime/lora_reconciler.go:217-223 | Takes the step that lists the pods to look at |
| Autoscaler.NeverLeavesIff | engine/internal/autoscaler/builtin.go:197-222 | With all replicas ready, one tick never leaves [MinReplicas, MaxReplicas] if and only if the up rate at the lower limit and the down rate at the upper limit stay inside; validation alone does not ensure it |
| Autoscaler.NeverLeavesWithIff | engine/internal/autoscaler/builtin.go:186-222 | For any number of ready replicas, no tick leaves the limits if and only if a step up from the ready ones reaches the lower limit and a step down from them does not exceed the upper one |
| Autoscaler.NeverLeavesAtAllIff | engine/internal/autoscaler/builtin.go:186-222 | Safe for all numbers of ready replicas if and only if the limits are equal, or there is no upper limit and the up rate exceeds the lower limit less one |
| Autoscaler.ConvergesIff | engine/internal/autoscaler/builtin.go:214-222 | From outside the limits every tick gets closer if and only if the up rate exceeds 1 (or MinReplicas is at most 1) and the down rate is below 1 (or there is no upper limit) |
| Autoscaler.ComesIntoRange | engine/internal/autoscaler/builtin.go:176-228 | Under both conditions replicas are inside after at most as many ticks as they were away, and stay |
| Autoscaler.GentleRatesAreSafe | engine/internal/autoscaler/builtin.go:216-222 | An up rate of at least 1 and a down rate of at most 1 are safe |
| Autoscaler.ZeroIff | engine/internal/autoscaler/builtin.go:202-212 | The scaler aims at zero if and only if every tick over at least the grace period computed zero |
| Autoscaler.ScalesToZeroOnlyAfterGrace | engine/internal/autoscaler/builtin.go:202-228 | Whatever the ready replicas are, zero replicas are decided only then |
| Autoscaler.Scaler.Scale | engine/internal/autoscaler/builtin.go:176-228 | Decides as the specification of `Autoscaler.WantedIsLeast`, `Autoscaler.ZeroIff` and `Autoscaler.RampIsTight` does, and updates the stateful set only when the number changes |
| Autoscaler.Wanted | engine/internal/autoscaler/builtin.go:186-200 | The computed number, which `Autoscaler.WantedIsLeast` is about, respects the limits |
| Autoscaler.WantedIsLeast | engine/internal/autoscaler/builtin.go:186-200 | The computed number is the least within the limits at which the target of all replicas covers the metric per ready pod, or the upper limit if that does not; so a positive metric never computes zero |
| Autoscaler.RampIsTight | engine/internal/autoscaler/builtin.go:214-222 | A step down reaches exactly the numbers that are at least the wanted one and more than the rate times the ready replicas less one; a step up the mirror image; without a difference nothing changes |
| Responses.RoundTrip | common/pkg/api/responses.go:9-34 | For every request without the reserved names, and whatever the wire drops, the reverse chain fails if and only if the input is neither text, a list nor null, and otherwise returns the request with a null temperature or top_p as zero; so it returns the request itself if and only if moreover neither is null |
| Responses.NullBecomesZero | common/pkg/api/completions.go:226-261 | A null temperature is flagged as present, dropped by the wire, and comes back as zero |
| Responses.ForwardZeroed | common/pkg/api/responses.go:9-20 | The forward chain looks at whether temperature and top_p are there, not at what they are |
| Responses.EncodeToolsBack | common/pkg/api/responses.go:36-137 | The three tool converters undo each other in reverse order and touch no other field |
| Responses.BothPresencesBack | common/pkg/api/completions.go:210-256 | temperature and top_p come back, zero or not, when the wire drops zeros and nulls; a null comes back as zero |
| Responses.InputBack | common/pkg/api/embeddings.go:28-70 | The input comes back if and only if it is text, a list or null |
| Responses.OrderMatters | common/pkg/api/responses.go:24-33 | Decoding tool_choice tools before tool_choice_object is renamed leaves them encoded |
| Chat.RoundTrip | common/pkg/api/completions.go:28-69 | For every accepted request without the reserved names the reverse chain fails if and only if function parameters are neither maps nor null, and otherwise returns it with string contents as text arrays, and a null temperature or top_p as zero; with the string format it returns the request itself if and only if moreover neither is null |
| Chat.ForEachBack | common/pkg/api/completions.go:103-166 | A converter that undoes another exactly on some values does so on lists, and fails on all others |
| Chat.FunctionParametersBack | common/pkg/api/completions.go:103-166 | Function parameters come back if and only if they are maps or null |
| Chat.ResponseFormatBack | common/pkg/api/completions.go:263-375 | The response format comes back whatever else the wire drops |
| Chat.KwargsBack | common/pkg/api/completions.go:168-208 | Chat template arguments come back |
| Chat.ContentsBack | common/pkg/api/completions.go:378-442 | String contents survive the way to an array and back |
| Chat.EncodeLeaves | common/pkg/api/completions.go:74-376 | The other converters neither read nor write the messages, and of temperature and top_p only whether they are there |
| Chat.ConvertElements | common/pkg/api/completions.go:110-131 | The loop converts each element in order and stops at the first failure |
| WireForm.ChatIsCarried | common/pkg/api/completions.go:28-39 | Of every accepted chat request, field by field: template arguments, function parameters, the schema of the response format and a tool choice that is not text are gone from where they were, and what took their place decodes to exactly them; both sampling fields are flagged, text contents are one-part lists, nothing else changes |
| WireForm.ChatAcceptedIff | common/pkg/api/completions.go:28-39 | The forward chain accepts a request if and only if tools and functions are maps, template arguments are a map, the response format is of a known type with its schema, and every message has contents |
| WireForm.ResponseIsCarried | common/pkg/api/responses.go:9-20 | Of every model response request, and none is refused: tool lists, also inside a tool choice, a schema that is a map, a tool choice and an input that are not text are gone from where they were, and what took their place decodes to exactly them; both sampling fields are flagged, nothing else changes |
| WireForm.TextOnlyIff | common/pkg/api/completions.go:378-442 | For the string format a message is refused if and only if its contents are several parts or one that is a map but not text; otherwise the contents are the text of the only part, or what they were |
| WireForm.ForEachIs | common/pkg/api/completions.go:110-131 | A list is converted if and only if every element can be, each where it is |
| ReadBack.ResponseReadableIff | common/pkg/api/responses.go:23-34 | The reverse chain reads any body, from the forward chain or not, if and only if every encoded field is text that decodes to a list, or a map for a schema, or to null, and the flags are booleans |
| ReadBack.ResponseIsRead | common/pkg/api/responses.go:23-34 | Of every body that it reads: no encoded field, flag or tool_choice_object is left, what an encoded field decodes to is under the plain name, a flag that was set has made a missing field zero, and nothing else changes |
| ReadBack.ChatReadableIff | common/pkg/api/completions.go:51-69 | The same for chat: encoded fields decode to maps or null, flags are booleans, tools and functions are maps, the response format is of a known type with its encoded schema |
| ReadBack.ChatIsRead | common/pkg/api/completions.go:51-69 | Of every such body: no encoded field, flag or tool_choice_object is left, what an encoded field decodes to is under the plain name, a flag that was set has made a missing field zero, and nothing else changes |
| ReadBack.ChatReadableAsTextIff | common/pkg/api/completions.go:51-69 | Asked for the string format it reads a body if and only if moreover the contents of every message can be written as one text |
| ReadBack.DecodesIff | common/pkg/api/completions.go:132-208 | Decoding a field panics if and only if it is not text, and succeeds if and only if the text decodes to a list, or a map, or null |
| Json.ApplyConvertFuncs | common/pkg/api/convert.go:10-28 | Runs the chain, and stops at the first failure |
| Api.Body.ConvertCreateModelResponseRequestToProto | common/pkg/api/responses.go:9-20 | The seven in-place converters, run one after the other on one body, have the outcome of the forward chain, which `WireForm.ResponseIsCarried` and the round trip are about |
| Api.Body.ConvertCreateModelResponseRequestToOpenAI | common/pkg/api/responses.go:23-34 | The seven in-place converters, in the opposite order, have the outcome of the reverse chain, which `ReadBack.ResponseIsRead` and the round trip are about |
| Api.Body.ConvertCreateChatCompletionRequestToProto | common/pkg/api/completions.go:28-39 | The seven in-place converters, run one after the other on one body, have the outcome of the forward chain, which `WireForm.ChatIsCarried` and `WireForm.ChatAcceptedIff` and the round trip are about |
| Api.Body.ConvertCreateChatCompletionRequestToOpenAI | common/pkg/api/completions.go:51-69 | The in-place converters, in the opposite order, have the outcome of the reverse chain, with or without the string format, which `ReadBack.ChatIsRead` and the round trip are about |

## Left out

- gRPC, HTTP, Kubernetes, S3 and Hugging Face plumbing, and generated code: input and output only.
- Floating point rounding and machine integer overflow: rates and times are real numbers or unbounded integers.
- JSON, base64 and the wire format are a lawful encode and decode pair, and a wire that drops a null temperature or top_p and may drop a zero one; zero-dropping of other fields is not modelled.
- The text of a JSON number matters only as zero or not zero; a zero has one form.
- Nested JSON values are values: that a converter edits a nested map through an alias, and what a failed converter leaves behind, are not captured.
- `sort.Strings` is an insertion sort with the same result, and `bytes.Index` is a recursive search; library code is not modelled further.
- The 4096-byte limit of the scanner and the buffer management of the library driver; reads can have any length.
- Streaming of tasks other than chat completions through the receive loop. Writes to the body of a response wait for its reader and are instantaneous here; that a forwarding send fails is not modelled in `Streaming`.
- Task objects are records in a table under their identity. The counter beside the queue and the heartbeat times are not modelled.
- Contexts and timeouts are inputs of a step: whether a retry is still in time, and when a task is cancelled.
- The choice between several engines is an input of the assignment step in `Tasks`; how it is made is proved in `Processor` and `Router`.
- `assignTaskToEngine` unlocks its mutex twice on its failing path; the section is modelled as atomic and returning an error.
- Runtimes of the manager are values in a map: updates through a pointer held across unlock are not captured; the event loop is the only one to make them.
- Sends on the wait channels of pulls are instantaneous; of the wait channels of other events only the blocking report of a status check is modelled. GPU counts, replica counts, model configurations and in-progress pod names are not.
- The address set of a runtime is a plain set in `Manager`; its selection and blacklist are in `Addresses`.
- An adapter added to a ready runtime without an address set would crash in the code; `ManagerRuns.RunKeepsSound` shows that there is no such runtime.
- Deployment, deletion and configuration updates through runtime clients: their failure is an input, and ends the run.
- Pods of the LoRA reconciler are their names, and lists of adapters are sets; IP addresses and GPU counts of updates are not modelled.
- Registration of scalers, metric collection, and an update that the API server rejects: a rejected update is a tick without effect.
- The Ollama manager, model activator, drifted pod updater, rebalancer, model caches, vector store, monitoring and configuration parsing: they call other services and keep no state of their own that spans calls, or one branch decides what they do.
- Gcra.RunRefinesBucket: asks for a clock that does not run backwards, which the limiter does not check; the window bound does not need it.
- Gcra.RedisAgrees: is about runs on one key and one clock, and not about how the script turns its numbers into text; keys of the script are independent.
- Chat.RoundTrip: is about requests the forward chain accepts; a rejected request has nothing to bring back.
- Tasks.RetryIsQueued: is about the three steps of one retry with nothing in between; what other steps do meanwhile is in `TaskSafety`.
- ManagerEffects.PullOfBaseModel: follows the events of one pull, and so does `ManagerEffects.PullOfAdapter`; what holds while others come in between is in `ManagerRuns` and `ManagerReasons`.
- Registry.ReportIsExact: is about runs in which every engine ID has one owner; `Attribution.ReportAt` and `Attribution.ReportExactIff` are about any state.
- Registry.SharedIdStaysRegistered: is one run; the exact condition for all runs is `Attribution.RunAttributedIff`.
- Attribution.RunAttributedIff: takes a report as one step. In the middle of a report a sender still has its old engines active; what the processor and the router hold there is in `Calls.EntryIsLastCall` and `Calls.InterleavedReport`.
- Registry.TaskSenders.AddOrUpdateEngines: is about a report with no call of others in between; `Calls.InterleavedReport` is about the others.
- Lora.AllSentIsExact: is a sufficient condition that is easy to read; the exact one is `LoraSending.RunEveryOrderIff`.
- Autoscaler.NeverLeavesIff: is about ticks at which all replicas asked for are ready; `Autoscaler.NeverLeavesWithIff` is about any number of ready replicas.
- Router.RouteMap.FindLeastLoadedEngine: promises the smallest set only without an empty engine ID, which the code takes for "none yet".
- Window.WindowBucket.Add: asks for a time after the zero time, which the code takes for "never updated", and says nothing about the object after a crash.
