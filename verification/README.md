# A verified model of corral's runtime

corral is a C++20 library for structured concurrency: tasks, combiners, nurseries, channels and
semaphores on a single-threaded executor, and a thread pool beside it. This project models its
runtime and proves what its protocols keep over whole runs. `dafny verify dfyconfig.toml` checks
everything.

- **Thread pool** (`TicketArithmetic`, `SubmissionRing`, `ThreadPool`, `PoolInvariant`, `PoolSteps`,
  `PoolTheorems`). The main thread and N workers are interleaved atomic steps on the ticketed ring,
  the backoff list and the completion stack, whose nodes share one `next_` field. `Places` says where
  each task is; the invariant ties it to the pointers.
- **Awaiter protocol** (`AwaiterProtocol`, `AwaiterRuns`). Each assertion of `AwaiterStateChecker` is a
  precondition, so every call that a driver makes on an awaiter is proved acceptable.
- **Combiners** (`Combiner`). `anyOf`, `mostOf` and `allOf` over n children that may complete, refuse,
  confirm or defer a cancellation from inside any call; `invoke` and the cancellation sweep re-enter.
- **Tasks** (`TaskPromise`). The promise, the awaiter it is suspended on and the `TaskAwaiter` through
  which its parent drives it.
- **Executors** (`Executors`). Several executors of one event loop, with the call stack explicit.
- **Nurseries** (`Nurseries`), with start awaiters and the callbacks queued on the executor.
- **Channels** (`Channels`) over the circular buffer (`RingQueue`), **semaphores** (`Semaphores`),
  **parking lots** (`ParkingLots`) over intrusive lists on the heap (`IntrusiveLists`).
- `Collections` and `Options` hold what several of these use.

What the source changes in place is a class here, and its methods are specified by what they do to
the abstract state. Coroutine bodies, leaf awaiters and user callbacks are nondeterministic choices,
restricted to what doc/02_adapting.md:136-264 asks of an awaiter; methods named `Environment` and
`AnyRun` quantify over everything these can do. Numbers (`nat`) stand for tasks and awaiters; a `depth`
parameter bounds how deeply such calls nest and a `fuel` field how many woken tasks run inside a loop; every
bound is covered. Fields under "what has happened" in a
class record history for the contracts and influence nothing.

## Findings

Where a natural claim about the code is false, the model keeps the code's behaviour, shows an input
and proves when the claim holds.

- `bit_ceil(threads) * 512` is computed in 32 bits: it is zero above 4194304 threads
  (`TicketArithmetic.CapacityHoldsThreads`, both directions).
- The suspend loop of a combiner counts a child twice if it accepts early cancellation and comes after
  the first sweep, so that the parent may be resumed while a child is still to be started
  (`Combiner.ResumedTooEarly`). No run does that exactly if the combiner was cancelled early or no child
  after the first accepts early cancellation (`Combiner.Mux.AwaitSuspend` and, for the converse,
  `Combiner.CountsTwice`).
- A ready combiner that refuses an early cancellation, because its children do, is no longer ready when
  it is asked again (`Combiner.NoLongerReady`; exactly then, `Combiner.Mux.AwaitReady`), and a ready child
  that refused must not be given an executor any more (`Combiner.ExecutorTooLate`; exactly then,
  `Combiner.Mux.AwaitSetExecutor`).
- An allOf that was ready and is cancelled leaves a result behind exactly if one child must resume and
  another one is cancelled (`Combiner.ResultLeftBehind`, `Combiner.Mux.CancelReady`).
- A cancellation of a task is forgotten exactly if it comes from inside an `await_suspend()` that then
  throws (`TaskPromise.CancellationForgotten`, `TaskPromise.Task.SuspendThrows`).
- A sender with a claim fails an assertion exactly if the channel was closed in between
  (`Channels.ClaimedSendFails`, `Channels.Channel.Send`), and a bulk send on an unbounded channel exactly if
  it is closed (`Channels.BulkSendFails`, `Channels.Channel.TrySendMany`).
- A start that ends without signalling leaves a nursery open exactly if it was all there was
  (`Nurseries.LeftOpenByQuietStart`, `Nurseries.Nursery.FinishStart`), and `join()` ignores pending starts
  (`Nurseries.JoinClosesOverStart`).
- The parent of a nursery may be resumed over a running task: one that was handed over while suspended,
  to a nursery that was being cancelled and was closed during the cancel() of that task
  (`Nurseries.ClosesOverHandedTask`). It takes exactly that (`Nurseries.Nursery.Enlist`,
  `Nurseries.AnyRun`). While no task takes a step, that may happen to a task exactly if it is exposed at
  the call (`Nurseries.Exposed`; `Nurseries.Nursery.HandOver` and, for the converse,
  `Nurseries.MayBeOvertaken`): never if the nursery is not being cancelled, if some task in it cannot confirm
  a cancellation now, or, with a parent waiting, if nobody but it is there. If the task ends meanwhile
  instead, the nursery may stay open for ever (`Nurseries.LeftOpenByHastyTask`).
- An anyOf over children that confirm cancellations on the spot fails its own assertion that it does so,
  exactly if a child that refused an early cancellation is still being cancelled or to be started
  (`Combiner.RefusesToAbort`, `Combiner.Mux.AwaitCancel`).

## Model

| member | source | states |
|---|---|---|
| TicketArithmetic.CapacityHoldsThreads | corral/ThreadPool.h:416-419 | the ring has at least one slot per thread, and a power-of-two capacity, if and only if there are at most 4194304 threads; beyond that the 32-bit product is zero |
| TicketArithmetic.SlotGap | corral/ThreadPool.h:502-508 | two tickets that select the same slot are a positive whole number of laps apart, for every power-of-two capacity |
| TicketArithmetic.LapVisitsEverySlotOnce | corral/ThreadPool.h:502-508 | any capacity-many consecutive tickets visit every slot, each exactly once: stride 7 wastes and repeats none |
| TicketArithmetic.SlotSurvivesWrap | corral/ThreadPool.h:508-525 | wrapping of the 64-bit counters does not change which slot a ticket selects |
| TicketArithmetic.VisitsWithinLap | corral/ThreadPool.h:508-525 | within one lap the number of visits to a slot grows by at most one, and by one exactly if a ticket of that stretch selects it |
| SubmissionRing.InitInv | corral/ThreadPool.h:416-429 | a new ring with capacity at least the number of workers satisfies the invariant |
| SubmissionRing.StepInv | corral/ThreadPool.h:507-559 | every atomic step of the producer and of any worker keeps the invariant: per slot, pushes and tickets balance with contents and claimants; flags belong to sleepers; a wake-up is never lost |
| SubmissionRing.HeadLead | corral/ThreadPool.h:497-500 | claimed tickets exceed pushes by at most the number of workers, in every reachable state |
| SubmissionRing.SoleClaimant | corral/ThreadPool.h:523-559 | no two workers ever wait on the same empty slot |
| SubmissionRing.NobodyStarvesBesideWork | corral/ThreadPool.h:507-559 | while an item sits in a slot nobody has a ticket for, no waiting worker stands before an empty slot |
| SubmissionRing.InhabitedSlotIsServed | corral/ThreadPool.h:511-518 | if an item is in the ring and anybody waits, some waiting worker stands before an item, and it is asleep only while the producer is between its exchange and its notify |
| PoolSteps.InitInv | corral/ThreadPool.h:410-429 | a new pool satisfies the whole-pool invariant |
| PoolSteps.StepInv | corral/ThreadPool.h:431-655 | every interleaved step of the main thread and the workers keeps the whole-pool invariant, including the two linked lists and the stack that share next_ |
| PoolSteps.ExitHasRoom | corral/ThreadPool.h:438-442 | in shutdown the slot for the next exit request is always empty, so the assertion on the push cannot fail |
| PoolTheorems.RunInv | corral/ThreadPool.h:410-655 | the invariant holds after every finite run of a new pool |
| PoolTheorems.OnePlace | corral/ThreadPool.h:573-655 | in every reachable state a live task is in exactly one of: the main thread's hands, backoff list, one slot, one worker's hands, completion stack, the list being reversed, the batch being processed |
| PoolTheorems.ExactlyOnce | corral/ThreadPool.h:451-655 | over every run: submitted tasks are the resumed ones plus the live ones; what is resumed has run, nothing runs more often than it was submitted; parents are resumed in order of completion; no assertion fails |
| PoolTheorems.FirstStashedFirstPushed | corral/ThreadPool.h:573-601 | over every run, tasks leave the backoff list in the order in which they were put there: those stashed are those pushed since, followed by the list that starts at the head or where the walk stands, read through next_ |
| PoolTheorems.Progress | corral/ThreadPool.h:462-655 | in every reachable state that is not done, some step that the program owes is enabled: no tick, wake-up, backed-off task or exit request is lost |
| PoolTheorems.QuiescenceMeansDone | corral/ThreadPool.h:462-655 | over every run: if nothing but new submissions, spurious wake-ups or a shutdown request is possible, everything submitted has run and been resumed exactly once, in order of completion |
| PoolTheorems.WorkDecreases | corral/ThreadPool.h:462-655 | no step but an unprompted one increases the work left, and every productive step decreases it |
| PoolTheorems.OnlySpuriousStepsGoOn | corral/ThreadPool.h:462-655 | every owed step but a spurious failure of a compare-and-swap lowers the work left or, at equal work, the retries left; so only spurious failures and spurious wake-ups could go on for ever |
| PoolTheorems.ShutdownLeavesNothing | corral/ThreadPool.h:431-449 | after joining: head equals tail, every slot is empty, both lists are empty, everything submitted was resumed |
| AwaiterRuns.OneOutcomePerAwaiter | corral/detail/utility.h:180-326 | over every call history that the checker accepts: at most one suspension, one cancellation request and one handle resumption; exactly one outcome (result, exception or confirmed cancellation) exactly if the state is terminal; a cancellation is confirmed only if requested |
| Combiner.Mux.constructor | corral/detail/wait.h:500-515 | a new combiner has started and counted nothing |
| Combiner.Mux.AwaitReady | corral/detail/wait.h:524-533 | ready exactly if enough children are ready and every other one can be skipped; every await_ready() made on a child is legal; a combiner that has refused an early cancellation is never ready, and the checker accepts its answer exactly unless it was ready before |
| Combiner.Mux.AwaitEarlyCancel | corral/detail/wait.h:402-410 | every child is asked once; the combiner is cancelled exactly if all children accept; each refusal is remembered |
| Combiner.Mux.AwaitSetExecutor | corral/detail/wait.h:517-522 | the executor reaches exactly the children that are still to be started; the checker accepts that exactly if no child was found ready before it refused an early cancellation |
| Combiner.Mux.AwaitSuspend | corral/detail/wait.h:535-543 | every child ends up suspended or reported and no frame is left open, also if the combiner is cancelled from inside a child's await_suspend(); unless it was cancelled early, the children counted twice are exactly those that accept early cancellation and come after those that were suspended when a sweep first started; there are none if it was cancelled early or no child after the first accepts early cancellation |
| Combiner.CountsTwice | corral/detail/wait.h:124-142 | the other half: for every combiner not cancelled early, any child after the first that accepts early cancellation is counted twice in some run, and the count is then wrong |
| Combiner.Mux.SuspendChild | corral/detail/wait.h:124-142 | suspending one child keeps the invariant, whatever it and its siblings do meanwhile, a cancellation of the combiner included |
| Combiner.Mux.KickOff | corral/detail/wait.h:312-333 | starting a child makes only legal calls on it, in the ready, suspending and throwing cases, also if it throws after children have been resumed from inside it |
| Combiner.Mux.Cancel | corral/detail/wait.h:144-185 | afterwards the child has finished or has been asked; true exactly if it is cancelled; only legal calls are made on it, even if it completes from inside await_cancel() |
| Combiner.Mux.ChildResumes | corral/detail/wait.h:363-383 | a child that resumes its handle ends up finished, and is reported |
| Combiner.Mux.ReportResult | corral/detail/wait.h:335-361 | a value and an error are recorded as such, and the child is counted |
| Combiner.Mux.Invoke | corral/detail/wait.h:466-484 | counting a child, and re-entrantly sweeping the others when it fails first or completes the quorum, keeps the invariant, and adds the child to those that failed exactly if it did; the recursion ends because fewer children are left to ask or complete |
| Combiner.Mux.InternalCancel | corral/detail/wait.h:569-576 | afterwards every child has finished or been asked to cancel; true only if all are cancelled |
| Combiner.Mux.AwaitCancel | corral/detail/wait.h:412-444 | at any time after await_suspend() has been called: answers true exactly if the combiner ends cancelled on the spot, and then every child is cancelled; otherwise every child has finished or been asked; after a double count nothing happens; and if children confirm cancellations on the spot, an anyOf does so exactly if no child is still being cancelled and none that is to be started refuses, which holds whenever they accept early cancellations |
| Combiner.RefusesToAbort | corral/detail/wait.h:423-431 | counterexample to the assertion, from construction: an anyOf whose children all confirm cancellations on the spot, one of which had a value at once while the other had refused an early cancellation, does not |
| Combiner.Mux.Environment | corral/detail/wait.h:144-217 | any interleaving of completions of children and cancellations of the combiner keeps the invariant |
| Combiner.Mux.MustResume | corral/detail/wait.h:242-286 | asks the child exactly in the CancellationPending state, and records the answer as Ready or Cancelled |
| Combiner.Mux.AwaitMustResume | corral/detail/wait.h:578-603 | after a failed early cancellation of a combiner that was ready, every child is asked, legally and once; each is then cancelled or keeps a result to give; the answer is the source's disjunction, for allOf its conjunction |
| Combiner.Mux.CancelReady | corral/detail/wait.h:702-726 | an early cancellation of a combiner that is ready goes through exactly if every child (for allOf: some child) accepts it or need not resume; then all children may be destroyed exactly if every one of them did |
| Combiner.ResultLeftBehind | corral/detail/wait.h:714-726 | counterexample for allOf, from construction: one child is ready, refuses the cancellation and must resume, the other is cancelled; the combiner ends as cancelled with the first one's result never taken, which the checker rejects at its destruction |
| Combiner.Mux.ReportImmediate | corral/detail/wait.h:190-217 | a child of a combiner resumed without suspending is brought to its end by legal calls only; if it had a result it is taken; nobody else gets an answer meanwhile, and without an error nobody is touched if all are needed |
| Combiner.Mux.AwaitResume | corral/detail/wait.h:609-650 | resumed without suspending: the first child that is ready is looked at first and keeps its result, no matter what accepts to be cancelled after it; every child ends, legally and fit to be destroyed; there is an error exactly if a child failed, and it is that of the first to fail in this order; without one some child has a value, and if all are needed and had an answer, all have |
| Combiner.Mux.AnyRun | corral/detail/wait.h:96-760 | over any run from construction, cancelled at any point that the protocol allows: a suspended combiner, unless a child was counted twice, has counted the finished children, releases its parent exactly if all have finished, and asks the rest to cancel once enough have finished or one failed; one resumed without suspending has every child at its end and its results defined; one cancelled without suspending has only cancelled children, but for results left behind by allOf |
| Combiner.NoLongerReady | corral/detail/wait.h:96-118 | counterexample, from construction: a combiner that is ready and refuses an early cancellation answers not ready when asked again, as a combiner around it does (wait.h:312-316), which the checker rejects |
| Combiner.ExecutorTooLate | corral/detail/wait.h:517-522 | counterexample, from construction: await_set_executor() after a refused early cancellation reaches a child that was ready, which the checker rejects |
| Combiner.CountExact | corral/detail/wait.h:466-484 | count_ is finished children minus open cancel frames if and only if no child was counted twice |
| Combiner.ResumedExactlyWhenDone | corral/detail/wait.h:466-484 | the parent has been resumed (or await_cancel() answered true) exactly if every child is final and no cancel frame is open |
| Combiner.RestIsCancelled | corral/detail/wait.h:473-482 | with enough children finished or one failed, every other child has been asked to cancel by the time control leaves the combiner |
| Combiner.FirstErrorKept | corral/detail/wait.h:466-472 | the error that is thrown is that of the child counted with one first, whatever happens later; the children counted with errors are exactly those that failed |
| Combiner.OptionalsDefined | corral/detail/wait.h:545-566 | when anyOf or mostOf builds its result without an error, each child has a value or was cancelled, and at least one has a value |
| Combiner.ValuesDefined | corral/detail/wait.h:714-756 | when allOf builds its tuple without an error, every child has a value |
| Combiner.NothingDropped | corral/detail/wait.h:578-603 | when anyOf or mostOf ends as cancelled, no child had a result |
| Combiner.ResumedTooEarly | corral/detail/wait.h:124-142 | counterexample to the count without its premise: anyOf over a ready child, one that accepts early cancellation and one that does not resumes its parent before the third child is started |
| TaskPromise.Task.constructor | corral/detail/Promise.h:203-207 | a new task is in step with its parent and has no awaiter |
| TaskPromise.Task.AwaitReady | corral/detail/TaskAwaiter.h:236-236 | ready exactly if the task has ended, which the protocol lets the parent ask only after a cancellation; the answer never goes back |
| TaskPromise.Task.RequestCancel | corral/detail/Promise.h:164-183 | a task with an awaiter passes the cancellation on to it at once, with the handle to resume set beforehand; one without keeps the request for its next co_await; either way exactly one cancel() has been received |
| TaskPromise.Task.AwaiterAnswers | corral/detail/Promise.h:172-181 | whatever the awaiter answers, and even if it resumes from inside await_cancel(), only legal calls are made and the request is not lost |
| TaskPromise.Task.ResumeHandle | corral/detail/Promise.h:259-302 | resuming the proxy handle schedules exactly one step or ends the task as cancelled, the latter only if the awaiter confirmed a cancellation |
| TaskPromise.Task.PropagateCancel | corral/detail/Promise.h:297-302 | the task ends as cancelled, with one continuation of its parent |
| TaskPromise.Task.CoAwait | corral/detail/Promise.h:404-431 | awaiting anything makes only calls the checker accepts, whatever the awaiter answers; a cancellation that is due is tried on the new awaiter even if that is ready: unless await_suspend() throws, the body does not go on, and the awaiter has been cancelled, is being cancelled or had to complete |
| TaskPromise.Task.HookAwaitSuspend | corral/detail/Promise.h:309-347 | the early-cancel, ready, suspend and throw paths make only legal calls on the awaiter, which is always told of a request that was pending |
| TaskPromise.Task.SuspendThrows | corral/detail/Promise.h:336-344 | when await_suspend() throws the request is kept, exactly unless the task was cancelled from inside that call |
| TaskPromise.CancellationForgotten | corral/detail/Promise.h:336-344 | counterexample, from construction: a task is cancelled from inside an await_suspend() that then throws, and its body goes on with no cancellation due |
| TaskPromise.Task.RunStep | corral/detail/Promise.h:265-280 | the queued step resumes the body with the awaiter's result, and keeps a pending cancellation |
| TaskPromise.Task.Finish | corral/detail/Promise.h:350-355 | a value or exception is reported once, followed by one continuation |
| TaskPromise.Task.AwaitEarlyCancel | corral/detail/TaskAwaiter.h:229-234 | an early cancellation reaches the task as its only cancel() |
| TaskPromise.Task.AwaitSuspend | corral/detail/TaskAwaiter.h:238-242 | starting a task queues exactly one step |
| TaskPromise.Task.AwaitCancel | corral/detail/TaskAwaiter.h:244-252 | a parent that follows the awaiter protocol issues at most one cancel() to the child, and the answer is always false |
| TaskPromise.Task.AwaitMustResume | corral/detail/TaskAwaiter.h:256-256 | true exactly if the task did not end as cancelled |
| TaskPromise.Task.AwaitResume | corral/detail/TaskAwaiter.h:254-254 | there is a value or an exception to give to the parent whenever the protocol lets it ask |
| TaskPromise.AnyRun | corral/detail/Promise.h:164-355 | over every run of a new task, driven by the protocol and cancelled early or late: at most one cancel(), at most one queued step, one continuation exactly if the body has ended, and a cancelled result only if its last awaiter confirmed it |
| Executors.InitInv | corral/Executor.h:118-131 | executors start with empty queues and nobody draining |
| Executors.StepInv | corral/Executor.h:181-228 | every runSoon(), call, return and end of a drain keeps the invariant across all executors of a loop |
| Executors.RunsInv | corral/Executor.h:181-322 | the invariant holds after every run |
| Executors.NeverNested | corral/Executor.h:207-228 | over every run at most one user callback is on the stack, and it is the innermost frame |
| Executors.NothingStranded | corral/Executor.h:292-322 | over every run, when the outermost drain has returned all queues are empty and each executor has called exactly what was submitted to it, in order |
| Executors.CalledInOrder | corral/Executor.h:181-228 | over every run, each queue is called in the order in which it was filled, with the callbacks that run other executors at the place where they were asked for |
| Executors.PendingIsReachable | corral/Executor.h:218-228 | over every run, an executor with uncalled callbacks is draining or is about to be called from the queue of one that is |
| Nurseries.Nursery.Open | corral/Nursery.h:1152-1153 | a scope is opened with its parent bound |
| Nurseries.Nursery.BodyStarts | corral/Nursery.h:692-708 | the body becomes a task of the nursery |
| Nurseries.Nursery.BodyReady | corral/Nursery.h:701-708 | a body that is over at once reports its outcome, its error and its wish to cancel included, and the nursery closes if there is nothing to wait for |
| Nurseries.Nursery.Join | corral/Nursery.h:1100-1112 | suspends exactly if there are tasks; otherwise closes the nursery, whether or not there are starts |
| Nurseries.Nursery.Adopt | corral/Nursery.h:744-753 | the task is listed, and gets exactly one cancel() exactly if the nursery is being cancelled |
| Nurseries.Nursery.Start | corral/Nursery.h:226-230 | the task is adopted exactly if the nursery is open; on a closed one the assertion fails |
| Nurseries.Nursery.Continuation | corral/Nursery.h:710-742 | the task leaves and its destruction is queued; the parent's resumption is queued behind it exactly if no task and no start is left and there is a parent, and then the nursery is closed |
| Nurseries.Nursery.DoCancel | corral/Nursery.h:755-774 | every task listed at the call has got its one cancel(), in the order of the list, even if tasks end, start or are handed over meanwhile; none of them has been destroyed or has ended as cancelled when its turn comes |
| Nurseries.Nursery.Cancel | corral/Nursery.h:776-783 | cancels once, reaching every task listed at the call, in order; a further call changes nothing |
| Nurseries.Nursery.StoreError | corral/Nursery.h:1016-1030 | the first error is kept whatever is reported re-entrantly, and every task listed at the call gets its cancel() |
| Nurseries.Nursery.Finish | corral/Nursery.h:1016-1046 | a task that is over reports its error and leaves, with its destruction queued, also if it is itself cancelled while it reports; it ends in a step or by a confirmed cancellation |
| Nurseries.Nursery.Await | corral/Nursery.h:488-514 | a start that has not been signalled counts as pending; an early cancellation reaches its task once |
| Nurseries.Nursery.CancelStart | corral/Nursery.h:522-528 | cancelling a start issues the task's one cancel(), after which it will not be handed over |
| Nurseries.Nursery.Signal | corral/Nursery.h:539-582 | a task without an awaiter is handed over exactly if its start was not cancelled; it then moves from pending to listed and is cancelled if the nursery is; a closed nursery fails the assertion |
| Nurseries.Nursery.HandOver | corral/Nursery.h:539-582 | a task that is suspended is handed over exactly if its start was not cancelled and the nursery is open; on a cancelled nursery it gets its cancel() first, with anything happening meanwhile, itself ending included; it is overtaken exactly if the nursery is closed then and it has not ended; never if the nursery is not being cancelled and, while no task takes a step, only if it was exposed at the call |
| Nurseries.Nursery.Enlist | corral/Nursery.h:744-753 | after a hand-over, no live task is listed on a closed nursery, if and only if that was so before and either the nursery is open or the task has ended |
| Nurseries.Nursery.EndEarly | corral/Nursery.h:710-742 | a task that ends while it is being handed over leaves the count one short until it is listed, and the nursery closes, or not, by that count |
| Nurseries.Nursery.FinishStart | corral/Nursery.h:554-560 | a start that ends without handing over leaves the parent waiting for nothing exactly if it was all there was |
| Nurseries.Nursery.RunCallback | corral/Nursery.h:730-740 | when the parent is resumed nothing else is queued; no start is pending, unless one was awaited on a closed nursery; and there are no tasks and no live frames, unless a task was overtaken |
| Nurseries.AnyRun | corral/Nursery.h:488-783 | over every run: the parent is resumed at most once, with no starts pending (but those awaited on a closed nursery) and, unless a task was overtaken, with no tasks and all frames destroyed; if no suspended task is handed over while the nursery is being cancelled, none is ever overtaken; every task gets at most one cancel(), and exactly one if listed while the nursery is cancelled; the stored error is the first reported; the nursery can be left open with nothing to wait for only by an unsignalled start or a task that ends during its hand-over |
| Nurseries.JoinClosesOverStart | corral/Nursery.h:1103-1109 | counterexample: join() closes an unsafe nursery over a pending start, whose hand-over then fails the assertion |
| Nurseries.LeftOpenByQuietStart | corral/Nursery.h:554-560 | counterexample, from construction: a start that ends unsignalled leaves the parent waiting for nothing |
| Nurseries.ClosesOverHandedTask | corral/Nursery.h:562-582 | counterexample, from construction: a task handed over while it is suspended is cancelled before it is listed, its cancellation ends the other task, and the parent's resumption is queued although it is still running |
| Nurseries.MayBeOvertaken | corral/Nursery.h:562-582 | the converse: in every nursery, any task that is exposed when it is handed over may be overtaken, by tasks that confirm their cancellation and, without a parent, by one that joins; exposed means that the nursery is open and being cancelled, every listed task can confirm its cancellation, and, with a parent waiting, so can every start and there is somebody else to do so |
| Nurseries.LeftOpenByHastyTask | corral/Nursery.h:744-753 | counterexample, from construction: a task that ends during its hand-over keeps the nursery from closing when the last task leaves |
| Channels.WokenInOrder | corral/Channel.h:575-581 | waking takes the longest-parked awaiters, as many as there is unclaimed supply, each with a claim; afterwards nobody is parked or nothing is unclaimed |
| Channels.Channel.WakeReceivers | corral/Channel.h:575-581 | the loop keeps all channel invariants, even if each woken task runs there and then and re-enters the channel, other wake loops and close() included; it ends; and if none does, exactly those of the specification are woken |
| Channels.Channel.WakeSenders | corral/Channel.h:668-674 | the same for senders and free slots |
| Channels.Channel.Bounded | corral/Channel.h:273-275 | a new bounded channel is valid and empty |
| Channels.Channel.Unbounded | corral/Channel.h:268-268 | a new unbounded channel is valid and empty |
| Channels.Channel.NewReceiver | corral/Channel.h:526-533 | claims at construction exactly if it has something to do and there is an unclaimed element, counted from the awaiters that have a claim; nobody else is affected |
| Channels.Channel.SuspendReceiver | corral/Channel.h:495-507 | parks exactly if every element is claimed, behind everybody else; claims one otherwise |
| Channels.Channel.CancelReceiver | corral/detail/ParkingLot.h:55-59 | leaves the queue; the others stay in it in the same order, and all claims remain |
| Channels.Channel.DestroyReceiver | corral/Channel.h:488-493 | an unused claim passes to the one parked for longest, who is woken; without one the queue just loses the awaiter |
| Channels.Channel.TakeOne | corral/Channel.h:583-596 | an element is taken from the front exactly if it was claimed or one is unclaimed; nobody else's claim is touched, and senders are woken |
| Channels.Channel.TakeMany | corral/Channel.h:598-631 | takes the first min(n, own claim + unclaimed) elements in order |
| Channels.Channel.Receive | corral/Channel.h:537-548 | a receiver that has claimed always gets an element, the front one |
| Channels.Channel.ReceiveMany | corral/Channel.h:537-548 | a bulk receiver that has claimed gets at least one element, in order, and leaves enough for all other claims |
| Channels.Channel.TryReceive | corral/Channel.h:583-596 | succeeds exactly if there are more elements than claims, and takes no claimed one |
| Channels.Channel.TryReceiveMany | corral/Channel.h:598-631 | takes min(n, elements - claims) elements in order |
| Channels.Channel.NewSender | corral/Channel.h:526-533 | claims at construction exactly if it has something to do and there is an unclaimed slot, counted from the awaiters that have a claim; nobody else is affected |
| Channels.Channel.SuspendSender | corral/Channel.h:495-507 | parks exactly if every slot is claimed, behind everybody else; claims one otherwise |
| Channels.Channel.CancelSender | corral/detail/ParkingLot.h:55-59 | leaves the queue; the others stay in it in the same order, and all claims remain |
| Channels.Channel.DestroySender | corral/Channel.h:488-493 | an unused claim passes to the one parked for longest, who is woken; without one the queue just loses the awaiter |
| Channels.Channel.PutOne | corral/Channel.h:681-695 | delivers exactly if claimed or a slot is unclaimed; an assertion fails exactly if a claimed sender finds the channel closed |
| Channels.Channel.PutMany | corral/Channel.h:697-760 | delivers the longest prefix that fits own claim and unclaimed space; an assertion fails exactly on a closed channel that is unbounded or on which the sender has a claim |
| Channels.Channel.Send | corral/Channel.h:537-548 | a claimed sender delivers its element, unless the channel has been closed since, which is exactly when an assertion fails |
| Channels.Channel.SendMany | corral/Channel.h:537-548 | a claimed bulk sender delivers at least one element; exact condition for the failed assertion |
| Channels.Channel.TrySend | corral/Channel.h:681-695 | delivers exactly if the channel is open and elements plus claims leave a slot; never fails an assertion |
| Channels.Channel.TrySendMany | corral/Channel.h:697-760 | delivers as much as fits beside the claims; fails an assertion exactly on a closed unbounded channel |
| Channels.ClaimedSendFails | corral/Channel.h:681-695 | counterexample, from construction: a sender claims a slot, the channel is closed, and its send fails the assertion |
| Channels.BulkSendFails | corral/Channel.h:697-760 | counterexample, from construction: a bulk send on a closed unbounded channel fails the assertion |
| Channels.Channel.Close | corral/Channel.h:790-794 | everybody parked is woken, in order, and claims and elements stay; nobody is parked afterwards, whatever woken tasks do meanwhile |
| Channels.Channel.AnyRun | corral/Channel.h:462-794 | over every run up to a failed assertion, which takes a closed channel, with woken tasks running inside any wake loop: everything sent is everything received followed by the buffer; claims never exceed elements; claims plus elements never exceed a bounded capacity, which never grows; a parked receiver means all elements are claimed, a parked sender all slots, and on a closed channel nobody is parked |
| RingQueue.Queue.constructor | corral/detail/Queue.h:53-59 | a new queue of any capacity, zero included, is empty |
| RingQueue.Queue.Front | corral/detail/Queue.h:90-90 | the first element of the sequence |
| RingQueue.Queue.PushBack | corral/detail/Queue.h:99-108 | appends one element to the sequence, growing exactly if full; a cell is live exactly if it belongs to the sequence |
| RingQueue.Queue.PopFront | corral/detail/Queue.h:91-97 | removes the first element, also at the end of the buffer |
| RingQueue.Queue.Append | corral/detail/Queue.h:130-151 | appends a range, in one piece or wrapped around, growing exactly if it does not fit |
| RingQueue.Queue.PopFrontTo | corral/detail/Queue.h:153-175 | moves out the first n elements in order, also across the end of the buffer, including a full one |
| RingQueue.Queue.ForEachItem | corral/detail/Queue.h:121-128 | applies a function to each element once, in order |
| RingQueue.Queue.Grow | corral/detail/Queue.h:196-203 | keeps the sequence, from a wrapped or full buffer too; the new capacity is the maximum of 8, the request and twice the old one |
| IntrusiveLists.Item.Unlink | corral/detail/IntrusiveList.h:41-47 | from whichever list holds the item, or none: afterwards the links represent the same lists without it, and it has no links |
| IntrusiveLists.UnlinkedEverywhere | corral/detail/IntrusiveList.h:41-47 | unlinking takes an item out of every list and leaves each otherwise unchanged and in order |
| IntrusiveLists.PushedEverywhere | corral/detail/IntrusiveList.h:134-140 | pushing takes an item out of every list, makes it the last of this one and leaves everything else in order |
| IntrusiveLists.LinkedOrLoose | corral/detail/IntrusiveList.h:42-42 | an item has both links exactly if it is in a list, so the test in unlink() is right |
| IntrusiveLists.Item.PushBack | corral/detail/IntrusiveList.h:134-140 | the item leaves the list it was in and becomes the last of this one; all rings stay disjoint and consistent |
| IntrusiveLists.Item.Move | corral/detail/IntrusiveList.h:94-111 | the new list represents the old one's sequence, and the old one is empty; every other list is untouched |
| IntrusiveLists.Item.Clear | corral/detail/IntrusiveList.h:116-120 | every item is unlinked, the list is empty, other lists are untouched, and the loop ends |
| IntrusiveLists.Item.Dispose | corral/detail/IntrusiveList.h:114-114 | a destroyed list leaves its items loose and every other list consistent |
| IntrusiveLists.Item.Empty | corral/detail/IntrusiveList.h:122-122 | exactly if the sequence is empty |
| IntrusiveLists.Item.ContainsOneItem | corral/detail/IntrusiveList.h:124-126 | exactly if the sequence has one item |
| IntrusiveLists.Item.Front | corral/detail/IntrusiveList.h:128-128 | the first item of the sequence |
| IntrusiveLists.Item.PopFront | corral/detail/IntrusiveList.h:130-130 | removes the first item of the sequence |
| ParkingLots.Lot.Cancel | corral/detail/ParkingLot.h:55-59 | a cancelled awaiter is in no list, wherever it was, and has no handle |
| ParkingLots.Lot.Register | corral/detail/ParkingLot.h:47-53 | a new awaiter is in no list |
| ParkingLots.Lot.Suspend | corral/detail/ParkingLot.h:68-71 | the awaiter becomes the last of the lot, behind all others in their order |
| ParkingLots.Lot.Unpark | corral/detail/ParkingLot.h:72-75 | an awaiter in a list always has a handle, which is resumed once; this is the call's one wake-up; whatever runs meanwhile cannot add to, or wake from, another list |
| ParkingLots.Lot.UnparkOne | corral/detail/ParkingLot.h:97-101 | wakes the awaiter parked for longest and nobody else; does nothing on an empty lot |
| ParkingLots.Lot.UnparkAll | corral/detail/ParkingLot.h:104-109 | wakes, in the order of the queue and of time, exactly those parked at the call that do not leave before their turn: these are all the wake-ups that the call makes itself, so nobody parked during it is woken by it, whatever is parked, cancelled or woken re-entrantly; if nothing interferes, everybody is woken and the lot is empty; the loop ends |
| Semaphores.Semaphore.constructor | corral/Semaphore.h:45-45 | all initial permits are available |
| Semaphores.Semaphore.TryAcquire | corral/Semaphore.h:136-142 | succeeds exactly if a permit is available, and never ahead of a parked awaiter |
| Semaphores.Semaphore.NewAwaiter | corral/Semaphore.h:96-97 | an awaiter borrows a permit at construction exactly if there is one |
| Semaphores.Semaphore.Suspend | corral/Semaphore.h:110-119 | parks at the end of the queue exactly if there is no permit, and is granted one otherwise |
| Semaphores.Semaphore.Cancel | corral/detail/ParkingLot.h:55-59 | a cancelled awaiter leaves the queue, and no permit is lost |
| Semaphores.Semaphore.Resume | corral/Semaphore.h:121-126 | the task gets the permit that was borrowed or granted |
| Semaphores.Semaphore.Release | corral/Semaphore.h:148-159 | with waiters the permit goes to the one parked for longest and the value stays; otherwise the value grows by one |
| Semaphores.Semaphore.Destroy | corral/Semaphore.h:102-106 | a borrowed permit that was not needed is passed on; an awaiter without one changes no permit |
| Semaphores.Semaphore.AnyRun | corral/Semaphore.h:96-159 | over every run of a new semaphore: value plus permits with awaiters plus permits taken equals initial plus released; a parked awaiter means value 0; permits are handed out in the order of parking among those that did not leave |

## Left out

- Nurseries.Nursery.Finish: an error in an unsafe nursery that nobody has joined ends the process (Nursery.h:1017-1021), so a parent is required for it; and a task that ends after its nursery was closed over it finds no executor (Nursery.h:710-742), so the nursery must be open.
- Nurseries.Nursery.HandOver: no callback of the nursery runs inside a call (nor inside `Nurseries.Nursery.CancelStart` and `Nurseries.Nursery.Environment`), as it does when the call comes from outside the executor, where the frame of a task that ends is destroyed at once.
- Nurseries.Nursery.BodyReady: a body that is ready after the tasks it had started have closed the nursery already.
- Nurseries.AnyRun: does not claim that a nursery eventually closes; it says which starts and hand-overs can prevent it.
- Combiner: combiners over a range with no children, which are ready at once.
- Channels.Channel.Bounded: size_t overflow of the buffer arithmetic.
- Semaphores.Semaphore.Destroy: an awaiter is not destroyed between being given a permit and being resumed, as the awaiter protocol demands.
- Executors.StepInv: capture(), explicit drain(), executors of different event loops and destruction of an executor.
- PoolTheorems.Progress: weak memory orders (atomics are interleaved), the spin cutoff, blocked signals, and destruction of the pool from inside a tick.
- RingQueue.Queue.PushBack: exceptions from element constructors, and copying instead of moving.
- Shared, With, Sequence, TryBlock, Value, Event and callback portals.
- Error policies, concepts and other compile-time typing; the bit packing of pointers and values.
- The asio and Qt event loops, introspection, stack traces and the sample programs.
