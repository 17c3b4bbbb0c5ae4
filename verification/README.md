# A model of ChronosXServer

ChronosXServer is a soft real-time transaction server. Refresh transactions keep data items
fresh, user transactions read and write them, and a feedback loop keeps the response time of
user transactions near a bound. This project models the parts in which several functions or
several threads have to agree, and proves what the server relies on:

- **Thread pool** (`JobQueue.dfy`, `ThreadPool.dfy`, `PoolSafety.dfy`, `PoolProgress.dfy`,
  `PoolWait.dfy`, `PoolDisposal.dfy`, `PoolShutdown.dfy`): the linked job queue as a class over
  a chain of nodes; workers, clients, callers of `thpool_wait` and the caller of
  `thpool_destroy` as one state machine.
- **Ready queue** (`ReadyQueue.dfy`, `QueueMonitor.dfy`, `QueueShutdown.dfy`): the ring array as a
  class, and the monitor around it (one mutex, two condition variables, timed waits, a die
  check) as a state machine.
- **Request path** (`Server.dfy`, `Handshake.dfy`, `Answers.dfy`, `Departure.dfy`,
  `Scheduling.dfy`): handlers that hand out pointers to their own stack cells and poll them,
  and processing threads.
- **Statistics** (`EventLog.dfy`, `Stats.dfy`): per-thread counters and the ring of samples as
  classes, against the plain log of recorded transactions.
- **Adaptive update policy** (`Aup.dfy`, `AupHistory.dfy`, `UpdateCycle.dfy`): the item array
  as a class, calls as functions on its value, and the update threads that share it as a
  state machine.
- **Overload controller** (`Controller.dfy`, `Feedback.dfy`): its arithmetic, its context
  fields as a class, runs of samples, and the loop from the recorded transactions through the
  samples to the admission delay.

## How it is modelled

- A state machine has a label for every step, a predicate that says when the step is enabled,
  and a function that gives the next state; a run is a sequence of labels. A theorem about
  `Exec(Init(...), ls)` for any valid `ls` is therefore about every interleaving of any number
  of threads. One step is one critical section, or one access to a shared volatile outside of
  one; volatiles are sequentially consistent. Where a critical section takes a second lock in
  its middle it is two steps.
- A signal wakes at least one sleeper if there is one; sleepers may also wake spuriously, and
  in the ready queue by a timeout (IEEE Std 1003.1-2017, System Interfaces,
  pthread_cond_timedwait). Whoever gets the mutex first may go first.
- Statements of the form "once the threads have settled" speak of runs of the threads' own
  steps - no new call, no spurious wake-up, no timeout - and a bound on the length of such runs
  is proved beside them. Jobs are assumed to return.
- Fields such as `added`, `pulled`, `late`, `accepted`, `outcome`, `stamps` and `chosen` are
  history: no step depends on them.
- Capacity, number of sample slots (at least two), thread counts, `beta` and `alpha` are
  symbolic. Counters and tickets are unbounded integers, floating-point values are reals, and
  conversions to integers truncate towards zero as in C.
- A worker's last decrement and its unlock of `thcount_lock` are one step, so the pool is not
  freed between the two. Jobs may be added until the destroyer has seen the last worker leave.
- The user queue of the request path is a sequence; `Server.EnqueueIsPut` and
  `Server.DequeueIsTake` show that the ring buffer implements it step by step. The refresh
  queue there is a number, because only its length decides anything.
- The parallel arrays of the statistics ring are one array of records. The sampler is always
  given the same thread counters, whose log only grows, and reads them in one step:
  with one processing thread the same thread records and samples.

## Where the code does less than it seems to

- **`thpool_wait`.** The comment at `thpool.c:196` promises every caller that it waits until all
  jobs have finished. Three things can keep a caller from returning. The worker that finishes
  the last job signals one waiter only (`thpool.c:373`), so of two callers one can stay asleep
  over an idle pool. A pool with no worker never takes a queued job. And `thpool_destroy` does
  not look whether anybody is inside `thpool_wait`: workers leave over queued jobs, and the pool
  is freed under a sleeping caller. `PoolWait.CallersReturnExactlyWhen` gives the exact
  condition for runs that do not call `thpool_destroy` over a caller - nobody calls
  `thpool_wait`, or one caller at a time in a pool with a worker - with the failing runs in
  `PoolWait.SecondWaiterIsForgotten` and `PoolWait.NobodyServes`. `PoolDisposal` has the rest:
  without that precaution callers return, and a freed pool stays untouched, exactly when nobody
  calls `thpool_wait` at all (`PoolDisposal.DisposalIsSafeExactlyWhen`); with it a freed pool is
  never touched (`PoolDisposal.FreedPoolIsUntouched`).
- **More than one processing thread.** The `-t` option (`startup_server.c:894`) accepts any
  number of processing threads, but the reply pointers stay valid only if there is at most
  one, the configured default (`server_config.h:37`): a second thread that ends the experiment
  lets a handler return while the first one still writes to its stack cells.
  `Handshake.CellsAreLiveExactlyWhen` gives the exact condition.
- **Number of relaxations.** The comment at `tests/test_aup.c:29` expects about eight; with the
  cap 2.0 of the configuration (`server_config.h:72`) an item relaxes seven times and then stays
  (`Aup.DefaultCapAdmitsSevenSteps`).
- **Binary semaphore.** The comment at `thpool.c:543` speaks of a wait until the value is 0; the
  code waits until it is 1, and so does the model.

## Model

| member | source | states |
|---|---|---|
| JobQueues.JobQueue.PushJob | thpool.c:434-455 | the chain holds the old jobs followed by the new one, and the semaphore bit is set |
| JobQueues.JobQueue.PullJob | thpool.c:465-491 | hands out the oldest job and removes it, none from an empty queue; the bit is set if jobs remain and untouched otherwise |
| JobQueues.JobQueue.Clear | thpool.c:418-429 | terminates with an empty chain and the bit cleared |
| JobQueues.JobQueue.WalkVisitsAll | thpool.c:434-491 | following `prev` from `front` visits the queued jobs in order, as many as `len`, and then reaches null |
| JobQueues.FirstInFirstOut | thpool.c:434-491 | for any sequence of pushes and pulls, the jobs handed out followed by those still queued are the initial ones followed by the pushed ones |
| PoolSafety.StepKeepsInv | thpool.c:345-551 | every step of any worker, client, waiter or destroyer keeps the whole pool invariant |
| PoolSafety.CountersAreExact | thpool.c:353-381 | in every reachable state `num_threads_working` is the number of workers between increment and decrement, `num_threads_alive` the number that started and have not left |
| PoolSafety.NoStrandedJob | thpool.c:349-378 | in a live pool with jobs queued the bit is set, an adder owes its post or a worker is between `bsem_wait` and its pull; a set bit with sleepers has a woken worker; and unless an adder still owes its post some worker is awake |
| PoolSafety.ExactlyOnce | thpool.c:176-193 | every added job is in exactly one place: queued, held by exactly one worker, finished, or discarded after the pool was freed |
| PoolSafety.PulledInOrder | thpool.c:359-368 | along any run the jobs pulled are consecutive in the order of addition, none skipped or repeated |
| PoolSafety.ReadWorkingIsSound | thpool.c:199-202 | a waiter that reads a working count of 0 after a length of 0 leaves only when all jobs it knew of are finished |
| PoolSafety.WakesOnlyWhenIdle | thpool.c:370-375 | a worker wakes callers of `thpool_wait` only when it leaves nobody working, and then at least one of those that sleep |
| PoolSafety.WaitIsSound | thpool.c:197-203 | when `thpool_wait` returns, every job added before its final read of the length has finished, or was discarded with the pool |
| PoolSafety.ShutDownIsOrderly | thpool.c:207-242 | after `threads_keepalive` is cleared each worker takes at most one more job, and the queue is cleared only when every worker has left |
| PoolProgress.OwnRunsAreBounded | thpool.c:349-378 | the pool's own steps from a state number at most the effort of that state, under every schedule |
| PoolProgress.SomeOwnRunSettles | thpool.c:349-378 | from every state of the invariant some own run reaches a state with no own step left |
| PoolProgress.SettledShape | thpool.c:526-551 | in a settled pool every worker is blocked on the semaphore or gone, no lock is held, and no worker is blocked over a set bit |
| PoolProgress.AllWorkGetsDone | thpool.c:349-378 | however a live pool with a worker was driven and however it is scheduled from there, once it has settled the queue is empty and exactly the added jobs have finished |
| PoolWait.SingleWaiterReturns | thpool.c:197-203 | in a pool with a worker whose `thpool_destroy` is not called while the caller is inside, a single caller is outside `thpool_wait` whenever the pool has settled |
| PoolWait.SecondWaiterIsForgotten | thpool.c:370-375 | for any pool with a worker and two callers, a run without `thpool_destroy` that settles with every job done and the second caller asleep |
| PoolWait.NobodyServes | thpool.c:197-203 | for a pool without workers and at least one caller, a run without `thpool_destroy` that settles with a caller inside |
| PoolWait.CallersReturnExactlyWhen | thpool.c:197-203 | in all runs that do not call `thpool_destroy` over a caller, no settled pool has a caller inside `thpool_wait`, if and only if nobody calls it or there is one caller slot and a worker |
| PoolWait.WaitersAreCoveredExactlyWhen | thpool.c:199-201 | the invariant behind it: in every run, whoever sleeps in a pool not yet freed faces queued jobs or a positive working count, if and only if there is at most one caller slot or no worker |
| PoolDisposal.FreedPoolIsUntouched | thpool.c:233-241 | if nobody is inside `thpool_wait` when `thpool_destroy` is called, no step of anybody is enabled once the pool is freed |
| PoolDisposal.FreedPoolIsEmpty | thpool.c:418-429 | once the pool is freed nothing is queued and the bit is cleared |
| PoolDisposal.CallerIsAbandoned | thpool.c:207-214 | for every number of workers and at least one caller, a run in which the workers leave over a queued job and a caller of `thpool_wait` sleeps in the settled pool |
| PoolDisposal.CallerOutlivesPool | thpool.c:233-241 | its continuation: the pool is freed, the sleeper may wake and its next step reads the freed queue |
| PoolDisposal.DisposalIsSafeExactlyWhen | thpool.c:197-242 | over all runs, callers always return if and only if there are none, and a freed pool is never touched if and only if there are none |
| PoolShutdown.RoundReleasesOne | thpool.c:227-231 | one round of post-to-all in a settled pool left to itself, run until it settles again under any schedule, lets exactly one live worker leave |
| PoolShutdown.RoundReleasesSome | thpool.c:227-231 | one round from any reachable polling state, with clients adding jobs, waiters and spurious wake-ups in between, lets at least one live worker leave once the pool has settled |
| PoolShutdown.RoundsCountDown | thpool.c:221-231 | the live counter drops in every such round, and by exactly the number of rounds when the pool is left to itself |
| PoolShutdown.EveryShutDownEnds | thpool.c:207-242 | under every schedule in which the pool settles between polls there are at most as many rounds as live workers, after that many none is left, and then the next two steps of `thpool_destroy` free the pool |
| PoolShutdown.RoundsComplete | thpool.c:227-241 | from every settled pool whose destroyer polls there is a run that frees it: rounds can always be continued to the end |
| PoolShutdown.ShutDownCompletes | thpool.c:207-242 | from every reachable state in which `thpool_destroy` was called there is a run that frees the pool: a shut-down never gets into a dead end |
| ReadyQueues.IndexEquation | chronos_queue.c:134-146 | in every well-formed ring `nextin = (nextout + occupied) mod capacity`, a full ring included |
| ReadyQueues.PutAppends | chronos_queue.c:188-210 | an enqueue keeps the ring well-formed, appends the transaction under the next ticket, and keeps queued tickets consecutive |
| ReadyQueues.TakeRemovesOldest | chronos_queue.c:130-146 | a dequeue keeps the ring well-formed, returns the oldest transaction, leaves the rest in order and the tickets consecutive |
| ReadyQueues.UserPointersAreKept | chronos_queue.c:356-361 | an enqueued user transaction is the last one queued, with its own time stamp, done pointer, result pointer, request and the next ticket |
| ReadyQueues.ReadyQueue.constructor | chronos_queue.c:65-92 | a new queue is empty and has issued no ticket |
| ReadyQueues.ReadyQueue.TryEnqueue | chronos_queue.c:175-200 | one pass of the enqueue section: refuses exactly when full, otherwise appends under the ticket it returns |
| ReadyQueues.ReadyQueue.TryDequeue | chronos_queue.c:118-136 | one pass of the dequeue section: refuses exactly when empty, otherwise removes and returns the oldest with its ticket |
| QueueMonitor.StepKeepsWakeUps | chronos_queue.c:117-149 | every step - barging, spurious wake-ups and timeouts included - keeps the wake-up guarantee |
| QueueMonitor.WakeUpsAreNeverLost | chronos_queue.c:173-214 | in every reachable state without a die request: a sleeping consumer implies that awake consumers are at least as many as queued transactions; symmetrically for producers and free slots |
| QueueMonitor.TicketsNumberTheLog | chronos_queue.c:188-196 | dequeues deliver tickets 1, 2, 3, ... each once, each with the payload and reply pointers of its producer, and the i-th queued slot carries ticket `ticketReq - occupied + i + 1` |
| QueueShutdown.ProducerDecides | chronos_queue.c:175-214 | what a producer does with the mutex: fails if it has waited and the process is dying, stores under the next ticket if there is room, dying or not, and sleeps otherwise |
| QueueShutdown.ConsumerDecides | chronos_queue.c:118-149 | the same for a consumer: fails, takes the oldest transaction and hands out exactly it, or sleeps |
| QueueShutdown.DieMeansAsked | chronos_queue.c:123-127 | in any run the flag is set exactly when somebody asked to die |
| QueueShutdown.DyingCallsEnd | chronos_queue.c:123-185 | after that every call ends within three steps of its own thread, wake-ups included, none of which can be kept from happening; a call that had waited fails and none of its transactions gets into the queue |
| QueueMonitor.OwnRunsAreBounded | chronos_queue.c:117-149 | threads that just go on take a bounded number of steps under every schedule |
| QueueMonitor.WaitersHaveAReason | chronos_queue.c:117-214 | while nobody asks to die, even if no wait times out, settled threads still waiting to dequeue face an empty queue and those waiting to enqueue a full one |
| Server.EnqueueIsPut | chronos_queue.c:340-379 | the enqueue step of the request path is the ring's: it appends time stamp, next ticket, both reply pointers and request, or waits exactly when the ring is full |
| Server.DequeueIsTake | chronos_queue.c:301-338 | the dequeue step of the request path is the ring's, and the thread serves what the ring hands out |
| Server.RefreshIsPut | chronos_queue.c:264-299 | a refresh transaction is stored at the end of its ring with its time stamp, the next ticket, null reply pointers and its request |
| Server.DrainIsTake | chronos_queue.c:227-259 | the thread executes a refresh transaction exactly when the ring hands one out, and the ring keeps representing the refresh queue |
| Handshake.StepKeepsInv | startup_server.c:1792-1884 | every step of handlers and of one processing thread keeps the protocol invariant |
| Handshake.CellsAreLiveExactlyWhen | startup_server.c:1832-1861 | all accesses through `txn_rcP` and `txn_doneP` find a handler that has not returned, in every run, if and only if there is at most one processing thread |
| Handshake.DoneComesLast | startup_server.c:1852-1861 | every access through a reply pointer, the one that sets `txn_done` included, finds `txn_done` still 0 |
| Handshake.DoneIsFinal | startup_server.c:1859-1861 | once `txn_done` is set, the result cell and the answer of that request never change again |
| Handshake.HandlersGetTheirAnswer | startup_server.c:990-1032 | a handler reports the code recorded for its own request, FAIL if there is none or the request is still queued |
| Answers.ReportsAreResults | startup_server.c:1469-1543 | read off the steps of any run: a request is executed at most once, its handler reports the code that this execution stored and FAIL without one, leaves only when answered or dying, and one that could not enqueue was never served |
| Departure.DieMeansExpired | startup_server.c:1880-1884 | in any run `time_to_die` is set exactly when a processing thread found the time expired |
| Departure.HandlersLeave | startup_server.c:1011-1032 | once `time_to_die` is set a handler inside `dispatchTableFn` returns after at most four steps of its own, and until then one of them is always enabled |
| Departure.AnsweredHandlersLeave | startup_server.c:1023-1032 | once its `txn_done` is set a handler returns after at most three steps of its own, and until then one of them is always enabled |
| Departure.ThreadsStop | startup_server.c:1792-1884 | once `time_to_die` is set every processing thread, of any number, stops within one round of its own steps, blocked in a dequeue or not |
| Scheduling.Budgets | startup_server.c:1792-1864 | along any run in which a request stays queued, exactly the requests ahead of it leave the queue, and refreshes and steps are covered by the budget |
| Scheduling.BoundedDelay | startup_server.c:1798-1843 | a request with k requests ahead sees at most k user and (k+1) times capacity refresh transactions taken before it, within (k+1) rounds of steps of the thread |
| Scheduling.BoundedResponse | startup_server.c:1798-1861 | its `txn_done` is set once the thread has taken (k+1) rounds of steps and three more, in any run without shutdown |
| Scheduling.RefreshesGoFirst | startup_server.c:1790-1843 | a refresh transaction with k others ahead of it is taken after at most one user request and within 2k+11 steps of the thread |
| Scheduling.CountsBalance | startup_server.c:1804-1840 | in any run, arrivals of both queues are the counted takes plus what is still queued |
| Scheduling.NeverBlocked | startup_server.c:1798-1843 | until shutdown the only processing thread always has an enabled step and never waits inside a dequeue |
| EventLog.ClocksAgree | stats.c:64-79 | for valid time stamps the millisecond and the microsecond difference agree to within a millisecond |
| EventLog.DiffTimeCountsTicks | stats.c:64-70 | the millisecond difference is the number of millisecond boundaries passed between two valid time stamps |
| EventLog.TimelyFromStamps | stats.c:111-129 | failures are never timely; a success is if it took at most the bound less a millisecond, and is not from the bound plus a millisecond on |
| EventLog.EarlierStaysTimely | stats.c:121-123 | ending earlier never loses timeliness |
| EventLog.MaxTimeIsMax | stats.c:113-115 | the maximal time of a thread and type is the largest duration recorded for it, at least 0 |
| EventLog.DelayOrSlack | stats.c:293-298 | per thread and type delay and slack are not negative, one of them is 0, and together they are the distance from the deadline |
| EventLog.SumsCount | stats.c:286-289 | the counts of transactions and of timely ones are cardinalities of sets of log positions |
| EventLog.TallyGrows | stats.c:113-129 | a recorded transaction changes the counters of its own thread and type, and no others |
| EventLog.GridIsSum | stats.c:282-291 | adding the counters over threads and types counts every recorded transaction of those types exactly once |
| EventLog.GridBalance | stats.c:293-298 | total delay minus total slack is total duration minus threads times types times the deadline, both being non-negative |
| EventLog.TimelyTally | stats.c:119-129 | per thread and type, timely transactions never outnumber successful ones |
| Stats.ThreadStats.constructor | stats.c:85-89 | all counters of an empty log are zero |
| Stats.ThreadStats.Update | stats.c:99-131 | every counter becomes that of the log extended by this transaction; in its cell exactly success or failed grows by one, timely exactly for a success whose number of passed milliseconds is below the bound, the duration by that number; all other cells stay |
| Stats.ThreadStats.Collect | stats.c:282-313 | the loops compute the totals of the log over all threads and types |
| Stats.RingMoves | stats.c:318-352 | the slot to be overwritten holds the totals of `slots` samples ago, its neighbour those of the previous sample, and writing the new sample keeps every other sample of the window in place |
| Stats.ServerStats.constructor | stats.c:170-189 | a new ring stands for an empty history |
| Stats.ServerStats.Aggregate | stats.c:260-355 | appends one sample taken on the present log to the history that the ring represents |
| Stats.WindowMatchesLog | stats.c:337-347 | the window counts are differences of cumulative counts of the log, `slots` samples apart, 0 before the first |
| Stats.PeriodMatchesLog | stats.c:349-352 | the in-period count and duration are those of the user transactions recorded since the previous sample |
| Stats.ServerStats.LastTpm | stats.c:228-233 | the current value is the cumulative total minus the total `slots` samples ago |
| Stats.ServerStats.LastTtpm | stats.c:235-240 | the same for timely transactions, and it lies between 0 and the window's total |
| Stats.ServerStats.LastPeriod | stats.c:200-226 | count and summed duration of exactly the user transactions recorded between the last two samples |
| Stats.ServerStats.LastRefreshes | stats.c:242-254 | number and summed duration of all refresh transactions in the log before the last sample |
| Stats.ServerStats.LastDelayAndSlack | stats.c:207-219 | total delay and slack at the last sample, and their balance against the duration summed over the log |
| Stats.ServerStats.TpmIsSumOfPeriods | stats.c:346-350 | the window total equals the sum of the in-period counts over all slots |
| Stats.SlotsSumUp | stats.c:318-350 | the in-period counts of the slots, in whatever rotation, telescope to the window total |
| Aup.RelaxFirstAt | aup.c:304-323 | exactly the cold items with fewer than the target number of cold items before them are visited, saturated or not; all others are untouched |
| Aup.RelaxedStaysInside | aup.c:313-319 | for any item whatever, a visit multiplies the flexible interval by 1.1 or leaves it, never moves it outside `avi .. beta * avi`, and changes nothing else |
| Aup.ApplyKeepsOk | aup.c:121-334 | every call keeps `fvi = avi * 1.1^k` within `avi .. max(1, beta) * avi`, shrinks no interval, and keeps `p_ext` the mean of `fvi / avi` |
| Aup.ExtensionBounded | aup.c:325-330 | after any sequence of calls `p_ext` lies in `[1, max(1, beta)]` |
| Aup.SomeTopExponent | aup.c:317-319 | for every `beta` there is a largest exponent that the guard admits |
| Aup.RelaxationSaturates | aup.c:313-319 | each visit climbs one power of 1.1 up to the largest exponent under `beta`, and further visits leave the item fixed |
| Aup.LadderOverRuns | aup.c:302-323 | through any sequence of calls an item's interval is `avi` times 1.1 to the number of its visits, capped at that exponent |
| Aup.ExpiredIsExact | aup.c:237-244 | the list of expired items is increasing and holds exactly the expired indices of the range |
| Aup.FirstOfLists | aup.c:237-246 | cut to `array_sz`, the list is increasing, holds only expired indices of the range, and what it leaves out comes after a full list |
| AupHistory.CountersAreCalls | aup.c:121-206 | after any calls the access and update counters of an item are the numbers of increments since their last resets |
| AupHistory.ColdExactlyWhen | aup.c:308 | an item is cold exactly when it was updated more often than accessed since the resets |
| AupHistory.TargetIs | aup.c:302 | the budget is none of the items for a degree up to 0, all from 1 on, and the whole part of the share in between |
| AupHistory.RelaxationReaches | aup.c:302-323 | a relaxation changes exactly the items updated more often than accessed that have fewer such items before them than the budget |
| AupHistory.NewItemsAreDue | aup.c:79-89 | in a new environment every item of a range is expired at any time |
| Aup.AupEnv.constructor | aup.c:54-101 | every item starts at the absolute interval, with zero counters, due at once |
| Aup.AupEnv.AccessIncr | aup.c:121-136 | only the access counter of that item grows by one |
| Aup.AupEnv.AccessReset | aup.c:138-153 | only the access counter of that item becomes 0 |
| Aup.AupEnv.UpdateIncr | aup.c:155-170 | only the update counter of that item grows by one |
| Aup.AupEnv.UpdateReset | aup.c:172-187 | only the update counter of that item becomes 0 |
| Aup.AupEnv.ResetFrequencies | aup.c:190-206 | both counters of every item become 0 and nothing else changes |
| Aup.AupEnv.GetExpired | aup.c:213-247 | fills the array with the first `array_sz` expired indices of the range and then -1s, and returns their number |
| Aup.AupEnv.SetNextUpdate | aup.c:250-280 | reschedules exactly the listed items half their interval ahead, skipping negative entries |
| Aup.AupEnv.RelaxCold | aup.c:302-323 | the loop over the items computes the relaxation of the first cold items |
| Aup.AupEnv.RelaxIntervals | aup.c:288-334 | a call computes the relaxation with the truncated target, and the mean of the ratios after it |
| UpdateCycle.SelectionIsExact | startup_server.c:2063-2072 | a selection is increasing, holds only expired items of the thread's own range, and what it leaves out comes after a full list |
| UpdateCycle.WideListsAreComplete | startup_server.c:2065-2069 | a list as long as the range misses nothing that is due |
| UpdateCycle.RangesAreDisjoint | startup_server.c:1944-1951 | the range of thread t is `t * width` up to `t * width + width`, and ranges of different thread numbers share no item |
| UpdateCycle.ThreadsNeverShare | startup_server.c:1944-1951 | selections of the same item, however far apart in a run, are by the same thread |
| UpdateCycle.DueExactlyWhen | aup.c:240-275 | in every run a rescheduled item is due exactly from `floor(0.5 * fvi)` ms after its rescheduling on |
| UpdateCycle.SelectionsAreSpaced | startup_server.c:2063-2081 | a selected item is held by no thread, has been rescheduled since it was last selected, and at least `floor(0.5 * fvi)` ms have passed since then |
| Controller.AverageIs | performance_monitor.c:3-12 | the average times the number of transactions is their total, and 0 without transactions |
| Controller.DegreeIsExcess | performance_monitor.c:15-24 | the degree is never negative, is 0 without a positive bound, is positive exactly when the average exceeds it, and then determines the average |
| Controller.Context.PerformanceMonitor | startup_server.c:2548-2598 | the fields after one sample are those of the controller step |
| Controller.SmoothedStaysInRange | performance_monitor.c:27-33 | over any samples the smoothed degree stays between 0 and the largest degree seen |
| Controller.SmoothedIsWeighted | performance_monitor.c:27-33 | over any samples the smoothed degree is `(1-alpha)^n` times its start plus the sum of `alpha * (1-alpha)^(later samples)` times each degree |
| Controller.SleepStaysInRange | startup_server.c:2585-2593 | the sleep is never negative, moves by at most 1 per sample, and once at least 1 never drops below 1 |
| Controller.CalmDecays | performance_monitor.c:27-33 | n samples after the last overload the smoothed degree is `(1-alpha)^n` times its value |
| Controller.DecayBound | performance_monitor.c:27-33 | `(1-alpha)^n` is at most `1 / (1 + n * alpha)` |
| Controller.CalmRunSettles | startup_server.c:2567-2585 | after a computable number of calm samples the smoothed degree is at or below 0.001 |
| Controller.SleepFalls | startup_server.c:2585-2593 | from then on the sleep falls by exactly one per sample down to 1; a sleep of 0 or 1 stays |
| Controller.DelayRecovers | startup_server.c:2562-2593 | after a computable number of calm samples the sleep is at most 1 |
| Controller.OverloadIsSeen | startup_server.c:2562-2575 | if in every sample the average exceeds the bound by more than d times, d above 0.001, the smoothed degree is above 0.001 after a computable number of samples |
| Controller.SleepRises | startup_server.c:2585-2587 | from then on the sleep grows by exactly one per sample |
| Controller.DelayBuildsUp | startup_server.c:2562-2587 | both together, from any state of the controller |
| Feedback.QuietPeriodIsCalm | performance_monitor.c:3-24 | a period whose user transactions all last at most the desired delay has degree 0, with or without transactions |
| Feedback.ControlGrows | startup_server.c:2559-2573 | sampling a grown log is one controller step on the transactions recorded since the previous sample |
| Feedback.TakeSample | startup_server.c:1886-1890 | sampling and monitoring keep the context equal to what the log of transactions and the sample times determine |
| Feedback.DelayRecoversFromLog | startup_server.c:2559-2593 | if all user transactions recorded after some sample stay within the desired delay, the sleep is at most 1 a computable number of samples later |
| Feedback.DelayBuildsUpFromLog | startup_server.c:2559-2593 | if in every period after some sample the recorded user transactions took on average more than `1 + d` times the desired delay, the sleep grows by at least one per sample after a computable number of samples |

## Left out

- Sockets, polling, packets, the listener thread, option parsing and usage text.
- Benchmark, environment, cache and request-building calls: a transaction is an arbitrary
  result code, or a failure before or after a result was stored.
- The repeated release of a data packet when releasing it fails (`startup_server.c:1595-1603`):
  it ends in the same failure once a release succeeds.
- LITMUS_RT, core migration and sleeping; clocks are inputs, monotone where that is stated.
- `thpool_pause`, `thpool_resume`, `thread_hold`, and failures to allocate or to create threads.
- The waiting time between the destroyer's polls (one second): only its polls and posts matter.
- NULL-argument and magic-number checks.
- chronos_transactions.h, which numbers the transaction types, is not part of this model: the
  refresh type is taken to be the last of the five, after the four user types.
- The maximum duration and the timely refresh count that the sampler computes and drops, and the
  result counters for aborted and blocked transactions, which nothing writes.
- `period_user_xacts_count_get` and `period_user_xacts_duration_get`: the same sums as the
  sampler's loops, covered by `EventLog.GridIsSum`.
- `stats_print`, the CSV dump and the response-time macros.
- The admission counter of `chronos_ac.c`, `in_period_ds`, `samplingThread` and `qosManager`.
- Update threads outside the adaptive modes, which always refresh their whole range.
- Ranges of update threads that reach beyond the item array, which the code does not check.
- Rounding of floating-point numbers, overflow of 64-bit counters, and weaker memory orders.
