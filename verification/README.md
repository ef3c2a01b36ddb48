# Codexion: the dongle scheduler, verified

The program simulates N coders around a ring of N dongles. Coder i compiles with dongles i and
(i + 1) mod N, then debugs and refactors. Pairs of dongles are handed out by a scheduler that
serves requests first come first served (FIFO) or by earliest deadline (EDF); a dongle put down
has to cool before it can be taken again. A monitor thread announces a burnout, and stops the
run, when it finds that `time_to_burnout` has passed since some coder last started to compile;
the run also stops once every coder has compiled often enough.

The project models four layers and connects them.

* Values. `Table` holds the state guarded by `state_mutex` as a value. `Dispatch`, `Priority` and
  `Progress` say what a dispatch decides: a dispatch is a chain of grants, each allowed when it is
  made, and with the clock standing still the outcome of any exhausted chain is the unique
  solution of a priority rule and the result of one walk through the waiting coders in priority
  order.
* Runs. `Runs` is a timed state machine whose steps are the critical sections of the coders and
  the monitor, freely interleaved with a clock that only moves forward. A dispatch is taken apart
  further: each look of its index-order scan is a step, with the clock readings it makes, and the
  scan ends when a whole pass has served nobody. `ScanEnds`, `Scans`, `Ownership`, `Losses`,
  `Effects`, `Throughput`, `Cycle`, `Punctuality`, `Burnout`, `Completion`, `Aftermath`, `Wakeups`
  and `Protection` prove what holds in every reachable state and over every run, or exactly when
  something holds; `Witnesses` builds concrete runs for what does not hold.
* Locks. `LockProtocol`, `LogOrder` and `Shutdown` look at the critical sections one lock, unlock, test or
  write at a time. `Atomicity` is the program at that grain together with its data, which it
  changes without ever looking at the state machine's mutex, and with the line each coder is to
  log next. `Truthfulness` proves that each of its runs is a run of the state machine, and that
  its burnout and compile lines are what happened; `Chronicle` that the lines of each coder follow
  its cycle; `Realization` that every run of the state machine is one of the program, so that both
  reach exactly the same data.
* Objects. `Scheduler`, `Acquire` and `Lifecycle` are the coder, dongle and application objects
  updated in place, with the loops of the source and a clock that may advance at every reading.
  Each method is proved against the value layer. `Acquire` and `Conformance` prove, section by
  section, that what the objects do is a legal run of the state machine, from any state the other
  threads may have brought about: start-up, the passes of the waiting loop, the tests of the stop
  flag in `coder_routine` and `monitor_routine`, the three sleeps, release, counting, stopping,
  and the monitor's accusation, conviction and line. `log_msg` changes none of that data and is in
  the lock layer. `RequestHeap` and `SoloDongle` are the request heap and its client, `Printing`
  the parser and the line printer on byte buffers, specified by `Decimal`.

A coder with index i has the identifier i + 1. Times are milliseconds.

## Where the code surprises

* A reservation may never be returned. A coder granted its pair by another coder's dispatch can
  wake at or after its old deadline and leave the waiting loop with the pair
  (src/sim/scheduler_pair.c:66-82). `Witnesses.PairCanBeLost` is such a run, `Losses.LostExactly`
  shows that this is the only way, `Ownership.ExitedOwnerKeeps` that both dongles are then lost
  for good, and `Losses.LossPreventsCompletion` that completion is then never reported.
* A waiter past its deadline still keeps its later neighbours from being served while its pair is
  free, because `scheduler_is_best_ready` does not look at deadlines: `Witnesses.ExpiredCoderBlocks`
  is a run. By `Progress.OnlyExpiredKeepWaiting`, with nobody cooling, this is exactly when an
  exhausted dispatch leaves an unexpired waiter whose pair is free.
* The monitor also scans coders that have completed all their compiles, so a burnout can be
  announced for one of them after everyone has finished: `Witnesses.FinishedCoderCanBurnOut` is a
  run, and `Aftermath.BurnoutAfterCompletion` says exactly when it can still happen.
* Two starts of one coder can be `time_to_burnout` apart with no burnout announced, because the
  deadline is tested before the start is read: `Witnesses.StartCanMissDeadline`. By
  `Punctuality.StartsArePunctual` the excess is less than the clock moves during one grant, and
  with the clock standing still during each grant there is none.

## Model

| member | source | states |
|---|---|---|
| `Requests.BeforeIsStrictOrder` | src/sim/scheduler_compare.c:16-25 | The order requests are served in is a strict order under both policies, and requests with different sequence numbers are always comparable. |
| `Requests.NoLaterIsTotalPreorder` | src/sim/scheduler_compare.c:16-25 | "Does not have to be served later" is total and transitive on arbitrary requests, ties included; the heap rests on it. |
| `Requests.OrderSeparates` | src/sim/scheduler_compare.c:16-25 | EDF with its tie-breaks separates any two different requests; FIFO separates exactly those with different sequence numbers. |
| `Requests.OrderIsLexicographic` | src/sim/scheduler_compare.c:16-25 | One request comes before another exactly when its key is lower in dictionary order: the number under FIFO; deadline, number, coder under EDF. |
| `Ring.OverlapIsSharing` | src/sim/scheduler_ready.c:32-36 | The pointer comparison of two requests holds exactly when their pairs share a dongle, which on the ring means the same coder or a neighbour. |
| `Ring.IndependentAtMostHalf` | src/sim/init_simulation.c:52-65 | On the ring that `link_dongles` builds, coders without a common dongle are at most half of all coders. |
| `Ring.DominatingAtLeastThird` | src/sim/init_simulation.c:52-65 | A group that overlaps every coder contains at least a third of them. |
| `Dispatch.ChainEffect` | src/sim/scheduler_dispatch.c:27-62 | Any chain of grants leaves exactly the pairs of its winners taken, changes no other coder or dongle, and its winners share no dongle, also while the clock advances. |
| `Dispatch.ChainIsFair` | src/sim/scheduler_ready.c:45-63 | In any chain of grants a winner's overlapping predecessors had lost a dongle before or to a winner preceding them, and a coder whose free pair a winner took lost to a winner preceding it. |
| `Dispatch.SolutionIsUnique` | src/sim/scheduler_dispatch.c:38-62 | The priority rule, an equation for the set of winners, has at most one solution. |
| `Priority.ExhaustedChainSolves` | src/sim/scheduler_dispatch.c:43-60 | With the clock standing still, the winners of a scan repeated until nothing changes solve the priority rule. |
| `Priority.WalkIsTheSolution` | src/sim/scheduler_dispatch.c:38-62 | One walk in priority order (grant what is claimable, else keep a free pair for the coder that waits for it) solves the same rule. |
| `Priority.DispatchFollowsPriority` | src/sim/scheduler_dispatch.c:38-62 | The repeat-until-stable loop ends, with the clock standing still, in exactly the state the priority walk produces. |
| `Priority.ScanOrderIsIrrelevant` | src/sim/scheduler_dispatch.c:47-59 | Two dispatches from one state agree on winners and final state whatever the order they scan the coders in. |
| `Priority.Queue` | src/sim/scheduler_compare.c:16-25 | The waiting coders can be listed without repetition, each strictly preceding the later ones. |
| `Progress.WaitingIsNotCircular` | src/sim/scheduler_dispatch.c:44-60 | After a dispatch with the clock standing still, a waiter with a free pair heads a finite line of ever higher-priority overlapping waiters that ends in one still cooling or expired. |
| `Progress.OnlyHeldDonglesKeepWaiting` | src/sim/scheduler_dispatch.c:44-60 | With nobody cooling or expired every remaining waiter misses a held dongle, and with nothing held nobody is left waiting. |
| `Progress.OnlyExpiredKeepWaiting` | src/sim/scheduler_ready.c:45-63 | With nobody cooling, an exhausted dispatch leaves an unexpired waiter with a free pair if and only if some waiter past its deadline overlaps and precedes such a waiter. |
| `Progress.FullTableBounds` | src/sim/scheduler_dispatch.c:38-62 | When all coders wait unexpired with every dongle free and cooled, one dispatch serves at least a third (rounded up) and at most half (rounded down), for every request order and both policies. |
| `Progress.ReadyIsServed` | src/sim/scheduler_dispatch.c:43-60 | Also while the clock runs: a waiter nobody blocks, whose pair is ready when the final pass begins and whose deadline is after the end of the dispatch, is among its winners. |
| `Progress.UnblockedIsServed` | src/sim/scheduler_ready.c:45-63 | Whoever is eligible when a dispatch starts at a standing clock is among its winners. |
| `Runs.Join` | src/sim/sim.c:55-79 | Runs compose: a run followed by a run is a run, ending where the second one does. |
| `ScanEnds.ScanFinishes` | src/sim/scheduler_dispatch.c:43-60 | From wherever a scan stands, finitely many looks at a standing clock bring it to its end, the number of waiters, passes and looks left going down. |
| `Scans.NobodyLeftBehind` | src/sim/scheduler_dispatch.c:43-60 | In every run, whatever the clock does, a coder leaves its dispatch only when whoever was ready and best as the last pass began is past its deadline. |
| `Scans.LastPassIsLast` | src/sim/scheduler_dispatch.c:43-60 | In every run the pass that ends a dispatch began after everything reserved so far. |
| `Ownership.RunsAreSound` | src/sim/scheduler_pair.c:62-83 | In every reachable state the place each thread is at agrees with the mutex, its request and flags (a waiter's deadline is its last start plus `time_to_burnout`, sequence numbers are distinct), and with who owns which dongle. |
| `Ownership.OwnershipInEveryRun` | src/sim/scheduler_dispatch.c:27-35 | In every run a dongle is unavailable exactly when a coder owns it; coders own both dongles or neither; neighbours never own together; at most half own; and only an owner comes to release. |
| `Effects.ReleasedPairCools` | src/sim/release.c:26-38 | A pair put down at time t is ready from t plus the cooldown on, not earlier and not later; no other dongle and no coder changes. |
| `Effects.CooledIsReady` | src/sim/scheduler_pair.c:33-39 | The later of the two cooling times is the first time at which a free pair is ready. |
| `Effects.EnteringRegisters` | src/sim/scheduler_pair.c:17-24 | A registration carries the next number and the deadline of the coder's last start, the coder waits ungranted, and nobody else changes. |
| `Effects.GivingUpClears` | src/sim/scheduler_pair.c:78-82 | Giving up leaves the coder neither waiting nor granted, and everything else as it was. |
| `Effects.RequestsAreNumbered` | src/sim/scheduler_pair.c:17-24 | In every run the next sequence number is the number of registrations so far. |
| `Effects.AccusedExactly` | src/sim/monitor.c:21-25 | The monitor can accuse a coder exactly when it has a positive last start and `time_to_burnout` has passed since. |
| `Effects.CompletionIsReported` | src/sim/sim.c:36-44 | Counting a compile reports completion exactly when a number is required and the count brings everybody to it; otherwise the coder debugs for `time_to_debug`. |
| `Ownership.GrantedSleeperLeaves` | src/sim/scheduler_pair.c:66-82 | A sleeper granted by another thread's dispatch leaves with the pair if and only if the run is stopped or its old deadline has passed; otherwise it can scan to the end and go on to compile. |
| `Ownership.ExitedOwnerKeeps` | src/sim/scheduler_pair.c:78-82 | A coder that exits owning its pair owns it in every continuation, and neither dongle becomes available again. |
| `Losses.LostExactly` | src/sim/scheduler_pair.c:62-83 | A step loses a pair, its coder leaving with it, if and only if it is the giving up of a coder that somebody else's dispatch has granted; this takes a stop or a deadline that has passed. |
| `Losses.ExitCount` | src/sim/sim.c:62-70 | A coder leaves with a compile reserved but not counted exactly when it gives up a granted pair or sees the stop between releasing and counting. |
| `Losses.LossPreventsCompletion` | src/sim/sim.c:81-95 | A coder that lost its pair stays short of the required compiles in every continuation, and completion is never reported. |
| `Throughput.RunsAreTimely` | src/sim/release.c:26-38 | In every run compiles last at least `time_to_compile` unless stopped, and reservations sharing a dongle are one compile and one cooldown apart. |
| `Throughput.DongleSpacing` | src/sim/scheduler_ready.c:16-22 | Any two reservations of one dongle in any run are at least `time_to_compile + dongle_cooldown` apart. |
| `Throughput.SpacingBoundsRate` | src/sim/scheduler_dispatch.c:27-35 | Spacing alone bounds the rate: intervals of length T see at most floor(N/2) * (floor(T/P) + 1) starts. |
| `Throughput.ThroughputBound` | src/sim/scheduler_dispatch.c:27-35 | In any run, every closed interval of length T contains at most floor(N/2) * (floor(T/P) + 1) compile starts, with P = `time_to_compile + dongle_cooldown` > 0. |
| `Cycle.RoundSpacing` | src/sim/sim.c:62-77 | Two compiles of one coder start at least compile + debug + refactor time apart in every run, stop included. |
| `Punctuality.StartsArePunctual` | src/sim/scheduler_dispatch.c:50-55 | In every run whose grants take at most d from testing the deadline to reading the start, successive starts of a coder are less than `time_to_burnout` + d apart, and so is its first from the start of the run; with d = 0 no start is late. |
| `Burnout.LateForever` | src/sim/scheduler_dispatch.c:50-55 | Once `time_to_burnout` has passed since a coder's last start, no continuation of the run changes that start again. |
| `Burnout.RunsJudgeRightly` | src/sim/monitor.c:17-31 | Between the monitor's check, its unlocking and its verdict the accused coder stays past its deadline; a verdict implies the run is stopped. |
| `Burnout.BurnoutIsTrue` | src/sim/monitor.c:17-31 | Whenever the burnout line is written its coder is past its deadline at that time, and no continuation makes that untrue or writes another verdict. |
| `Burnout.NothingStartsAfterStop` | src/sim/scheduler_pair.c:66-77 | The stop flag is never cleared and no compile starts after it is set. |
| `Completion.RunsAreCounted` | src/sim/sim.c:31-45 | In every run each coder's reservations equal its counted compiles, plus one while a compile is in flight, until it exits; an exited coder's are ahead by at most one, and `Losses.ExitCount` says when. |
| `Completion.CompletionInEveryRun` | src/sim/sim.c:18-95 | No coder compiles more often than required; completion is reported at most once, and then exactly N * required reservations have been made with none in flight. |
| `Aftermath.DoneIsFinal` | src/sim/sim.c:18-28 | A coder that `coder_is_done` finds done stays done and never starts again, so it is past its deadline from a fixed instant on. |
| `Aftermath.BurnoutAfterCompletion` | src/sim/monitor.c:17-48 | Once completion has been reported, a burnout line can still follow if and only if it is written or being written already, or the run is not yet stopped and some coder has a start the monitor looks at. |
| `Wakeups.RunsKeepTimers` | src/sim/scheduler_pair.c:46-59 | In every run the timer of an unsignalled sleeper is no later than the one it would set in the current state, and exactly that one while nobody is inside, because every step that changes the answer broadcasts; there is at most one such sleeper. |
| `Wakeups.NoMissedWakeup` | src/sim/scheduler_pair.c:27-59 | In every reachable state, somebody inside or not, an unsignalled sleeper wakes no later than the larger of one millisecond after it fell asleep and the first time at which passing time alone makes it eligible or expired, up to the time that passed between reading the clock and sleeping. |
| `Wakeups.TimerIsNotEarly` | src/sim/scheduler_pair.c:46-59 | The other way round, while nobody is inside: by the end of its timer the sleeper's pair has cooled or its deadline has come, and not a millisecond earlier when the timer runs for more than one. |
| `Wakeups.StopWakesEverybody` | src/sim/sim_helpers.c:53-76 | In every run, once the stop flag is set no sleeper still relies on its timer. |
| `Wakeups.OneUnsignalledSleeper` | src/sim/scheduler_dispatch.c:61 | At most one sleeper at a time relies on its timer; all others have been signalled. |
| `Wakeups.SleepLeavesNobody` | src/sim/scheduler_pair.c:66-77 | While nobody has moved since the last coder fell asleep, whoever was ready and best when its last pass began was past its deadline when it fell asleep. |
| `Protection.ProtectionStep` | src/sim/scheduler_ready.c:45-63 | A waiter with both dongles free that precedes every overlapping waiter stays so after a step if and only if the step is not its own service, its own leaving, or (EDF) the registration of an overlapping request with an earlier deadline; no step serves an overlapping coder meanwhile. |
| `Protection.NotOvertaken` | src/sim/scheduler_ready.c:45-63 | Over whole runs such a waiter keeps both dongles free and no overlapping coder starts a compile until it is served or leaves. |
| `Protection.FifoNotOvertaken` | src/sim/scheduler_pair.c:17-24 | Under FIFO, where later registrations get larger sequence numbers, waiting on is all it takes: whatever the others do, both dongles stay free and no overlapping coder is served meanwhile. |
| `Protection.ProtectedIsServed` | src/sim/scheduler_dispatch.c:38-62 | The first exhausted dispatch at a standing clock, after both cooldowns and before the deadline, serves a protected waiter. |
| `Protection.ProtectedIsNotLeft` | src/sim/scheduler_dispatch.c:43-60 | In every run, whatever the clock does, no dispatch whose last pass began after both dongles of a protected waiter had cooled ends before its deadline without having served it. |
| `Witnesses.PairCanBeLost` | src/sim/scheduler_pair.c:66-82 | A concrete run of two coders in which a granted coder exits with its pair, neither stopped nor burned out. |
| `Witnesses.FinishedCoderCanBurnOut` | src/sim/monitor.c:34-48 | A concrete run in which all coders have completed, completion is reported, and the burnout of a finished coder is still announced. |
| `Witnesses.StartCanMissDeadline` | src/sim/scheduler_dispatch.c:27-55 | A concrete run in which one coder starts twice exactly `time_to_burnout` apart, the clock moving one millisecond within a grant, and no burnout is announced. |
| `Witnesses.ExpiredCoderBlocks` | src/sim/scheduler_ready.c:56-59 | A concrete run after which a scan has ended with nothing held and everything cooled, and yet an unexpired waiter is not served, because of one that has expired. |
| `Scheduler.App.constructor` | src/sim/dongle_init.c:73-92 | A new application: every dongle free, every coder idle with its identifier, all objects distinct and linked as the ring. |
| `Scheduler.App.LinkDongles` | src/sim/init_simulation.c:52-65 | Linking leaves all coders and dongles as they were and links coder k to dongles k and (k + 1) mod N. |
| `Scheduler.NextIsModulo` | src/sim/init_simulation.c:62 | The right dongle of the ring model is the one the source's modulo names. |
| `Scheduler.App.DongleReady` | src/sim/scheduler_ready.c:16-22 | True means available and cooled at some time read during the call; false means not ready when the call began. |
| `Scheduler.App.SchedulerPairReady` | src/sim/scheduler_ready.c:25-29 | True means each dongle was ready at its own reading, left before right; false means the pair was not ready when the call began. |
| `Scheduler.App.PointersTell` | src/sim/scheduler_ready.c:32-42 | The pointer tests on coder objects decide overlap and pair availability of the table. |
| `Scheduler.App.SchedulerIsBestReady` | src/sim/scheduler_ready.c:45-63 | True exactly when no other waiting coder with a free pair overlaps and precedes this one. |
| `Scheduler.App.LogReservation` | src/sim/scheduler_dispatch.c:17-24 | Appends exactly the three lines of the reservation, stamped in order by the clock since the start of the run and none before the call, and nothing else. |
| `Scheduler.App.ReservePair` | src/sim/scheduler_dispatch.c:27-35 | Takes both dongles, marks the coder served with a start read during the call, changes nothing else in the table, and logs the reservation. |
| `Scheduler.App.ServeCoder` | src/sim/scheduler_dispatch.c:50-57 | One test of the scan makes an allowed grant and announces it, or fails at the readings it made and changes nothing; a coder that was ready and best is passed over only for being past its deadline. |
| `Scheduler.App.SchedulerDispatch` | src/sim/scheduler_dispatch.c:38-62 | Terminates under an advancing clock; looks at the coders in index order until a whole pass serves nobody; makes an announced chain of allowed grants; whoever was ready and best when the final pass began is left only because its deadline passed; with a standing clock equals the priority walk; broadcasts once. |
| `Acquire.RegisterRequest` | src/sim/scheduler_pair.c:17-24 | The request gets the next sequence number and its deadline, the coder waits ungranted, all else in the table is unchanged. |
| `Acquire.PairCooldownLeft` | src/sim/scheduler_pair.c:27-43 | The time to the earlier of the deadline and the instant at which both dongles have cooled. |
| `Acquire.WaitForScheduler` | src/sim/scheduler_pair.c:46-59 | The timer is set to the time the state machine prescribes for the current table and clock readings, at least one millisecond ahead. |
| `Acquire.DispatchIsARun` | src/sim/scheduler_dispatch.c:38-62 | Every dispatch made while holding `state_mutex` is, look by look, a run of the state machine, ending at the same position of the scan. |
| `Acquire.AcquirePass` | src/sim/scheduler_pair.c:62-83 | Each critical section of the waiting loop, on the objects, is a legal run that ends acquired, refused, or asleep with the timer it computed; its one broadcast signals every other sleeper. |
| `Lifecycle.SetAllCoderDeadlines` | src/sim/start_helpers.c:44-54 | Every coder's last start becomes the given time and nothing else changes. |
| `Lifecycle.StartAllThreads` | src/sim/start_helpers.c:57-66 | A newly built application is put into the initial state of every run. |
| `Lifecycle.ReleaseBothDongles` | src/sim/release.c:26-38 | Both dongle objects become free with the release time read at the start, nothing else changes, and waiters are woken. |
| `Lifecycle.AllCodersFinished` | src/sim/sim.c:82-95 | True exactly when every coder object has counted the required compiles. |
| `Lifecycle.SetStop` | src/sim/sim_helpers.c:53-61 | Sets the stop flag, leaves coders and dongles alone, and wakes the waiters of `stop_cond`. |
| `Lifecycle.FinishCompile` | src/sim/sim.c:31-45 | Counts one compile, reports completion exactly when a required count is set and now reached by all, and stops the run exactly then. |
| `Lifecycle.StopForBurnout` | src/sim/sim_helpers.c:64-82 | Stops and writes the burnout line exactly when the run was not stopped already; otherwise changes nothing. |
| `Lifecycle.CheckCoderBurnout` | src/sim/monitor.c:17-31 | A verdict names a coder past its deadline; without one nothing changed. A look that begins with the coder's last start positive and `time_to_burnout` ago, the run being on, reports it. |
| `Lifecycle.CheckBurnouts` | src/sim/monitor.c:34-48 | A scan reports the first coder found past its deadline; one that reports nobody, the run being on, began with no coder's last start positive and `time_to_burnout` ago. |
| `Lifecycle.GoodSleep` | src/sim/sleep.c:29-46 | Returns only when the time has passed or the run is stopped; naps one millisecond at a time, and begins none once the time has passed. |
| `Runs.RunStaysReachable` | src/sim/sim.c:55-79 | Whatever a run leads to from a reachable state is reachable. |
| `Conformance.StartPass` | src/sim/start_helpers.c:57-66 | Starting a newly built application begins a run. |
| `Conformance.ReleasePass` | src/sim/sim.c:48-52 | Ending a compile on the objects is a legal run that frees both dongle objects at the present time and signals every sleeper. |
| `Conformance.TopPass` | src/sim/sim.c:62-65 | The top of the coder's loop on the objects is a legal run: on to acquire exactly when the run is on and the coder has compiles left, otherwise out. |
| `Conformance.OthersLeaveCount` | src/sim/sim.c:62-65 | Between the two tests at the top no step of the others changes whether the coder is done. |
| `Conformance.ReleasedPass` | src/sim/sim.c:67-68 | The stop test after releasing is a legal run: on to counting exactly when the run is on, otherwise out. |
| `Conformance.DebuggedPass` | src/sim/sim.c:73-76 | After debugging is over, the stop test is a legal run on to refactoring, or out. |
| `Conformance.RoundEnds` | src/sim/sim.c:76-77 | After refactoring is over, a legal run leads back to the top of the loop. |
| `Conformance.SleepPass` | src/sim/sleep.c:29-46 | Whatever the others do during one of the three sleeps, the sleeper wakes at its place with its time over or the run stopped, as the following section asks. |
| `Conformance.CountPass` | src/sim/sim.c:36-41 | The counting section on the objects is a legal run from any state; it finds everybody finished exactly when all have the required count. |
| `Conformance.StopPass` | src/sim/sim_helpers.c:53-61 | The stopping section on the objects is a legal run, whatever the others did since the last count, and signals every sleeper. |
| `Conformance.FinishPass` | src/sim/sim.c:67-70 | Counting and stopping, undisturbed, on the objects is a legal run; the coder that completes the last count exits having stopped the run. |
| `Conformance.AccusePass` | src/sim/monitor.c:17-26 | The monitor's look at one coder on the objects is a legal run that accuses it or moves on, and accuses a coder whose last start was positive and `time_to_burnout` ago when it began. |
| `Conformance.ConvictPass` | src/sim/sim_helpers.c:64-76 | The stopping half of the verdict is a legal run from any state the others left; it is in vain exactly when they stopped the run themselves, and otherwise signals every sleeper. |
| `Conformance.WritePass` | src/sim/sim_helpers.c:77-79 | Writing the burnout line is a legal run that records the burnout at the time of the line. |
| `Conformance.MonitorPass` | src/sim/monitor.c:58-64 | The monitor's stop test is a legal run: scanning goes on exactly while the run is on. |
| `Conformance.VerdictPass` | src/sim/monitor.c:17-31 | A verdict on the objects, undisturbed, is a legal run that records the burnout of that coder at that time. |
| `Conformance.ObjectsAreOwned` | src/sim/scheduler_dispatch.c:27-35 | When the objects show a reachable state, a dongle object is unavailable exactly when a coder linked to it owns its pair, and at most half own. |
| `HeapOrder.RootIsLeast` | src/sim/heap_push.c:48-53 | In a heap nobody precedes the first entry. |
| `HeapOrder.ReplacedIsHeapBut` | src/sim/heap_remove.c:71-84 | After overwriting any entry by the last one, sifting up alone repairs the heap if the entry precedes its parent, and sifting down alone otherwise. |
| `RequestHeap.InitHeap` | src/sim/heap_init.c:37-50 | Refuses exactly capacity 0; otherwise an empty heap of the capacity. |
| `RequestHeap.ChildIndicesExact` | src/sim/heap_pop.c:32-33 | In 32-bit arithmetic the left child index is right if and only if the index is below 2^31, the right one if and only if it is below 2^31 - 1; from there on each is an index towards the front instead, which one being stated. |
| `RequestHeap.RequestQueue.Push` | src/sim/heap_push.c:26-45 | Refuses exactly when full; otherwise adds the request to the multiset and keeps heap order. |
| `RequestHeap.RequestQueue.Peek` | src/sim/heap_push.c:48-53 | Nothing exactly when empty; otherwise an entry that none precedes. |
| `RequestHeap.RequestQueue.Pop` | src/sim/heap_pop.c:45-63 | Removes exactly the front entry, which none preceded, and keeps heap order; an empty heap stays empty. |
| `RequestHeap.RequestQueue.BestChild` | src/sim/heap_pop.c:26-42 | The entry itself or a child preceding it, such that no child precedes the choice. |
| `RequestHeap.RequestQueue.SiftUp` | src/sim/heap_remove.c:26-38 | From a heap but for one entry and its parent, restores heap order on the same contents. |
| `RequestHeap.RequestQueue.SiftDown` | src/sim/heap_remove.c:41-58 | From a heap but for one entry and its children, restores heap order on the same contents. |
| `RequestHeap.RequestQueue.SiftFromRoot` | src/sim/heap_pop.c:54-62 | The other sift-down loop meets the same contract from the root. |
| `RequestHeap.RequestQueue.Remove` | src/sim/heap_remove.c:61-86 | Deletes exactly the first entry of the coder wherever it stands and keeps heap order; without an entry nothing changes. |
| `RequestHeap.Drain` | src/sim/heap_pop.c:45-63 | Peeking and popping until empty yields the contents sorted by the service order. |
| `RequestHeap.SortByHeap` | src/sim/heap_push.c:26-45 | Pushing any sequence that fits and draining yields a sorted permutation of it. |
| `SoloDongle.InitDongle` | src/sim/dongle_init.c:47-70 | Fails exactly when its queue does; otherwise the dongle is free, never released, with an empty queue of that capacity. |
| `SoloDongle.QueuedDongle.TimeLeft` | src/sim/sim_stuff.c:16-33 | Zero exactly when the dongle is free and cooled; for a free dongle otherwise the time left to cool; ten milliseconds for one that is taken. |
| `SoloDongle.QueuedDongle.PushRequest` | src/sim/sim_stuff.c:48-56 | Adds the coder's request under the next sequence number, or reports a full queue and adds nothing. |
| `SoloDongle.QueuedDongle.IsQueueHead` | src/sim/heap_helpers.c:16-24 | True exactly when the queue is non-empty and its front entry is the coder's. |
| `SoloDongle.QueuedDongle.AcquireIfReady` | src/sim/sim_stuff.c:59-72 | Takes the dongle exactly when it is free, cooled and the coder is at the front; the entry removed is one that none precedes. |
| `SoloDongle.QueuedDongle.Acquire` | src/sim/sim_stuff.c:75-101 | Success or not, the queue ends with the contents it had; success means the dongle was free and cooled and is now taken; failure means a full queue or a stopped run, and, when the dongle could be taken at once and the request goes before all others, that the very first look at the stop flag denied it. |
| `SoloDongle.QueuedDongle.TryOnce` | src/sim/sim_stuff.c:87-96 | One round takes the dongle whenever it is free and cooled and the request goes before all others; otherwise it waits once, ten milliseconds for a taken dongle, at most two seconds and at most the cooling time for a free one. |
| `Decimal.ValueOfNotation` | src/utils/printing.c:31-57 | Printing a number and reading it back gives the number. |
| `Decimal.ValueIsPositional` | src/utils/utils.c:32-40 | Reading digit by digit gives the sum of the digits times their powers of ten. |
| `Decimal.DigitIsRank` | src/utils/utils.c:38 | A digit counts for its place in 0123456789. |
| `Decimal.LimitsAreWidths` | src/utils/utils.c:36-42 | The limits of the two widths are those of 32 and 64 bits. |
| `Decimal.NotationOfValue` | src/utils/utils.c:22-44 | Reading a digit string and printing the value gives the string without leading zeros. |
| `Decimal.NotationIsCanonical` | src/utils/printing.c:31-57 | A printed number begins with a zero only if it is zero. |
| `Decimal.PrintedAndParsed` | src/utils/utils.c:22-44 | A printed number is accepted exactly when it fits the width and comes back unchanged; an accepted string is the notation of its value up to leading zeros. |
| `Decimal.LineIsUnambiguous` | src/utils/printing.c:60-73 | A log line determines its time, coder and message. |
| `Printing.ParseUint` | src/utils/utils.c:22-44 | Accepts a string of any length if and only if it is non-empty, all digits and its value fits the requested width; the result is then the mathematical value. |
| `Printing.TableIsRight` | src/sim/init_simulation.c:18-30 | Entries 2p and 2p + 1 of the 200-character table are the two digits of p. |
| `Printing.FormatU64` | src/utils/printing.c:31-54 | For every 64-bit number the tail of the 20-byte buffer holds its canonical notation, never leaving the buffer. |
| `Printing.AppendU64` | src/utils/printing.c:31-57 | Writes the canonical notation, at most 20 bytes, at the destination, and returns its length; all other bytes are kept. |
| `Printing.CopyBytes` | src/utils/printing.c:18-28 | Copies the range and keeps every other byte. |
| `Printing.BuildLine` | src/utils/printing.c:60-73 | The line fits the 64-byte buffer; it is digits whose value is the time (as 64 bits), a space, digits whose value is the identifier, a space, the message, a line feed. |
| `LockProtocol.RunsAreOwned` | src/sim/sim_helpers.c:27-82 | Under every interleaving each thread holds exactly the mutexes its place in the program says, and none twice. |
| `LockProtocol.NoDeadlock` | src/sim/sim_stuff.c:75-101 | With locks taken in the order dongle, state, log, nobody waits in a circle: every thread inside a critical section waits, through at most three holders, for one that can take whichever step is next for it. |
| `LockProtocol.RunsDoNotDeadlock` | src/sim/sim_helpers.c:37-82 | No reachable state is a deadlock on the mutexes, including threads committed to ask for `state_mutex` under a dongle mutex; while one is held some holder can move. |
| `Shutdown.StopWakesDongles` | src/sim/sim_helpers.c:37-82 | Under every interleaving, once the run is stopped and whoever stopped it has gone on, the condition of every dongle has been broadcast. |
| `LogOrder.GroupsAreContiguous` | src/sim/scheduler_dispatch.c:17-24 | A log accepted by the one-line-lookback reader consists of whole three-line groups and single lines, but for a group just begun. |
| `LogOrder.RunsAreOrderly` | src/utils/printing.c:76-104 | Every reachable log is accepted by that reader, in time order, and agrees with where the holder of `log_mutex` stands. |
| `LogOrder.LogInEveryRun` | src/sim/sim_helpers.c:64-82 | In every run the burnout line occurs at most once and is the last line; at most one line follows the stop, and it is the burnout or a line already past its stop test; reservation groups are contiguous; times never decrease. |
| `Atomicity.CommitIsAStep` | src/sim/sim_helpers.c:27-82 | Where the data allow a critical section to take effect and the locks let its thread do it, the state machine allows the step and it has the same effect: the locks make the sections atomic. |
| `Truthfulness.RunsProject` | src/sim/sim.c:55-79 | Every run of the program, lock by lock and with its data, scan order and owed lines, is a run of the lock-level model and of the state machine at once. |
| `Truthfulness.LogTellsTheTruth` | src/utils/printing.c:76-104 | In every run of the program a burnout line is the last line and names a coder past its deadline at that time; the compile lines are the reservations in order, none before its start, at most one still to come. |
| `Truthfulness.LogCountsCompiles` | src/sim/scheduler_dispatch.c:17-35 | The log never announces more than N * required compiles, and exactly that many once completion is reported. |
| `Chronicle.LogFollowsTheCycle` | src/sim/sim.c:62-77 | In every run of the program the lines that name a coder, but for a burnout, are the beginning of: has taken a dongle, has taken a dongle, is compiling, is debugging, is refactoring, and again; every line names a coder. |
| `Realization.SameWorlds` | src/sim/scheduler_pair.c:62-83 | The state machine and the program, lock by lock, with the scan look by look and every line logged, reach exactly the same data. |

## Left out

- Thread creation, joining, start-up waiting and the failure paths of initialisation: resource plumbing around the initial state that `StartAllThreads` establishes.
- `write`, `usleep`, `clock_gettime` and the timespec arithmetic of `build_deadline`: replaced by a log and an integer clock that never goes back; the 64-bit nanosecond product of a very long wait can wrap and is not claimed exact. The timeout clock of the condition variable is taken to be the same clock.
- 64-bit arithmetic on times and on `next_sequence`: unbounded integers here; the argument validator keeps every duration at most INT64_MAX / 1000 (src/arg/arg.c:53-68).
- The argument table, usage messages, `main`, the Makefile: one-branch code.
- The straight line of the single-coder routine around `acquire_dongle` (src/sim/acquire.c:17-25), and its log lines in the lock-level model.
- Liveness under real thread scheduling: the code does not guarantee it, and progress is stated about dispatches at a given time.
- Fields that carry no behaviour here: the coder's state, policy data, the per-dongle condition in runs with several coders.
- Runs: the loops of `coder_routine` and `monitor_routine` are the program counters of the state machine rather than methods, since other threads act between their steps. A critical section of `state_mutex` is one step, but for the dispatch, whose looks are steps of their own. A sleep ends at any time from its earliest end on; that of debugging and of refactoring is counted from the section before its `log_msg`.
- LockProtocol: on its own it leaves open what data decide, such as which coder a reservation names or what a thread logs; `Atomicity` adds the data. There the stop tests inside the sleeps take no lock.
- Wakeups.NoMissedWakeup: carries the clock movement between computing the wait and falling asleep as an explicit term, because the source reads the clock once for each.
- Lifecycle.SetStop: the broadcasts on `start_cond`, which nobody waits on once started, and on the dongles' conditions, which are in `LockProtocol` and `Shutdown`.
- Lifecycle.FinishCompile: nothing happens between counting and stopping; `Conformance.CountPass` and `Conformance.StopPass` take the two sections one by one, whatever happens in between.
- Lifecycle.StopForBurnout: the hand-over between the two mutexes, which is in `LockProtocol`; section by section it is `Conformance.ConvictPass` and `Conformance.WritePass`.
- Lifecycle.CheckCoderBurnout: nothing happens while the monitor holds no lock; section by section, with any interference, it is `Conformance.AccusePass` and the two above.
- Lifecycle.CheckBurnouts: a scan undisturbed by the coders, for the same reason.
- Conformance.FinishPass: `FinishCompile` as it is, undisturbed.
- Conformance.VerdictPass: `CheckCoderBurnout` as it is, undisturbed.
- SoloDongle.QueuedDongle.Acquire: the run is assumed to be stopped by some reading of the stop flag, which one is arbitrary, since without a stop the wait may go on forever; requests of other coders arriving meanwhile are not modelled, there being only one coder.
- RequestHeap.RequestQueue.Push: heaps holding 2^31 entries or more, where `ChildIndicesExact` shows that indices wrap, and a failing allocation.
- RequestHeap.Drain: a client written to state what pushing, peeking and popping amount to; the program has no such loop, and the same holds for `SortByHeap`.
- Printing.ParseUint: the `int` index of the source is unbounded here, which differs beyond 2^31 - 1 leading zeros.
- Printing.BuildLine: a message longer than the 31 bytes that fit beside two numbers is not one the program logs.
- Scheduler.App.LogReservation: log lines are records here; their bytes are the subject of `Printing`.
