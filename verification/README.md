# libtx, modelled and proved

libtx is a single-threaded event loop. This project models its core in Dafny and proves what the code
relies on but nowhere states: why a poller never sleeps on runnable work, why the timer wheel fires on
time (and by how much it does not), why no waiter of a descriptor is forgotten, and why a block shared with
the kernel is freed exactly once.

Each state machine comes in two forms. A *model* on values (`LoopModel`, `WheelModel`, `ReadinessModel`,
`CompletionModel`) gives one function per step of the code; invariants over all runs, refinements and exact
conditions are lemmas about it. A *class* on the heap (`Loop.TaskLoop`, `TimerRing.TimerRing`,
`Readiness.Epoll`, `Completion.CompletionPort`) has the fields of the C struct, works on real
intrusive lists, and every method is proved to take exactly the step of the model, in its `ghost` field `model`.
What the heap does is therefore what the theorems speak about, whatever the order of calls. The parser and the
pumps are methods proved directly against what they are for.

- `IntrusiveList`: the LIST macros. A link is a cell holding a pointer, so it stands both for a list head and
  for an element with its `le_next`; `le_prev` is a reference to a link. A `Family` is any number of disjoint
  lists. A list can be *cut*: its head was initialised again while its elements are still being visited, which
  is what the by-value head copy of the timer does. The first element's `le_prev` still leads to the ring's own
  head, so the first removal writes there and mends the list.
- `LoopModel`, `LoopProofs`, `RoundProofs`, `LoopTheorems`, `RoundFairness`, `LoopEnds`, `Loop`: tasks, the run
  queue with its tailer and the `phony` round marker, wait queues, rounds, the blocking decision, when the loop is
  left and when its pollers may sleep. A callback is an arbitrary finite sequence of calls. `tx_busy` is a number below 2^32 whose bits move up at each round's end.
- `WheelModel`, `WheelProofs`, `WheelTheorems`, `PollTheorems`, `WheelRuns`, `TimerRing`: the three-level timer wheel
  over ideal integers, and on the heap. `WheelWidth`: the code's own 32-bit `unsigned` with a 32-bit or 64-bit
  `size_t` simulates it. `WheelWrap`, `WheelGaps`: exactly when one test, one filing, one poll or one event on the machine
  is the ideal one. `WheelTruth`: every run of the machine's wheel beside the true clock, whatever its age, and
  `WheelAges`: rings brought to where counters and ticks wrap.
- `ReadinessModel`, `ReadinessProofs`, `ReadinessTheorems`, `Readiness`: `tx_aiocb` over epoll, against a kernel
  that reports a one-shot registration at most once, interleaved with anything else that happens to the loop.
- `CompletionModel`, `CompletionProofs`, `CompletionTheorems`, `Completion`: descriptors, blocks and outstanding
  operations of the completion port, in every interleaving of calls and completions.
- `DottedQuad`: `inet_pton4` and the IPv4address language of section 3.2.2 of RFC 3986.
- `Pump`, `Netcat`: the resumable byte pump of netcat over the readiness layer, the task that runs two of them in
  opposite directions, and the blocking pump.

What one would expect of the code and it does not keep is stated with its exact condition, each with a run or a
state that reaches the failing side:

- waking a wait queue of a stopped loop (`WakeupAgreesIff`, reached by `StrandedWaiter`);
- an exact `tx_actives` (`StepSlack`, reached by `LeakedCount`);
- firing at the first poll after the deadline (`OverdueSurvivesIff`, `LateByACoarseTurn`: up to 748 ticks late; a timer
  filed in a wheel is at most 14 late, `WheelTimerPunctual`);
- the wheel over machine integers. Past a clock gap: `FiresIff` and `DueIff` for the tests, `HandleImageIff` and
  `ResetImageIff` for one timer, `PollImageIff` for a poll, `ApplyImageIff` for any event (missed in `GapTooLong` and
  `ResetInGap`). Past the wrap of a wheel counter: `CounterWrapIff` (reached by `CounterWraps` and `SlotVisitedEarly`).
  With a 64-bit `size_t` and deadlines beyond 2^32: `WrappedPlaceIff`, `NoWheelAfterWrap` (reached by `WrapsSoon` and
  `NoWheelReached`). The bounds on early and late firing survive all wraps (`NeverLate`), except that in the last case
  a timer is up to 44999 ticks late (`LateByARescan`);
- waiting on a detached descriptor (`RegistersIff`, `RegistersOutIff`, reached by `WaitsDetached` and
  `WaitsDetachedOut`), and detaching it twice (`DetachKeepsIff`, reached by `DetachedTwice`);
- waiting on a listener of the completion port whose AcceptEx fails (`AcceptWaiterServedIff`, reached by `RefusedAccept`);
  and telling a listener that holds an accepted socket of a would-block (`DrainedKeepsIff`, reached by `AcceptedLost`).

Output waiters of the completion port look like another case, since `pollout` does nothing there
(`CompletionTheorems.OutputServed`); they are not, because in every run TX_WRITABLE is clear exactly while a send or connect is
outstanding (`WaiterServed`).

Assumptions about the environment, where the code has none of its own: the clock does not run backwards and
`tx_ticks` does not change while the timers are drained; `epoll_ctl` succeeds, the kernel reports only descriptors
armed by a one-shot MOD, each at most once per batch, and a `tx_aiocb` is attached once and detached once; the
kernel completes only operations that are outstanding, and takes an AcceptEx only with a socket; all tasks, timers
and descriptors belong to one loop. The readings of the clock, the answers of the kernel and what callbacks do
are parameters, so every theorem holds for all of them.

## Model

| member | source | states |
|---|---|---|
| `IntrusiveList.InsertHead` | include/libtx/queue.h:328-333 | the list starting at the head becomes the new element followed by the old elements, with every `le_next` and `le_prev` right |
| `IntrusiveList.InsertBefore` | include/libtx/queue.h:321-326 | the list becomes its old elements with the new one in front of the given position |
| `IntrusiveList.Remove` | include/libtx/queue.h:337-342 | the list becomes its old elements without the given one; removing the first element of a list whose head was initialised again mends that head |
| `IntrusiveList.ListInsertHead` | include/libtx/queue.h:328-333 | the same among any number of disjoint lists: all other lists keep their links |
| `IntrusiveList.ListInsertBefore` | include/libtx/queue.h:321-326 | the same in front of the last element of one of the lists |
| `IntrusiveList.ListRemove` | include/libtx/queue.h:337-342 | an element of any list, found only through its `le_prev`, is unlinked; all other lists keep their links |
| `LoopProofs.StepKeeps` | tx_loop.cpp:49-139 | every call keeps the invariant: IDLE exactly when on no list, BUSY only on the run queue, PENDING exactly on a wait queue, the queue ends in the tailer, busy tasks remembered in the two low bits of `tx_busy`, `tx_actives` at least their number |
| `LoopProofs.StepAllKeeps` | tx_loop.cpp:178-179 | so does a callback, being any finite sequence of calls |
| `LoopProofs.WakeQueueMoves` | tx_loop.cpp:65-77 | `tx_task_wakeup` is a list move: the wait queue is emptied, its tasks stand at the end of the run queue in list order, all BUSY and not PENDING, everything else stays, and `tx_actives` grows by exactly their number |
| `LoopProofs.WakeupAgreesIff` | tx_loop.cpp:65-77 | flags and lists agree after a wakeup if and only if the loop is not stopped or the wait queue was empty |
| `LoopTheorems.StrandedWaiter` | tx_loop.cpp:65-77 | such a loop is reached: a task is recorded, the loop is stopped, and the wakeup leaves the task not IDLE and on no list |
| `RoundProofs.EnterKeeps` | tx_loop.cpp:146-149 | entering the loop with a fresh `phony` in front of the tailer keeps the invariant |
| `RoundProofs.LeaveKeeps` | tx_loop.cpp:182-185 | leaving it, by break or stop, keeps the invariant, so that the loop may be entered again |
| `RoundProofs.FrontPhony` | tx_loop.cpp:156-162 | when `phony` is at the front and bit 0 of `tx_busy` is clear there is no BUSY task, so the reset of `tx_actives` to 0 is exact |
| `RoundProofs.EndRoundKeeps` | tx_loop.cpp:156-168 | the end of a round, with the shift of `tx_busy`, keeps the invariant |
| `RoundProofs.PopKeeps` | tx_loop.cpp:153-177 | taking a task from the queue and settling its flags keeps the invariant |
| `RoundProofs.NeverTailer` | tx_loop.cpp:151-155 | while the loop runs the front of the queue is `phony` or an initialised task, never the tailer |
| `RoundProofs.TurnKeeps` | tx_loop.cpp:151-180 | one iteration of `tx_loop_main`, whatever its callback does, keeps the invariant |
| `LoopTheorems.RunKeeps` | tx_loop.cpp:141-188 | every run of calls, entries and iterations, including break and re-entry, keeps the invariant |
| `LoopTheorems.ReachableHolds` | tx_loop.cpp:55-180 | from a new loop, in every reachable state: flags and lists agree, `tx_actives` is never negative nor below the number of BUSY tasks, and every insertion into the run queue is matched by exactly one run, one removal or the task's presence |
| `LoopTheorems.NeverBlocksOnWork` | tx_loop.cpp:202-214 | in every reachable state with a BUSY task `tx_loop_timeout` is 0 for every poller, whoever wrote `tx_holder` meanwhile |
| `LoopTheorems.NeverBlocksInCallback` | tx_loop.cpp:202-214 | the same at any point inside a callback, where pollers ask |
| `LoopTheorems.StepSlack` | tx_loop.cpp:99-139 | `tx_actives` minus the number of BUSY tasks grows by one exactly when a BUSY task is dropped or recorded, and no other call changes it |
| `LoopTheorems.LeakedCount` | tx_loop.cpp:124-139 | activating and dropping a task reaches such a difference: nothing is on the queue, `tx_actives` is 1, and no poller may block |
| `LoopTheorems.ActivatedQueues` | tx_loop.cpp:99-122 | on a loop that is not stopped `tx_task_active` leaves the task BUSY, and every BUSY task stays BUSY |
| `LoopTheorems.ActivationTells` | tx_loop.cpp:99-122 | unless the loop is stopped the task is then on the run queue, whatever list it was on and whether or not it was BUSY |
| `LoopTheorems.ActivatedIs` | tx_loop.cpp:99-122 | a task that was not BUSY leaves its list and is last on the run queue, in front of the tailer, with the reason it was given; every other list only loses it |
| `LoopTheorems.DroppedIs` | tx_loop.cpp:124-139 | `tx_task_drop` leaves the task idle and on no list, and every other task and list as it was |
| `LoopTheorems.RecordedIs` | tx_loop.cpp:55-63 | `tx_task_record` takes the task off whatever list it was on and puts it first on the wait queue, PENDING |
| `LoopTheorems.PollJoined` | tx_platform.cpp:24-39 | `tx_poll_active` puts an idle poller last on the run queue and changes neither BUSY tasks nor counters, nor who may sleep |
| `LoopTheorems.PoppedIs` | tx_loop.cpp:153-178 | a task whose turn has come is `tx_current`, idle, on no list and without its mark |
| `LoopTheorems.TurnMarks` | tx_loop.cpp:49-53 | a mark lasts until its task is run, and only `tx_task_mark` sets one |
| `LoopTheorems.RoundSlack` | tx_loop.cpp:158-163 | at the end of a round that difference becomes 0 when bit 0 is clear, and then no task is BUSY; otherwise it stays |
| `LoopTheorems.PopSlack` | tx_loop.cpp:171-174 | taking a task from the queue leaves the difference alone |
| `RoundFairness.RoundIsFair` | tx_loop.cpp:151-180 | a round runs at most as many tasks as stand ahead of `phony`, in their order; each of them runs or was removed meanwhile, and tasks enqueued during the round do not run in it |
| `RoundFairness.NextRound` | tx_loop.cpp:156-168 | at the end of a round what was behind `phony` is what the next round runs, in the same order |
| `RoundFairness.NoOvertaking` | tx_loop.cpp:99-180 | over any number of iterations a task queued behind another does not run before it, unless one of them is removed from the queue |
| `LoopEnds.BreakLeaves` | tx_loop.cpp:156-185 | after `tx_loop_break` the loop is left at the end of the round, no more iterations later than tasks stood ahead of `phony`, with `tx_break` cleared and the run queue as the round left it; only a stop can come first |
| `LoopEnds.StopLeaves` | tx_loop.cpp:151-185 | a stopped loop is left at the first test after its first round, before anything else runs |
| `LoopEnds.StoppedFirstRound` | tx_loop.cpp:151-185 | a loop stopped before or during its first round is left right after that round has been run to its end |
| `LoopEnds.EnteredQueue` | tx_loop.cpp:141-151 | in the first round everything that stood on the run queue at the entry is ahead of `phony` |
| `LoopEnds.StaysIn` | tx_loop.cpp:151-180 | without a break or a stop the loop is not left |
| `LoopEnds.TimeoutIff` | tx_loop.cpp:202-214 | `tx_loop_timeout` lets a poller sleep if and only if no break is pending, no task is BUSY, `tx_holder` is free or names it, and no count leaked in the last two rounds is in the way |
| `LoopEnds.TwoQuietRounds` | tx_loop.cpp:156-161 | after two rounds without an activation no task is BUSY, and no count, leaked or not, keeps a poller from sleeping |
| `Loop.TaskLoop.constructor` | tx_loop.cpp:79-97 | `tx_loop_new` gives a loop in the initial state: the queue holds only the tailer |
| `Loop.TaskLoop.Drop` | tx_loop.cpp:124-139 | `tx_task_drop` takes the model's step: a task that is not IDLE leaves its list and loses BUSY and PENDING; counters stay |
| `Loop.TaskLoop.Active` | tx_loop.cpp:99-122 | `tx_task_active` takes the model's step: unless stopped or BUSY already, the task leaves its list and joins the queue in front of the tailer, BUSY, counted and remembered |
| `Loop.TaskLoop.PollActive` | tx_poll.cpp:24-39 | `tx_poll_active` takes the model's step: an IDLE poller joins the queue without BUSY and without touching the counters |
| `Loop.TaskLoop.Record` | tx_loop.cpp:55-63 | `tx_task_record` takes the model's step: dropped, then first on the wait queue and PENDING |
| `Loop.TaskLoop.Wakeup` | tx_loop.cpp:65-77 | the loop that unlinks the element it is visiting takes the model's step, on a stopped loop too; unless that has waiters everything is in order afterwards, and `WakeQueueMoves` says the step is a list move |
| `Loop.TaskLoop.Mark` | tx_loop.cpp:49-53 | only the mark of the task changes |
| `Loop.TaskLoop.Stop` | tx_loop.cpp:196-200 | only `tx_stop` changes |
| `Loop.TaskLoop.Break` | tx_loop.cpp:190-194 | only `tx_break` changes |
| `Loop.TaskLoop.SetHolder` | tx_epoll.cpp:71-77 | only `tx_holder` changes |
| `Loop.TaskLoop.TimeoutFor` | tx_loop.cpp:202-214 | returns the model's timeout, which is 0 whenever a task is BUSY |
| `Loop.TaskLoop.PerformAll` | tx_loop.cpp:178-179 | a callback as a sequence of calls takes the model's steps, in order |
| `Loop.TaskLoop.Iterate` | tx_loop.cpp:151-180 | one test of the loop condition and one iteration take the model's turn, and tell whether the loop was left |
| `Loop.TaskLoop.RunMain` | tx_loop.cpp:141-188 | `tx_loop_main`, observed for any number of iterations, goes where the model's turns lead |
| `Loop.TaskLoop.NewTask` | tx_loop.cpp:30-38 | a new task is IDLE, on no list, and changes nothing else |
| `Loop.TaskLoop.NewPoller` | tx_poll.cpp:9-36 | a new poller task is on the run queue, unless the loop is stopped |
| `Loop.TaskLoop.NewQueue` | include/tx_loop.h:116 | a new wait queue is empty and changes nothing else |
| `WheelModel.SignedStep` | tx_timer.cpp:116-117 | the signed distance a catch-up loop tests falls by exactly one step per turn, over machine integers too, so the loops end |
| `WheelProofs.RearmKeepsDeadline` | tx_timer.cpp:130 | arming again for the remaining time restores the deadline, wrap-around included |
| `WheelProofs.ResetSound` | tx_timer.cpp:43-78 | `tx_timer_reset` keeps every armed timer on exactly one list and every IDLE one on none |
| `WheelProofs.StopSound` | tx_timer.cpp:80-103 | so do `tx_timer_stop` and `tx_timer_drain` |
| `WheelProofs.HandleIs` | tx_timer.cpp:123-131 | the body of a drain loop fires the timer and makes it IDLE, or puts it where a fresh reset would with its deadline unchanged, and touches no other timer |
| `WheelProofs.SweepIs` | tx_timer.cpp:120-132 | draining a list fires exactly its due timers, once each and in list order, re-arms exactly the others with their deadlines unchanged, even into the list being drained, and leaves all timers off the list untouched |
| `WheelTheorems.PlaceFits` | tx_timer.cpp:49-72 | `tx_timer_reset` never chooses a current slot: a fine slot comes up within 49 turns and at most 15 ticks from the deadline, a coarse slot within 59 turns and at most 749 ticks before it; for the coarse wheel this follows from the common origin and order of the ticks |
| `WheelTheorems.SweepTimely` | tx_timer.cpp:120-132 | draining one list leaves every armed timer where its deadline belongs |
| `WheelTheorems.FineTurnIs` | tx_timer.cpp:116-133 | one turn of the fine wheel fires every timer of the slot that came up, so its re-arm branch is never taken, and touches no other timer |
| `WheelTheorems.FineTurnsAre` | tx_timer.cpp:116-133 | catching up fires exactly the timers of the fine slots whose time has come |
| `WheelTheorems.CoarseTurnIs` | tx_timer.cpp:135-152 | a timer leaving a coarse slot fires or goes down to the fine wheel with its deadline unchanged, never back to the coarse wheel or the overflow list |
| `WheelTheorems.CoarseTurnsAre` | tx_timer.cpp:135-152 | catching up does that to exactly the timers of the coarse slots whose time has come |
| `PollTheorems.RescanIs` | tx_timer.cpp:154-169 | the overflow list is drained exactly when 45000 ticks have passed since the last time; then its due timers fire and the others stay armed |
| `PollTheorems.PollIs` | tx_timer.cpp:105-169 | one poll fires exactly the timers `PollFires` tells from where they sit before it; all others keep their flags and deadlines; all three wheels are caught up and timely |
| `PollTheorems.PollBounds` | tx_timer.cpp:105-169 | no timer fires 15 ticks or more before its deadline, and every timer overdue by 749 ticks fires |
| `PollTheorems.SurvivorBounds` | tx_timer.cpp:105-169 | a timer still armed after a poll has a deadline later than 15 ticks ago in the fine wheel, later than now in the coarse wheel, later than 749 ticks ago on the overflow list |
| `PollTheorems.WheelPunctual` | tx_timer.cpp:105-152 | a timer in one of the two wheels fires at the latest at the first poll 15 ticks past its deadline |
| `PollTheorems.OverdueSurvivesIff` | tx_timer.cpp:105-169 | a timer whose deadline has come survives a poll if and only if it sits in a fine slot that has not come up or on the overflow list before its next rescan |
| `WheelRuns.ApplyTimely` | tx_timer.cpp:43-169 | reset, stop, drain, a clock reading and a poll all keep armed timers where their deadlines belong |
| `WheelRuns.PollLogged` | tx_timer.cpp:105-169 | the timers a poll activates are exactly the armed ones that became IDLE, each once |
| `WheelRuns.ApplyRefines` | tx_timer.cpp:43-169 | each event arms, disarms and fires what it would in a flat table from timers to deadlines |
| `WheelRuns.RunRefines` | tx_timer.cpp:43-169 | over any run the ring refines the flat table: the same armed timers and deadlines, firings within the bounds |
| `WheelRuns.NewRingRefines` | tx_timer.cpp:186-214 | the same from a new ring and the empty table |
| `WheelRuns.WheelTimerPunctual` | tx_timer.cpp:43-169 | a timer armed for less than 45000 ticks past the coarse tick never enters the overflow list: over any run in which it is not armed again, one that is still armed after a poll is at most 14 ticks late |
| `WheelRuns.LateByACoarseTurn` | tx_timer.cpp:154-155 | on a ring created at tick 0 and polled at 45749 a timer armed for 44251 ticks is still armed at 90748, 748 ticks late, so the bound of 749 is sharp |
| `WheelWidth.SamePlaceOnMachine` | tx_timer.cpp:51-65 | with machine integers `tx_timer_reset` chooses the list the ideal wheel chooses for a deadline less than 2^32 ahead of the coarse tick |
| `WheelWidth.FiledAlikeIff` | tx_timer.cpp:51-70 | with a 32-bit `size_t` it does so if and only if the deadline is less than 2^32 ahead of the coarse tick, or within the fine wheel, or too far for both wheels modulo 2^32 |
| `WheelWidth.SameDueOnMachine` | tx_timer.cpp:116-154 | with machine integers the three signed tests come out as over unbounded integers while the clock is not 2^31 ticks beyond what they test for |
| `WheelWidth.PollImage` | tx_timer.cpp:105-169 | a poll on the machine leads to the stored form of the wheel the ideal poll leads to |
| `WheelWidth.ApplyImage` | tx_timer.cpp:43-169 | so does every event that is allowed: a timeout below 2^31 that is filed alike, a poll before the clock has outrun the wheels, the last rescan or an armed timer |
| `WheelWidth.MachineRun` | tx_timer.cpp:43-169 | over any run of allowed events the machine's wheel is the stored form of the ideal one and fires the same timers in the same order; with a 32-bit `size_t` across the wraps of the tick until the wheel counters wrap, which is fewer than fifteen of them, and with a 64-bit one up to the first wrap of the tick |
| `WheelWidth.NewRingFits` | tx_timer.cpp:186-201 | a new ring meets what that simulation asks |
| `WheelWidth.GapAllowed` | tx_timer.cpp:114-116 | after a poll the simulation allows clock gaps up to 2^31 - 765 while the ring is younger than 15 * (2^32 - 60) ticks |
| `WheelWrap.CounterWrapIff` | tx_timer.cpp:116-138 | the next turn of either wheel drains the slot it drains with an unbounded counter if and only if the 32-bit counter does not wrap |
| `WheelWrap.PlacedIsDrained` | tx_timer.cpp:57-58 | filing and draining wrap alike: the slot chosen for n turns ahead is the one the n-th turn drains, whatever the counter's width |
| `WheelWrap.VisitedEarly` | tx_timer.cpp:57-58 | but ten turns before the wrap the slot for 49 turns ahead is drained after three turns too |
| `WheelAges.CounterWraps` | tx_timer.cpp:116-119 | any new ring polled every 15 ticks comes to the turn at which a 32-bit counter wraps and drains slot 0 instead of slot 46 |
| `WheelAges.SlotVisitedEarly` | tx_timer.cpp:51-58 | and ten polls earlier to the ring whose slot for a deadline 49 turns ahead is drained by the third turn too |
| `WheelWrap.PollSpares` | tx_timer.cpp:105-169 | on every machine a poll fires only timers that pass the firing test, and changes no deadline |
| `WheelGaps.FiresIff` | tx_timer.cpp:125 | the cast in the firing test gives the ideal answer if and only if the time left lies an even number of times 2^31 from 0 upwards or an odd number below; within 2^32 that is from -2^31 to 2^31 - 1 |
| `WheelGaps.DueIff` | tx_timer.cpp:116-154 | the same of the three tests that drive the wheels and the rescan |
| `WheelGaps.HandleImageIff` | tx_timer.cpp:123-131 | a drain loop treats a timer as the ideal wheel does if and only if the firing test agrees and, when it does not fire, it is filed alike |
| `WheelGaps.HandleImage32Iff` | tx_timer.cpp:123-131 | with a 32-bit `size_t` that is told from the deadline, the clock and the ticks alone |
| `WheelGaps.ResetImageIff` | tx_timer.cpp:43-78 | with a 32-bit `size_t` a reset has the ideal effect if and only if its timeout, counted from the coarse tick, is below 2^32, or counted from the fine tick below 750, or both are too far for the wheels modulo 2^32 |
| `WheelGaps.PollImageIff` | tx_timer.cpp:105-169 | on a young ring a poll after a clock gap of any length has the ideal effect if and only if the clock is less than 2^31 beyond each of the three tests and no armed timer is more than 2^31 - 15 ticks overdue |
| `WheelGaps.ApplyImageIff` | tx_timer.cpp:43-169 | on a young ring, with timeouts below 2^31, an event has the ideal effect if and only if `ApplyImage` allows it |
| `WheelGaps.GapTooLong` | tx_timer.cpp:116-124 | a timer armed with no delay on a ring created at tick 0 is not fired by a poll at 2^31 - 14 on the machine, while the ideal wheel fires it |
| `WheelGaps.ResetInGap` | tx_timer.cpp:51-65 | on a ring polled at 749 a timer armed 2^31 - 1 ticks later for 2^31 - 1 ticks is filed in the next fine slot on the machine, on the overflow list by the ideal wheel |
| `WheelWrap.WrappedPlaceIff` | tx_timer.cpp:49-70 | with a 64-bit `size_t`, before the tick has wrapped, a timer is filed as over ideal integers if and only if its deadline is below 2^32, or is too far for both wheels and the 32 bits stored of it lie behind or beyond each of them |
| `WheelWrap.WrapsSoon` | tx_timer.cpp:49-70 | on a ring created a hundred ticks before the wrap a timer armed for 200 ticks goes to the overflow list instead of the fine wheel |
| `WheelWrap.NoWheelAfterWrap` | tx_timer.cpp:49-70 | once the coarse tick has passed 2^32 a 64-bit `size_t` sends every timer to the overflow list |
| `WheelAges.NoWheelReached` | tx_timer.cpp:105-169 | a ring created a thousand ticks before the wrap and polled 45000 ticks later is in that state |
| `WheelTruth.PlaceResident` | tx_timer.cpp:49-72 | on a machine of either width `tx_timer_reset` files every deadline where it will be found: in the slot some later turn drains close to it, on the overflow list if it is too far, or, beyond 2^32 with a 64-bit `size_t`, always there |
| `WheelTruth.PlaceBeyond` | tx_timer.cpp:49-70 | already from the wrap of the clock on, a 64-bit `size_t` files every deadline beyond 2^32 on the overflow list |
| `WheelTruth.SweepTruly` | tx_timer.cpp:120-132 | draining a list, even one that comes up early because a counter has wrapped, fires its timers that are due by the true clock and files the others where they will be found |
| `WheelTruth.PollTruly` | tx_timer.cpp:105-169 | a poll of a ring of any age fires no timer 15 ticks early, leaves none armed that is 749 late, and fires one beyond 2^32 on a 64-bit `size_t` if and only if 45000 ticks have passed since the last rescan and it is less than 15 ticks away |
| `WheelTruth.ApplyTruly` | tx_timer.cpp:43-169 | every event keeps the armed timers where they will be found, by their true deadlines |
| `WheelTruth.NeverLate` | tx_timer.cpp:43-169 | over every run of a new ring on a machine of either width, across all wraps of counters, ticks and deadlines: at each poll no timer fires 15 ticks or more before its true deadline and none is left armed 749 ticks or more after it, or 45000 if the deadline lies beyond 2^32 and `size_t` has 64 bits |
| `WheelTruth.MayTickAfter` | tx_timer.cpp:114-116 | that asks for no more than 2^31 - 765 ticks from a poll to the next reading of the clock, or 2^31 - 45014 with timers beyond 2^32 on a 64-bit `size_t` |
| `WheelTruth.FitsKept` | tx_timer.cpp:43-78 | every ring of the simulation whose clock has not outrun it by 2^31 is a start of such runs too |
| `WheelAges.LateByARescan` | tx_timer.cpp:154-169 | a timer armed with no delay after the poll at 2^32 + 44000 of that ring is still armed 44999 ticks later, so the bound is sharp |
| `TimerRing.TimerRing.Choose` | tx_timer.cpp:51-70 | computes the list the model's `Place` names, with the same divisions and modulus |
| `TimerRing.TimerRing.Reset` | tx_timer.cpp:43-78 | takes the model's step, through its own recursion for an armed timer |
| `TimerRing.TimerRing.StopTimer` | tx_timer.cpp:93-103 | takes the model's step |
| `TimerRing.TimerRing.DrainTimer` | tx_timer.cpp:80-91 | takes the model's step, and the loop is told of the timer if it was armed |
| `TimerRing.TimerRing.HandleTimer` | tx_timer.cpp:123-131 | the body of the drain loops takes the model's step, also for the first element of a head just initialised; the loop is told of a timer exactly when it fires |
| `TimerRing.TimerRing.TakeList` | tx_timer.cpp:121-122 | after the copy of the head and LIST_INIT all elements are still to be visited and all other lists are intact |
| `TimerRing.TimerRing.DrainList` | tx_timer.cpp:120-132 | the drain loop over the copied head makes the ring what the model's sweep of that list makes it, well formed, and tells the loop of exactly the new firings in order |
| `TimerRing.TimerRing.RunFineTurns` | tx_timer.cpp:116-133 | the first loop ends in the state of the model's fine turns |
| `TimerRing.TimerRing.RunCoarseTurns` | tx_timer.cpp:135-152 | the second loop ends in the state of the model's coarse turns |
| `TimerRing.TimerRing.RescanOverflow` | tx_timer.cpp:154-169 | the overflow list is rescanned as in the model |
| `TimerRing.TimerRing.Polling` | tx_timer.cpp:105-184 | the whole poll: the ring goes where the model's poll leads, the loop has been told of exactly the timers that fired, in order, their tasks are BUSY on the run queue afterwards unless the loop is stopped, the poller sleeps only when `tx_loop_timeout` lets it, and it is on the run queue again afterwards unless the loop is stopped |
| `TimerRing.TimerRing.NewTimer` | tx_timer.cpp:27-34 | a new timer is IDLE and on no list |
| `TimerRing.NewTimerRing` | tx_timer.cpp:186-214 | a new ring has 111 empty lists, all ticks at the clock reading, and its poller on the run queue |
| `ReadinessProofs.InitialReady` | tx_epoll.cpp:286-304 | a new poller meets the invariant |
| `ReadinessProofs.DeliverKeeps` | tx_epoll.cpp:219-254 | between the reports of a batch `epoll_refcnt` is exactly the number of attached descriptors with a POLL flag, and the kernel's masks are their flags except for the reports still to be handled |
| `ReadinessProofs.PollingKeeps` | tx_epoll.cpp:202-263 | a whole poll keeps: masks equal flags, count exact, waiters registered, holder set exactly while the count is positive |
| `ReadinessProofs.ActiveInKeeps` | tx_aiocb.cpp:150-173 | waiting for input keeps that invariant |
| `ReadinessProofs.ActiveOutKeeps` | tx_aiocb.cpp:118-141 | waiting for output keeps it |
| `ReadinessProofs.ConnectKeeps` | tx_aiocb.cpp:245-264 | connecting keeps it, whatever connect(2) answers |
| `ReadinessProofs.DetachKeepsIff` | tx_epoll.cpp:146-179 | detaching any descriptor keeps it if and only if it is attached or has no POLL flag set, since each call counts a registration down |
| `ReadinessProofs.RunReady` | tx_epoll.cpp:48-263 | in every run of a new poller it holds: attach, wait, cancel, update, connect, poll and detach, interleaved with anything else that happens to the loop |
| `ReadinessProofs.LoopRunsAllowed` | tx_loop.cpp:141-180 | calls, entries and iterations of `tx_loop_main` are among the things that may happen to the loop |
| `ReadinessProofs.PopAllowed` | tx_loop.cpp:151-177 | so is taking a task off the queue, after which its callback, or a poller, runs |
| `ReadinessProofs.CallsAllowed` | tx_loop.cpp:178-179 | and so are the calls of a callback before, between and after its calls to the readiness layer |
| `ReadinessTheorems.WaiterRegistered` | tx_aiocb.cpp:118-173 | in every run of a new poller whoever waits on an attached descriptor is registered with the kernel for it |
| `ReadinessTheorems.RegistersIff` | tx_aiocb.cpp:150-173 | waiting for input registers with the kernel if and only if the descriptor is live; on a detached one whose POLLIN stayed set it does not |
| `ReadinessTheorems.RegistersOutIff` | tx_aiocb.cpp:118-141 | the same of output and POLLOUT |
| `ReadinessTheorems.WaitsDetached` | tx_aiocb.cpp:150-173 | such a descriptor is reached from a new poller: attach, wait, detach, wait again, and the waiter is not registered |
| `ReadinessTheorems.WaitsDetachedOut` | tx_aiocb.cpp:118-141 | the same for output: attach, a write that would block, wait, detach, wait again |
| `ReadinessTheorems.DetachedTwice` | tx_epoll.cpp:146-179 | detaching that descriptor again makes `epoll_refcnt` -1 while no descriptor is registered |
| `ReadinessTheorems.DeliverQueues` | tx_epoll.cpp:225-248 | one report makes its own waiters BUSY and leaves the waiters of other descriptors alone |
| `ReadinessTheorems.ReportQueues` | tx_epoll.cpp:219-254 | while the loop is not stopped every report of a batch leaves the tasks waiting for it BUSY on the run queue |
| `ReadinessTheorems.OnlyEpollBlocks` | tx_epoll.cpp:71-77 | while a descriptor is registered no poller but epoll may block, and nobody while a task is BUSY |
| `ReadinessTheorems.RunBlocks` | tx_loop.cpp:202-214 | so in every run of a new poller the timer poller never sleeps while a descriptor is armed |
| `ReadinessTheorems.SleepsIff` | tx_loop.cpp:202-214 | the timeout is positive if and only if no break is pending, no task is BUSY, no descriptor is armed unless epoll itself asks, and no count leaked in the last two rounds is in the way |
| `ReadinessTheorems.RunSleepsIff` | tx_loop.cpp:202-214 | the same in every run of a new poller |
| `ReadinessTheorems.InputServed` | tx_aiocb.cpp:150-173 | in every run of a new poller, waiting for input on a readable descriptor tells the task at once and changes nothing else; on an attached one that is not readable it becomes the waiter and the kernel is registered for input |
| `ReadinessTheorems.OutputServed` | tx_aiocb.cpp:118-141 | the same of output |
| `ReadinessTheorems.ConnectWaits` | tx_aiocb.cpp:257-262 | a connect in progress clears both flags, runs nothing, and leaves the task the output waiter with the kernel registered for output |
| `ReadinessTheorems.ConnectTells` | tx_aiocb.cpp:263-270 | a connect answered at once tells the task and sets TX_WRITABLE; a refused one sets TX_READABLE too |
| `ReadinessTheorems.AttachedIs` | tx_epoll.cpp:82-110 | a new descriptor is writable, not readable, waited for by nobody and registered for nothing |
| `ReadinessTheorems.CancelledInput` | tx_aiocb.cpp:175-180 | a waiter that cancelled is not told by a later report; cancelling for somebody else changes nothing |
| `ReadinessTheorems.CancelledOutput` | tx_aiocb.cpp:143-148 | the same of output |
| `ReadinessTheorems.PollMarks` | tx_epoll.cpp:219-254 | after a poll every reported side is ready, waited for by nobody and registered for no more; sides and descriptors not reported are as they were |
| `ReadinessTheorems.PollerRejoins` | tx_epoll.cpp:255-263 | and the poller is on the run queue again, unless the loop is stopped |
| `Readiness.Epoll.constructor` | tx_epoll.cpp:286-304 | a new epoll poller without descriptors, its task on the run queue; in order unless another poller holds the loop |
| `Readiness.Epoll.NewAiocb` | tx_aiocb.cpp:196-212 | a new descriptor is attached with an empty mask |
| `Readiness.Epoll.PollIn` | tx_epoll.cpp:112-144 | takes the model's step: EPOLL_CTL_MOD with both conditions wanted, counted once, and the holder claimed |
| `Readiness.Epoll.PollOut` | tx_epoll.cpp:48-80 | the same for output |
| `Readiness.Epoll.ActiveIn` | tx_aiocb.cpp:150-173 | takes the model's step and keeps the invariant |
| `Readiness.Epoll.ActiveOut` | tx_aiocb.cpp:118-141 | takes the model's step and keeps the invariant |
| `Readiness.Epoll.CancelIn` | tx_aiocb.cpp:175-180 | takes the model's step and keeps the invariant |
| `Readiness.Epoll.CancelOut` | tx_aiocb.cpp:143-148 | takes the model's step and keeps the invariant |
| `Readiness.Epoll.UpdateIn` | tx_aiocb.cpp:97-116 | takes the model's step: only a would-block clears TX_READABLE |
| `Readiness.Epoll.UpdateOut` | tx_aiocb.cpp:27-45 | takes the model's step: only a would-block clears TX_WRITABLE |
| `Readiness.Epoll.Connect` | tx_aiocb.cpp:245-264 | takes the model's step for each answer of connect(2) |
| `Readiness.Epoll.Fini` | tx_aiocb.cpp:275-283 | takes the model's step for any descriptor: it leaves the epoll set, one with a POLL flag is counted out, the holder given up with the last; everything is in order afterwards exactly under the condition of `DetachKeepsIff` |
| `Readiness.Epoll.WaitTime` | tx_epoll.cpp:213-216 | the timeout for epoll_wait is positive exactly when `tx_loop_timeout` allows it |
| `Readiness.Epoll.Serve` | tx_epoll.cpp:219-254 | the body of the loop over the reports takes the model's step |
| `Readiness.Epoll.Polling` | tx_epoll.cpp:216-263 | the poll takes the model's step for every batch the kernel may report, and keeps the invariant |
| `CompletionProofs.OpenKeeps` | tx_completion_port.cpp:244-258 | attaching makes a block with one reference, on the list once |
| `CompletionProofs.PostInKeeps` | tx_completion_port.cpp:263-350 | a receive or accept taken by the kernel adds one reference and sets POLLIN; a refused receive adds none and wakes the waiter, a refused accept changes nothing |
| `CompletionProofs.SendOutKeeps` | tx_completion_port.cpp:94-148 | a send taken by the kernel adds one reference and sets POLLOUT; one that was sent at once or refused adds none |
| `CompletionProofs.ConnectKeeps` | tx_completion_port.cpp:165-188 | so does a connect |
| `CompletionProofs.ClosePort` | tx_completion_port.cpp:352-373 | detaching drops the descriptor's reference, and deletes the block if and only if the kernel holds no operation on it |
| `CompletionProofs.CancelKeeps` | tx_aiocb.cpp:143-180 | cancelling a waiter keeps everything in order, on a detached descriptor too |
| `CompletionProofs.DrainedKeepsIff` | tx_aiocb.cpp:97-116 | so does clearing TX_READABLE if and only if the descriptor is not an attached listener that is readable, whose accepted socket would be lost |
| `CompletionTheorems.AcceptedLost` | tx_aiocb.cpp:97-116 | such a listener is reached from a new port: opened, waited on, an accept completed; after the would-block its socket is handed out by nothing |
| `CompletionProofs.CompleteKeeps` | tx_completion_port.cpp:375-404 | a completion finds its block allocated, drops one reference, and keeps the counts exact |
| `CompletionTheorems.RunSound` | tx_completion_port.cpp:94-404 | in every run of a new port, whatever the interleaving of calls and completions: reference counts exact, POLL flags of attached descriptors equal to the outstanding operations, every block on the list once, none deleted twice or while the kernel holds an operation on it |
| `CompletionTheorems.AlwaysDefined` | tx_completion_port.cpp:94-404 | no call on an attached descriptor and no completion follows a pointer to a deleted block |
| `CompletionTheorems.ReferencesAre` | tx_completion_port.cpp:281-347 | in every run a block has one reference for its descriptor and one for each outstanding operation, at least one and at most three |
| `CompletionTheorems.DeletedIff` | tx_completion_port.cpp:352-404 | in every run a block that was handed out is deleted if and only if no descriptor has it and the kernel holds no operation on it, and none is deleted twice |
| `CompletionTheorems.ListedIff` | tx_completion_port.cpp:254-258 | in every run the list holds exactly the blocks that are not deleted |
| `CompletionTheorems.FlagsMirror` | tx_completion_port.cpp:94-347 | in every run POLLIN and POLLOUT of an attached descriptor are its outstanding operations |
| `CompletionTheorems.WaiterServed` | tx_completion_port.cpp:94-404 | in every run TX_WRITABLE of an attached descriptor is clear exactly while a send or connect is outstanding, an output waiter has one to wait for, and an input waiter has a receive or accept, on a listener provided none of its AcceptEx calls failed |
| `CompletionTheorems.AcceptWaiterServedIff` | tx_completion_port.cpp:299-323 | waiting on a listener that is not readable gets an accept to wait for if and only if AcceptEx is taken or one is outstanding, since the failing branch only closes the new socket |
| `CompletionTheorems.RefusedAccept` | tx_completion_port.cpp:299-323 | a new listener whose AcceptEx fails is left with a waiter and no operation |
| `CompletionTheorems.WaitsOnlyIdle` | tx_completion_port.cpp:418-434 | once a completion has told a task, no later wait of the same poll is longer than 0 |
| `CompletionTheorems.FirstWaitIff` | tx_completion_port.cpp:418-421 | a poll begins with a wait of 15 if and only if no break is pending, no task is BUSY, `tx_holder` is free or names the port, and no count leaked in the last two rounds is in the way |
| `CompletionTheorems.Accepted` | tx_completion_port.cpp:195-213 | `tx_completion_port_accept` hands out a socket exactly when the listener is readable |
| `CompletionTheorems.OutputServed` | tx_completion_port.cpp:215-229 | so although pollout does nothing, in every run waiting for output tells the task at once or leaves it with a send or connect outstanding |
| `CompletionTheorems.InputServed` | tx_aiocb.cpp:150-173 | in every run waiting for input on a readable descriptor tells the task at once; so does a receive the kernel refuses, which leaves the descriptor readable; otherwise the task waits, with an operation outstanding unless AcceptEx failed |
| `CompletionTheorems.SendServed` | tx_completion_port.cpp:94-148 | in every run a send that is taken is outstanding with TX_WRITABLE clear, a refused one tells the output waiter, one sent at once changes nothing |
| `CompletionTheorems.ConnectServed` | tx_completion_port.cpp:165-188 | in every run a connect that is taken leaves the task waiting with the operation outstanding; a refused one tells it if the descriptor was writable |
| `CompletionTheorems.CompletionTells` | tx_completion_port.cpp:375-404 | in every run a completion tells the waiter of its side, makes that side ready and leaves the other alone; one for a detached descriptor tells nobody |
| `CompletionTheorems.AcceptOnce` | tx_completion_port.cpp:195-213 | an accepted socket is handed out once: afterwards the listener is not readable and has none |
| `CompletionTheorems.AcceptsWhatWasPosted` | tx_completion_port.cpp:195-213 | and it is the one the accept was posted with |
| `CompletionTheorems.ClosedIs` | tx_completion_port.cpp:352-373 | in every run a closed descriptor is detached and leads to no block, its block is deleted if and only if nothing is outstanding on it, all other descriptors stay; closing it again does nothing |
| `CompletionTheorems.CancelledIs` | tx_aiocb.cpp:143-180 | a waiter that cancelled is not told by a later completion |
| `CompletionTheorems.PollerRejoins` | tx_completion_port.cpp:436-440 | after a poll the poller is on the run queue again, unless the loop is stopped |
| `Completion.CompletionPort.constructor` | tx_completion_port.cpp:467-480 | a new port without descriptors and an empty block list |
| `Completion.CompletionPort.Open` | tx_completion_port.cpp:231-261 | takes the model's step with a new block inserted at the head of the list |
| `Completion.CompletionPort.Wait` | tx_aiocb.cpp:150-173 | generic_active_in over this port takes the model's step |
| `Completion.CompletionPort.WaitWritable` | tx_aiocb.cpp:118-141 | generic_active_out over this port takes the model's step |
| `Completion.CompletionPort.SendData` | tx_completion_port.cpp:94-148 | takes the model's step for each answer of the kernel |
| `Completion.CompletionPort.Connect` | tx_aiocb.cpp:266-272 | takes the model's step: connect, then generic_active_out |
| `Completion.CompletionPort.Accept` | tx_completion_port.cpp:195-213 | takes the model's step and returns the socket that was kept, or -1 |
| `Completion.CompletionPort.Cancel` | tx_aiocb.cpp:143-180 | takes the model's step, on any descriptor |
| `Completion.CompletionPort.Drained` | tx_aiocb.cpp:97-116 | takes the model's step on any descriptor: a would-block clears TX_READABLE; everything is in order afterwards exactly under the condition of `DrainedKeepsIff` |
| `Completion.CompletionPort.Fini` | tx_completion_port.cpp:352-373 | takes the model's step; with the last reference the block is unlinked |
| `Completion.CompletionPort.HandleOverlapped` | tx_completion_port.cpp:375-404 | takes the model's step, looking at nothing of the block once it is deleted |
| `Completion.CompletionPort.Polling` | tx_completion_port.cpp:406-440 | asks `tx_loop_timeout` how long to wait before every completion and before the one that finds none, handles every operation the kernel gives back as the model does, one after the other, and joins the run queue again |
| `DottedQuad.PrintedIff` | tx_platform.cpp:236-273 | the IPv4address language of section 3.2.2 of RFC 3986 is exactly what printing four bytes produces |
| `DottedQuad.ScanAllReads` | tx_platform.cpp:245-267 | whenever the loop has not failed, the octets read so far print as the text read so far |
| `DottedQuad.ScansPrinted` | tx_platform.cpp:245-267 | the loop accepts the printed form of every quad and finds that quad |
| `DottedQuad.AcceptsIff` | tx_platform.cpp:236-273 | the loop accepts exactly the language, and only with the quad that prints as the text |
| `DottedQuad.Feed` | tx_platform.cpp:246-266 | the body of the loop takes the scanner's step, and `tp` stays inside the four bytes |
| `DottedQuad.ScanText` | tx_platform.cpp:242-269 | the loop accepts what the scanner accepts and leaves its octets in the buffer |
| `DottedQuad.InetPton4` | tx_platform.cpp:236-273 | returns 1 exactly for the language, with dst the quad that prints as the text; otherwise 0 and dst unchanged |
| `DottedQuad.PrintInjective` | tx_platform.cpp:236-273 | two quads that print alike are equal |
| `Pump.Pipling.Fill` | netcat.cpp:50-56 | after a recv, with `tx_aincb_update`, the bytes received are still those written followed by those in the buffer; only a hard error breaks the loop |
| `Pump.Pipling.Drain` | netcat.cpp:77-80 | after a write, partial or failed, with `tx_outcb_update`, the same |
| `Pump.AwaitInput` | netcat.cpp:44-47 | `tx_aincb_active` of a descriptor that is not readable leaves the task registered with the kernel for input |
| `Pump.AwaitOutput` | netcat.cpp:72-75 | `tx_outcb_prepare` of one that is not writable leaves it registered for output |
| `Pump.Pipling.Pump` | netcat.cpp:38-84 | conservation over the whole call, which stops only where it must: it goes on until an answer is missing that it needs, breaks at the first error it meets and at no other, returns 1 exactly with its task registered with the kernel for a side that is not ready, and 0 without an error exactly when end of file was seen and the whole input written; every answer it used was heard by its descriptor, and only the input side of the one and the output side of the other are touched |
| `Netcat.Netcat.Update` | netcat.cpp:86-100 | `update_netcat`: both pumps run, each as `Pump` says and without touching what the other left; `tx_stop` is set exactly when both have returned and one of them 0, and left alone otherwise |
| `Netcat.Netcat.Session` | netcat.cpp:86-100 | any number of calls with any reports of the poller in between: all are made until one stops the loop, each as `Update` says, the descriptors hear exactly the answers the calls used, and a direction that ended without error has written its whole input |
| `Pump.Thread` | netcat.cpp:168-194 | the blocking pump loses, repeats and reorders nothing, goes on until an answer is missing that it needs, ends with an error at the first failing call and at no other, and without one exactly when recv has reported the end and the whole input is written |

## Left out

- `tx_kqueue.cpp`: its counter adds one per filter and subtracts one per descriptor, so the count invariant does not carry over.
- The task stack (`tx_loop.cpp:229-319`) and the disabled wait/iocb code: easy push and pop facts.
- What happens after `tx_loop_stop` beyond leaving the loop, except a wakeup: the timer ring that deletes itself is only reported (`dead`), not deleted.
- `tx_loop_delete`, `tx_loop_default`, `tx_task_null`, re-initialising a task or timer that is in use, several loops, and `tx_loop_main` called from inside a callback.
- Overflow of the `int` counters `tx_actives`, `tx_upcount` and the reference counts: they are unbounded here.
- Re-attaching, what follows a repeated detach, failing `epoll_ctl` (also the EPERM branch of attach), `epoll_wait` errors and the limit of 10 events per call: any finite batch is allowed.
- `tx_epoll_init` and `tx_timer_ring_get` searching the run queue for an existing poller.
- `DISABLE_MULTI_POLLER`, logging, TX_CHECK messages; a failing TX_ASSERT or TX_PANIC is a precondition or excluded answer.
- Two tasks waiting for the same side of a descriptor: the second replaces the first, as in the code, and the promise is about the one that is kept.
- The bytes of `tx_cache`, oversized sends and TX_MEMLOCK of the completion port: only which operations are outstanding is modelled.
- The buffer of tx_pipling_t is one of any positive size; the pumps run over the epoll poller, whose `generic_active_in` and `generic_active_out` are those of the completion port; closing the target at the end of the thread function.
- A tx_aiocb made with the descriptor -1, which is never attached; of tx_outcb_write, tx_outcb_xsend and tx_listen_accept over epoll only what a would-block does to the flags.
- WheelWidth.MachineRun: stops where the wheel counters wrap (`CounterWrapIff`), because from there on slots are numbered differently and the two rings are no longer images of each other; what timers then do is said by `WheelTruth.NeverLate`.
- WheelTruth.NeverLate: asks for polls no further apart than `MayTickAfter` says, because longer gaps lose timers (`GapTooLong`).
- Loop.TaskLoop.RunMain: observes any finite number of iterations, because callbacks may keep the loop running for ever.
- Pump.Pipling.Pump: observes any finite number of answers, for the same reason.
