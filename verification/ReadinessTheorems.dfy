/** What the readiness layer promises: nobody waits in vain, a report queues its waiter, and only the
    epoll poller blocks while a descriptor is registered. */
module ReadinessTheorems {
  import LoopModel
  import LoopProofs
  import opened LoopTheorems
  import LoopEnds
  import opened ReadinessModel
  import opened ReadinessProofs

  // ---------------------------------------------------------------- no waiter is lost

  /** In every run of a new poller, whoever waits on an attached descriptor will be reported to: the
      kernel is registered for it. */
  lemma WaiterRegistered(s: System, es: seq<Event>, r: System, f: Aiocb)
    requires NewPoller(s) && Run(s, es, r) && f in r.io.filps && Live(r.io.filps[f])
    ensures f in r.io.kernel
    ensures r.io.filps[f].filterIn != null ==> r.io.kernel[f].input
    ensures r.io.filps[f].filterOut != null ==> r.io.kernel[f].output
  {
    hide LoopProofs.Inv, Run, NewPoller;
    RunReady(s, es, r);
    assert WaiterPolled(r.io.filps[f]);
  }

  /** That tx_aincb_active registers its task with the kernel is false of a descriptor detached while
      POLLIN was set: the flag stays and the call returns early. It is true exactly of live ones. */
  lemma RegistersIff(s: System, f: Aiocb, task: OptTask)
    requires Ready(s) && f in s.io.filps && !s.io.filps[f].readable && (task != null ==> task in s.loop.tasks)
    requires s.io.filps[f].pollIn || Live(s.io.filps[f])
    ensures var r := ActiveIn(s, f, task);
            && r.io.filps[f].filterIn == task
            && ((f in r.io.kernel && r.io.kernel[f].input) <==> Live(s.io.filps[f]))
  {
    hide LoopProofs.Inv;
  }

  /** The same of tx_outcb_prepare and POLLOUT. */
  lemma RegistersOutIff(s: System, f: Aiocb, task: OptTask)
    requires Ready(s) && f in s.io.filps && !s.io.filps[f].writable && (task != null ==> task in s.loop.tasks)
    requires s.io.filps[f].pollOut || Live(s.io.filps[f])
    ensures var r := ActiveOut(s, f, task);
            && r.io.filps[f].filterOut == task
            && ((f in r.io.kernel && r.io.kernel[f].output) <==> Live(s.io.filps[f]))
  {
    hide LoopProofs.Inv;
  }

  /** An event, and then the rest of a run. */
  lemma RunFirst(s: System, e: Event, es: seq<Event>, r: System)
    requires Usable(s) && Enabled(s, e) && Run(Next(s, e), es, r)
    ensures Run(s, [e] + es, r)
  {
    hide Usable, Enabled, Next;
    assert ([e] + es)[1..] == es;
  }

  /** What a descriptor is after a task waited for input on it and it was then detached. */
  const LEFT_WAITING := NEW_FILP.(attached := true, detached := true, pollIn := true)

  lemma NoneYet(s: System, f: Aiocb)
    requires NewPoller(s)
    ensures f !in s.io.filps
  {
    hide LoopProofs.Inv;
  }

  lemma AttachIs(s: System, f: Aiocb)
    requires Usable(s) && Enabled(s, AttachEvent(f))
    ensures Next(s, AttachEvent(f)) == Attach(s, f)
  {
    hide Attach, Usable, Enabled;
  }

  lemma WaitIs(s: System, f: Aiocb, task: Task)
    requires Usable(s) && Enabled(s, ActiveInEvent(f, task))
    requires s.loop.taskq in s.loop.fam.lists && f in s.io.filps && task in s.loop.tasks
    ensures Next(s, ActiveInEvent(f, task)) == ActiveIn(s, f, task)
  {
    hide ActiveIn, Usable, Enabled;
  }

  lemma DetachIs(s: System, f: Aiocb)
    requires Usable(s) && Enabled(s, DetachEvent(f)) && f in s.io.filps
    ensures Next(s, DetachEvent(f)) == Detach(s, f)
  {
    hide Detach, Usable, Enabled;
  }

  lemma CanAttach(s: System, f: Aiocb)
    requires Usable(s) && f !in s.io.filps
    ensures Enabled(s, AttachEvent(f))
  {
    hide Usable;
  }

  lemma CanWait(s: System, f: Aiocb, task: Task)
    requires Usable(s) && f in s.io.filps && task in s.loop.tasks && (s.io.filps[f].pollIn || Live(s.io.filps[f]))
    ensures Enabled(s, ActiveInEvent(f, task))
  {
    hide Usable;
  }

  lemma CanDetach(s: System, f: Aiocb)
    requires Usable(s) && f in s.io.filps && Live(s.io.filps[f])
    ensures Enabled(s, DetachEvent(f))
  {
    hide Usable;
  }

  lemma AttachFirst(s: System, f: Aiocb, es: seq<Event>, r: System)
    requires Ready(s) && f !in s.io.filps && Run(Attach(s, f), es, r)
    ensures Run(s, [AttachEvent(f)] + es, r)
  {
    ReadyParts(s);
    hide Ready, Usable, Attach, Enabled, Next, Run;
    CanAttach(s, f);
    AttachIs(s, f);
    RunFirst(s, AttachEvent(f), es, r);
  }

  lemma WaitFirst(s: System, f: Aiocb, task: Task, es: seq<Event>, r: System)
    requires Ready(s) && f in s.io.filps && task in s.loop.tasks && (s.io.filps[f].pollIn || Live(s.io.filps[f]))
    requires s.loop.taskq in s.loop.fam.lists && Run(ActiveIn(s, f, task), es, r)
    ensures Run(s, [ActiveInEvent(f, task)] + es, r)
  {
    ReadyParts(s);
    hide Ready, Usable, ActiveIn, Enabled, Next, Run, Live;
    CanWait(s, f, task);
    WaitIs(s, f, task);
    RunFirst(s, ActiveInEvent(f, task), es, r);
  }

  lemma DetachFirst(s: System, f: Aiocb, es: seq<Event>, r: System)
    requires Ready(s) && f in s.io.filps && Live(s.io.filps[f]) && Run(Detach(s, f), es, r)
    ensures Run(s, [DetachEvent(f)] + es, r)
  {
    ReadyParts(s);
    hide Ready, Usable, Detach, Enabled, Next, Run, Live;
    CanDetach(s, f);
    DetachIs(s, f);
    RunFirst(s, DetachEvent(f), es, r);
  }

  /** A new descriptor, waited on for input and then detached. */
  lemma WaitDetach(s: System, f: Aiocb, task: Task) returns (a: System, w: System, d: System)
    requires NewPoller(s) && task in s.loop.tasks && s.loop.taskq in s.loop.fam.lists
    ensures a == Attach(s, f) && a.loop == s.loop && f in a.io.filps && Live(a.io.filps[f])
    ensures w == ActiveIn(a, f, task) && w.loop.tasks == s.loop.tasks && f in w.io.filps && Live(w.io.filps[f])
    ensures d == Detach(w, f) && d.loop == s.loop && f in d.io.filps && d.io.filps[f] == LEFT_WAITING.(filterIn := task)
    ensures d.io.kernel == map[] && d.io.refcnt == 0
  {
    hide LoopProofs.Inv;
    a, w, d := Attach(s, f), ActiveIn(Attach(s, f), f, task), Detach(ActiveIn(Attach(s, f), f, task), f);
    assert d.io.kernel == map[];
    assert d.loop == s.loop.(holder := null) == s.loop;
  }

  /** A task waits for input on a new descriptor, which is then detached. */
  ghost function Left(f: Aiocb, task: Task): seq<Event> {
    [AttachEvent(f), ActiveInEvent(f, task), DetachEvent(f)]
  }

  /** a, w and d are the states a new poller s goes through: f attached, waited on, detached. */
  ghost predicate Leaving(s: System, f: Aiocb, task: Task, a: System, w: System, d: System) {
    && Ready(s) && Ready(a) && Ready(w) && Ready(d) && a.loop.taskq in a.loop.fam.lists && task in a.loop.tasks
    && f !in s.io.filps && a == Attach(s, f)
    && f in a.io.filps && Live(a.io.filps[f]) && w == ActiveIn(a, f, task)
    && f in w.io.filps && Live(w.io.filps[f]) && d == Detach(w, f)
  }

  lemma LeftWaiting(s: System, f: Aiocb, task: Task) returns (a: System, w: System, d: System)
    requires NewPoller(s) && task in s.loop.tasks
    ensures Leaving(s, f, task, a, w, d)
    ensures d.loop == s.loop && f in d.io.filps && d.io.filps[f] == LEFT_WAITING.(filterIn := task)
    ensures d.io.kernel == map[] && d.io.refcnt == 0
  {
    InitialReady(s);
    ReadyParts(s);
    NoneYet(s, f);
    a, w, d := WaitDetach(s, f, task);
    hide NewPoller, Ready, Usable, Attach, ActiveIn, Detach, Live;
    AttachKeeps(s, f);
    ActiveInKeeps(a, f, task);
    DetachKeeps(w, f);
  }

  lemma LeavingRun(s: System, f: Aiocb, task: Task, a: System, w: System, d: System, es: seq<Event>, r: System)
    requires Leaving(s, f, task, a, w, d) && Run(d, es, r)
    ensures Run(s, Left(f, task) + es, r)
  {
    hide Ready, Attach, ActiveIn, Detach, Run, Live;
    DetachFirst(w, f, es, r);
    WaitFirst(a, f, task, [DetachEvent(f)] + es, r);
    AttachFirst(s, f, [ActiveInEvent(f, task)] + ([DetachEvent(f)] + es), r);
    assert [AttachEvent(f)] + ([ActiveInEvent(f, task)] + ([DetachEvent(f)] + es)) == Left(f, task) + es;
  }

  /** Such descriptors are reached: a task waits, the descriptor is detached, and the task waits again
      without being registered for. */
  lemma WaitsDetached(s: System, f: Aiocb, task: Task) returns (r: System)
    requires NewPoller(s) && task in s.loop.tasks
    ensures Run(s, Left(f, task) + [ActiveInEvent(f, task)], r)
    ensures f in r.io.filps && r.io.filps[f].filterIn == task && f !in r.io.kernel
  {
    var a, w, d := LeftWaiting(s, f, task);
    hide NewPoller, Leaving, Ready, Run, Left;
    LeavingReady(s, f, task, a, w, d);
    r := ActiveIn(d, f, task);
    WaitsAgain(d, f, task);
    hide ActiveIn;
    WaitOnly(d, f, task);
    LeavingRun(s, f, task, a, w, d, [ActiveInEvent(f, task)], r);
  }

  /** One event of a run. */
  ghost predicate Steps(s: System, e: Event, r: System) { Usable(s) && Enabled(s, e) && r == Next(s, e) }

  lemma StepsRun(s: System, e: Event, m: System, es: seq<Event>, r: System)
    requires Steps(s, e, m) && Run(m, es, r)
    ensures Run(s, [e] + es, r)
  {
    hide Usable, Enabled, Next;
    assert ([e] + es)[1..] == es;
  }

  /** A new descriptor on which a write would block is waited for, detached, and waited for again. */
  ghost function LeftOut(f: Aiocb, task: Task): seq<Event> {
    [AttachEvent(f), UpdateOutEvent(f, -1, true), ActiveOutEvent(f, task), DetachEvent(f), ActiveOutEvent(f, task)]
  }

  lemma OutAttached(s: System, f: Aiocb) returns (a: System, u: System)
    requires NewPoller(s)
    ensures Steps(s, AttachEvent(f), a) && Steps(a, UpdateOutEvent(f, -1, true), u) && u.loop == s.loop && Ready(u)
    ensures f in u.io.filps && u.io.filps[f] == NEW_FILP.(attached := true, writable := false)
  {
    InitialReady(s);
    ReadyParts(s);
    NoneYet(s, f);
    hide NewPoller, Ready, Next, Enabled, Usable;
    CanAttach(s, f);
    a := Next(s, AttachEvent(f));
    NextReady(s, AttachEvent(f));
    ReadyParts(a);
    AttachedNew(s, f, a);
    BlockedNew(a, f);
    u := Next(a, UpdateOutEvent(f, -1, true));
    NextReady(a, UpdateOutEvent(f, -1, true));
  }

  lemma AttachedNew(s: System, f: Aiocb, a: System)
    requires Usable(s) && Enabled(s, AttachEvent(f)) && a == Next(s, AttachEvent(f))
    ensures a.loop == s.loop && f in a.io.filps && a.io.filps[f] == NEW_FILP.(attached := true)
  {
    hide Usable;
  }

  lemma BlockedNew(a: System, f: Aiocb)
    requires Usable(a) && f in a.io.filps && a.io.filps[f] == NEW_FILP.(attached := true)
    ensures Enabled(a, UpdateOutEvent(f, -1, true))
    ensures var u := Next(a, UpdateOutEvent(f, -1, true));
            u.loop == a.loop && f in u.io.filps && u.io.filps[f] == NEW_FILP.(attached := true, writable := false)
  {
    hide Usable;
  }

  /** A descriptor that would block, for which a task waits. */
  const WAITING_OUT := NEW_FILP.(attached := true, writable := false, pollOut := true)

  lemma OutWaited(u: System, f: Aiocb, task: Task, w: System)
    requires Usable(u) && task in u.loop.tasks && f in u.io.filps && u.io.filps[f] == NEW_FILP.(attached := true, writable := false)
    ensures Enabled(u, ActiveOutEvent(f, task))
    ensures w == Next(u, ActiveOutEvent(f, task)) ==>
              w.loop.tasks == u.loop.tasks && f in w.io.filps && w.io.filps[f] == WAITING_OUT.(filterOut := task)
  {
    hide Usable;
  }

  lemma OutLeft(w: System, f: Aiocb, task: Task, d: System)
    requires Usable(w) && f in w.io.filps && w.io.filps[f] == WAITING_OUT.(filterOut := task)
    ensures Enabled(w, DetachEvent(f))
    ensures d == Next(w, DetachEvent(f)) ==>
              && d.loop.tasks == w.loop.tasks && f in d.io.filps && f !in d.io.kernel
              && d.io.filps[f].pollOut && !d.io.filps[f].writable
  {
    hide Usable;
  }

  lemma OutAgain(d: System, f: Aiocb, task: Task, r: System)
    requires Usable(d) && task in d.loop.tasks && f in d.io.filps && d.io.filps[f].pollOut && !d.io.filps[f].writable
    ensures Enabled(d, ActiveOutEvent(f, task))
    ensures r == Next(d, ActiveOutEvent(f, task)) ==>
              f in r.io.filps && r.io.filps[f].filterOut == task && r.io.kernel == d.io.kernel
  {
    hide Usable;
  }

  lemma OutDetached(u: System, f: Aiocb, task: Task) returns (w: System, d: System, r: System)
    requires Ready(u) && task in u.loop.tasks && f in u.io.filps && u.io.filps[f] == NEW_FILP.(attached := true, writable := false)
    ensures Steps(u, ActiveOutEvent(f, task), w) && Steps(w, DetachEvent(f), d) && Steps(d, ActiveOutEvent(f, task), r)
    ensures f in r.io.filps && r.io.filps[f].filterOut == task && f !in r.io.kernel
  {
    ReadyParts(u);
    hide Ready, Usable, Next, Enabled;
    OutWaited(u, f, task, u);
    w := Next(u, ActiveOutEvent(f, task));
    OutWaited(u, f, task, w);
    NextReady(u, ActiveOutEvent(f, task));
    ReadyParts(w);
    OutLeft(w, f, task, w);
    d := Next(w, DetachEvent(f));
    OutLeft(w, f, task, d);
    NextReady(w, DetachEvent(f));
    ReadyParts(d);
    OutAgain(d, f, task, d);
    r := Next(d, ActiveOutEvent(f, task));
    OutAgain(d, f, task, r);
  }

  /** The same of output. */
  lemma WaitsDetachedOut(s: System, f: Aiocb, task: Task) returns (r: System)
    requires NewPoller(s) && task in s.loop.tasks
    ensures Run(s, LeftOut(f, task), r)
    ensures f in r.io.filps && r.io.filps[f].filterOut == task && f !in r.io.kernel
  {
    hide NewPoller, Ready, Steps, Run;
    var a, u := OutAttached(s, f);
    var w, d, e := OutDetached(u, f, task);
    r := e;
    RunNone(r);
    StepsRun(d, ActiveOutEvent(f, task), r, [], r);
    StepsRun(w, DetachEvent(f), d, [ActiveOutEvent(f, task)] + [], r);
    StepsRun(u, ActiveOutEvent(f, task), w, [DetachEvent(f)] + ([ActiveOutEvent(f, task)] + []), r);
    StepsRun(a, UpdateOutEvent(f, -1, true), u, [ActiveOutEvent(f, task)] + ([DetachEvent(f)] + ([ActiveOutEvent(f, task)] + [])), r);
    StepsRun(s, AttachEvent(f), a,
             [UpdateOutEvent(f, -1, true)] + ([ActiveOutEvent(f, task)] + ([DetachEvent(f)] + ([ActiveOutEvent(f, task)] + []))), r);
    assert LeftOut(f, task) == [AttachEvent(f)]
      + ([UpdateOutEvent(f, -1, true)] + ([ActiveOutEvent(f, task)] + ([DetachEvent(f)] + ([ActiveOutEvent(f, task)] + []))));
  }

  lemma WaitOnly(s: System, f: Aiocb, task: Task)
    requires Ready(s) && f in s.io.filps && task in s.loop.tasks && (s.io.filps[f].pollIn || Live(s.io.filps[f]))
    requires s.loop.taskq in s.loop.fam.lists
    ensures Run(s, [ActiveInEvent(f, task)], ActiveIn(s, f, task))
  {
    hide Ready, ActiveIn, Live;
    var r := ActiveIn(s, f, task);
    RunNone(r);
    WaitFirst(s, f, task, [], r);
    assert [ActiveInEvent(f, task)] + [] == [ActiveInEvent(f, task)];
  }

  lemma LeavingReady(s: System, f: Aiocb, task: Task, a: System, w: System, d: System)
    requires Leaving(s, f, task, a, w, d)
    ensures Ready(d) && d.loop.taskq in d.loop.fam.lists
  {
    hide Ready, Attach, ActiveIn, Detach;
    ReadyParts(d);
  }

  lemma WaitsAgain(d: System, f: Aiocb, task: Task)
    requires d.loop.taskq in d.loop.fam.lists && task in d.loop.tasks && f in d.io.filps
    requires var x := d.io.filps[f]; x.pollIn && !x.readable
    ensures var r := ActiveIn(d, f, task); f in r.io.filps && r.io.filps[f].filterIn == task && r.io.kernel == d.io.kernel
  {
  }

  lemma RunNone(s: System)
    ensures Run(s, [], s)
  {
  }

  /** Detaching such a descriptor again takes the count below the number of registered ones. */
  lemma DetachedTwice(s: System, f: Aiocb, task: Task) returns (d: System, r: System)
    requires NewPoller(s) && task in s.loop.tasks
    ensures Run(s, Left(f, task), d)
    ensures f in d.io.filps && r == Detach(d, f) && r.io.refcnt == -1 && ArmedSet(r.io) == {} && !Ready(r)
  {
    hide NewPoller, Leaving, Ready, Detach, Run, ArmedSet, Left;
    var a, w, e := LeftWaiting(s, f, task);
    d, r := e, Detach(e, f);
    LeavingReady(s, f, task, a, w, d);
    RunNone(d);
    LeavingRun(s, f, task, a, w, d, [], d);
    assert Left(f, task) + [] == Left(f, task);
    MiscountedDetach(d, f);
    NoneArmed(d);
    SameArmed(d.io, r.io);
  }

  lemma NoneArmed(s: System)
    requires Ready(s) && s.io.refcnt == 0
    ensures ArmedSet(s.io) == {}
  {
    hide LoopProofs.Inv, Agrees, Waiting;
  }

  lemma SameArmed(io: Io, r: Io)
    requires r.filps == io.filps
    ensures ArmedSet(r) == ArmedSet(io)
  {
  }

  // ---------------------------------------------------------------- a report queues its waiter

  /** One report wakes its own waiters and leaves the waiters of the other descriptors. */
  lemma DeliverQueues(s: System, e: Report)
    requires Usable(s) && e.filp in s.io.filps && !s.loop.stop
    ensures var r, x := Deliver(s, e), s.io.filps[e.filp];
            && StillBusy(s.loop, r.loop)
            && (e.input || e.hup ==> Queued(r.loop, x.filterIn))
            && (e.output || e.hup ==> Queued(r.loop, x.filterOut))
            && forall g :: g in s.io.filps && g != e.filp ==> r.io.filps[g] == s.io.filps[g]
  {
    hide WakeIn, WakeOut, Usable, StillBusy, Queued;
    var f := e.filp;
    var c := s.(io := s.io.(refcnt := s.io.refcnt - 1));
    UsableAgain(s, c);
    SameBusy(s.loop);
    var a := if e.output || e.hup then WakeOut(c, f) else c;
    if e.output || e.hup { WakeOutQueues(c, f); }
    if e.input || e.hup { WakeInQueues(a, f, s.loop, s.io.filps[f].filterOut); }
  }

  lemma SameBusy(l: LoopState)
    ensures StillBusy(l, l)
  {
  }

  lemma WakeOutQueues(s: System, f: Aiocb)
    requires Usable(s) && f in s.io.filps && !s.loop.stop
    ensures var r := WakeOut(s, f);
            && StillBusy(s.loop, r.loop) && Queued(r.loop, s.io.filps[f].filterOut)
            && r.io.filps[f].filterIn == s.io.filps[f].filterIn && !r.loop.stop
            && forall g :: g in s.io.filps && g != f ==> r.io.filps[g] == s.io.filps[g]
  {
    hide LoopModel.Activated;
    ActivatedQueues(s.loop, s.io.filps[f].filterOut, f);
  }

  lemma WakeInQueues(s: System, f: Aiocb, l: LoopState, other: OptTask)
    requires Usable(s) && f in s.io.filps && !s.loop.stop && StillBusy(l, s.loop)
    ensures var r := WakeIn(s, f);
            && StillBusy(l, r.loop) && Queued(r.loop, s.io.filps[f].filterIn)
            && (Queued(s.loop, other) ==> Queued(r.loop, other))
            && forall g :: g in s.io.filps && g != f ==> r.io.filps[g] == s.io.filps[g]
  {
    hide LoopModel.Activated;
    ActivatedQueues(s.loop, s.io.filps[f].filterIn, f);
  }

  lemma {:induction false} AllQueue(s: System, batch: seq<Report>, e: Report)
    requires Usable(s) && Apart(batch) && (forall d :: d in batch ==> d.filp in s.io.filps) && !s.loop.stop
    ensures var r := DeliverAll(s, batch);
            && StillBusy(s.loop, r.loop)
            && (e in batch && (e.input || e.hup) ==> Queued(r.loop, s.io.filps[e.filp].filterIn))
            && (e in batch && (e.output || e.hup) ==> Queued(r.loop, s.io.filps[e.filp].filterOut))
    decreases |batch|
  {
    hide Deliver, Usable;
    if batch != [] {
      ApartRest(batch);
      assert batch[0] in batch;
      DeliverQueues(s, batch[0]);
      assert forall d :: d in batch[1..] ==> d in batch && d.filp in Filps(batch[1..]);
      AllQueue(Deliver(s, batch[0]), batch[1..], e);
    }
  }

  /** While the loop is not stopped, every report in a batch leaves the tasks waiting for it on the run
      queue, to be run. */
  lemma ReportQueues(s: System, batch: seq<Report>, e: Report)
    requires Ready(s) && Reported(s.io, batch) && e in batch && !s.loop.stop
    requires forall d :: d in batch ==> d.filp in s.io.filps
    ensures var r, x := Polling(s, batch), s.io.filps[e.filp];
            && (e.input || e.hup ==> x.filterIn == null || (Queued(r.loop, x.filterIn) && LoopModel.OnQueue(r.loop, x.filterIn)))
            && (e.output || e.hup ==> x.filterOut == null || (Queued(r.loop, x.filterOut) && LoopModel.OnQueue(r.loop, x.filterOut)))
  {
    var x, w := s.io.filps[e.filp], s.(io := Waited(s.io, batch));
    PollingKeeps(s, batch);
    WaitedSane(s, batch);
    hide LoopProofs.Inv, DeliverAll, Usable, Waited, Sane, LoopModel.OnQueue, Queued, Release, LoopModel.PollActivate;
    AllQueue(w, batch, e);
    EndQueues(DeliverAll(w, batch), x.filterIn, Polling(s, batch));
    EndQueues(DeliverAll(w, batch), x.filterOut, Polling(s, batch));
  }

  lemma EndQueues(d: System, t: OptTask, r: System)
    requires Usable(d) && Ready(r) && r == Release(d).(loop := LoopModel.PollActivate(Release(d).loop, d.io.poller))
    ensures Queued(d.loop, t) ==> t == null || (Queued(r.loop, t) && LoopModel.OnQueue(r.loop, t))
  {
    if t != null && Queued(d.loop, t) {
      LoopProofs.InvParts(r.loop);
      hide LoopProofs.Inv, LoopModel.Append, LoopModel.OnQueue;
      assert r.loop.tasks[t].busy;
    }
  }

  // ---------------------------------------------------------------- who may block

  /** While a descriptor is registered no other poller is ever allowed to block; and nobody is while a
      task is waiting to run. */
  lemma OnlyEpollBlocks(s: System, verify: object?)
    requires Ready(s) && LoopModel.Timeout(s.loop, verify) != 0
    ensures LoopProofs.BusyTasks(s.loop) == {}
    ensures ArmedSet(s.io) == {} || verify == s.io.epoll
  {
    if LoopProofs.BusyTasks(s.loop) != {} {
      BusyMeansNow(s.loop, verify);
    }
    hide LoopProofs.Inv;
    if ArmedSet(s.io) != {} {
      assert |ArmedSet(s.io)| > 0;
    }
  }

  /** Over any run of a new poller. */
  lemma RunBlocks(s: System, es: seq<Event>, r: System, verify: object?)
    requires NewPoller(s) && Run(s, es, r) && LoopModel.Timeout(r.loop, verify) != 0
    ensures LoopProofs.BusyTasks(r.loop) == {} && (ArmedSet(r.io) == {} || verify == r.io.epoll)
  {
    RunReady(s, es, r);
    OnlyEpollBlocks(r, verify);
  }

  /** When a poller may sleep, exactly: no break is pending, nothing is BUSY, nothing is registered with the kernel
      unless the poller is epoll, and no count leaked in the last two rounds is in the way. */
  lemma SleepsIff(s: System, verify: object?)
    requires Ready(s)
    ensures LoopModel.Timeout(s.loop, verify) != 0
       <==> && !s.loop.brk && LoopProofs.BusyTasks(s.loop) == {}
            && (ArmedSet(s.io) == {} || verify == s.io.epoll)
            && (Slack(s.loop) == 0 || !LoopModel.LastTwoRounds(s.loop.busy))
  {
    ReadyParts(s);
    LoopEnds.TimeoutIff(s.loop, verify);
    hide LoopProofs.Inv, LoopModel.Timeout, Slack, LoopProofs.BusyTasks;
    ArmedHolder(s);
  }

  lemma ArmedHolder(s: System)
    requires Ready(s)
    ensures s.loop.holder == if ArmedSet(s.io) == {} then null else s.io.epoll
  {
    hide LoopProofs.Inv, Usable, Agrees, Waiting;
    if ArmedSet(s.io) != {} { assert |ArmedSet(s.io)| > 0; }
  }

  /** The same in every run of a new poller. */
  lemma RunSleepsIff(s: System, es: seq<Event>, r: System, verify: object?)
    requires NewPoller(s) && Run(s, es, r)
    ensures LoopModel.Timeout(r.loop, verify) != 0
       <==> && !r.loop.brk && LoopProofs.BusyTasks(r.loop) == {}
            && (ArmedSet(r.io) == {} || verify == r.io.epoll)
            && (Slack(r.loop) == 0 || !LoopModel.LastTwoRounds(r.loop.busy))
  {
    hide NewPoller, Run, Ready;
    RunReady(s, es, r);
    SleepsIff(r, verify);
  }

  // ---------------------------------------------------------------- told at once, or registered

  lemma SystemTells(s: System, task: OptTask, f: object?)
    requires Ready(s) && (task != null ==> task in s.loop.tasks)
    ensures s.loop.taskq in s.loop.fam.lists && Told(s.loop, LoopModel.Activated(s.loop, task, f), task)
  {
    ReadyParts(s);
    hide Ready, LoopProofs.Inv, LoopModel.Activated, Told;
    LoopTheorems.ActivationTells(s.loop, task, f);
  }

  lemma KernelWants(s: System, f: Aiocb)
    requires ReadinessProofs.Ready(s) && f in s.io.filps && Live(s.io.filps[f])
    ensures f in s.io.kernel && s.io.kernel[f] == Wanted(s.io.filps[f])
  {
    hide LoopProofs.Inv, Counted, Waiting;
  }

  lemma AwaitInputIs(s: System, f: Aiocb, task: Task)
    requires s.loop.taskq in s.loop.fam.lists && f in s.io.filps && task in s.loop.tasks && !s.io.filps[f].readable
    requires f in s.io.kernel && s.io.kernel[f] == Wanted(s.io.filps[f])
    ensures var r := ActiveIn(s, f, task);
            && r.loop == s.loop.(holder := r.loop.holder)
            && r.io.filps == s.io.filps[f := s.io.filps[f].(filterIn := task, pollIn := true)]
            && f in r.io.kernel && r.io.kernel[f].input
  {
    var x := s.io.filps[f];
    assert s.io.filps[f := x.(filterIn := task)][f := x.(filterIn := task, pollIn := true)]
        == s.io.filps[f := x.(filterIn := task, pollIn := true)];
  }

  lemma AwaitOutputIs(s: System, t: Aiocb, task: Task)
    requires s.loop.taskq in s.loop.fam.lists && t in s.io.filps && task in s.loop.tasks && !s.io.filps[t].writable
    requires t in s.io.kernel && s.io.kernel[t] == Wanted(s.io.filps[t])
    ensures var r := ActiveOut(s, t, task);
            && r.loop == s.loop.(holder := r.loop.holder)
            && r.io.filps == s.io.filps[t := s.io.filps[t].(filterOut := task, pollOut := true)]
            && t in r.io.kernel && r.io.kernel[t].output
  {
    var x := s.io.filps[t];
    assert s.io.filps[t := x.(filterOut := task)][t := x.(filterOut := task, pollOut := true)]
        == s.io.filps[t := x.(filterOut := task, pollOut := true)];
  }

  /** Waiting for input, in every run of a new poller: on a readable descriptor the task is told at once, and nothing
      else changes; on an attached one that is not, it becomes the waiter and the kernel is registered for input. */
  lemma InputServed(s: System, es: seq<Event>, r: System, f: Aiocb, task: Task)
    requires NewPoller(s) && Run(s, es, r) && f in r.io.filps && task in r.loop.tasks
    ensures r.loop.taskq in r.loop.fam.lists
    ensures var n, x := ActiveIn(r, f, task), r.io.filps[f];
            && (x.readable ==> n.io == r.io && Told(r.loop, n.loop, task))
            && (!x.readable && Live(x) ==>
                  && n.loop == r.loop.(holder := n.loop.holder) && f in n.io.kernel && n.io.kernel[f].input
                  && n.io.filps == r.io.filps[f := x.(filterIn := task, pollIn := true)])
  {
    hide NewPoller, Run, Ready, LoopModel.Activated, Told, Live;
    RunReady(s, es, r);
    SystemTells(r, task, f);
    if !r.io.filps[f].readable && Live(r.io.filps[f]) {
      KernelWants(r, f);
      AwaitInputIs(r, f, task);
    }
  }

  /** The same of output. */
  lemma OutputServed(s: System, es: seq<Event>, r: System, f: Aiocb, task: Task)
    requires NewPoller(s) && Run(s, es, r) && f in r.io.filps && task in r.loop.tasks
    ensures r.loop.taskq in r.loop.fam.lists
    ensures var n, x := ActiveOut(r, f, task), r.io.filps[f];
            && (x.writable ==> n.io == r.io && Told(r.loop, n.loop, task))
            && (!x.writable && Live(x) ==>
                  && n.loop == r.loop.(holder := n.loop.holder) && f in n.io.kernel && n.io.kernel[f].output
                  && n.io.filps == r.io.filps[f := x.(filterOut := task, pollOut := true)])
  {
    hide NewPoller, Run, Ready, LoopModel.Activated, Told, Live;
    RunReady(s, es, r);
    SystemTells(r, task, f);
    if !r.io.filps[f].writable && Live(r.io.filps[f]) {
      KernelWants(r, f);
      AwaitOutputIs(r, f, task);
    }
  }

  /** A connect in progress leaves the task waiting: nothing runs, neither flag is set, and the kernel is registered to
      report output. */
  lemma ConnectWaits(s: System, f: Aiocb, task: Task)
    requires Ready(s) && f in s.io.filps && Live(s.io.filps[f]) && task in s.loop.tasks
    ensures s.loop.taskq in s.loop.fam.lists
    ensures var n, x := Connect(s, f, task, InProgress), s.io.filps[f];
            && n.loop == s.loop.(holder := n.loop.holder)
            && n.io.filps == s.io.filps[f := x.(readable := false, writable := false, filterOut := task, pollOut := true)]
            && f in n.io.kernel && n.io.kernel[f].output
  {
    hide Ready, Usable, LoopProofs.Inv, ActiveOut, LoopModel.Activated, Live;
    ReadyParts(s);
    KernelWants(s, f);
    var x := s.io.filps[f];
    var u := s.(io := Put(s.io, f, x.(writable := false, readable := false)));
    AwaitOutputIs(u, f, task);
    assert Connect(s, f, task, InProgress) == ActiveOut(u, f, task);
    assert s.io.filps[f := x.(writable := false, readable := false)][f := x.(readable := false, writable := false, filterOut := task, pollOut := true)]
        == s.io.filps[f := x.(readable := false, writable := false, filterOut := task, pollOut := true)];
  }

  /** A connect that is answered at once tells the task and leaves the descriptor writable; a refused one readable too,
      so that the error is met. */
  lemma ConnectTells(s: System, f: Aiocb, task: OptTask, answer: Connecting)
    requires Ready(s) && f in s.io.filps && (task != null ==> task in s.loop.tasks) && answer != InProgress
    ensures s.loop.taskq in s.loop.fam.lists
    ensures var n, x := Connect(s, f, task, answer), s.io.filps[f];
            && Told(s.loop, n.loop, task) && n.io.kernel == s.io.kernel && n.io.refcnt == s.io.refcnt
            && n.io.filps == s.io.filps[f := x.(writable := true, readable := x.readable || answer == Refused)]
  {
    hide Ready, LoopModel.Activated, Told;
    SystemTells(s, task, f);
  }

  /** A new descriptor is writable, not readable, and registered for nothing. */
  lemma AttachedIs(s: System, f: Aiocb)
    ensures var n := Attach(s, f);
            && n.loop == s.loop && n.io.refcnt == s.io.refcnt
            && n.io.filps == s.io.filps[f := Filp(true, false, false, false, false, true, null, null)]
            && n.io.kernel == s.io.kernel[f := Mask(false, false)]
  {
  }

  /** A waiter that cancelled is not told by what is reported later; cancelling for somebody else changes nothing. */
  lemma CancelledInput(s: System, f: Aiocb, verify: object?, e: Report)
    requires Usable(s) && f in s.io.filps && e.filp == f && !e.output && !e.hup
    ensures var n := CancelIn(s, f, verify);
            && Usable(n) && f in n.io.filps
            && (verify == s.io.filps[f].filterIn ==> n.io.filps[f].filterIn == null && Deliver(n, e).loop == s.loop)
            && (verify != s.io.filps[f].filterIn ==> n == s)
  {
  }

  lemma CancelledOutput(s: System, f: Aiocb, verify: object?, e: Report)
    requires Usable(s) && f in s.io.filps && e.filp == f && !e.input && !e.hup
    ensures var n := CancelOut(s, f, verify);
            && Usable(n) && f in n.io.filps
            && (verify == s.io.filps[f].filterOut ==> n.io.filps[f].filterOut == null && Deliver(n, e).loop == s.loop)
            && (verify != s.io.filps[f].filterOut ==> n == s)
  {
  }

  // ---------------------------------------------------------------- after a poll

  /** A side that was reported is ready, waited for by nobody and registered for no more; the other is as it was. */
  ghost predicate Reflected(x: Filp, y: Filp, input: bool, output: bool) {
    && y.attached == x.attached && y.detached == x.detached
    && (if input then y.readable && y.filterIn == null && !y.pollIn
        else y.readable == x.readable && y.filterIn == x.filterIn && y.pollIn == x.pollIn)
    && (if output then y.writable && y.filterOut == null && !y.pollOut
        else y.writable == x.writable && y.filterOut == x.filterOut && y.pollOut == x.pollOut)
  }

  lemma DeliverMarks(s: System, e: Report)
    requires Usable(s) && LoopProofs.Inv(s.loop) && e.filp in s.io.filps
    ensures var r := Deliver(s, e);
            && LoopProofs.Inv(r.loop) && Reflected(s.io.filps[e.filp], r.io.filps[e.filp], e.input || e.hup, e.output || e.hup)
            && forall g :: g in s.io.filps && g != e.filp ==> r.io.filps[g] == s.io.filps[g]
  {
    hide LoopProofs.Inv, Usable, Deliver;
    DeliverIs(s, e);
  }

  lemma {:induction false} AllMarked(s: System, batch: seq<Report>)
    requires Usable(s) && LoopProofs.Inv(s.loop) && Apart(batch) && forall d :: d in batch ==> d.filp in s.io.filps
    ensures var r := DeliverAll(s, batch);
            && (forall e :: e in batch ==> Reflected(s.io.filps[e.filp], r.io.filps[e.filp], e.input || e.hup, e.output || e.hup))
            && forall g :: g in s.io.filps && g !in Filps(batch) ==> r.io.filps[g] == s.io.filps[g]
    decreases |batch|
  {
    hide LoopProofs.Inv, Usable, Deliver, Reflected;
    if batch != [] {
      ApartRest(batch);
      assert batch[0] in batch;
      DeliverMarks(s, batch[0]);
      var m := Deliver(s, batch[0]);
      assert forall d :: d in batch[1..] ==> d in batch && d.filp in Filps(batch[1..]);
      AllMarked(m, batch[1..]);
      assert forall d :: d in batch ==> d == batch[0] || d in batch[1..];
    }
  }

  /** What a poll makes of the descriptors: every report marks its own, all others stay as they are. */
  lemma PollMarks(s: System, batch: seq<Report>)
    requires Ready(s) && Reported(s.io, batch) && forall d :: d in batch ==> d.filp in s.io.filps
    ensures var r := Polling(s, batch);
            && (forall e :: e in batch ==> Reflected(s.io.filps[e.filp], r.io.filps[e.filp], e.input || e.hup, e.output || e.hup))
            && forall g :: g in s.io.filps && (forall e :: e in batch ==> e.filp != g) ==> r.io.filps[g] == s.io.filps[g]
  {
    hide Ready, LoopProofs.Inv, DeliverAll, Waited, Reflected, LoopModel.PollActivate, Usable, Apart;
    var w := s.(io := Waited(s.io, batch));
    WaitedApart(s, batch);
    AllMarked(w, batch);
    assert forall g :: g in Filps(batch) ==> exists e :: e in batch && e.filp == g;
    PolledFilps(s, batch);
  }

  lemma WaitedApart(s: System, batch: seq<Report>)
    requires Ready(s) && Reported(s.io, batch) && forall d :: d in batch ==> d.filp in s.io.filps
    ensures var w := s.(io := Waited(s.io, batch));
            Usable(s) && Usable(w) && LoopProofs.Inv(w.loop) && Apart(batch) && w.io.filps == s.io.filps
  {
    WaitedSane(s, batch);
    hide LoopProofs.Inv, Waited;
  }

  lemma PolledFilps(s: System, batch: seq<Report>)
    requires Usable(s) && Usable(s.(io := Waited(s.io, batch))) && forall d :: d in batch ==> d.filp in s.io.filps
    ensures Polling(s, batch).io.filps == DeliverAll(s.(io := Waited(s.io, batch)), batch).io.filps
  {
    hide Usable, DeliverAll, Waited, LoopModel.PollActivate;
  }

  lemma DeliverWaiters(s: System, e: Report)
    requires Usable(s) && e.filp in s.io.filps
    ensures NoNewWaiters(s.loop, Deliver(s, e).loop)
  {
    hide Usable, WakeIn, WakeOut;
    var f := e.filp;
    var c := s.(io := s.io.(refcnt := s.io.refcnt - 1));
    UsableAgain(s, c);
    var a := if e.output || e.hup then WakeOut(c, f) else c;
    if e.output || e.hup { WakeOutWaiters(c, f); }
    if e.input || e.hup { WakeInWaiters(a, f); }
  }

  lemma WakeOutWaiters(s: System, f: Aiocb)
    requires Usable(s) && f in s.io.filps
    ensures NoNewWaiters(s.loop, WakeOut(s, f).loop)
  {
    hide LoopModel.Activated;
    ActivatedWaiters(s.loop, s.io.filps[f].filterOut, f);
  }

  lemma WakeInWaiters(s: System, f: Aiocb)
    requires Usable(s) && f in s.io.filps
    ensures NoNewWaiters(s.loop, WakeIn(s, f).loop)
  {
    hide LoopModel.Activated;
    ActivatedWaiters(s.loop, s.io.filps[f].filterIn, f);
  }

  lemma {:induction false} AllWaiters(s: System, batch: seq<Report>)
    requires Usable(s) && forall d :: d in batch ==> d.filp in s.io.filps
    ensures NoNewWaiters(s.loop, DeliverAll(s, batch).loop)
    decreases |batch|
  {
    hide Deliver, Usable;
    if batch != [] {
      assert batch[0] in batch && forall d :: d in batch[1..] ==> d in batch;
      DeliverWaiters(s, batch[0]);
      AllWaiters(Deliver(s, batch[0]), batch[1..]);
    }
  }

  /** After a poll the poller is on the run queue again, to be run in the next round, unless the loop is stopped. */
  lemma PollerRejoins(s: System, batch: seq<Report>)
    requires Ready(s) && Reported(s.io, batch) && (forall d :: d in batch ==> d.filp in s.io.filps)
    requires !s.loop.stop && !s.loop.tasks[s.io.poller].pending
    ensures LoopModel.OnQueue(Polling(s, batch).loop, s.io.poller)
  {
    var w := s.(io := Waited(s.io, batch));
    PollingKeeps(s, batch);
    WaitedSane(s, batch);
    var r := Polling(s, batch);
    assert LoopProofs.Inv(r.loop);
    hide LoopProofs.Inv, DeliverAll, Waited, LoopModel.PollActivate, LoopModel.OnQueue;
    AllWaiters(w, batch);
    var d := DeliverAll(w, batch);
    PollerStays(w, batch);
    PollerQueued(Release(d).loop, r.loop, s.io.poller);
  }

  lemma {:induction false} PollerStays(s: System, batch: seq<Report>)
    requires Usable(s) && forall d :: d in batch ==> d.filp in s.io.filps
    ensures DeliverAll(s, batch).io.poller == s.io.poller
    decreases |batch|
  {
    hide Usable, LoopModel.Activated;
    if batch != [] {
      assert batch[0] in batch && forall d :: d in batch[1..] ==> d in batch;
      PollerStays(Deliver(s, batch[0]), batch[1..]);
    }
  }
}
