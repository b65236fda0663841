/** The agreement of flags, kernel registrations, reference count and holder, over all runs of the
    readiness layer interleaved with anything else that happens to the loop. */
module ReadinessProofs {
  import LoopModel
  import LoopProofs
  import LoopTheorems
  import RoundProofs
  import opened ReadinessModel

  // ---------------------------------------------------------------- the invariant

  ghost predicate IsArmed(x: Filp) { Live(x) && Polled(x) }

  ghost function ArmedSet(io: Io): set<Aiocb> {
    set f | f in io.filps && IsArmed(io.filps[f])
  }

  /** The kernel knows the attached descriptors, and what it will report is what their flags say;
      nothing, for the ones whose report is still to be handled. */
  ghost predicate Agrees(io: Io, pending: set<Aiocb>) {
    && (forall f :: f in io.filps ==> (Live(io.filps[f]) <==> f in io.kernel))
    && (forall f :: f in io.kernel ==> f in io.filps)
    && (forall f :: f in io.kernel && f in io.filps ==>
          io.kernel[f] == if f in pending then NO_MASK else Wanted(io.filps[f]))
    && (forall f :: f in pending ==> f in io.filps && IsArmed(io.filps[f]))
  }

  ghost predicate Counted(io: Io) { io.refcnt == |ArmedSet(io)| }

  ghost predicate WaiterPolled(x: Filp) {
    Live(x) ==> (x.filterIn != null ==> x.pollIn) && (x.filterOut != null ==> x.pollOut)
  }

  /** Whoever waits on an attached descriptor is registered for. */
  ghost predicate Waiting(io: Io) {
    forall f :: f in io.filps ==> WaiterPolled(io.filps[f])
  }

  /** The poller holds the right to block exactly while descriptors are registered. */
  ghost predicate Holding(s: System) {
    s.loop.holder == if s.io.refcnt > 0 then s.io.epoll else null
  }

  ghost predicate Sane(s: System, pending: set<Aiocb>) {
    LoopProofs.Inv(s.loop) && Usable(s) && Agrees(s.io, pending) && Counted(s.io) && Waiting(s.io)
  }

  ghost predicate Ready(s: System) { Sane(s, {}) && Holding(s) }

  // ---------------------------------------------------------------- one descriptor changes

  lemma ArmedOther(io: Io, r: Io, f: Aiocb, y: Filp)
    requires r.filps == io.filps[f := y]
    ensures |ArmedSet(r)| == |ArmedSet(io)| - (if f in ArmedSet(io) then 1 else 0) + if IsArmed(y) then 1 else 0
  {
    ArmedOtherSet(io, r, f, y);
    hide IsArmed, ArmedSet;
  }

  lemma ArmedOtherSet(io: Io, r: Io, f: Aiocb, y: Filp)
    requires r.filps == io.filps[f := y]
    ensures ArmedSet(r) == ArmedSet(io) - {f} + if IsArmed(y) then {f} else {}
  {
    hide IsArmed;
  }

  ghost predicate FitsLoop(x: Filp, l: LoopState) {
    (x.filterIn != null ==> x.filterIn in l.tasks) && (x.filterOut != null ==> x.filterOut in l.tasks)
  }

  ghost predicate LoopMoved(l: LoopState, m: LoopState) {
    LoopProofs.Inv(m) && m.taskq in m.fam.lists && l.tasks.Keys <= m.tasks.Keys
  }

  /** How the count and the registration of one descriptor must follow its flags. */
  ghost predicate Follows(io: Io, r: Io, f: Aiocb, y: Filp, pending: set<Aiocb>) {
    && r.epoll == io.epoll && r.poller == io.poller && r.filps == io.filps[f := y]
    && r.kernel - {f} == io.kernel - {f}
    && (Live(y) <==> f in r.kernel)
    && (f in r.kernel ==> r.kernel[f] == if f in pending then NO_MASK else Wanted(y))
    && r.refcnt == io.refcnt - (if f in ArmedSet(io) then 1 else 0) + if IsArmed(y) then 1 else 0
  }

  lemma KernelElsewhere(io: Io, r: Io, f: Aiocb, g: Aiocb)
    requires r.kernel - {f} == io.kernel - {f} && g != f
    ensures g in r.kernel <==> g in io.kernel
    ensures g in r.kernel ==> r.kernel[g] == io.kernel[g]
  {
    assert g in r.kernel <==> g in r.kernel - {f};
    assert g in io.kernel <==> g in io.kernel - {f};
    if g in r.kernel { assert (r.kernel - {f})[g] == (io.kernel - {f})[g]; }
  }

  lemma FollowsAgrees(io: Io, r: Io, f: Aiocb, y: Filp, pending: set<Aiocb>, left: set<Aiocb>)
    requires Agrees(io, pending) && Follows(io, r, f, y, left)
    requires left - {f} == pending - {f} && (f in left ==> IsArmed(y))
    ensures Agrees(r, left)
  {
    hide Wanted, Live, IsArmed;
    forall g | g != f
      ensures g in r.kernel <==> g in io.kernel
      ensures g in r.kernel ==> r.kernel[g] == io.kernel[g]
      ensures g in left <==> g in pending
    {
      KernelElsewhere(io, r, f, g);
      assert g in left <==> g in left - {f};
      assert g in pending <==> g in pending - {f};
    }
  }

  lemma Changed(s: System, r: System, f: Aiocb, y: Filp, pending: set<Aiocb>, left: set<Aiocb>)
    requires Sane(s, pending) && Follows(s.io, r.io, f, y, left) && LoopMoved(s.loop, r.loop)
    requires left - {f} == pending - {f} && (f in left ==> IsArmed(y))
    requires WaiterPolled(y) && FitsLoop(y, r.loop)
    ensures Sane(r, left)
  {
    hide LoopProofs.Inv, Agrees, IsArmed, WaiterPolled, ArmedSet;
    FollowsAgrees(s.io, r.io, f, y, pending, left);
    ArmedOther(s.io, r.io, f, y);
  }

  // ---------------------------------------------------------------- the loop

  lemma WakeKeeps(l: LoopState, task: OptTask, f: object?)
    requires LoopProofs.Inv(l) && l.taskq in l.fam.lists && (task != null ==> task in l.tasks)
    ensures var m := LoopModel.Activated(l, task, f); LoopMoved(l, m) && m.holder == l.holder && m.stop == l.stop && m.taskq == l.taskq
  {
    hide LoopProofs.Inv, LoopModel.ActivateTask;
    LoopProofs.StepKeeps(l, LoopModel.Active(task, f));
  }

  lemma HolderMoves(l: LoopState, h: object?)
    requires LoopProofs.Inv(l) && l.taskq in l.fam.lists
    ensures LoopMoved(l, l.(holder := h))
  {
    hide LoopProofs.Inv;
    LoopProofs.RequestKeeps(l, l.stop, l.brk, h);
  }

  lemma SameIo(s: System, r: System, pending: set<Aiocb>)
    requires Sane(s, pending) && r.io == s.io && LoopMoved(s.loop, r.loop)
    ensures Sane(r, pending)
  {
    hide LoopProofs.Inv, Agrees, Counted, Waiting;
  }

  lemma HoldKeeps(s: System)
    requires Sane(s, {}) && (s.loop.holder == null || s.loop.holder == s.io.epoll) && s.io.refcnt > 0
    ensures Ready(Hold(s))
  {
    HolderMoves(s.loop, s.io.epoll);
    hide LoopProofs.Inv, Agrees, Counted, Waiting;
    SameIo(s, Hold(s), {});
  }

  lemma ReleaseKeeps(s: System)
    requires Sane(s, {}) && (s.loop.holder == null || s.loop.holder == s.io.epoll)
    requires s.io.refcnt > 0 ==> s.loop.holder == s.io.epoll
    ensures Ready(Release(s))
  {
    HolderMoves(s.loop, null);
    assert s.io.refcnt >= 0;
    hide LoopProofs.Inv, Agrees, Counted, Waiting;
    SameIo(s, Release(s), {});
  }

  // ---------------------------------------------------------------- calls

  lemma AttachKeeps(s: System, f: Aiocb)
    requires Ready(s) && f !in s.io.filps
    ensures Ready(Attach(s, f))
  {
    hide LoopProofs.Inv;
    var y := NEW_FILP.(attached := true);
    assert f !in s.io.kernel;
    assert Attach(s, f).io.kernel - {f} == s.io.kernel - {f};
    Changed(s, Attach(s, f), f, y, {}, {});
  }

  /** Registering a live descriptor, which gets the waiters of y. */
  lemma ArmKeeps(s: System, f: Aiocb, y: Filp)
    requires Sane(s, {}) && f in s.io.filps && Live(s.io.filps[f]) && IsArmed(y) && WaiterPolled(y) && FitsLoop(y, s.loop)
    requires s.loop.holder == null || s.loop.holder == s.io.epoll
    ensures var count := if Polled(s.io.filps[f]) then 0 else 1;
            Ready(Hold(s.(io := Armed(s.io, f, y, count))))
  {
    hide LoopProofs.Inv;
    var count := if Polled(s.io.filps[f]) then 0 else 1;
    var r := s.(io := Armed(s.io, f, y, count));
    assert r.io.kernel - {f} == s.io.kernel - {f};
    Changed(s, r, f, y, {}, {});
    assert f in ArmedSet(r.io);
    assert r.io.refcnt > 0;
    HoldKeeps(r);
  }

  /** A change of waiters or readiness that leaves the registration alone. */
  lemma PutKeeps(s: System, f: Aiocb, y: Filp)
    requires Ready(s) && f in s.io.filps && WaiterPolled(y) && FitsLoop(y, s.loop)
    requires var x := s.io.filps[f];
             y.pollIn == x.pollIn && y.pollOut == x.pollOut && y.attached == x.attached && y.detached == x.detached
    ensures Ready(s.(io := Put(s.io, f, y)))
  {
    hide LoopProofs.Inv;
    Changed(s, s.(io := Put(s.io, f, y)), f, y, {}, {});
  }

  lemma ActiveInKeeps(s: System, f: Aiocb, task: OptTask)
    requires Ready(s) && f in s.io.filps && (task != null ==> task in s.loop.tasks)
    requires var x := s.io.filps[f]; x.readable || x.pollIn || Live(x)
    ensures Ready(ActiveIn(s, f, task))
  {
    hide LoopProofs.Inv, LoopModel.Step;
    var x := s.io.filps[f];
    var y := x.(filterIn := task);
    assert WaiterPolled(x) && FitsLoop(x, s.loop);
    if x.readable {
      WakeKeeps(s.loop, task, f);
      SameIo(s, ActiveIn(s, f, task), {});
    } else if x.pollIn {
      PutKeeps(s, f, y);
    } else {
      ArmKeeps(s, f, y.(pollIn := true));
      ArmAfterPut(s.io, f, y, y.(pollIn := true), if x.pollOut then 0 else 1);
    }
  }

  lemma ArmAfterPut(io: Io, f: Aiocb, y: Filp, z: Filp, count: int)
    ensures Armed(Put(io, f, y), f, z, count) == Armed(io, f, z, count)
  {
    assert io.filps[f := y][f := z] == io.filps[f := z];
  }

  lemma ActiveOutKeeps(s: System, f: Aiocb, task: OptTask)
    requires Ready(s) && f in s.io.filps && (task != null ==> task in s.loop.tasks)
    requires var x := s.io.filps[f]; x.writable || x.pollOut || Live(x)
    ensures Ready(ActiveOut(s, f, task))
  {
    hide LoopProofs.Inv, LoopModel.Step;
    var x := s.io.filps[f];
    var y := x.(filterOut := task);
    assert WaiterPolled(x) && FitsLoop(x, s.loop);
    if x.writable {
      WakeKeeps(s.loop, task, f);
      SameIo(s, ActiveOut(s, f, task), {});
    } else if x.pollOut {
      PutKeeps(s, f, y);
    } else {
      ArmKeeps(s, f, y.(pollOut := true));
      ArmAfterPut(s.io, f, y, y.(pollOut := true), if x.pollIn then 0 else 1);
    }
  }

  lemma ConnectKeeps(s: System, f: Aiocb, task: OptTask, answer: Connecting)
    requires Ready(s) && f in s.io.filps && (task != null ==> task in s.loop.tasks)
    requires var x := s.io.filps[f]; answer != InProgress || x.pollOut || Live(x)
    ensures Ready(Connect(s, f, task, answer))
  {
    hide LoopProofs.Inv, LoopModel.Step;
    var x := s.io.filps[f];
    assert WaiterPolled(x) && FitsLoop(x, s.loop);
    match answer
    case InProgress =>
      var u := s.(io := Put(s.io, f, x.(writable := false, readable := false)));
      PutKeeps(s, f, x.(writable := false, readable := false));
      hide Ready;
      ActiveOutKeeps(u, f, task);
    case Connected =>
      PutKeeps(s, f, x.(writable := true));
      WakeKeeps(s.loop, task, f);
      SameIo(s.(io := Put(s.io, f, x.(writable := true))), Connect(s, f, task, answer), {});
    case Refused =>
      PutKeeps(s, f, x.(writable := true, readable := true));
      WakeKeeps(s.loop, task, f);
      SameIo(s.(io := Put(s.io, f, x.(writable := true, readable := true))), Connect(s, f, task, answer), {});
  }

  lemma DetachKeeps(s: System, f: Aiocb)
    requires Ready(s) && f in s.io.filps && Live(s.io.filps[f])
    ensures Ready(Detach(s, f))
  {
    hide LoopProofs.Inv;
    var x := s.io.filps[f];
    var y := x.(detached := true);
    assert WaiterPolled(x) && FitsLoop(x, s.loop);
    var count := if Polled(x) then 1 else 0;
    var u := s.(io := Put(s.io, f, y).(kernel := s.io.kernel - {f}, refcnt := s.io.refcnt - count));
    assert u.io.kernel - {f} == s.io.kernel - {f};
    Changed(s, u, f, y, {}, {});
    if Polled(x) {
      assert f in ArmedSet(s.io);
      ReleaseKeeps(u);
    }
  }

  /** tx_aiocb_fini again: a descriptor that is detached already keeps everything in order exactly when
      no POLL flag was left set, because every call counts a registration down. */
  lemma DetachKeepsIff(s: System, f: Aiocb)
    requires Ready(s) && f in s.io.filps
    ensures Ready(Detach(s, f)) <==> Live(s.io.filps[f]) || !Polled(s.io.filps[f])
  {
    if Live(s.io.filps[f]) {
      DetachKeeps(s, f);
    } else if Polled(s.io.filps[f]) {
      MiscountedDetach(s, f);
    }
  }

  lemma MiscountedDetach(s: System, f: Aiocb)
    requires Ready(s) && f in s.io.filps && !Live(s.io.filps[f]) && Polled(s.io.filps[f])
    ensures var r := Detach(s, f); r.io == s.io.(refcnt := s.io.refcnt - 1) && !Ready(r)
  {
    hide LoopProofs.Inv, Agrees, Waiting;
    assert ArmedSet(Detach(s, f).io) == ArmedSet(s.io);
  }

  // ---------------------------------------------------------------- reports

  /** What a report makes of the descriptor's flags and waiters. */
  function After(x: Filp, e: Report): Filp {
    var a := if e.output || e.hup then x.(pollOut := false, writable := true, filterOut := null) else x;
    if e.input || e.hup then a.(pollIn := false, readable := true, filterIn := null) else a
  }

  lemma WakeOutIs(s: System, f: Aiocb)
    requires Usable(s) && LoopProofs.Inv(s.loop) && f in s.io.filps
    ensures var r, x := WakeOut(s, f), s.io.filps[f];
            && LoopMoved(s.loop, r.loop) && r.loop.holder == s.loop.holder && r.loop.stop == s.loop.stop
            && r.loop.taskq == s.loop.taskq && r.io == Put(s.io, f, x.(pollOut := false, writable := true, filterOut := null))
  {
    hide LoopProofs.Inv, LoopModel.Activated;
    WakeKeeps(s.loop, s.io.filps[f].filterOut, f);
  }

  lemma WakeInIs(s: System, f: Aiocb)
    requires Usable(s) && LoopProofs.Inv(s.loop) && f in s.io.filps
    ensures var r, x := WakeIn(s, f), s.io.filps[f];
            && LoopMoved(s.loop, r.loop) && r.loop.holder == s.loop.holder && r.loop.stop == s.loop.stop
            && r.loop.taskq == s.loop.taskq && r.io == Put(s.io, f, x.(pollIn := false, readable := true, filterIn := null))
  {
    hide LoopProofs.Inv, LoopModel.Activated;
    WakeKeeps(s.loop, s.io.filps[f].filterIn, f);
  }

  lemma DeliverIs(s: System, e: Report)
    requires Usable(s) && LoopProofs.Inv(s.loop) && e.filp in s.io.filps
    ensures var r, y := Deliver(s, e), After(s.io.filps[e.filp], e);
            && LoopMoved(s.loop, r.loop) && r.loop.holder == s.loop.holder && r.loop.stop == s.loop.stop
            && r.loop.taskq == s.loop.taskq
            && r.io == Put(s.io, e.filp, y).(
                         kernel := if Polled(y) then s.io.kernel[e.filp := Wanted(y)] else s.io.kernel,
                         refcnt := s.io.refcnt - 1 + if Polled(y) then 1 else 0)
  {
    hide LoopProofs.Inv, WakeIn, WakeOut, Wanted, Usable;
    var f, x := e.filp, s.io.filps[e.filp];
    var c := s.(io := s.io.(refcnt := s.io.refcnt - 1));
    UsableAgain(s, c);
    var a := if e.output || e.hup then WakeOut(c, f) else c;
    var b := if e.input || e.hup then WakeIn(a, f) else a;
    if e.output || e.hup { WakeOutIs(c, f); }
    if e.input || e.hup { WakeInIs(a, f); }
    assert b.io.filps == s.io.filps[f := After(x, e)] && b.io.kernel == s.io.kernel && b.io.refcnt == s.io.refcnt - 1;
    assert s.io.filps[f := After(x, e)][f := After(x, e)] == s.io.filps[f := After(x, e)];
  }

  lemma UsableAgain(s: System, c: System)
    requires Usable(s) && c.loop == s.loop && c.io == s.io.(refcnt := c.io.refcnt)
    ensures Usable(c)
  {
  }

  /** The count is exact before and after each report of a batch, while the kernel has forgotten the
      descriptors still to be handled. */
  lemma DeliverKeeps(s: System, e: Report, pending: set<Aiocb>)
    requires Sane(s, pending) && e.filp in pending
    ensures Sane(Deliver(s, e), pending - {e.filp})
    ensures Deliver(s, e).loop.holder == s.loop.holder && Deliver(s, e).loop.stop == s.loop.stop
    ensures Deliver(s, e).loop.taskq == s.loop.taskq && Deliver(s, e).io.epoll == s.io.epoll
    ensures Deliver(s, e).io.refcnt <= s.io.refcnt
  {
    hide LoopProofs.Inv, Deliver, Live, Polled, IsArmed, Wanted, After, WaiterPolled, Usable, Waiting, Counted;
    DeliverIs(s, e);
    DeliverFollows(s, e, pending);
    AfterFits(s, e, Deliver(s, e).loop);
    Changed(s, Deliver(s, e), e.filp, After(s.io.filps[e.filp], e), pending, pending - {e.filp});
  }

  lemma AfterFits(s: System, e: Report, m: LoopState)
    requires Usable(s) && Waiting(s.io) && e.filp in s.io.filps && LoopMoved(s.loop, m)
    ensures var y := After(s.io.filps[e.filp], e); WaiterPolled(y) && FitsLoop(y, m)
  {
    hide LoopProofs.Inv;
    assert WaiterPolled(s.io.filps[e.filp]);
  }

  lemma DeliverFollows(s: System, e: Report, pending: set<Aiocb>)
    requires Usable(s) && LoopProofs.Inv(s.loop) && Agrees(s.io, pending) && e.filp in pending && e.filp in s.io.filps
    ensures Follows(s.io, Deliver(s, e).io, e.filp, After(s.io.filps[e.filp], e), pending - {e.filp})
  {
    hide LoopProofs.Inv, Deliver;
    DeliverIs(s, e);
    var r, f := Deliver(s, e), e.filp;
    assert f in ArmedSet(s.io) && s.io.kernel[f] == NO_MASK;
    assert r.io.kernel - {f} == s.io.kernel - {f};
  }

  ghost function Filps(batch: seq<Report>): set<Aiocb> { set e | e in batch :: e.filp }

  ghost predicate Apart(batch: seq<Report>) {
    forall i, j :: 0 <= i < j < |batch| ==> batch[i].filp != batch[j].filp
  }

  lemma ApartRest(batch: seq<Report>)
    requires batch != [] && Apart(batch)
    ensures Apart(batch[1..]) && Filps(batch) - {batch[0].filp} == Filps(batch[1..])
  {
    assert forall i :: 0 < i < |batch| ==> batch[i] == batch[1..][i - 1];
    assert forall e :: e in batch ==> e == batch[0] || e in batch[1..];
    assert forall e :: e in batch[1..] ==> e in batch && e.filp != batch[0].filp;
  }

  lemma {:induction false} DeliverAllKeeps(s: System, batch: seq<Report>)
    requires Sane(s, Filps(batch)) && Apart(batch) && forall e :: e in batch ==> e.filp in s.io.filps
    ensures var r := DeliverAll(s, batch);
            && Sane(r, {}) && r.loop.holder == s.loop.holder && r.loop.stop == s.loop.stop
            && r.loop.taskq == s.loop.taskq && r.io.epoll == s.io.epoll && r.io.refcnt <= s.io.refcnt
    decreases |batch|
  {
    assert Usable(s);
    hide Sane, Deliver;
    if batch == [] {
      assert Filps(batch) == {};
    } else {
      ApartRest(batch);
      assert batch[0] in batch;
      DeliverKeeps(s, batch[0], Filps(batch));
      DeliverAllKeeps(Deliver(s, batch[0]), batch[1..]);
    }
  }

  lemma WaitedSane(s: System, batch: seq<Report>)
    requires Sane(s, {}) && Reported(s.io, batch)
    ensures Sane(s.(io := Waited(s.io, batch)), Filps(batch))
    ensures forall e :: e in batch ==> e.filp in s.io.filps
  {
    hide LoopProofs.Inv;
    var w := Waited(s.io, batch);
    assert ArmedSet(w) == ArmedSet(s.io);
    forall f | f in Filps(batch) ensures f in w.filps && IsArmed(w.filps[f]) {
      var e :| e in batch && e.filp == f;
      assert f in s.io.kernel;
    }
  }

  lemma RejoinKeeps(s: System)
    requires Ready(s)
    ensures Ready(s.(loop := LoopModel.PollActivate(s.loop, s.io.poller)))
  {
    hide LoopProofs.Inv, Agrees, Counted, Waiting, LoopModel.PollActivate;
    LoopProofs.PollActivateKeeps(s.loop, s.io.poller);
    SameIo(s, s.(loop := LoopModel.PollActivate(s.loop, s.io.poller)), {});
  }

  lemma PollingKeeps(s: System, batch: seq<Report>)
    requires Ready(s) && Reported(s.io, batch)
    ensures forall e :: e in batch ==> e.filp in s.io.filps
    ensures Ready(Polling(s, batch))
  {
    WaitedSane(s, batch);
    var w := s.(io := Waited(s.io, batch));
    var d := DeliverAll(w, batch);
    hide Sane, DeliverAll;
    DeliverAllKeeps(w, batch);
    ReleaseKeeps(d);
    RejoinKeeps(Release(d));
  }

  // ---------------------------------------------------------------- runs

  /** What a caller and the kernel must respect: a descriptor is attached once and detached once, and
      is not polled after that. */
  ghost predicate Enabled(s: System, e: Event)
    requires Usable(s)
  {
    match e
    case AttachEvent(f) => f !in s.io.filps
    case ActiveInEvent(f, task) =>
      && f in s.io.filps && (task != null ==> task in s.loop.tasks)
      && (s.io.filps[f].readable || s.io.filps[f].pollIn || Live(s.io.filps[f]))
    case ActiveOutEvent(f, task) =>
      && f in s.io.filps && (task != null ==> task in s.loop.tasks)
      && (s.io.filps[f].writable || s.io.filps[f].pollOut || Live(s.io.filps[f]))
    case CancelInEvent(f, _) => f in s.io.filps
    case CancelOutEvent(f, _) => f in s.io.filps
    case UpdateInEvent(f, _, _) => f in s.io.filps
    case UpdateOutEvent(f, _, _) => f in s.io.filps
    case ConnectEvent(f, task, answer) =>
      && f in s.io.filps && (task != null ==> task in s.loop.tasks)
      && (answer != InProgress || s.io.filps[f].pollOut || Live(s.io.filps[f]))
    case DetachEvent(f) => f in s.io.filps && Live(s.io.filps[f])
    case PollingEvent(batch) => Reported(s.io, batch) && forall r :: r in batch ==> r.filp in s.io.filps
    case LoopEvent(l) => LoopMoved(s.loop, l) && l.holder == s.loop.holder
  }

  ghost function Next(s: System, e: Event): System
    requires Usable(s) && Enabled(s, e)
  {
    match e
    case AttachEvent(f) => Attach(s, f)
    case ActiveInEvent(f, task) => ActiveIn(s, f, task)
    case ActiveOutEvent(f, task) => ActiveOut(s, f, task)
    case CancelInEvent(f, verify) => CancelIn(s, f, verify)
    case CancelOutEvent(f, verify) => CancelOut(s, f, verify)
    case UpdateInEvent(f, len, again) => UpdateIn(s, f, len, again)
    case UpdateOutEvent(f, len, again) => UpdateOut(s, f, len, again)
    case ConnectEvent(f, task, answer) => Connect(s, f, task, answer)
    case DetachEvent(f) => Detach(s, f)
    case PollingEvent(batch) => Polling(s, batch)
    case LoopEvent(l) => s.(loop := l)
  }

  lemma SaneAt(s: System, f: Aiocb)
    requires Sane(s, {}) && f in s.io.filps
    ensures WaiterPolled(s.io.filps[f]) && FitsLoop(s.io.filps[f], s.loop)
  {
  }

  lemma SmallKeeps(s: System, e: Event)
    requires Ready(s) && Enabled(s, e)
    requires e.CancelInEvent? || e.CancelOutEvent? || e.UpdateInEvent? || e.UpdateOutEvent?
    ensures Ready(Next(s, e))
  {
    hide LoopProofs.Inv, Sane, Holding;
    var x := s.io.filps[e.f];
    assert WaiterPolled(x) && FitsLoop(x, s.loop) by { SaneAt(s, e.f); }
    match e
    case CancelInEvent(f, verify) => PutKeeps(s, f, x.(filterIn := null));
    case CancelOutEvent(f, verify) => PutKeeps(s, f, x.(filterOut := null));
    case UpdateInEvent(f, len, again) => PutKeeps(s, f, x.(readable := false));
    case UpdateOutEvent(f, len, again) => PutKeeps(s, f, x.(writable := false));
  }

  lemma NextReady(s: System, e: Event)
    requires Ready(s) && Enabled(s, e)
    ensures Ready(Next(s, e))
  {
    if e.CancelInEvent? || e.CancelOutEvent? || e.UpdateInEvent? || e.UpdateOutEvent? {
      SmallKeeps(s, e);
    } else if e.LoopEvent? {
      SameIo(s, s.(loop := e.loop), {});
    } else {
      hide Ready, Attach, ActiveIn, ActiveOut, Connect, Detach, Polling;
      match e
      case AttachEvent(f) => AttachKeeps(s, f);
      case ActiveInEvent(f, task) => ActiveInKeeps(s, f, task);
      case ActiveOutEvent(f, task) => ActiveOutKeeps(s, f, task);
      case ConnectEvent(f, task, answer) => ConnectKeeps(s, f, task, answer);
      case DetachEvent(f) => DetachKeeps(s, f);
      case PollingEvent(batch) => PollingKeeps(s, batch);
      case _ =>
    }
  }

  ghost predicate Run(s: System, es: seq<Event>, r: System)
    decreases |es|
  {
    if es == [] then r == s else Usable(s) && Enabled(s, es[0]) && Run(Next(s, es[0]), es[1..], r)
  }

  lemma {:induction false} RunKeeps(s: System, es: seq<Event>, r: System)
    requires Ready(s) && Run(s, es, r)
    ensures Ready(r)
    decreases |es|
  {
    if es != [] {
      hide Ready, Enabled, Next, Usable;
      NextReady(s, es[0]);
      RunKeeps(Next(s, es[0]), es[1..], r);
    }
  }

  /** tx_epoll_init, on a loop without another holder */
  ghost predicate NewPoller(s: System) {
    && LoopProofs.Inv(s.loop) && s.loop.holder == null && s.io.poller in s.loop.tasks
    && s.io.refcnt == 0 && s.io.filps == map[] && s.io.kernel == map[]
  }

  lemma InitialReady(s: System)
    requires NewPoller(s)
    ensures Ready(s)
  {
    hide LoopProofs.Inv;
    assert s.loop.taskq in s.loop.fam.lists by { LoopProofs.InvParts(s.loop); }
    assert ArmedSet(s.io) == {};
  }

  /** Between calls, in every run of a new poller: registrations are what the flags say, the count is
      the number of registered descriptors, nobody waits unregistered, and the holder is set
      accordingly. */
  lemma RunReady(s: System, es: seq<Event>, r: System)
    requires NewPoller(s) && Run(s, es, r)
    ensures Ready(r)
  {
    hide NewPoller, Ready, Run;
    InitialReady(s);
    RunKeeps(s, es, r);
  }

  /** Nothing but the epoll poller writes tx_holder. */
  ghost predicate NoHold(ops: seq<LoopModel.Op>) { forall op :: op in ops ==> !op.Hold? }

  /** Whatever tx_loop_main and the callbacks do to the loop is such an event. */
  lemma LoopRunsAllowed(s: System, e: LoopModel.Event)
    requires Ready(s) && LoopModel.Enabled(s.loop, e)
    requires (e.Api? ==> !e.op.Hold?) && (e.Iterate? ==> NoHold(e.ops))
    ensures Enabled(s, LoopEvent(LoopModel.Next(s.loop, e)))
  {
    LoopTheorems.NextKeeps(s.loop, e);
  }

  lemma ReadyParts(s: System)
    requires Ready(s)
    ensures Usable(s) && LoopProofs.Inv(s.loop) && s.loop.taskq in s.loop.fam.lists
  {
    hide LoopProofs.Inv;
  }

  lemma MovedAllowed(s: System, m: LoopState)
    requires Usable(s) && LoopMoved(s.loop, m) && m.holder == s.loop.holder
    ensures Enabled(s, LoopEvent(m))
  {
    hide Usable, LoopMoved;
  }

  lemma PopMoves(l: LoopState)
    requires LoopProofs.Inv(l) && LoopModel.InMain(l) && LoopModel.Queue(l)[0] != l.phony
    ensures var m := LoopModel.Pop(l, LoopModel.Queue(l)[0]); LoopMoved(l, m) && m.holder == l.holder
  {
    hide LoopProofs.Inv, LoopModel.Pop;
    RoundProofs.NeverTailer(l);
    RoundProofs.PopKeeps(l, LoopModel.Queue(l)[0]);
    PopIs(l, LoopModel.Queue(l)[0]);
  }

  /** So is each part of an iteration: taking the task off the queue, */
  lemma PopAllowed(s: System)
    requires Ready(s)
    requires LoopModel.InMain(s.loop) && LoopModel.Queue(s.loop)[0] != s.loop.phony
    ensures Usable(s) && Enabled(s, LoopEvent(LoopModel.Pop(s.loop, LoopModel.Queue(s.loop)[0])))
  {
    ReadyParts(s);
    hide Ready, Usable, Enabled, LoopProofs.Inv, LoopModel.Pop, LoopMoved;
    PopMoves(s.loop);
    MovedAllowed(s, LoopModel.Pop(s.loop, LoopModel.Queue(s.loop)[0]));
  }

  /** and the calls its callback makes before, between and after those to the readiness layer. */
  lemma CallsAllowed(s: System, ops: seq<LoopModel.Op>)
    requires Ready(s) && NoHold(ops)
    ensures Usable(s) && s.loop.taskq in s.loop.fam.lists
    ensures LoopModel.LegalAll(s.loop, ops) ==> Enabled(s, LoopEvent(LoopModel.StepAll(s.loop, ops)))
  {
    ReadyParts(s);
    hide Ready, Usable, Enabled, LoopProofs.Inv, LoopModel.StepAll, LoopModel.LegalAll;
    if LoopModel.LegalAll(s.loop, ops) {
      LoopProofs.StepAllKeeps(s.loop, ops);
      MovedAllowed(s, LoopModel.StepAll(s.loop, ops));
    }
  }

  lemma PopIs(l: LoopState, t: Task)
    requires l.taskq in l.fam.lists && t in l.tasks
    ensures var m := LoopModel.Pop(l, t);
            m.taskq == l.taskq && m.taskq in m.fam.lists && m.tasks.Keys == l.tasks.Keys && m.holder == l.holder
  {
  }
}
