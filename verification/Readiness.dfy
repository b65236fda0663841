/** tx_aiocb and tx_epoll_t on the heap, over the task loop: each function is proved to take the step
    the model says. epoll_ctl and epoll_wait are the model's kernel. */
module Readiness {
  import LoopModel
  import LoopProofs
  import Loop
  import opened ReadinessModel
  import opened ReadinessProofs

  class Epoll {
    const loop: Loop.TaskLoop
    const poller: Task              // epoll_task
    var refcnt: int                 // epoll_refcnt
    ghost var model: Io

    ghost function Sys(): System
      reads `model, loop`model
    {
      System(loop.model, model)
    }

    /** The heap is what the model says. */
    ghost predicate Coherent()
      reads this, model.filps.Keys`fields
    {
      && model.epoll == this && model.poller == poller && model.refcnt == refcnt
      && forall f :: f in model.filps ==> f.fields == model.filps[f]
    }

    ghost predicate Valid()
      reads this, model.filps.Keys`fields, loop, loop.Region()
    {
      Coherent() && loop.Valid() && Ready(Sys())
    }

    /** tx_epoll_init */
    constructor (loop: Loop.TaskLoop)
      requires loop.Valid()
      modifies loop, loop.Region()
      ensures Coherent() && loop.Valid() && (old(loop.model.holder) == null ==> Valid()) && this.loop == loop && fresh(poller) && loop.Region() == old(loop.Region()) + {poller}
      ensures model.filps == map[]
      ensures loop.model == LoopModel.PollActivate(
                old(loop.model).(tasks := old(loop.model.tasks)[poller := LoopModel.FRESH_TASK]), poller)
    {
      hide LoopProofs.Inv, LoopModel.PollActivate, Loop.TaskLoop.Valid, Ready;
      var task := loop.NewPoller();
      loop.Facts();
      this.loop, poller, refcnt := loop, task, 0;
      model := Io(this, task, 0, map[], map[]);
      new;
      if loop.model.holder == null {
        InitialReady(Sys());
      }
    }

    // -------------------------------------------------------------- tx_epoll.cpp

    method Claim()
      requires Coherent() && loop.Valid()
      modifies loop
      ensures Coherent() && loop.Valid() && Sys() == Hold(old(Sys())) && loop.Region() == old(loop.Region())
    {
      hide Loop.TaskLoop.Valid;
      loop.Facts();
      if refcnt > 0 {
        if loop.holder == null {
          loop.SetHolder(this);
        }
      }
    }

    method GiveUp()
      requires Coherent() && loop.Valid()
      modifies loop
      ensures Coherent() && loop.Valid() && Sys() == Release(old(Sys())) && loop.Region() == old(loop.Region())
    {
      hide Loop.TaskLoop.Valid;
      loop.Facts();
      if loop.holder == this && refcnt == 0 {
        loop.SetHolder(null);
      }
    }

    lemma Fields(f: Aiocb)
      requires Coherent() && f in model.filps
      ensures f.fields == model.filps[f] && refcnt == model.refcnt && model.epoll == this && model.poller == poller
    {
    }

    /** A write to the flags and waiters of one descriptor. */
    method SetFields(f: Aiocb, x: Filp)
      requires Coherent() && f in model.filps
      modifies `model, f`fields
      ensures Coherent() && model == Put(old(model), f, x)
    {
      f.fields := x;
      model := Put(model, f, x);
    }

    method SetFilterIn(f: Aiocb, task: OptTask)
      requires Coherent() && f in model.filps
      modifies `model, f`fields
      ensures Coherent() && model == Put(old(model), f, old(model.filps[f]).(filterIn := task))
    {
      if f.fields.filterIn != task {
        f.fields := f.fields.(filterIn := task);
      }
      model := Put(model, f, model.filps[f].(filterIn := task));
    }

    method SetFilterOut(f: Aiocb, task: OptTask)
      requires Coherent() && f in model.filps
      modifies `model, f`fields
      ensures Coherent() && model == Put(old(model), f, old(model.filps[f]).(filterOut := task))
    {
      if f.fields.filterOut != task {
        f.fields := f.fields.(filterOut := task);
      }
      model := Put(model, f, model.filps[f].(filterOut := task));
    }

    /** tx_task_active with the descriptor as the reason */
    method Tell(task: OptTask, f: Aiocb)
      requires Coherent() && loop.Valid() && Usable(Sys()) && (task != null ==> task in loop.model.tasks)
      modifies loop, loop.Region()
      ensures Coherent() && loop.Valid() && loop.Region() == old(loop.Region())
      ensures loop.model == LoopModel.Activated(old(loop.model), task, f)
    {
      hide Loop.TaskLoop.Valid, LoopModel.ActivateTask, LoopModel.Kept, Coherent;
      ghost var filps := model.filps.Keys;
      loop.Active(task, f);
    }

    /** EPOLL_CTL_MOD with both conditions wanted now, unless input is registered already. */
    method RegisterIn(f: Aiocb)
      requires Coherent() && f in model.filps
      modifies `refcnt, `model, f`fields
      ensures Coherent() && model.filps.Keys == old(model.filps.Keys)
      ensures var x := old(model.filps[f]);
              model == if x.pollIn then old(model) else Armed(old(model), f, x.(pollIn := true), if x.pollOut then 0 else 1)
    {
      if !f.fields.pollIn {
        ghost var s, x := model, model.filps[f];
        if !f.fields.pollOut {
          refcnt := refcnt + 1;
        }
        f.fields := f.fields.(pollIn := true);
        model := Armed(s, f, x.(pollIn := true), if x.pollOut then 0 else 1);
      }
    }

    /** tx_epoll_pollin */
    method PollIn(f: Aiocb)
      requires Coherent() && loop.Valid() && f in model.filps
      modifies `refcnt, `model, f`fields, loop
      ensures Coherent() && loop.Valid() && loop.Region() == old(loop.Region()) && model.filps.Keys == old(model.filps.Keys)
      ensures Sys() == ReadinessModel.PollIn(old(Sys()), f)
    {
      hide Coherent, Loop.TaskLoop.Valid, Armed;
      ghost var tasks := loop.Region();
      RegisterIn(f);
      Claim();
    }

    /** EPOLL_CTL_MOD with both conditions wanted now, unless output is registered already. */
    method RegisterOut(f: Aiocb)
      requires Coherent() && f in model.filps
      modifies `refcnt, `model, f`fields
      ensures Coherent() && model.filps.Keys == old(model.filps.Keys)
      ensures var x := old(model.filps[f]);
              model == if x.pollOut then old(model) else Armed(old(model), f, x.(pollOut := true), if x.pollIn then 0 else 1)
    {
      if !f.fields.pollOut {
        ghost var s, x := model, model.filps[f];
        if !f.fields.pollIn {
          refcnt := refcnt + 1;
        }
        f.fields := f.fields.(pollOut := true);
        model := Armed(s, f, x.(pollOut := true), if x.pollIn then 0 else 1);
      }
    }

    /** tx_epoll_pollout */
    method PollOut(f: Aiocb)
      requires Coherent() && loop.Valid() && f in model.filps
      modifies `refcnt, `model, f`fields, loop
      ensures Coherent() && loop.Valid() && loop.Region() == old(loop.Region()) && model.filps.Keys == old(model.filps.Keys)
      ensures Sys() == ReadinessModel.PollOut(old(Sys()), f)
    {
      hide Coherent, Loop.TaskLoop.Valid, Armed;
      ghost var tasks := loop.Region();
      RegisterOut(f);
      Claim();
    }

    // -------------------------------------------------------------- tx_aiocb.cpp

    /** tx_aincb_active: generic_active_in */
    method ActiveInUnready(f: Aiocb, task: OptTask)
      requires Coherent() && loop.Valid() && f in model.filps && !model.filps[f].readable
      modifies `refcnt, `model, f`fields, loop
      ensures Coherent() && loop.Valid() && loop.Region() == old(loop.Region()) && model.filps.Keys == old(model.filps.Keys)
      ensures var s, x := old(Sys()), old(model.filps[f]);
              var u := s.(io := Put(s.io, f, x.(filterIn := task)));
              Sys() == if x.pollIn then u else ReadinessModel.PollIn(u, f)
    {
      hide Loop.TaskLoop.Valid, ReadinessModel.PollIn, Coherent;
      Fields(f);
      ghost var tasks := loop.Region();
      SetFilterIn(f, task);
      if !f.fields.pollIn {
        PollIn(f);
      }
    }

    method ActiveInAny(f: Aiocb, task: OptTask)
      requires Coherent() && loop.Valid() && Usable(Sys()) && f in model.filps && (task != null ==> task in loop.model.tasks)
      modifies `refcnt, `model, f`fields, loop, loop.Region()
      ensures Coherent() && loop.Valid() && loop.Region() == old(loop.Region())
      ensures Sys() == ReadinessModel.ActiveIn(old(Sys()), f, task)
    {
      hide Coherent, Loop.TaskLoop.Valid, ReadinessModel.PollIn, LoopModel.Activated, Put;
      Fields(f);
      if f.fields.readable {
        Tell(task, f);
      } else {
        ActiveInUnready(f, task);
      }
    }

    method ActiveIn(f: Aiocb, task: OptTask)
      requires Valid() && f in model.filps && (task != null ==> task in loop.model.tasks)
      requires var x := model.filps[f]; x.readable || x.pollIn || Live(x)
      modifies `refcnt, `model, f`fields, loop, loop.Region()
      ensures Valid() && loop.Region() == old(loop.Region())
      ensures Sys() == ReadinessModel.ActiveIn(old(Sys()), f, task)
    {
      assert Usable(Sys());
      hide Coherent, Loop.TaskLoop.Valid, ReadinessModel.ActiveIn, Ready, Usable;
      ActiveInKeeps(Sys(), f, task);
      ActiveInAny(f, task);
    }

    /** tx_outcb_prepare: generic_active_out */
    method ActiveOutUnready(f: Aiocb, task: OptTask)
      requires Coherent() && loop.Valid() && f in model.filps && !model.filps[f].writable
      modifies `refcnt, `model, f`fields, loop
      ensures Coherent() && loop.Valid() && loop.Region() == old(loop.Region()) && model.filps.Keys == old(model.filps.Keys)
      ensures var s, x := old(Sys()), old(model.filps[f]);
              var u := s.(io := Put(s.io, f, x.(filterOut := task)));
              Sys() == if x.pollOut then u else ReadinessModel.PollOut(u, f)
    {
      hide Loop.TaskLoop.Valid, ReadinessModel.PollOut, Coherent;
      Fields(f);
      ghost var tasks := loop.Region();
      SetFilterOut(f, task);
      if !f.fields.pollOut {
        PollOut(f);
      }
    }

    method ActiveOutAny(f: Aiocb, task: OptTask)
      requires Coherent() && loop.Valid() && Usable(Sys()) && f in model.filps && (task != null ==> task in loop.model.tasks)
      modifies `refcnt, `model, f`fields, loop, loop.Region()
      ensures Coherent() && loop.Valid() && loop.Region() == old(loop.Region())
      ensures Sys() == ReadinessModel.ActiveOut(old(Sys()), f, task)
    {
      hide Coherent, Loop.TaskLoop.Valid, ReadinessModel.PollOut, LoopModel.Activated, Put;
      Fields(f);
      if f.fields.writable {
        Tell(task, f);
      } else {
        ActiveOutUnready(f, task);
      }
    }

    method ActiveOut(f: Aiocb, task: OptTask)
      requires Valid() && f in model.filps && (task != null ==> task in loop.model.tasks)
      requires var x := model.filps[f]; x.writable || x.pollOut || Live(x)
      modifies `refcnt, `model, f`fields, loop, loop.Region()
      ensures Valid() && loop.Region() == old(loop.Region())
      ensures Sys() == ReadinessModel.ActiveOut(old(Sys()), f, task)
    {
      assert Usable(Sys());
      hide Coherent, Loop.TaskLoop.Valid, ReadinessModel.ActiveOut, Ready, Usable;
      ActiveOutKeeps(Sys(), f, task);
      ActiveOutAny(f, task);
    }

    lemma At(f: Aiocb)
      requires Valid() && f in model.filps
      ensures f.fields == model.filps[f] && refcnt == model.refcnt && Usable(Sys())
      ensures var x := model.filps[f]; WaiterPolled(x) && FitsLoop(x, loop.model)
      ensures var x := model.filps[f]; WaiterPolled(x.(filterIn := null)) && FitsLoop(x.(filterIn := null), loop.model)
      ensures var x := model.filps[f]; WaiterPolled(x.(filterOut := null)) && FitsLoop(x.(filterOut := null), loop.model)
      ensures var x := model.filps[f]; WaiterPolled(x.(readable := false)) && FitsLoop(x.(readable := false), loop.model)
      ensures var x := model.filps[f]; WaiterPolled(x.(writable := false)) && FitsLoop(x.(writable := false), loop.model)
    {
      hide Loop.TaskLoop.Valid, Agrees, Counted, LoopProofs.Inv;
    }

    /** New waiters or readiness, with the same registration. */
    method Replace(f: Aiocb, x: Filp)
      requires Valid() && f in model.filps && WaiterPolled(x) && FitsLoop(x, loop.model)
      requires var y := model.filps[f];
               x.pollIn == y.pollIn && x.pollOut == y.pollOut && x.attached == y.attached && x.detached == y.detached
      modifies `model, f`fields
      ensures Valid() && model == Put(old(model), f, x)
    {
      hide Loop.TaskLoop.Valid, Ready, Coherent, FitsLoop, WaiterPolled;
      ghost var tasks := loop.Region();
      PutKeeps(Sys(), f, x);
      SetFields(f, x);
    }

    /** generic_cancel_in */
    method CancelIn(f: Aiocb, verify: object?)
      requires Valid() && f in model.filps
      modifies `model, f`fields
      ensures Valid() && Sys() == ReadinessModel.CancelIn(old(Sys()), f, verify)
    {
      hide Valid, FitsLoop, WaiterPolled;
      At(f);
      if verify == f.fields.filterIn {
        Replace(f, f.fields.(filterIn := null));
      }
    }

    /** tx_aincb_update, for a result and whether errno says would-block */
    method UpdateIn(f: Aiocb, len: int, again: bool)
      requires Valid() && f in model.filps
      modifies `model, f`fields
      ensures Valid() && Sys() == ReadinessModel.UpdateIn(old(Sys()), f, len, again)
    {
      hide Valid, FitsLoop, WaiterPolled;
      At(f);
      if len >= 0 {
        return;
      }
      if again {
        Replace(f, f.fields.(readable := false));
      }
    }

    /** generic_cancel_out */
    method CancelOut(f: Aiocb, verify: object?)
      requires Valid() && f in model.filps
      modifies `model, f`fields
      ensures Valid() && Sys() == ReadinessModel.CancelOut(old(Sys()), f, verify)
    {
      hide Valid, FitsLoop, WaiterPolled;
      At(f);
      if verify == f.fields.filterOut {
        Replace(f, f.fields.(filterOut := null));
      }
    }

    /** tx_outcb_update, for a result and whether errno says would-block */
    method UpdateOut(f: Aiocb, len: int, again: bool)
      requires Valid() && f in model.filps
      modifies `model, f`fields
      ensures Valid() && Sys() == ReadinessModel.UpdateOut(old(Sys()), f, len, again)
    {
      hide Valid, FitsLoop, WaiterPolled;
      At(f);
      if len >= 0 {
        return;
      }
      if again {
        Replace(f, f.fields.(writable := false));
      }
    }

    /** The connection is being made: the waiter is told when it is. */
    method ConnectLater(f: Aiocb, task: OptTask)
      requires Coherent() && loop.Valid() && Usable(Sys()) && f in model.filps && (task != null ==> task in loop.model.tasks)
      modifies `refcnt, `model, f`fields, loop, loop.Region()
      ensures Coherent() && loop.Valid() && loop.Region() == old(loop.Region())
      ensures Sys() == ReadinessModel.Connect(old(Sys()), f, task, InProgress)
    {
      hide Loop.TaskLoop.Valid, Coherent, ReadinessModel.ActiveOut, Usable;
      Fields(f);
      ghost var tasks := loop.Region();
      PutUsable(Sys(), f, model.filps[f].(writable := false, readable := false));
      SetFields(f, f.fields.(writable := false, readable := false));
      ActiveOutAny(f, task);
    }

    /** The answer is there: the task is told at once. */
    method ConnectNow(f: Aiocb, task: OptTask, refused: bool)
      requires Coherent() && loop.Valid() && Usable(Sys()) && f in model.filps && (task != null ==> task in loop.model.tasks)
      modifies `model, f`fields, loop, loop.Region()
      ensures Coherent() && loop.Valid() && loop.Region() == old(loop.Region())
      ensures Sys() == ReadinessModel.Connect(old(Sys()), f, task, if refused then Refused else Connected)
    {
      hide Loop.TaskLoop.Valid, Coherent, LoopModel.Activated, Usable;
      Fields(f);
      ghost var tasks, x := loop.Region(), model.filps[f];
      assert x.(writable := true, readable := x.readable) == x.(writable := true);
      PutUsable(Sys(), f, x.(writable := true, readable := x.readable || refused));
      SetFields(f, f.fields.(writable := true, readable := f.fields.readable || refused));
      Tell(task, f);
    }

    /** tx_aiocb_connect, for what connect(2) answers */
    method Connect(f: Aiocb, task: OptTask, answer: Connecting)
      requires Valid() && f in model.filps && (task != null ==> task in loop.model.tasks)
      requires var x := model.filps[f]; answer != InProgress || x.pollOut || Live(x)
      modifies `refcnt, `model, f`fields, loop, loop.Region()
      ensures Valid() && loop.Region() == old(loop.Region())
      ensures Sys() == ReadinessModel.Connect(old(Sys()), f, task, answer)
    {
      assert Usable(Sys());
      hide Coherent, Loop.TaskLoop.Valid, ReadinessModel.Connect, Ready, Usable;
      ConnectKeeps(Sys(), f, task, answer);
      if answer == InProgress {
        ConnectLater(f, task);
      } else {
        ConnectNow(f, task, answer == Refused);
      }
    }

    /** tx_aiocb_init, with EPOLL_CTL_ADD */
    method NewAiocb() returns (f: Aiocb)
      requires Valid()
      modifies `model
      ensures Valid() && fresh(f) && Sys() == ReadinessModel.Attach(old(Sys()), f)
    {
      hide Loop.TaskLoop.Valid, Ready;
      ghost var tasks, filps, s := loop.Region(), model.filps.Keys, Sys();
      f := new Aiocb(NEW_FILP.(attached := true));
      AttachKeeps(s, f);
      model := ReadinessModel.Attach(s, f).io;
    }

    /** The flags and the count of tx_epoll_detach, with EPOLL_CTL_DEL. */
    method Unregister(f: Aiocb)
      requires Coherent() && f in model.filps
      modifies `refcnt, `model, f`fields
      ensures Coherent()
      ensures var s, x := old(model), old(model.filps[f]);
              var u := if Live(x) then Put(s, f, x.(detached := true)).(kernel := s.kernel - {f}) else s;
              model == if Polled(x) then u.(refcnt := u.refcnt - 1) else u
    {
      ghost var s, x := model, model.filps[f];
      if f.fields.attached && !f.fields.detached {
        f.fields := f.fields.(detached := true);
        model := Put(s, f, x.(detached := true)).(kernel := s.kernel - {f});
      }
      if f.fields.pollIn || f.fields.pollOut {
        refcnt := refcnt - 1;
        model := model.(refcnt := model.refcnt - 1);
      }
    }

    method FiniAny(f: Aiocb)
      requires Coherent() && loop.Valid() && f in model.filps
      modifies `refcnt, `model, f`fields, loop
      ensures Coherent() && loop.Valid() && loop.Region() == old(loop.Region()) && Sys() == ReadinessModel.Detach(old(Sys()), f)
    {
      hide Coherent, Loop.TaskLoop.Valid, Release;
      Fields(f);
      ghost var tasks := loop.Region();
      var polled := f.fields.pollIn || f.fields.pollOut;
      Unregister(f);
      if polled {
        GiveUp();
      }
    }

    /** tx_aiocb_fini: tx_epoll_detach */
    method Fini(f: Aiocb)
      requires Valid() && f in model.filps
      modifies `refcnt, `model, f`fields, loop
      ensures Coherent() && loop.Valid() && loop.Region() == old(loop.Region())
      ensures Sys() == ReadinessModel.Detach(old(Sys()), f)
      ensures Valid() <==> old(Live(model.filps[f]) || !Polled(model.filps[f]))
    {
      hide Coherent, Loop.TaskLoop.Valid, Ready, ReadinessModel.Detach;
      DetachKeepsIff(Sys(), f);
      FiniAny(f);
    }

    // -------------------------------------------------------------- tx_epoll_polling

    lemma WaiterTasks(s: System, f: Aiocb)
      requires Usable(s) && f in s.io.filps
      ensures var x := s.io.filps[f];
              (x.filterIn != null ==> x.filterIn in s.loop.tasks) && (x.filterOut != null ==> x.filterOut in s.loop.tasks)
    {
    }

    /** The output waiter of a report. */
    method ServeOut(f: Aiocb)
      requires Coherent() && loop.Valid() && Usable(Sys()) && f in model.filps
      modifies `model, f`fields, loop, loop.Region()
      ensures Coherent() && loop.Valid() && loop.Region() == old(loop.Region()) && Sys() == WakeOut(old(Sys()), f)
    {
      hide Loop.TaskLoop.Valid, Coherent, LoopModel.Activated, LoopModel.Kept, Usable;
      Fields(f);
      WaiterTasks(Sys(), f);
      ghost var io := model;
      Tell(f.fields.filterOut, f);
      assert model == io;
      Fields(f);
      ghost var told, tasks := loop.model, loop.Region();
      SetFields(f, f.fields.(pollOut := false, writable := true, filterOut := null));
      assert loop.model == told && loop.Region() == tasks;
    }

    /** The input waiter of a report. */
    method ServeIn(f: Aiocb)
      requires Coherent() && loop.Valid() && Usable(Sys()) && f in model.filps
      modifies `model, f`fields, loop, loop.Region()
      ensures Coherent() && loop.Valid() && loop.Region() == old(loop.Region()) && Sys() == WakeIn(old(Sys()), f)
    {
      hide Loop.TaskLoop.Valid, Coherent, LoopModel.Activated, LoopModel.Kept, Usable;
      Fields(f);
      WaiterTasks(Sys(), f);
      ghost var io := model;
      Tell(f.fields.filterIn, f);
      assert model == io;
      Fields(f);
      ghost var told, tasks := loop.model, loop.Region();
      SetFields(f, f.fields.(pollIn := false, readable := true, filterIn := null));
      assert loop.model == told && loop.Region() == tasks;
    }

    /** tx_epoll_pollit, for what is left of a report. */
    method RearmLeft(f: Aiocb)
      requires Coherent() && Usable(Sys()) && f in model.filps
      modifies `refcnt, `model
      ensures Coherent() && Sys() == Rearm(old(Sys()), f)
    {
      Fields(f);
      if f.fields.pollIn || f.fields.pollOut {
        refcnt := refcnt + 1;
        model := Armed(model, f, model.filps[f], 1);
      }
    }

    method CountDown()
      requires Coherent() && Usable(Sys())
      modifies `refcnt, `model
      ensures Coherent() && model == old(model).(refcnt := old(model.refcnt) - 1) && Usable(Sys())
    {
      refcnt, model := refcnt - 1, model.(refcnt := model.refcnt - 1);
    }

    /** The waiters of a report without EPOLLHUP and EPOLLERR. */
    method ServeAsked(e: Report)
      requires Coherent() && loop.Valid() && Usable(Sys()) && e.filp in model.filps
      modifies `model, e.filp`fields, loop, loop.Region()
      ensures Coherent() && loop.Valid() && loop.Region() == old(loop.Region())
      ensures var s := old(Sys());
              var a := if e.output then WakeOut(s, e.filp) else s;
              Sys() == if e.input then WakeIn(a, e.filp) else a
    {
      hide Loop.TaskLoop.Valid, Coherent, WakeIn, WakeOut, Usable;
      if e.output {
        ServeOut(e.filp);
      }
      if e.input {
        ServeIn(e.filp);
      }
    }

    method ServeHangup(f: Aiocb)
      requires Coherent() && loop.Valid() && Usable(Sys()) && f in model.filps
      modifies `model, f`fields, loop, loop.Region()
      ensures Coherent() && loop.Valid() && loop.Region() == old(loop.Region())
      ensures Sys() == WakeIn(WakeOut(old(Sys()), f), f)
    {
      hide Loop.TaskLoop.Valid, Coherent, WakeIn, WakeOut, Usable;
      ServeOut(f);
      ServeIn(f);
    }

    /** The body of the loop over the reports. */
    method Serve(e: Report)
      requires Coherent() && loop.Valid() && Usable(Sys()) && e.filp in model.filps
      modifies `refcnt, `model, e.filp`fields, loop, loop.Region()
      ensures Coherent() && loop.Valid() && loop.Region() == old(loop.Region()) && Sys() == Deliver(old(Sys()), e)
    {
      hide Loop.TaskLoop.Valid, Coherent, WakeIn, WakeOut, Rearm, Usable;
      ghost var l, tasks := loop.model, loop.Region();
      CountDown();
      assert loop.model == l && loop.Region() == tasks;
      if e.hup {
        ServeHangup(e.filp);
      } else {
        ServeAsked(e);
        ghost var m, left := loop.model, loop.Region();
        RearmLeft(e.filp);
        assert loop.model == m && loop.Region() == left;
      }
    }

    /** What is left to serve makes the system into `goal`; filps and region are what it may write. */
    ghost predicate ServesTo(batch: seq<Report>, goal: System, filps: set<Aiocb>, region: set<Task>)
      reads this, model.filps.Keys`fields, loop, loop.Region()
    {
      && Coherent() && loop.Valid() && Usable(Sys()) && (forall e :: e in batch ==> e.filp in model.filps)
      && DeliverAll(Sys(), batch) == goal && model.filps.Keys == filps && loop.Region() == region
    }

    method ServeNext(e: Report, ghost rest: seq<Report>, ghost goal: System, ghost filps: set<Aiocb>, ghost region: set<Task>)
      requires ServesTo([e] + rest, goal, filps, region)
      modifies `refcnt, `model, filps`fields, loop, region
      ensures ServesTo(rest, goal, filps, region)
    {
      hide Loop.TaskLoop.Valid, Coherent, Deliver, Usable;
      assert ([e] + rest)[0] == e && ([e] + rest)[1..] == rest;
      assert forall d :: d in rest ==> d in [e] + rest;
      assert e in [e] + rest;
      Serve(e);
    }

    method ServeAll(batch: seq<Report>, ghost goal: System, ghost filps: set<Aiocb>, ghost region: set<Task>)
      requires ServesTo(batch, goal, filps, region)
      modifies `refcnt, `model, filps`fields, loop, region
      ensures ServesTo([], goal, filps, region)
    {
      hide ServesTo;
      assert batch[0..] == batch;
      for i := 0 to |batch|
        invariant ServesTo(batch[i..], goal, filps, region)
      {
        assert batch[i..] == [batch[i]] + batch[i + 1..];
        ServeNext(batch[i], batch[i + 1..], goal, filps, region);
      }
      assert batch[|batch|..] == [];
    }

    /** epoll_wait: the kernel forgets the registrations it reports. */
    ghost method Await(batch: seq<Report>)
      requires Coherent() && Usable(Sys())
      modifies `model
      ensures Coherent() && Usable(Sys()) && model == Waited(old(model), batch)
    {
      model := Waited(model, batch);
    }

    /** What Serve makes of a batch. */
    method Dispatch(batch: seq<Report>)
      requires Coherent() && loop.Valid() && Usable(Sys()) && forall e :: e in batch ==> e.filp in model.filps
      modifies `refcnt, `model, model.filps.Keys`fields, loop, loop.Region()
      ensures Coherent() && loop.Valid() && loop.Region() == old(loop.Region()) && Usable(Sys())
      ensures Usable(old(Sys())) && Sys() == ReadinessModel.Polling(old(Sys()), batch)
    {
      hide Loop.TaskLoop.Valid, Coherent, Usable, DeliverAll, Waited, Release, LoopModel.PollActivate;
      ghost var tasks, filps := loop.Region(), model.filps.Keys;
      Await(batch);
      ServeAll(batch, DeliverAll(Sys(), batch), filps, tasks);
      DeliverNone(Sys());
      Finish();
    }

    /** The end of tx_epoll_polling. */
    method Finish()
      requires Coherent() && loop.Valid() && Usable(Sys())
      modifies loop, loop.Region()
      ensures Coherent() && loop.Valid() && loop.Region() == old(loop.Region())
      ensures var d := Release(old(Sys()));
              Sys() == d.(loop := LoopModel.PollActivate(d.loop, d.io.poller)) && Usable(Sys())
    {
      hide Loop.TaskLoop.Valid, LoopModel.PollActivate;
      ghost var filps := model.filps.Keys;
      GiveUp();
      loop.PollActive(poller);
    }

    /** The first lines of tx_epoll_polling: the timeout for epoll_wait. */
    method WaitTime() returns (wait: int)
      requires loop.Valid()
      ensures wait == if LoopModel.Timeout(loop.model, this) != 0 then 10 else 0
    {
      var timeout := loop.TimeoutFor(this);
      wait := if timeout != 0 then 10 else 0;
    }

    /** The rest of tx_epoll_polling, for what the kernel answers. */
    method Polling(batch: seq<Report>)
      requires Valid() && Reported(model, batch) && forall e :: e in batch ==> e.filp in model.filps
      modifies `refcnt, `model, model.filps.Keys`fields, loop, loop.Region()
      ensures Valid() && loop.Region() == old(loop.Region()) && Usable(old(Sys()))
      ensures Sys() == ReadinessModel.Polling(old(Sys()), batch)
    {
      assert Usable(Sys());
      hide Loop.TaskLoop.Valid, Coherent, Ready, Usable, ReadinessModel.Polling, Reported;
      PollingKeeps(Sys(), batch);
      Dispatch(batch);
    }
  }

  lemma PutUsable(s: System, f: Aiocb, x: Filp)
    requires Usable(s) && f in s.io.filps && x.filterIn == s.io.filps[f].filterIn && x.filterOut == s.io.filps[f].filterOut
    ensures Usable(s.(io := Put(s.io, f, x)))
  {
  }

  lemma DeliverNone(s: System)
    requires Usable(s)
    ensures DeliverAll(s, []) == s
  {
  }
}
