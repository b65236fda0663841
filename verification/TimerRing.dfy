/** tx_timer_ring on the heap: the functions of tx_timer.cpp over real intrusive lists, each proved to
    take the step the model says, and to hand exactly the fired timers' tasks to the loop. */
module TimerRing {
  import opened IntrusiveList
  import opened WheelModel
  import opened WheelProofs
  import opened WheelTheorems
  import LoopModel
  import LoopProofs
  import LoopTheorems
  import Loop

  /** The flags and deadlines kept in the timers are the recorded ones. */
  ghost predicate Holds(timers: map<Timer, TimerFields>)
    reads timers.Keys`payload
  {
    forall t :: t in timers ==> t.payload == timers[t]
  }

  /** The writes of tx_timer_reset to an idle timer, once the list is chosen. */
  method HookTimer(head: Timer, t: Timer, deadline: int, ghost f: Family<TimerFields>, ghost timers: map<Timer, TimerFields>)
    requires WellFormed(f) && Linked(f, null) && Holds(timers) && head in f.lists
    requires t in timers && t !in f.at && t !in f.lists
    modifies Footprint(f)`next, Footprint(f)`prev, t`next, t`prev, t`payload
    ensures WellFormed(Pushed(f, head, t)) && Linked(Pushed(f, head, t), null)
    ensures Holds(timers[t := timers[t].(idle := false, interval := deadline)])
  {
    hide WellFormed, Linked, Pushed;
    t.payload := t.payload.(idle := false);
    t.payload := t.payload.(interval := deadline);
    ListInsertHead(head, t, f);
  }

  /** LIST_REMOVE, and IDLE set again. */
  method UnhookTimer(t: Timer, ghost f: Family<TimerFields>, ghost cut: OptTimer, ghost timers: map<Timer, TimerFields>)
    requires WellFormed(f) && Linked(f, cut) && Holds(timers) && t in timers && t in f.at
    requires cut != null ==> cut in f.lists && f.at[t] == cut && f.lists[cut] != [] && f.lists[cut][0] == t
    modifies Footprint(f)`next, Footprint(f)`prev, t`payload
    ensures WellFormed(Unlinked(f, t)) && Linked(Unlinked(f, t), null)
    ensures Holds(timers[t := timers[t].(idle := true)])
  {
    hide WellFormed, Linked, Unlinked;
    ListRemove(t, f, cut);
    t.payload := t.payload.(idle := true);
  }

  // ---------------------------------------------------------------- what the loop is told

  type Owners = map<Timer, LoopModel.OptTask>

  ghost predicate Served(l: LoopModel.LoopState, owners: Owners) {
    l.taskq in l.fam.lists && forall t :: t in owners && owners[t] != null ==> owners[t] in l.tasks
  }

  /** The loop after the timers in log fired, in that order. */
  ghost function Delivered(l: LoopModel.LoopState, owners: Owners, log: seq<Timer>): (r: LoopModel.LoopState)
    requires Served(l, owners) && forall t :: t in log ==> t in owners
    ensures Served(r, owners) && r.taskq == l.taskq && r.tasks.Keys == l.tasks.Keys
    decreases |log|
  {
    if log == [] then l
    else
      var n := |log| - 1;
      LoopModel.Activated(Delivered(l, owners, log[..n]), owners[log[n]], log[n])
  }

  /** From one wheel to the other the loop l was told of exactly the new firings, in order. */
  ghost predicate Tells(l: LoopModel.LoopState, owners: Owners, s: Wheel, r: Wheel, told: LoopModel.LoopState) {
    && |s.fired| <= |r.fired| && (forall t :: t in r.fired[|s.fired|..] ==> t in owners) && Served(l, owners)
    && told == Delivered(l, owners, r.fired[|s.fired|..])
  }

  /** The tasks of the timers in log are on the run queue, to be run. */
  ghost predicate TasksQueued(l: LoopModel.LoopState, owners: Owners, log: seq<Timer>) {
    forall t :: t in log && t in owners && owners[t] != null ==>
      LoopTheorems.Queued(l, owners[t]) && LoopModel.OnQueue(l, owners[t])
  }

  lemma {:induction false} DeliveredQueues(l: LoopModel.LoopState, owners: Owners, log: seq<Timer>)
    requires Served(l, owners) && (forall t :: t in log ==> t in owners) && !l.stop
    ensures var r := Delivered(l, owners, log);
            && !r.stop && LoopTheorems.NoNewWaiters(l, r)
            && forall t :: t in log ==> LoopTheorems.Queued(r, owners[t])
    decreases |log|
  {
    if log != [] {
      var n := |log| - 1;
      assert log == log[..n] + [log[n]];
      DeliveredQueues(l, owners, log[..n]);
      hide LoopModel.Activated;
      LoopTheorems.ActivatedQueues(Delivered(l, owners, log[..n]), owners[log[n]], log[n]);
      LoopTheorems.ActivatedWaiters(Delivered(l, owners, log[..n]), owners[log[n]], log[n]);
    }
  }

  /** While the loop is not stopped, whatever fired is queued once the poller has rejoined, and so is the poller. */
  lemma FiredQueued(l: LoopModel.LoopState, owners: Owners, s: Wheel, r: Wheel, told: LoopModel.LoopState,
                    callout: LoopModel.Task, m: LoopModel.LoopState, dead: bool)
    requires Tells(l, owners, s, r, told) && Rejoined(told, callout, m, dead) && LoopProofs.Inv(m) && !l.stop
    ensures |s.fired| <= |r.fired| && TasksQueued(m, owners, r.fired[|s.fired|..])
    ensures callout in l.tasks && !l.tasks[callout].pending ==> LoopModel.OnQueue(m, callout)
  {
    hide LoopProofs.Inv, Served, Delivered, LoopModel.PollActivate, LoopModel.OnQueue;
    var log := r.fired[|s.fired|..];
    DeliveredQueues(l, owners, log);
    LoopTheorems.PollStillBusy(told, callout);
    if callout in l.tasks && !l.tasks[callout].pending { LoopTheorems.PollerQueued(told, m, callout); }
    forall t | t in log && t in owners && owners[t] != null
      ensures LoopTheorems.Queued(m, owners[t]) && LoopModel.OnQueue(m, owners[t])
    {
      LoopTheorems.QueuedOnQueue(m, owners[t]);
    }
  }

  /** tx_poll_active of the callout, and whether a stopped loop refused it. */
  ghost predicate Rejoined(l: LoopModel.LoopState, callout: LoopModel.Task, r: LoopModel.LoopState, dead: bool) {
    && callout in l.tasks && l.taskq in l.fam.lists && r == LoopModel.PollActivate(l, callout)
    && dead == r.tasks[callout].idle
  }

  class TimerRing {
    const arch: Arch
    const mi: seq<Timer>
    const ma: seq<Timer>
    const st: Timer
    var ticks: int          // tx_ticks
    var miTick: int
    var miWheel: int
    var maTick: int
    var maWheel: int
    var stTick: int
    const loop: Loop.TaskLoop
    const callout: LoopModel.Task
    ghost var owners: Owners
    ghost var model: Wheel

    ghost function Region(): set<Timer>
      reads this
    {
      model.fam.lists.Keys + model.timers.Keys
    }

    ghost predicate Fields()
      reads this
    {
      && model.mi == mi && model.ma == ma && model.st == st && model.ticks == ticks
      && model.miTick == miTick && model.miWheel == miWheel
      && model.maTick == maTick && model.maWheel == maWheel && model.stTick == stTick
    }

    /** The heap is what the model says, except for the head `cut`, which has been initialised again
        while its elements are still being visited. */
    ghost predicate Coherent(cut: OptTimer)
      reads this, Region()
    {
      && Fields() && Built(model) && Holds(model.timers) && model.fam.at.Keys <= Region()
      && WellFormed(model.fam) && Linked(model.fam, cut)
    }

    ghost predicate Valid()
      reads this, Region()
    {
      Coherent(null) && Sound(model) && Owned()
    }

    ghost predicate Owned()
      reads this
    {
      owners.Keys == model.timers.Keys && forall t :: t in owners ==> model.timers[t].task == owners[t]
    }

    constructor (arch: Arch, loop: Loop.TaskLoop, callout: LoopModel.Task,
                 mi: seq<Timer>, ma: seq<Timer>, st: Timer, now: int)
      requires |mi| == MAX_MI_WHEEL && |ma| == MAX_MA_WHEEL && Distinct(mi + ma + [st])
      requires var f := EmptyFamily(mi, ma, st); WellFormed(f) && Linked(f, null)
      ensures this.arch == arch && this.loop == loop && this.callout == callout
      ensures Valid() && model == EmptyWheel(mi, ma, st, now) && NewRing(model, now)
    {
      hide WellFormed, Linked, NewRing, Sound, EmptyWheel, EmptyFamily, RingHeads, Distinct, Built;
      EmptyWheelNew(mi, ma, st, now);
      EmptySound(EmptyWheel(mi, ma, st, now), now);
      this.arch, this.loop, this.callout := arch, loop, callout;
      this.mi, this.ma, this.st := mi, ma, st;
      ticks, stTick := now, now;
      miTick, miWheel := now, 0;
      maTick, maWheel := now, 0;
      owners := map[];
      model := EmptyWheel(mi, ma, st, now);
    }

    // -------------------------------------------------------------- tx_timer_reset, stop

    /** LIST_REMOVE and IDLE, also for the first element of the cut head. */
    method Unlist(t: Timer, ghost cut: OptTimer)
      requires Coherent(cut) && t in model.timers && t in model.fam.at
      requires cut != null ==> cut in model.fam.lists && model.fam.at[t] == cut
                               && model.fam.lists[cut] != [] && model.fam.lists[cut][0] == t
      modifies `model, Region()
      ensures Coherent(null) && model == WheelModel.Unlist(old(model), t) && Region() == old(Region())
    {
      hide WellFormed, Linked, Holds, Built;
      ghost var s := model;
      UnhookTimer(t, s.fam, cut, s.timers);
      UnlistEffect(s, t);
      model := WheelModel.Unlist(s, t);
    }

    /** The list tx_timer_reset chooses. */
    method Choose(deadline: int) returns (head: Timer)
      requires Fields() && Built(model)
      ensures head == Place(arch, model, deadline)
    {
      hide Size;
      var miCount := Size(arch, deadline - miTick) / MIN_TIME_OUT;
      miCount := if miCount == 0 then 1 else miCount;
      if miCount < MAX_MI_WHEEL {
        return mi[Size(arch, miWheel + miCount) % MAX_MI_WHEEL];
      }
      var maCount := Size(arch, deadline - maTick) / MIN_MA_TIMER;
      if maCount < MAX_MA_WHEEL {
        return ma[Size(arch, maWheel + maCount) % MAX_MA_WHEEL];
      }
      return st;
    }

    method Enlist(t: Timer, umilsec: int)
      requires Coherent(null) && t in model.timers && t !in model.fam.at && t !in model.fam.lists
      modifies `model, Region()
      ensures Coherent(null) && model == WheelModel.Enlist(arch, old(model), t, umilsec) && Region() == old(Region())
    {
      hide WellFormed, Linked, Holds, Place, Unsigned, Pushed, Built;
      ghost var s := model;
      var deadline := Unsigned(arch, ticks + umilsec);
      var head := Choose(deadline);
      HookTimer(head, t, deadline, s.fam, s.timers);
      EnlistEffect(arch, s, t, umilsec);
      model := WheelModel.Enlist(arch, s, t, umilsec);
    }

    /** An idle timer is armed. */
    method Arm(t: Timer, umilsec: int)
      requires Valid() && t in model.timers && model.timers[t].idle
      modifies `model, Region()
      ensures Valid() && model == WheelModel.Enlist(arch, old(model), t, umilsec) && Region() == old(Region())
    {
      hide Coherent, Sound, WheelModel.Enlist;
      ghost var s := model;
      CoherentBuilt(null);
      EnlistSound(arch, s, t, umilsec);
      IdleUnlinked(s, t);
      Enlist(t, umilsec);
      EnlistOwned(s, t, umilsec);
    }

    /** LIST_REMOVE of an armed timer, which becomes idle. */
    method Disarm(t: Timer, ghost cut: OptTimer)
      requires Coherent(cut) && Sound(model) && Owned() && t in model.timers && !model.timers[t].idle
      requires AtCut(t, cut)
      modifies `model, Region()
      ensures Valid() && model == WheelModel.Unlist(old(model), t) && Region() == old(Region())
    {
      hide Coherent, Sound, WheelModel.Unlist;
      ghost var s := model;
      CoherentBuilt(cut);
      UnlistSound(s, t);
      ArmedLinked(s, t);
      Unlist(t, cut);
      UnlistOwned(s, t);
    }

    /** While a head is cut, only its first element may be removed. */
    ghost predicate AtCut(t: Timer, cut: OptTimer)
      reads this
    {
      cut != null ==>
        && t in model.fam.at && cut in model.fam.lists && model.fam.at[t] == cut
        && model.fam.lists[cut] != [] && model.fam.lists[cut][0] == t
    }

    lemma Reads(t: Timer, cut: OptTimer)
      requires Coherent(cut) && t in model.timers
      ensures t.payload == model.timers[t] && ticks == model.ticks && Built(model)
    {
    }

    lemma CoherentBuilt(cut: OptTimer)
      requires Coherent(cut)
      ensures Built(model) && Fields() && Holds(model.timers)
    {
    }

    method Reset(t: Timer, umilsec: int)
      requires Valid() && t in model.timers
      modifies `model, Region()
      ensures Valid() && model == WheelModel.Reset(arch, old(model), t, umilsec) && Region() == old(Region())
      decreases if model.timers[t].idle then 0 else 1
    {
      CoherentBuilt(null);
      hide Valid, WheelModel.Enlist, WheelModel.Unlist, Built;
      if t.payload.idle {
        Arm(t, umilsec);
      } else {
        UnlistedIdle(model, t);
        Disarm(t, null);
        Reset(t, umilsec);
      }
    }

    /** tx_timer_stop */
    method StopTimer(t: Timer)
      requires Valid() && t in model.timers
      modifies `model, Region()
      ensures Valid() && model == WheelModel.StopTimer(old(model), t) && Region() == old(Region())
    {
      CoherentBuilt(null);
      hide Valid, WheelModel.Unlist, Built;
      if !t.payload.idle {
        Disarm(t, null);
      }
    }

    // -------------------------------------------------------------- firing

    /** The loop is there to be told. */
    ghost predicate LoopReady()
      reads `owners, loop, loop.Region()
    {
      loop.Valid() && Served(loop.model, owners) && callout in loop.model.tasks
    }

    /** Since the loop was l and n timers had fired, it has been told of every firing and of nothing else. */
    ghost predicate InStep(l: LoopModel.LoopState, n: nat)
      reads `owners, `model, loop`model
    {
      && Served(l, owners) && n <= |model.fired| && (forall t :: t in model.fired[n..] ==> t in owners)
      && loop.model == Delivered(l, owners, model.fired[n..])
    }

    lemma InStepNow()
      requires LoopReady()
      ensures InStep(loop.model, |model.fired|)
    {
      hide Coherent, Sound, Built, Loop.TaskLoop.Valid, LoopModel.ActivateTask;
    }

    /** tx_task_active(timer->tx_task, timer) */
    method Tell(t: Timer)
      requires Valid() && LoopReady() && t in model.timers
      modifies loop, loop.Region()
      ensures Valid() && LoopReady() && loop.Region() == old(loop.Region()) && t in owners
      ensures loop.model == LoopModel.Activated(old(loop.model), owners[t], t)
    {
      hide Coherent, Sound, Built, Loop.TaskLoop.Valid, LoopModel.ActivateTask, LoopModel.Kept, Owned, Served;
      Owner(t);
      ghost var region, l := Region(), loop.model;
      loop.Active(t.payload.task, t);
      StillServed(l, owners, t);
    }

    lemma Owner(t: Timer)
      requires Valid() && LoopReady() && t in model.timers
      ensures t in owners && t.payload.task == owners[t] && (owners[t] != null ==> owners[t] in loop.model.tasks)
      ensures loop.model.taskq in loop.model.fam.lists
    {
      hide Sound, Built, Loop.TaskLoop.Valid;
    }

    method Fire(t: Timer, ghost l: LoopModel.LoopState, ghost n: nat)
      requires Valid() && LoopReady() && InStep(l, n) && t in model.timers
      modifies `model, loop, loop.Region()
      ensures Valid() && LoopReady() && InStep(l, n) && Region() == old(Region()) && loop.Region() == old(loop.Region())
      ensures model == old(model).(fired := old(model.fired) + [t])
    {
      hide Valid, LoopReady, Delivered, LoopModel.Activated, Served;
      ghost var s, o := model, owners;
      Tell(t);
      DeliveredOneMore(l, owners, s.fired, n, t);
      ghost var told, tasks, region := loop.model, loop.Region(), Region();
      NoteFired(t);
      assert loop.model == told && loop.Region() == tasks && owners == o;
    }

    ghost method NoteFired(t: Timer)
      requires Valid()
      modifies `model
      ensures Valid() && model == old(model).(fired := old(model.fired) + [t])
    {
      hide Sound, WellFormed, Linked, Holds;
      FiredSound(model, model.fired + [t]);
      model := model.(fired := model.fired + [t]);
    }

    /** tx_timer_drain */
    method DrainTimer(t: Timer, ghost l: LoopModel.LoopState, ghost n: nat)
      requires Valid() && LoopReady() && InStep(l, n) && t in model.timers
      modifies `model, Region(), loop, loop.Region()
      ensures Valid() && LoopReady() && InStep(l, n) && Region() == old(Region()) && loop.Region() == old(loop.Region())
      ensures model == WheelModel.DrainTimer(old(model), t)
    {
      hide Sound, Coherent, WheelModel.Unlist, Built, LoopReady, InStep;
      Reads(t, null);
      if !t.payload.idle {
        DisarmAndFire(t, null, l, n);
      }
    }

    /** A visited timer that fires. */
    method DisarmAndFire(cur: Timer, ghost cut: OptTimer, ghost l: LoopModel.LoopState, ghost n: nat)
      requires Coherent(cut) && Sound(model) && Owned() && cur in model.timers && !model.timers[cur].idle && AtCut(cur, cut)
      requires LoopReady() && InStep(l, n)
      modifies `model, Region(), loop, loop.Region()
      ensures Valid() && LoopReady() && InStep(l, n) && Region() == old(Region()) && loop.Region() == old(loop.Region())
      ensures model == WheelModel.Unlist(old(model), cur).(fired := old(model.fired) + [cur])
    {
      hide Valid, Sound, Coherent, WheelModel.Unlist, Built, LoopReady, Delivered, Served;
      ghost var tasks, told, o := loop.Region(), loop.model, owners;
      Disarm(cur, cut);
      assert loop.Region() == tasks && loop.model == told && owners == o;
      Fire(cur, l, n);
    }

    method DisarmAndReset(cur: Timer, ghost cut: OptTimer)
      requires Coherent(cut) && Sound(model) && Owned() && cur in model.timers && !model.timers[cur].idle && AtCut(cur, cut)
      modifies `model, Region()
      ensures Valid() && Region() == old(Region())
      ensures var s := old(model);
              model == WheelModel.Enlist(arch, WheelModel.Unlist(s, cur), cur, Unsigned(arch, s.timers[cur].interval - s.ticks))
    {
      hide Valid, Sound, Coherent, WheelModel.Unlist, WheelModel.Enlist, Built, Signed, Unsigned, Owned, AtCut;
      Reads(cur, cut);
      UnlistedIdle(model, cur);
      var left := cur.payload.interval - ticks;
      Disarm(cur, cut);
      Reset(cur, Unsigned(arch, left));
    }

    /** A visited timer that does not fire: the loop is left alone. */
    method Postpone(cur: Timer, ghost cut: OptTimer, ghost l: LoopModel.LoopState, ghost n: nat)
      requires Coherent(cut) && Sound(model) && Owned() && cur in model.timers && !model.timers[cur].idle && AtCut(cur, cut)
      requires LoopReady() && InStep(l, n) && Built(model) && !Fires(arch, model, cur)
      modifies `model, Region()
      ensures Valid() && LoopReady() && InStep(l, n) && Region() == old(Region())
      ensures model == Handle(arch, old(model), cur)
    {
      hide Valid, Sound, Coherent, WheelModel.Unlist, WheelModel.Enlist, Built, LoopReady, Delivered, Served, Owned, AtCut, Fires, Unsigned;
      ghost var tasks := loop.Region();
      DisarmAndReset(cur, cut);
    }

    /** The body of the drain loops. */
    method HandleTimer(cur: Timer, ghost cut: OptTimer, ghost l: LoopModel.LoopState, ghost n: nat)
      requires Coherent(cut) && Sound(model) && Owned() && cur in model.timers && !model.timers[cur].idle && AtCut(cur, cut)
      requires LoopReady() && InStep(l, n)
      modifies `model, Region(), loop, loop.Region()
      ensures Valid() && LoopReady() && InStep(l, n) && Region() == old(Region()) && loop.Region() == old(loop.Region())
      ensures model == Handle(arch, old(model), cur)
    {
      hide Valid, Sound, Coherent, WheelModel.Unlist, WheelModel.Enlist, Built, LoopReady, InStep, Owned, AtCut, Signed, Unsigned;
      Reads(cur, cut);
      var left := cur.payload.interval - ticks;
      if Signed(arch, left - MIN_TIME_OUT) < 0 {
        DisarmAndFire(cur, cut, l, n);
      } else {
        ghost var tasks := loop.Region();
        Postpone(cur, cut, l, n);
        assert loop.Region() == tasks;
      }
    }

    // -------------------------------------------------------------- tx_timer_polling

    /** The head's elements are being visited: todo is left, behind what has been armed again. */
    ghost predicate Draining(head: Timer, front: seq<Timer>, todo: seq<Timer>, cut: OptTimer)
      reads this, Region()
    {
      && Coherent(cut) && Sound(model) && Owned()
      && head in model.fam.lists && model.fam.lists[head] == front + todo
      && (cut == null || (cut == head && front == [] && head.next == null))
    }

    /** timerq = *head; LIST_INIT(head) */
    method TakeList(head: Timer) returns (timerq: OptTimer)
      requires Valid() && head in model.fam.lists
      modifies head`next
      ensures Draining(head, [], model.fam.lists[head], head) && Region() == old(Region())
      ensures timerq == if model.fam.lists[head] == [] then null else model.fam.lists[head][0]
    {
      hide WellFormed, Sound, Linked, Built, Chain;
      FrontLink(model.fam, head);
      timerq := head.next;
      ClearHead(head, model.fam);
      assert [] + model.fam.lists[head] == model.fam.lists[head];
    }

    /** One step of LIST_FOREACH_SAFE. */
    method DrainNext(head: Timer, cur: Timer, ghost front: seq<Timer>, ghost todo: seq<Timer>, ghost cut: OptTimer,
                     ghost l: LoopModel.LoopState, ghost n: nat)
        returns (next: OptTimer, ghost behind: seq<Timer>)
      requires Draining(head, front, todo, cut) && todo != [] && cur == todo[0]
      requires LoopReady() && InStep(l, n)
      modifies `model, Region(), loop, loop.Region()
      ensures Draining(head, behind, todo[1..], null) && LoopReady() && InStep(l, n)
      ensures Region() == old(Region()) && loop.Region() == old(loop.Region())
      ensures next == if |todo| == 1 then null else todo[1]
      ensures cur in old(model.timers) && Built(old(model)) && model == Handle(arch, old(model), cur)
    {
      ghost var s := model;
      NextLink(s.fam, head, front, todo, cut);
      DrainedMember(s, head, front, todo, cut);
      behind := HandleList(arch, s, head, front, todo);
      hide Coherent, Sound, Handle, Built, LoopReady, InStep;
      next := cur.next;
      HandleTimer(cur, cut, l, n);
    }

    /** What is still to be done makes the ring into `goal`. */
    ghost predicate DrainTo(head: Timer, front: seq<Timer>, todo: seq<Timer>, cut: OptTimer, goal: Wheel)
      reads this, Region()
    {
      && Draining(head, front, todo, cut) && (forall t :: t in todo ==> t in model.timers)
      && Sweep(arch, model, todo) == goal
    }

    lemma DrainStart(head: Timer)
      requires Sound(model) && head in model.fam.lists && Draining(head, [], model.fam.lists[head], head)
      ensures DrainTo(head, [], model.fam.lists[head], head, SweepList(arch, model, head))
    {
      ListMembers(model, head);
      hide Draining, Sound, Sweep;
    }

    method DrainOne(head: Timer, cur: Timer, ghost front: seq<Timer>, ghost todo: seq<Timer>, ghost cut: OptTimer,
                    ghost goal: Wheel, ghost l: LoopModel.LoopState, ghost n: nat)
        returns (next: OptTimer, ghost behind: seq<Timer>)
      requires DrainTo(head, front, todo, cut, goal) && todo != [] && cur == todo[0]
      requires LoopReady() && InStep(l, n)
      modifies `model, Region(), loop, loop.Region()
      ensures DrainTo(head, behind, todo[1..], null, goal) && LoopReady() && InStep(l, n)
      ensures Region() == old(Region()) && loop.Region() == old(loop.Region())
      ensures next == if todo[1..] == [] then null else todo[1..][0]
    {
      hide Draining, Built, Handle, LoopReady, InStep;
      next, behind := DrainNext(head, cur, front, todo, cut, l, n);
    }

    method DrainList(head: Timer, ghost l: LoopModel.LoopState, ghost n: nat)
      requires Valid() && LoopReady() && InStep(l, n) && head in model.fam.lists && Built(model)
      modifies `model, Region(), loop, loop.Region()
      ensures Valid() && LoopReady() && InStep(l, n) && Region() == old(Region()) && loop.Region() == old(loop.Region())
      ensures model == SweepList(arch, old(model), head)
    {
      hide Coherent, Sound, Built, LoopReady, InStep, Draining, DrainTo, SweepList;
      ghost var goal := SweepList(arch, model, head);
      ghost var todo, front, cut: OptTimer := model.fam.lists[head], [], head;
      ghost var tasks := loop.Region();
      var cur := TakeList(head);
      DrainStart(head);
      while cur != null
        invariant DrainTo(head, front, todo, cut, goal) && LoopReady() && InStep(l, n)
        invariant Region() == old(Region()) && loop.Region() == old(loop.Region())
        invariant cur == if todo == [] then null else todo[0]
        decreases |todo|
      {
        cur, front := DrainOne(head, cur, front, todo, cut, goal, l, n);
        todo, cut := todo[1..], null;
      }
      DrainDone(head, front, cut, goal);
    }

    lemma DrainDone(head: Timer, front: seq<Timer>, cut: OptTimer, goal: Wheel)
      requires DrainTo(head, front, [], cut, goal)
      ensures Valid() && model == goal
    {
    }

    method AdvanceFine()
      requires Valid()
      modifies `miTick, `miWheel, `model
      ensures Valid() && Region() == old(Region()) && model == WheelModel.AdvanceFine(arch, old(model))
    {
      hide WellFormed, Linked, Size, Holds;
      AdvancedSound(model, WheelModel.AdvanceFine(arch, model));
      miTick := Size(arch, miTick + MIN_TIME_OUT);
      miWheel := Size(arch, miWheel + 1);
      model := WheelModel.AdvanceFine(arch, model);
    }

    method FineTurn(ghost l: LoopModel.LoopState, ghost n: nat)
      requires Valid() && LoopReady() && InStep(l, n) && Built(model)
      modifies `miTick, `miWheel, `model, Region(), loop, loop.Region()
      ensures Valid() && LoopReady() && InStep(l, n) && Region() == old(Region()) && loop.Region() == old(loop.Region())
      ensures Built(model) && model == WheelModel.FineTurn(arch, old(model))
    {
      hide Sound, WellFormed, Linked, LoopReady, Delivered, Served, SweepList, Size, Holds;
      ghost var tasks := loop.Region();
      AdvanceFine();
      DrainList(mi[miWheel % MAX_MI_WHEEL], l, n);
    }

    /** The turns still to come make the ring into `goal`. */
    ghost predicate FineTo(goal: Wheel)
      reads this, Region()
    {
      Valid() && Built(model) && WheelModel.FineTurns(arch, model) == goal
    }

    function FineLeft(): int
      reads this
    {
      Signed(arch, ticks - miTick - MIN_TIME_OUT)
    }

    lemma FineGoal(goal: Wheel)
      requires FineTo(goal)
      ensures Valid() && Built(model) && (FineLeft() >= 0 <==> FineDue(arch, model))
      ensures if FineLeft() >= 0 then
                && WheelModel.FineTurns(arch, WheelModel.FineTurn(arch, model)) == goal
                && Signed(arch, model.ticks - Size(arch, model.miTick + MIN_TIME_OUT) - MIN_TIME_OUT) < FineLeft()
              else model == goal
    {
      hide Sound, WellFormed, Linked, Holds, WheelModel.FineTurn, Signed, Size;
      if FineLeft() >= 0 { SignedStep(arch, model.ticks, model.miTick, MIN_TIME_OUT); }
    }

    lemma FineFields(s: Wheel)
      requires Valid() && Built(s) && model == WheelModel.FineTurn(arch, s)
      ensures FineLeft() == Signed(arch, s.ticks - Size(arch, s.miTick + MIN_TIME_OUT) - MIN_TIME_OUT)
    {
      hide Sound, WellFormed, Linked, Holds, WheelModel.FineTurn, Signed, Size;
    }

    /** The fine wheel catches up. */
    method RunFineTurns(ghost goal: Wheel, ghost l: LoopModel.LoopState, ghost n: nat)
      requires FineTo(goal) && LoopReady() && InStep(l, n)
      modifies `miTick, `miWheel, `model, Region(), loop, loop.Region()
      ensures Valid() && LoopReady() && InStep(l, n) && Region() == old(Region()) && loop.Region() == old(loop.Region())
      ensures Built(model) && model == goal
    {
      hide FineTo, FineLeft, Valid, LoopReady, InStep, Built, WheelModel.FineTurn, WheelModel.FineTurns;
      FineGoal(goal);
      while FineLeft() >= 0
        invariant FineTo(goal) && LoopReady() && InStep(l, n) && Region() == old(Region()) && loop.Region() == old(loop.Region())
        decreases FineLeft()
      {
        FineGoal(goal);
        FineStep(goal, l, n);
      }
      FineGoal(goal);
    }

    method FineStep(ghost goal: Wheel, ghost l: LoopModel.LoopState, ghost n: nat)
      requires FineTo(goal) && LoopReady() && InStep(l, n) && FineLeft() >= 0
      modifies `miTick, `miWheel, `model, Region(), loop, loop.Region()
      ensures FineTo(goal) && LoopReady() && InStep(l, n) && Region() == old(Region()) && loop.Region() == old(loop.Region())
      ensures FineLeft() < old(FineLeft())
    {
      ghost var s := model;
      hide FineLeft, Valid, LoopReady, InStep, Built, WheelModel.FineTurn, WheelModel.FineTurns;
      FineGoal(goal);
      FineTurn(l, n);
      FineFields(s);
    }

    method AdvanceCoarse()
      requires Valid()
      modifies `maTick, `maWheel, `model
      ensures Valid() && Region() == old(Region()) && model == WheelModel.AdvanceCoarse(arch, old(model))
    {
      hide WellFormed, Linked, Size, Holds;
      AdvancedSound(model, WheelModel.AdvanceCoarse(arch, model));
      maTick := Size(arch, maTick + MIN_MA_TIMER);
      maWheel := Size(arch, maWheel + 1);
      model := WheelModel.AdvanceCoarse(arch, model);
    }

    method CoarseTurn(ghost l: LoopModel.LoopState, ghost n: nat)
      requires Valid() && LoopReady() && InStep(l, n) && Built(model)
      modifies `maTick, `maWheel, `model, Region(), loop, loop.Region()
      ensures Valid() && LoopReady() && InStep(l, n) && Region() == old(Region()) && loop.Region() == old(loop.Region())
      ensures Built(model) && model == WheelModel.CoarseTurn(arch, old(model))
    {
      hide Sound, WellFormed, Linked, LoopReady, Delivered, Served, SweepList, Size, Holds;
      ghost var tasks := loop.Region();
      AdvanceCoarse();
      DrainList(ma[maWheel % MAX_MA_WHEEL], l, n);
    }

    /** The turns still to come make the ring into `goal`. */
    ghost predicate CoarseTo(goal: Wheel)
      reads this, Region()
    {
      Valid() && Built(model) && WheelModel.CoarseTurns(arch, model) == goal
    }

    function CoarseLeft(): int
      reads this
    {
      Signed(arch, ticks - maTick - MIN_MA_TIMER)
    }

    lemma CoarseGoal(goal: Wheel)
      requires CoarseTo(goal)
      ensures Valid() && Built(model) && (CoarseLeft() >= 0 <==> CoarseDue(arch, model))
      ensures if CoarseLeft() >= 0 then
                && WheelModel.CoarseTurns(arch, WheelModel.CoarseTurn(arch, model)) == goal
                && Signed(arch, model.ticks - Size(arch, model.maTick + MIN_MA_TIMER) - MIN_MA_TIMER) < CoarseLeft()
              else model == goal
    {
      hide Sound, WellFormed, Linked, Holds, WheelModel.CoarseTurn, Signed, Size;
      if CoarseLeft() >= 0 { SignedStep(arch, model.ticks, model.maTick, MIN_MA_TIMER); }
    }

    lemma CoarseFields(s: Wheel)
      requires Valid() && Built(s) && model == WheelModel.CoarseTurn(arch, s)
      ensures CoarseLeft() == Signed(arch, s.ticks - Size(arch, s.maTick + MIN_MA_TIMER) - MIN_MA_TIMER)
    {
      hide Sound, WellFormed, Linked, Holds, WheelModel.CoarseTurn, Signed, Size;
    }

    /** The coarse wheel catches up. */
    method RunCoarseTurns(ghost goal: Wheel, ghost l: LoopModel.LoopState, ghost n: nat)
      requires CoarseTo(goal) && LoopReady() && InStep(l, n)
      modifies `maTick, `maWheel, `model, Region(), loop, loop.Region()
      ensures Valid() && LoopReady() && InStep(l, n) && Region() == old(Region()) && loop.Region() == old(loop.Region())
      ensures Built(model) && model == goal
    {
      hide CoarseTo, CoarseLeft, Valid, LoopReady, InStep, Built, WheelModel.CoarseTurn, WheelModel.CoarseTurns;
      CoarseGoal(goal);
      while CoarseLeft() >= 0
        invariant CoarseTo(goal) && LoopReady() && InStep(l, n) && Region() == old(Region()) && loop.Region() == old(loop.Region())
        decreases CoarseLeft()
      {
        CoarseGoal(goal);
        CoarseStep(goal, l, n);
      }
      CoarseGoal(goal);
    }

    method CoarseStep(ghost goal: Wheel, ghost l: LoopModel.LoopState, ghost n: nat)
      requires CoarseTo(goal) && LoopReady() && InStep(l, n) && CoarseLeft() >= 0
      modifies `maTick, `maWheel, `model, Region(), loop, loop.Region()
      ensures CoarseTo(goal) && LoopReady() && InStep(l, n) && Region() == old(Region()) && loop.Region() == old(loop.Region())
      ensures CoarseLeft() < old(CoarseLeft())
    {
      ghost var s := model;
      hide CoarseLeft, Valid, LoopReady, InStep, Built, WheelModel.CoarseTurn, WheelModel.CoarseTurns;
      CoarseGoal(goal);
      CoarseTurn(l, n);
      CoarseFields(s);
    }

    method NoteRescan()
      requires Valid()
      modifies `stTick, `model
      ensures Valid() && Region() == old(Region()) && model == old(model).(stTick := old(model.ticks))
    {
      hide WellFormed, Linked, Holds;
      AdvancedSound(model, model.(stTick := model.ticks));
      stTick, model := ticks, model.(stTick := model.ticks);
    }

    /** The overflow list, when its time has come. */
    method RescanOverflow(ghost l: LoopModel.LoopState, ghost n: nat)
      requires Valid() && LoopReady() && InStep(l, n) && Built(model)
      modifies `stTick, `model, Region(), loop, loop.Region()
      ensures Valid() && LoopReady() && InStep(l, n) && Region() == old(Region()) && loop.Region() == old(loop.Region())
      ensures model == Rescan(arch, old(model))
    {
      hide Sound, WellFormed, Linked, LoopReady, Delivered, Served, SweepList, Signed, Holds;
      ghost var tasks := loop.Region();
      if Signed(arch, ticks - stTick - MIN_ST_TIMER) >= 0 {
        NoteRescan();
        DrainList(st, l, n);
      }
    }

    /** tx_getticks */
    method ReadClock(now: int)
      requires Valid()
      modifies `ticks, `model
      ensures Valid() && Region() == old(Region()) && Built(model) && model == old(model).(ticks := now)
    {
      hide WellFormed, Linked, Holds;
      AdvancedSound(model, model.(ticks := now));
      ticks, model := now, model.(ticks := now);
    }

    method ReadClockOn(now: int, ghost l: LoopModel.LoopState, ghost n: nat)
      requires Valid() && LoopReady() && InStep(l, n) && Built(model)
      modifies `ticks, `model
      ensures Valid() && LoopReady() && InStep(l, n) && Region() == old(Region()) && loop.Region() == old(loop.Region())
      ensures Built(model) && model == old(model).(ticks := now)
    {
      hide Valid, LoopReady, Delivered, Served, Built;
      ghost var tasks, told := loop.Region(), loop.model;
      ReadClock(now);
      assert loop.model == told && loop.Region() == tasks;
    }

    /** The three drains of tx_timer_polling. */
    method Expire(now: int, ghost l: LoopModel.LoopState, ghost n: nat)
      requires Valid() && LoopReady() && InStep(l, n) && Built(model)
      modifies `ticks, `miTick, `miWheel, `maTick, `maWheel, `stTick, `model, Region(), loop, loop.Region()
      ensures Valid() && LoopReady() && InStep(l, n) && Region() == old(Region()) && loop.Region() == old(loop.Region())
      ensures model == WheelModel.Poll(arch, old(model), now)
    {
      hide Valid, LoopReady, InStep, Built, WheelModel.FineTurns, WheelModel.CoarseTurns, Rescan;
      ReadClockOn(now, l, n);
      RunFineTurns(WheelModel.FineTurns(arch, model), l, n);
      RunCoarseTurns(WheelModel.CoarseTurns(arch, model), l, n);
      RescanOverflow(l, n);
    }

    /** The poller sleeps, and reads the clock again, if the loop lets it. */
    method Sleep(later: int)
      requires Valid() && LoopReady() && Built(model)
      modifies `ticks, `model
      ensures Valid() && LoopReady() && Region() == old(Region()) && Built(model)
      ensures model == if LoopModel.Timeout(loop.model, this) != 0 then old(model).(ticks := later) else old(model)
    {
      hide Valid, Loop.TaskLoop.Valid, Built, LoopModel.Timeout, Served;
      ghost var region, tasks := Region(), loop.Region();
      var wait := loop.TimeoutFor(this);
      if wait != 0 {
        ReadClock(later);
      }
    }

    /** The poller joins the run queue again. `dead` tells that a stopped loop did not take it. */
    method Rejoin() returns (dead: bool)
      requires Valid() && LoopReady()
      modifies loop, loop.Region()
      ensures Valid() && LoopReady() && loop.Region() == old(loop.Region())
      ensures Rejoined(old(loop.model), callout, loop.model, dead)
    {
      hide Valid, Loop.TaskLoop.Valid, LoopModel.PollActivate;
      ghost var region := Region();
      loop.PollActive(callout);
      dead := loop.IsIdle(callout);
    }

    /** The end of tx_timer_polling. */
    method Finish(later: int) returns (dead: bool)
      requires Valid() && LoopReady() && Built(model)
      modifies `ticks, `model, loop, loop.Region()
      ensures Valid() && LoopReady() && Region() == old(Region()) && loop.Region() == old(loop.Region())
      ensures model == if LoopModel.Timeout(old(loop.model), this) != 0 then old(model).(ticks := later) else old(model)
      ensures Rejoined(old(loop.model), callout, loop.model, dead)
    {
      hide Valid, LoopReady, Built, LoopModel.Timeout, Rejoined;
      Sleep(later);
      dead := Rejoin();
    }

    /** tx_timer_polling at the clock reading `now`, and `later` after the sleep. In between the loop is
        told of exactly the timers that fire, in the order they fire. */
    method Polling(now: int, later: int) returns (dead: bool, ghost told: LoopModel.LoopState)
      requires Valid() && LoopReady() && Built(model)
      modifies `ticks, `miTick, `miWheel, `maTick, `maWheel, `stTick, `model, Region(), loop, loop.Region()
      ensures Valid() && LoopReady() && Region() == old(Region()) && loop.Region() == old(loop.Region())
      ensures var r := WheelModel.Poll(arch, old(model), now);
              && Tells(old(loop.model), owners, old(model), r, told)
              && (old(loop.model.stop) || TasksQueued(loop.model, owners, r.fired[|old(model.fired)|..]))
              && (old(loop.model.stop || loop.model.tasks[callout].pending) || LoopModel.OnQueue(loop.model, callout))
              && model == if LoopModel.Timeout(told, this) != 0 then r.(ticks := later) else r
      ensures Rejoined(told, callout, loop.model, dead)
    {
      hide Valid, LoopReady, InStep, Tells, Built, WheelModel.Poll, LoopModel.Timeout, Rejoined, Delivered, TasksQueued, LoopModel.OnQueue;
      assert callout in loop.model.tasks by { CalloutKnown(); }
      hide Served;
      ghost var s, l, n := model, loop.model, |model.fired|;
      InStepNow();
      Expire(now, l, n);
      told := loop.model;
      TellsAll(s, l);
      ghost var r := model;
      dead := Finish(later);
      LoopSound();
      if !l.stop { FiredQueued(l, owners, s, r, told, callout, loop.model, dead); }
    }

    lemma CalloutKnown()
      requires LoopReady()
      ensures callout in loop.model.tasks
    {
      hide Loop.TaskLoop.Valid, Served;
    }

    lemma LoopSound()
      requires LoopReady()
      ensures LoopProofs.Inv(loop.model)
    {
      hide Loop.TaskLoop.Valid, LoopProofs.Inv;
      loop.Facts();
    }

    lemma TellsAll(s: Wheel, l: LoopModel.LoopState)
      requires InStep(l, |s.fired|)
      ensures Tells(l, owners, s, model, loop.model)
    {
    }

    // -------------------------------------------------------------- tx_timer_init

    method NewTimer(task: LoopModel.OptTask) returns (t: Timer)
      requires Valid() && LoopReady() && (task != null ==> task in loop.model.tasks)
      modifies `model, `owners
      ensures Valid() && LoopReady() && fresh(t) && Region() == old(Region()) + {t}
      ensures owners == old(owners)[t := task]
      ensures model == old(model).(timers := old(model.timers)[t := TimerFields(true, 0, task)])
    {
      hide Valid, Served, Loop.TaskLoop.Valid;
      ghost var region, tasks := Region(), loop.Region();
      t := new Link(TimerFields(true, 0, task));
      ServedMore(loop.model, owners, t, task);
      Adopt(t, task);
    }

    ghost method Adopt(t: Timer, task: LoopModel.OptTask)
      requires Valid() && t !in Region() && t.payload == TimerFields(true, 0, task)
      modifies `model, `owners
      ensures Valid() && owners == old(owners)[t := task]
      ensures model == old(model).(timers := old(model.timers)[t := TimerFields(true, 0, task)])
    {
      hide WellFormed, Linked, Sound, Holds, Built;
      ghost var links := Footprint(model.fam);
      HoldsMore(model.timers, t);
      NewTimerSound(model, t, task);
      model, owners := model.(timers := model.timers[t := t.payload]), owners[t := task];
    }

    lemma EnlistOwned(s: Wheel, t: Timer, umilsec: int)
      requires Built(s) && t in s.timers && owners.Keys == s.timers.Keys
      requires forall x :: x in owners ==> s.timers[x].task == owners[x]
      requires model == WheelModel.Enlist(arch, s, t, umilsec)
      ensures Owned()
    {
      hide Pushed, Place, Unsigned;
    }

    lemma UnlistOwned(s: Wheel, t: Timer)
      requires Built(s) && t in s.timers && owners.Keys == s.timers.Keys
      requires forall x :: x in owners ==> s.timers[x].task == owners[x]
      requires model == WheelModel.Unlist(s, t)
      ensures Owned()
    {
      hide Unlinked;
    }
  }

  // ---------------------------------------------------------------- a new ring

  ghost function RingHeads(mi: seq<Timer>, ma: seq<Timer>, st: Timer): set<Timer> {
    (set h | h in mi) + (set h | h in ma) + {st}
  }

  ghost function EmptyFamily(mi: seq<Timer>, ma: seq<Timer>, st: Timer): Family<TimerFields> {
    Family(map h | h in RingHeads(mi, ma, st) :: [], map[])
  }

  ghost function EmptyWheel(mi: seq<Timer>, ma: seq<Timer>, st: Timer, now: int): Wheel {
    Wheel(mi, ma, st, EmptyFamily(mi, ma, st), map[], now, now, 0, now, 0, now, [])
  }

  lemma EmptyWheelNew(mi: seq<Timer>, ma: seq<Timer>, st: Timer, now: int)
    requires |mi| == MAX_MI_WHEEL && |ma| == MAX_MA_WHEEL && Distinct(mi + ma + [st])
    ensures var s := EmptyWheel(mi, ma, st, now);
            && NewRing(s, now) && Built(s) && s.fam == EmptyFamily(mi, ma, st) && s.fam.at == map[]
            && s.fam.lists.Keys == RingHeads(mi, ma, st) && s.timers == map[]
            && s.mi == mi && s.ma == ma && s.st == st && s.ticks == s.miTick == s.maTick == s.stTick == now
            && s.miWheel == s.maWheel == 0
  {
    hide Distinct;
  }

  lemma EmptySound(s: Wheel, now: int)
    requires NewRing(s, now) && s.timers == map[]
    ensures Sound(s)
  {
  }

  /** tx_timer_ring_new, for a clock reading `now` */
  method NewTimerRing(arch: Arch, loop: Loop.TaskLoop, now: int) returns (ring: TimerRing)
    requires loop.Valid()
    modifies loop, loop.Region()
    ensures ring.arch == arch && ring.loop == loop && fresh(ring) && fresh(ring.Region()) && fresh(ring.callout)
    ensures ring.Valid() && NewRing(ring.model, now) && ring.model.timers == map[]
    ensures loop.Valid() && ring.callout in loop.model.tasks && loop.Region() == old(loop.Region()) + {ring.callout}
    ensures loop.model == LoopModel.PollActivate(
              old(loop.model).(tasks := old(loop.model.tasks)[ring.callout := LoopModel.FRESH_TASK]), ring.callout)
  {
    hide WellFormed, Linked, NewRing, TimerRing.Valid, Loop.TaskLoop.Valid, LoopModel.PollActivate, Distinct;
    var callout := loop.NewPoller();
    var mi, ma, st := NewHeads();
    EmptyWheelNew(mi, ma, st, now);
    ring := new TimerRing(arch, loop, callout, mi, ma, st, now);
  }

  method NewHeads() returns (mi: seq<Timer>, ma: seq<Timer>, st: Timer)
    ensures |mi| == MAX_MI_WHEEL && |ma| == MAX_MA_WHEEL && Distinct(mi + ma + [st])
    ensures fresh(RingHeads(mi, ma, st))
    ensures var f := EmptyFamily(mi, ma, st); WellFormed(f) && Linked(f, null)
  {
    var all: seq<Timer> := [];
    for i := 0 to MAX_MI_WHEEL + MAX_MA_WHEEL + 1
      invariant |all| == i && Distinct(all)
      invariant forall h :: h in all ==> fresh(h) && allocated(h) && h.next == null
    {
      ghost var seen := set h | h in all;
      var h := new Link(TimerFields(true, 0, null));
      h.next := null;
      assert h !in seen;
      all := all + [h];
    }
    mi, ma, st := all[..MAX_MI_WHEEL], all[MAX_MI_WHEEL..MAX_MI_WHEEL + MAX_MA_WHEEL], all[MAX_MI_WHEEL + MAX_MA_WHEEL];
    assert mi + ma + [st] == all;
    assert forall h :: h in mi || h in ma || h == st ==> h in all;
  }

  // ---------------------------------------------------------------- effects

  lemma HoldsMore(timers: map<Timer, TimerFields>, t: Timer)
    requires Holds(timers)
    ensures Holds(timers[t := t.payload])
  {
  }

  lemma ServedMore(l: LoopModel.LoopState, owners: Owners, t: Timer, task: LoopModel.OptTask)
    requires Served(l, owners) && (task != null ==> task in l.tasks)
    ensures Served(l, owners[t := task])
  {
  }

  lemma NewTimerSound(s: Wheel, t: Timer, task: LoopModel.OptTask)
    requires Sound(s) && t !in s.timers && t !in s.fam.at && t !in s.fam.lists
    ensures var r := s.(timers := s.timers[t := TimerFields(true, 0, task)]); Built(r) && Sound(r)
  {
    hide WellFormed;
  }

  lemma FrontLink(f: Family<TimerFields>, h: Timer)
    requires WellFormed(f) && Linked(f, null) && h in f.lists
    ensures h.next == if f.lists[h] == [] then null else f.lists[h][0]
  {
    assert Chain(h, f.lists[h], false);
  }

  lemma NextLink(f: Family<TimerFields>, h: Timer, front: seq<Timer>, todo: seq<Timer>, cut: OptTimer)
    requires WellFormed(f) && Linked(f, cut) && h in f.lists && f.lists[h] == front + todo && todo != []
    ensures todo[0].next == if |todo| == 1 then null else todo[1]
  {
    assert Chain(h, f.lists[h], h == cut);
    var q := f.lists[h];
    assert q[|front|] == todo[0] && (|todo| > 1 ==> q[|front| + 1] == todo[1]);
  }

  lemma DrainedMember(s: Wheel, h: Timer, front: seq<Timer>, todo: seq<Timer>, cut: OptTimer)
    requires Sound(s) && h in s.fam.lists && s.fam.lists[h] == front + todo && todo != []
    ensures todo[0] in s.timers && !s.timers[todo[0]].idle && todo[0] in s.fam.at && s.fam.at[todo[0]] == h
    ensures front == [] ==> s.fam.lists[h] != [] && s.fam.lists[h][0] == todo[0]
  {
    ListMembers(s, h);
    assert todo[0] in s.fam.lists[h];
  }

  /** LIST_INIT of a head, for all lists at once. */
  method ClearHead(head: Timer, ghost f: Family<TimerFields>)
    requires WellFormed(f) && Linked(f, null) && head in f.lists
    modifies head`next
    ensures Linked(f, head) && head.next == null
  {
    hide WellFormed;
    forall g | g in f.lists && g != head ensures head !in f.lists[g] && g !in f.lists[head] { Apart(f, g, head); }
    head.next := null;
    forall g | g in f.lists ensures Chain(g, f.lists[g], g == head) {
      assert old(Chain(g, f.lists[g], false));
    }
  }

  lemma UnlistList(s: Wheel, h: Timer, front: seq<Timer>, todo: seq<Timer>)
    requires Sound(s) && h in s.fam.lists && s.fam.lists[h] == front + todo && todo != []
    ensures todo[0] in s.timers && Unlist(s, todo[0]).fam.lists[h] == front + todo[1..]
  {
    var q := s.fam.lists[h];
    assert q[|front|] == todo[0];
    ListMembers(s, h);
    MinusAt(q, |front|);
    assert q[..|front|] == front && q[|front| + 1..] == todo[1..];
    hide Minus;
  }

  lemma EnlistList(arch: Arch, s: Wheel, t: Timer, umilsec: int, h: Timer)
    requires Built(s) && t in s.timers && h in s.fam.lists
    ensures var p := Place(arch, s, Unsigned(arch, s.ticks + umilsec));
            Enlist(arch, s, t, umilsec).fam.lists[h] == if p == h then [t] + s.fam.lists[h] else s.fam.lists[h]
  {
    hide Place, Unsigned, Built;
  }

  lemma HandleLists(arch: Arch, s: Wheel, t: Timer, h: Timer) returns (again: bool)
    requires Built(s) && t in s.timers && h in s.fam.lists
    ensures h in Handle(arch, s, t).fam.lists
    ensures Handle(arch, s, t).fam.lists[h] == (if again then [t] else []) + Unlist(s, t).fam.lists[h]
  {
    hide Unlist, Enlist, Fires, Unsigned, Built, Place, SameClock;
    if Fires(arch, s, t) {
      again := false;
    } else {
      var u, left := Unlist(s, t), Unsigned(arch, s.timers[t].interval - s.ticks);
      EnlistList(arch, u, t, left, h);
      again := Place(arch, u, Unsigned(arch, u.ticks + left)) == h;
    }
  }

  /** What one step of a drain loop leaves of the list it visits. */
  lemma HandleList(arch: Arch, s: Wheel, h: Timer, front: seq<Timer>, todo: seq<Timer>) returns (behind: seq<Timer>)
    requires Sound(s) && h in s.fam.lists && s.fam.lists[h] == front + todo && todo != []
    ensures todo[0] in s.timers && Built(s)
    ensures var r := Handle(arch, s, todo[0]);
            h in r.fam.lists && r.fam.lists[h] == behind + todo[1..]
  {
    assert Built(s);
    hide Sound, Built, Handle, Unlist, SameClock;
    UnlistList(s, h, front, todo);
    var again := HandleLists(arch, s, todo[0], h);
    behind := (if again then [todo[0]] else []) + front;
  }

  lemma StillServed(l: LoopModel.LoopState, owners: Owners, t: Timer)
    requires Served(l, owners) && t in owners
    ensures owners[t] != null ==> owners[t] in l.tasks
    ensures var r := LoopModel.Activated(l, owners[t], t); Served(r, owners) && r.tasks.Keys == l.tasks.Keys
  {
    hide LoopModel.ActivateTask;
  }

  lemma DeliveredOneMore(l: LoopModel.LoopState, owners: Owners, fired: seq<Timer>, n: nat, t: Timer)
    requires Served(l, owners) && n <= |fired| && t in owners && forall x :: x in fired[n..] ==> x in owners
    ensures forall x :: x in (fired + [t])[n..] ==> x in owners
    ensures Delivered(l, owners, (fired + [t])[n..]) == LoopModel.Activated(Delivered(l, owners, fired[n..]), owners[t], t)
  {
    var log := (fired + [t])[n..];
    assert log == fired[n..] + [t];
    assert log[..|log| - 1] == fired[n..];
  }

  lemma UnlistEffect(s: Wheel, t: Timer)
    requires Built(s) && t in s.timers
    ensures var r := Unlist(s, t);
            && r.fam == Unlinked(s.fam, t) && r.fam.at.Keys <= s.fam.at.Keys
            && r.timers == s.timers[t := s.timers[t].(idle := true)]
  {
    hide Minus;
  }

  lemma EnlistEffect(arch: Arch, s: Wheel, t: Timer, umilsec: int)
    requires Built(s) && t in s.timers
    ensures var r, d := Enlist(arch, s, t, umilsec), Unsigned(arch, s.ticks + umilsec);
            && r.fam == Pushed(s.fam, Place(arch, s, d), t) && r.fam.at.Keys <= s.fam.at.Keys + {t}
            && r.timers == s.timers[t := s.timers[t].(idle := false, interval := d)]
  {
    hide Place, Unsigned;
  }

  lemma IdleUnlinked(s: Wheel, t: Timer)
    requires Sound(s) && t in s.timers && s.timers[t].idle
    ensures t !in s.fam.at && t !in s.fam.lists
  {
    hide WellFormed;
  }

  lemma ArmedLinked(s: Wheel, t: Timer)
    requires Sound(s) && t in s.timers && !s.timers[t].idle
    ensures t in s.fam.at && t !in s.fam.lists
  {
    hide WellFormed;
  }
}
