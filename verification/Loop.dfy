/** tx_loop_t on the heap: the functions of tx_loop.cpp and tx_poll.cpp over real intrusive lists,
    each proved to take the step the model says. */
module Loop {
  import opened IntrusiveList
  import opened LoopModel
  import opened LoopProofs
  import opened RoundProofs
  import opened LoopTheorems

  /** The flags kept in the tasks are the recorded ones. */
  ghost predicate Matches(tasks: map<Task, TaskFields>)
    reads tasks.Keys`payload
  {
    forall t :: t in tasks ==> t.payload == tasks[t]
  }

  /** The writes of tx_task_drop. */
  method Unhook(task: Task, ghost f: Family<TaskFields>, ghost tasks: map<Task, TaskFields>)
    requires WellFormed(f) && Linked(f, null) && Matches(tasks) && task in f.at && task in tasks
    modifies Footprint(f)`next, Footprint(f)`prev, task`payload
    ensures WellFormed(Unlinked(f, task)) && Linked(Unlinked(f, task), null)
    ensures Matches(tasks[task := tasks[task].(pending := false, busy := false, idle := true)])
  {
    hide WellFormed, Linked, Unlinked;
    task.payload := task.payload.(pending := false);
    task.payload := task.payload.(busy := false);
    ListRemove(task, f, null);
    task.payload := task.payload.(idle := true);
  }

  /** The list and flag writes of tx_task_active. */
  method Hook(tailer: Task, task: Task, reason: object?, ghost f: Family<TaskFields>, ghost q: Task,
              ghost tasks: map<Task, TaskFields>)
    requires WellFormed(f) && Linked(f, null) && Matches(tasks)
    requires task in tasks && task !in f.at && task !in f.lists
    requires q in f.lists && f.lists[q] != [] && f.lists[q][|f.lists[q]| - 1] == tailer
    modifies Footprint(f)`next, Footprint(f)`prev, task`next, task`prev, task`payload
    ensures WellFormed(Appended(f, q, task)) && Linked(Appended(f, q, task), null)
    ensures Matches(tasks[task := tasks[task].(idle := false, busy := true, reason := reason)])
  {
    hide WellFormed, Linked, Appended;
    ListInsertBefore(tailer, task, f, q);
    task.payload := task.payload.(idle := false);
    task.payload := task.payload.(busy := true);
    task.payload := task.payload.(reason := reason);
  }

  /** The list and flag writes of tx_poll_active. */
  method HookIdle(tailer: Task, task: Task, ghost f: Family<TaskFields>, ghost q: Task, ghost tasks: map<Task, TaskFields>)
    requires WellFormed(f) && Linked(f, null) && Matches(tasks)
    requires task in tasks && task !in f.at && task !in f.lists
    requires q in f.lists && f.lists[q] != [] && f.lists[q][|f.lists[q]| - 1] == tailer
    modifies Footprint(f)`next, Footprint(f)`prev, task`next, task`prev, task`payload
    ensures WellFormed(Appended(f, q, task)) && Linked(Appended(f, q, task), null)
    ensures Matches(tasks[task := tasks[task].(idle := false)])
  {
    hide WellFormed, Linked, Appended;
    ListInsertBefore(tailer, task, f, q);
    task.payload := task.payload.(idle := false);
  }

  /** The list and flag writes of tx_task_record. */
  method HookWaiting(waitq: Task, task: Task, ghost f: Family<TaskFields>, ghost tasks: map<Task, TaskFields>)
    requires WellFormed(f) && Linked(f, null) && Matches(tasks) && waitq in f.lists
    requires task in tasks && task !in f.at && task !in f.lists
    modifies Footprint(f)`next, Footprint(f)`prev, task`next, task`prev, task`payload
    ensures WellFormed(Pushed(f, waitq, task)) && Linked(Pushed(f, waitq, task), null)
    ensures Matches(tasks[task := tasks[task].(pending := true, idle := false)])
  {
    hide WellFormed, Linked, Pushed;
    ListInsertHead(waitq, task, f);
    task.payload := task.payload.(pending := true);
    task.payload := task.payload.(idle := false);
  }

  /** A write to the flags of a task. */
  method WriteFlags(task: Task, f: TaskFields, ghost fam: Family<TaskFields>, ghost tasks: map<Task, TaskFields>)
    requires WellFormed(fam) && Linked(fam, null) && Matches(tasks) && task in tasks
    modifies task`payload
    ensures Linked(fam, null) && Matches(tasks[task := f])
  {
    hide WellFormed, Linked;
    ghost var links := Footprint(fam);
    task.payload := f;
  }

  /** LIST_INIT and LIST_INSERT_HEAD of the tailer. */
  method TailedList() returns (q: Task, t: Task)
    ensures fresh(q) && fresh(t) && q != t
    ensures var f := Family(map[q := [t]], map[t := q]); WellFormed(f) && Linked(f, null)
  {
    q := new Link(FRESH_TASK);
    t := new Link(FRESH_TASK);
    q.next := null;
    InsertHead(q, t, []);
    assert [t] + [] == [t];
  }

  ghost function RegionOf(s: LoopState, tailer: Task): set<Task> {
    s.fam.lists.Keys + s.tasks.Keys + {tailer} + (if s.phony == null then {} else {s.phony})
  }

  class TaskLoop {
    const taskq: Task
    const tailer: Task
    var busy: nat
    var stop: bool
    var brk: bool
    var actives: int
    var upcount: int
    var holder: object?
    var current: OptTask
    ghost var model: LoopState

    /** The links the loop works on: heads, tasks, the tailer and the phony node. */
    ghost function Region(): set<Task>
      reads this
    {
      RegionOf(model, tailer)
    }

    ghost predicate Fields()
      reads this
    {
      FieldsOf(model)
    }

    ghost predicate FieldsOf(s: LoopState)
      reads `busy, `stop, `brk, `actives, `upcount, `holder, `current
    {
      && s.busy == busy && s.stop == stop && s.brk == brk
      && s.actives == actives && s.upcount == upcount
      && s.holder == holder && s.current == current
    }

    /** The heap is what s says. */
    ghost predicate Holds(s: LoopState)
      reads `busy, `stop, `brk, `actives, `upcount, `holder, `current
      reads s.tasks.Keys`payload, Footprint(s.fam)`next, Footprint(s.fam)`prev
    {
      && s.taskq == taskq && s.tailer == tailer && FieldsOf(s) && Matches(s.tasks)
      && taskq in s.fam.lists && s.fam.at.Keys <= RegionOf(s, tailer) && WellFormed(s.fam) && Linked(s.fam, null)
    }

    /** The model follows the heap. */
    ghost method SetModel(s: LoopState)
      requires Holds(s)
      modifies `model
      ensures Coherent() && model == s && Region() == RegionOf(s, tailer)
    {
      hide WellFormed, Linked, Matches;
      ghost var links, tasks := Footprint(s.fam), s.tasks.Keys;
      model := s;
    }

    /** The heap is what the model says. */
    ghost predicate Coherent()
      reads this, Region()
    {
      && model.taskq == taskq && model.tailer == tailer && Fields() && Matches(model.tasks)
      && taskq in model.fam.lists && model.fam.at.Keys <= Region() && WellFormed(model.fam) && Linked(model.fam, null)
    }

    ghost predicate Valid()
      reads this, Region()
    {
      Coherent() && Inv(model)
    }

    /** tx_loop_new */
    constructor ()
      ensures Valid() && fresh(Region()) && Initial(model)
      ensures model.tasks == map[] && model.fam.lists.Keys == {taskq}
    {
      hide WellFormed, Linked, Initial, Inv;
      var q, t := TailedList();
      taskq, tailer := q, t;
      busy, stop, brk, actives, upcount, holder, current := 0, false, false, 0, 0, null, null;
      model := LoopState(q, t, null, false, Family(map[q := [t]], map[t := q]), map[], 0, 0, false, false, 0,
                         null, null, multiset{}, [], multiset{});
      new;
      InitialSingle(model);
    }

    // -------------------------------------------------------------- tx_task_drop

    method DropLinked(task: Task)
      requires Coherent() && task in model.tasks && task in model.fam.at && !model.tasks[task].idle
      modifies this, Region()
      ensures Coherent() && model == DropTask(old(model), task) && Region() == old(Region())
    {
      hide WellFormed, Linked, DropTask, Unlinked, Matches, Kept;
      ghost var s := model;
      ghost var r := DropTask(s, task);
      Unhook(task, s.fam, s.tasks);
      DropEffect(s, task);
      SetModel(r);
    }

    method Drop(task: OptTask)
      requires Valid() && (task != null ==> task in model.tasks)
      modifies this, Region()
      ensures Valid() && Region() == old(Region())
      ensures model == (if task == null then old(model) else DropTask(old(model), task))
    {
      hide Inv, WellFormed, Linked;
      if task != null {
        assert task.payload == model.tasks[task];
        InvParts(model);
        DropKeeps(model, task);
        if !task.payload.idle {
          LinkedTask(model, task);
          hide DropTask, Matches;
          DropLinked(task);
        }
      }
    }

    // -------------------------------------------------------------- tx_task_active, tx_poll_active

    /** The counters of tx_task_active. */
    method Count(task: Task, ghost f: TaskFields)
      requires Fields() && model.taskq in model.fam.lists && task in model.tasks && f.busy
      modifies `actives, `busy
      ensures FieldsOf(Join(model, task, f))
    {
      hide Join, Noted, Kept;
      JoinCounters(model, task, f);
      actives, busy := actives + 1, Noted(busy);
    }

    method JoinBusyTask(task: Task, reason: object?)
      requires Coherent() && task in model.tasks && task !in model.fam.at && task !in model.fam.lists
      requires Queue(model) != [] && Queue(model)[|Queue(model)| - 1] == tailer
      modifies this, Region()
      ensures Coherent() && Region() == old(Region())
      ensures model == Join(old(model), task, old(model.tasks[task]).(idle := false, busy := true, reason := reason))
    {
      hide WellFormed, Linked, Appended, Kept, Matches, Join, Noted, FieldsOf, Holds;
      ghost var s := model;
      ghost var f := s.tasks[task].(idle := false, busy := true, reason := reason);
      Hook(tailer, task, reason, s.fam, taskq, s.tasks);
      ghost var links, tasks := Footprint(Appended(s.fam, taskq, task)), s.tasks.Keys;
      Count(task, f);
      JoinHolds(s, task, f);
      SetModel(Join(s, task, f));
      JoinLinks(s, task, f);
    }

    lemma JoinHolds(s: LoopState, t: Task, f: TaskFields)
      requires s.taskq == taskq && s.tailer == tailer && taskq in s.fam.lists && t in s.tasks && s.fam.at.Keys <= RegionOf(s, tailer)
      requires FieldsOf(Join(s, t, f)) && Matches(s.tasks[t := f])
      requires WellFormed(Appended(s.fam, taskq, t)) && Linked(Appended(s.fam, taskq, t), null)
      ensures Holds(Join(s, t, f))
    {
      hide WellFormed, Linked, Appended, Matches, Join, FieldsOf;
      JoinLinks(s, t, f);
      JoinFrame(s, t, f);
    }

    /** The body of tx_task_active, for a task that tx_task_drop can settle. */
    method ActivateNow(task: Task, reason: object?)
      requires Coherent() && task in model.tasks
      requires !model.stop && !model.tasks[task].busy ==> Droppable(model, task)
      modifies this, Region()
      ensures Coherent() && Region() == old(Region()) && model == ActivateTask(old(model), task, reason)
    {
      hide WellFormed, Linked, Kept, DropTask, Join;
      assert task.payload == model.tasks[task];
      if !stop && !task.payload.busy {
        hide Matches;
        if !task.payload.idle {
          DropLinked(task);
        } else {
          DropIdle(model, task);
        }
        JoinBusyTask(task, reason);
      }
    }

    method Active(task: OptTask, reason: object?)
      requires Valid() && (task != null ==> task in model.tasks)
      modifies this, Region()
      ensures Valid() && Region() == old(Region())
      ensures model == (if task == null then old(model) else ActivateTask(old(model), task, reason))
    {
      hide Inv, WellFormed, Linked, ActivateTask, Droppable;
      if task == null {
        return;
      }
      Settled(model, task);
      ActivateKeeps(model, task, reason);
      ActivateNow(task, reason);
    }

    method PollActive(task: Task)
      requires Valid() && task in model.tasks
      modifies this, Region()
      ensures Valid() && Region() == old(Region()) && model == PollActivate(old(model), task)
    {
      hide Inv, WellFormed, Linked, Kept;
      assert task.payload == model.tasks[task];
      PollActivateKeeps(model, task);
      if !stop && task.payload.idle {
        IdleTask(model, task);
        QueueTail(model);
        hide Join, Matches;
        JoinPollTask(task);
      }
    }

    method JoinPollTask(task: Task)
      requires Coherent() && task in model.tasks && task !in model.fam.at && task !in model.fam.lists
      requires Queue(model) != [] && Queue(model)[|Queue(model)| - 1] == tailer && !model.tasks[task].busy
      modifies this, Region()
      ensures Coherent() && Region() == old(Region())
      ensures model == Join(old(model), task, old(model.tasks[task]).(idle := false))
    {
      hide WellFormed, Linked, Appended, Kept, Matches, Join;
      ghost var s := model;
      ghost var f := s.tasks[task].(idle := false);
      HookIdle(tailer, task, s.fam, taskq, s.tasks);
      JoinLinks(s, task, f);
      JoinCounters(s, task, f);
      SetModel(Join(s, task, f));
    }

    // -------------------------------------------------------------- tx_task_record, tx_task_wakeup

    method JoinWaiting(waitq: Task, task: Task)
      requires Coherent() && task in model.tasks && task !in model.fam.at && task !in model.fam.lists
      requires waitq in model.fam.lists
      modifies this, Region()
      ensures Coherent() && Region() == old(Region()) && model == PutWaiting(old(model), waitq, task)
    {
      hide WellFormed, Linked, Pushed, Kept, Matches, PutWaiting;
      ghost var s := model;
      HookWaiting(waitq, task, s.fam, s.tasks);
      WaitEffect(s, waitq, task);
      SetModel(PutWaiting(s, waitq, task));
    }

    method Record(waitq: Task, task: Task)
      requires Valid() && waitq in model.fam.lists && waitq != taskq && task in model.tasks
      modifies this, Region()
      ensures Valid() && Region() == old(Region()) && model == RecordTask(old(model), waitq, task)
    {
      hide Inv, WellFormed, Linked, DropTask, PutWaiting, Matches;
      RecordKeeps(model, waitq, task);
      Settled(model, task);
      Drop(task);
      JoinWaiting(waitq, task);
    }

    lemma Home()
      requires Coherent()
      ensures model.taskq == taskq && taskq in model.fam.lists
    {
    }

    lemma Reads(task: Task)
      requires Coherent() && task in model.tasks
      ensures task.payload == model.tasks[task] && task in Region()
    {
    }

    /** A write to the flags of one task. */
    method SetPayload(task: Task, f: TaskFields)
      requires Coherent() && task in model.tasks
      modifies task`payload, `model
      ensures Coherent() && Region() == old(Region()) && model == old(model).(tasks := old(model.tasks)[task := f])
    {
      hide WellFormed, Linked, Matches;
      ghost var s := model;
      WriteFlags(task, f, s.fam, s.tasks);
      SetModel(s.(tasks := s.tasks[task := f]));
    }

    method ClearPending(task: Task)
      requires Coherent() && task in model.tasks
      modifies task`payload, `model
      ensures Coherent() && Region() == old(Region()) && model == NotPending(old(model), task)
    {
      hide Coherent, Region;
      Reads(task);
      SetPayload(task, task.payload.(pending := false));
    }

    /** What is left of tx_task_wakeup makes the loop into `goal`. On a stopped loop the waiters stay
        where they are; otherwise the visited ones have left the queue. */
    ghost predicate Waking(waitq: Task, todo: seq<Task>, reason: object?, goal: LoopState)
      reads this, Region()
    {
      && Coherent() && waitq in model.fam.lists && waitq != taskq && Wakeable(model, waitq, todo)
      && WakeAll(model, todo, reason) == goal
    }

    /** The loop body of tx_task_wakeup. */
    method WakeNext(waitq: Task, cur: Task, ghost todo: seq<Task>, reason: object?, ghost goal: LoopState)
        returns (next: OptTask)
      requires Waking(waitq, todo, reason, goal) && todo != [] && cur == todo[0]
      modifies this, Region()
      ensures Waking(waitq, todo[1..], reason, goal) && Region() == old(Region())
      ensures next == if |todo| == 1 then null else todo[1]
    {
      hide WellFormed, Linked, Matches, Kept, Fields, ActivateTask, WakeAll, Wakeable, Droppable, NotPending;
      WakeableTail(model, waitq, todo);
      NextOf(model.fam, waitq, todo);
      WakeableNext(model, waitq, todo, reason);
      next := cur.next;
      ClearPending(cur);
      ActivateNow(cur, reason);
    }

    /** LIST_INIT(taskq) */
    method InitQueue(waitq: Task)
      requires Coherent() && waitq in model.fam.lists && waitq != taskq
      modifies this, waitq`next
      ensures Coherent() && Region() == old(Region()) && model == old(model).(fam := Cleared(old(model.fam), waitq))
    {
      hide WellFormed, Linked, Matches, Cleared;
      ghost var s, tasks := model, model.tasks.Keys;
      ClearedKeys(s.fam, waitq);
      ListInit(waitq, s.fam);
      SetModel(s.(fam := Cleared(s.fam, waitq)));
    }

    /** On a stopped loop with waiters the flags and lists disagree afterwards; see WakeupAgreesIff. */
    method Wakeup(waitq: Task, reason: object?)
      requires Valid() && waitq in model.fam.lists && waitq != taskq
      requires forall t :: t in model.fam.lists[waitq] ==> t in model.tasks
      modifies this, Region()
      ensures Coherent() && Region() == old(Region())
      ensures model == WakeQueue(old(model), waitq, reason)
      ensures old(model.stop && model.fam.lists[waitq] != []) || Valid()
    {
      hide Inv, WellFormed, Linked, Matches, WakeAll, Fields, Kept, Cleared, Coherent, Wakeable;
      ghost var s, todo := model, model.fam.lists[waitq];
      Home();
      ghost var goal := WakeAll(s, todo, reason);
      WakeableAll(s, waitq);
      var cur := Front(waitq);
      while cur != null
        invariant Waking(waitq, todo, reason, goal) && Region() == old(Region())
        invariant cur == if todo == [] then null else todo[0]
        decreases |todo|
      {
        cur := WakeNext(waitq, cur, todo, reason, goal);
        todo := todo[1..];
      }
      Home();
      WakeAllNone(model, reason);
      InitQueue(waitq);
      WokenKeeps(s, waitq, reason);
    }

    /** The first element of a list. */
    method Front(head: Task) returns (t: OptTask)
      requires Coherent() && head in model.fam.lists
      ensures t == if model.fam.lists[head] == [] then null else model.fam.lists[head][0]
    {
      FrontOf(model.fam, head);
      t := head.next;
    }

    // -------------------------------------------------------------- requests

    method Mark(task: Task)
      requires Valid() && task in model.tasks
      modifies this, Region()
      ensures Valid() && Region() == old(Region())
      ensures model == old(model).(tasks := old(model.tasks)[task := old(model.tasks[task]).(mark := true)])
    {
      hide Inv, Coherent, Region;
      Reads(task);
      MarkKeeps(model, task);
      SetPayload(task, task.payload.(mark := true));
    }

    method Stop()
      requires Valid()
      modifies this
      ensures Valid() && model == old(model).(stop := true)
    {
      hide Inv, WellFormed, Linked, Matches;
      RequestKeeps(model, true, model.brk, model.holder);
      stop, model := true, model.(stop := true);
    }

    method Break()
      requires Valid()
      modifies this
      ensures Valid() && model == old(model).(brk := true)
    {
      hide Inv, WellFormed, Linked, Matches;
      RequestKeeps(model, model.stop, true, model.holder);
      brk, model := true, model.(brk := true);
    }

    /** A poller claims or gives up the right to block. */
    method SetHolder(h: object?)
      requires Valid()
      modifies this
      ensures Valid() && model == old(model).(holder := h)
    {
      hide Inv, WellFormed, Linked, Matches;
      RequestKeeps(model, model.stop, model.brk, h);
      holder, model := h, model.(holder := h);
    }

    /** tx_loop_timeout */
    method TimeoutFor(verify: object?) returns (t: int)
      requires Valid()
      ensures t == Timeout(model, verify)
      ensures BusyTasks(model) != {} ==> t == 0
    {
      if BusyTasks(model) != {} {
        BusyMeansNow(model, verify);
      }
      hide Inv;
      if busy % 4 != 0 && actives > 0 {
        return 0;
      }
      if brk {
        return 0;
      }
      if holder == null {
        return 10000;
      }
      if holder == verify {
        return 10000;
      }
      return 0;
    }

    lemma Facts()
      requires Valid()
      ensures Inv(model) && holder == model.holder && model.taskq in model.fam.lists
    {
      hide Inv, WellFormed, Linked, Matches;
    }

    method IsIdle(task: Task) returns (idle: bool)
      requires Valid() && task in model.tasks
      ensures idle == model.tasks[task].idle
    {
      hide Inv, WellFormed, Linked;
      idle := task.payload.idle;
    }

    // -------------------------------------------------------------- callbacks

    method Perform(op: Op)
      requires Valid() && taskq in model.fam.lists && Legal(model, op)
      modifies this, Region()
      ensures Valid() && Region() == old(Region()) && model.taskq == taskq && taskq in model.fam.lists
      ensures model == Step(old(model), op)
    {
      hide Inv, WellFormed, Linked, Matches, DropTask, ActivateTask, WakeQueue, RecordTask, PollActivate;
      match op
      case Active(t, reason) => Active(t, reason);
      case Drop(t) => Drop(t);
      case Record(w, t) => Record(w, t);
      case Wakeup(w, reason) => Wakeup(w, reason);
      case PollActive(t) => PollActive(t);
      case Mark(t) => Mark(t);
      case Stop => Stop();
      case Break => Break();
      case Hold(h) => SetHolder(h);
    }

    method PerformAll(ops: seq<Op>)
      requires Valid() && taskq in model.fam.lists && LegalAll(model, ops)
      modifies this, Region()
      ensures Valid() && Region() == old(Region()) && model == StepAll(old(model), ops)
    {
      assert model.taskq == taskq && ops[0..] == ops;
      hide Valid, Step;
      ghost var s := model;
      for i := 0 to |ops|
        invariant Valid() && Region() == old(Region()) && model.taskq == taskq && taskq in model.fam.lists
        invariant LegalAll(model, ops[i..]) && StepAll(s, ops) == StepAll(model, ops[i..])
      {
        assert ops[i..][0] == ops[i] && ops[i..][1..] == ops[i + 1..];
        Perform(ops[i]);
      }
    }

    // -------------------------------------------------------------- tx_loop_main

    method InsertPhony(phony: Task)
      requires Valid() && model.phony == null && phony !in model.fam.at && phony !in model.fam.lists && phony !in model.tasks
      modifies this, Region(), phony
      ensures Valid() && model == Enter(old(model), phony) && Region() == old(Region()) + {phony}
    {
      hide Inv, WellFormed, Linked, Matches, Appended, Kept, Enter;
      ghost var s := model;
      EnterKeeps(s, phony);
      QueueTail(s);
      ghost var tasks := s.tasks.Keys;
      ListInsertBefore(tailer, phony, s.fam, taskq);
      EnterEffect(s, phony);
      SetModel(Enter(s, phony));
    }

    method RemovePhony(phony: Task)
      requires Valid() && model.phony == phony
      modifies this, Region()
      ensures Valid() && model == Leave(old(model)) && Region() <= old(Region())
    {
      hide Inv, WellFormed, Linked, Matches, Unlinked, Kept, Leave;
      ghost var s := model;
      LeaveKeeps(s);
      PhonyLinked(s);
      ghost var tasks := s.tasks.Keys;
      ListRemove(phony, s.fam, null);
      LeaveEffect(s);
      SetModel(Leave(s));
    }

    /** The counters at the end of a round. */
    method NoteRound()
      requires Fields() && model.phony != null && model.taskq in model.fam.lists
      modifies `actives, `busy, `upcount
      ensures FieldsOf(EndRound(model))
    {
      hide EndRound;
      RoundCounters(model);
      if busy % 2 != 0 {
      } else {
        actives := 0;
      }
      busy := 2 * busy % 0x1_0000_0000;
      upcount := upcount + 1;
    }

    method FinishRound(phony: Task)
      requires Valid() && model.phony == phony && taskq in model.fam.lists && Queue(model)[0] == phony
      modifies this, Region()
      ensures Valid() && model == EndRound(old(model)) && Region() == old(Region())
    {
      hide Inv, WellFormed, Linked, Matches, Unlinked, Appended, Kept, EndRound, FieldsOf, ThisRound, Holds;
      ghost var s, tasks := model, model.tasks.Keys;
      EndRoundKeeps(s);
      PhonyLinked(s);
      Requeue(tailer, phony, s.fam, taskq);
      ghost var links := Footprint(Appended(Unlinked(s.fam, phony), taskq, phony));
      NoteRound();
      RoundHolds(s);
      SetModel(EndRound(s));
      EndRoundEffect(s);
    }

    lemma RoundHolds(s: LoopState)
      requires s.taskq == taskq && s.tailer == tailer && taskq in s.fam.lists && s.phony != null && s.fam.at.Keys <= RegionOf(s, tailer)
      requires FieldsOf(EndRound(s)) && Matches(s.tasks)
      requires var f := Appended(Unlinked(s.fam, s.phony), taskq, s.phony); WellFormed(f) && Linked(f, null)
      ensures Holds(EndRound(s))
    {
      hide WellFormed, Linked, Unlinked, Appended, Matches, EndRound, FieldsOf;
      EndRoundEffect(s);
      RoundFrame(s);
    }

    /** The counters when a task is taken from the queue. */
    method NotePop(task: Task, wasBusy: bool)
      requires Fields() && model.taskq in model.fam.lists && task in model.tasks && wasBusy == model.tasks[task].busy
      modifies `actives, `current
      ensures FieldsOf(Pop(model, task))
    {
      hide Unlinked;
      if wasBusy {
        actives := actives - 1;
      }
      current := task;
    }

    method TakeTask(task: Task)
      requires Coherent() && task in model.tasks && OnQueue(model, task)
      modifies this, Region()
      ensures Coherent() && model == Pop(old(model), task) && Region() == old(Region())
    {
      hide WellFormed, Linked, Matches, Unlinked, Kept, Pop, FieldsOf, Holds;
      ghost var s := model;
      var wasBusy := Unqueue(task, s.fam, s.tasks);
      ghost var links, tasks := Footprint(Unlinked(s.fam, task)), s.tasks.Keys;
      NotePop(task, wasBusy);
      PopHolds(s, task);
      SetModel(Pop(s, task));
      PopEffect(s, task);
    }

    lemma PopHolds(s: LoopState, t: Task)
      requires s.taskq == taskq && s.tailer == tailer && taskq in s.fam.lists && t in s.tasks && s.fam.at.Keys <= RegionOf(s, tailer)
      requires FieldsOf(Pop(s, t)) && Matches(s.tasks[t := s.tasks[t].(busy := false, idle := true, mark := false)])
      requires WellFormed(Unlinked(s.fam, t)) && Linked(Unlinked(s.fam, t), null)
      ensures Holds(Pop(s, t))
    {
      hide WellFormed, Linked, Unlinked, Matches, Pop, FieldsOf;
      PopEffect(s, t);
      PopHome(s, t);
    }

    /** A task is at the front: it leaves the queue and its callback runs. */
    method RunFront(task: Task, ops: seq<Op>)
      requires Valid() && taskq in model.fam.lists && task in model.tasks && OnQueue(model, task)
      requires LegalAll(Pop(model, task), ops)
      modifies this, Region()
      ensures Valid() && Region() == old(Region()) && model == StepAll(Pop(old(model), task), ops)
    {
      hide Inv, WellFormed, Linked, Matches, Pop, StepAll, LegalAll, Fields;
      PopKeeps(model, task);
      PopFrame(model, task);
      TakeTask(task);
      PerformAll(ops);
    }

    /** The phony node is at the front: the round ends, and with it perhaps the loop. */
    method MeetPhony(phony: Task) returns (left: bool)
      requires Valid() && model.phony == phony && taskq in model.fam.lists && Queue(model)[0] == phony
      modifies this, Region()
      ensures Valid() && Region() <= old(Region())
      ensures left == EndRound(old(model)).brk
      ensures model == if left then Leave(EndRound(old(model)).(brk := false)) else EndRound(old(model))
    {
      hide Inv, WellFormed, Linked, Matches, EndRound, Leave;
      EndRoundPhony(model);
      FinishRound(phony);
      left := brk;
      if left {
        ClearBreak();
        RemovePhony(phony);
      }
    }

    method ClearBreak()
      requires Valid()
      modifies this
      ensures Valid() && Region() == old(Region()) && model == old(model).(brk := false)
    {
      hide Inv, WellFormed, Linked, Matches;
      RequestKeeps(model, model.stop, false, model.holder);
      brk, model := false, model.(brk := false);
    }

    /** One test of the loop condition of tx_loop_main and one iteration; ops is what the callback does. */
    method Iterate(phony: Task, firstRun: bool, ops: seq<Op>) returns (first: bool, left: bool)
      requires Valid() && model.phony == phony && firstRun == model.first
      requires InMain(model) && LegalTurn(model, ops)
      modifies this, Region()
      ensures Valid() && Region() <= old(Region()) && model == Turn(old(model), ops)
      ensures if left then model.phony == null else model.phony == phony && first == model.first
    {
      NeverTailer(model);
      FrontOf(model.fam, taskq);
      EndRoundPhony(model);
      LeavesLoop(model);
      hide Inv, WellFormed, Linked, Matches, EndRound, Leave, Pop, StepAll, LegalAll, OnQueue;
      if stop && !firstRun {
        RemovePhony(phony);
        return firstRun, true;
      }
      var task := taskq.next;
      if task == phony {
        left := MeetPhony(phony);
        first := false;
      } else {
        PopFrame(model, task);
        RunFront(task, ops);
        first, left := firstRun, false;
      }
    }

    /** tx_loop_main, observed for as many iterations as there are callbacks in turns. */
    method RunMain(phony: Task, turns: seq<seq<Op>>)
      requires Valid() && taskq in model.fam.lists && Enabled(model, Event.Main(phony))
      requires LegalMain(Enter(model, phony), turns)
      modifies this, Region(), phony
      ensures Valid() && Region() <= old(Region()) + {phony}
      ensures model == MainFrom(Enter(old(model), phony), turns)
    {
      hide Inv, WellFormed, Linked, Matches, Enter, Turn, LegalTurn;
      EnterEntered(model, phony);
      InsertPhony(phony);
      ghost var s := model;
      var first, left := true, false;
      var i := 0;
      assert turns[0..] == turns;
      while i < |turns| && !left
        invariant 0 <= i <= |turns| && Valid() && Region() <= old(Region()) + {phony}
        invariant if left then model.phony == null else model.phony == phony && first == model.first
        invariant LegalMain(model, turns[i..]) && MainFrom(s, turns) == MainFrom(model, turns[i..])
        decreases |turns| - i
      {
        assert turns[i..][0] == turns[i] && turns[i..][1..] == turns[i + 1..];
        first, left := Iterate(phony, first, turns[i]);
        i := i + 1;
      }
    }

    // -------------------------------------------------------------- tx_task_init, tx_taskq_init

    method NewTask() returns (task: Task)
      requires Valid()
      modifies this
      ensures Valid() && fresh(task) && Region() == old(Region()) + {task}
      ensures model == old(model).(tasks := old(model.tasks)[task := FRESH_TASK])
    {
      hide Inv, WellFormed, Linked, Matches;
      ghost var s, links, tasks := model, Footprint(model.fam), model.tasks.Keys;
      task := new Link(FRESH_TASK);
      NewTaskKeeps(s, task);
      NewMatches(s.tasks, task);
      SetModel(s.(tasks := s.tasks[task := FRESH_TASK]));
    }

    /** tx_poll_init and tx_poll_active */
    method NewPoller() returns (poller: Task)
      requires Valid()
      modifies this, Region()
      ensures Valid() && fresh(poller) && poller in model.tasks && Region() == old(Region()) + {poller}
      ensures model.holder == old(model.holder)
      ensures model == PollActivate(old(model).(tasks := old(model.tasks)[poller := FRESH_TASK]), poller)
    {
      poller := NewTask();
      hide Valid;
      PollActive(poller);
    }

    method NewQueue() returns (waitq: Task)
      requires Valid()
      modifies this
      ensures Valid() && fresh(waitq) && Region() == old(Region()) + {waitq}
      ensures model == old(model).(fam := Family(old(model.fam.lists)[waitq := []], old(model.fam.at)))
    {
      hide Inv, WellFormed, Linked, Matches;
      ghost var s, tasks := model, model.tasks.Keys;
      waitq := EmptyHead(s.fam);
      NewQueueKeeps(s, waitq);
      SetModel(s.(fam := Family(s.fam.lists[waitq := []], s.fam.at)));
    }
  }

  /** LIST_INIT of a new head. */
  method EmptyHead(ghost f: Family<TaskFields>) returns (h: Task)
    requires WellFormed(f) && Linked(f, null)
    ensures fresh(h)
    ensures var g := Family(f.lists[h := []], f.at); WellFormed(g) && Linked(g, null)
  {
    hide WellFormed, Linked;
    ghost var links := Footprint(f);
    h := new Link(FRESH_TASK);
    h.next := null;
    HeadAdded(f, h);
  }

  lemma HeadAdded(f: Family<TaskFields>, h: Task)
    requires WellFormed(f) && Linked(f, null) && h !in Footprint(f) && h.next == null
    ensures var g := Family(f.lists[h := []], f.at); WellFormed(g) && Linked(g, null)
  {
    assert Chain(h, [], false);
    assert forall x :: x in f.at ==> f.at[x] != h;
    hide Chain;
  }

  lemma NewMatches(tasks: map<Task, TaskFields>, t: Task)
    requires Matches(tasks) && t.payload == FRESH_TASK
    ensures Matches(tasks[t := FRESH_TASK])
  {
  }

  lemma JoinFrame(s: LoopState, t: Task, f: TaskFields)
    requires s.taskq in s.fam.lists && t in s.tasks
    ensures Join(s, t, f).taskq == s.taskq && Join(s, t, f).tailer == s.tailer
  {
    hide Appended, Noted;
  }

  lemma RoundFrame(s: LoopState)
    requires s.taskq in s.fam.lists && s.phony != null
    ensures EndRound(s).taskq == s.taskq && EndRound(s).tailer == s.tailer
  {
    hide Unlinked, Appended;
  }

  lemma PopHome(s: LoopState, t: Task)
    requires s.taskq in s.fam.lists && t in s.tasks
    ensures Pop(s, t).taskq == s.taskq && Pop(s, t).tailer == s.tailer
  {
    hide Unlinked;
  }

  lemma EnterEntered(s: LoopState, p: Task)
    requires s.taskq in s.fam.lists
    ensures Enter(s, p).phony == p && Enter(s, p).first
  {
  }

  lemma LeavesLoop(s: LoopState)
    requires s.taskq in s.fam.lists && s.phony != null
    ensures Leave(s).phony == null && !EndRound(s).first
    ensures EndRound(s).phony == s.phony
    ensures Leave(EndRound(s).(brk := false)).phony == null
  {
  }

  lemma NewTaskShape(s: LoopState, t: Task)
    requires Shape(s) && Agree(s) && t !in s.tasks && t !in s.fam.at && t !in s.fam.lists && t != s.tailer && t != s.phony
    ensures var r := s.(tasks := s.tasks[t := FRESH_TASK]); Shape(r) && Agree(r) && BusyTasks(r) == BusyTasks(s)
  {
    hide WellFormed;
  }

  lemma NewTaskHistory(s: LoopState, t: Task)
    requires s.taskq in s.fam.lists && Remembered(s) && Conserved(s) && t !in s.tasks && t !in s.fam.at
    requires s.queued[t] == 0 && s.removed[t] == 0 && t !in s.ran
    ensures var r := s.(tasks := s.tasks[t := FRESH_TASK]); Remembered(r) && Conserved(r)
  {
    hide Behind, LastTwoRounds, ThisRound;
    assert multiset(s.ran)[t] == 0;
  }

  /** A new task changes nothing: it is idle and on no list. */
  lemma NewTaskKeeps(s: LoopState, t: Task)
    requires Inv(s) && t !in s.tasks && t !in s.fam.at && t !in s.fam.lists && t != s.tailer && t != s.phony
    requires s.queued[t] == 0 && s.removed[t] == 0 && t !in s.ran
    ensures Inv(s.(tasks := s.tasks[t := FRESH_TASK]))
  {
    InvParts(s);
    hide Inv, Shape, Agree, Remembered, Conserved, BusyTasks;
    NewTaskShape(s, t);
    NewTaskHistory(s, t);
    InvWhole(s.(tasks := s.tasks[t := FRESH_TASK]));
  }

  lemma NewQueueShape(s: LoopState, w: Task)
    requires Shape(s) && w !in s.tasks && w !in s.fam.at && w !in s.fam.lists && w != s.phony
    ensures var f := Family(s.fam.lists[w := []], s.fam.at);
            WellFormed(f) && Shape(s.(fam := f))
  {
    assert forall x :: x in s.fam.at ==> s.fam.at[x] != w;
  }

  lemma NewQueueRest(s: LoopState, w: Task)
    requires s.taskq in s.fam.lists && w !in s.fam.lists && Agree(s) && Remembered(s) && Conserved(s)
    ensures var r := s.(fam := Family(s.fam.lists[w := []], s.fam.at));
            Agree(r) && Remembered(r) && Conserved(r) && BusyTasks(r) == BusyTasks(s)
  {
    hide Behind, LastTwoRounds, ThisRound;
  }

  lemma NewQueueKeeps(s: LoopState, w: Task)
    requires Inv(s) && w !in s.tasks && w !in s.fam.at && w !in s.fam.lists && w != s.phony
    ensures var f := Family(s.fam.lists[w := []], s.fam.at);
            WellFormed(f) && Inv(s.(fam := f))
  {
    InvParts(s);
    hide Inv, Shape, Agree, Remembered, Conserved, BusyTasks, WellFormed;
    NewQueueShape(s, w);
    NewQueueRest(s, w);
    InvWhole(s.(fam := Family(s.fam.lists[w := []], s.fam.at)));
  }

  /** LIST_REMOVE and LIST_INSERT_BEFORE of the phony node. */
  method Requeue(tailer: Task, phony: Task, ghost f: Family<TaskFields>, ghost q: Task)
    requires WellFormed(f) && Linked(f, null) && phony in f.at && phony !in f.lists
    requires q in f.lists && tailer != phony && f.lists[q] != [] && f.lists[q][|f.lists[q]| - 1] == tailer
    modifies Footprint(f)`next, Footprint(f)`prev
    ensures var g := Appended(Unlinked(f, phony), q, phony); WellFormed(g) && Linked(g, null)
  {
    hide WellFormed, Linked, Appended;
    ListRemove(phony, f, null);
    LastStays(f, q, phony);
    ListInsertBefore(tailer, phony, Unlinked(f, phony), q);
  }

  lemma LastStays(f: Family<TaskFields>, q: Task, x: Task)
    requires q in f.lists && f.lists[q] != [] && f.lists[q][|f.lists[q]| - 1] != x
    ensures var g := Unlinked(f, x);
            && q in g.lists && g.lists[q] != [] && g.lists[q][|g.lists[q]| - 1] == f.lists[q][|f.lists[q]| - 1]
            && x !in g.at && g.lists.Keys == f.lists.Keys && g.at.Keys <= f.at.Keys
  {
    MinusLast(f.lists[q], x);
    hide Minus;
  }

  /** The list and flag writes of tx_loop_main for a task. */
  method Unqueue(task: Task, ghost f: Family<TaskFields>, ghost tasks: map<Task, TaskFields>) returns (wasBusy: bool)
    requires WellFormed(f) && Linked(f, null) && Matches(tasks) && task in f.at && task in tasks
    modifies Footprint(f)`next, Footprint(f)`prev, task`payload
    ensures WellFormed(Unlinked(f, task)) && Linked(Unlinked(f, task), null)
    ensures Matches(tasks[task := tasks[task].(busy := false, idle := true, mark := false)])
    ensures wasBusy == tasks[task].busy
  {
    hide WellFormed, Linked, Unlinked;
    wasBusy := task.payload.busy;
    ListRemove(task, f, null);
    if wasBusy {
      task.payload := task.payload.(busy := false);
    }
    task.payload := task.payload.(idle := true);
    task.payload := task.payload.(mark := false);
  }

  lemma ClearedKeys(f: Family<TaskFields>, h: Task)
    requires h in f.lists
    ensures Cleared(f, h).lists.Keys == f.lists.Keys && Cleared(f, h).at.Keys <= f.at.Keys
  {
  }

  lemma FrontOf(f: Family<TaskFields>, h: Task)
    requires WellFormed(f) && Linked(f, null) && h in f.lists
    ensures var q := f.lists[h];
            && h.next == (if q == [] then null else q[0])
            && (q != [] ==> q[0].next == if |q| == 1 then null else q[1])
  {
    assert Chain(h, f.lists[h], false);
  }

  lemma WakeAllNone(s: LoopState, reason: object?)
    requires s.taskq in s.fam.lists
    ensures WakeAll(s, [], reason) == s
  {
  }

  /** The waiters still to be woken: all that are left on the queue, or on a stopped loop, where they
      stay, the last ones. */
  ghost predicate Wakeable(s: LoopState, w: Task, todo: seq<Task>)
    requires w in s.fam.lists
  {
    && (forall t :: t in todo ==> t in s.tasks)
    && (if s.stop then |todo| <= |s.fam.lists[w]| && s.fam.lists[w][|s.fam.lists[w]| - |todo|..] == todo
        else Inv(s) && s.fam.lists[w] == todo)
  }

  lemma WakeableAll(s: LoopState, w: Task)
    requires Inv(s) && w in s.fam.lists && forall t :: t in s.fam.lists[w] ==> t in s.tasks
    ensures Wakeable(s, w, s.fam.lists[w])
  {
    hide Inv;
    assert s.fam.lists[w][0..] == s.fam.lists[w];
  }

  lemma NextOf(f: Family<TaskFields>, h: Task, todo: seq<Task>)
    requires WellFormed(f) && Linked(f, null) && h in f.lists && todo != []
    requires |todo| <= |f.lists[h]| && f.lists[h][|f.lists[h]| - |todo|..] == todo
    ensures todo[0].next == if |todo| == 1 then null else todo[1]
  {
    assert Chain(h, f.lists[h], false);
    var q, i := f.lists[h], |f.lists[h]| - |todo|;
    assert q[i] == todo[0] && (|todo| > 1 ==> q[i + 1] == todo[1]);
  }

  lemma WakeableTail(s: LoopState, w: Task, todo: seq<Task>)
    requires w in s.fam.lists && Wakeable(s, w, todo)
    ensures |todo| <= |s.fam.lists[w]| && s.fam.lists[w][|s.fam.lists[w]| - |todo|..] == todo
    ensures forall t :: t in todo ==> t in s.tasks
  {
    hide Inv;
  }

  /** What one step of the loop of tx_task_wakeup leaves to do. */
  ghost predicate WokeFirst(s: LoopState, w: Task, todo: seq<Task>, reason: object?)
    requires todo != [] && s.taskq in s.fam.lists && forall t :: t in todo ==> t in s.tasks
  {
    var a := ActivateTask(NotPending(s, todo[0]), todo[0], reason);
    && w in a.fam.lists && w != a.taskq && Wakeable(a, w, todo[1..])
    && (forall u :: u in todo[1..] ==> u in a.tasks)
    && WakeAll(s, todo, reason) == WakeAll(a, todo[1..], reason)
  }

  lemma WakeAllFirst(s: LoopState, todo: seq<Task>, reason: object?)
    requires todo != [] && s.taskq in s.fam.lists && forall t :: t in todo ==> t in s.tasks
    ensures var a := ActivateTask(NotPending(s, todo[0]), todo[0], reason);
            (forall u :: u in todo[1..] ==> u in a.tasks) && WakeAll(s, todo, reason) == WakeAll(a, todo[1..], reason)
  {
    hide ActivateTask;
  }

  lemma WokeStopped(s: LoopState, w: Task, todo: seq<Task>, reason: object?)
    requires s.taskq in s.fam.lists && w in s.fam.lists && w != s.taskq && s.stop && Wakeable(s, w, todo) && todo != []
    ensures WokeFirst(s, w, todo, reason)
  {
    hide Inv;
    var c := NotPending(s, todo[0]);
    assert ActivateTask(c, todo[0], reason) == c;
    WakeAllFirst(s, todo, reason);
    assert s.fam.lists[w][|s.fam.lists[w]| - |todo[1..]|..] == todo[1..];
  }

  lemma WokeRunning(s: LoopState, w: Task, todo: seq<Task>, reason: object?)
    requires s.taskq in s.fam.lists && w in s.fam.lists && w != s.taskq && !s.stop && Wakeable(s, w, todo) && todo != []
    ensures WokeFirst(s, w, todo, reason) && Droppable(NotPending(s, todo[0]), todo[0])
  {
    hide Inv, ActivateTask, Droppable, NotPending, WakeAll, BeforeLast;
    assert todo[0] in todo;
    WaitersAre(s, w, todo[0]);
    SettledWaiting(s, todo[0]);
    WakeAllFirst(s, todo, reason);
    WakeStep(s, w, todo, reason);
  }

  /** One waiter is woken, or on a stopped loop loses its PENDING flag. */
  lemma WakeableNext(s: LoopState, w: Task, todo: seq<Task>, reason: object?)
    requires s.taskq in s.fam.lists && w in s.fam.lists && w != s.taskq && Wakeable(s, w, todo) && todo != []
    ensures todo[0] in s.tasks && (forall t :: t in todo ==> t in s.tasks) && WokeFirst(s, w, todo, reason)
    ensures NotPending(s, todo[0]).tasks.Keys == s.tasks.Keys
    ensures var c := NotPending(s, todo[0]); !c.stop && !c.tasks[todo[0]].busy ==> Droppable(c, todo[0])
  {
    hide Inv, Droppable, WokeFirst;
    if s.stop {
      WokeStopped(s, w, todo, reason);
    } else {
      WokeRunning(s, w, todo, reason);
    }
  }

  lemma WokenKeeps(s: LoopState, w: Task, reason: object?)
    requires Inv(s) && w in s.fam.lists && w != s.taskq && forall t :: t in s.fam.lists[w] ==> t in s.tasks
    ensures s.taskq in s.fam.lists && ((s.stop && s.fam.lists[w] != []) || Inv(WakeQueue(s, w, reason)))
  {
    InvParts(s);
    hide Inv, WakeQueue;
    if !s.stop {
      WakeQueueMoves(s, w, reason);
    } else if s.fam.lists[w] == [] {
      WakeNone(s, w, reason);
    }
  }

  ghost predicate SameCounters(s: LoopState, r: LoopState) {
    && r.taskq == s.taskq && r.tailer == s.tailer && r.busy == s.busy && r.stop == s.stop && r.brk == s.brk
    && r.actives == s.actives && r.upcount == s.upcount && r.holder == s.holder && r.current == s.current
  }

  /** The same links, of which the same or fewer, or tasks, are on lists. */
  ghost predicate SameKeys(s: LoopState, r: LoopState) {
    && r.fam.lists.Keys == s.fam.lists.Keys && r.tasks.Keys == s.tasks.Keys && r.phony == s.phony
    && r.fam.at.Keys <= s.fam.at.Keys + s.tasks.Keys
  }

  lemma InitialSingle(s: LoopState)
    requires s.fam.lists == map[s.taskq := [s.tailer]] && s.fam.at == map[s.tailer := s.taskq] && s.taskq != s.tailer
    requires s.tasks == map[] && s.phony == null && s.busy == 0 && s.actives == 0 && !s.stop && !s.brk
    requires s.queued == multiset{} && s.ran == [] && s.removed == multiset{}
    ensures Initial(s) && Inv(s)
  {
    assert Queue(s)[0] == s.tailer;
    assert BusyTasks(s) == {};
  }

  lemma LinkedTask(s: LoopState, t: Task)
    requires Inv(s) && t in s.tasks && !s.tasks[t].idle
    ensures t in s.fam.at && t !in s.fam.lists && s.taskq in s.fam.lists
  {
    hide WellFormed;
  }

  lemma DropEffect(s: LoopState, t: Task)
    requires s.taskq in s.fam.lists && t in s.tasks && !s.tasks[t].idle
    ensures var r := DropTask(s, t);
            && r.fam == Unlinked(s.fam, t) && SameCounters(s, r) && s.taskq in r.fam.lists
            && SameKeys(s, r)
            && r.tasks == s.tasks[t := s.tasks[t].(pending := false, busy := false, idle := true)]
  {
    hide Minus;
  }

  lemma JoinCounters(s: LoopState, t: Task, f: TaskFields)
    requires s.taskq in s.fam.lists && t in s.tasks
    ensures var r := Join(s, t, f);
            && r.taskq == s.taskq && r.tailer == s.tailer && r.stop == s.stop && r.brk == s.brk
            && r.upcount == s.upcount && r.holder == s.holder && r.current == s.current
            && r.actives == (if f.busy then s.actives + 1 else s.actives)
            && r.busy == (if f.busy then Noted(s.busy) else s.busy)
  {
    hide Appended, Noted;
  }

  lemma JoinLinks(s: LoopState, t: Task, f: TaskFields)
    requires s.taskq in s.fam.lists && t in s.tasks
    ensures var r := Join(s, t, f);
            && r.fam == Appended(s.fam, s.taskq, t) && s.taskq in r.fam.lists && SameKeys(s, r)
            && r.tasks == s.tasks[t := f]
  {
    hide BeforeLast;
  }

  /** The task is known, linked unless idle, and joins nothing it is on once dropped. */
  ghost predicate Droppable(s: LoopState, t: Task) {
    && s.taskq in s.fam.lists && t in s.tasks && (!s.tasks[t].idle ==> t in s.fam.at)
    && var d := DropTask(s, t);
    && t in d.tasks && t !in d.fam.at && t !in d.fam.lists
    && Queue(d) != [] && Queue(d)[|Queue(d)| - 1] == d.tailer
  }

  lemma DropIdle(s: LoopState, t: Task)
    requires s.taskq in s.fam.lists && t in s.tasks && s.tasks[t].idle
    ensures DropTask(s, t) == s
  {
  }

  lemma IdleTask(s: LoopState, t: Task)
    requires Inv(s) && t in s.tasks && s.tasks[t].idle
    ensures t !in s.fam.at && t !in s.fam.lists && !s.tasks[t].busy && !s.tasks[t].pending
  {
    hide WellFormed, Remembered, Conserved, BusyTasks;
  }

  lemma Settled(s: LoopState, t: Task)
    requires Inv(s) && t in s.tasks
    ensures Droppable(s, t)
  {
    hide Inv, DropTask, Agree;
    InvParts(s);
    if !s.tasks[t].idle { LinkedTask(s, t); }
    DropKeeps(s, t);
    DropClears(s, t);
    QueueTail(DropTask(s, t));
    hide Shape, Remembered, Conserved, BusyTasks;
  }

  lemma QueueTail(s: LoopState)
    requires Inv(s)
    ensures s.taskq in s.fam.lists && Queue(s) != [] && Queue(s)[|Queue(s)| - 1] == s.tailer
    ensures forall t :: t in s.tasks ==> t !in s.fam.lists
  {
    hide WellFormed, Agree, Remembered, Conserved, BusyTasks;
  }

  lemma WaitEffect(s: LoopState, w: Task, t: Task)
    requires s.taskq in s.fam.lists && w in s.fam.lists && t in s.tasks
    ensures var r := PutWaiting(s, w, t);
            && r.fam == Pushed(s.fam, w, t) && SameCounters(s, r) && s.taskq in r.fam.lists && SameKeys(s, r)
            && r.tasks == s.tasks[t := s.tasks[t].(pending := true, idle := false)]
  {
  }

  lemma SettledWaiting(s: LoopState, t: Task)
    requires Inv(s) && t in s.tasks && !s.stop && !s.tasks[t].busy && !s.tasks[t].idle
    ensures Droppable(NotPending(s, t), t)
  {
    hide Inv, DropTask;
    Settled(s, t);
    LinkedTask(s, t);
    DropUnsettled(s, t);
  }

  lemma PhonyLinked(s: LoopState)
    requires Inv(s) && s.phony != null
    ensures s.phony in s.fam.at && s.phony !in s.fam.lists && s.phony != s.tailer && s.taskq in s.fam.lists
    ensures Queue(s) != [] && Queue(s)[|Queue(s)| - 1] == s.tailer
  {
    hide Agree, Remembered, Conserved, BusyTasks;
  }

  lemma EnterEffect(s: LoopState, p: Task)
    requires s.taskq in s.fam.lists
    ensures var r := Enter(s, p);
            && r.fam == Appended(s.fam, s.taskq, p) && SameCounters(s, r) && s.taskq in r.fam.lists
            && r.tasks == s.tasks && r.phony == p && r.fam.lists.Keys == s.fam.lists.Keys && r.fam.at.Keys <= s.fam.at.Keys + {p}
  {
    hide BeforeLast;
  }

  lemma LeaveEffect(s: LoopState)
    requires s.phony != null
    ensures var r := Leave(s);
            && r.fam == Unlinked(s.fam, s.phony) && SameCounters(s, r)
            && r.tasks == s.tasks && r.phony == null && r.fam.lists.Keys == s.fam.lists.Keys
            && r.fam.at.Keys <= s.fam.at.Keys - {s.phony}
  {
    hide Minus;
  }

  lemma EndRoundEffect(s: LoopState)
    requires s.phony != null && s.taskq in s.fam.lists
    ensures var r := EndRound(s);
            && r.fam == Appended(Unlinked(s.fam, s.phony), s.taskq, s.phony) && r.tasks == s.tasks
            && s.taskq in r.fam.lists
            && r.phony == s.phony && r.fam.lists.Keys == s.fam.lists.Keys && r.fam.at.Keys <= s.fam.at.Keys + {s.phony}
  {
    hide Minus, BeforeLast;
  }

  lemma PopEffect(s: LoopState, t: Task)
    requires s.taskq in s.fam.lists && t in s.tasks
    ensures var r := Pop(s, t);
            && r.fam == Unlinked(s.fam, t) && s.taskq in r.fam.lists && SameKeys(s, r)
            && r.tasks == s.tasks[t := s.tasks[t].(busy := false, idle := true, mark := false)]
  {
    hide Minus;
  }

  lemma RoundCounters(s: LoopState)
    requires s.phony != null && s.taskq in s.fam.lists
    ensures var r := EndRound(s);
            && r.taskq == s.taskq && r.tailer == s.tailer && r.stop == s.stop && r.brk == s.brk
            && r.holder == s.holder && r.current == s.current && r.upcount == s.upcount + 1
            && r.busy == 2 * s.busy % 0x1_0000_0000 && r.actives == (if s.busy % 2 != 0 then s.actives else 0)
  {
    hide Unlinked, Appended;
  }
}
