/** The promises of the run queue over whole runs. */
module LoopTheorems {
  import opened IntrusiveList
  import opened LoopModel
  import opened LoopProofs
  import opened RoundProofs

  // ---------------------------------------------------------------- reachable states

  lemma InitialHolds(s: LoopState)
    requires Initial(s)
    ensures Inv(s)
  {
    assert Queue(s)[0] == s.tailer;
    assert BusyTasks(s) == {};
    forall t | t in s.tasks ensures t !in s.fam.at { }
  }

  lemma NextKeeps(s: LoopState, e: Event)
    requires Inv(s) && s.taskq in s.fam.lists && Enabled(s, e)
    ensures Inv(Next(s, e))
  {
    hide Inv, Step, Enter, Turn;
    match e
    case Api(op) => StepKeeps(s, op);
    case Main(p) => EnterKeeps(s, p);
    case Iterate(ops) => TurnKeeps(s, ops);
  }

  lemma {:induction false} RunKeeps(s: LoopState, es: seq<Event>, r: LoopState)
    requires Inv(s) && s.taskq in s.fam.lists && Run(s, es, r)
    ensures Inv(r)
    decreases |es|
  {
    hide Inv, Next;
    if es != [] {
      NextKeeps(s, es[0]);
      RunKeeps(Next(s, es[0]), es[1..], r);
    }
  }

  /** Flags and lists agree, and insertions are conserved, in every reachable state. */
  lemma ReachableHolds(s: LoopState, es: seq<Event>, r: LoopState)
    requires Initial(s) && Run(s, es, r)
    ensures Shape(r) && Agree(r) && Conserved(r)
    ensures 0 <= |BusyTasks(r)| <= r.actives
  {
    InitialHolds(s);
    RunKeeps(s, es, r);
  }

  // ---------------------------------------------------------------- blocking

  lemma SomeBusy(s: LoopState)
    requires exists t :: t in s.tasks && s.tasks[t].busy
    ensures BusyTasks(s) != {}
  {
    var t :| t in s.tasks && s.tasks[t].busy;
    assert t in BusyTasks(s);
  }

  lemma BusyMeansNow(s: LoopState, verify: object?)
    requires Inv(s) && BusyTasks(s) != {}
    ensures Timeout(s, verify) == 0
  {
    hide WellFormed, Behind;
    assert |BusyTasks(s)| > 0;
  }

  /** Whatever has run so far, no poller may block while a busy task is on the run queue. */
  lemma NeverBlocksOnWork(s: LoopState, es: seq<Event>, r: LoopState, verify: object?)
    requires Initial(s) && Run(s, es, r)
    requires exists t :: t in r.tasks && r.tasks[t].busy
    ensures Timeout(r, verify) == 0
  {
    SomeBusy(r);
    hide Inv, Run, Initial, Timeout, BusyTasks;
    InitialHolds(s);
    RunKeeps(s, es, r);
    BusyMeansNow(r, verify);
  }

  /** The same inside a callback, where pollers ask: after any part of what the callback does. */
  lemma NeverBlocksInCallback(s: LoopState, es: seq<Event>, r: LoopState, ops: seq<Op>, verify: object?)
    requires Initial(s) && Run(s, es, r)
    requires InMain(r) && Queue(r)[0] != r.phony && LegalAll(Pop(r, Queue(r)[0]), ops)
    requires var c := StepAll(Pop(r, Queue(r)[0]), ops); exists t :: t in c.tasks && c.tasks[t].busy
    ensures Timeout(StepAll(Pop(r, Queue(r)[0]), ops), verify) == 0
  {
    var c := StepAll(Pop(r, Queue(r)[0]), ops);
    SomeBusy(c);
    hide Inv, Run, Initial, Timeout, BusyTasks, StepAll, LegalAll, Pop;
    InitialHolds(s);
    RunKeeps(s, es, r);
    NeverTailer(r);
    PopKeeps(r, Queue(r)[0]);
    StepAllKeeps(Pop(r, Queue(r)[0]), ops);
    BusyMeansNow(c, verify);
  }

  // ---------------------------------------------------------------- the counter

  /** By how much tx_actives exceeds the number of busy tasks. */
  ghost function Slack(s: LoopState): int {
    s.actives - |BusyTasks(s)|
  }

  /** Only tx_task_drop and tx_task_record of a busy task leak a count, and exactly one. */
  ghost function Leak(s: LoopState, op: Op): int {
    match op
    case Drop(t) => if t != null && t in s.tasks && s.tasks[t].busy then 1 else 0
    case Record(_, t) => if t in s.tasks && s.tasks[t].busy then 1 else 0
    case _ => 0
  }

  lemma ActivateSlack(s: LoopState, t: Task, reason: object?)
    requires Inv(s) && t in s.tasks
    ensures Slack(ActivateTask(s, t, reason)) == Slack(s)
  {
    hide Inv, Shape, Agree, Remembered, Conserved, BusyTasks, Join, DropTask;
    InvParts(s);
    if !s.stop && !s.tasks[t].busy {
      DropClears(s, t);
      var d := DropTask(s, t);
      JoinBusy(d, t, d.tasks[t].(idle := false, busy := true, reason := reason));
      NotBusy(s, t);
    }
  }

  lemma NotBusy(s: LoopState, t: Task)
    requires t in s.tasks && !s.tasks[t].busy
    ensures BusyTasks(s) - {t} == BusyTasks(s)
  {
  }

  lemma {:induction false} SetOfDistinct<T>(q: seq<T>)
    requires Distinct(q)
    ensures |set x | x in q| == |q|
  {
    if q != [] {
      MinusHead(q);
      assert Distinct(q[1..]);
      SetOfDistinct(q[1..]);
      assert (set x | x in q) == (set x | x in q[1..]) + {q[0]};
    }
  }

  lemma WakeSlack(s: LoopState, w: Task, reason: object?)
    requires Inv(s) && w in s.fam.lists && w != s.taskq && !s.stop
    requires forall t :: t in s.fam.lists[w] ==> t in s.tasks
    ensures Slack(WakeQueue(s, w, reason)) == Slack(s)
  {
    hide Inv, WakeQueue, BusyTasks, Distinct, Moved;
    WakeQueueMoves(s, w, reason);
    WaitersIdle(s, w);
    MovedBusy(s, w, s.fam.lists[w], reason, WakeQueue(s, w, reason));
    SetOfDistinct(s.fam.lists[w]);
  }

  lemma WaitersIdle(s: LoopState, w: Task)
    requires Inv(s) && w in s.fam.lists && w != s.taskq
    ensures Distinct(s.fam.lists[w]) && s.taskq in s.fam.lists
    ensures forall t :: t in s.fam.lists[w] ==> t in s.tasks && !s.tasks[t].busy
  {
    InvParts(s);
    WaitDistinct(s, w);
    hide Inv;
    forall t | t in s.fam.lists[w] ensures t in s.tasks && !s.tasks[t].busy { WaitersAre(s, w, t); }
  }

  lemma MovedBusy(s: LoopState, w: Task, ts: seq<Task>, reason: object?, r: LoopState)
    requires s.taskq in s.fam.lists && w in s.fam.lists && Queue(s) != [] && Moved(s, w, ts, reason, r)
    requires forall t :: t in ts ==> t in s.tasks && !s.tasks[t].busy
    ensures BusyTasks(r) == BusyTasks(s) + (set t | t in ts) && BusyTasks(s) !! set t | t in ts
    ensures r.actives == s.actives + |ts|
  {
  }

  lemma RecordSlack(s: LoopState, w: Task, t: Task)
    requires Inv(s) && s.taskq in s.fam.lists && w in s.fam.lists && t in s.tasks
    ensures Slack(RecordTask(s, w, t)) == Slack(s) + if s.tasks[t].busy then 1 else 0
  {
    hide Inv, DropTask, PutWaiting, BusyTasks;
    DropSlack(s, t);
    WaitCounts(DropTask(s, t), w, t);
  }

  lemma WakeOpSlack(s: LoopState, w: Task, reason: object?)
    requires Inv(s) && s.taskq in s.fam.lists && Legal(s, Wakeup(w, reason))
    ensures Slack(WakeQueue(s, w, reason)) == Slack(s)
  {
    hide Inv, WakeQueue, Slack;
    if s.stop { WakeNone(s, w, reason); } else { WakeSlack(s, w, reason); }
  }

  lemma SameSlack(s: LoopState, r: LoopState)
    requires SameFlags(s, r) && r.actives == s.actives
    ensures Slack(r) == Slack(s)
  {
    hide BusyTasks;
    BusySame(s, r);
  }

  /** tx_actives is exact but for the leaks: every operation moves the slack by its leak. */
  lemma StepSlack(s: LoopState, op: Op)
    requires Inv(s) && s.taskq in s.fam.lists && Legal(s, op)
    ensures Slack(Step(s, op)) == Slack(s) + Leak(s, op)
  {
    hide Inv, ActivateTask, DropTask, WakeQueue, RecordTask, PollActivate, Slack, Framed;
    match op
    case Active(t, reason) => if t != null { ActivateSlack(s, t, reason); }
    case Drop(t) => if t != null { DropSlack(s, t); }
    case Record(w, t) => RecordSlack(s, w, t);
    case Wakeup(w, reason) => WakeOpSlack(s, w, reason);
    case PollActive(t) => PollSlack(s, t);
    case Mark(t) => SameSlack(s, Step(s, op));
    case Stop => SameSlack(s, Step(s, op));
    case Break => SameSlack(s, Step(s, op));
    case Hold(h) => SameSlack(s, Step(s, op));
  }

  lemma DropSlack(s: LoopState, t: Task)
    requires Inv(s) && t in s.tasks && s.taskq in s.fam.lists
    ensures Slack(DropTask(s, t)) == Slack(s) + if s.tasks[t].busy then 1 else 0
  {
    hide WellFormed, Remembered, Conserved, DropTask;
    DropClears(s, t);
    assert t in BusyTasks(s) <==> s.tasks[t].busy;
  }

  lemma PollSlack(s: LoopState, t: Task)
    requires Inv(s) && t in s.tasks && s.taskq in s.fam.lists
    ensures Slack(PollActivate(s, t)) == Slack(s)
  {
    hide WellFormed, Remembered, Conserved, Append;
    BusySame(s, PollActivate(s, t).(tasks := s.tasks));
    var r := PollActivate(s, t);
    assert BusyTasks(r) == BusyTasks(s);
  }

  /** A round that ends without recent activity resets the counter, and is right to: the slack
      becomes zero. Any other round end leaves it alone. */
  lemma RoundSlack(s: LoopState)
    requires Inv(s) && s.phony != null && Queue(s)[0] == s.phony
    ensures Slack(EndRound(s)) == if ThisRound(s.busy) then Slack(s) else 0
    ensures !ThisRound(s.busy) ==> BusyTasks(s) == {}
  {
    FrontPhony(s);
    hide Inv, ThisRound;
    assert BusyTasks(EndRound(s)) == BusyTasks(s);
  }

  lemma PopSlack(s: LoopState, t: Task)
    requires Inv(s) && t in s.tasks && s.taskq in s.fam.lists
    ensures Slack(Pop(s, t)) == Slack(s)
  {
    hide Inv;
    assert BusyTasks(Pop(s, t)) == BusyTasks(s) - {t};
    assert t in BusyTasks(s) <==> s.tasks[t].busy;
  }

  lemma TwoCalls(s: LoopState, a: Op, b: Op)
    requires s.taskq in s.fam.lists && s.phony == null && Legal(s, a) && Legal(Step(s, a), b)
    ensures Run(s, [Api(a), Api(b)], Step(Step(s, a), b))
  {
    hide Legal, Step;
    var m := Step(s, a);
    assert [Api(a), Api(b)][1..] == [Api(b)];
    assert Run(m, [Api(b)], Step(m, b));
  }

  lemma InitialIs(s: LoopState)
    requires Initial(s)
    ensures Inv(s) && s.taskq in s.fam.lists && s.phony == null && !s.stop && s.actives == 0 && s.busy == 0
    ensures BusyTasks(s) == {} && Queue(s) == [s.tailer] && s.tailer !in s.tasks
    ensures forall t :: t in s.tasks ==> s.tasks[t] == FRESH_TASK && t !in s.fam.at
    ensures forall w :: w in s.fam.lists && w != s.taskq ==> s.fam.lists[w] == []
  {
    InitialHolds(s);
    hide Inv;
  }

  /** A task that was on no list joins the queue and is dropped. */
  lemma JoinDrop(s: LoopState, t: Task, reason: object?)
    requires s.taskq in s.fam.lists && t in s.tasks && s.tasks[t] == FRESH_TASK && !s.stop && s.busy == 0
    requires Queue(s) == [s.tailer] && t != s.tailer
    ensures var r := DropTask(ActivateTask(s, t, reason), t);
            r.actives == s.actives + 1 && r.busy == 1 && s.taskq in r.fam.lists && Queue(r) == [r.tailer]
  {
    var q := BeforeLast([s.tailer], t);
    assert q == [t, s.tailer] && q[1..] == [s.tailer];
    assert Minus(q, t) == [s.tailer];
  }

  /** Such a leak is reached in two calls: the task is gone from the queue, the count stays, and the
      pollers are kept from blocking although nothing is runnable. */
  lemma LeakedCount(s: LoopState, t: Task, reason: object?, verify: object?)
    requires Initial(s) && t in s.tasks
    ensures s.taskq in s.fam.lists
    ensures var r := DropTask(ActivateTask(s, t, reason), t);
            && Run(s, [Api(Active(t, reason)), Api(Drop(t))], r)
            && Queue(r) == [r.tailer] && BusyTasks(r) == {} && Slack(r) == 1 && Timeout(r, verify) == 0
  {
    hide Initial, Inv, BusyTasks, DropTask, ActivateTask, Run;
    InitialIs(s);
    TwoCalls(s, Active(t, reason), Drop(t));
    var a := ActivateTask(s, t, reason);
    JoinDrop(s, t, reason);
    ActivateKeeps(s, t, reason);
    ActivateSlack(s, t, reason);
    ActivateBusy(s, t, reason);
    DropSlack(a, t);
  }

  lemma ActivateBusy(s: LoopState, t: Task, reason: object?)
    requires s.taskq in s.fam.lists && t in s.tasks && !s.stop
    ensures ActivateTask(s, t, reason).tasks[t].busy
  {
    hide Append, Unlink;
  }

  /** A stopped loop with a waiter is reached too: waking leaves the waiter on no list and not idle. */
  lemma StrandedWaiter(s: LoopState, w: Task, t: Task, reason: object?)
    requires Initial(s) && w in s.fam.lists && w != s.taskq && t in s.tasks
    ensures var r := RecordTask(s, w, t).(stop := true);
            && Run(s, [Api(Record(w, t)), Api(Stop)], r)
            && Inv(r) && r.taskq in r.fam.lists && w in r.fam.lists && r.fam.lists[w] == [t] && t in r.tasks
            && var u := WakeQueue(r, w, reason);
            t in u.tasks && !u.tasks[t].idle && t !in u.fam.at && !Agree(u)
  {
    hide Initial, Inv, Run, Agree, RecordTask, WakeQueue;
    InitialIs(s);
    RecordFresh(s, w, t);
    var r := RecordTask(s, w, t).(stop := true);
    TwoCalls(s, Record(w, t), Stop);
    RunKeeps(s, [Api(Record(w, t)), Api(Stop)], r);
    WakeupAgreesIff(r, w, reason);
    WakeStrands(r, w, t, reason);
  }

  lemma RecordFresh(s: LoopState, w: Task, t: Task)
    requires s.taskq in s.fam.lists && w in s.fam.lists && s.fam.lists[w] == [] && t in s.tasks && s.tasks[t] == FRESH_TASK
    ensures var r := RecordTask(s, w, t);
            && r.taskq == s.taskq && w in r.fam.lists && r.fam.lists[w] == [t] && t in r.tasks && !r.tasks[t].idle
  {
  }

  lemma WakeStrands(s: LoopState, w: Task, t: Task, reason: object?)
    requires s.taskq in s.fam.lists && w in s.fam.lists && w != s.taskq && s.fam.lists[w] == [t]
    requires s.stop && t in s.tasks && !s.tasks[t].idle
    ensures var u := WakeQueue(s, w, reason); t in u.tasks && !u.tasks[t].idle && t !in u.fam.at
  {
    StoppedWakeAll(s, [t], reason);
    hide WakeAll;
  }

  // ---------------------------------------------------------------- telling a task

  /** Whatever was to run is still to run. */
  ghost predicate StillBusy(l: LoopState, m: LoopState) {
    m.stop == l.stop && forall t :: t in l.tasks && l.tasks[t].busy ==> t in m.tasks && m.tasks[t].busy
  }

  ghost predicate Queued(l: LoopState, t: OptTask) { t != null ==> t in l.tasks && l.tasks[t].busy }

  lemma ActivatedQueues(l: LoopState, task: OptTask, reason: object?)
    requires l.taskq in l.fam.lists && (task != null ==> task in l.tasks)
    ensures var m := Activated(l, task, reason); StillBusy(l, m) && (!l.stop ==> Queued(m, task))
  {
    hide Unlink, Append;
  }

  lemma PollStillBusy(l: LoopState, task: Task)
    requires l.taskq in l.fam.lists && task in l.tasks
    ensures StillBusy(l, PollActivate(l, task))
  {
    hide Append;
  }

  /** A busy task is on the run queue. */
  lemma QueuedOnQueue(l: LoopState, t: OptTask)
    requires Inv(l) && Queued(l, t) && t != null
    ensures OnQueue(l, t)
  {
    hide Shape, Remembered, Conserved, BusyTasks;
  }

  lemma InvAgrees(s: LoopState)
    requires Inv(s)
    ensures Agree(s) && Shape(s) && WellFormed(s.fam)
  {
    hide WellFormed, Agree, Remembered, Conserved, BusyTasks;
  }

  /** A task that is on no list is in none. */
  lemma NotListed(s: LoopState, t: Task)
    requires Inv(s) && t in s.tasks && s.tasks[t].idle
    ensures forall w :: w in s.fam.lists ==> Minus(s.fam.lists[w], t) == s.fam.lists[w]
    ensures t !in s.fam.at && !s.tasks[t].busy && !s.tasks[t].pending
  {
    InvAgrees(s);
    hide Inv, Minus;
  }

  lemma UnlinkedIs(f: Family<TaskFields>, t: Task)
    requires WellFormed(f)
    ensures var r := Unlinked(f, t);
            r.lists.Keys == f.lists.Keys && t !in r.at && forall w :: w in f.lists ==> r.lists[w] == Minus(f.lists[w], t)
  {
    hide Minus;
  }

  /** The loop after a task has left its list. */
  ghost predicate Without(s: LoopState, t: Task, r: LoopState)
    requires t in s.tasks
  {
    && r.tasks == s.tasks[t := s.tasks[t].(idle := true, busy := false, pending := false)] && r.taskq == s.taskq
    && t !in r.fam.at && r.fam.lists.Keys == s.fam.lists.Keys
    && forall w :: w in s.fam.lists ==> r.fam.lists[w] == Minus(s.fam.lists[w], t)
  }

  lemma DropIs(s: LoopState, t: Task)
    requires s.taskq in s.fam.lists && t in s.tasks
    ensures var r := DropTask(s, t);
            if s.tasks[t].idle then r == s
            else r.fam == Unlinked(s.fam, t) && r.taskq == s.taskq
                 && r.tasks == s.tasks[t := s.tasks[t].(pending := false, busy := false, idle := true)]
  {
    hide Unlinked;
  }

  /** tx_task_drop: the task is idle and on no list; every other list and task is as it was. */
  lemma DroppedIs(s: LoopState, t: Task)
    requires Inv(s) && s.taskq in s.fam.lists && t in s.tasks
    ensures Without(s, t, DropTask(s, t))
  {
    hide Inv, Minus, DropTask, Unlinked;
    DropIs(s, t);
    InvAgrees(s);
    if s.tasks[t].idle { NotListed(s, t); } else { UnlinkedIs(s.fam, t); }
  }

  lemma JoinIs(s: LoopState, t: Task, f: TaskFields)
    requires s.taskq in s.fam.lists && t in s.tasks
    ensures var r := Join(s, t, f);
            && r.tasks == s.tasks[t := f] && r.taskq == s.taskq && r.taskq in r.fam.lists && OnQueue(r, t)
            && r.fam.lists == s.fam.lists[s.taskq := BeforeLast(Queue(s), t)]
  {
    hide BeforeLast;
  }

  /** tx_task_active: the task leaves whatever list it was on and is last on the run queue, in front of the tailer,
      BUSY and with the reason it was given. */
  lemma ActivatedIs(s: LoopState, t: Task, reason: object?)
    requires Inv(s) && s.taskq in s.fam.lists && t in s.tasks && !s.stop && !s.tasks[t].busy
    ensures var r := ActivateTask(s, t, reason);
            && r.tasks == s.tasks[t := TaskFields(false, true, false, s.tasks[t].mark, reason)]
            && r.taskq in r.fam.lists && OnQueue(r, t) && Queue(r) == BeforeLast(Minus(Queue(s), t), t)
            && forall w :: w in s.fam.lists && w != s.taskq ==> r.fam.lists[w] == Minus(s.fam.lists[w], t)
  {
    hide Inv, Minus, BeforeLast, DropTask, Join, OnQueue;
    DroppedIs(s, t);
    var d := DropTask(s, t);
    JoinIs(d, t, d.tasks[t].(idle := false, busy := true, reason := reason));
  }

  lemma PutIs(s: LoopState, w: Task, t: Task)
    requires w in s.fam.lists && t in s.tasks
    ensures var r := PutWaiting(s, w, t);
            && r.tasks == s.tasks[t := s.tasks[t].(pending := true, idle := false)]
            && r.fam.lists == s.fam.lists[w := [t] + s.fam.lists[w]]
  {
  }

  /** tx_task_record: the task leaves whatever list it was on and is first on the wait queue, PENDING. */
  lemma RecordedIs(s: LoopState, w: Task, t: Task)
    requires Inv(s) && s.taskq in s.fam.lists && w in s.fam.lists && w != s.taskq && t in s.tasks
    ensures var r := RecordTask(s, w, t);
            && r.tasks == s.tasks[t := s.tasks[t].(idle := false, busy := false, pending := true)]
            && r.fam.lists[w] == [t] + Minus(s.fam.lists[w], t)
            && forall v :: v in s.fam.lists && v != w ==> r.fam.lists[v] == Minus(s.fam.lists[v], t)
  {
    hide Inv, Minus, DropTask, PutWaiting;
    DroppedIs(s, t);
    PutIs(DropTask(s, t), w, t);
  }

  /** tx_poll_active: on a loop that is not stopped an idle poller is on the run queue, last, but not BUSY; nothing
      else changes, so whoever may sleep still may. */
  lemma PollJoined(s: LoopState, t: Task, verify: object?)
    requires Inv(s) && s.taskq in s.fam.lists && t in s.tasks
    ensures var r := PollActivate(s, t);
            && BusyTasks(r) == BusyTasks(s) && r.busy == s.busy && r.actives == s.actives && Timeout(r, verify) == Timeout(s, verify)
            && (s.tasks[t].idle && !s.stop ==>
                  && r.tasks == s.tasks[t := s.tasks[t].(idle := false)]
                  && r.taskq in r.fam.lists && OnQueue(r, t) && Queue(r) == BeforeLast(Queue(s), t))
            && (!s.tasks[t].idle || s.stop ==> r == s)
  {
    hide Inv, Join, BeforeLast, BusyTasks, OnQueue;
    if s.tasks[t].idle && !s.stop {
      NotListed(s, t);
      var f := s.tasks[t].(idle := false);
      JoinIs(s, t, f);
      JoinCounts(s, t, f);
      SameBusyTasks(s, Join(s, t, f));
    }
  }

  lemma JoinCounts(s: LoopState, t: Task, f: TaskFields)
    requires s.taskq in s.fam.lists && t in s.tasks && !f.busy
    ensures var r := Join(s, t, f); r.busy == s.busy && r.actives == s.actives && r.brk == s.brk && r.holder == s.holder
  {
    hide Appended;
  }

  lemma SameBusyTasks(s: LoopState, r: LoopState)
    requires r.tasks.Keys == s.tasks.Keys && forall t :: t in s.tasks ==> r.tasks[t].busy == s.tasks[t].busy
    ensures BusyTasks(r) == BusyTasks(s)
  {
  }

  /** When its turn comes a task is unlinked, becomes tx_current, is idle and loses its mark; every other task stays as
      it is. */
  lemma PoppedIs(s: LoopState, t: Task)
    requires Inv(s) && s.taskq in s.fam.lists && t in s.tasks && OnQueue(s, t)
    ensures var r := Pop(s, t);
            && r.current == t && r.ran == s.ran + [t] && t !in r.fam.at
            && r.tasks == s.tasks[t := s.tasks[t].(idle := true, busy := false, pending := false, mark := false)]
            && r.taskq in r.fam.lists && Queue(r) == Minus(Queue(s), t)
  {
    InvAgrees(s);
    hide Inv, WellFormed, Minus;
  }

  /** The task has been told: unless the loop is stopped it is on the run queue, to be run, and so is whatever was to
      run before. */
  ghost predicate Told(l: LoopState, m: LoopState, task: OptTask) {
    StillBusy(l, m) && (!l.stop && task != null ==> Queued(m, task) && OnQueue(m, task))
  }

  /** tx_task_active tells its task, whatever list that was on. */
  lemma ActivationTells(l: LoopState, task: OptTask, reason: object?)
    requires Inv(l) && l.taskq in l.fam.lists && (task != null ==> task in l.tasks)
    ensures Told(l, Activated(l, task, reason), task)
  {
    hide Inv, ActivateTask, OnQueue, StillBusy, Queued;
    ActivatedQueues(l, task, reason);
    StepKeeps(l, Active(task, reason));
    var m := Activated(l, task, reason);
    if task != null && Queued(m, task) { QueuedOnQueue(m, task); }
  }

  // ---------------------------------------------------------------- marks

  ghost predicate Marked(s: LoopState, t: Task) { t in s.tasks && s.tasks[t].mark }

  /** No call but tx_task_mark sets a mark, and none takes one. */
  lemma StepMarks(s: LoopState, op: Op, t: Task)
    requires s.taskq in s.fam.lists && Legal(s, op) && t in s.tasks
    ensures Marked(Step(s, op), t) <==> Marked(s, t) || op == Op.Mark(t)
  {
    hide Unlinked, Appended, Pushed, Cleared, WakeAll, ActivateTask, DropTask;
    match op
    case Active(u, reason) => if u != null { ActivateMarks(s, u, reason, t); }
    case Drop(u) => if u != null { DropMarks(s, u, t); }
    case Record(_, u) => DropMarks(s, u, t);
    case Wakeup(w, reason) => WakeMarks(s, s.fam.lists[w], reason, t);
    case _ =>
  }

  lemma DropMarks(s: LoopState, u: Task, t: Task)
    requires s.taskq in s.fam.lists && u in s.tasks
    ensures Marked(DropTask(s, u), t) <==> Marked(s, t)
  {
    hide Unlinked;
  }

  lemma ActivateMarks(s: LoopState, u: Task, reason: object?, t: Task)
    requires s.taskq in s.fam.lists && u in s.tasks
    ensures Marked(ActivateTask(s, u, reason), t) <==> Marked(s, t)
  {
    hide DropTask, Appended;
    DropMarks(s, u, t);
  }

  lemma {:induction false} WakeMarks(s: LoopState, todo: seq<Task>, reason: object?, t: Task)
    requires s.taskq in s.fam.lists && (forall u :: u in todo ==> u in s.tasks) && t in s.tasks
    ensures Marked(WakeAll(s, todo, reason), t) <==> Marked(s, t)
    decreases |todo|
  {
    if todo != [] {
      hide ActivateTask;
      var c := s.(tasks := s.tasks[todo[0] := s.tasks[todo[0]].(pending := false)]);
      ActivateMarks(c, todo[0], reason, t);
      WakeMarks(ActivateTask(c, todo[0], reason), todo[1..], reason, t);
    }
  }

  lemma {:induction false} CallbackMarks(s: LoopState, ops: seq<Op>, t: Task)
    requires s.taskq in s.fam.lists && LegalAll(s, ops) && t in s.tasks
    ensures Marked(StepAll(s, ops), t) <==> Marked(s, t) || Op.Mark(t) in ops
    decreases |ops|
  {
    hide Step;
    if ops != [] {
      StepMarks(s, ops[0], t);
      CallbackMarks(Step(s, ops[0]), ops[1..], t);
    }
  }

  /** A mark lasts until its task is run: running it clears the mark before the callback, and nothing else does. */
  lemma TurnMarks(s: LoopState, ops: seq<Op>, t: Task)
    requires Inv(s) && InMain(s) && LegalTurn(s, ops) && t in s.tasks && (!s.stop || s.first) && Queue(s)[0] != s.phony
    ensures Marked(Turn(s, ops), t) <==> (Marked(s, t) && Queue(s)[0] != t) || Op.Mark(t) in ops
  {
    NeverTailer(s);
    PoppedIs(s, Queue(s)[0]);
    hide Inv, Pop, LegalAll;
    CallbackMarks(Pop(s, Queue(s)[0]), ops, t);
  }

  // ---------------------------------------------------------------- who waits

  /** Whoever waits on a queue waited before. */
  ghost predicate NoNewWaiters(l: LoopState, m: LoopState) {
    m.stop == l.stop && m.tasks.Keys == l.tasks.Keys && forall t :: t in m.tasks && m.tasks[t].pending ==> t in l.tasks && l.tasks[t].pending
  }

  lemma ActivatedWaiters(l: LoopState, task: OptTask, reason: object?)
    requires l.taskq in l.fam.lists && (task != null ==> task in l.tasks)
    ensures NoNewWaiters(l, Activated(l, task, reason))
  {
    hide Unlinked, Appended;
  }

  /** A poller that does not wait on a queue is on the run queue after tx_poll_active, unless the loop is stopped. */
  lemma PollerQueued(l: LoopState, m: LoopState, t: Task)
    requires l.taskq in l.fam.lists && t in l.tasks && m == PollActivate(l, t) && Inv(m) && !l.stop && !l.tasks[t].pending
    ensures t in m.tasks && OnQueue(m, t)
  {
    InvAgrees(m);
    hide Inv, WellFormed, Appended;
  }
}
