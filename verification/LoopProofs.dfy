/** What every operation and every iteration of the run queue keeps. */
module LoopProofs {
  import opened IntrusiveList
  import opened LoopModel

  /** The part of q behind the first p. */
  function Behind(q: seq<Task>, p: OptTask): (r: seq<Task>)
    ensures forall x :: x in r ==> x in q
  {
    if q == [] then [] else if q[0] == p then q[1..] else Behind(q[1..], p)
  }

  lemma {:induction false} BehindMinus(q: seq<Task>, p: OptTask, x: Task)
    requires x != p
    ensures Behind(Minus(q, x), p) == Minus(Behind(q, p), x)
  {
    if q != [] {
      BehindMinus(q[1..], p, x);
    }
  }

  lemma {:induction false} BehindBeforeLast(q: seq<Task>, p: OptTask, t: Task)
    requires p in q && q[|q| - 1] != p && t != p
    ensures Behind(q, p) != [] && Behind(BeforeLast(q, t), p) == BeforeLast(Behind(q, p), t)
  {
    var r := BeforeLast(q, t);
    assert r[0] == q[0] && r[1..] == BeforeLast(q[1..], t);
    if q[0] != p {
      BehindBeforeLast(q[1..], p, t);
    }
  }

  // ---------------------------------------------------------------- the invariant

  /** Every element is on one list; the run queue ends in the tailer. */
  ghost predicate Shape(s: LoopState) {
    && s.taskq in s.fam.lists
    && WellFormed(s.fam)
    && Queue(s) != [] && Queue(s)[|Queue(s)| - 1] == s.tailer
    && (forall h :: h in s.fam.lists ==> h !in s.tasks)
    && s.tailer !in s.tasks && s.tailer != s.phony
    && (s.phony != null ==> s.phony !in s.tasks && OnQueue(s, s.phony))
    && (forall x :: x in s.fam.at ==> x in s.tasks || x == s.tailer || x == s.phony)
  }

  /** IDLE says the task is on no list, BUSY that it is on the run queue, PENDING that it waits. */
  ghost predicate Agree(s: LoopState) {
    forall t :: t in s.tasks ==>
      && (s.tasks[t].idle <==> t !in s.fam.at)
      && (s.tasks[t].busy ==> OnQueue(s, t))
      && (s.tasks[t].pending <==> t in s.fam.at && !OnQueue(s, t))
  }

  /** A busy task is remembered in one of the two low bits of tx_busy, one behind the phony node
      in the lowest. */
  ghost predicate Remembered(s: LoopState)
    requires s.taskq in s.fam.lists
  {
    forall t :: t in s.tasks && s.tasks[t].busy ==>
      && LastTwoRounds(s.busy)
      && (s.phony != null && t in Behind(Queue(s), s.phony) ==> ThisRound(s.busy))
  }

  ghost function BusyTasks(s: LoopState): set<Task> {
    set t | t in s.tasks && s.tasks[t].busy
  }

  /** Every insertion into the run queue is accounted for by exactly one run, one removal or the
      presence of the task on the queue. */
  ghost predicate Conserved(s: LoopState) {
    forall t :: t in s.tasks ==>
      s.queued[t] == multiset(s.ran)[t] + s.removed[t] + if OnQueue(s, t) then 1 else 0
  }

  ghost predicate Inv(s: LoopState) {
    && Shape(s) && Agree(s) && Remembered(s) && Conserved(s)
    && s.actives >= |BusyTasks(s)|
  }

  // ---------------------------------------------------------------- the operations keep it

  lemma UnlinkShape(s: LoopState, t: Task)
    requires Shape(s) && t in s.tasks
    ensures Shape(Unlink(s, t))
  {
    hide WellFormed, Minus;
    UnlinkedWellFormed(s.fam, t);
    MinusLast(Queue(s), t);
  }

  lemma DropShape(s: LoopState, t: Task)
    requires Shape(s) && t in s.tasks
    ensures Shape(DropTask(s, t))
  {
    UnlinkShape(s, t);
    hide WellFormed;
  }

  lemma DropAgrees(s: LoopState, t: Task)
    requires s.taskq in s.fam.lists && Agree(s) && t in s.tasks
    ensures Agree(DropTask(s, t))
  {
    hide Minus;
  }

  lemma DropRemembers(s: LoopState, t: Task)
    requires s.taskq in s.fam.lists && Remembered(s) && t in s.tasks && t != s.phony
    ensures Remembered(DropTask(s, t))
  {
    hide Behind, Minus, ThisRound, LastTwoRounds;
    if s.phony != null && OnQueue(s, t) {
      BehindMinus(Queue(s), s.phony, t);
    }
  }

  lemma DropConserves(s: LoopState, t: Task)
    requires s.taskq in s.fam.lists && Conserved(s) && t in s.tasks
    ensures Conserved(DropTask(s, t))
  {
    hide Minus;
  }

  lemma DropClears(s: LoopState, t: Task)
    requires s.taskq in s.fam.lists && Agree(s) && t in s.tasks
    ensures var r := DropTask(s, t);
            && r.tasks[t].idle && !r.tasks[t].busy && !r.tasks[t].pending && t !in r.fam.at
            && r.actives == s.actives && BusyTasks(r) == BusyTasks(s) - {t}
  {
    hide Minus;
    var r := DropTask(s, t);
    assert forall u :: u in r.tasks ==> u in s.tasks && r.tasks[u].busy == (s.tasks[u].busy && u != t);
  }

  lemma DropKeeps(s: LoopState, t: Task)
    requires Inv(s) && t in s.tasks
    ensures Inv(DropTask(s, t))
  {
    InvParts(s);
    hide Inv, Shape, Agree, Remembered, Conserved, BusyTasks, DropTask;
    DropShape(s, t);
    DropAgrees(s, t);
    DropRemembers(s, t);
    DropConserves(s, t);
    DropClears(s, t);
    InvWhole(DropTask(s, t));
  }

  lemma InvParts(s: LoopState)
    requires Inv(s)
    ensures s.taskq in s.fam.lists && Shape(s) && Agree(s) && Remembered(s) && Conserved(s)
    ensures s.actives >= |BusyTasks(s)|
    ensures forall t :: t in s.tasks ==> t != s.phony && t != s.tailer && t !in s.fam.lists
  {
  }

  lemma InvWhole(s: LoopState)
    requires s.taskq in s.fam.lists && Shape(s) && Agree(s) && Remembered(s) && Conserved(s)
    requires s.actives >= |BusyTasks(s)|
    ensures Inv(s)
  {
  }

  lemma QueueDistinct(s: LoopState)
    requires Shape(s)
    ensures Distinct(Queue(s)) && forall x :: x in Queue(s) ==> OnQueue(s, x)
    ensures s.phony != null ==> s.phony in Queue(s) && s.tailer != s.phony
  {
  }

  lemma AppendShape(s: LoopState, t: Task)
    requires Shape(s) && t !in s.fam.at && t !in s.fam.lists && (t in s.tasks || t == s.phony)
    ensures Shape(Append(s, t))
  {
    hide WellFormed, BeforeLast;
    AppendedWellFormed(s.fam, s.taskq, t);
    QueueDistinct(s);
    BeforeLastFacts(Queue(s), t);
  }

  lemma JoinShape(s: LoopState, t: Task, f: TaskFields)
    requires Shape(s) && t in s.tasks && t !in s.fam.at
    ensures Shape(Join(s, t, f))
  {
    AppendShape(s, t);
    hide WellFormed, BeforeLast;
  }

  lemma JoinAgrees(s: LoopState, t: Task, f: TaskFields)
    requires s.taskq in s.fam.lists && Agree(s) && t in s.tasks && !f.idle && !f.pending
    ensures Agree(Join(s, t, f))
  {
    hide BeforeLast;
  }

  lemma BitSet(b: nat)
    ensures ThisRound(Noted(b)) && LastTwoRounds(Noted(b))
  {
    var q, r := b / 4, b % 4;
    assert b == 4 * q + r;
    if r == 0 || r == 2 {
      assert b == 2 * (2 * q + r / 2) && Noted(b) == 4 * q + (r + 1);
    } else {
      assert b == 2 * (2 * q + r / 2) + 1 && Noted(b) == 4 * q + r;
    }
  }

  /** A task that joins the queue stands behind the phony node. */
  lemma JoinRemembers(s: LoopState, t: Task, f: TaskFields)
    requires Shape(s) && Remembered(s) && t in s.tasks
    ensures Remembered(Join(s, t, f))
  {
    hide WellFormed, BeforeLast, Behind, ThisRound, LastTwoRounds, Noted;
    BitSet(s.busy);
    if s.phony != null {
      QueueDistinct(s);
      BehindBeforeLast(Queue(s), s.phony, t);
      BeforeLastMembers(Behind(Queue(s), s.phony), t);
    }
  }

  lemma BeforeLastMembers<T>(q: seq<T>, t: T)
    ensures forall x :: x in BeforeLast(q, t) ==> x in q || x == t
  {
  }

  lemma JoinConserves(s: LoopState, t: Task, f: TaskFields)
    requires s.taskq in s.fam.lists && Conserved(s) && t in s.tasks && t !in s.fam.at
    ensures Conserved(Join(s, t, f))
  {
    hide BeforeLast;
  }

  lemma JoinBusy(s: LoopState, t: Task, f: TaskFields)
    requires s.taskq in s.fam.lists && t in s.tasks && !s.tasks[t].busy
    ensures BusyTasks(Join(s, t, f)) == if f.busy then BusyTasks(s) + {t} else BusyTasks(s)
    ensures Join(s, t, f).actives == s.actives + if f.busy then 1 else 0
    ensures t !in BusyTasks(s)
  {
    hide Appended;
  }

  lemma JoinCounts(s: LoopState, t: Task, f: TaskFields)
    requires s.taskq in s.fam.lists && t in s.tasks && !s.tasks[t].busy && s.actives >= |BusyTasks(s)|
    ensures Join(s, t, f).actives >= |BusyTasks(Join(s, t, f))|
  {
    hide Join, BusyTasks;
    JoinBusy(s, t, f);
  }

  /** Joining the run queue, for tx_task_active (busy) and tx_poll_active (not busy) alike. */
  lemma JoinKeeps(s: LoopState, t: Task, f: TaskFields)
    requires Inv(s) && t in s.tasks && s.tasks[t].idle && !f.idle && !f.pending
    ensures Inv(Join(s, t, f))
  {
    InvParts(s);
    assert t !in s.fam.at && !s.tasks[t].busy;
    hide Inv, Shape, Agree, Remembered, Conserved, Join, BusyTasks, OnQueue;
    JoinShape(s, t, f);
    JoinAgrees(s, t, f);
    JoinRemembers(s, t, f);
    JoinConserves(s, t, f);
    JoinCounts(s, t, f);
    InvWhole(Join(s, t, f));
  }

  lemma ActivateKeeps(s: LoopState, t: Task, reason: object?)
    requires Inv(s) && t in s.tasks
    ensures Inv(ActivateTask(s, t, reason))
  {
    InvParts(s);
    hide Inv, Shape, Agree, Remembered, Conserved, BusyTasks, Join, DropTask;
    if !s.stop && !s.tasks[t].busy {
      var d := DropTask(s, t);
      DropKeeps(s, t);
      DropClears(s, t);
      JoinKeeps(d, t, d.tasks[t].(idle := false, busy := true, reason := reason));
    }
  }

  lemma PollActivateKeeps(s: LoopState, t: Task)
    requires Inv(s) && t in s.tasks
    ensures Inv(PollActivate(s, t))
  {
    hide Shape, Remembered, Conserved, BusyTasks, Join;
    if !s.stop && s.tasks[t].idle {
      JoinKeeps(s, t, s.tasks[t].(idle := false));
    }
  }

  // ---------------------------------------------------------------- tx_task_record

  lemma WaitShape(d: LoopState, w: Task, t: Task)
    requires Shape(d) && w in d.fam.lists && w != d.taskq && t in d.tasks && t !in d.fam.at
    ensures Shape(PutWaiting(d, w, t))
  {
    hide WellFormed;
    var r := PutWaiting(d, w, t);
    PushedWellFormed(d.fam, w, t);
    assert Queue(r) == Queue(d);
    assert forall x :: x in r.fam.at ==> x in d.fam.at || x == t;
  }

  lemma WaitAgrees(d: LoopState, w: Task, t: Task)
    requires w in d.fam.lists && w != d.taskq && t in d.tasks && t !in d.fam.at && !d.tasks[t].busy
    requires Agree(d)
    ensures Agree(PutWaiting(d, w, t))
  {
    hide Pushed;
    assert PutWaiting(d, w, t).fam.at == d.fam.at[t := w] by { PushedAt(d.fam, w, t); }
  }

  lemma PushedAt(f: Family<TaskFields>, w: Task, t: Task)
    requires w in f.lists
    ensures Pushed(f, w, t).at == f.at[t := w]
  {
  }

  lemma WaitRemembers(d: LoopState, w: Task, t: Task)
    requires d.taskq in d.fam.lists && w in d.fam.lists && w != d.taskq && t in d.tasks && Remembered(d)
    ensures Remembered(PutWaiting(d, w, t))
  {
    hide Behind;
    assert Queue(PutWaiting(d, w, t)) == Queue(d);
  }

  lemma WaitConserves(d: LoopState, w: Task, t: Task)
    requires w in d.fam.lists && w != d.taskq && t in d.tasks && t !in d.fam.at && Conserved(d)
    ensures Conserved(PutWaiting(d, w, t))
  {
  }

  lemma WaitCounts(d: LoopState, w: Task, t: Task)
    requires w in d.fam.lists && t in d.tasks
    ensures BusyTasks(PutWaiting(d, w, t)) == BusyTasks(d) && PutWaiting(d, w, t).actives == d.actives
  {
  }

  lemma RecordKeeps(s: LoopState, w: Task, t: Task)
    requires Inv(s) && w in s.fam.lists && w != s.taskq && t in s.tasks
    ensures Inv(RecordTask(s, w, t))
  {
    InvParts(s);
    var d := DropTask(s, t);
    DropKeeps(s, t);
    DropClears(s, t);
    InvParts(d);
    assert !d.tasks[t].busy;
    hide Inv, Shape, Agree, Remembered, Conserved, BusyTasks, DropTask;
    WaitShape(d, w, t);
    WaitAgrees(d, w, t);
    WaitRemembers(d, w, t);
    WaitConserves(d, w, t);
    WaitCounts(d, w, t);
    InvWhole(PutWaiting(d, w, t));
  }

  // ---------------------------------------------------------------- tx_task_wakeup

  function NotPending(s: LoopState, t: Task): LoopState
    requires t in s.tasks
  {
    s.(tasks := s.tasks[t := s.tasks[t].(pending := false)])
  }

  lemma DropUnsettled(s: LoopState, t: Task)
    requires s.taskq in s.fam.lists && t in s.tasks && !s.tasks[t].idle
    ensures DropTask(NotPending(s, t), t) == DropTask(s, t)
  {
    hide Unlinked;
    assert DropTask(NotPending(s, t), t).tasks == DropTask(s, t).tasks;
  }

  /** Clearing PENDING first makes no difference to tx_task_active. */
  lemma WakeOne(s: LoopState, t: Task, reason: object?)
    requires s.taskq in s.fam.lists && t in s.tasks && !s.stop && !s.tasks[t].busy && !s.tasks[t].idle
    ensures ActivateTask(NotPending(s, t), t, reason) == ActivateTask(s, t, reason)
  {
    DropUnsettled(s, t);
    hide DropTask, Join;
  }

  lemma WaitersAre(s: LoopState, w: Task, t: Task)
    requires Inv(s) && w in s.fam.lists && w != s.taskq && t in s.fam.lists[w]
    ensures t in s.fam.at && s.fam.at[t] == w && t in s.tasks
    ensures !s.tasks[t].busy && !s.tasks[t].idle && s.tasks[t].pending
  {
    hide Remembered, Conserved, BusyTasks, Distinct;
  }

  /** A waiting task moves to the end of the run queue. */
  lemma WakeMoves(s: LoopState, w: Task, t: Task, reason: object?)
    requires s.taskq in s.fam.lists && w in s.fam.lists && w != s.taskq && !s.stop
    requires t in s.tasks && !s.tasks[t].busy && !s.tasks[t].idle && t in s.fam.at && s.fam.at[t] == w
    ensures var r := ActivateTask(s, t, reason);
            && Queue(r) == BeforeLast(Queue(s), t)
            && r.fam.lists == s.fam.lists[w := Minus(s.fam.lists[w], t)][s.taskq := BeforeLast(Queue(s), t)]
            && r.tasks == s.tasks[t := TaskFields(false, true, false, s.tasks[t].mark, reason)]
            && r.actives == s.actives + 1 && r.removed == s.removed && r.queued == s.queued + multiset{t}
  {
    hide Minus, BeforeLast;
  }

  /** The run queue with the tasks `ts` inserted in front of the tailer. */
  function WithTail<T>(q: seq<T>, ts: seq<T>): seq<T>
    requires q != []
  {
    q[..|q| - 1] + ts + q[|q| - 1..]
  }

  lemma WithTailStep<T>(q: seq<T>, t: T, ts: seq<T>)
    requires q != []
    ensures BeforeLast(q, t) != [] && WithTail(BeforeLast(q, t), ts) == WithTail(q, [t] + ts)
  {
    var b := BeforeLast(q, t);
    assert b[..|b| - 1] == q[..|q| - 1] + [t] && b[|b| - 1..] == q[|q| - 1..];
  }

  /** tx_task_wakeup is a list move: the waiting tasks go to the end of the run queue in list order,
      all busy, and tx_actives grows by their number. */
  ghost predicate Moved(s: LoopState, w: Task, ts: seq<Task>, reason: object?, r: LoopState)
    requires s.taskq in s.fam.lists && w in s.fam.lists && Queue(s) != []
  {
    && r.fam.lists == s.fam.lists[w := []][s.taskq := WithTail(Queue(s), ts)]
    && r.tasks.Keys == s.tasks.Keys
    && (forall t :: t in s.tasks ==>
          r.tasks[t] == if t in ts then TaskFields(false, true, false, s.tasks[t].mark, reason) else s.tasks[t])
    && r.actives == s.actives + |ts|
    && r.removed == s.removed && r.queued == s.queued + multiset(ts)
  }

  lemma WakeStep(s: LoopState, w: Task, ts: seq<Task>, reason: object?)
    requires Inv(s) && !s.stop && w in s.fam.lists && w != s.taskq && s.fam.lists[w] == ts && ts != []
    ensures var t, rest := ts[0], ts[1..];
            && t in s.tasks && t !in rest
            && var a := ActivateTask(s, t, reason);
            && Inv(a) && a.fam.lists == s.fam.lists[w := rest][s.taskq := BeforeLast(Queue(s), t)]
            && a.tasks == s.tasks[t := TaskFields(false, true, false, s.tasks[t].mark, reason)]
            && a.actives == s.actives + 1 && a.removed == s.removed && a.queued == s.queued + multiset{t}
            && ActivateTask(NotPending(s, t), t, reason) == a
  {
    var t := ts[0];
    assert t in ts;
    WaitersAre(s, w, t);
    InvParts(s);
    WaitDistinct(s, w);
    MinusHead(ts);
    hide Inv, Shape, Agree, Remembered, Conserved, BusyTasks, ActivateTask, BeforeLast, Minus;
    WakeOne(s, t, reason);
    WakeMoves(s, w, t, reason);
    ActivateKeeps(s, t, reason);
  }

  lemma {:induction false} WakeAllMoves(s: LoopState, w: Task, ts: seq<Task>, reason: object?)
    requires Inv(s) && !s.stop && w in s.fam.lists && w != s.taskq && s.fam.lists[w] == ts
    requires forall t :: t in ts ==> t in s.tasks
    ensures Queue(s) != [] && Inv(WakeAll(s, ts, reason)) && Moved(s, w, ts, reason, WakeAll(s, ts, reason))
    decreases |ts|
  {
    hide Inv, Shape, Agree, Remembered, Conserved, BusyTasks, Moved, ActivateTask, WithTail, BeforeLast, Minus;
    QueueNonEmpty(s);
    if ts == [] {
      MovedNone(s, w, reason);
    } else {
      WakeStep(s, w, ts, reason);
      var t, rest := ts[0], ts[1..];
      var a := ActivateTask(s, t, reason);
      WakeAllMoves(a, w, rest, reason);
      MovedStep(s, w, t, rest, reason, a, WakeAll(a, rest, reason));
      assert ts == [t] + rest;
    }
  }

  lemma QueueNonEmpty(s: LoopState)
    requires Inv(s)
    ensures s.taskq in s.fam.lists && Queue(s) != []
  {
    hide WellFormed, Agree, Remembered, Conserved, BusyTasks;
  }

  lemma MovedNone(s: LoopState, w: Task, reason: object?)
    requires s.taskq in s.fam.lists && Queue(s) != [] && w in s.fam.lists && s.fam.lists[w] == []
    ensures Moved(s, w, [], reason, s)
  {
    assert WithTail(Queue(s), []) == Queue(s);
  }

  lemma MovedStep(s: LoopState, w: Task, t: Task, rest: seq<Task>, reason: object?, a: LoopState, r: LoopState)
    requires s.taskq in s.fam.lists && w in s.fam.lists && w != s.taskq && Queue(s) != []
    requires t in s.tasks && t !in rest && a.taskq == s.taskq
    requires a.fam.lists == s.fam.lists[w := rest][s.taskq := BeforeLast(Queue(s), t)]
    requires a.tasks == s.tasks[t := TaskFields(false, true, false, s.tasks[t].mark, reason)]
    requires a.actives == s.actives + 1 && a.removed == s.removed && a.queued == s.queued + multiset{t}
    requires Queue(a) != [] && Moved(a, w, rest, reason, r)
    ensures Moved(s, w, [t] + rest, reason, r)
  {
    WithTailStep(Queue(s), t, rest);
    hide WithTail, BeforeLast;
    assert r.fam.lists == s.fam.lists[w := []][s.taskq := WithTail(Queue(s), [t] + rest)];
  }

  lemma WaitDistinct(s: LoopState, w: Task)
    requires Shape(s) && w in s.fam.lists
    ensures Distinct(s.fam.lists[w])
  {
  }

  lemma MinusHead<T>(s: seq<T>)
    requires Distinct(s) && s != []
    ensures Minus(s, s[0]) == s[1..] && s[0] !in s[1..]
  {
    MinusAt(s, 0);
  }

  lemma MovedEmpties(s: LoopState, w: Task, ts: seq<Task>, reason: object?, r: LoopState)
    requires s.taskq in s.fam.lists && w in s.fam.lists && w != s.taskq && Queue(s) != []
    requires Moved(s, w, ts, reason, r)
    ensures w in r.fam.lists && r.fam.lists[w] == []
  {
  }

  lemma ClearedEmpty(f: Family<TaskFields>, w: Task)
    requires w in f.lists && f.lists[w] == []
    ensures Cleared(f, w) == f
  {
    assert f.lists[w := []] == f.lists;
    assert f.at - (set t | t in f.lists[w]) == f.at;
  }

  lemma WakeQueueMoves(s: LoopState, w: Task, reason: object?)
    requires Inv(s) && w in s.fam.lists && w != s.taskq && !s.stop
    requires forall t :: t in s.fam.lists[w] ==> t in s.tasks
    ensures Queue(s) != [] && Inv(WakeQueue(s, w, reason))
    ensures Moved(s, w, s.fam.lists[w], reason, WakeQueue(s, w, reason))
  {
    hide Inv, WakeAll, WithTail, Moved, Cleared;
    QueueNonEmpty(s);
    WakeAllMoves(s, w, s.fam.lists[w], reason);
    var r := WakeAll(s, s.fam.lists[w], reason);
    MovedEmpties(s, w, s.fam.lists[w], reason, r);
    ClearedEmpty(r.fam, w);
  }

  lemma WakeNone(s: LoopState, w: Task, reason: object?)
    requires s.taskq in s.fam.lists && w in s.fam.lists && w != s.taskq && s.fam.lists[w] == []
    ensures WakeQueue(s, w, reason) == s
  {
    ClearedEmpty(s.fam, w);
  }

  lemma {:induction false} StoppedWakeAll(s: LoopState, ts: seq<Task>, reason: object?)
    requires s.taskq in s.fam.lists && s.stop && forall t :: t in ts ==> t in s.tasks
    ensures var r := WakeAll(s, ts, reason);
            && r.fam == s.fam && forall t :: t in s.tasks ==> r.tasks[t].idle == s.tasks[t].idle
    decreases |ts|
  {
    if ts != [] {
      var c := s.(tasks := s.tasks[ts[0] := s.tasks[ts[0]].(pending := false)]);
      assert ActivateTask(c, ts[0], reason) == c;
      StoppedWakeAll(c, ts[1..], reason);
    }
  }

  /** Waking a queue keeps flags and lists in agreement exactly when the loop runs or nobody waits:
      on a stopped loop the waiters stay non-idle although the closing LIST_INIT unlinks them. */
  lemma WakeupAgreesIff(s: LoopState, w: Task, reason: object?)
    requires Inv(s) && w in s.fam.lists && w != s.taskq
    requires forall t :: t in s.fam.lists[w] ==> t in s.tasks
    ensures Agree(WakeQueue(s, w, reason)) <==> !s.stop || s.fam.lists[w] == []
  {
    var r := WakeQueue(s, w, reason);
    if !s.stop {
      WakeQueueMoves(s, w, reason);
      InvParts(r);
    } else {
      hide Remembered, Conserved, BusyTasks, Distinct;
      StoppedWakeAll(s, s.fam.lists[w], reason);
      if s.fam.lists[w] == [] {
        assert r.fam.at == s.fam.at;
      } else {
        var t := s.fam.lists[w][0];
        WaitersAre(s, w, t);
        assert !r.tasks[t].idle && t !in r.fam.at;
      }
    }
  }

  // ---------------------------------------------------------------- every operation

  ghost predicate SameFlags(s: LoopState, r: LoopState) {
    && r.tasks.Keys == s.tasks.Keys
    && forall t :: t in s.tasks ==>
         && r.tasks[t].idle == s.tasks[t].idle
         && r.tasks[t].busy == s.tasks[t].busy
         && r.tasks[t].pending == s.tasks[t].pending
  }

  lemma SameFlagsShape(s: LoopState, r: LoopState)
    requires Shape(s) && SameFlags(s, r)
    requires r.fam == s.fam && r.taskq == s.taskq && r.tailer == s.tailer && r.phony == s.phony
    ensures Shape(r)
  {
    hide WellFormed;
  }

  lemma SameFlagsRest(s: LoopState, r: LoopState)
    requires SameFlags(s, r) && s.taskq in s.fam.lists
    requires r.fam == s.fam && r.taskq == s.taskq && r.phony == s.phony && r.busy == s.busy
    ensures Agree(s) ==> Agree(r)
    ensures Remembered(s) ==> Remembered(r)
    ensures BusyTasks(r) == BusyTasks(s)
  {
    hide Behind;
  }

  lemma SameHistory(s: LoopState, r: LoopState)
    requires r.tasks.Keys == s.tasks.Keys && r.fam == s.fam && r.taskq == s.taskq
    requires r.queued == s.queued && r.ran == s.ran && r.removed == s.removed
    ensures Conserved(s) ==> Conserved(r)
  {
  }

  lemma MarkKeeps(s: LoopState, t: Task)
    requires Inv(s) && t in s.tasks
    ensures Inv(s.(tasks := s.tasks[t := s.tasks[t].(mark := true)]))
  {
    hide Inv, Shape, Agree, Remembered, Conserved, BusyTasks;
    var r := s.(tasks := s.tasks[t := s.tasks[t].(mark := true)]);
    InvParts(s);
    SameFlagsShape(s, r);
    SameFlagsRest(s, r);
    SameHistory(s, r);
    InvWhole(r);
  }

  /** The stop and break requests and the holder appear in no part of the invariant. */
  lemma RequestKeeps(s: LoopState, stop: bool, brk: bool, holder: object?)
    requires Inv(s)
    ensures Inv(s.(stop := stop, brk := brk, holder := holder))
  {
    hide WellFormed, Behind;
    assert BusyTasks(s.(stop := stop, brk := brk, holder := holder)) == BusyTasks(s);
  }

  lemma StepKeeps(s: LoopState, op: Op)
    requires Inv(s) && s.taskq in s.fam.lists && Legal(s, op)
    ensures Inv(Step(s, op))
  {
    hide Inv, ActivateTask, DropTask, RecordTask, PollActivate;
    match op
    case Active(t, reason) => if t != null { ActivateKeeps(s, t, reason); }
    case Drop(t) => if t != null { DropKeeps(s, t); }
    case Record(w, t) => RecordKeeps(s, w, t);
    case Wakeup(w, reason) =>
      if !s.stop {
        WakeQueueMoves(s, w, reason);
      } else {
        ClearedEmpty(s.fam, w);
        assert WakeQueue(s, w, reason) == s;
      }
    case PollActive(t) => PollActivateKeeps(s, t);
    case Mark(t) => MarkKeeps(s, t);
    case Stop => RequestKeeps(s, true, s.brk, s.holder);
    case Break => RequestKeeps(s, s.stop, true, s.holder);
    case Hold(h) => RequestKeeps(s, s.stop, s.brk, h);
  }

  lemma {:induction false} StepAllKeeps(s: LoopState, ops: seq<Op>)
    requires Inv(s) && s.taskq in s.fam.lists && LegalAll(s, ops)
    ensures Inv(StepAll(s, ops))
    decreases |ops|
  {
    hide Inv, Step;
    if ops != [] {
      StepKeeps(s, ops[0]);
      StepAllKeeps(Step(s, ops[0]), ops[1..]);
    }
  }
}
