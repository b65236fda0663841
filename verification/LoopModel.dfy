/** The run queue of tx_loop.cpp and tx_poll.cpp as a state machine on values.
    A state holds the family of all task lists; the run queue ends in the tailer and, while
    tx_loop_main is running, contains the phony node that separates two rounds. */
module LoopModel {
  import opened IntrusiveList

  datatype TaskFields = TaskFields(idle: bool, busy: bool, pending: bool, mark: bool, reason: object?)

  type Task = Link<TaskFields>
  type OptTask = Link?<TaskFields>

  const FRESH_TASK := TaskFields(true, false, false, false, null)

  datatype LoopState = LoopState(
    taskq: Task,                       // head of the run queue
    tailer: Task,                      // sentinel closing the run queue
    phony: OptTask,                      // round marker; null outside tx_loop_main
    first: bool,                       // the local first_run of tx_loop_main
    fam: Family<TaskFields>,           // the run queue and every wait queue
    tasks: map<Task, TaskFields>,      // every initialised task
    busy: nat,
    actives: int,
    stop: bool,
    brk: bool,
    upcount: int,
    holder: object?,
    current: OptTask,
    queued: multiset<Task>,            // history: insertions into the run queue
    ran: seq<Task>,                    // history: callbacks run, in order
    removed: multiset<Task>)           // history: departures from the run queue other than to run

  // tx_busy, as the number its 32 bits spell: the lowest bit stands for the current round and all
  // bits move up when the round ends.

  /** tx_busy |= 1 */
  function Noted(b: nat): nat { if b % 2 == 0 then b + 1 else b }

  /** tx_busy <<= 1 */
  function Aged(b: nat): nat { 2 * b % 0x1_0000_0000 }

  /** tx_busy & 0x01 */
  predicate ThisRound(b: nat) { b % 2 != 0 }

  /** tx_busy & 0x3 */
  predicate LastTwoRounds(b: nat) { b % 4 != 0 }

  /** The run queue, tailer and phony included. */
  function Queue(s: LoopState): seq<Task>
    requires s.taskq in s.fam.lists
  {
    s.fam.lists[s.taskq]
  }

  /** What no operation of a callback changes. */
  ghost predicate Framed(s: LoopState, r: LoopState) {
    && r.fam.lists.Keys == s.fam.lists.Keys && r.tasks.Keys == s.tasks.Keys
    && r.taskq == s.taskq && r.tailer == s.tailer && r.phony == s.phony && r.first == s.first
    && r.ran == s.ran && r.upcount == s.upcount && r.current == s.current
  }

  /** What no operation on tasks changes. */
  ghost predicate Kept(s: LoopState, r: LoopState) {
    Framed(s, r) && r.holder == s.holder
  }

  // ---------------------------------------------------------------- operations

  datatype Op =
    | Active(target: OptTask, reason: object?)
    | Drop(target: OptTask)
    | Record(waitq: Task, task: Task)
    | Wakeup(waitq: Task, reason: object?)
    | PollActive(task: Task)
    | Mark(task: Task)
    | Stop
    | Break
    | Hold(holder: object?)            // a poller writes tx_holder

  predicate OnQueue(s: LoopState, t: Task) {
    t in s.fam.at && s.fam.at[t] == s.taskq
  }

  function Unlink(s: LoopState, t: Task): (r: LoopState)
    ensures Kept(s, r) && r.stop == s.stop && r.brk == s.brk
  {
    s.(fam := Unlinked(s.fam, t))
  }

  /** LIST_INSERT_BEFORE(&up->tx_tailer, t): the tailer is the last element of the run queue. */
  function Append(s: LoopState, t: Task): (r: LoopState)
    requires s.taskq in s.fam.lists
    ensures Kept(s, r) && r.stop == s.stop && r.brk == s.brk
  {
    s.(fam := Appended(s.fam, s.taskq, t))
  }

  /** tx_task_drop on a task that is not NULL. */
  function DropTask(s: LoopState, t: Task): (r: LoopState)
    requires s.taskq in s.fam.lists && t in s.tasks
    ensures Kept(s, r) && r.stop == s.stop && r.brk == s.brk
  {
    if s.tasks[t].idle then s
    else Unlink(s, t).(tasks := s.tasks[t := s.tasks[t].(pending := false, busy := false, idle := true)],
                       removed := if OnQueue(s, t) then s.removed + multiset{t} else s.removed)
  }

  /** An unlinked task joins the run queue with the flags f; a busy one is counted and remembered. */
  function Join(s: LoopState, t: Task, f: TaskFields): (r: LoopState)
    requires s.taskq in s.fam.lists && t in s.tasks
    ensures Kept(s, r) && r.stop == s.stop && r.brk == s.brk
  {
    Append(s, t).(tasks := s.tasks[t := f],
                  actives := if f.busy then s.actives + 1 else s.actives,
                  busy := if f.busy then Noted(s.busy) else s.busy,
                  queued := s.queued + multiset{t})
  }

  /** tx_task_active on a task that is not NULL. */
  function ActivateTask(s: LoopState, t: Task, reason: object?): (r: LoopState)
    requires s.taskq in s.fam.lists && t in s.tasks
    ensures Kept(s, r) && r.stop == s.stop && r.brk == s.brk
  {
    if s.stop || s.tasks[t].busy then s
    else
      var d := DropTask(s, t);
      Join(d, t, d.tasks[t].(idle := false, busy := true, reason := reason))
  }

  /** tx_task_active */
  function Activated(s: LoopState, t: OptTask, reason: object?): (r: LoopState)
    requires s.taskq in s.fam.lists && (t != null ==> t in s.tasks)
    ensures Kept(s, r) && r.stop == s.stop && r.brk == s.brk
  {
    if t == null then s else ActivateTask(s, t, reason)
  }

  /** An unlinked task joins a wait queue, most recent first. */
  function PutWaiting(s: LoopState, w: Task, t: Task): (r: LoopState)
    requires w in s.fam.lists && t in s.tasks
    ensures Kept(s, r)
  {
    s.(fam := Pushed(s.fam, w, t), tasks := s.tasks[t := s.tasks[t].(pending := true, idle := false)])
  }

  /** tx_task_record. */
  function RecordTask(s: LoopState, w: Task, t: Task): (r: LoopState)
    requires s.taskq in s.fam.lists && w in s.fam.lists && t in s.tasks
    ensures Kept(s, r)
  {
    PutWaiting(DropTask(s, t), w, t)
  }

  /** The loop of tx_task_wakeup over the elements that were on the wait queue at the call. */
  function WakeAll(s: LoopState, todo: seq<Task>, reason: object?): (r: LoopState)
    requires s.taskq in s.fam.lists && forall t :: t in todo ==> t in s.tasks
    ensures Kept(s, r) && r.stop == s.stop && r.brk == s.brk
    decreases |todo|
  {
    if todo == [] then s
    else
      var t := todo[0];
      var c := s.(tasks := s.tasks[t := s.tasks[t].(pending := false)]);
      WakeAll(ActivateTask(c, t, reason), todo[1..], reason)
  }

  /** tx_task_wakeup; the closing LIST_INIT empties the wait queue whatever the loop did. */
  function WakeQueue(s: LoopState, w: Task, reason: object?): (r: LoopState)
    requires s.taskq in s.fam.lists && w in s.fam.lists && w != s.taskq
    requires forall t :: t in s.fam.lists[w] ==> t in s.tasks
    ensures Kept(s, r)
  {
    var r := WakeAll(s, s.fam.lists[w], reason);
    r.(fam := Cleared(r.fam, w))
  }

  /** tx_poll_active: the task joins the run queue without BUSY and without touching the counters. */
  function PollActivate(s: LoopState, t: Task): (r: LoopState)
    requires s.taskq in s.fam.lists && t in s.tasks
    ensures Kept(s, r)
  {
    if s.stop || !s.tasks[t].idle then s
    else Join(s, t, s.tasks[t].(idle := false))
  }

  /** What a caller of the library must respect: tasks are initialised and queues exist.
      Waking a non-empty wait queue of a stopped loop is excluded; see WakeupAgreesIff. */
  ghost predicate Legal(s: LoopState, op: Op)
    requires s.taskq in s.fam.lists
  {
    match op
    case Active(t, _) => t != null ==> t in s.tasks
    case Drop(t) => t != null ==> t in s.tasks
    case Record(w, t) => w in s.fam.lists && w != s.taskq && t in s.tasks
    case Wakeup(w, _) =>
      && w in s.fam.lists && w != s.taskq
      && (forall t :: t in s.fam.lists[w] ==> t in s.tasks)
      && (s.stop ==> s.fam.lists[w] == [])
    case PollActive(t) => t in s.tasks
    case Mark(t) => t in s.tasks
    case Stop => true
    case Break => true
    case Hold(_) => true
  }

  ghost function Step(s: LoopState, op: Op): (r: LoopState)
    requires s.taskq in s.fam.lists && Legal(s, op)
    ensures Framed(s, r) && (op.Hold? || r.holder == s.holder)
  {
    match op
    case Active(t, reason) => Activated(s, t, reason)
    case Drop(t) => if t == null then s else DropTask(s, t)
    case Record(w, t) => RecordTask(s, w, t)
    case Wakeup(w, reason) => WakeQueue(s, w, reason)
    case PollActive(t) => PollActivate(s, t)
    case Mark(t) => s.(tasks := s.tasks[t := s.tasks[t].(mark := true)])
    case Stop => s.(stop := true)
    case Break => s.(brk := true)
    case Hold(h) => s.(holder := h)
  }

  ghost predicate LegalAll(s: LoopState, ops: seq<Op>)
    requires s.taskq in s.fam.lists
    decreases |ops|
  {
    ops == [] || (Legal(s, ops[0]) && LegalAll(Step(s, ops[0]), ops[1..]))
  }

  /** A callback, or the code between two calls of tx_loop_main: any finite sequence of operations. */
  ghost function StepAll(s: LoopState, ops: seq<Op>): (r: LoopState)
    requires s.taskq in s.fam.lists && LegalAll(s, ops)
    ensures Framed(s, r) && ((forall op :: op in ops ==> !op.Hold?) ==> r.holder == s.holder)
    decreases |ops|
  {
    if ops == [] then s else StepAll(Step(s, ops[0]), ops[1..])
  }

  // ---------------------------------------------------------------- tx_loop_main

  /** Entry: a fresh phony node goes in front of the tailer. */
  function Enter(s: LoopState, phony: Task): LoopState
    requires s.taskq in s.fam.lists
  {
    Append(s, phony).(phony := phony, first := true)
  }

  /** Leaving: the phony node is unlinked. */
  function Leave(s: LoopState): LoopState
    requires s.phony != null
  {
    Unlink(s, s.phony).(phony := null)
  }

  /** The phony node reached the front: one round is over. */
  function EndRound(s: LoopState): LoopState
    requires s.taskq in s.fam.lists && s.phony != null
  {
    Append(Unlink(s, s.phony), s.phony)
      .(actives := if ThisRound(s.busy) then s.actives else 0,
        busy := Aged(s.busy),
        upcount := s.upcount + 1,
        first := false)
  }

  /** A task reached the front: it is unlinked and its flags are settled; its callback follows. */
  function Pop(s: LoopState, t: Task): LoopState
    requires s.taskq in s.fam.lists && t in s.tasks
  {
    var f := s.tasks[t];
    Unlink(s, t)
      .(tasks := s.tasks[t := f.(busy := false, idle := true, mark := false)],
        actives := if f.busy then s.actives - 1 else s.actives,
        current := t,
        ran := s.ran + [t])
  }

  ghost predicate InMain(s: LoopState) {
    && s.taskq in s.fam.lists
    && s.phony != null
    && Queue(s) != []
    && (Queue(s)[0] != s.phony ==> Queue(s)[0] in s.tasks)
  }

  ghost predicate LegalTurn(s: LoopState, ops: seq<Op>)
    requires InMain(s)
  {
    (!s.stop || s.first) && Queue(s)[0] != s.phony ==> LegalAll(Pop(s, Queue(s)[0]), ops)
  }

  /** One test of the loop condition and, when it holds, one iteration. `ops` is what the callback
      does when the iteration runs one. The state has no phony any more when the loop was left. */
  ghost function Turn(s: LoopState, ops: seq<Op>): (r: LoopState)
    requires InMain(s) && LegalTurn(s, ops)
    ensures r.taskq == s.taskq && r.tailer == s.tailer
    ensures (forall op :: op in ops ==> !op.Hold?) ==> r.holder == s.holder
    ensures r.tasks.Keys == s.tasks.Keys && r.fam.lists.Keys == s.fam.lists.Keys
  {
    if s.stop && !s.first then Leave(s) else
    if Queue(s)[0] == s.phony then
      var e := EndRound(s);
      if e.brk then Leave(e.(brk := false)) else e
    else StepAll(Pop(s, Queue(s)[0]), ops)
  }

  /** tx_loop_main from the loop on: the iterations with these callbacks, until it is left. */
  ghost predicate LegalMain(s: LoopState, turns: seq<seq<Op>>)
    decreases |turns|
  {
    turns == [] || s.phony == null ||
    (InMain(s) && LegalTurn(s, turns[0]) && LegalMain(Turn(s, turns[0]), turns[1..]))
  }

  ghost function MainFrom(s: LoopState, turns: seq<seq<Op>>): LoopState
    requires LegalMain(s, turns)
    decreases |turns|
  {
    if turns == [] || s.phony == null then s else MainFrom(Turn(s, turns[0]), turns[1..])
  }

  /** tx_loop_timeout. */
  function Timeout(s: LoopState, verify: object?): int {
    if LastTwoRounds(s.busy) && s.actives > 0 then 0
    else if s.brk then 0
    else if s.holder == null then 10000
    else if s.holder == verify then 10000
    else 0
  }

  // ---------------------------------------------------------------- whole runs

  datatype Event =
    | Api(op: Op)               // a call from outside tx_loop_main
    | Main(phony: Task)         // tx_loop_main is called
    | Iterate(ops: seq<Op>)     // one iteration of tx_loop_main

  ghost predicate Enabled(s: LoopState, e: Event)
    requires s.taskq in s.fam.lists
  {
    match e
    case Api(op) => s.phony == null && Legal(s, op)
    case Main(p) => s.phony == null && p !in s.fam.at && p !in s.fam.lists && p !in s.tasks
    case Iterate(ops) => InMain(s) && LegalTurn(s, ops)
  }

  ghost function Next(s: LoopState, e: Event): (r: LoopState)
    requires s.taskq in s.fam.lists && Enabled(s, e)
    ensures r.taskq in r.fam.lists
  {
    match e
    case Api(op) => Step(s, op)
    case Main(p) => Enter(s, p)
    case Iterate(ops) => Turn(s, ops)
  }

  ghost predicate Run(s: LoopState, es: seq<Event>, r: LoopState)
    requires s.taskq in s.fam.lists
    decreases |es|
  {
    if es == [] then r == s
    else Enabled(s, es[0]) && Run(Next(s, es[0]), es[1..], r)
  }

  /** tx_loop_new, plus the initialised tasks and wait queues the program will use. */
  ghost predicate Initial(s: LoopState) {
    && s.taskq in s.fam.lists && Queue(s) == [s.tailer] && s.fam.at == map[s.tailer := s.taskq]
    && (forall w :: w in s.fam.lists && w != s.taskq ==> s.fam.lists[w] == [])
    && s.tailer !in s.fam.lists && s.tailer !in s.tasks && s.phony == null
    && (forall t :: t in s.tasks ==> t !in s.fam.lists && s.tasks[t] == FRESH_TASK)
    && s.busy == 0 && s.actives == 0 && !s.stop && !s.brk
    && s.queued == multiset{} && s.ran == [] && s.removed == multiset{}
  }
}
