/** Rounds of tx_loop_main are finite, complete and in order. */
module RoundFairness {
  import opened IntrusiveList
  import opened LoopModel
  import opened LoopProofs
  import opened RoundProofs

  // ---------------------------------------------------------------- sequences

  /** The part of q ahead of the first p. */
  function Ahead(q: seq<Task>, p: OptTask): (r: seq<Task>)
    ensures forall x :: x in r ==> x in q && x != p
  {
    if q == [] || q[0] == p then [] else [q[0]] + Ahead(q[1..], p)
  }

  /** a is b with some elements left out. */
  ghost predicate Subsequence<T>(a: seq<T>, b: seq<T>) {
    a == [] || (b != [] && ((a[0] == b[0] && Subsequence(a[1..], b[1..])) || Subsequence(a, b[1..])))
  }

  lemma {:induction false} SubsequenceSelf<T>(a: seq<T>)
    ensures Subsequence(a, a)
  {
    if a != [] { SubsequenceSelf(a[1..]); }
  }

  lemma {:induction false} SubsequenceChain<T>(a: seq<T>, b: seq<T>, c: seq<T>)
    requires Subsequence(a, b) && Subsequence(b, c)
    ensures Subsequence(a, c)
  {
    if a != [] && b != [] {
      if b[0] == c[0] && Subsequence(b[1..], c[1..]) {
        if a[0] == b[0] && Subsequence(a[1..], b[1..]) {
          SubsequenceChain(a[1..], b[1..], c[1..]);
        } else {
          SubsequenceChain(a, b[1..], c[1..]);
        }
      } else {
        SubsequenceChain(a, b, c[1..]);
      }
    }
  }

  lemma {:induction false} SubsequenceLength<T>(a: seq<T>, b: seq<T>)
    requires Subsequence(a, b)
    ensures |a| <= |b|
  {
    if a != [] {
      if a[0] == b[0] && Subsequence(a[1..], b[1..]) {
        SubsequenceLength(a[1..], b[1..]);
      } else {
        SubsequenceLength(a, b[1..]);
      }
    }
  }

  lemma {:induction false} MinusSubsequence<T>(q: seq<T>, x: T)
    ensures Subsequence(Minus(q, x), q)
  {
    if q != [] {
      MinusSubsequence(q[1..], x);
    }
  }

  lemma {:induction false} AheadMinus(q: seq<Task>, p: OptTask, x: Task)
    requires x != p
    ensures Ahead(Minus(q, x), p) == Minus(Ahead(q, p), x)
  {
    if q != [] {
      AheadMinus(q[1..], p, x);
      if q[0] != p && q[0] != x {
        assert Minus(q, x)[1..] == Minus(q[1..], x);
        assert Ahead(q, p)[1..] == Ahead(q[1..], p);
      }
    }
  }

  lemma {:induction false} AheadSplice(q: seq<Task>, p: OptTask, n: nat, ts: seq<Task>)
    requires n <= |q| && p in q[..n]
    ensures Ahead(q[..n] + ts + q[n..], p) == Ahead(q, p)
  {
    var r := q[..n] + ts + q[n..];
    assert r[0] == q[0] == q[..n][0];
    if q[0] != p {
      assert r[1..] == q[1..][..n - 1] + ts + q[1..][n - 1..];
      assert q[..n] == [q[0]] + q[1..][..n - 1];
      AheadSplice(q[1..], p, n - 1, ts);
    }
  }

  lemma {:induction false} BehindSplice(q: seq<Task>, p: OptTask, n: nat, ts: seq<Task>)
    requires n <= |q| && p in q[..n]
    ensures forall y :: y in Behind(q, p) ==> y in Behind(q[..n] + ts + q[n..], p)
  {
    var r := q[..n] + ts + q[n..];
    assert r[0] == q[0] == q[..n][0];
    assert r[1..] == q[1..][..n - 1] + ts + q[1..][n - 1..];
    if q[0] != p {
      assert q[..n] == [q[0]] + q[1..][..n - 1];
      BehindSplice(q[1..], p, n - 1, ts);
    }
  }

  // ---------------------------------------------------------------- what one operation does to the queue

  /** An operation only removes entries of the run queue, noting each removal, or inserts entries in
      front of the tailer. */
  datatype Change = Same | Cut(x: Task) | Tail(ts: seq<Task>) | CutTail(x: Task)

  ghost predicate Changed(s: LoopState, c: Change, r: LoopState)
    requires s.taskq in s.fam.lists && r.taskq in r.fam.lists && Queue(s) != []
  {
    var q := Queue(s);
    match c
    case Same => Queue(r) == q && r.removed == s.removed
    case Cut(x) => x in s.tasks && Queue(r) == Minus(q, x) && r.removed == s.removed + multiset{x}
    case Tail(ts) => Queue(r) == WithTail(q, ts) && r.removed == s.removed
    case CutTail(x) => x in s.tasks && Queue(r) == BeforeLast(Minus(q, x), x) && r.removed == s.removed + multiset{x}
  }

  function ChangeOf(s: LoopState, op: Op): Change
    requires s.taskq in s.fam.lists
  {
    match op
    case Active(t, _) =>
      if t == null || t !in s.tasks || s.stop || s.tasks[t].busy then Same
      else if OnQueue(s, t) then CutTail(t) else Tail([t])
    case Drop(t) => if t != null && t in s.tasks && OnQueue(s, t) then Cut(t) else Same
    case Record(_, t) => if t in s.tasks && OnQueue(s, t) then Cut(t) else Same
    case Wakeup(w, _) => if s.stop || w !in s.fam.lists then Same else Tail(s.fam.lists[w])
    case PollActive(t) => if t !in s.tasks || s.stop || !s.tasks[t].idle then Same else Tail([t])
    case _ => Same
  }

  lemma DropChanges(s: LoopState, t: Task)
    requires s.taskq in s.fam.lists && t in s.tasks && (OnQueue(s, t) ==> !s.tasks[t].idle)
    ensures var r := DropTask(s, t);
            && Queue(r) == (if OnQueue(s, t) then Minus(Queue(s), t) else Queue(s))
            && r.removed == (if OnQueue(s, t) then s.removed + multiset{t} else s.removed)
  {
    hide Minus;
  }

  lemma TailOne(q: seq<Task>, t: Task)
    requires q != []
    ensures BeforeLast(q, t) == WithTail(q, [t])
  {
  }

  lemma NotIdleOnQueue(s: LoopState, t: Task)
    requires Agree(s) && t in s.tasks
    ensures OnQueue(s, t) ==> !s.tasks[t].idle
  {
  }

  lemma ActivateChanges(s: LoopState, t: Task, reason: object?)
    requires s.taskq in s.fam.lists && t in s.tasks && Agree(s) && Queue(s) != []
    requires !s.stop && !s.tasks[t].busy
    ensures Changed(s, if OnQueue(s, t) then CutTail(t) else Tail([t]), ActivateTask(s, t, reason))
  {
    hide Minus, BeforeLast, DropTask, WithTail, Agree;
    NotIdleOnQueue(s, t);
    DropChanges(s, t);
    TailOne(Queue(s), t);
  }

  lemma DropOpChanges(s: LoopState, t: Task)
    requires s.taskq in s.fam.lists && Agree(s) && Queue(s) != [] && t in s.tasks
    ensures Changed(s, if OnQueue(s, t) then Cut(t) else Same, DropTask(s, t))
  {
    NotIdleOnQueue(s, t);
    DropChanges(s, t);
  }

  lemma RecordOpChanges(s: LoopState, w: Task, t: Task)
    requires s.taskq in s.fam.lists && Agree(s) && Queue(s) != [] && t in s.tasks
    requires w in s.fam.lists && w != s.taskq
    ensures Changed(s, if OnQueue(s, t) then Cut(t) else Same, RecordTask(s, w, t))
  {
    DropOpChanges(s, t);
    hide DropTask, Agree, Minus;
  }

  lemma WakeOpChanges(s: LoopState, w: Task, reason: object?)
    requires Inv(s) && s.taskq in s.fam.lists && Legal(s, Wakeup(w, reason))
    ensures Queue(s) != [] && Changed(s, ChangeOf(s, Wakeup(w, reason)), WakeQueue(s, w, reason))
  {
    hide Inv, WakeQueue, WithTail;
    QueueNonEmpty(s);
    if !s.stop {
      WakeQueueMoves(s, w, reason);
    } else {
      WakeNone(s, w, reason);
    }
  }

  lemma PollOpChanges(s: LoopState, t: Task)
    requires s.taskq in s.fam.lists && Queue(s) != [] && t in s.tasks
    ensures Changed(s, ChangeOf(s, PollActive(t)), PollActivate(s, t))
  {
    hide BeforeLast, WithTail;
    TailOne(Queue(s), t);
  }

  lemma StepChanges(s: LoopState, op: Op)
    requires Inv(s) && s.taskq in s.fam.lists && Legal(s, op)
    ensures Queue(s) != [] && Changed(s, ChangeOf(s, op), Step(s, op))
  {
    hide Inv, Shape, Agree, Remembered, Conserved, BusyTasks, ActivateTask, DropTask, WakeAll, Minus, BeforeLast, WithTail;
    InvParts(s);
    QueueNonEmpty(s);
    match op
    case Active(t, reason) =>
      hide Changed;
      if t != null && !s.stop && !s.tasks[t].busy {
        ActivateChanges(s, t, reason);
      } else {
        ActivateSame(s, t, reason);
        UnchangedIs(s);
      }
    case Drop(t) =>
      hide Changed;
      if t != null { DropOpChanges(s, t); } else { UnchangedIs(s); }
    case Record(w, t) =>
      hide Changed, RecordTask;
      RecordOpChanges(s, w, t);
    case Wakeup(w, reason) =>
      hide Changed, WakeQueue;
      WakeOpChanges(s, w, reason);
    case PollActive(t) =>
      hide Changed, PollActivate;
      PollOpChanges(s, t);
    case _ =>
  }

  lemma UnchangedIs(s: LoopState)
    requires s.taskq in s.fam.lists && Queue(s) != []
    ensures Changed(s, Same, s)
  {
  }

  lemma ActivateSame(s: LoopState, t: OptTask, reason: object?)
    requires s.taskq in s.fam.lists && (t != null ==> t in s.tasks) && (t == null || s.stop || s.tasks[t].busy)
    ensures t != null ==> ActivateTask(s, t, reason) == s
  {
  }

  /** Nothing joins the part ahead of p, nothing there changes order, and what leaves was removed. */
  ghost predicate OnlyShrinks(a: seq<Task>, b: seq<Task>, was: multiset<Task>, now: multiset<Task>) {
    && Subsequence(b, a)
    && was <= now
    && forall t :: t in a && t !in b ==> was[t] < now[t]
  }

  lemma ShrinksChain(a: seq<Task>, b: seq<Task>, c: seq<Task>, u: multiset<Task>, v: multiset<Task>, w: multiset<Task>)
    requires OnlyShrinks(a, b, u, v) && OnlyShrinks(b, c, v, w)
    ensures OnlyShrinks(a, c, u, w)
  {
    SubsequenceChain(c, b, a);
    hide Subsequence;
  }

  lemma ShrinksByCut(a: seq<Task>, x: Task, u: multiset<Task>)
    ensures OnlyShrinks(a, Minus(a, x), u, u + multiset{x}) && OnlyShrinks(a, a, u, u)
  {
    MinusSubsequence(a, x);
    SubsequenceSelf(a);
    hide Subsequence, Minus;
  }

  lemma AheadTail(q: seq<Task>, p: OptTask, ts: seq<Task>)
    requires p in q && q[|q| - 1] != p
    ensures Ahead(WithTail(q, ts), p) == Ahead(q, p)
    ensures forall y :: y in Behind(q, p) ==> y in Behind(WithTail(q, ts), p)
  {
    var n := |q| - 1;
    assert p in q[..n];
    AheadSplice(q, p, n, ts);
    BehindSplice(q, p, n, ts);
  }

  /** Cutting keeps p inside the queue, and the last element last. */
  lemma CutInside(q: seq<Task>, p: OptTask, x: Task)
    requires p in q && q[|q| - 1] != p && x != p && x != q[|q| - 1]
    ensures p in Minus(q, x) && Minus(q, x) != [] && Minus(q, x)[|Minus(q, x)| - 1] != p
  {
    MinusLast(q, x);
    hide Minus;
  }

  lemma ChangeShrinks(s: LoopState, c: Change, r: LoopState, p: OptTask)
    requires s.taskq in s.fam.lists && r.taskq in r.fam.lists && Queue(s) != [] && Changed(s, c, r)
    requires p in Queue(s) && p !in s.tasks && Queue(s)[|Queue(s)| - 1] != p && Queue(s)[|Queue(s)| - 1] !in s.tasks
    ensures OnlyShrinks(Ahead(Queue(s), p), Ahead(Queue(r), p), s.removed, r.removed)
  {
    hide OnlyShrinks, Minus, WithTail, BeforeLast, Ahead, Behind;
    var q := Queue(s);
    match c
    case Same => ShrinksByCut(Ahead(q, p), q[0], s.removed);
    case Cut(x) =>
      AheadMinus(q, p, x);
      ShrinksByCut(Ahead(q, p), x, s.removed);
    case Tail(ts) =>
      AheadTail(q, p, ts);
      ShrinksByCut(Ahead(q, p), q[0], s.removed);
    case CutTail(x) =>
      CutInside(q, p, x);
      TailOne(Minus(q, x), x);
      AheadTail(Minus(q, x), p, [x]);
      AheadMinus(q, p, x);
      ShrinksByCut(Ahead(q, p), x, s.removed);
  }

  /** Two tasks keep their order unless one of them is removed. */
  ghost predicate InOrder(q: seq<Task>, x: Task, y: Task) {
    y in Behind(q, x)
  }

  lemma ChangeOrders(s: LoopState, c: Change, r: LoopState, x: Task, y: Task)
    requires s.taskq in s.fam.lists && r.taskq in r.fam.lists && Queue(s) != [] && Changed(s, c, r)
    requires x in Queue(s) && Queue(s)[|Queue(s)| - 1] != x && Queue(s)[|Queue(s)| - 1] !in s.tasks
    requires InOrder(Queue(s), x, y)
    ensures s.removed <= r.removed
    ensures InOrder(Queue(r), x, y) || s.removed[x] < r.removed[x] || s.removed[y] < r.removed[y]
  {
    hide Minus, WithTail, BeforeLast, Behind;
    var q := Queue(s);
    match c
    case Same =>
    case Cut(z) => if z != x && z != y { BehindMinus(q, x, z); }
    case Tail(ts) => AheadTail(q, x, ts);
    case CutTail(z) =>
      if z != x && z != y {
        CutInside(q, x, z);
        TailOne(Minus(q, z), z);
        BehindMinus(q, x, z);
        AheadTail(Minus(q, z), x, [z]);
      }
  }

  // ---------------------------------------------------------------- a callback

  lemma QueueFacts(s: LoopState)
    requires Inv(s)
    ensures s.taskq in s.fam.lists && Queue(s) != [] && Queue(s)[|Queue(s)| - 1] == s.tailer && s.tailer !in s.tasks
    ensures s.phony != null ==> s.phony in Queue(s) && s.phony !in s.tasks && s.phony != s.tailer
  {
    hide Agree, Remembered, Conserved, BusyTasks, Distinct;
  }

  lemma {:induction false} CallbackShrinks(s: LoopState, ops: seq<Op>)
    requires Inv(s) && s.phony != null && s.taskq in s.fam.lists && LegalAll(s, ops)
    ensures var r := StepAll(s, ops);
            OnlyShrinks(Ahead(Queue(s), s.phony), Ahead(Queue(r), s.phony), s.removed, r.removed)
    decreases |ops|
  {
    hide Inv, Step, OnlyShrinks, Ahead, Changed;
    QueueFacts(s);
    if ops == [] {
      ShrinksByCut(Ahead(Queue(s), s.phony), s.tailer, s.removed);
    } else {
      var m := Step(s, ops[0]);
      StepKeeps(s, ops[0]);
      StepChanges(s, ops[0]);
      ChangeShrinks(s, ChangeOf(s, ops[0]), m, s.phony);
      CallbackShrinks(m, ops[1..]);
      var r := StepAll(m, ops[1..]);
      ShrinksChain(Ahead(Queue(s), s.phony), Ahead(Queue(m), s.phony), Ahead(Queue(r), s.phony),
                   s.removed, m.removed, r.removed);
    }
  }

  lemma {:induction false} CallbackOrders(s: LoopState, ops: seq<Op>, x: Task, y: Task)
    requires Inv(s) && s.taskq in s.fam.lists && LegalAll(s, ops)
    requires x in s.tasks && InOrder(Queue(s), x, y)
    ensures var r := StepAll(s, ops);
            && s.removed <= r.removed
            && (InOrder(Queue(r), x, y) || s.removed[x] < r.removed[x] || s.removed[y] < r.removed[y])
    decreases |ops|
  {
    hide Inv, Step, InOrder, Changed;
    if ops != [] {
      QueueFacts(s);
      OrderedIsQueued(Queue(s), x, y);
      var m := Step(s, ops[0]);
      StepKeeps(s, ops[0]);
      StepChanges(s, ops[0]);
      ChangeOrders(s, ChangeOf(s, ops[0]), m, x, y);
      if InOrder(Queue(m), x, y) {
        CallbackOrders(m, ops[1..], x, y);
      } else {
        CallbackRemoves(m, ops[1..]);
      }
    }
  }

  lemma OrderedIsQueued(q: seq<Task>, x: Task, y: Task)
    requires InOrder(q, x, y)
    ensures x in q
  {
    if x !in q { NothingBehind(q, x); }
  }

  lemma {:induction false} NothingBehind(q: seq<Task>, x: Task)
    requires x !in q
    ensures Behind(q, x) == []
  {
    if q != [] { NothingBehind(q[1..], x); }
  }

  /** The history of removals only grows. */
  lemma {:induction false} CallbackRemoves(s: LoopState, ops: seq<Op>)
    requires Inv(s) && s.taskq in s.fam.lists && LegalAll(s, ops)
    ensures s.removed <= StepAll(s, ops).removed
    decreases |ops|
  {
    hide Inv, Step;
    if ops != [] {
      StepKeeps(s, ops[0]);
      StepChanges(s, ops[0]);
      CallbackRemoves(Step(s, ops[0]), ops[1..]);
    }
  }

  // ---------------------------------------------------------------- a round

  /** The iteration runs a task: the loop goes on and the phony node is not at the front. */
  ghost predicate Runs(s: LoopState) {
    InMain(s) && Queue(s)[0] != s.phony && (!s.stop || s.first)
  }

  /** The iterations with these callbacks all run a task. */
  ghost predicate Rolling(s: LoopState, round: seq<seq<Op>>)
    decreases |round|
  {
    round == [] || (Runs(s) && LegalTurn(s, round[0]) && Rolling(Turn(s, round[0]), round[1..]))
  }

  ghost function Rolled(s: LoopState, round: seq<seq<Op>>): LoopState
    requires Rolling(s, round)
    decreases |round|
  {
    if round == [] then s else Rolled(Turn(s, round[0]), round[1..])
  }

  lemma AheadOfPhony(q: seq<Task>, p: OptTask)
    requires q != [] && q[0] != p
    ensures Ahead(q, p) == [q[0]] + Ahead(q[1..], p)
  {
  }

  /** Running the first task takes exactly it from the part ahead of the phony node. */
  lemma TurnShrinks(s: LoopState, ops: seq<Op>)
    requires Inv(s) && Runs(s) && LegalTurn(s, ops)
    ensures var r, a := Turn(s, ops), Ahead(Queue(s), s.phony);
            && Inv(r) && r.phony == s.phony && r.taskq in r.fam.lists
            && a != [] && r.ran == s.ran + [a[0]]
            && OnlyShrinks(a[1..], Ahead(Queue(r), r.phony), s.removed, r.removed)
  {
    var t := Queue(s)[0];
    NeverTailer(s);
    InvParts(s);
    QueueDistinct(s);
    MinusHead(Queue(s));
    AheadOfPhony(Queue(s), s.phony);
    PopKeeps(s, t);
    PopTakes(s, t);
    hide Inv, Pop, OnlyShrinks, Ahead, Minus, Shape, Agree, Remembered, Conserved, Distinct;
    TurnKeeps(s, ops);
    CallbackShrinks(Pop(s, t), ops);
  }

  lemma PopTakes(s: LoopState, t: Task)
    requires s.taskq in s.fam.lists && t in s.tasks && OnQueue(s, t)
    ensures var p := Pop(s, t);
            && p.taskq in p.fam.lists && Queue(p) == Minus(Queue(s), t) && p.removed == s.removed
            && p.ran == s.ran + [t] && p.phony == s.phony && p.tasks.Keys == s.tasks.Keys
  {
    hide Minus;
  }

  /** A round is finite and complete: it lasts no longer than the number of entries ahead of the
      phony node, runs a subsequence of them in their order, and any of them that neither ran nor is
      still waiting its turn was removed meanwhile. Tasks enqueued during the round are not run. */
  lemma {:induction false} RoundIsFair(s: LoopState, round: seq<seq<Op>>)
    requires Inv(s) && s.phony != null && s.taskq in s.fam.lists && Rolling(s, round)
    ensures var r, a := Rolled(s, round), Ahead(Queue(s), s.phony);
            && Inv(r) && r.phony == s.phony && r.taskq in r.fam.lists
            && |r.ran| == |s.ran| + |round| && r.ran[..|s.ran|] == s.ran
            && |round| <= |a|
            && Subsequence(r.ran[|s.ran|..] + Ahead(Queue(r), r.phony), a)
            && s.removed <= r.removed
            && forall t :: t in a ==>
                 t in r.ran[|s.ran|..] || t in Ahead(Queue(r), r.phony) || s.removed[t] < r.removed[t]
    decreases |round|
  {
    var a := Ahead(Queue(s), s.phony);
    if round == [] {
      assert s.ran[|s.ran|..] + a == a;
      SubsequenceSelf(a);
      hide Inv;
    } else {
      hide Inv, Turn, Subsequence, Ahead, Runs;
      TurnShrinks(s, round[0]);
      var m := Turn(s, round[0]);
      RoundIsFair(m, round[1..]);
      var r, b := Rolled(m, round[1..]), Ahead(Queue(m), m.phony);
      RoundJoins(s.ran, a, b, Ahead(Queue(r), r.phony), s.removed, m.removed, r.removed, r.ran);
    }
  }

  lemma RoundJoins(ran: seq<Task>, a: seq<Task>, b: seq<Task>, c: seq<Task>,
                   u: multiset<Task>, v: multiset<Task>, w: multiset<Task>, end: seq<Task>)
    requires a != [] && OnlyShrinks(a[1..], b, u, v)
    requires |end| > |ran| && end[..|ran| + 1] == ran + [a[0]]
    requires Subsequence(end[|ran| + 1..] + c, b) && v <= w
    requires forall t :: t in b ==> t in end[|ran| + 1..] || t in c || v[t] < w[t]
    ensures forall t :: t in a ==> t in end[|ran|..] || t in c || u[t] < w[t]
    ensures u <= w
    ensures Subsequence(end[|ran|..] + c, a)
    ensures |end| - |ran| <= |a|
    ensures end[..|ran|] == ran && end[|ran|..] == [a[0]] + end[|ran| + 1..]
  {
    var e := end[|ran| + 1..] + c;
    SubsequenceChain(e, b, a[1..]);
    SubsequenceLength(e, a[1..]);
    assert end[|ran|] == end[..|ran| + 1][|ran|] == a[0];
    assert end[..|ran|] == end[..|ran| + 1][..|ran|];
    assert end[|ran|..] + c == [a[0]] + e;
    assert ([a[0]] + e)[1..] == e;
    hide Subsequence;
    assert forall t :: t in a ==> t == a[0] || t in a[1..];
  }

  /** After the round the tasks enqueued meanwhile are next, in the order they stand in: what was
      behind the phony node is now ahead of it. */
  lemma NextRound(s: LoopState)
    requires Inv(s) && s.phony != null && s.taskq in s.fam.lists && Queue(s)[0] == s.phony
    ensures var r := EndRound(s);
            && r.taskq in r.fam.lists
            && Queue(s) == [s.phony] + Behind(Queue(s), s.phony)
            && Ahead(Queue(r), r.phony) + [s.tailer] == Behind(Queue(s), s.phony)
  {
    QueueFacts(s);
    InvParts(s);
    QueueDistinct(s);
    var p: Task := s.phony;
    MinusHead(Queue(s));
    assert OnQueue(s, p);
    EndRoundQueue(s);
    AheadNew(Queue(s)[1..], p);
    hide Inv;
  }

  lemma EndRoundQueue(s: LoopState)
    requires s.taskq in s.fam.lists && s.phony != null && OnQueue(s, s.phony)
    ensures var p: Task := s.phony;
            && EndRound(s).taskq in EndRound(s).fam.lists && EndRound(s).phony == p
            && Queue(EndRound(s)) == BeforeLast(Minus(Queue(s), p), p)
  {
    hide Minus, BeforeLast;
  }

  lemma {:induction false} AheadNew(q: seq<Task>, p: Task)
    requires q != [] && p !in q
    ensures Ahead(BeforeLast(q, p), p) == q[..|q| - 1]
  {
    var r := BeforeLast(q, p);
    if |q| == 1 {
      assert r == [p, q[0]];
    } else {
      assert r[0] == q[0] && r[1..] == BeforeLast(q[1..], p);
      AheadNew(q[1..], p);
      assert [q[0]] + q[1..][..|q| - 2] == q[..|q| - 1];
    }
  }

  // ---------------------------------------------------------------- order over any number of rounds

  /** The iterations with these callbacks, up to leaving the loop. */
  ghost predicate Iterating(s: LoopState, turns: seq<seq<Op>>)
    decreases |turns|
  {
    turns == [] || (InMain(s) && LegalTurn(s, turns[0]) && Iterating(Turn(s, turns[0]), turns[1..]))
  }

  ghost function Iterated(s: LoopState, turns: seq<seq<Op>>): LoopState
    requires Iterating(s, turns)
    decreases |turns|
  {
    if turns == [] then s else Iterated(Turn(s, turns[0]), turns[1..])
  }

  lemma CutOrders(q: seq<Task>, p: Task, x: Task, y: Task)
    requires InOrder(q, x, y) && q[|q| - 1] != x && p != x && p != y && q != [] && q[|q| - 1] != p
    ensures InOrder(Minus(q, p), x, y) && Minus(q, p) != [] && InOrder(BeforeLast(Minus(q, p), p), x, y)
  {
    OrderedIsQueued(q, x, y);
    BehindMinus(q, x, p);
    CutInside(q, x, p);
    TailOne(Minus(q, p), p);
    AheadTail(Minus(q, p), x, [p]);
  }

  lemma PhonyMoveOrders(s: LoopState, x: Task, y: Task)
    requires Inv(s) && s.phony != null && s.taskq in s.fam.lists && x in s.tasks && y in s.tasks
    requires InOrder(Queue(s), x, y)
    ensures var l := Leave(s); l.taskq in l.fam.lists && InOrder(Queue(l), x, y) && l.removed == s.removed
    ensures var e := EndRound(s); e.taskq in e.fam.lists && InOrder(Queue(e), x, y) && e.removed == s.removed
  {
    hide Inv, Shape, InOrder, Leave, EndRound, OnQueue, Minus, BeforeLast;
    QueueFacts(s);
    PhonyOnQueue(s);
    PhonyMoveQueue(s);
    CutOrders(Queue(s), s.phony, x, y);
  }

  lemma PhonyOnQueue(s: LoopState)
    requires Inv(s) && s.phony != null
    ensures OnQueue(s, s.phony)
  {
    hide WellFormed, Agree, Remembered, Conserved, BusyTasks;
  }

  lemma PhonyMoveQueue(s: LoopState)
    requires s.taskq in s.fam.lists && s.phony != null && OnQueue(s, s.phony)
    ensures var p: Task := s.phony;
            && EndRound(s).taskq in EndRound(s).fam.lists && EndRound(s).removed == s.removed
            && Queue(EndRound(s)) == BeforeLast(Minus(Queue(s), p), p)
            && Leave(s).taskq in Leave(s).fam.lists && Leave(s).removed == s.removed
            && Queue(Leave(s)) == Minus(Queue(s), p)
  {
    hide Minus, BeforeLast;
  }

  ghost predicate KeptInOrder(s: LoopState, r: LoopState, x: Task, y: Task) {
    && r.taskq in r.fam.lists && s.removed <= r.removed
    && (|| r.ran == s.ran + [x]
        || s.removed[x] < r.removed[x] || s.removed[y] < r.removed[y]
        || (InOrder(Queue(r), x, y) && (r.ran == s.ran || exists t :: t in s.tasks && t != y && r.ran == s.ran + [t])))
  }

  lemma MarkerOrders(s: LoopState, ops: seq<Op>, x: Task, y: Task)
    requires Inv(s) && InMain(s) && LegalTurn(s, ops) && x in s.tasks && y in s.tasks
    requires InOrder(Queue(s), x, y) && !Runs(s)
    ensures KeptInOrder(s, Turn(s, ops), x, y)
  {
    hide Inv, InOrder, Leave, EndRound;
    PhonyMoveOrders(s, x, y);
    EndRoundFrame(s);
    if !(s.stop && !s.first) && EndRound(s).brk {
      EndRoundKeeps(s);
      RequestKeeps(EndRound(s), EndRound(s).stop, false, EndRound(s).holder);
      PhonyMoveOrders(EndRound(s).(brk := false), x, y);
      EndRoundFrame(EndRound(s).(brk := false));
    }
  }

  lemma EndRoundFrame(s: LoopState)
    requires s.taskq in s.fam.lists && s.phony != null
    ensures EndRound(s).ran == s.ran && EndRound(s).phony == s.phony && EndRound(s).tasks == s.tasks
    ensures Leave(s).ran == s.ran && EndRound(s).removed == s.removed && Leave(s).removed == s.removed
    ensures EndRound(s).taskq in EndRound(s).fam.lists
  {
    hide Unlinked, Appended;
  }

  /** One iteration never lets a task overtake another. */
  lemma TurnOrders(s: LoopState, ops: seq<Op>, x: Task, y: Task)
    requires Inv(s) && InMain(s) && LegalTurn(s, ops) && x in s.tasks && y in s.tasks && x != y
    requires InOrder(Queue(s), x, y)
    ensures KeptInOrder(s, Turn(s, ops), x, y)
  {
    if !Runs(s) {
      hide Inv, KeptInOrder, Turn;
      MarkerOrders(s, ops, x, y);
    } else {
      var t := Queue(s)[0];
      NeverTailer(s);
      InvParts(s);
      QueueDistinct(s);
      PopKeeps(s, t);
      PopTakes(s, t);
      FrontIsFirst(Queue(s), x, y);
      hide Inv, Pop, Shape, Agree, Remembered, Conserved, Distinct, Minus, Behind;
      if t != x {
        BehindMinus(Queue(s), x, t);
        CallbackOrders(Pop(s, t), ops, x, y);
      } else {
        CallbackRemoves(Pop(s, t), ops);
      }
    }
  }

  lemma FrontIsFirst(q: seq<Task>, x: Task, y: Task)
    requires Distinct(q) && InOrder(q, x, y) && x != y
    ensures q != [] && q[0] != y
  {
    if q[0] != x { NotFirst(q[1..], x, y); }
    if q[0] == x { assert y in q[1..]; }
  }

  lemma NotFirst(q: seq<Task>, x: Task, y: Task)
    requires InOrder(q, x, y)
    ensures y in q
  {
  }

  /** First queued, first run: over any number of iterations, a task y queued behind x does not run
      before x has run, unless one of them is removed from the queue. */
  lemma {:induction false} NoOvertaking(s: LoopState, turns: seq<seq<Op>>, x: Task, y: Task)
    requires Inv(s) && s.taskq in s.fam.lists && Iterating(s, turns) && x in s.tasks && y in s.tasks && x != y
    requires InOrder(Queue(s), x, y)
    ensures var r := Iterated(s, turns);
            && |s.ran| <= |r.ran| && s.removed <= r.removed
            && (|| s.removed[x] < r.removed[x] || s.removed[y] < r.removed[y]
                || forall j :: |s.ran| <= j < |r.ran| && r.ran[j] == y ==>
                     exists i :: |s.ran| <= i < j && r.ran[i] == x)
    decreases |turns|
  {
    hide Inv, Turn, InOrder;
    if turns != [] {
      var m := Turn(s, turns[0]);
      TurnKeeps(s, turns[0]);
      TurnGrows(s, turns[0]);
      TurnOrders(s, turns[0], x, y);
      IteratedGrows(m, turns[1..]);
      var r := Iterated(m, turns[1..]);
      if InOrder(Queue(m), x, y) {
        NoOvertaking(m, turns[1..], x, y);
      } else if m.ran == s.ran + [x] {
        assert r.ran[|s.ran|] == m.ran[|s.ran|] == x;
      }
    }
  }

  lemma {:induction false} IteratedGrows(s: LoopState, turns: seq<seq<Op>>)
    requires Inv(s) && Iterating(s, turns)
    ensures var r := Iterated(s, turns); |s.ran| <= |r.ran| && r.ran[..|s.ran|] == s.ran && s.removed <= r.removed
    decreases |turns|
  {
    hide Inv, Turn;
    if turns != [] {
      TurnKeeps(s, turns[0]);
      TurnGrows(s, turns[0]);
      IteratedGrows(Turn(s, turns[0]), turns[1..]);
    }
  }

  lemma TurnGrows(s: LoopState, ops: seq<Op>)
    requires Inv(s) && InMain(s) && LegalTurn(s, ops)
    ensures var r := Turn(s, ops); |s.ran| <= |r.ran| && r.ran[..|s.ran|] == s.ran && s.removed <= r.removed
  {
    hide Inv, Leave, EndRound, Pop, StepAll;
    if !Runs(s) {
      EndRoundFrame(s);
      if EndRound(s).phony != null { EndRoundFrame(EndRound(s).(brk := false)); }
    } else {
      var t := Queue(s)[0];
      NeverTailer(s);
      PopKeeps(s, t);
      PopTakes(s, t);
      CallbackRemoves(Pop(s, t), ops);
    }
  }
}
