/** tx_loop_main: entering, leaving, the end of a round, taking a task and a whole iteration keep the
    invariant, and the front of the queue is never the tailer. */
module RoundProofs {
  import opened IntrusiveList
  import opened LoopModel
  import opened LoopProofs

  // ---------------------------------------------------------------- entering and leaving

  lemma {:induction false} BehindNew(q: seq<Task>, p: Task)
    requires q != [] && p !in q
    ensures Behind(BeforeLast(q, p), p) == [q[|q| - 1]]
  {
    var r := BeforeLast(q, p);
    if |q| == 1 {
      assert r == [p, q[0]];
    } else {
      assert r[0] == q[0] && r[1..] == BeforeLast(q[1..], p);
      BehindNew(q[1..], p);
    }
  }

  lemma EnterShape(s: LoopState, p: Task)
    requires Shape(s) && s.phony == null && p !in s.fam.at && p !in s.fam.lists && p !in s.tasks
    ensures Shape(Enter(s, p))
  {
    hide WellFormed, BeforeLast;
    AppendedWellFormed(s.fam, s.taskq, p);
    QueueDistinct(s);
    BeforeLastFacts(Queue(s), p);
  }

  lemma EnterAgrees(s: LoopState, p: Task)
    requires s.taskq in s.fam.lists && p !in s.tasks && p !in s.fam.at
    ensures Agree(s) ==> Agree(Enter(s, p))
    ensures Conserved(s) ==> Conserved(Enter(s, p))
  {
    hide BeforeLast;
  }

  lemma EnterBehind(s: LoopState, p: Task)
    requires Shape(s) && p !in s.fam.at
    ensures Behind(Queue(Enter(s, p)), p) == [s.tailer] && s.tailer !in s.tasks
  {
    QueueDistinct(s);
    BehindNew(Queue(s), p);
  }

  lemma EnterTasks(s: LoopState, p: Task)
    requires s.taskq in s.fam.lists
    ensures var e := Enter(s, p);
            && e.tasks == s.tasks && e.actives == s.actives && e.busy == s.busy && e.phony == p
            && e.taskq == s.taskq && e.taskq in e.fam.lists && e.tailer == s.tailer
  {
    hide Appended;
  }

  lemma EnterRemembers(s: LoopState, e: LoopState)
    requires s.taskq in s.fam.lists && e.taskq in e.fam.lists && Remembered(s)
    requires e.tasks == s.tasks && e.busy == s.busy && e.phony != null && e.tailer !in s.tasks
    requires Behind(Queue(e), e.phony) == [e.tailer]
    ensures Remembered(e)
  {
    hide Behind;
  }

  lemma EnterKeeps(s: LoopState, p: Task)
    requires Inv(s) && s.phony == null && p !in s.fam.at && p !in s.fam.lists && p !in s.tasks
    ensures Inv(Enter(s, p))
  {
    InvParts(s);
    hide Inv, Shape, Agree, Conserved, Remembered, BusyTasks, Behind, Enter;
    EnterTasks(s, p);
    EnterShape(s, p);
    EnterAgrees(s, p);
    EnterBehind(s, p);
    EnterRemembers(s, Enter(s, p));
    BusySame(s, Enter(s, p));
    InvWhole(Enter(s, p));
  }

  lemma BusySame(s: LoopState, r: LoopState)
    requires SameFlags(s, r)
    ensures BusyTasks(r) == BusyTasks(s)
  {
  }

  lemma LeaveShape(s: LoopState)
    requires Shape(s) && s.phony != null
    ensures Shape(Leave(s)) && var p: Task := s.phony; Queue(Leave(s)) == Minus(Queue(s), p)
  {
    hide WellFormed, Minus;
    UnlinkedWellFormed(s.fam, s.phony);
    MinusLast<Task>(Queue(s), s.phony);
  }

  lemma LeaveAgrees(s: LoopState)
    requires s.phony != null && s.phony !in s.tasks && Agree(s)
    ensures Agree(Leave(s))
  {
    hide Minus;
  }

  lemma LeaveConserves(s: LoopState)
    requires s.phony != null && s.phony !in s.tasks && Conserved(s)
    ensures Conserved(Leave(s))
  {
    hide Minus;
  }

  lemma LeaveRemembers(s: LoopState)
    requires s.phony != null && s.taskq in s.fam.lists && Remembered(s)
    ensures Remembered(Leave(s))
  {
    hide Behind, Unlinked;
  }

  lemma LeaveKeeps(s: LoopState)
    requires Inv(s) && s.phony != null
    ensures Inv(Leave(s))
  {
    InvParts(s);
    hide Inv, Shape, Agree, Conserved, Remembered, BusyTasks;
    var r := Leave(s);
    LeaveShape(s);
    assert s.phony !in s.tasks by { PhonyNoTask(s); }
    LeaveAgrees(s);
    LeaveConserves(s);
    LeaveRemembers(s);
    BusySame(s, r);
    InvWhole(r);
  }

  lemma PhonyNoTask(s: LoopState)
    requires Shape(s) && s.phony != null
    ensures s.phony !in s.tasks && s.phony in Queue(s) && s.phony !in s.fam.lists && s.phony in s.fam.at
  {
  }

  // ---------------------------------------------------------------- one iteration

  /** The end of a round is a departure followed by an entry, and the counters move on. */
  lemma EndRoundIs(s: LoopState)
    requires s.taskq in s.fam.lists && s.phony != null
    ensures EndRound(s) == Enter(Leave(s), s.phony).(
              first := false, upcount := s.upcount + 1, busy := Aged(s.busy),
              actives := if ThisRound(s.busy) then s.actives else 0)
  {
    hide Unlinked, Appended;
  }

  lemma ShiftKeepsBit(b: nat)
    requires ThisRound(b)
    ensures LastTwoRounds(Aged(b))
  {
  }

  /** When the phony node is at the front every busy task is behind it, so the lowest bit tells
      whether there is one; clearing tx_actives is then exact. */
  lemma FrontPhony(s: LoopState)
    requires Inv(s) && s.phony != null && Queue(s)[0] == s.phony
    ensures !ThisRound(s.busy) ==> BusyTasks(s) == {}
  {
    hide WellFormed, Conserved, LastTwoRounds, ThisRound;
    forall t | t in s.tasks && s.tasks[t].busy ensures ThisRound(s.busy) {
      OnQueueMember(s, t);
      assert Queue(s) == [Queue(s)[0]] + Queue(s)[1..];
      assert t in Queue(s)[1..];
    }
  }

  lemma OnQueueMember(s: LoopState, t: Task)
    requires Shape(s) && OnQueue(s, t)
    ensures t in Queue(s)
  {
  }

  lemma AfterRound(e: LoopState, r: LoopState)
    requires e.taskq in e.fam.lists && e.phony != null && Agree(e)
    requires r.fam == e.fam && r.tasks == e.tasks && r.taskq == e.taskq && r.phony == e.phony
    requires BusyTasks(e) == {} || (LastTwoRounds(r.busy) && r.actives >= |BusyTasks(e)|)
    requires BusyTasks(e) == {} ==> r.actives >= 0
    requires Behind(Queue(e), e.phony) == [e.tailer] && e.tailer !in e.tasks
    ensures Agree(r) && Remembered(r) && r.actives >= |BusyTasks(r)|
  {
    hide Behind, ThisRound, LastTwoRounds;
    assert BusyTasks(r) == BusyTasks(e);
    forall t | t in r.tasks && r.tasks[t].busy ensures t in BusyTasks(e) { }
  }

  /** Moving the phony node from the front to the back. */
  lemma Requeued(s: LoopState)
    requires Inv(s) && s.phony != null
    ensures var l := Leave(s);
            && l.taskq in l.fam.lists && l.taskq == s.taskq
            && var e := Enter(l, s.phony);
            && Inv(e) && e.tasks == s.tasks && e.phony == s.phony && e.taskq in e.fam.lists
            && Behind(Queue(e), e.phony) == [e.tailer] && e.tailer !in e.tasks
  {
    InvParts(s);
    PhonyNoTask(s);
    LeaveKeeps(s);
    var l := Leave(s);
    InvParts(l);
    hide Inv, Shape, Agree, Conserved, Remembered, BusyTasks, Behind, Leave, Enter;
    LeaveUnlinks(s);
    EnterKeeps(l, s.phony);
    EnterBehind(l, s.phony);
    EnterTasks(l, s.phony);
  }

  lemma EndRoundKeeps(s: LoopState)
    requires Inv(s) && s.phony != null && Queue(s)[0] == s.phony
    ensures Inv(EndRound(s))
  {
    FrontPhony(s);
    InvParts(s);
    Requeued(s);
    EndRoundIs(s);
    if ThisRound(s.busy) { ShiftKeepsBit(s.busy); }
    RoundEnds(s, Enter(Leave(s), s.phony), EndRound(s));
  }

  lemma RoundEnds(s: LoopState, e: LoopState, r: LoopState)
    requires e.taskq in e.fam.lists && Inv(e) && e.tasks == s.tasks && e.phony != null
    requires Behind(Queue(e), e.phony) == [e.tailer] && e.tailer !in e.tasks
    requires r == e.(first := false, upcount := r.upcount, busy := r.busy, actives := r.actives)
    requires if ThisRound(s.busy) then LastTwoRounds(r.busy) && r.actives == s.actives else BusyTasks(s) == {} && r.actives == 0
    requires s.actives >= |BusyTasks(s)|
    ensures Inv(r)
  {
    hide Inv, Shape, Agree, Conserved, Remembered, BusyTasks, Behind, LastTwoRounds;
    InvParts(e);
    BusySame(s, e);
    AfterRound(e, r);
    SameFlagsShape(e, r);
    SameHistory(e, r);
    InvWhole(r);
  }

  lemma LeaveUnlinks(s: LoopState)
    requires s.phony != null && s.taskq in s.fam.lists && s.phony !in s.fam.lists
    ensures var l := Leave(s);
            && s.phony !in l.fam.at && s.phony !in l.fam.lists && l.phony == null && l.taskq == s.taskq
            && l.tasks == s.tasks && l.actives == s.actives && l.busy == s.busy && l.tailer == s.tailer
  {
    hide Minus;
  }

  // ---------------------------------------------------------------- running a task

  lemma PopShape(s: LoopState, t: Task)
    requires Shape(s) && t in s.tasks
    ensures Shape(Pop(s, t))
  {
    UnlinkShape(s, t);
    hide WellFormed;
  }

  lemma PopAgrees(s: LoopState, t: Task)
    requires s.taskq in s.fam.lists && Agree(s) && t in s.tasks && OnQueue(s, t)
    ensures Agree(Pop(s, t))
  {
    hide Minus;
  }

  lemma PopRemembers(s: LoopState, t: Task)
    requires s.taskq in s.fam.lists && Remembered(s) && t in s.tasks && t != s.phony && OnQueue(s, t)
    ensures Remembered(Pop(s, t))
  {
    hide Behind, Minus, ThisRound, LastTwoRounds;
    if s.phony != null {
      BehindMinus(Queue(s), s.phony, t);
    }
  }

  lemma PopConserves(s: LoopState, t: Task)
    requires s.taskq in s.fam.lists && Conserved(s) && t in s.tasks && OnQueue(s, t)
    ensures Conserved(Pop(s, t))
  {
    hide Minus;
    var r := Pop(s, t);
    assert multiset(r.ran) == multiset(s.ran) + multiset{t};
  }

  lemma PopCounts(s: LoopState, t: Task)
    requires s.taskq in s.fam.lists && t in s.tasks && s.actives >= |BusyTasks(s)|
    ensures Pop(s, t).actives >= |BusyTasks(Pop(s, t))|
  {
    hide Unlinked;
    assert BusyTasks(Pop(s, t)) == BusyTasks(s) - {t};
    assert t in BusyTasks(s) <==> s.tasks[t].busy;
  }

  lemma PopKeeps(s: LoopState, t: Task)
    requires Inv(s) && t in s.tasks && OnQueue(s, t)
    ensures Inv(Pop(s, t))
  {
    InvParts(s);
    hide Inv, Shape, Agree, Remembered, Conserved, BusyTasks, Pop;
    PopShape(s, t);
    PopAgrees(s, t);
    PopRemembers(s, t);
    PopConserves(s, t);
    PopCounts(s, t);
    PopFrame(s, t);
    InvWhole(Pop(s, t));
  }

  lemma PopFrame(s: LoopState, t: Task)
    requires s.taskq in s.fam.lists && t in s.tasks
    ensures Pop(s, t).taskq == s.taskq && s.taskq in Pop(s, t).fam.lists
  {
  }

  /** While tx_loop_main runs, the front of the queue is the phony node or a task, never the tailer. */
  lemma NeverTailer(s: LoopState)
    requires Inv(s) && s.phony != null
    ensures InMain(s) && Queue(s)[0] != s.tailer
    ensures Queue(s)[0] != s.phony ==> OnQueue(s, Queue(s)[0])
  {
    hide Remembered, Conserved, BusyTasks, Agree;
    var q := Queue(s);
    assert q[0] in q;
    assert s.phony in q;
    var i :| 0 <= i < |q| && q[i] == s.phony;
    assert i < |q| - 1;
    assert Distinct(q);
  }

  lemma TurnKeeps(s: LoopState, ops: seq<Op>)
    requires Inv(s) && InMain(s) && LegalTurn(s, ops)
    ensures Inv(Turn(s, ops))
  {
    NeverTailer(s);
    InvParts(s);
    hide Inv, Pop, EndRound, Leave, OnQueue;
    if s.stop && !s.first {
      LeaveKeeps(s);
    } else if Queue(s)[0] == s.phony {
      EndRoundKeeps(s);
      var e := EndRound(s);
      if e.brk {
        RequestKeeps(e, e.stop, false, e.holder);
        EndRoundPhony(s);
        LeaveKeeps(e.(brk := false));
      }
    } else {
      var t := Queue(s)[0];
      PopKeeps(s, t);
      PopFrame(s, t);
      StepAllKeeps(Pop(s, t), ops);
    }
  }

  lemma EndRoundPhony(s: LoopState)
    requires s.taskq in s.fam.lists && s.phony != null
    ensures EndRound(s).phony == s.phony
  {
  }
}
