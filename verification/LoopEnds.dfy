/** When tx_loop_main is left and when it is not, and when the pollers of a loop may sleep. */
module LoopEnds {
  import opened IntrusiveList
  import opened LoopModel
  import opened LoopProofs
  import opened RoundProofs
  import opened RoundFairness
  import opened LoopTheorems

  // ---------------------------------------------------------------- requests made by callbacks

  /** Only tx_loop_break and tx_loop_stop set the two requests, and no call takes one back. */
  lemma StepRequests(s: LoopState, op: Op)
    requires s.taskq in s.fam.lists && Legal(s, op)
    ensures Step(s, op).brk == (s.brk || op.Break?) && Step(s, op).stop == (s.stop || op.Stop?)
  {
    hide WakeAll, DropTask, ActivateTask, Join;
  }

  lemma {:induction false} CallbackRequests(s: LoopState, ops: seq<Op>)
    requires s.taskq in s.fam.lists && LegalAll(s, ops)
    ensures StepAll(s, ops).brk <==> s.brk || Break in ops
    ensures StepAll(s, ops).stop <==> s.stop || Stop in ops
    decreases |ops|
  {
    hide Step;
    if ops != [] {
      StepRequests(s, ops[0]);
      CallbackRequests(Step(s, ops[0]), ops[1..]);
    }
  }

  lemma PopRequests(s: LoopState, t: Task)
    requires s.taskq in s.fam.lists && t in s.tasks
    ensures var p := Pop(s, t); p.brk == s.brk && p.stop == s.stop && p.first == s.first && p.phony == s.phony && p.taskq in p.fam.lists
  {
  }

  /** An iteration that runs a task goes on, with what its callback asked for. */
  lemma RunningTurn(s: LoopState, ops: seq<Op>)
    requires Inv(s) && Runs(s) && LegalTurn(s, ops)
    ensures var r := Turn(s, ops);
            && r.phony == s.phony && r.first == s.first
            && (r.brk <==> s.brk || Break in ops) && (r.stop <==> s.stop || Stop in ops)
  {
    hide Inv, Pop, StepAll, LegalAll;
    PopRequests(s, Queue(s)[0]);
    CallbackRequests(Pop(s, Queue(s)[0]), ops);
  }

  // ---------------------------------------------------------------- how the loop ends

  lemma MainOne(s: LoopState, turns: seq<seq<Op>>)
    requires Inv(s) && s.phony != null && turns != [] && LegalMain(s, turns)
    ensures InMain(s) && LegalTurn(s, turns[0]) && Inv(Turn(s, turns[0]))
    ensures LegalMain(Turn(s, turns[0]), turns[1..]) && MainFrom(s, turns) == MainFrom(Turn(s, turns[0]), turns[1..])
  {
    hide Inv, Turn;
    TurnKeeps(s, turns[0]);
  }

  lemma MainLeft(s: LoopState, turns: seq<seq<Op>>)
    requires s.phony == null
    ensures LegalMain(s, turns) && MainFrom(s, turns) == s
  {
  }

  /** At the end of a round the phony node goes to the back, unless a break is pending: then the loop is left with
      the queue the round ended with, and the break is served. */
  lemma RoundTurn(s: LoopState, ops: seq<Op>)
    requires Inv(s) && InMain(s) && Queue(s)[0] == s.phony && (!s.stop || s.first)
    ensures LegalTurn(s, ops)
    ensures var r := Turn(s, ops);
            && r.tasks == s.tasks && r.ran == s.ran && r.stop == s.stop && !r.brk
            && (if s.brk then r.phony == null && r.taskq in r.fam.lists && Queue(r) == Queue(s)[1..]
                else r.phony == s.phony && !r.first)
  {
    QueueFacts(s);
    QueueDistinct(s);
    var p: Task := s.phony;
    MinusHead(Queue(s));
    PhonyOnQueue(s);
    EndRoundQueue(s);
    MinusBack(Queue(s)[1..], p);
    hide Inv, Shape, Minus, BeforeLast, Distinct;
    RoundTurnIs(s, ops);
  }

  /** A node put in front of the last element and taken out again. */
  lemma {:induction false} MinusBack(q: seq<Task>, p: Task)
    requires q != [] && p !in q
    ensures Minus(BeforeLast(q, p), p) == q
  {
    var r := BeforeLast(q, p);
    if |q| == 1 {
      assert r == [p, q[0]] && r[1..] == q;
    } else {
      assert r[0] == q[0] && r[1..] == BeforeLast(q[1..], p);
      MinusBack(q[1..], p);
    }
  }

  lemma RoundTurnIs(s: LoopState, ops: seq<Op>)
    requires InMain(s) && Queue(s)[0] == s.phony && (!s.stop || s.first) && LegalTurn(s, ops)
    ensures var r, e := Turn(s, ops), EndRound(s);
            && r.tasks == s.tasks && r.ran == s.ran && r.stop == s.stop && !r.brk && e.taskq in e.fam.lists
            && (if s.brk then r.phony == null && r.taskq in r.fam.lists && (var p: Task := s.phony; Queue(r) == Minus(Queue(e), p))
                else r.phony == s.phony && !r.first)
  {
    hide Minus, BeforeLast;
  }

  /** On a stopped loop the test after the first round leaves, and nothing more runs. */
  lemma StoppedTurn(s: LoopState, ops: seq<Op>)
    requires Inv(s) && InMain(s) && s.stop && !s.first
    ensures LegalTurn(s, ops)
    ensures var r := Turn(s, ops);
            && r.phony == null && r.tasks == s.tasks && r.ran == s.ran && r.brk == s.brk && r.stop == s.stop && r.taskq in r.fam.lists
            && var p: Task := s.phony; Queue(r) == Minus(Queue(s), p)
  {
    hide Minus;
  }

  lemma Shorter(s: LoopState, ops: seq<Op>)
    requires Inv(s) && Runs(s) && LegalTurn(s, ops)
    ensures Turn(s, ops).taskq in Turn(s, ops).fam.lists && s.taskq in s.fam.lists
    ensures |Ahead(Queue(Turn(s, ops)), Turn(s, ops).phony)| < |Ahead(Queue(s), s.phony)|
  {
    hide Inv, Turn, Ahead, Subsequence;
    TurnShrinks(s, ops);
    SubsequenceLength(Ahead(Queue(Turn(s, ops)), Turn(s, ops).phony), Ahead(Queue(s), s.phony)[1..]);
  }

  /** The iterations up to the end of the round: k of them run a task, whatever the callbacks do, and then the
      phony node is at the front or a stop has been asked for. */
  lemma {:induction false} RoundComes(s: LoopState, turns: seq<seq<Op>>) returns (k: nat)
    requires Inv(s) && s.phony != null && s.taskq in s.fam.lists && LegalMain(s, turns) && |turns| > |Ahead(Queue(s), s.phony)|
    ensures k <= |Ahead(Queue(s), s.phony)| && Rolling(s, turns[..k])
    ensures var m := Rolled(s, turns[..k]);
            && Inv(m) && InMain(m) && !Runs(m) && m.phony == s.phony && m.first == s.first
            && (m.brk <==> s.brk || exists i :: 0 <= i < k && Break in turns[i])
            && (m.stop <==> s.stop || exists i :: 0 <= i < k && Stop in turns[i])
            && LegalMain(m, turns[k..]) && MainFrom(s, turns) == MainFrom(m, turns[k..])
    decreases |turns|
  {
    hide Inv, Turn, Ahead, Runs;
    NeverTailer(s);
    if !Runs(s) {
      k := 0;
      assert turns[..0] == [] && turns[0..] == turns;
    } else {
      MainOne(s, turns);
      Shorter(s, turns[0]);
      RunningTurn(s, turns[0]);
      var n := Turn(s, turns[0]);
      var j := RoundComes(n, turns[1..]);
      k := j + 1;
      assert turns[..k] == [turns[0]] + turns[1..][..j] && turns[1..][j..] == turns[k..];
      assert turns[..k][0] == turns[0] && turns[..k][1..] == turns[1..][..j];
      assert (exists i :: 0 <= i < k && Break in turns[i]) <==> Break in turns[0] || exists i :: 0 <= i < j && Break in turns[1..][i] by {
        Shifted(turns, j, Break);
      }
      assert (exists i :: 0 <= i < k && Stop in turns[i]) <==> Stop in turns[0] || exists i :: 0 <= i < j && Stop in turns[1..][i] by {
        Shifted(turns, j, Stop);
      }
    }
  }

  lemma Shifted(turns: seq<seq<Op>>, j: nat, op: Op)
    requires j < |turns|
    ensures (exists i :: 0 <= i < j + 1 && op in turns[i]) <==> op in turns[0] || exists i :: 0 <= i < j && op in turns[1..][i]
  {
    if i :| 0 <= i < j + 1 && op in turns[i] {
      if i > 0 { assert op in turns[1..][i - 1]; }
    }
    if i :| 0 <= i < j && op in turns[1..][i] { assert op in turns[i + 1]; }
  }

  /** tx_loop_break ends the loop: k iterations later, no more than tasks stood ahead of the phony node, the round is
      over, and the loop is left with the break served and the queue as the round left it. A stop that comes first
      leaves it in that iteration. */
  lemma BreakLeaves(s: LoopState, turns: seq<seq<Op>>) returns (k: nat)
    requires Inv(s) && s.phony != null && s.taskq in s.fam.lists && s.brk
    requires LegalMain(s, turns) && |turns| > |Ahead(Queue(s), s.phony)|
    ensures k <= |Ahead(Queue(s), s.phony)| && Rolling(s, turns[..k])
    ensures var m, r := Rolled(s, turns[..k]), MainFrom(s, turns);
            && r.phony == null && r.tasks == m.tasks && r.ran == m.ran && r.stop == m.stop
            && m.taskq in m.fam.lists && r.taskq in r.fam.lists
            && ((m.stop && !m.first) || (Queue(m) != [] && Queue(m)[0] == s.phony && !r.brk && Queue(r) == Queue(m)[1..]))
            && (m.stop ==> s.stop || exists i :: 0 <= i < k && Stop in turns[i])
  {
    hide Inv, Turn, Ahead, Runs, Queue, MainFrom, LegalMain;
    k := RoundComes(s, turns);
    BreakServed(Rolled(s, turns[..k]), turns[k..]);
  }

  /** Where a round ends with a break pending. */
  lemma BreakServed(m: LoopState, turns: seq<seq<Op>>)
    requires Inv(m) && InMain(m) && !Runs(m) && m.brk && LegalMain(m, turns) && turns != []
    ensures var r := MainFrom(m, turns);
            && r.phony == null && r.tasks == m.tasks && r.ran == m.ran && r.stop == m.stop
            && m.taskq in m.fam.lists && r.taskq in r.fam.lists
            && ((m.stop && !m.first) || (Queue(m) != [] && Queue(m)[0] == m.phony && !r.brk && Queue(r) == Queue(m)[1..]))
  {
    hide Inv, Turn;
    MainOne(m, turns);
    if m.stop && !m.first {
      StoppedTurn(m, turns[0]);
    } else {
      RoundTurn(m, turns[0]);
    }
    MainLeft(Turn(m, turns[0]), turns[1..]);
  }

  /** A stopped loop is left at the first test after its first round, before anything else runs. */
  lemma StopLeaves(s: LoopState, turns: seq<seq<Op>>)
    requires Inv(s) && s.phony != null && s.stop && !s.first && LegalMain(s, turns) && turns != []
    ensures var r := MainFrom(s, turns);
            && r.phony == null && r.tasks == s.tasks && r.ran == s.ran && r.brk == s.brk
            && s.taskq in s.fam.lists && r.taskq in r.fam.lists && var p: Task := s.phony; Queue(r) == Minus(Queue(s), p)
  {
    hide Inv, Turn;
    MainOne(s, turns);
    StoppedTurn(s, turns[0]);
    MainLeft(Turn(s, turns[0]), turns[1..]);
  }

  /** Its first round is run to the end first: k tasks run, then the phony node is at the front, and two tests later
      the loop is left. */
  lemma StoppedFirstRound(s: LoopState, turns: seq<seq<Op>>) returns (k: nat)
    requires Inv(s) && s.phony != null && s.taskq in s.fam.lists && s.stop && s.first
    requires LegalMain(s, turns) && |turns| > |Ahead(Queue(s), s.phony)| + 1
    ensures k <= |Ahead(Queue(s), s.phony)| && Rolling(s, turns[..k])
    ensures var m, r := Rolled(s, turns[..k]), MainFrom(s, turns);
            && m.taskq in m.fam.lists && Queue(m) != [] && Queue(m)[0] == s.phony
            && r.phony == null && r.tasks == m.tasks && r.ran == m.ran
  {
    hide Inv, Turn, Ahead;
    k := RoundComes(s, turns);
    var m, rest := Rolled(s, turns[..k]), turns[k..];
    MainOne(m, rest);
    RoundTurn(m, rest[0]);
    var n := Turn(m, rest[0]);
    if n.phony == null {
      MainLeft(n, rest[1..]);
    } else {
      StopLeaves(n, rest[1..]);
    }
  }

  /** tx_loop_main begins with a first round: all that stands on the run queue is ahead of the phony node, so that even
      on a stopped loop it is run or removed before the loop is left (StoppedFirstRound, RoundIsFair). */
  lemma EnteredQueue(s: LoopState, p: Task)
    requires Inv(s) && s.phony == null && s.taskq in s.fam.lists && p !in s.fam.at && p !in s.fam.lists && p !in s.tasks
    ensures var e := Enter(s, p);
            && e.phony == p && e.first && e.stop == s.stop && e.taskq in e.fam.lists && Queue(s) != []
            && Ahead(Queue(e), p) + [s.tailer] == Queue(s) && |Ahead(Queue(e), p)| + 1 == |Queue(s)|
  {
    QueueDistinct(s);
    AheadNew(Queue(s), p);
    hide Inv, BeforeLast, Ahead;
  }

  /** Without a break or a stop the loop is never left. */
  lemma {:induction false} StaysIn(s: LoopState, turns: seq<seq<Op>>)
    requires Inv(s) && s.phony != null && !s.stop && !s.brk && LegalMain(s, turns)
    requires forall ops :: ops in turns ==> Stop !in ops && Break !in ops
    ensures var r := MainFrom(s, turns); r.phony == s.phony && !r.stop && !r.brk
    decreases |turns|
  {
    hide Inv, Turn;
    if turns != [] {
      MainOne(s, turns);
      assert turns[0] in turns && forall ops :: ops in turns[1..] ==> ops in turns;
      if Runs(s) { RunningTurn(s, turns[0]); } else { RoundTurn(s, turns[0]); }
      StaysIn(Turn(s, turns[0]), turns[1..]);
    }
  }

  // ---------------------------------------------------------------- when pollers may sleep

  /** What a poller may do of a loop: sleep if and only if no break is pending, no task is BUSY, tx_holder is free or
      names it, and no leaked count of the last two rounds is in the way. */
  lemma TimeoutIff(s: LoopState, verify: object?)
    requires Inv(s)
    ensures Timeout(s, verify) != 0
       <==> && !s.brk && BusyTasks(s) == {} && (s.holder == null || s.holder == verify)
            && (Slack(s) == 0 || !LastTwoRounds(s.busy))
  {
    if BusyTasks(s) != {} { BusyMeansNow(s, verify); }
    hide Shape, Agree, Remembered, Conserved;
  }

  /** Nothing in these calls activates a task. */
  ghost predicate Quiet(ops: seq<Op>) { forall op :: op in ops ==> !op.Active? && !op.Wakeup? }

  lemma StepQuiet(s: LoopState, op: Op)
    requires Inv(s) && s.taskq in s.fam.lists && Legal(s, op) && !op.Active? && !op.Wakeup?
    ensures Step(s, op).busy == s.busy
  {
    if op.PollActive? && s.tasks[op.task].idle { NotBusyIdle(s, op.task); }
    hide Inv, Unlinked, Appended, Pushed;
  }

  lemma NotBusyIdle(s: LoopState, t: Task)
    requires Inv(s) && t in s.tasks && s.tasks[t].idle
    ensures !s.tasks[t].busy
  {
    hide Shape, Remembered, Conserved;
  }

  lemma {:induction false} CallbackQuiet(s: LoopState, ops: seq<Op>)
    requires Inv(s) && s.taskq in s.fam.lists && LegalAll(s, ops) && Quiet(ops)
    ensures StepAll(s, ops).busy == s.busy
    decreases |ops|
  {
    hide Inv, Step;
    if ops != [] {
      assert ops[0] in ops && forall op :: op in ops[1..] ==> op in ops;
      StepQuiet(s, ops[0]);
      StepKeeps(s, ops[0]);
      CallbackQuiet(Step(s, ops[0]), ops[1..]);
    }
  }

  ghost predicate QuietEvent(e: Event) {
    match e
    case Api(op) => Quiet([op])
    case Main(_) => true
    case Iterate(ops) => Quiet(ops)
  }

  /** The last two round ends have moved every activation before them out of tx_busy. */
  ghost predicate Aging(s: LoopState, busy: nat, since: int) {
    && since <= s.upcount
    && (s.upcount == since ==> s.busy == busy)
    && (s.upcount == since + 1 ==> s.busy == Aged(busy))
    && (s.upcount >= since + 2 ==> s.busy % 4 == 0)
  }

  lemma AgedTwice(b: nat)
    ensures Aged(Aged(b)) % 4 == 0 && (b % 4 == 0 ==> Aged(b) % 4 == 0)
  {
    hide Aged;
    AgedEven(b);
    AgedFour(Aged(b));
    if b % 4 == 0 { AgedFour(b); }
  }

  lemma AgedEven(b: nat)
    ensures Aged(b) % 2 == 0
  {
    var q := 2 * b / 0x1_0000_0000;
    assert Aged(b) == 2 * (b - q * 0x8000_0000);
  }

  lemma AgedFour(b: nat)
    requires b % 2 == 0
    ensures Aged(b) % 4 == 0
  {
    var h, q := b / 2, 2 * b / 0x1_0000_0000;
    assert Aged(b) == 4 * (h - q * 0x4000_0000);
  }

  lemma AgingOn(s: LoopState, r: LoopState, busy: nat, since: int)
    requires Aging(s, busy, since)
    requires (r.busy == s.busy && r.upcount == s.upcount) || (r.busy == Aged(s.busy) && r.upcount == s.upcount + 1)
    ensures Aging(r, busy, since)
  {
    hide Aged;
    AgedTwice(busy);
    AgedTwice(s.busy);
  }

  lemma NextAges(s: LoopState, e: Event)
    requires Inv(s) && s.taskq in s.fam.lists && Enabled(s, e) && QuietEvent(e)
    ensures var r := Next(s, e);
            (r.busy == s.busy && r.upcount == s.upcount) || (r.busy == Aged(s.busy) && r.upcount == s.upcount + 1)
  {
    match e
    case Api(op) =>
      hide Inv;
      assert op in [op];
      StepQuiet(s, op);
    case Main(p) => hide Inv;
    case Iterate(ops) =>
      if Runs(s) {
        NeverTailer(s);
        PopKeeps(s, Queue(s)[0]);
        hide Inv, StepAll, LegalAll, Aged;
        PopRequests(s, Queue(s)[0]);
        CallbackQuiet(Pop(s, Queue(s)[0]), ops);
      } else {
        hide Inv, Aged;
      }
  }

  lemma {:induction false} RunAges(s: LoopState, es: seq<Event>, r: LoopState, busy: nat, since: int)
    requires Inv(s) && s.taskq in s.fam.lists && Run(s, es, r) && Aging(s, busy, since)
    requires forall e :: e in es ==> QuietEvent(e)
    ensures Inv(r) && Aging(r, busy, since)
    decreases |es|
  {
    hide Inv, Next, Aging, QuietEvent;
    if es != [] {
      assert es[0] in es && forall e :: e in es[1..] ==> e in es;
      NextKeeps(s, es[0]);
      NextAges(s, es[0]);
      AgingOn(s, Next(s, es[0]), busy, since);
      RunAges(Next(s, es[0]), es[1..], r, busy, since);
    }
  }

  /** Two rounds without an activation let the loop rest, whatever was counted or leaked before: no task is BUSY, and
      a poller may sleep if and only if no break is pending and tx_holder is free or names it. */
  lemma TwoQuietRounds(s: LoopState, es: seq<Event>, r: LoopState, verify: object?)
    requires Inv(s) && s.taskq in s.fam.lists && Run(s, es, r) && (forall e :: e in es ==> QuietEvent(e))
    requires r.upcount >= s.upcount + 2
    ensures BusyTasks(r) == {}
    ensures Timeout(r, verify) != 0 <==> !r.brk && (r.holder == null || r.holder == verify)
  {
    hide Run;
    RunAges(s, es, r, s.busy, s.upcount);
    NoneBusy(r);
    TimeoutIff(r, verify);
  }

  lemma NoneBusy(s: LoopState)
    requires Inv(s) && !LastTwoRounds(s.busy)
    ensures BusyTasks(s) == {}
  {
    hide WellFormed, Behind, Conserved;
  }
}
