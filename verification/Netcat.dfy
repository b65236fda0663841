/** update_netcat of netcat.cpp: two pumps over the same two descriptors, in opposite directions, run by one task
    that the poller's reports bring back. */
module Netcat {
  import LoopModel
  import LoopProofs
  import Loop
  import opened ReadinessModel
  import opened ReadinessProofs
  import ReadinessTheorems
  import opened Readiness
  import opened Pump

  // ---------------------------------------------------------------- what the other pump leaves alone

  /** A task that waits for input of f still does when f has only been written to. */
  lemma InputStays(s: System, r: System, t: Aiocb, f: Aiocb, task: Task)
    requires ReadinessProofs.Ready(s) && ReadinessProofs.Ready(r) && Sided(s.io, r.io, t, f)
    requires f in s.io.filps && Live(s.io.filps[f]) && InputAwaited(s.io, f, task)
    ensures InputAwaited(r.io, f, task)
  {
    hide ReadinessProofs.Ready;
    ReadinessTheorems.KernelWants(s, f);
    ReadinessTheorems.KernelWants(r, f);
  }

  /** And one that waits for output of t, when t has only been read from. */
  lemma OutputStays(s: System, r: System, t: Aiocb, f: Aiocb, task: Task)
    requires ReadinessProofs.Ready(s) && ReadinessProofs.Ready(r) && Sided(s.io, r.io, t, f)
    requires t in s.io.filps && Live(s.io.filps[t]) && OutputAwaited(s.io, t, task)
    ensures OutputAwaited(r.io, t, task)
  {
    hide ReadinessProofs.Ready;
    ReadinessTheorems.KernelWants(s, t);
    ReadinessTheorems.KernelWants(r, t);
  }

  lemma StopReady(s: System)
    requires ReadinessProofs.Ready(s)
    ensures ReadinessProofs.Ready(s.(loop := s.loop.(stop := true)))
  {
    ReadyParts(s);
    hide LoopProofs.Inv, Agrees, Counted, Waiting;
    LoopProofs.RequestKeeps(s.loop, true, s.loop.brk, s.loop.holder);
    SameIo(s, s.(loop := s.loop.(stop := true)), {});
  }

  // ---------------------------------------------------------------- the event loop's side

  /** A report leaves both descriptors attached and the tasks there. */
  lemma PollingWired(s: System, e: Report, f: Aiocb, t: Aiocb, task: Task)
    requires Usable(s) && e.filp in s.io.filps && LoopProofs.Inv(s.loop) && Wired(s, f, t, task)
    requires forall d :: d in [e] ==> d.filp in s.io.filps
    ensures Wired(ReadinessModel.Polling(s, [e]), f, t, task)
  {
    var w := s.(io := Waited(s.io, [e]));
    UsableSame(s, w);
    hide LoopProofs.Inv, Usable, Deliver, Waited, LoopModel.PollActivate, Wired;
    DeliverIs(w, e);
    OneDelivered(w, e);
    var d := Deliver(w, e);
    DeliveredWired(s, d, e, f, t, task);
    ReleasedWired(d, f, t, task);
  }

  lemma UsableSame(s: System, w: System)
    requires Usable(s) && w.loop == s.loop && w.io.filps == s.io.filps && w.io.poller == s.io.poller
    ensures Usable(w)
  {
  }

  lemma OneDelivered(w: System, e: Report)
    requires Usable(w) && e.filp in w.io.filps
    ensures (forall d :: d in [e] ==> d.filp in w.io.filps) && DeliverAll(w, [e]) == Deliver(w, e)
  {
    hide Usable, Deliver;
    assert [e][1..] == [];
  }

  lemma DeliveredWired(s: System, d: System, e: Report, f: Aiocb, t: Aiocb, task: Task)
    requires Wired(s, f, t, task) && e.filp in s.io.filps && d.loop.tasks.Keys == s.loop.tasks.Keys
    requires d.io.filps == s.io.filps[e.filp := After(s.io.filps[e.filp], e)]
    ensures Wired(d, f, t, task)
  {
  }

  lemma ReleasedWired(d: System, f: Aiocb, t: Aiocb, task: Task)
    requires Wired(d, f, t, task) && d.loop.taskq in d.loop.fam.lists && d.io.poller in d.loop.tasks
    ensures var r := Release(d); Wired(r.(loop := LoopModel.PollActivate(r.loop, r.io.poller)), f, t, task)
  {
    hide LoopModel.Append;
  }

  /** A report is one the kernel may give: it has been asked for. */
  lemma MayReport(s: System, e: Report)
    requires ReadinessProofs.Ready(s) && e.filp in s.io.filps && Live(s.io.filps[e.filp])
    requires (e.input ==> s.io.filps[e.filp].pollIn) && (e.output ==> s.io.filps[e.filp].pollOut)
    requires (e.hup ==> Polled(s.io.filps[e.filp])) && (e.input || e.output || e.hup)
    ensures Reported(s.io, [e]) && forall d :: d in [e] ==> d.filp in s.io.filps
  {
    hide ReadinessProofs.Ready;
    ReadinessTheorems.KernelWants(s, e.filp);
  }

  /** The kernel reports what it was asked to report of g, and the poller handles it. */
  method Notify(ep: Epoll, g: Aiocb, ghost f: Aiocb, ghost t: Aiocb, ghost task: Task, input: bool, output: bool, hup: bool)
    requires Plugged(ep, f, t, task) && (g == f || g == t)
    modifies ep`refcnt, ep`model, ep.model.filps.Keys`fields, ep.loop, ep.loop.Region()
    ensures Plugged(ep, f, t, task) && ep.loop.Region() == old(ep.loop.Region()) && ep.model.filps.Keys == old(ep.model.filps.Keys)
  {
    hide Epoll.Valid, Wired, ReadinessProofs.Ready, Usable, LoopProofs.Inv, Reported, ReadinessModel.Polling;
    ghost var s := ep.Sys();
    WiredIn(s, f, t, task);
    EpollReady(ep);
    ReadyParts(s);
    ReadsFlags(ep, g);
    var x := g.fields;
    var e := Report(g, input && x.pollIn, output && x.pollOut, hup && (x.pollIn || x.pollOut));
    if e.input || e.output || e.hup {
      MayReport(s, e);
      PollingWired(s, e, f, t, task);
      SameFilps(s, e);
      ep.Polling([e]);
    }
  }

  lemma SameFilps(s: System, e: Report)
    requires Usable(s) && forall d :: d in [e] ==> d.filp in s.io.filps
    ensures ReadinessModel.Polling(s, [e]).io.filps.Keys == s.io.filps.Keys
  {
    hide Usable, DeliverAll, LoopModel.PollActivate;
  }

  /** tx_loop_stop */
  method StopLoop(ep: Epoll, ghost f: Aiocb, ghost t: Aiocb, ghost task: Task)
    requires Plugged(ep, f, t, task)
    modifies ep.loop
    ensures Plugged(ep, f, t, task) && ep.loop.Region() == old(ep.loop.Region())
    ensures ep.model == old(ep.model) && ep.loop.model == old(ep.loop.model).(stop := true)
  {
    hide Wired, ReadinessProofs.Ready, Loop.TaskLoop.Valid, Epoll.Coherent;
    StopReady(ep.Sys());
    StopWired(ep.Sys(), f, t, task);
    ghost var filps, tasks := ep.model.filps.Keys, ep.loop.Region();
    ep.loop.Stop();
  }

  lemma StopWired(s: System, f: Aiocb, t: Aiocb, task: Task)
    requires Wired(s, f, t, task)
    ensures Wired(s.(loop := s.loop.(stop := true)), f, t, task)
  {
  }

  lemma Swapped(ep: Epoll, f: Aiocb, t: Aiocb, task: Task)
    requires Plugged(ep, f, t, task)
    ensures Plugged(ep, t, f, task)
  {
    hide Epoll.Valid;
  }

  // ---------------------------------------------------------------- update_netcat

  /** The answers one call of a pump gets. */
  datatype Answers = Answers(readings: seq<Reading>, writings: seq<Writing>)

  /** What the kernel reports before a call, of one descriptor. */
  datatype News = News(input: bool, output: bool, hup: bool)

  datatype Call = Call(file: News, file2: News, s2n: Answers, n2s: Answers)

  /** A direction ended: its pump returned 0. */
  predicate Over(d: Done) { d.out.Returned? && d.out.code == 0 }

  /** update_netcat stops the loop: both pumps have returned, one of them 0. */
  predicate Stops(d1: Done, d2: Done) { d1.out.Returned? && d2.out.Returned? && (Over(d1) || Over(d2)) }

  /** The answers a call with this outcome used. */
  ghost function Share(a: Answers, d: Done): Answers {
    Answers(a.readings[..Min(d.recvs, |a.readings|)], a.writings[..Min(d.writes, |a.writings|)])
  }

  ghost function More(a: Answers, b: Answers): Answers { Answers(a.readings + b.readings, a.writings + b.writings) }

  /** The answers that calls with these outcomes used, one call after the other. */
  ghost function Used(answers: seq<Answers>, dones: seq<Done>): Answers
    requires |dones| <= |answers|
    decreases |dones|
  {
    if dones == [] then Answers([], [])
    else More(Used(answers, dones[..|dones| - 1]), Share(answers[|dones| - 1], dones[|dones| - 1]))
  }

  lemma UsedMore(answers: seq<Answers>, dones: seq<Done>, d: Done)
    requires |dones| < |answers|
    ensures Used(answers, dones + [d]) == More(Used(answers, dones), Share(answers[|dones|], d))
  {
    assert (dones + [d])[..|dones|] == dones;
  }

  lemma MoreTwice(a: Answers, b: Answers, c: Answers)
    ensures More(More(a, b), c) == More(a, More(b, c))
  {
  }

  /** What one pump did is not touched by the other, which works on the other sides of the same descriptors. */
  lemma EndsStays(p: Pipling, d: Done, f: Source, t: Sink, s: System, r: System, task: Task, a: Answers)
    requires p.Ends(d, f, t, s.io, task, false, a.readings, a.writings)
    requires ReadinessProofs.Ready(s) && ReadinessProofs.Ready(r) && Sided(s.io, r.io, t.filp, f.filp)
    requires Wired(s, f.filp, t.filp, task)
    ensures p.Ends(d, f, t, r.io, task, false, a.readings, a.writings)
  {
    hide ReadinessProofs.Ready, Answered, InputAwaited, OutputAwaited;
    WiredIn(s, f.filp, t.filp, task);
    if InputAwaited(s.io, f.filp, task) { InputStays(s, r, t.filp, f.filp, task); }
    if OutputAwaited(s.io, t.filp, task) { OutputStays(s, r, t.filp, f.filp, task); }
  }

  class Netcat {
    const ep: Epoll
    const task: Task
    const file: Aiocb
    const file2: Aiocb
    const s2n: Pipling            // from file2 to file
    const n2s: Pipling            // from file to file2
    const read2: Source           // recv on file2
    const write1: Sink            // write to file
    const read1: Source           // recv on file
    const write2: Sink            // write to file2

    constructor (ep: Epoll, task: Task, read1: Source, write1: Sink, read2: Source, write2: Sink, size: nat)
      requires size > 0 && Plugged(ep, read2.filp, write1.filp, task)
      requires read1.filp == write1.filp && read2.filp == write2.filp && read1 != read2 && write1 != write2
      requires read1.pos == 0 && read2.pos == 0 && write1.taken == [] && write2.taken == []
      ensures Valid() && this.ep == ep && this.task == task
      ensures this.read1 == read1 && this.write1 == write1 && this.read2 == read2 && this.write2 == write2
    {
      hide Plugged;
      ghost var filps, tasks := ep.model.filps.Keys, ep.loop.Region();
      var a := new Pipling(size);
      var b := new Pipling(size);
      this.ep, this.task, file, file2 := ep, task, read1.filp, read2.filp;
      s2n, n2s := a, b;
      this.read1, this.write1, this.read2, this.write2 := read1, write1, read2, write2;
      assert read1.data[..0] == [] && read2.data[..0] == [];
    }

    /** Both directions conserve their bytes, over one poller. */
    ghost predicate Valid()
      reads this, s2n, s2n.buf, n2s, n2s.buf, read1, write1, read2, write2
      reads ep, ep.model.filps.Keys`fields, ep.loop, ep.loop.Region()
    {
      && s2n != n2s && s2n.buf != n2s.buf && read1 != read2 && write1 != write2
      && read1.filp == file && write1.filp == file && read2.filp == file2 && write2.filp == file2
      && s2n.Valid(read2, write1) && n2s.Valid(read1, write2)
      && Plugged(ep, file2, file, task)
    }

    /** One pump, seen from the other. */
    method PumpS2n(a: Answers) returns (d1: Done)
      requires Valid()
      modifies s2n, s2n.buf, read2, write1, file`fields, file2`fields, ep`refcnt, ep`model, ep.loop, ep.loop.Region()
      ensures Valid() && ep.loop.Region() == old(ep.loop.Region())
      ensures old(read2.pos) <= read2.pos && old(write1.taken) <= write1.taken && unchanged(read1) && unchanged(write2)
      ensures s2n.Ends(d1, read2, write1, ep.model, task, false, a.readings, a.writings)
      ensures d1.recvs <= |a.readings| && d1.writes <= |a.writings|
      ensures read2.heard == old(read2.heard) + a.readings[..d1.recvs] && write1.heard == old(write1.heard) + a.writings[..d1.writes]
      ensures Pumped(old(ep.Sys()), ep.Sys(), file2, file)
    {
      hide Plugged, Pumped, Flows, Pipling.Ends;
      ghost var b := s2n.Beginning(ep, read2, write1);
      d1 := s2n.Pump(ep, read2, write1, task, false, a.readings, a.writings);
      Counted(s2n, d1, read2, write1, a);
    }

    method PumpN2s(a: Answers) returns (d2: Done)
      requires Valid()
      modifies n2s, n2s.buf, read1, write2, file`fields, file2`fields, ep`refcnt, ep`model, ep.loop, ep.loop.Region()
      ensures Valid() && ep.loop.Region() == old(ep.loop.Region()) && s2n.off == old(s2n.off) && s2n.len == old(s2n.len) && s2n.eof == old(s2n.eof)
      ensures old(read1.pos) <= read1.pos && old(write2.taken) <= write2.taken && unchanged(read2) && unchanged(write1)
      ensures n2s.Ends(d2, read1, write2, ep.model, task, false, a.readings, a.writings)
      ensures d2.recvs <= |a.readings| && d2.writes <= |a.writings|
      ensures read1.heard == old(read1.heard) + a.readings[..d2.recvs] && write2.heard == old(write2.heard) + a.writings[..d2.writes]
      ensures Pumped(old(ep.Sys()), ep.Sys(), file, file2)
    {
      hide Plugged, Pumped, Flows, Pipling.Ends;
      Swapped(ep, file2, file, task);
      ghost var b := n2s.Beginning(ep, read1, write2);
      d2 := n2s.Pump(ep, read1, write2, task, false, a.readings, a.writings);
      Counted(n2s, d2, read1, write2, a);
      Swapped(ep, file, file2, task);
    }

    lemma Counted(p: Pipling, d: Done, f: Source, t: Sink, a: Answers)
      requires p.Ends(d, f, t, ep.model, task, false, a.readings, a.writings)
      ensures d.recvs <= |a.readings| && d.writes <= |a.writings| && Answered(d, false, a.readings, a.writings)
      ensures Over(d) && !d.out.broken ==> t.taken == f.data
      ensures d.out.Returned? ==> d.out.code == 0 || d.out.code == 1
    {
      hide InputAwaited, OutputAwaited;
    }

    lemma PoweredReady()
      requires Valid()
      ensures ReadinessProofs.Ready(ep.Sys()) && Wired(ep.Sys(), file2, file, task)
    {
      hide Epoll.Valid, ReadinessProofs.Ready, Flows, Wired;
      EpollReady(ep);
    }

    /** Since these positions and bytes nothing was taken back. */
    ghost predicate Since(p1: nat, p2: nat, t1: seq<Byte>, t2: seq<Byte>)
      reads this, read1, read2, write1, write2
    {
      p1 <= read1.pos && p2 <= read2.pos && t1 <= write1.taken && t2 <= write2.taken
    }

    /** The histories of both directions. */
    ghost function Heard2n(): Answers
      reads this, read2, write1
    {
      Answers(read2.heard, write1.heard)
    }

    ghost function Heard2s(): Answers
      reads this, read1, write2
    {
      Answers(read1.heard, write2.heard)
    }

    /** A history that has grown by what a call used. */
    static ghost predicate Heard(was: Answers, now: Answers, d: Done, a: Answers) {
      d.recvs <= |a.readings| && d.writes <= |a.writings| && now == More(was, Share(a, d))
    }

    /** The first pump. */
    method First(a: Answers) returns (d1: Done)
      requires Valid()
      modifies s2n, s2n.buf, read2, write1, file`fields, file2`fields, ep`refcnt, ep`model, ep.loop, ep.loop.Region()
      ensures Valid() && ep.loop.Region() == old(ep.loop.Region()) && ep.model.filps.Keys == old(ep.model.filps.Keys)
      ensures Since(old(read1.pos), old(read2.pos), old(write1.taken), old(write2.taken))
      ensures ep.loop.model.stop == old(ep.loop.model.stop)
      ensures s2n.Ends(d1, read2, write1, ep.model, task, false, a.readings, a.writings)
      ensures Heard(old(Heard2n()), Heard2n(), d1, a) && Heard2s() == old(Heard2s())
    {
      hide Valid, Pumped, Pipling.Ends;
      ghost var s := ep.Sys();
      Parts();
      d1 := PumpS2n(a);
      Parts();
      KeysStay(s, file2, file);
    }

    /** The second pump. */
    method Second(b: Answers, ghost a: Answers, ghost d1: Done) returns (d2: Done)
      requires Valid() && s2n.Ends(d1, read2, write1, ep.model, task, false, a.readings, a.writings)
      modifies n2s, n2s.buf, read1, write2, file`fields, file2`fields, ep`refcnt, ep`model, ep.loop, ep.loop.Region()
      ensures Valid() && ep.loop.Region() == old(ep.loop.Region()) && ep.model.filps.Keys == old(ep.model.filps.Keys)
      ensures Since(old(read1.pos), old(read2.pos), old(write1.taken), old(write2.taken))
      ensures ep.loop.model.stop == old(ep.loop.model.stop)
      ensures s2n.Ends(d1, read2, write1, ep.model, task, false, a.readings, a.writings)
      ensures n2s.Ends(d2, read1, write2, ep.model, task, false, b.readings, b.writings)
      ensures Heard(old(Heard2s()), Heard2s(), d2, b) && Heard2n() == old(Heard2n())
    {
      hide Valid, Pumped, Pipling.Ends, ReadinessProofs.Ready, Wired;
      ghost var s := ep.Sys();
      PoweredReady();
      Parts();
      d2 := PumpN2s(b);
      Parts();
      StillEnds(s, d1, a);
      KeysStay(s, file, file2);
    }

    lemma StillEnds(s: System, d1: Done, a: Answers)
      requires Valid() && s2n.Ends(d1, read2, write1, s.io, task, false, a.readings, a.writings)
      requires ReadinessProofs.Ready(s) && Wired(s, file2, file, task) && Pumped(s, ep.Sys(), file, file2)
      ensures s2n.Ends(d1, read2, write1, ep.model, task, false, a.readings, a.writings)
    {
      hide ReadinessProofs.Ready, Flows, Pipling.Ends, Sided, Wired;
      Parts();
      PoweredReady();
      EndsStays(s2n, d1, read2, write1, s, ep.Sys(), task, a);
    }

    /** update_netcat: the pumps run one after the other, each to its end or as far as its answers reach; the loop is
        stopped exactly when one of them returned 0. */
    method Update(a: Answers, b: Answers) returns (d1: Done, d2: Done, stopped: bool)
      requires Valid()
      modifies s2n, s2n.buf, n2s, n2s.buf, read1, write1, read2, write2
      modifies file`fields, file2`fields, ep`refcnt, ep`model, ep.loop, ep.loop.Region()
      ensures Valid() && ep.loop.Region() == old(ep.loop.Region()) && ep.model.filps.Keys == old(ep.model.filps.Keys)
      ensures Since(old(read1.pos), old(read2.pos), old(write1.taken), old(write2.taken))
      ensures stopped == Stops(d1, d2) && ep.loop.model.stop == (stopped || old(ep.loop.model.stop))
      ensures s2n.Ends(d1, read2, write1, ep.model, task, false, a.readings, a.writings)
      ensures n2s.Ends(d2, read1, write2, ep.model, task, false, b.readings, b.writings)
      ensures Heard(old(Heard2n()), Heard2n(), d1, a) && Heard(old(Heard2s()), Heard2s(), d2, b)
    {
      hide Valid, Since, Pipling.Ends;
      ghost var p1, p2, t1, t2 := read1.pos, read2.pos, write1.taken, write2.taken;
      d1 := First(a);
      ghost var q1, q2, u1, u2 := read1.pos, read2.pos, write1.taken, write2.taken;
      SinceIs(p1, p2, t1, t2);
      d2 := Second(b, a, d1);
      SinceChain(p1, p2, t1, t2, q1, q2, u1, u2);
      stopped := false;
      if d1.out.Returned? && d2.out.Returned? && (d1.out.code == 0 || d2.out.code == 0) {
        Halt();
        stopped := true;
      }
    }

    lemma SinceIs(p1: nat, p2: nat, t1: seq<Byte>, t2: seq<Byte>)
      requires Since(p1, p2, t1, t2)
      ensures p1 <= read1.pos && p2 <= read2.pos && t1 <= write1.taken && t2 <= write2.taken
    {
    }

    lemma SinceChain(p1: nat, p2: nat, t1: seq<Byte>, t2: seq<Byte>, q1: nat, q2: nat, u1: seq<Byte>, u2: seq<Byte>)
      requires p1 <= q1 && p2 <= q2 && t1 <= u1 && t2 <= u2 && Since(q1, q2, u1, u2)
      ensures Since(p1, p2, t1, t2)
    {
    }

    lemma Parts()
      requires Valid()
      ensures s2n != n2s && s2n.buf != n2s.buf && read1 != read2 && write1 != write2
      ensures read1.filp == file && write1.filp == file && read2.filp == file2 && write2.filp == file2
    {
      hide Plugged, Flows;
    }

    lemma KeysStay(s: System, f: Aiocb, t: Aiocb)
      requires Pumped(s, ep.Sys(), f, t)
      ensures ep.model.filps.Keys == s.io.filps.Keys && ep.loop.model.stop == s.loop.stop
    {
    }

    method Halt()
      requires Valid()
      modifies ep.loop
      ensures Valid() && ep.loop.Region() == old(ep.loop.Region()) && ep.model == old(ep.model) && ep.loop.model.stop
      ensures unchanged(read1) && unchanged(read2) && unchanged(write1) && unchanged(write2)
      ensures unchanged(s2n) && unchanged(n2s)
    {
      hide Plugged, Flows;
      StopLoop(ep, file2, file, task);
    }

    /** Any number of calls, the poller's reports coming in between, until one of them stops the loop: all calls are
        made, in order, and every answer a call used was heard by its descriptor; both directions conserve their
        bytes, and the session is over only when one of them has written all its input or met an error. */
    method Session(calls: seq<Call>) returns (over: bool, s2ns: seq<Done>, n2ss: seq<Done>)
      requires Valid()
      modifies s2n, s2n.buf, n2s, n2s.buf, read1, write1, read2, write2
      modifies ep`refcnt, ep`model, ep.model.filps.Keys`fields, ep.loop, ep.loop.Region()
      ensures Valid() && Since(old(read1.pos), old(read2.pos), old(write1.taken), old(write2.taken))
      ensures |s2ns| == |n2ss| <= |calls| && (!over ==> |s2ns| == |calls|)
      ensures forall k :: 0 <= k < |s2ns| ==>
                && Answered(s2ns[k], false, calls[k].s2n.readings, calls[k].s2n.writings)
                && Answered(n2ss[k], false, calls[k].n2s.readings, calls[k].n2s.writings)
                && (Stops(s2ns[k], n2ss[k]) <==> over && k == |s2ns| - 1)
      ensures over ==> s2ns != [] && ep.loop.model.stop
      ensures over && Over(s2ns[|s2ns| - 1]) && !s2ns[|s2ns| - 1].out.broken ==> write1.taken == read2.data
      ensures over && Over(n2ss[|n2ss| - 1]) && !n2ss[|n2ss| - 1].out.broken ==> write2.taken == read1.data
      ensures Heard2n() == More(old(Heard2n()), Used(Firsts(calls), s2ns)) && Heard2s() == More(old(Heard2s()), Used(Seconds(calls), n2ss))
    {
      hide Valid, Since, CallsMade, Answered, Used, More, Stops, Over, Firsts, Seconds;
      ghost var p1, p2, t1, t2 := read1.pos, read2.pos, write1.taken, write2.taken;
      ghost var h1, h2 := Heard2n(), Heard2s();
      SinceNow();
      NothingUsed(calls, h1, h2);
      over, s2ns, n2ss := false, [], [];
      while !over && |s2ns| < |calls|
        invariant Valid() && ep.loop.Region() == old(ep.loop.Region()) && ep.model.filps.Keys == old(ep.model.filps.Keys)
        invariant Since(p1, p2, t1, t2) && |s2ns| == |n2ss| <= |calls|
        invariant CallsMade(calls, s2ns, n2ss, over, h1, Heard2n(), h2, Heard2s())
        invariant over ==> s2ns != [] && Closes(s2ns[|s2ns| - 1], n2ss[|n2ss| - 1])
        decreases |calls| - |s2ns|
      {
        s2ns, n2ss, over := NextCall(calls, s2ns, n2ss, p1, p2, t1, t2, h1, h2);
      }
      CallsAre(calls, s2ns, n2ss, over, h1, Heard2n(), h2, Heard2s());
    }

    /** How the last call left the loop and its descriptors. */
    ghost predicate Closes(d1: Done, d2: Done)
      reads this, ep, ep.loop, read1, read2, write1, write2
    {
      && ep.loop.model.stop
      && (Over(d1) && !d1.out.broken ==> write1.taken == read2.data) && (Over(d2) && !d2.out.broken ==> write2.taken == read1.data)
    }

    method NextCall(calls: seq<Call>, s2ns: seq<Done>, n2ss: seq<Done>, ghost p1: nat, ghost p2: nat, ghost t1: seq<Byte>,
                    ghost t2: seq<Byte>, ghost h1: Answers, ghost h2: Answers)
        returns (s2ns2: seq<Done>, n2ss2: seq<Done>, over: bool)
      requires Valid() && Since(p1, p2, t1, t2) && |s2ns| == |n2ss| < |calls|
      requires CallsMade(calls, s2ns, n2ss, false, h1, Heard2n(), h2, Heard2s())
      modifies s2n, s2n.buf, n2s, n2s.buf, read1, write1, read2, write2
      modifies ep`refcnt, ep`model, ep.model.filps.Keys`fields, ep.loop, ep.loop.Region()
      ensures Valid() && ep.loop.Region() == old(ep.loop.Region()) && ep.model.filps.Keys == old(ep.model.filps.Keys)
      ensures Since(p1, p2, t1, t2) && |s2ns2| == |n2ss2| == |s2ns| + 1
      ensures CallsMade(calls, s2ns2, n2ss2, over, h1, Heard2n(), h2, Heard2s())
      ensures over ==> Closes(s2ns2[|s2ns|], n2ss2[|s2ns|])
    {
      hide Valid, Since, CallsMade, Answered, Used, More, Heard, Stops, Over, Firsts, Seconds;
      ghost var g1, g2 := Heard2n(), Heard2s();
      var d1, d2;
      d1, d2, over := OneCall(calls[|s2ns|], p1, p2, t1, t2);
      CalledMore(calls, s2ns, n2ss, d1, d2, over, h1, g1, Heard2n(), h2, g2, Heard2s());
      s2ns2, n2ss2 := s2ns + [d1], n2ss + [d2];
    }

    /** The calls so far, with what they used and what their descriptors heard. */
    static ghost predicate CallsMade(calls: seq<Call>, s2ns: seq<Done>, n2ss: seq<Done>, over: bool,
                                     h1: Answers, now1: Answers, h2: Answers, now2: Answers) {
      && |s2ns| == |n2ss| <= |calls|
      && (forall k :: 0 <= k < |s2ns| ==>
            && Answered(s2ns[k], false, calls[k].s2n.readings, calls[k].s2n.writings)
            && Answered(n2ss[k], false, calls[k].n2s.readings, calls[k].n2s.writings)
            && (Stops(s2ns[k], n2ss[k]) <==> over && k == |s2ns| - 1))
      && now1 == More(h1, Used(Firsts(calls), s2ns)) && now2 == More(h2, Used(Seconds(calls), n2ss))
    }

    static lemma CallsAre(calls: seq<Call>, s2ns: seq<Done>, n2ss: seq<Done>, over: bool,
                          h1: Answers, now1: Answers, h2: Answers, now2: Answers)
      requires CallsMade(calls, s2ns, n2ss, over, h1, now1, h2, now2)
      ensures |s2ns| == |n2ss| <= |calls|
      ensures forall k :: 0 <= k < |s2ns| ==>
                && Answered(s2ns[k], false, calls[k].s2n.readings, calls[k].s2n.writings)
                && Answered(n2ss[k], false, calls[k].n2s.readings, calls[k].n2s.writings)
                && (Stops(s2ns[k], n2ss[k]) <==> over && k == |s2ns| - 1)
      ensures now1 == More(h1, Used(Firsts(calls), s2ns)) && now2 == More(h2, Used(Seconds(calls), n2ss))
    {
      hide Answered, Used, More, Firsts, Seconds;
    }

    static lemma CalledMore(calls: seq<Call>, s2ns: seq<Done>, n2ss: seq<Done>, d1: Done, d2: Done, over: bool,
                            h1: Answers, g1: Answers, now1: Answers, h2: Answers, g2: Answers, now2: Answers)
      requires |s2ns| == |n2ss| < |calls| && CallsMade(calls, s2ns, n2ss, false, h1, g1, h2, g2)
      requires Answered(d1, false, calls[|s2ns|].s2n.readings, calls[|s2ns|].s2n.writings)
      requires Answered(d2, false, calls[|s2ns|].n2s.readings, calls[|s2ns|].n2s.writings)
      requires over == Stops(d1, d2) && Heard(g1, now1, d1, calls[|s2ns|].s2n) && Heard(g2, now2, d2, calls[|s2ns|].n2s)
      ensures CallsMade(calls, s2ns + [d1], n2ss + [d2], over, h1, now1, h2, now2)
    {
      hide Answered, Used, More, Heard, Stops;
      HeardMore(h1, g1, now1, Firsts(calls), s2ns, d1);
      HeardMore(h2, g2, now2, Seconds(calls), n2ss, d2);
    }

    static ghost function Firsts(calls: seq<Call>): (r: seq<Answers>)
      ensures |r| == |calls| && forall k :: 0 <= k < |calls| ==> r[k] == calls[k].s2n
    {
      seq(|calls|, i requires 0 <= i < |calls| => calls[i].s2n)
    }

    static ghost function Seconds(calls: seq<Call>): (r: seq<Answers>)
      ensures |r| == |calls| && forall k :: 0 <= k < |calls| ==> r[k] == calls[k].n2s
    {
      seq(|calls|, i requires 0 <= i < |calls| => calls[i].n2s)
    }

    static lemma NothingUsed(calls: seq<Call>, h1: Answers, h2: Answers)
      ensures CallsMade(calls, [], [], false, h1, h1, h2, h2)
    {
    }

    static lemma HeardMore(h: Answers, g: Answers, now: Answers, answers: seq<Answers>, dones: seq<Done>, d: Done)
      requires |dones| < |answers| && g == More(h, Used(answers, dones)) && Heard(g, now, d, answers[|dones|])
      ensures now == More(h, Used(answers, dones + [d]))
    {
      hide Used, More, Share;
      UsedMore(answers, dones, d);
      MoreTwice(h, Used(answers, dones), Share(answers[|dones|], d));
    }

    /** The reports, then the task. */
    method OneCall(call: Call, ghost p1: nat, ghost p2: nat, ghost t1: seq<Byte>, ghost t2: seq<Byte>)
        returns (d1: Done, d2: Done, over: bool)
      requires Valid() && Since(p1, p2, t1, t2)
      modifies s2n, s2n.buf, n2s, n2s.buf, read1, write1, read2, write2
      modifies ep`refcnt, ep`model, ep.model.filps.Keys`fields, ep.loop, ep.loop.Region()
      ensures Valid() && ep.loop.Region() == old(ep.loop.Region()) && ep.model.filps.Keys == old(ep.model.filps.Keys)
      ensures Since(p1, p2, t1, t2) && over == Stops(d1, d2) && (over ==> ep.loop.model.stop)
      ensures Answered(d1, false, call.s2n.readings, call.s2n.writings) && Answered(d2, false, call.n2s.readings, call.n2s.writings)
      ensures Over(d1) && !d1.out.broken ==> write1.taken == read2.data
      ensures Over(d2) && !d2.out.broken ==> write2.taken == read1.data
      ensures Heard(old(Heard2n()), Heard2n(), d1, call.s2n) && Heard(old(Heard2s()), Heard2s(), d2, call.n2s)
    {
      hide Valid, Since, Pipling.Ends, Answered, Heard;
      ghost var h1, h2 := Heard2n(), Heard2s();
      Tell(call.file, call.file2);
      Attached();
      SinceIs(p1, p2, t1, t2);
      ghost var q1, q2, u1, u2 := read1.pos, read2.pos, write1.taken, write2.taken;
      assert Heard2n() == h1 && Heard2s() == h2;
      d1, d2, over := Update(call.s2n, call.n2s);
      SinceChain(p1, p2, t1, t2, q1, q2, u1, u2);
      Counted(s2n, d1, read2, write1, call.s2n);
      Counted(n2s, d2, read1, write2, call.n2s);
    }

    lemma SinceNow()
      ensures Since(read1.pos, read2.pos, write1.taken, write2.taken)
    {
    }

    lemma Attached()
      requires Valid()
      ensures file in ep.model.filps && file2 in ep.model.filps
    {
      hide Epoll.Valid, Flows;
    }

    /** The poller's reports of one descriptor. */
    method TellOne(g: Aiocb, news: News)
      requires Valid() && (g == file || g == file2)
      modifies ep`refcnt, ep`model, ep.model.filps.Keys`fields, ep.loop, ep.loop.Region()
      ensures Valid() && ep.loop.Region() == old(ep.loop.Region()) && ep.model.filps.Keys == old(ep.model.filps.Keys)
      ensures unchanged(read1) && unchanged(read2) && unchanged(write1) && unchanged(write2)
    {
      hide Plugged, Flows, Loop.TaskLoop.Region;
      Notify(ep, g, file2, file, task, news.input, news.output, news.hup);
    }

    /** The poller's reports before a call. */
    method Tell(file: News, file2: News)
      requires Valid()
      modifies ep`refcnt, ep`model, ep.model.filps.Keys`fields, ep.loop, ep.loop.Region()
      ensures Valid() && ep.loop.Region() == old(ep.loop.Region()) && ep.model.filps.Keys == old(ep.model.filps.Keys)
      ensures unchanged(read1) && unchanged(read2) && unchanged(write1) && unchanged(write2)
    {
      hide Valid;
      TellOne(this.file, file);
      TellOne(this.file2, file2);
    }
  }
}
