/** The byte pumps of netcat.cpp: tx_pipling_t::pipling, which gives up whenever a side is not ready, leaving its
    task registered with that side, and is called again; and the blocking thread function. Whatever partial
    reads and writes, would-block results and errors occur, no byte is lost, repeated or reordered. */
module Pump {
  import LoopProofs
  import opened ReadinessModel
  import opened ReadinessProofs
  import ReadinessTheorems
  import opened Readiness

  type Byte = bv8

  // ---------------------------------------------------------------- the environment

  /** What recv makes of a call: it delivers at most so many bytes (none at the end of the input), it
      would block, or it fails. */
  datatype Reading = Ready(most: nat) | ReadAgain | ReadError

  /** What a write makes of a call: it takes at most so many bytes, after which the descriptor may be
      writable or not (a completion port takes everything and clears the flag); it would block; or it fails. */
  datatype Writing = Took(most: nat, writable: bool) | WriteAgain | WriteError

  function Min(a: nat, b: nat): nat { if a < b then a else b }

  /** A read delivers at least one byte while there are any. */
  function Delivered(most: nat, room: nat, rest: nat): nat {
    Min(if most == 0 then 1 else most, Min(room, rest))
  }

  /** The descriptor read from, with all the bytes it will ever deliver. */
  class Source {
    const filp: Aiocb
    const data: seq<Byte>
    var pos: nat
    ghost var heard: seq<Reading>       // history: what recv was answered
    ghost var got: seq<int>             // history: what recv returned

    constructor (filp: Aiocb, data: seq<Byte>)
      ensures this.filp == filp && this.data == data && pos == 0 && heard == [] && got == []
    {
      this.filp, this.data, pos := filp, data, 0;
      heard, got := [], [];
    }

    /** recv */
    method Recv(buf: array<Byte>, r: Reading) returns (n: int)
      requires pos <= |data| && buf.Length > 0
      modifies this, buf
      ensures if r.Ready? then
                && 0 <= n <= buf.Length && pos == old(pos) + n <= |data| && (n == 0 <==> old(pos) == |data|)
                && n == Delivered(r.most, buf.Length, |data| - old(pos)) && buf[..n] == data[old(pos)..pos]
              else n == -1 && pos == old(pos) && buf[..] == old(buf[..])
      ensures heard == old(heard) + [r] && got == old(got) + [n]
    {
      n := -1;
      if r.Ready? {
        n := Delivered(r.most, buf.Length, |data| - pos);
        forall i | 0 <= i < n { buf[i] := data[pos + i]; }
        pos := pos + n;
      }
      heard, got := heard + [r], got + [n];
    }
  }

  /** The descriptor written to, with all the bytes it took. */
  class Sink {
    const filp: Aiocb
    var taken: seq<Byte>
    ghost var heard: seq<Writing>       // history: what write was answered

    constructor (filp: Aiocb)
      ensures this.filp == filp && taken == [] && heard == []
    {
      this.filp, taken := filp, [];
      heard := [];
    }

    /** write, or WriteFile, of buf[off..len]. */
    method Write(buf: array<Byte>, off: nat, len: nat, w: Writing) returns (n: int)
      requires off < len <= buf.Length
      modifies this
      ensures if w.Took? then n == Min(w.most, len - off) && taken == old(taken) + buf[off..off + n]
              else n == -1 && taken == old(taken)
      ensures heard == old(heard) + [w]
    {
      n := -1;
      if w.Took? {
        n := Min(w.most, len - off);
        taken := taken + buf[off..off + n];
      }
      heard := heard + [w];
    }
  }

  /** Conservation: the bytes received are those written, followed by those waiting in the buffer; at
      end of file all have been received. */
  ghost predicate Flows(f: Source, t: Sink, buf: array<Byte>, off: int, len: int, eof: bool)
    reads f, t, buf
  {
    && buf.Length > 0 && 0 <= off <= len <= buf.Length && f.pos <= |f.data|
    && f.data[..f.pos] == t.taken + buf[off..len]
    && (eof ==> f.pos == |f.data|)
  }

  // ---------------------------------------------------------------- the flags of both sides

  /** Only the input side of a descriptor changed. */
  ghost predicate InSide(x: Filp, y: Filp) {
    y == x.(readable := y.readable, filterIn := y.filterIn, pollIn := y.pollIn)
  }

  ghost predicate OutSide(x: Filp, y: Filp) {
    y == x.(writable := y.writable, filterOut := y.filterOut, pollOut := y.pollOut)
  }

  /** Between the two states only the input side of f and the output side of t changed. */
  ghost predicate Sided(io: Io, r: Io, f: Aiocb, t: Aiocb) {
    && r.filps.Keys == io.filps.Keys && f in io.filps && t in io.filps && f != t
    && (forall g :: g in io.filps && g != f && g != t ==> r.filps[g] == io.filps[g])
    && InSide(io.filps[f], r.filps[f]) && OutSide(io.filps[t], r.filps[t])
  }

  lemma SidedChain(a: Io, b: Io, c: Io, f: Aiocb, t: Aiocb)
    requires Sided(a, b, f, t) && Sided(b, c, f, t)
    ensures Sided(a, c, f, t)
  {
  }

  /** Both descriptors are attached to the poller, and the task is one of its loop's. */
  ghost predicate Wired(s: System, f: Aiocb, t: Aiocb, task: Task) {
    && f in s.io.filps && Live(s.io.filps[f]) && t in s.io.filps && Live(s.io.filps[t]) && f != t
    && task in s.loop.tasks
  }

  /** The task is registered for: the kernel will report the side it waits for. */
  ghost predicate InputAwaited(io: Io, f: Aiocb, task: Task) {
    f in io.filps && io.filps[f].filterIn == task && f in io.kernel && io.kernel[f].input
  }

  ghost predicate OutputAwaited(io: Io, t: Aiocb, task: Task) {
    t in io.filps && io.filps[t].filterOut == task && t in io.kernel && io.kernel[t].output
  }

  /** What a pump may do to the poller. */
  ghost predicate Pumped(s: System, r: System, f: Aiocb, t: Aiocb) {
    Sided(s.io, r.io, f, t) && r.loop == s.loop.(holder := r.loop.holder)
  }

  lemma PumpedSelf(s: System, f: Aiocb, t: Aiocb, task: Task)
    requires Wired(s, f, t, task)
    ensures Pumped(s, s, f, t)
  {
  }

  lemma PumpedChain(a: System, b: System, c: System, f: Aiocb, t: Aiocb)
    requires Pumped(a, b, f, t) && Pumped(b, c, f, t)
    ensures Pumped(a, c, f, t)
  {
    hide Sided;
    SidedChain(a.io, b.io, c.io, f, t);
  }

  lemma PumpedWired(s: System, r: System, f: Aiocb, t: Aiocb, task: Task)
    requires Pumped(s, r, f, t) && Wired(s, f, t, task)
    ensures Wired(r, f, t, task)
  {
  }

  /** tx_aincb_update and tx_outcb_update only clear a flag of their side. */
  lemma UpdatePumped(s: System, f: Aiocb, t: Aiocb, task: Task, len: int, again: bool)
    requires Wired(s, f, t, task)
    ensures Pumped(s, UpdateIn(s, f, len, again), f, t) && Pumped(s, UpdateOut(s, t, len, again), f, t)
  {
  }

  /** tx_aincb_active of a side that is not ready registers the task. */
  lemma AwaitInput(s: System, f: Aiocb, t: Aiocb, task: Task)
    requires ReadinessProofs.Ready(s) && Wired(s, f, t, task) && !s.io.filps[f].readable && s.loop.taskq in s.loop.fam.lists
    ensures var r := ActiveIn(s, f, task);
            Pumped(s, r, f, t) && InputAwaited(r.io, f, task) && f in r.io.filps && !r.io.filps[f].readable
  {
    hide ReadinessProofs.Ready, ActiveIn, Wired, Pumped, InputAwaited, Live;
    WiredIn(s, f, t, task);
    ReadinessTheorems.KernelWants(s, f);
    ReadinessTheorems.AwaitInputIs(s, f, task);
    InPumped(s, ActiveIn(s, f, task), f, t, task);
  }

  lemma InPumped(s: System, r: System, f: Aiocb, t: Aiocb, task: Task)
    requires Wired(s, f, t, task) && r.loop == s.loop.(holder := r.loop.holder)
    requires r.io.filps == s.io.filps[f := s.io.filps[f].(filterIn := task, pollIn := true)]
    requires f in r.io.kernel && r.io.kernel[f].input
    ensures Pumped(s, r, f, t) && InputAwaited(r.io, f, task)
  {
  }

  lemma OutPumped(s: System, r: System, f: Aiocb, t: Aiocb, task: Task)
    requires Wired(s, f, t, task) && r.loop == s.loop.(holder := r.loop.holder)
    requires r.io.filps == s.io.filps[t := s.io.filps[t].(filterOut := task, pollOut := true)]
    requires t in r.io.kernel && r.io.kernel[t].output
    ensures Pumped(s, r, f, t) && OutputAwaited(r.io, t, task)
  {
  }

  lemma AwaitOutput(s: System, f: Aiocb, t: Aiocb, task: Task)
    requires ReadinessProofs.Ready(s) && Wired(s, f, t, task) && !s.io.filps[t].writable && s.loop.taskq in s.loop.fam.lists
    ensures var r := ActiveOut(s, t, task);
            Pumped(s, r, f, t) && OutputAwaited(r.io, t, task) && t in r.io.filps && !r.io.filps[t].writable
  {
    hide ReadinessProofs.Ready, ActiveOut, Wired, Pumped, OutputAwaited, Live;
    WiredIn(s, f, t, task);
    ReadinessTheorems.KernelWants(s, t);
    ReadinessTheorems.AwaitOutputIs(s, t, task);
    OutPumped(s, ActiveOut(s, t, task), f, t, task);
  }

  // ---------------------------------------------------------------- the resumable pump

  datatype Handed = Nobody | ToReader | ToWriter

  /** How a call ended: the value returned, the side its task was handed to and whether an error broke
      the loop; or the answers ran out while it was still running. */
  datatype Outcome = Returned(code: int, handed: Handed, broken: bool) | Running

  /** That, and how many of its answers it used. */
  datatype Done = Done(out: Outcome, recvs: nat, writes: nat)

  /** Answers after which the loop goes on; standard output has no flags, and every failure of it is an error. */
  ghost predicate Clean(stdout: bool, rs: seq<Reading>, ws: seq<Writing>) {
    ReadError !in rs && WriteError !in ws && (stdout ==> WriteAgain !in ws)
  }

  /** A call breaks at the first error it meets, and goes on otherwise until it returns or an answer is missing. */
  ghost predicate Answered(d: Done, stdout: bool, readings: seq<Reading>, writings: seq<Writing>) {
    && d.recvs <= |readings| && d.writes <= |writings|
    && (if d.out.Returned? && d.out.broken then
          || (d.recvs > 0 && readings[d.recvs - 1] == ReadError && Clean(stdout, readings[..d.recvs - 1], writings[..d.writes]))
          || (d.writes > 0 && !Clean(stdout, [], [writings[d.writes - 1]]) && Clean(stdout, readings[..d.recvs], writings[..d.writes - 1]))
        else Clean(stdout, readings[..d.recvs], writings[..d.writes]))
    && (d.out.Running? ==> d.recvs == |readings| || d.writes == |writings|)
  }

  /** What a call began with. */
  datatype Begun = Begun(sys: System, pos: nat, taken: seq<Byte>, tasks: set<Task>, eof: bool,
                         heard: seq<Reading>, got: seq<int>, wrote: seq<Writing>)

  /** The poller is in order and both descriptors are its own. */
  ghost predicate Plugged(ep: Epoll, f: Aiocb, t: Aiocb, task: Task)
    reads ep, ep.model.filps.Keys`fields, ep.loop, ep.loop.Region()
  {
    ep.Valid() && Wired(ep.Sys(), f, t, task)
  }

  /** A result of recv: tx_aincb_update, then tx_readable. */
  method NoteRead(ep: Epoll, f: Aiocb, ghost t: Aiocb, ghost task: Task, err: int, again: bool) returns (readable: bool)
    requires Plugged(ep, f, t, task)
    modifies ep`model, f`fields
    ensures Plugged(ep, f, t, task) && ep.loop.Region() == old(ep.loop.Region())
    ensures Pumped(old(ep.Sys()), ep.Sys(), f, t)
    ensures readable == ep.model.filps[f].readable == (old(ep.model.filps[f].readable) && !(err < 0 && again))
  {
    hide Epoll.Valid, Wired, Pumped;
    ghost var s, tasks := ep.Sys(), ep.loop.Region();
    WiredIn(s, f, t, task);
    UpdatePumped(s, f, t, task, err, again);
    PumpedWired(s, UpdateIn(s, f, err, again), f, t, task);
    ep.UpdateIn(f, err, again);
    assert ep.loop.model == s.loop && ep.loop.Region() == tasks;
    ReadsFlags(ep, f);
    readable := f.fields.readable;
  }

  /** A result of write: tx_outcb_update, then tx_writable. */
  method NoteWrite(ep: Epoll, ghost f: Aiocb, t: Aiocb, ghost task: Task, err: int, again: bool) returns (writable: bool)
    requires Plugged(ep, f, t, task)
    modifies ep`model, t`fields
    ensures Plugged(ep, f, t, task) && ep.loop.Region() == old(ep.loop.Region())
    ensures Pumped(old(ep.Sys()), ep.Sys(), f, t)
    ensures writable == ep.model.filps[t].writable == (old(ep.model.filps[t].writable) && !(err < 0 && again))
  {
    hide Epoll.Valid, Wired, Pumped;
    ghost var s, tasks := ep.Sys(), ep.loop.Region();
    WiredIn(s, f, t, task);
    UpdatePumped(s, f, t, task, err, again);
    PumpedWired(s, UpdateOut(s, t, err, again), f, t, task);
    ep.UpdateOut(t, err, again);
    assert ep.loop.model == s.loop && ep.loop.Region() == tasks;
    ReadsFlags(ep, t);
    writable := t.fields.writable;
  }

  lemma WiredIn(s: System, f: Aiocb, t: Aiocb, task: Task)
    requires Wired(s, f, t, task)
    ensures f in s.io.filps && t in s.io.filps && f != t && task in s.loop.tasks && Live(s.io.filps[f]) && Live(s.io.filps[t])
  {
  }

  lemma ReadsFlags(ep: Epoll, f: Aiocb)
    requires ep.Valid() && f in ep.model.filps
    ensures f.fields == ep.model.filps[f]
  {
    ep.At(f);
  }

  lemma EpollReady(ep: Epoll)
    requires ep.Valid()
    ensures ReadinessProofs.Ready(ep.Sys()) && ep.loop.model.taskq in ep.loop.model.fam.lists
  {
    hide LoopProofs.Inv;
    ReadyParts(ep.Sys());
  }

  /** tx_aincb_active */
  method HandToReader(ep: Epoll, f: Aiocb, ghost t: Aiocb, task: Task)
    requires Plugged(ep, f, t, task) && !ep.model.filps[f].readable
    modifies ep`refcnt, ep`model, f`fields, ep.loop, ep.loop.Region()
    ensures Plugged(ep, f, t, task) && ep.loop.Region() == old(ep.loop.Region())
    ensures Pumped(old(ep.Sys()), ep.Sys(), f, t) && InputAwaited(ep.model, f, task) && !ep.model.filps[f].readable
  {
    hide Epoll.Valid, Wired, Pumped, InputAwaited, ReadinessProofs.Ready, ActiveIn;
    ghost var s := ep.Sys();
    WiredIn(s, f, t, task);
    EpollReady(ep);
    AwaitInput(s, f, t, task);
    PumpedWired(s, ActiveIn(s, f, task), f, t, task);
    ep.ActiveIn(f, task);
  }

  /** tx_outcb_prepare */
  method HandToWriter(ep: Epoll, ghost f: Aiocb, t: Aiocb, task: Task)
    requires Plugged(ep, f, t, task) && !ep.model.filps[t].writable
    modifies ep`refcnt, ep`model, t`fields, ep.loop, ep.loop.Region()
    ensures Plugged(ep, f, t, task) && ep.loop.Region() == old(ep.loop.Region())
    ensures Pumped(old(ep.Sys()), ep.Sys(), f, t) && OutputAwaited(ep.model, t, task) && !ep.model.filps[t].writable
  {
    hide Epoll.Valid, Wired, Pumped, OutputAwaited, ReadinessProofs.Ready, ActiveOut;
    ghost var s := ep.Sys();
    WiredIn(s, f, t, task);
    EpollReady(ep);
    AwaitOutput(s, f, t, task);
    PumpedWired(s, ActiveOut(s, t, task), f, t, task);
    ep.ActiveOut(t, task);
  }

  class Pipling {
    var eof: bool
    var off: int
    var len: int
    const buf: array<Byte>

    constructor (size: nat)
      requires size > 0
      ensures buf.Length == size && fresh(buf) && !eof && off == len == 0
    {
      eof, off, len := false, 0, 0;
      buf := new Byte[size];
    }

    ghost predicate Valid(f: Source, t: Sink)
      reads this, buf, f, t
    {
      Flows(f, t, buf, off, len, eof)
    }

    /** recv into the empty buffer, with `eof |= (err == 0)`. */
    method Receive(f: Source, t: Sink, r: Reading) returns (err: int)
      requires Valid(f, t) && off == len && !eof
      modifies `eof, f, buf
      ensures old(f.pos) <= f.pos && -1 <= err <= buf.Length && (err == -1 <==> !r.Ready?)
      ensures Flows(f, t, buf, 0, if err == -1 then 0 else err, eof) && (eof <==> err == 0) && 0 <= off <= buf.Length
      ensures f.heard == old(f.heard) + [r] && f.got == old(f.got) + [err]
    {
      ghost var before := f.data[..f.pos];
      err := f.Recv(buf, r);
      eof := eof || err == 0;
      assert err != -1 ==> f.data[..f.pos] == before + buf[0..err];
    }

    /** Reading into the empty buffer. After a failed recv `len` and `off` are those of an empty buffer
        too, unless the error broke the loop. */
    method Fill(ep: Epoll, f: Source, t: Sink, ghost task: Task, r: Reading) returns (broken: bool)
      requires Valid(f, t) && Plugged(ep, f.filp, t.filp, task) && off == len && !eof && ep.model.filps[f.filp].readable
      modifies `eof, `off, `len, f, buf, ep`model, f.filp`fields
      ensures Valid(f, t) && old(f.pos) <= f.pos && (eof ==> off == len)
      ensures Plugged(ep, f.filp, t.filp, task) && Pumped(old(ep.Sys()), ep.Sys(), f.filp, t.filp)
      ensures ep.loop.Region() == old(ep.loop.Region()) && (broken <==> r.ReadError?)
      ensures f.heard == old(f.heard) + [r] && |f.got| == |old(f.got)| + 1 && old(f.got) <= f.got
      ensures eof <==> f.got[|old(f.got)|] == 0
    {
      hide Epoll.Valid, Wired, Pumped, Plugged, Flows;
      var err, readable := ReceiveAndNote(ep, f, t, task, r);
      broken := KeepOn(ep, f, t, task, err, readable);
    }

    method KeepOn(ghost ep: Epoll, f: Source, t: Sink, ghost task: Task, result: int, readable: bool) returns (broken: bool)
      requires off == len && -1 <= result <= buf.Length && 0 <= off <= buf.Length && (eof <==> result == 0)
      requires Flows(f, t, buf, 0, if result == -1 then 0 else result, eof) && Plugged(ep, f.filp, t.filp, task)
      modifies `off, `len
      ensures Valid(f, t) && (eof ==> off == len) && (broken <==> result == -1 && readable)
      ensures Plugged(ep, f.filp, t.filp, task) && ep.Sys() == old(ep.Sys()) && ep.loop.Region() == old(ep.loop.Region())
    {
      hide Plugged, Flows;
      ghost var filps, tasks := ep.model.filps.Keys, ep.loop.Region();
      broken := Keep(f, t, result, readable);
    }

    /** recv, tx_aincb_update and tx_readable */
    method ReceiveAndNote(ep: Epoll, f: Source, t: Sink, ghost task: Task, r: Reading) returns (err: int, readable: bool)
      requires Valid(f, t) && Plugged(ep, f.filp, t.filp, task) && off == len && !eof && ep.model.filps[f.filp].readable
      modifies `eof, f, buf, ep`model, f.filp`fields
      ensures old(f.pos) <= f.pos && -1 <= err <= buf.Length && (err == -1 <==> !r.Ready?) && 0 <= off <= buf.Length
      ensures Flows(f, t, buf, 0, if err == -1 then 0 else err, eof) && (eof <==> err == 0)
      ensures Plugged(ep, f.filp, t.filp, task) && Pumped(old(ep.Sys()), ep.Sys(), f.filp, t.filp)
      ensures ep.loop.Region() == old(ep.loop.Region()) && (readable <==> !r.ReadAgain?)
      ensures f.heard == old(f.heard) + [r] && f.got == old(f.got) + [err]
    {
      hide Epoll.Valid, Wired, Pumped, Plugged, Flows;
      ghost var filps, tasks, s := ep.model.filps.Keys, ep.loop.Region(), ep.Sys();
      err := Receive(f, t, r);
      assert ep.Sys() == s;
      readable := NoteRead(ep, f.filp, t.filp, task, err, r.ReadAgain?);
    }

    /** What recv answered becomes the buffer's ends, unless its error breaks the loop. */
    method Keep(f: Source, t: Sink, result: int, readable: bool) returns (broken: bool)
      requires off == len && -1 <= result <= buf.Length && 0 <= off <= buf.Length && (eof <==> result == 0)
      requires Flows(f, t, buf, 0, if result == -1 then 0 else result, eof)
      modifies `off, `len
      ensures Valid(f, t) && (eof ==> off == len) && (broken <==> result == -1 && readable)
    {
      var err := result;
      broken := false;
      if err == -1 {
        err := 0;
        if readable {
          assert buf[off..len] == buf[0..0];
          broken := true;
          return;
        }
      }
      len, off := err, 0;
    }

    /** Writing what is in the buffer. */
    method Send(f: Source, t: Sink, w: Writing) returns (err: int)
      requires Valid(f, t) && off < len
      modifies `off, t
      ensures Valid(f, t) && old(t.taken) <= t.taken && (err == -1 <==> !w.Took?) && -1 <= err && t.heard == old(t.heard) + [w]
    {
      ghost var rest := buf[off..len];
      err := t.Write(buf, off, len, w);
      if err != -1 {
        assert rest == buf[off..off + err] + buf[off + err..len];
        off := off + err;
      }
    }

    /** tx_outcb_write: a would-block clears TX_WRITABLE, and so may a write that was taken. */
    method Drain(ep: Epoll, f: Source, t: Sink, ghost task: Task, w: Writing) returns (err: int, writable: bool)
      requires Valid(f, t) && Plugged(ep, f.filp, t.filp, task) && off < len && ep.model.filps[t.filp].writable
      modifies `off, t, ep`model, t.filp`fields
      ensures Valid(f, t) && old(t.taken) <= t.taken && (err == -1 <==> !w.Took?) && t.heard == old(t.heard) + [w]
      ensures Plugged(ep, f.filp, t.filp, task) && Pumped(old(ep.Sys()), ep.Sys(), f.filp, t.filp)
      ensures ep.loop.Region() == old(ep.loop.Region())
      ensures writable == ep.model.filps[t.filp].writable && (writable <==> w.WriteError? || (w.Took? && w.writable))
    {
      hide Epoll.Valid, Wired, Pumped, Plugged, Flows;
      ghost var filps, tasks, s := ep.model.filps.Keys, ep.loop.Region(), ep.Sys();
      err := Send(f, t, w);
      assert ep.Sys() == s;
      var cleared := w.WriteAgain? || (w.Took? && !w.writable);
      writable := NoteWrite(ep, f.filp, t.filp, task, if cleared then -1 else err, cleared);
    }

    /** What is kept while a call goes on that began with b and has been answered rs and ws since. */
    ghost predicate Going(ep: Epoll, f: Source, t: Sink, task: Task, b: Begun, rs: seq<Reading>, ws: seq<Writing>)
      reads this, buf, f, t, ep, ep.model.filps.Keys`fields, ep.loop, ep.loop.Region()
    {
      && Valid(f, t) && Grown(f, t, b, rs, ws)
      && Plugged(ep, f.filp, t.filp, task) && Pumped(b.sys, ep.Sys(), f.filp, t.filp) && ep.loop.Region() == b.tasks
    }

    /** Nothing is taken back, the histories have grown by rs and ws, and the end of the input is known exactly when recv
        has said so. */
    ghost predicate Grown(f: Source, t: Sink, b: Begun, rs: seq<Reading>, ws: seq<Writing>)
      reads this, f, t
    {
      && b.pos <= f.pos && b.taken <= t.taken && f.heard == b.heard + rs && t.heard == b.wrote + ws
      && b.got <= f.got && (eof <==> b.eof || 0 in f.got[|b.got|..])
    }

    lemma GrownRead(f: Source, t: Sink, b: Begun, rs: seq<Reading>, ws: seq<Writing>, r: Reading, got: seq<int>, n: int)
      requires b.pos <= f.pos && b.taken <= t.taken && f.heard == b.heard + rs + [r] && t.heard == b.wrote + ws
      requires b.got <= got && !b.eof && 0 !in got[|b.got|..] && f.got == got + [n] && (eof <==> n == 0)
      ensures Grown(f, t, b, rs + [r], ws)
    {
      assert f.got[|b.got|..] == got[|b.got|..] + [n];
    }

    method FillOn(ep: Epoll, f: Source, t: Sink, ghost task: Task, r: Reading,
                  ghost b: Begun, ghost rs: seq<Reading>, ghost ws: seq<Writing>) returns (broken: bool)
      requires Going(ep, f, t, task, b, rs, ws) && off == len && !eof && ep.model.filps[f.filp].readable
      modifies `eof, `off, `len, f, buf, ep`model, f.filp`fields
      ensures Going(ep, f, t, task, b, rs + [r], ws) && (eof ==> off == len) && (broken <==> r.ReadError?)
    {
      hide Valid, Plugged, Pumped;
      ghost var m, got := ep.Sys(), f.got;
      broken := Fill(ep, f, t, task, r);
      assert f.got == got + [f.got[|got|]];
      GrownRead(f, t, b, rs, ws, r, got, f.got[|got|]);
      PumpedChain(b.sys, m, ep.Sys(), f.filp, t.filp);
    }

    method DrainOn(ep: Epoll, f: Source, t: Sink, ghost task: Task, w: Writing,
                   ghost b: Begun, ghost rs: seq<Reading>, ghost ws: seq<Writing>) returns (err: int, writable: bool)
      requires Going(ep, f, t, task, b, rs, ws) && off < len && ep.model.filps[t.filp].writable
      modifies `off, t, ep`model, t.filp`fields
      ensures Going(ep, f, t, task, b, rs, ws + [w]) && (err == -1 <==> !w.Took?)
      ensures err == -1 && writable <==> w.WriteError?
    {
      hide Valid, Plugged, Pumped;
      ghost var m := ep.Sys();
      err, writable := Drain(ep, f, t, task, w);
      PumpedChain(b.sys, m, ep.Sys(), f.filp, t.filp);
    }

    /** WriteFile to standard output, which has no flags. */
    method PrintOn(ghost ep: Epoll, f: Source, t: Sink, ghost task: Task, w: Writing,
                   ghost b: Begun, ghost rs: seq<Reading>, ghost ws: seq<Writing>) returns (err: int)
      requires Going(ep, f, t, task, b, rs, ws) && off < len
      modifies `off, t
      ensures Going(ep, f, t, task, b, rs, ws + [w]) && (err == -1 <==> !w.Took?)
    {
      hide Plugged, Pumped, Valid;
      ghost var filps, region := ep.model.filps.Keys, ep.loop.Region();
      err := Send(f, t, w);
    }

    lemma Flags(ep: Epoll, f: Source, t: Sink, task: Task, b: Begun, rs: seq<Reading>, ws: seq<Writing>)
      requires Going(ep, f, t, task, b, rs, ws)
      ensures Plugged(ep, f.filp, t.filp, task) && f.filp in ep.model.filps && t.filp in ep.model.filps
      ensures f.filp.fields == ep.model.filps[f.filp] && t.filp.fields == ep.model.filps[t.filp]
      ensures Valid(f, t) && ep.loop.Region() == b.tasks && 0 <= off <= len
    {
      hide Epoll.Valid, Pumped;
      ReadsFlags(ep, f.filp);
      ReadsFlags(ep, t.filp);
    }

    method ReadLater(ep: Epoll, f: Source, t: Sink, task: Task, ghost b: Begun, ghost rs: seq<Reading>, ghost ws: seq<Writing>)
      requires Going(ep, f, t, task, b, rs, ws) && !f.filp.fields.readable
      modifies ep`refcnt, ep`model, f.filp`fields, ep.loop, ep.loop.Region()
      ensures Going(ep, f, t, task, b, rs, ws) && InputAwaited(ep.model, f.filp, task) && !ep.model.filps[f.filp].readable
    {
      hide Valid, Plugged, Pumped, InputAwaited;
      Flags(ep, f, t, task, b, rs, ws);
      ghost var m := ep.Sys();
      HandToReader(ep, f.filp, t.filp, task);
      PumpedChain(b.sys, m, ep.Sys(), f.filp, t.filp);
    }

    method WriteLater(ep: Epoll, f: Source, t: Sink, task: Task, ghost b: Begun, ghost rs: seq<Reading>, ghost ws: seq<Writing>)
      requires Going(ep, f, t, task, b, rs, ws) && !t.filp.fields.writable
      modifies ep`refcnt, ep`model, t.filp`fields, ep.loop, ep.loop.Region()
      ensures Going(ep, f, t, task, b, rs, ws) && OutputAwaited(ep.model, t.filp, task) && !ep.model.filps[t.filp].writable
    {
      hide Valid, Plugged, Pumped, OutputAwaited;
      Flags(ep, f, t, task, b, rs, ws);
      ghost var m := ep.Sys();
      HandToWriter(ep, f.filp, t.filp, task);
      PumpedChain(b.sys, m, ep.Sys(), f.filp, t.filp);
    }

    /** How a call may end: what it returned, or the answer it was missing. */
    ghost predicate Ends(d: Done, f: Source, t: Sink, io: Io, task: Task, stdout: bool,
                         readings: seq<Reading>, writings: seq<Writing>)
      reads this, f, t
    {
      && Answered(d, stdout, readings, writings) && f.filp in io.filps && t.filp in io.filps
      && match d.out
         case Returned(code, handed, broken) =>
           && (code == 1 <==> handed != Nobody) && (code == 0 || code == 1)
           && (handed == ToReader ==>
                 off == len && !eof && !broken && InputAwaited(io, f.filp, task) && !io.filps[f.filp].readable)
           && (handed == ToWriter ==>
                 off < len && !stdout && !broken && OutputAwaited(io, t.filp, task) && !io.filps[t.filp].writable)
           && (code == 0 && !broken ==> eof && t.taken == f.data)
         case Running =>
           || (off == len && !eof && io.filps[f.filp].readable && d.recvs == |readings|)
           || (off < len && (stdout || io.filps[t.filp].writable) && d.writes == |writings|)
    }

    /** The part of the loop that reads. */
    method Take(ep: Epoll, f: Source, t: Sink, task: Task, ghost stdout: bool,
                readings: seq<Reading>, i: nat, ghost writings: seq<Writing>, j: nat, ghost b: Begun)
        returns (done: bool, d: Done, i2: nat)
      requires i <= |readings| && j <= |writings| && Going(ep, f, t, task, b, readings[..i], writings[..j])
      requires (!eof || off < len) && Clean(stdout, readings[..i], writings[..j])
      modifies `eof, `off, `len, f, buf, f.filp`fields, ep`refcnt, ep`model, ep.loop, ep.loop.Region()
      ensures i <= i2 <= |readings| && Going(ep, f, t, task, b, readings[..i2], writings[..j])
      ensures done ==> d.recvs == i2 && d.writes == j && Ends(d, f, t, ep.model, task, stdout, readings, writings)
      ensures !done ==> Clean(stdout, readings[..i2], writings[..j])
      ensures !done && old(off == len) ==> i2 == i + 1
      ensures !done && old(off < len) ==> off < len && i2 == i
    {
      hide Going, Plugged, InputAwaited, OutputAwaited, Ends, Clean, Valid;
      Flags(ep, f, t, task, b, readings[..i], writings[..j]);
      done, d, i2 := false, Done(Running, i, 0), i;
      if off == len && !f.filp.fields.readable {
        ReadLater(ep, f, t, task, b, readings[..i], writings[..j]);
        Flags(ep, f, t, task, b, readings[..i], writings[..j]);
        HandedOver(f, t, ep.model, task, stdout, readings, i, writings, j, ToReader);
        return true, Done(Returned(1, ToReader, false), i, j), i;
      }
      if off == len {
        if i == |readings| {
          Starved(f, t, ep.model, task, stdout, readings, i, writings, j);
          return true, Done(Running, i, j), i;
        }
        assert readings[..i + 1] == readings[..i] + [readings[i]];
        var broken := FillOn(ep, f, t, task, readings[i], b, readings[..i], writings[..j]);
        i2 := i + 1;
        Flags(ep, f, t, task, b, readings[..i2], writings[..j]);
        ReadCleanly(stdout, readings, i, writings[..j]);
        if broken {
          Broken(f, t, ep.model, task, stdout, readings, i2, writings, j);
          return true, Done(Returned(0, Nobody, true), i2, j), i2;
        }
      }
    }

    lemma ReadCleanly(stdout: bool, readings: seq<Reading>, i: nat, ws: seq<Writing>)
      requires i < |readings| && Clean(stdout, readings[..i], ws)
      ensures Clean(stdout, readings[..i + 1], ws) <==> readings[i] != ReadError
    {
      assert readings[..i + 1] == readings[..i] + [readings[i]];
    }

    lemma WroteCleanly(stdout: bool, rs: seq<Reading>, writings: seq<Writing>, j: nat)
      requires j < |writings| && Clean(stdout, rs, writings[..j])
      ensures Clean(stdout, rs, writings[..j + 1]) <==> Clean(stdout, [], [writings[j]])
    {
      assert writings[..j + 1] == writings[..j] + [writings[j]];
    }

    /** The ways a call ends before the whole input is written. */
    lemma HandedOver(f: Source, t: Sink, io: Io, task: Task, stdout: bool,
                     readings: seq<Reading>, i: nat, writings: seq<Writing>, j: nat, handed: Handed)
      requires i <= |readings| && j <= |writings| && Clean(stdout, readings[..i], writings[..j]) && handed != Nobody
      requires f.filp in io.filps && t.filp in io.filps
      requires handed == ToReader ==> off == len && !eof && InputAwaited(io, f.filp, task) && !io.filps[f.filp].readable
      requires handed == ToWriter ==> off < len && !stdout && OutputAwaited(io, t.filp, task) && !io.filps[t.filp].writable
      ensures Ends(Done(Returned(1, handed, false), i, j), f, t, io, task, stdout, readings, writings)
    {
      hide Clean, InputAwaited, OutputAwaited;
    }

    lemma Starved(f: Source, t: Sink, io: Io, task: Task, stdout: bool, readings: seq<Reading>, i: nat, writings: seq<Writing>, j: nat)
      requires i <= |readings| && j <= |writings| && Clean(stdout, readings[..i], writings[..j])
      requires f.filp in io.filps && t.filp in io.filps
      requires || (off == len && !eof && io.filps[f.filp].readable && i == |readings|)
               || (off < len && (stdout || io.filps[t.filp].writable) && j == |writings|)
      ensures Ends(Done(Running, i, j), f, t, io, task, stdout, readings, writings)
    {
      hide Clean, InputAwaited, OutputAwaited;
    }

    lemma Broken(f: Source, t: Sink, io: Io, task: Task, stdout: bool, readings: seq<Reading>, i: nat, writings: seq<Writing>, j: nat)
      requires i <= |readings| && j <= |writings| && f.filp in io.filps && t.filp in io.filps
      requires || (i > 0 && readings[i - 1] == ReadError && Clean(stdout, readings[..i - 1], writings[..j]))
               || (j > 0 && !Clean(stdout, [], [writings[j - 1]]) && Clean(stdout, readings[..i], writings[..j - 1]))
      ensures Ends(Done(Returned(0, Nobody, true), i, j), f, t, io, task, stdout, readings, writings)
    {
      hide Clean, InputAwaited, OutputAwaited;
    }

    /** The write of the loop; writable says whether its error is one. */
    method WriteOne(ep: Epoll, f: Source, t: Sink, ghost task: Task, stdout: bool, w: Writing,
                    ghost b: Begun, ghost rs: seq<Reading>, ghost ws: seq<Writing>) returns (err: int, writable: bool)
      requires Going(ep, f, t, task, b, rs, ws) && off < len && (!stdout ==> ep.model.filps[t.filp].writable)
      modifies `off, t, t.filp`fields, ep`model
      ensures Going(ep, f, t, task, b, rs, ws + [w]) && (err == -1 && writable <==> !Clean(stdout, [], [w]))
    {
      hide Going, Plugged;
      if stdout {
        err := PrintOn(ep, f, t, task, w, b, rs, ws);
        writable := true;
      } else {
        err, writable := DrainOn(ep, f, t, task, w, b, rs, ws);
      }
    }

    /** The part of the loop that writes. */
    method Give(ep: Epoll, f: Source, t: Sink, task: Task, stdout: bool,
                ghost readings: seq<Reading>, i: nat, writings: seq<Writing>, j: nat, ghost b: Begun)
        returns (done: bool, d: Done, j2: nat)
      requires i <= |readings| && j <= |writings| && Going(ep, f, t, task, b, readings[..i], writings[..j])
      requires Clean(stdout, readings[..i], writings[..j])
      modifies `off, t, t.filp`fields, ep`refcnt, ep`model, ep.loop, ep.loop.Region()
      ensures j <= j2 <= |writings| && Going(ep, f, t, task, b, readings[..i], writings[..j2])
      ensures done ==> d.recvs == i && d.writes == j2 && Ends(d, f, t, ep.model, task, stdout, readings, writings)
      ensures !done ==> Clean(stdout, readings[..i], writings[..j2])
      ensures !done && old(off < len) ==> j2 == j + 1
    {
      hide Going, Plugged, InputAwaited, OutputAwaited, Ends, Clean, Valid;
      Flags(ep, f, t, task, b, readings[..i], writings[..j]);
      done, d, j2 := false, Done(Running, 0, j), j;
      if off < len && (stdout || t.filp.fields.writable) {
        if j == |writings| {
          Starved(f, t, ep.model, task, stdout, readings, i, writings, j);
          return true, Done(Running, i, j), j;
        }
        assert writings[..j + 1] == writings[..j] + [writings[j]];
        var err, writable := WriteOne(ep, f, t, task, stdout, writings[j], b, readings[..i], writings[..j]);
        j2 := j + 1;
        Flags(ep, f, t, task, b, readings[..i], writings[..j2]);
        WroteCleanly(stdout, readings[..i], writings, j);
        done, d := err == -1 && writable, Done(Returned(0, Nobody, true), i, j2);
        if done { Broken(f, t, ep.model, task, stdout, readings, i, writings, j2); }
        return;
      }
      if off < len {
        WriteLater(ep, f, t, task, b, readings[..i], writings[..j]);
        Flags(ep, f, t, task, b, readings[..i], writings[..j]);
        HandedOver(f, t, ep.model, task, stdout, readings, i, writings, j, ToWriter);
        return true, Done(Returned(1, ToWriter, false), i, j), j;
      }
    }

    /** tx_pipling_t::pipling, observed until it returns or an answer is missing; with stdout the target is
        NULL, and what is written goes to standard output. A call that returns 1 has left its task registered
        with the side that was not ready. */
    method Pump(ep: Epoll, f: Source, t: Sink, task: Task, stdout: bool, readings: seq<Reading>, writings: seq<Writing>)
        returns (d: Done)
      requires Valid(f, t) && Plugged(ep, f.filp, t.filp, task)
      modifies this, buf, f, t, f.filp`fields, t.filp`fields, ep`refcnt, ep`model, ep.loop, ep.loop.Region()
      ensures Ends(d, f, t, ep.model, task, stdout, readings, writings)
      ensures Going(ep, f, t, task, old(Beginning(ep, f, t)), readings[..d.recvs], writings[..d.writes])
    {
      hide Going, Plugged, InputAwaited, OutputAwaited, Ends, Valid, Clean;
      ghost var b := Beginning(ep, f, t);
      Starts(ep, f, t, task, stdout);
      var i, j := 0, 0;
      assert readings[..0] == [] && writings[..0] == [];
      while !eof || off < len
        invariant 0 <= i <= |readings| && 0 <= j <= |writings|
        invariant Going(ep, f, t, task, b, readings[..i], writings[..j]) && Clean(stdout, readings[..i], writings[..j])
        decreases |readings| - i + |writings| - j
      {
        Flags(ep, f, t, task, b, readings[..i], writings[..j]);
        ghost var i1, j1, waiting := i, j, off < len;
        var done: bool;
        done, d, i := Take(ep, f, t, task, stdout, readings, i, writings, j, b);
        if done {
          return;
        }
        Flags(ep, f, t, task, b, readings[..i], writings[..j]);
        done, d, j := Give(ep, f, t, task, stdout, readings, i, writings, j, b);
        if done {
          return;
        }
      }
      d := Done(Returned(0, Nobody, false), i, j);
      Finished(ep, f, t, task, stdout, readings, i, writings, j, b);
    }

    ghost function Beginning(ep: Epoll, f: Source, t: Sink): Begun
      reads this, f, t, ep, ep.loop
    {
      Begun(ep.Sys(), f.pos, t.taken, ep.loop.Region(), eof, f.heard, f.got, t.heard)
    }

    lemma Starts(ep: Epoll, f: Source, t: Sink, task: Task, stdout: bool)
      requires Valid(f, t) && Plugged(ep, f.filp, t.filp, task)
      ensures Going(ep, f, t, task, Beginning(ep, f, t), [], []) && Clean(stdout, [], [])
    {
      hide Epoll.Valid, Pumped, Valid;
      PumpedSelf(ep.Sys(), f.filp, t.filp, task);
    }

    lemma Finished(ep: Epoll, f: Source, t: Sink, task: Task, stdout: bool, readings: seq<Reading>, i: nat,
                   writings: seq<Writing>, j: nat, b: Begun)
      requires i <= |readings| && j <= |writings| && Going(ep, f, t, task, b, readings[..i], writings[..j]) && eof && off >= len
      requires Clean(stdout, readings[..i], writings[..j])
      ensures Ends(Done(Returned(0, Nobody, false), i, j), f, t, ep.model, task, stdout, readings, writings)
    {
      hide Plugged, Pumped, InputAwaited, OutputAwaited, Clean, Going, Grown;
      Flags(ep, f, t, task, b, readings[..i], writings[..j]);
    }
  }

  // ---------------------------------------------------------------- the blocking pump

  /** The thread function pipling: any error ends it, and so does the end of the input once everything
      is written. `waiting` is what its buffer still holds. */
  method Thread(f: Source, t: Sink, readings: seq<Reading>, writings: seq<Writing>)
      returns (d: Done, waiting: seq<Byte>)
    requires f.pos <= |f.data| && f.data[..f.pos] == t.taken
    modifies f, t
    ensures f.pos <= |f.data| && f.data[..f.pos] == t.taken + waiting && old(f.pos) <= f.pos && old(t.taken) <= t.taken
    ensures d.recvs <= |readings| && d.writes <= |writings|
    ensures f.heard == old(f.heard) + readings[..d.recvs] && t.heard == old(t.heard) + writings[..d.writes] && old(f.got) <= f.got
    ensures if d.out.Returned? && d.out.broken then
              || (d.recvs > 0 && !readings[d.recvs - 1].Ready? && AllWell(readings[..d.recvs - 1], writings[..d.writes]))
              || (d.writes > 0 && !writings[d.writes - 1].Took? && AllWell(readings[..d.recvs], writings[..d.writes - 1]))
            else AllWell(readings[..d.recvs], writings[..d.writes])
    ensures d.out.Returned? && !d.out.broken ==> t.taken == f.data && waiting == [] && 0 in f.got[|old(f.got)|..]
    ensures d.out.Running? ==>
              if waiting == [] then d.recvs == |readings| && 0 !in f.got[|old(f.got)|..] else d.writes == |writings|
  {
    hide Flows, AllWell;
    var buf := new Byte[8192];
    var off, len, eof, i, j := 0, 0, false, 0, 0;
    ghost var got := f.got;
    FlowsBegin(f, t, buf);
    while !eof || off < len
      invariant Flows(f, t, buf, off, len, eof) && 0 <= off <= len <= buf.Length && old(f.pos) <= f.pos && old(t.taken) <= t.taken
      invariant 0 <= i <= |readings| && 0 <= j <= |writings| && fresh(buf)
      invariant f.heard == old(f.heard) + readings[..i] && t.heard == old(t.heard) + writings[..j]
      invariant got <= f.got && (eof <==> 0 in f.got[|got|..]) && AllWell(readings[..i], writings[..j])
      decreases |readings| - i + |writings| - j
    {
      if off == len {
        FlowsAre(f, t, buf, off, len, eof);
        if i == |readings| {
          return Done(Running, i, j), [];
        }
        ghost var before := f.got;
        var err := ReadMore(f, t, buf, off, readings[i]);
        ReadWell(readings, i, writings[..j]);
        assert f.got[|got|..] == before[|got|..] + [err];
        i := i + 1;
        if err == -1 {
          FlowsAre(f, t, buf, off, len, eof);
          return Done(Returned(0, Nobody, true), i, j), [];
        }
        eof := eof || err == 0;
        len, off := err, 0;
      }
      if off < len {
        FlowsAre(f, t, buf, off, len, eof);
        if j == |writings| {
          return Done(Running, i, j), buf[off..len];
        }
        var err := WriteMore(f, t, buf, off, len, eof, writings[j]);
        WroteWell(readings[..i], writings, j);
        j := j + 1;
        if err == -1 {
          FlowsAre(f, t, buf, off, len, eof);
          return Done(Returned(0, Nobody, true), i, j), buf[off..len];
        }
        off := off + err;
      }
    }
    FlowsAre(f, t, buf, off, len, eof);
    return Done(Returned(0, Nobody, false), i, j), [];
  }

  lemma FlowsBegin(f: Source, t: Sink, buf: array<Byte>)
    requires f.pos <= |f.data| && f.data[..f.pos] == t.taken && buf.Length > 0
    ensures Flows(f, t, buf, 0, 0, false) && AllWell([], [])
  {
  }

  lemma FlowsAre(f: Source, t: Sink, buf: array<Byte>, off: int, len: int, eof: bool)
    requires Flows(f, t, buf, off, len, eof)
    ensures 0 <= off <= len <= buf.Length && f.pos <= |f.data| && f.data[..f.pos] == t.taken + buf[off..len]
    ensures off == len ==> f.data[..f.pos] == t.taken && (eof ==> t.taken == f.data)
  {
  }

  lemma ReadWell(readings: seq<Reading>, i: nat, ws: seq<Writing>)
    requires i < |readings| && AllWell(readings[..i], ws)
    ensures readings[..i + 1] == readings[..i] + [readings[i]] && (AllWell(readings[..i + 1], ws) <==> readings[i].Ready?)
  {
    assert readings[..i + 1] == readings[..i] + [readings[i]];
  }

  lemma WroteWell(rs: seq<Reading>, writings: seq<Writing>, j: nat)
    requires j < |writings| && AllWell(rs, writings[..j])
    ensures writings[..j + 1] == writings[..j] + [writings[j]] && (AllWell(rs, writings[..j + 1]) <==> writings[j].Took?)
  {
    assert writings[..j + 1] == writings[..j] + [writings[j]];
  }

  /** No call failed. */
  ghost predicate AllWell(rs: seq<Reading>, ws: seq<Writing>) {
    (forall r :: r in rs ==> r.Ready?) && forall w :: w in ws ==> w.Took?
  }

  /** P_READ into the empty buffer. */
  method ReadMore(f: Source, t: Sink, buf: array<Byte>, ghost off: int, r: Reading) returns (n: int)
    requires Flows(f, t, buf, off, off, false)
    modifies f, buf
    ensures n == -1 ==> !r.Ready? && Flows(f, t, buf, off, off, false)
    ensures n != -1 ==> r.Ready? && Flows(f, t, buf, 0, n, n == 0)
    ensures old(f.pos) <= f.pos && -1 <= n <= buf.Length && f.heard == old(f.heard) + [r] && f.got == old(f.got) + [n]
  {
    ghost var before := f.data[..f.pos];
    n := f.Recv(buf, r);
    assert n != -1 ==> f.data[..f.pos] == before + buf[0..n];
  }

  /** P_WRITE of what the buffer holds. */
  method WriteMore(f: Source, t: Sink, buf: array<Byte>, off: int, len: int, ghost eof: bool, w: Writing) returns (n: int)
    requires Flows(f, t, buf, off, len, eof) && off < len
    modifies t
    ensures n == -1 ==> !w.Took? && Flows(f, t, buf, off, len, eof)
    ensures n != -1 ==> w.Took? && 0 <= n <= len - off && Flows(f, t, buf, off + n, len, eof)
    ensures old(t.taken) <= t.taken && t.heard == old(t.heard) + [w]
  {
    ghost var rest := buf[off..len];
    n := t.Write(buf, off, len, w);
    assert n != -1 ==> rest == buf[off..off + n] + buf[off + n..len];
  }
}
