/** tx_aiocb.cpp over tx_epoll.cpp as a state machine on values, against a kernel that reports each
    one-shot registration at most once. */
module ReadinessModel {
  import LoopModel

  type Task = LoopModel.Task
  type OptTask = LoopModel.OptTask
  type LoopState = LoopModel.LoopState

  /** The flags and waiters of a tx_aiocb. */
  datatype Filp = Filp(
    attached: bool, detached: bool,
    pollIn: bool, pollOut: bool,
    readable: bool, writable: bool,
    filterIn: OptTask, filterOut: OptTask)

  const NEW_FILP := Filp(false, false, false, false, false, true, null, null)

  class Aiocb {
    var fields: Filp

    constructor (fields: Filp)
      ensures this.fields == fields
    {
      this.fields := fields;
    }
  }

  /** What the kernel has been asked to report, once, of a descriptor. */
  datatype Mask = Mask(input: bool, output: bool)

  const NO_MASK := Mask(false, false)

  predicate Live(x: Filp) { x.attached && !x.detached }

  function Wanted(x: Filp): Mask { Mask(x.pollIn, x.pollOut) }

  predicate Polled(x: Filp) { x.pollIn || x.pollOut }

  datatype Io = Io(
    epoll: object,                    // what tx_holder is compared with
    poller: Task,                     // epoll_task
    refcnt: int,                      // epoll_refcnt
    filps: map<Aiocb, Filp>,
    kernel: map<Aiocb, Mask>)         // environment: the descriptors added to the epoll set

  datatype System = System(loop: LoopState, io: Io)

  ghost predicate Usable(s: System) {
    && s.loop.taskq in s.loop.fam.lists && s.io.poller in s.loop.tasks
    && forall f :: f in s.io.filps ==>
         && (s.io.filps[f].filterIn != null ==> s.io.filps[f].filterIn in s.loop.tasks)
         && (s.io.filps[f].filterOut != null ==> s.io.filps[f].filterOut in s.loop.tasks)
  }

  function Put(io: Io, f: Aiocb, x: Filp): Io { io.(filps := io.filps[f := x]) }

  // ---------------------------------------------------------------- tx_epoll.cpp

  /** A poller with registrations claims the right to block. */
  function Hold(s: System): System {
    if s.io.refcnt > 0 && s.loop.holder == null then s.(loop := s.loop.(holder := s.io.epoll)) else s
  }

  /** A poller without registrations gives it up. */
  function Release(s: System): System {
    if s.loop.holder == s.io.epoll && s.io.refcnt == 0 then s.(loop := s.loop.(holder := null)) else s
  }

  /** EPOLL_CTL_MOD with the flags of x, one-shot. */
  function Armed(io: Io, f: Aiocb, x: Filp, count: int): Io {
    Put(io, f, x).(kernel := io.kernel[f := Wanted(x)], refcnt := io.refcnt + count)
  }

  /** tx_epoll_attach: EPOLL_CTL_ADD with an empty mask. */
  function Attach(s: System, f: Aiocb): System {
    s.(io := Put(s.io, f, NEW_FILP.(attached := true)).(kernel := s.io.kernel[f := NO_MASK]))
  }

  function PollIn(s: System, f: Aiocb): System
    requires f in s.io.filps
  {
    var x := s.io.filps[f];
    Hold(if x.pollIn then s else s.(io := Armed(s.io, f, x.(pollIn := true), if x.pollOut then 0 else 1)))
  }

  function PollOut(s: System, f: Aiocb): System
    requires f in s.io.filps
  {
    var x := s.io.filps[f];
    Hold(if x.pollOut then s else s.(io := Armed(s.io, f, x.(pollOut := true), if x.pollIn then 0 else 1)))
  }

  /** tx_epoll_detach: the POLL flags stay set. */
  function Detach(s: System, f: Aiocb): System
    requires f in s.io.filps
  {
    var x := s.io.filps[f];
    var u := if Live(x) then s.(io := Put(s.io, f, x.(detached := true)).(kernel := s.io.kernel - {f})) else s;
    if Polled(x) then Release(u.(io := u.io.(refcnt := u.io.refcnt - 1))) else u
  }

  // ---------------------------------------------------------------- tx_aiocb.cpp

  ghost function ActiveIn(s: System, f: Aiocb, task: OptTask): System
    requires s.loop.taskq in s.loop.fam.lists && f in s.io.filps && (task != null ==> task in s.loop.tasks)
  {
    var x := s.io.filps[f];
    if x.readable then s.(loop := LoopModel.Activated(s.loop, task, f))
    else
      var u := s.(io := Put(s.io, f, x.(filterIn := task)));
      if x.pollIn then u else PollIn(u, f)
  }

  ghost function ActiveOut(s: System, f: Aiocb, task: OptTask): System
    requires s.loop.taskq in s.loop.fam.lists && f in s.io.filps && (task != null ==> task in s.loop.tasks)
  {
    var x := s.io.filps[f];
    if x.writable then s.(loop := LoopModel.Activated(s.loop, task, f))
    else
      var u := s.(io := Put(s.io, f, x.(filterOut := task)));
      if x.pollOut then u else PollOut(u, f)
  }

  function CancelIn(s: System, f: Aiocb, verify: object?): System
    requires f in s.io.filps
  {
    var x := s.io.filps[f];
    if verify == x.filterIn then s.(io := Put(s.io, f, x.(filterIn := null))) else s
  }

  function CancelOut(s: System, f: Aiocb, verify: object?): System
    requires f in s.io.filps
  {
    var x := s.io.filps[f];
    if verify == x.filterOut then s.(io := Put(s.io, f, x.(filterOut := null))) else s
  }

  /** The result of read or write: would-block clears the flag. */
  function UpdateIn(s: System, f: Aiocb, len: int, again: bool): System
    requires f in s.io.filps
  {
    if len < 0 && again then s.(io := Put(s.io, f, s.io.filps[f].(readable := false))) else s
  }

  function UpdateOut(s: System, f: Aiocb, len: int, again: bool): System
    requires f in s.io.filps
  {
    if len < 0 && again then s.(io := Put(s.io, f, s.io.filps[f].(writable := false))) else s
  }

  datatype Connecting = Connected | InProgress | Refused

  /** tx_aiocb_connect, for what connect(2) answers. */
  ghost function Connect(s: System, f: Aiocb, task: OptTask, answer: Connecting): System
    requires s.loop.taskq in s.loop.fam.lists && f in s.io.filps && (task != null ==> task in s.loop.tasks)
  {
    var x := s.io.filps[f];
    match answer
    case InProgress => ActiveOut(s.(io := Put(s.io, f, x.(writable := false, readable := false))), f, task)
    case Connected => System(LoopModel.Activated(s.loop, task, f), Put(s.io, f, x.(writable := true)))
    case Refused => System(LoopModel.Activated(s.loop, task, f), Put(s.io, f, x.(writable := true, readable := true)))
  }

  // ---------------------------------------------------------------- tx_epoll_polling

  datatype Report = Report(filp: Aiocb, input: bool, output: bool, hup: bool)

  /** What the kernel may answer: registered descriptors, each once, with conditions asked for, or
      errors, which need no asking. */
  ghost predicate Reported(io: Io, batch: seq<Report>) {
    && (forall i, j :: 0 <= i < j < |batch| ==> batch[i].filp != batch[j].filp)
    && forall e :: e in batch ==>
         && e.filp in io.kernel && io.kernel[e.filp] != NO_MASK
         && (e.input || e.output || e.hup)
         && (e.input ==> io.kernel[e.filp].input) && (e.output ==> io.kernel[e.filp].output)
  }

  /** epoll_wait: what is reported is registered no more. */
  ghost function Waited(io: Io, batch: seq<Report>): (r: Io)
    ensures r.filps == io.filps && r.epoll == io.epoll && r.poller == io.poller && r.refcnt == io.refcnt
  {
    io.(kernel := map f | f in io.kernel :: if exists e :: e in batch && e.filp == f then NO_MASK else io.kernel[f])
  }

  /** The output waiter of f runs. */
  ghost function WakeOut(s: System, f: Aiocb): (r: System)
    requires Usable(s) && f in s.io.filps
    ensures Usable(r) && r.io.filps.Keys == s.io.filps.Keys && r.loop.tasks.Keys == s.loop.tasks.Keys
  {
    hide LoopModel.Step;
    var x := s.io.filps[f];
    System(LoopModel.Activated(s.loop, x.filterOut, f), Put(s.io, f, x.(pollOut := false, writable := true, filterOut := null)))
  }

  ghost function WakeIn(s: System, f: Aiocb): (r: System)
    requires Usable(s) && f in s.io.filps
    ensures Usable(r) && r.io.filps.Keys == s.io.filps.Keys && r.loop.tasks.Keys == s.loop.tasks.Keys
  {
    hide LoopModel.Step;
    var x := s.io.filps[f];
    System(LoopModel.Activated(s.loop, x.filterIn, f), Put(s.io, f, x.(pollIn := false, readable := true, filterIn := null)))
  }

  /** tx_epoll_pollit: what was not reported is registered again. */
  ghost function Rearm(s: System, f: Aiocb): (r: System)
    requires Usable(s) && f in s.io.filps
    ensures Usable(r) && r.io.filps.Keys == s.io.filps.Keys && r.loop.tasks.Keys == s.loop.tasks.Keys
  {
    if Polled(s.io.filps[f]) then s.(io := Armed(s.io, f, s.io.filps[f], 1)) else s
  }

  /** The body of the loop over the reports. */
  ghost function Deliver(s: System, e: Report): (r: System)
    requires Usable(s) && e.filp in s.io.filps
    ensures Usable(r) && r.io.filps.Keys == s.io.filps.Keys && r.loop.tasks.Keys == s.loop.tasks.Keys
  {
    hide WakeIn, WakeOut, Rearm;
    var c := s.(io := s.io.(refcnt := s.io.refcnt - 1));
    if e.hup then WakeIn(WakeOut(c, e.filp), e.filp)
    else
      var a := if e.output then WakeOut(c, e.filp) else c;
      var b := if e.input then WakeIn(a, e.filp) else a;
      Rearm(b, e.filp)
  }

  ghost function DeliverAll(s: System, batch: seq<Report>): (r: System)
    requires Usable(s) && forall e :: e in batch ==> e.filp in s.io.filps
    ensures Usable(r) && r.io.filps.Keys == s.io.filps.Keys && r.loop.tasks.Keys == s.loop.tasks.Keys
    decreases |batch|
  {
    if batch == [] then s else DeliverAll(Deliver(s, batch[0]), batch[1..])
  }

  ghost function Polling(s: System, batch: seq<Report>): System
    requires Usable(s) && forall e :: e in batch ==> e.filp in s.io.filps
  {
    var d := Release(DeliverAll(s.(io := Waited(s.io, batch)), batch));
    d.(loop := LoopModel.PollActivate(d.loop, d.io.poller))
  }

  // ---------------------------------------------------------------- runs

  datatype Event =
    | AttachEvent(f: Aiocb)
    | ActiveInEvent(f: Aiocb, task: OptTask)
    | ActiveOutEvent(f: Aiocb, task: OptTask)
    | CancelInEvent(f: Aiocb, verify: object?)
    | CancelOutEvent(f: Aiocb, verify: object?)
    | UpdateInEvent(f: Aiocb, len: int, again: bool)
    | UpdateOutEvent(f: Aiocb, len: int, again: bool)
    | ConnectEvent(f: Aiocb, task: OptTask, answer: Connecting)
    | DetachEvent(f: Aiocb)
    | PollingEvent(batch: seq<Report>)
    | LoopEvent(loop: LoopState)       // anything else that happens to the loop
}
