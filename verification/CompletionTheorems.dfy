/** Every interleaving of user calls and completions: a block is deleted exactly once, at the last of
    the detach and the completions, and never while the kernel holds an operation on it. */
module CompletionTheorems {
  import opened IntrusiveList
  import LoopModel
  import LoopProofs
  import LoopTheorems
  import LoopEnds
  import opened ReadinessModel
  import ReadinessProofs
  import opened CompletionModel
  import opened CompletionProofs

  datatype Event =
    | OpenEvent(f: Socket, b: Block, listen: bool)
    | WaitInEvent(f: Socket, task: OptTask, newfd: int, taken: bool)
    | WaitOutEvent(f: Socket, task: OptTask)
    | SendEvent(f: Socket, answer: Sending)
    | StartConnectEvent(f: Socket, task: OptTask, taken: bool)
    | AcceptEvent(f: Socket)
    | CancelEvent(f: Socket, side: Side, verify: object?)
    | DrainedEvent(f: Socket)
    | CloseEvent(f: Socket)
    | CompleteEvent(b: Block, side: Side)
    | LoopEvent(loop: LoopState)         // the poller rejoins, or anything else happens to the loop

  ghost predicate Held(p: Port, f: Socket) { f in p.sockets && Live(p.sockets[f].flags) }

  ghost predicate Known(w: World, task: OptTask) { task != null ==> task in w.loop.tasks }

  /** What a caller and the kernel must respect: operations other than cancelling and closing are for attached
      descriptors, an AcceptEx that is taken had a socket, a listener that holds an accepted socket does not meet a would-block, and the
      kernel completes only what is outstanding. */
  ghost predicate Enabled(w: World, e: Event) {
    match e
    case OpenEvent(f, b, _) => f !in w.port.sockets && Fresh(w.port, b)
    case WaitInEvent(f, task, newfd, taken) => Held(w.port, f) && (newfd != -1 || !taken) && Known(w, task)
    case WaitOutEvent(f, task) => Held(w.port, f) && Known(w, task)
    case SendEvent(f, _) => Held(w.port, f)
    case StartConnectEvent(f, task, _) => Held(w.port, f) && Known(w, task)
    case AcceptEvent(f) => Held(w.port, f)
    case CancelEvent(f, _, _) => f in w.port.sockets
    case DrainedEvent(f) => f in w.port.sockets && !(Held(w.port, f) && w.port.sockets[f].listen && w.port.sockets[f].flags.readable)
    case CloseEvent(f) => f in w.port.sockets
    case CompleteEvent(b, side) => Returnable(w.port, b, side)
    case LoopEvent(l) => ReadinessProofs.LoopMoved(w.loop, l)
  }

  /** The pointers the code follows lead somewhere. */
  ghost predicate Defined(w: World, e: Event) {
    && Tasks(w) && w.port.head in w.port.fam.lists
    && match e
       case WaitInEvent(f, _, _, _) => Open?(w.port, f)
       case WaitOutEvent(f, _) => Open?(w.port, f)
       case SendEvent(f, _) => Open?(w.port, f)
       case StartConnectEvent(f, _, _) => Open?(w.port, f)
       case AcceptEvent(f) => Open?(w.port, f)
       case CloseEvent(f) => Held(w.port, f) ==> Open?(w.port, f)
       case CompleteEvent(b, _) => b in w.port.blocks && (w.port.blocks[b].filp != null ==> w.port.blocks[b].filp in w.port.sockets)
       case _ => true
  }

  ghost function Next(w: World, e: Event): World
    requires Enabled(w, e) && Defined(w, e)
  {
    match e
    case OpenEvent(f, b, listen) => Open(w, f, b, listen)
    case WaitInEvent(f, task, newfd, taken) => WaitIn(w, f, task, newfd, taken)
    case WaitOutEvent(f, task) => WaitOut(w, f, task)
    case SendEvent(f, answer) => SendOut(w, f, answer)
    case StartConnectEvent(f, task, taken) => ConnectOut(w, f, task, taken)
    case AcceptEvent(f) => Accept(w, f).0
    case CancelEvent(f, side, verify) => CancelWait(w, f, side, verify)
    case DrainedEvent(f) => DrainedIn(w, f)
    case CloseEvent(f) => Close(w, f)
    case CompleteEvent(b, side) => Complete(w, b, side)
    case LoopEvent(l) => w.(loop := l)
  }

  /** From w the event e leads to r. */
  ghost predicate Does(w: World, e: Event, r: World) { Enabled(w, e) && Defined(w, e) && r == Next(w, e) }

  // ---------------------------------------------------------------- the invariant over runs

  lemma SoundBasics(w: World)
    requires Sound(w)
    ensures Tasks(w) && LoopProofs.Inv(w.loop) && w.port.head in w.port.fam.lists
    ensures w.loop.taskq in w.loop.fam.lists && w.port.poller in w.loop.tasks
  {
    hide LoopProofs.Inv, Blocks, Sockets, Kernel, Freed, WellFormed;
  }

  lemma HeldOpen(w: World, f: Socket)
    requires Sound(w) && Held(w.port, f)
    ensures Attached(w, f) && Open?(w.port, f)
  {
    hide Sound, LoopProofs.Inv, Tasks, PortOk, Match;
    Fitting(w, f);
  }

  /** In a sound world whatever is allowed is defined. */
  lemma AlwaysDefined(w: World, e: Event)
    requires Sound(w) && Enabled(w, e)
    ensures Defined(w, e)
  {
    SoundBasics(w);
    hide Sound, LoopProofs.Inv, Tasks, Held, Open?, Returnable, BlockOk;
    match e
    case WaitInEvent(f, _, _, _) => HeldOpen(w, f);
    case WaitOutEvent(f, _) => HeldOpen(w, f);
    case SendEvent(f, _) => HeldOpen(w, f);
    case StartConnectEvent(f, _, _) => HeldOpen(w, f);
    case AcceptEvent(f) => HeldOpen(w, f);
    case CloseEvent(f) => if Held(w.port, f) { HeldOpen(w, f); }
    case CompleteEvent(b, side) => CompleteReady(w, b, side);
    case _ =>
  }

  lemma CallSound(w: World, e: Event)
    requires Sound(w) && Enabled(w, e) && Defined(w, e) && (e.WaitInEvent? || e.WaitOutEvent? || e.SendEvent? || e.StartConnectEvent?)
    ensures Sound(Next(w, e))
  {
    hide Sound, Tasks, WaitIn, WaitOut, SendOut, ConnectOut, Held, Open?, Attached;
    HeldOpen(w, e.f);
    match e
    case WaitInEvent(f, task, newfd, taken) => WaitInKeeps(w, f, task, newfd, taken);
    case WaitOutEvent(f, task) => WaitOutKeeps(w, f, task);
    case SendEvent(f, answer) => SendOutKeeps(w, f, answer);
    case StartConnectEvent(f, task, taken) => ConnectKeeps(w, f, task, taken);
  }

  lemma EndSound(w: World, e: Event)
    requires Sound(w) && Enabled(w, e) && Defined(w, e) && (e.AcceptEvent? || e.CloseEvent?)
    ensures Sound(Next(w, e))
  {
    hide Sound, Tasks, Accept, Close, Held, Open?, Attached;
    match e
    case AcceptEvent(f) =>
      HeldOpen(w, f);
      AcceptKeeps(w, f);
    case CloseEvent(f) => CloseKeeps(w, f);
  }

  lemma LoopSound(w: World, l: LoopState)
    requires Sound(w) && ReadinessProofs.LoopMoved(w.loop, l)
    ensures Sound(w.(loop := l))
  {
    hide LoopProofs.Inv, PortOk;
  }

  lemma NextSound(w: World, e: Event)
    requires Sound(w) && Enabled(w, e)
    ensures Defined(w, e) && Sound(Next(w, e))
  {
    hide Sound, Tasks, Defined, Open, Accept, CancelWait, DrainedIn, Close, Complete, Returnable, Fresh, ReadinessProofs.LoopMoved;
    AlwaysDefined(w, e);
    match e
    case OpenEvent(f, b, listen) => OpenKeeps(w, f, b, listen);
    case CancelEvent(f, side, verify) => CancelKeeps(w, f, side, verify);
    case DrainedEvent(f) => DrainedKeepsIff(w, f);
    case CompleteEvent(b, side) => CompleteKeeps(w, b, side);
    case LoopEvent(l) => LoopSound(w, l);
    case AcceptEvent(_) => EndSound(w, e);
    case CloseEvent(_) => EndSound(w, e);
    case _ => hide Next, Enabled; CallSound(w, e);
  }

  /** A run of calls and completions. */
  ghost predicate Run(w: World, es: seq<Event>, r: World)
    decreases |es|
  {
    if es == [] then r == w else Enabled(w, es[0]) && Defined(w, es[0]) && Run(Next(w, es[0]), es[1..], r)
  }

  lemma {:induction false} RunKeeps(w: World, es: seq<Event>, r: World)
    requires Sound(w) && Run(w, es, r)
    ensures Sound(r)
    decreases |es|
  {
    hide Sound, Enabled, Defined, Next;
    if es != [] {
      NextSound(w, es[0]);
      RunKeeps(Next(w, es[0]), es[1..], r);
    }
  }

  /** tx_completion_port_init */
  ghost predicate NewPort(w: World) {
    && LoopProofs.Inv(w.loop) && w.loop.taskq in w.loop.fam.lists && w.port.poller in w.loop.tasks
    && w.port == Port(w.port.poller, w.port.head, Family(map[w.port.head := []], map[]), map[], map[], map[], [])
  }

  lemma NewSound(w: World)
    requires NewPort(w)
    ensures Sound(w)
  {
    hide LoopProofs.Inv;
  }

  /** In every run of a new port: exact reference counts, mirrored flags, one list entry per block, no
      block deleted twice or while the kernel holds an operation on it. */
  lemma RunSound(w: World, es: seq<Event>, r: World)
    requires NewPort(w) && Run(w, es, r)
    ensures Sound(r)
  {
    hide NewPort, Sound, Run;
    NewSound(w);
    RunKeeps(w, es, r);
  }

  // ---------------------------------------------------------------- what it means

  lemma BlockIs(w: World, b: Block)
    requires Sound(w) && b in w.port.blocks
    ensures var y, k := w.port.blocks[b], Outstanding(w.port, b);
            1 <= y.refcnt == One(y.filp != null) + One(k.recv) + One(k.send) <= 3
  {
    hide LoopProofs.Inv;
    assert BlockOk(w.port, b);
  }

  /** In every run of a new port a block is referenced at most three times, and its count is what the
      descriptor and the kernel hold. */
  lemma ReferencesAre(w: World, es: seq<Event>, r: World, b: Block)
    requires NewPort(w) && Run(w, es, r) && b in r.port.blocks
    ensures var y, k := r.port.blocks[b], Outstanding(r.port, b);
            1 <= y.refcnt == One(y.filp != null) + One(k.recv) + One(k.send) <= 3
  {
    hide NewPort, Run, Sound;
    RunSound(w, es, r);
    BlockIs(r, b);
  }

  lemma DeletedIs(w: World, b: Block)
    requires Sound(w) && (b in w.port.blocks || b in w.port.freed)
    ensures b in w.port.freed
       <==> Outstanding(w.port, b) == NOTHING && forall f :: f in w.port.sockets ==> w.port.sockets[f].privp != b
  {
    hide LoopProofs.Inv, WellFormed;
    if b in w.port.freed {
      forall f | f in w.port.sockets ensures w.port.sockets[f].privp != b {
        assert SocketOk(w.port, f);
      }
    } else {
      assert BlockOk(w.port, b);
    }
  }

  /** A block that was handed out is deleted exactly when no descriptor has it and the kernel holds no
      operation on it; so a completion never finds a deleted block, and none is leaked. */
  lemma DeletedIff(w: World, es: seq<Event>, r: World, b: Block)
    requires NewPort(w) && Run(w, es, r) && (b in r.port.blocks || b in r.port.freed)
    ensures b in r.port.freed
       <==> Outstanding(r.port, b) == NOTHING && forall f :: f in r.port.sockets ==> r.port.sockets[f].privp != b
    ensures Distinct(r.port.freed) && (b in r.port.freed ==> b !in r.port.blocks)
  {
    hide NewPort, Run, Sound, Distinct;
    RunSound(w, es, r);
    DeletedIs(r, b);
    FreedOnce(r);
  }

  lemma FreedOnce(w: World)
    requires Sound(w)
    ensures Distinct(w.port.freed) && forall b :: b in w.port.freed ==> b !in w.port.blocks
  {
    hide LoopProofs.Inv, Blocks, Sockets, Kernel, Listed, Distinct;
  }

  lemma ListedIs(w: World, b: Block)
    requires Sound(w)
    ensures w.port.head in w.port.fam.lists
    ensures b in w.port.fam.lists[w.port.head] <==> b in w.port.blocks
    ensures b in w.port.freed ==> b !in w.port.fam.lists[w.port.head]
  {
    hide LoopProofs.Inv;
    assert b in w.port.blocks <==> b in w.port.fam.at;
  }

  /** port_list never holds a deleted block, and holds every other one, in every run of a new port. */
  lemma ListedIff(w: World, es: seq<Event>, r: World, b: Block)
    requires NewPort(w) && Run(w, es, r)
    ensures r.port.head in r.port.fam.lists
    ensures b in r.port.fam.lists[r.port.head] <==> b in r.port.blocks
    ensures b in r.port.freed ==> b !in r.port.fam.lists[r.port.head]
  {
    hide NewPort, Run, Sound;
    RunSound(w, es, r);
    ListedIs(r, b);
  }

  lemma MirrorIs(w: World, f: Socket)
    requires Sound(w) && Held(w.port, f)
    ensures var s := w.port.sockets[f];
            && s.privp != null && s.privp in w.port.blocks && s.privp !in w.port.freed
            && s.flags.pollIn == Outstanding(w.port, s.privp).recv && s.flags.pollOut == Outstanding(w.port, s.privp).send
  {
    Fitting(w, f);
    FreedOnce(w);
    hide LoopProofs.Inv, PortOk;
  }

  /** While a descriptor is attached its POLL flags say what the kernel is doing for it, in every run of a
      new port. */
  lemma FlagsMirror(w: World, es: seq<Event>, r: World, f: Socket)
    requires NewPort(w) && Run(w, es, r) && Held(r.port, f)
    ensures var s := r.port.sockets[f];
            && s.privp != null && s.privp in r.port.blocks && s.privp !in r.port.freed
            && s.flags.pollIn == Outstanding(r.port, s.privp).recv && s.flags.pollOut == Outstanding(r.port, s.privp).send
  {
    hide NewPort, Run, Sound, Held;
    RunSound(w, es, r);
    MirrorIs(r, f);
  }

  // ---------------------------------------------------------------- who waits

  function AfterWait(x: Filp, listen: bool, task: OptTask, taken: bool): Filp {
    if x.readable then x
    else if x.pollIn then x.(filterIn := task)
    else if taken then x.(filterIn := task, pollIn := true)
    else if listen then x.(filterIn := task)
    else x.(readable := true, filterIn := null)
  }

  function AfterSend(x: Filp, answer: Sending): Filp {
    if x.pollOut || answer.Sent? then x
    else if answer.Taken? then x.(writable := false, pollOut := true)
    else x.(pollOut := false, writable := true, filterOut := null)
  }

  function AfterConnect(x: Filp, task: OptTask, taken: bool): Filp {
    if !x.pollOut && taken then x.(writable := false, pollOut := true, filterOut := task)
    else if x.writable then x else x.(filterOut := task)
  }

  function AfterCancel(x: Filp, side: Side, verify: object?): Filp {
    if side == Recv then if verify == x.filterIn then x.(filterIn := null) else x
    else if verify == x.filterOut then x.(filterOut := null) else x
  }

  /** What an event makes of the flags and waiters of the socket f. */
  ghost function FlagsAfter(w: World, e: Event, f: Socket): Filp
    requires f in w.port.sockets
  {
    var s, x := w.port.sockets[f], w.port.sockets[f].flags;
    match e
    case WaitInEvent(g, task, _, taken) => if g != f then x else AfterWait(x, s.listen, task, taken)
    case WaitOutEvent(g, task) => if g != f || x.writable then x else x.(filterOut := task)
    case SendEvent(g, answer) => if g != f then x else AfterSend(x, answer)
    case StartConnectEvent(g, task, taken) => if g != f then x else AfterConnect(x, task, taken)
    case AcceptEvent(g) => if g == f && s.listen && x.readable then x.(readable := false) else x
    case CancelEvent(g, side, verify) => if g != f then x else AfterCancel(x, side, verify)
    case DrainedEvent(g) => if g == f then x.(readable := false) else x
    case CloseEvent(g) => if g == f && Live(x) then x.(detached := true) else x
    case CompleteEvent(b, side) =>
      if b in w.port.blocks && w.port.blocks[b].filp == f then AfterReturn(x, side) else x
    case _ => x
  }

  ghost predicate FlagsGo(w: World, e: Event, r: World, f: Socket)
    requires f in w.port.sockets
  {
    && f in r.port.sockets && r.port.sockets[f].listen == w.port.sockets[f].listen
    && r.port.sockets[f].flags == FlagsAfter(w, e, f)
  }

  lemma InFlags(w: World, g: Socket, task: OptTask, newfd: int, taken: bool, f: Socket)
    requires Tasks(w) && Open?(w.port, g) && Known(w, task) && f in w.port.sockets
    ensures FlagsGo(w, WaitInEvent(g, task, newfd, taken), WaitIn(w, g, task, newfd, taken), f)
  {
    hide LoopModel.Activated, LoopModel.Kept, Tasks;
  }

  lemma OutFlags(w: World, g: Socket, task: OptTask, f: Socket)
    requires Tasks(w) && Open?(w.port, g) && Known(w, task) && f in w.port.sockets
    ensures FlagsGo(w, WaitOutEvent(g, task), WaitOut(w, g, task), f)
  {
    hide LoopModel.Activated, LoopModel.Kept, Tasks;
  }

  lemma SendFlags(w: World, g: Socket, answer: Sending, f: Socket)
    requires Tasks(w) && Open?(w.port, g) && f in w.port.sockets
    ensures FlagsGo(w, SendEvent(g, answer), SendOut(w, g, answer), f)
  {
    hide LoopModel.Activated, LoopModel.Kept, Tasks;
  }

  lemma ConnectFlags(w: World, g: Socket, task: OptTask, taken: bool, f: Socket)
    requires Tasks(w) && Open?(w.port, g) && Known(w, task) && f in w.port.sockets
    ensures FlagsGo(w, StartConnectEvent(g, task, taken), ConnectOut(w, g, task, taken), f)
  {
    hide LoopModel.Activated, LoopModel.Kept, Tasks;
  }

  lemma AcceptFlags(w: World, g: Socket, f: Socket)
    requires Open?(w.port, g) && f in w.port.sockets
    ensures FlagsGo(w, AcceptEvent(g), Accept(w, g).0, f)
  {
  }

  lemma CloseFlags(w: World, g: Socket, f: Socket)
    requires g in w.port.sockets && (Held(w.port, g) ==> Open?(w.port, g)) && f in w.port.sockets
    ensures FlagsGo(w, CloseEvent(g), Close(w, g), f)
  {
  }

  lemma MarkFlags(w: World, g: Socket, side: Side, verify: object?, f: Socket)
    requires g in w.port.sockets && f in w.port.sockets
    ensures FlagsGo(w, CancelEvent(g, side, verify), CancelWait(w, g, side, verify), f)
    ensures FlagsGo(w, DrainedEvent(g), DrainedIn(w, g), f)
  {
  }

  lemma OrphanFlags(w: World, b: Block, side: Side, f: Socket)
    requires Tasks(w) && b in w.port.blocks && w.port.blocks[b].filp == null && f in w.port.sockets
    ensures FlagsGo(w, CompleteEvent(b, side), Complete(w, b, side), f)
  {
    OrphanStays(w.port, b, side);
    hide Tasks, Unref, Returned;
  }

  lemma OrphanStays(p: Port, b: Block, side: Side)
    requires b in p.blocks && p.blocks[b].filp == null
    ensures var r := Unref(Returned(p, b, side), b);
            r.sockets == p.sockets && (b in r.blocks ==> r.blocks[b].filp == null)
  {
  }

  lemma OwnedFlags(w: World, b: Block, side: Side, g: Socket, f: Socket)
    requires Tasks(w) && b in w.port.blocks && w.port.blocks[b].filp == g && g in w.port.sockets && f in w.port.sockets
    requires BlockOk(w.port, b) && Returnable(w.port, b, side)
    ensures FlagsGo(w, CompleteEvent(b, side), Complete(w, b, side), f)
  {
    hide Complete, BlockOk, Tasks, LoopModel.Activated, Outstanding, Returnable, Without, AfterReturn;
    CompleteIs(w, b, side, g);
  }

  /** A completion tells the descriptor of the block, if there still is one. */
  lemma CompleteFlags(w: World, b: Block, side: Side, f: Socket)
    requires Sound(w) && Returnable(w.port, b, side) && f in w.port.sockets
    requires Tasks(w) && b in w.port.blocks && (w.port.blocks[b].filp != null ==> w.port.blocks[b].filp in w.port.sockets)
    ensures FlagsGo(w, CompleteEvent(b, side), Complete(w, b, side), f)
  {
    hide Sound, BlockOk, Complete, Tasks, Returnable, FlagsGo;
    CompleteReady(w, b, side);
    if w.port.blocks[b].filp == null {
      OrphanFlags(w, b, side, f);
    } else {
      OwnedFlags(w, b, side, w.port.blocks[b].filp, f);
    }
  }

  lemma NextFlags(w: World, e: Event, f: Socket)
    requires Sound(w) && Enabled(w, e) && Defined(w, e) && f in w.port.sockets
    ensures FlagsGo(w, e, Next(w, e), f)
  {
    hide Sound, Tasks, Open?, Held, WaitIn, WaitOut, SendOut, ConnectOut, Accept, CancelWait, DrainedIn, Close, Complete, Returnable,
      FlagsGo, FlagsAfter, Fresh, ReadinessProofs.LoopMoved, Opened;
    match e
    case OpenEvent(g, b, listen) => OpenFlags(w, g, b, listen, f);
    case WaitInEvent(g, task, newfd, taken) => InFlags(w, g, task, newfd, taken, f);
    case WaitOutEvent(g, task) => OutFlags(w, g, task, f);
    case SendEvent(g, answer) => SendFlags(w, g, answer, f);
    case StartConnectEvent(g, task, taken) => ConnectFlags(w, g, task, taken, f);
    case AcceptEvent(g) => AcceptFlags(w, g, f);
    case CancelEvent(g, side, verify) => MarkFlags(w, g, side, verify, f);
    case DrainedEvent(g) => MarkFlags(w, g, Recv, null, f);
    case CloseEvent(g) => CloseFlags(w, g, f);
    case CompleteEvent(b, side) => CompleteFlags(w, b, side, f);
    case LoopEvent(l) => LoopFlags(w, l, f);
  }

  lemma OpenFlags(w: World, g: Socket, b: Block, listen: bool, f: Socket)
    requires f in w.port.sockets && g !in w.port.sockets && w.port.head in w.port.fam.lists
    ensures FlagsGo(w, OpenEvent(g, b, listen), Open(w, g, b, listen), f)
  {
  }

  lemma LoopFlags(w: World, l: LoopState, f: Socket)
    requires f in w.port.sockets
    ensures FlagsGo(w, Event.LoopEvent(l), w.(loop := l), f)
  {
  }

  /** A socket that is there after an event was there before, or was just opened. */
  lemma NextSockets(w: World, e: Event, f: Socket)
    requires Sound(w) && Enabled(w, e) && Defined(w, e) && f !in w.port.sockets && f in Next(w, e).port.sockets
    ensures e.OpenEvent? && e.f == f && Next(w, e).port.sockets[f].flags == NEW_FILP.(attached := true)
    ensures Next(w, e).port.sockets[f].listen == e.listen
  {
    hide Sound, Tasks, LoopModel.Activated, ReadinessProofs.LoopMoved, Fresh;
  }

  /** An input waiter has an operation to wait for. */
  ghost predicate InServed(x: Filp) { Live(x) && x.filterIn != null ==> x.pollIn }

  /** So has an output waiter, although pollout does nothing: output is only waited for while a send or
      connect is outstanding. */
  ghost predicate OutServed(x: Filp) { Live(x) ==> x.writable == !x.pollOut && (x.filterOut != null ==> x.pollOut) }

  /** On a listener whose AcceptEx is not taken the waiter stays behind. */
  ghost predicate Refuses(w: World, e: Event, f: Socket)
    requires f in w.port.sockets
  {
    e.WaitInEvent? && e.f == f && !e.taken && w.port.sockets[f].listen
  }

  /** Output goes out, comes back, or is only waited for. */
  ghost predicate OutMove(x: Filp, y: Filp) {
    && (Live(y) ==> Live(x))
    && (if y.pollOut == x.pollOut && y.writable == x.writable
        then y.filterOut == x.filterOut || y.filterOut == null || !y.writable
        else y.writable == !y.pollOut && (y.filterOut == null || y.pollOut))
  }

  lemma OutMoves(w: World, e: Event, f: Socket)
    requires f in w.port.sockets
    ensures OutMove(w.port.sockets[f].flags, FlagsAfter(w, e, f))
  {
    hide OutMove, AfterWait, AfterSend, AfterConnect, AfterCancel, AfterReturn;
    var s, x := w.port.sockets[f], w.port.sockets[f].flags;
    MarksMove(x, null);
    match e
    case WaitInEvent(_, task, _, taken) => WaitMoves(x, s.listen, task, taken);
    case WaitOutEvent(_, task) => MarksMove(x, task);
    case SendEvent(_, answer) => SendMoves(x, answer, null, true);
    case StartConnectEvent(_, task, taken) => SendMoves(x, Failed, task, taken);
    case CancelEvent(_, side, verify) => CancelMoves(x, side, verify);
    case CompleteEvent(_, side) => CancelMoves(x, side, null);
    case _ =>
  }

  lemma MarksMove(x: Filp, task: OptTask)
    ensures OutMove(x, x) && OutMove(x, x.(readable := false)) && OutMove(x, x.(detached := true))
    ensures !x.writable ==> OutMove(x, x.(filterOut := task))
  {
  }

  lemma WaitMoves(x: Filp, listen: bool, task: OptTask, taken: bool)
    ensures OutMove(x, AfterWait(x, listen, task, taken))
  {
  }

  lemma SendMoves(x: Filp, answer: Sending, task: OptTask, taken: bool)
    ensures OutMove(x, AfterSend(x, answer)) && OutMove(x, AfterConnect(x, task, taken))
  {
  }

  lemma CancelMoves(x: Filp, side: Side, verify: object?)
    ensures OutMove(x, AfterCancel(x, side, verify)) && OutMove(x, AfterReturn(x, side))
  {
  }

  lemma OutServes(x: Filp, y: Filp)
    requires OutMove(x, y)
    ensures OutServed(x) ==> OutServed(y)
  {
  }

  lemma FlagsServeOut(w: World, e: Event, f: Socket)
    requires f in w.port.sockets && Enabled(w, e)
    ensures OutServed(w.port.sockets[f].flags) ==> OutServed(FlagsAfter(w, e, f))
  {
    hide Enabled, OutServed;
    OutMoves(w, e, f);
    OutServes(w.port.sockets[f].flags, FlagsAfter(w, e, f));
  }

  lemma FlagsServeIn(w: World, e: Event, f: Socket)
    requires f in w.port.sockets && Enabled(w, e)
    ensures InServed(w.port.sockets[f].flags) && !Refuses(w, e, f) ==> InServed(FlagsAfter(w, e, f))
  {
    hide Tasks, Returnable, Fresh, ReadinessProofs.LoopMoved, Held;
  }

  /** Every AcceptEx on f in these events is taken. */
  ghost predicate AllTaken(es: seq<Event>, f: Socket) {
    forall e :: e in es && e.WaitInEvent? && e.f == f ==> e.taken
  }

  ghost predicate Serves(p: Port, f: Socket, taken: bool) {
    f in p.sockets ==> OutServed(p.sockets[f].flags) && ((p.sockets[f].listen && !taken) || InServed(p.sockets[f].flags))
  }

  lemma NextServes(w: World, e: Event, f: Socket, taken: bool)
    requires Sound(w) && Enabled(w, e) && Defined(w, e) && Serves(w.port, f, taken) && (taken ==> AllTaken([e], f))
    ensures Serves(Next(w, e).port, f, taken)
  {
    hide Sound, Enabled, Defined, Next, FlagsAfter, OutServed, InServed;
    if f in w.port.sockets {
      NextFlags(w, e, f);
      FlagsServeOut(w, e, f);
      FlagsServeIn(w, e, f);
      assert e in [e];
    } else if f in Next(w, e).port.sockets {
      NextSockets(w, e, f);
      NewServed();
    }
  }

  lemma NewServed()
    ensures OutServed(NEW_FILP.(attached := true)) && InServed(NEW_FILP.(attached := true))
  {
  }

  lemma {:induction false} RunServes(w: World, es: seq<Event>, r: World, f: Socket, taken: bool)
    requires Sound(w) && Run(w, es, r) && Serves(w.port, f, taken) && (taken ==> AllTaken(es, f))
    ensures Serves(r.port, f, taken)
    decreases |es|
  {
    hide Sound, Enabled, Defined, Next, Serves;
    if es != [] {
      assert es[0] in es && forall e :: e in es[1..] ==> e in es;
      NextSound(w, es[0]);
      NextServes(w, es[0], f, taken);
      RunServes(Next(w, es[0]), es[1..], r, f, taken);
    }
  }

  /** Nobody waits in vain, in every run of a new port: an output waiter has a send or connect to wait for, and an
      input waiter a receive or accept, unless an AcceptEx of its listener was not taken. */
  lemma WaiterServed(w: World, es: seq<Event>, r: World, f: Socket)
    requires NewPort(w) && Run(w, es, r) && Held(r.port, f)
    ensures r.port.sockets[f].privp != null
    ensures var s, k := r.port.sockets[f], Outstanding(r.port, r.port.sockets[f].privp);
            && s.flags.writable == !k.send && (s.flags.filterOut != null ==> k.send)
            && (s.flags.filterIn != null && (s.listen ==> AllTaken(es, f)) ==> k.recv)
  {
    hide NewPort, Run, Sound, AllTaken;
    RunSound(w, es, r);
    NewSound(w);
    MirrorIs(r, f);
    NoSocketYet(w);
    RunServes(w, es, r, f, false);
    if AllTaken(es, f) { RunServes(w, es, r, f, true); }
  }

  lemma NoSocketYet(w: World)
    requires NewPort(w)
    ensures w.port.sockets == map[]
  {
    hide LoopProofs.Inv;
  }

  /** Waiting on a listener that is not ready gets an operation to wait for exactly when AcceptEx is
      taken or one is outstanding already: the failing branch only closes the new socket. */
  lemma AcceptWaiterServedIff(w: World, f: Socket, task: OptTask, newfd: int, taken: bool)
    requires Sound(w) && Held(w.port, f) && Known(w, task) && (newfd != -1 || !taken)
    requires w.port.sockets[f].listen && !w.port.sockets[f].flags.readable
    ensures Tasks(w) && Open?(w.port, f)
    ensures var r := WaitIn(w, f, task, newfd, taken).port;
            && r.sockets[f].flags.filterIn == task && r.sockets[f].privp == w.port.sockets[f].privp
            && (Outstanding(r, r.sockets[f].privp).recv <==> taken || w.port.sockets[f].flags.pollIn)
  {
    hide LoopProofs.Inv, PortOk, LoopModel.Activated;
    Fitting(w, f);
  }

  /** Such waiters are reached at once: the AcceptEx of a new listener is not taken. */
  lemma RefusedAccept(w: World, f: Socket, b: Block, task: OptTask, newfd: int) returns (m: World, r: World)
    requires NewPort(w) && Fresh(w.port, b) && Known(w, task)
    ensures Does(w, OpenEvent(f, b, true), m) && Does(m, WaitInEvent(f, task, newfd, false), r)
    ensures Held(r.port, f) && r.port.sockets[f].privp == b && r.port.sockets[f].flags.filterIn == task
    ensures Outstanding(r.port, b) == NOTHING
  {
    hide NewPort, Sound, Fresh, Next, WaitIn, Defined;
    NewSound(w);
    NoSocketYet(w);
    NextSound(w, OpenEvent(f, b, true));
    m := Next(w, OpenEvent(f, b, true));
    OpenedIs(w, f, b, m);
    NextSound(m, WaitInEvent(f, task, newfd, false));
    r := Next(m, WaitInEvent(f, task, newfd, false));
    RefusedIs(m, f, task, newfd, r);
  }

  lemma OpenedIs(w: World, f: Socket, b: Block, m: World)
    requires Enabled(w, OpenEvent(f, b, true)) && Defined(w, OpenEvent(f, b, true)) && m == Next(w, OpenEvent(f, b, true))
    ensures m.loop == w.loop && f in m.port.sockets && Outstanding(m.port, b) == NOTHING
    ensures m.port.sockets[f] == SocketFields(NEW_FILP.(attached := true), true, b)
    ensures b in m.port.blocks && m.port.blocks[b].filp == f
  {
    hide Tasks;
  }

  lemma RefusedIs(m: World, f: Socket, task: OptTask, newfd: int, r: World)
    requires var e := WaitInEvent(f, task, newfd, false); Enabled(m, e) && Defined(m, e) && r == Next(m, e)
    requires f in m.port.sockets && m.port.sockets[f].listen && !m.port.sockets[f].flags.readable && !m.port.sockets[f].flags.pollIn
    ensures f in r.port.sockets && r.port.sockets[f] == m.port.sockets[f].(flags := m.port.sockets[f].flags.(filterIn := task))
    ensures r.port.kernel == m.port.kernel
  {
    hide Tasks, LoopModel.Activated;
  }

  /** Although pollout does nothing on this port, in every run waiting for output tells the task at once or
      leaves it with a send or connect to wait for. */
  lemma OutputServed(w: World, es: seq<Event>, r: World, f: Socket, task: OptTask)
    requires NewPort(w) && Run(w, es, r) && Held(r.port, f) && Known(r, task)
    ensures Tasks(r) && Open?(r.port, f)
    ensures var n := WaitOut(r, f, task);
            if r.port.sockets[f].flags.writable then n.port == r.port && LoopTheorems.Told(r.loop, n.loop, task)
            else n.loop == r.loop && n.port.sockets[f].flags.filterOut == task && Outstanding(n.port, n.port.sockets[f].privp).send
  {
    hide NewPort, Run, Sound, LoopModel.Activated, AllTaken, LoopTheorems.Told;
    RunSound(w, es, r);
    WaiterServed(w, es, r, f);
    HeldOpen(r, f);
    SoundBasics(r);
    WorldTells(r, task, f);
  }

  /** On a listener that holds an accepted socket a would-block loses it: the state is reached from a new port, and
      afterwards nothing hands the socket out. */
  lemma AcceptedLost(w: World, f: Socket, b: Block, task: OptTask, newfd: int) returns (m: World, n: World, r: World)
    requires NewPort(w) && Fresh(w.port, b) && Known(w, task) && newfd != -1
    ensures Does(w, OpenEvent(f, b, true), m) && Does(m, WaitInEvent(f, task, newfd, true), n)
    ensures Does(n, CompleteEvent(b, Recv), r)
    ensures Sound(r) && f in r.port.sockets && Open?(r.port, f) && Open?(DrainedIn(r, f).port, f)
    ensures Accept(r, f).1 == newfd && !Sound(DrainedIn(r, f)) && Accept(DrainedIn(r, f), f).1 == -1
  {
    hide NewPort, Sound, Fresh, Next, Defined, Complete, WaitIn, Returnable, FlagsGo;
    NewSound(w);
    NoSocketYet(w);
    NextSound(w, OpenEvent(f, b, true));
    m := Next(w, OpenEvent(f, b, true));
    OpenedIs(w, f, b, m);
    NextSound(m, WaitInEvent(f, task, newfd, true));
    n := Next(m, WaitInEvent(f, task, newfd, true));
    TakenIs(m, f, b, task, newfd, n);
    NextSound(n, CompleteEvent(b, Recv));
    r := Next(n, CompleteEvent(b, Recv));
    AcceptedIs(n, f, b, newfd, r);
    DrainedKeepsIff(r, f);
    HeldOpen(r, f);
    DrainedNone(r, f);
  }

  lemma TakenIs(m: World, f: Socket, b: Block, task: OptTask, newfd: int, n: World)
    requires var e := WaitInEvent(f, task, newfd, true); Enabled(m, e) && Defined(m, e) && n == Next(m, e)
    requires f in m.port.sockets && m.port.sockets[f] == SocketFields(NEW_FILP.(attached := true), true, b)
    requires b in m.port.blocks && m.port.blocks[b].filp == f
    ensures f in n.port.sockets && n.port.sockets[f].listen && n.port.sockets[f].privp == b && Live(n.port.sockets[f].flags)
    ensures b in n.port.blocks && n.port.blocks[b].filp == f && n.port.blocks[b].newfd == newfd
    ensures Returnable(n.port, b, Recv)
  {
    hide Tasks, LoopModel.Activated;
  }

  lemma AcceptedIs(n: World, f: Socket, b: Block, newfd: int, r: World)
    requires Sound(n) && Returnable(n.port, b, Recv) && f in n.port.sockets && b in n.port.blocks
    requires var e := CompleteEvent(b, Recv); Enabled(n, e) && Defined(n, e) && r == Next(n, e)
    requires n.port.sockets[f].listen && n.port.sockets[f].privp == b && Live(n.port.sockets[f].flags)
    requires n.port.blocks[b].filp == f && n.port.blocks[b].newfd == newfd
    ensures Held(r.port, f) && r.port.sockets[f].listen && r.port.sockets[f].flags.readable && r.port.sockets[f].privp == b
    ensures b in r.port.blocks && r.port.blocks[b].newfd == newfd
  {
    hide Sound, Complete, LoopModel.Activated, BlockOk, Outstanding, Returnable, Without, Tasks;
    CompleteReady(n, b, Recv);
    CompleteIs(n, b, Recv, f);
  }

  lemma DrainedNone(r: World, f: Socket)
    requires Open?(r.port, f)
    ensures Open?(DrainedIn(r, f).port, f) && Accept(DrainedIn(r, f), f).1 == -1
  {
  }

  /** The accepted socket tx_listen_accept hands out: one that was kept, or none. */
  ghost function Accepted(w: World, f: Socket): (newfd: int)
    requires Sound(w) && Enabled(w, AcceptEvent(f))
    ensures w.port.sockets[f].listen && w.port.sockets[f].flags.readable <==> newfd != -1
  {
    hide Sound, Accept;
    HeldOpen(w, f);
    AcceptKeeps(w, f);
    AcceptNone(w, f);
    Accept(w, f).1
  }

  lemma AcceptNone(w: World, f: Socket)
    requires Open?(w.port, f)
    ensures !(w.port.sockets[f].listen && w.port.sockets[f].flags.readable) ==> Accept(w, f).1 == -1
  {
  }

  // ---------------------------------------------------------------- one poll

  /** The kernel may give these operations back, in this order. */
  ghost predicate Batchable(w: World, batch: seq<(Block, Side)>)
    requires Sound(w)
    decreases |batch|
  {
    if batch == [] then true
    else
      var e := CompleteEvent(batch[0].0, batch[0].1);
      Enabled(w, e) && (NextSound(w, e); Batchable(Next(w, e), batch[1..]))
  }

  /** What handle_overlapped makes of them, one after the other. */
  ghost function Batch(w: World, batch: seq<(Block, Side)>): (r: World)
    requires Sound(w) && Batchable(w, batch)
    ensures Sound(r)
    decreases |batch|
  {
    if batch == [] then w
    else
      var e := CompleteEvent(batch[0].0, batch[0].1);
      NextSound(w, e);
      Batch(Next(w, e), batch[1..])
  }

  /** How long GetQueuedCompletionStatus is told to wait. */
  ghost function WaitOf(l: LoopState, port: object): int {
    if LoopModel.Timeout(l, port) != 0 then 15 else 0
  }

  /** The waits asked for before each completion of the batch, and before the one that finds none. */
  ghost function Waits(w: World, batch: seq<(Block, Side)>, port: object): (ws: seq<int>)
    requires Sound(w) && Batchable(w, batch)
    ensures |ws| == |batch| + 1
    decreases |batch|
  {
    if batch == [] then [WaitOf(w.loop, port)]
    else
      var e := CompleteEvent(batch[0].0, batch[0].1);
      NextSound(w, e);
      [WaitOf(w.loop, port)] + Waits(Next(w, e), batch[1..], port)
  }

  /** One poll: the batch is handled and the poller joins the run queue again. */
  ghost predicate Polls(w: World, batch: seq<(Block, Side)>, r: World) {
    && Sound(w) && Batchable(w, batch) && Sound(r)
    && var b := Batch(w, batch);
    && b.loop.taskq in b.loop.fam.lists && b.port.poller in b.loop.tasks
    && r == b.(loop := LoopModel.PollActivate(b.loop, b.port.poller))
  }

  lemma RejoinSound(w: World)
    requires Sound(w)
    ensures w.loop.taskq in w.loop.fam.lists && w.port.poller in w.loop.tasks
    ensures Sound(w.(loop := LoopModel.PollActivate(w.loop, w.port.poller)))
  {
    SoundBasics(w);
    hide Sound, LoopProofs.Inv, LoopModel.PollActivate, LoopModel.Kept;
    LoopProofs.PollActivateKeeps(w.loop, w.port.poller);
    PollMoves(w.loop, w.port.poller);
    LoopSound(w, LoopModel.PollActivate(w.loop, w.port.poller));
  }

  lemma PollMoves(l: LoopState, t: Task)
    requires l.taskq in l.fam.lists && t in l.tasks && LoopProofs.Inv(LoopModel.PollActivate(l, t))
    ensures ReadinessProofs.LoopMoved(l, LoopModel.PollActivate(l, t))
  {
    hide LoopProofs.Inv;
    assert LoopModel.Kept(l, LoopModel.PollActivate(l, t));
    hide LoopModel.PollActivate;
  }

  lemma PollsTo(w: World, batch: seq<(Block, Side)>)
    requires Sound(w) && Batchable(w, batch)
    ensures var b := Batch(w, batch);
            && b.loop.taskq in b.loop.fam.lists && b.port.poller in b.loop.tasks
            && Polls(w, batch, b.(loop := LoopModel.PollActivate(b.loop, b.port.poller)))
            && Sound(b.(loop := LoopModel.PollActivate(b.loop, b.port.poller)))
  {
    var b := Batch(w, batch);
    hide Sound, Batch, Batchable;
    RejoinSound(b);
  }

  // ---------------------------------------------------------------- a poll that has woken somebody does not wait

  ghost predicate SomeBusy(l: LoopState) { exists t :: t in l.tasks && l.tasks[t].busy }

  lemma NoWaitOnWork(w: World, port: object)
    requires Sound(w) && SomeBusy(w.loop)
    ensures WaitOf(w.loop, port) == 0
  {
    SoundBasics(w);
    hide Sound, LoopProofs.Inv, LoopModel.Timeout, LoopProofs.BusyTasks;
    LoopTheorems.SomeBusy(w.loop);
    LoopTheorems.BusyMeansNow(w.loop, port);
  }

  /** Who is told of a completion. */
  ghost function Told(w: World, b: Block, side: Side): OptTask
    requires b in w.port.blocks && (w.port.blocks[b].filp != null ==> w.port.blocks[b].filp in w.port.sockets)
  {
    var f := w.port.blocks[b].filp;
    if f == null then null
    else if side == Send then w.port.sockets[f].flags.filterOut else w.port.sockets[f].flags.filterIn
  }

  lemma CompleteTells(w: World, b: Block, side: Side)
    requires Sound(w) && Returnable(w.port, b, side)
    requires Tasks(w) && b in w.port.blocks && (w.port.blocks[b].filp != null ==> w.port.blocks[b].filp in w.port.sockets)
    ensures Told(w, b, side) != null ==> Told(w, b, side) in w.loop.tasks
    ensures Complete(w, b, side).loop == LoopModel.Activated(w.loop, Told(w, b, side), w.port.blocks[b].filp)
  {
    CompleteReady(w, b, side);
    if w.port.blocks[b].filp == null {
      OrphanPair(w.port, b, side);
      hide Sound, Unref, Returned;
    } else {
      hide Sound, Complete, BlockOk, LoopModel.Activated, Outstanding, Returnable, Without;
      CompleteIs(w, b, side, w.port.blocks[b].filp);
    }
  }

  /** A completion never takes work away, and its own waiter becomes work. */
  lemma CompleteQueues(w: World, b: Block, side: Side)
    requires Sound(w) && Returnable(w.port, b, side)
    requires Tasks(w) && b in w.port.blocks && (w.port.blocks[b].filp != null ==> w.port.blocks[b].filp in w.port.sockets)
    ensures var r := Complete(w, b, side).loop;
            && (SomeBusy(w.loop) ==> SomeBusy(r)) && r.stop == w.loop.stop
            && (Told(w, b, side) != null && !w.loop.stop ==> SomeBusy(r))
  {
    hide Sound, Complete, Told, Returnable, LoopModel.Activated;
    CompleteTells(w, b, side);
    TasksQueue(w);
    LoopTheorems.ActivatedQueues(w.loop, Told(w, b, side), w.port.blocks[b].filp);
    BusyStays(w.loop, LoopModel.Activated(w.loop, Told(w, b, side), w.port.blocks[b].filp));
  }

  lemma TasksQueue(w: World)
    requires Tasks(w)
    ensures w.loop.taskq in w.loop.fam.lists
  {
  }

  lemma BusyStays(l: LoopState, m: LoopState)
    requires LoopTheorems.StillBusy(l, m)
    ensures SomeBusy(l) ==> SomeBusy(m)
    ensures forall t: OptTask :: t != null && LoopTheorems.Queued(m, t) ==> SomeBusy(m)
  {
    if SomeBusy(l) {
      var t :| t in l.tasks && l.tasks[t].busy;
      assert t in m.tasks && m.tasks[t].busy;
    }
  }

  lemma {:induction false} BusyNeverWaits(w: World, batch: seq<(Block, Side)>, port: object)
    requires Sound(w) && Batchable(w, batch) && SomeBusy(w.loop)
    ensures forall i :: 0 <= i <= |batch| ==> Waits(w, batch, port)[i] == 0
    decreases |batch|
  {
    hide Sound, SomeBusy, Complete, WaitOf, Returnable, Told, Tasks;
    NoWaitOnWork(w, port);
    if batch != [] {
      var e := CompleteEvent(batch[0].0, batch[0].1);
      NextSound(w, e);
      CompleteQueues(w, batch[0].0, batch[0].1);
      BusyNeverWaits(Next(w, e), batch[1..], port);
    }
  }

  /** Once a completion of a poll has told a task, or a task was to run before, the poll does not wait any more:
      it only takes what the kernel has ready. */
  lemma {:induction false} WaitsOnlyIdle(w: World, batch: seq<(Block, Side)>, port: object, i: nat, b: Block, side: Side)
    requires Sound(w) && Batchable(w, batch) && i < |batch| && batch[i] == (b, side) && !w.loop.stop
    requires Batchable(w, batch[..i]) && b in Batch(w, batch[..i]).port.blocks
    requires var m := Batch(w, batch[..i]);
             (m.port.blocks[b].filp != null ==> m.port.blocks[b].filp in m.port.sockets) && Told(m, b, side) != null
    ensures forall j :: i < j <= |batch| ==> Waits(w, batch, port)[j] == 0
    decreases i
  {
    hide Sound, SomeBusy, Complete, WaitOf, Returnable, Told, Tasks;
    var e := CompleteEvent(batch[0].0, batch[0].1);
    NextSound(w, e);
    CompleteQueues(w, batch[0].0, batch[0].1);
    if i == 0 {
      assert batch[..0] == [];
      BusyNeverWaits(Next(w, e), batch[1..], port);
    } else {
      assert batch[..i][0] == batch[0] && batch[..i][1..] == batch[1..][..i - 1];
      WaitsOnlyIdle(Next(w, e), batch[1..], port, i - 1, b, side);
    }
  }

  // ---------------------------------------------------------------- told at once, or taken by the kernel

  lemma WorldTells(w: World, task: OptTask, f: object?)
    requires Sound(w) && Known(w, task)
    ensures Tasks(w) && w.loop.taskq in w.loop.fam.lists
    ensures LoopTheorems.Told(w.loop, LoopModel.Activated(w.loop, task, f), task)
  {
    SoundBasics(w);
    hide Sound, LoopProofs.Inv, Tasks, LoopModel.Activated, LoopTheorems.Told;
    LoopTheorems.ActivationTells(w.loop, task, f);
  }

  /** Waiting for input, in every run of a new port: on a readable descriptor the task is told at once and nothing else
      changes; so it is when a receive is refused, and the descriptor is then readable; otherwise it becomes the waiter,
      with an operation outstanding unless AcceptEx was refused. */
  lemma InputServed(w: World, es: seq<Event>, r: World, f: Socket, task: OptTask, newfd: int, taken: bool)
    requires NewPort(w) && Run(w, es, r) && Held(r.port, f) && Known(r, task)
    ensures Tasks(r) && Open?(r.port, f)
    ensures var n, s := WaitIn(r, f, task, newfd, taken), r.port.sockets[f];
            if s.flags.readable then n.port == r.port && LoopTheorems.Told(r.loop, n.loop, task)
            else if s.flags.pollIn || taken || s.listen then
              && n.loop == r.loop && n.port.sockets[f].flags.filterIn == task && n.port.sockets[f].privp == s.privp
              && (Outstanding(n.port, s.privp).recv <==> s.flags.pollIn || taken)
            else
              && LoopTheorems.Told(r.loop, n.loop, task) && n.port.kernel == r.port.kernel
              && n.port.sockets == r.port.sockets[f := s.(flags := s.flags.(readable := true, filterIn := null))]
  {
    hide NewPort, Run, Sound, Tasks, LoopModel.Activated, LoopTheorems.Told, Open?;
    RunSound(w, es, r);
    HeldOpen(r, f);
    SoundBasics(r);
    WorldTells(r, task, f);
    MirrorIs(r, f);
    WaitInIs(r, f, task, newfd, taken);
  }

  lemma WaitInIs(r: World, f: Socket, task: OptTask, newfd: int, taken: bool)
    requires Tasks(r) && Open?(r.port, f) && Known(r, task) && r.loop.taskq in r.loop.fam.lists
    requires r.port.sockets[f].flags.pollIn == Outstanding(r.port, r.port.sockets[f].privp).recv
    ensures var n, s := WaitIn(r, f, task, newfd, taken), r.port.sockets[f];
            if s.flags.readable then n == r.(loop := LoopModel.Activated(r.loop, task, f))
            else if s.flags.pollIn || taken || s.listen then
              && n.loop == r.loop && n.port.sockets[f].flags.filterIn == task && n.port.sockets[f].privp == s.privp
              && (Outstanding(n.port, s.privp).recv <==> s.flags.pollIn || taken)
            else
              && n.loop == LoopModel.Activated(r.loop, task, f) && n.port.kernel == r.port.kernel
              && n.port.sockets == r.port.sockets[f := s.(flags := s.flags.(readable := true, filterIn := null))]
  {
    hide Tasks, LoopModel.Activated;
  }

  /** A send: taken by the kernel it is outstanding and TX_WRITABLE is clear; refused, the output waiter is told and the
      descriptor writable; sent at once, or with one outstanding, nothing changes. */
  lemma SendServed(w: World, es: seq<Event>, r: World, f: Socket, answer: Sending)
    requires NewPort(w) && Run(w, es, r) && Held(r.port, f)
    ensures Tasks(r) && Open?(r.port, f)
    ensures var n, s := SendOut(r, f, answer), r.port.sockets[f];
            if s.flags.pollOut || answer.Sent? then n == r
            else if answer.Taken? then
              n.loop == r.loop && !n.port.sockets[f].flags.writable && n.port.sockets[f].privp == s.privp && Outstanding(n.port, s.privp).send
            else
              && LoopTheorems.Told(r.loop, n.loop, s.flags.filterOut) && n.port.kernel == r.port.kernel
              && n.port.sockets == r.port.sockets[f := s.(flags := s.flags.(writable := true, filterOut := null))]
  {
    hide NewPort, Run, Sound, Tasks, LoopModel.Activated, LoopTheorems.Told, Open?;
    RunSound(w, es, r);
    HeldOpen(r, f);
    SoundBasics(r);
    WaitersTold(r, f);
    SendOutIs(r, f, answer);
  }

  lemma WaitersTold(w: World, f: Socket)
    requires Sound(w) && f in w.port.sockets
    ensures Tasks(w) && w.loop.taskq in w.loop.fam.lists && Known(w, w.port.sockets[f].flags.filterIn) && Known(w, w.port.sockets[f].flags.filterOut)
    ensures LoopTheorems.Told(w.loop, LoopModel.Activated(w.loop, w.port.sockets[f].flags.filterIn, f), w.port.sockets[f].flags.filterIn)
    ensures LoopTheorems.Told(w.loop, LoopModel.Activated(w.loop, w.port.sockets[f].flags.filterOut, f), w.port.sockets[f].flags.filterOut)
  {
    SoundBasics(w);
    WaitersKnown(w, f);
    hide Sound, Tasks, LoopModel.Activated, LoopTheorems.Told;
    WorldTells(w, w.port.sockets[f].flags.filterIn, f);
    WorldTells(w, w.port.sockets[f].flags.filterOut, f);
  }

  lemma SendOutIs(r: World, f: Socket, answer: Sending)
    requires Tasks(r) && Open?(r.port, f) && r.loop.taskq in r.loop.fam.lists && Known(r, r.port.sockets[f].flags.filterOut)
    ensures var n, s := SendOut(r, f, answer), r.port.sockets[f];
            if s.flags.pollOut || answer.Sent? then n == r
            else if answer.Taken? then
              n.loop == r.loop && !n.port.sockets[f].flags.writable && n.port.sockets[f].privp == s.privp && Outstanding(n.port, s.privp).send
            else
              && n.loop == LoopModel.Activated(r.loop, s.flags.filterOut, f) && n.port.kernel == r.port.kernel
              && n.port.sockets == r.port.sockets[f := s.(flags := s.flags.(pollOut := false, writable := true, filterOut := null))]
  {
    hide Tasks, LoopModel.Activated;
  }

  /** A connect taken by the kernel leaves the task waiting for output, with the operation outstanding and nothing told;
      a refused one is told at once if the descriptor was writable. */
  lemma ConnectServed(w: World, es: seq<Event>, r: World, f: Socket, task: OptTask, taken: bool)
    requires NewPort(w) && Run(w, es, r) && Held(r.port, f) && Known(r, task)
    ensures Tasks(r) && Open?(r.port, f)
    ensures var n, s := ConnectOut(r, f, task, taken), r.port.sockets[f];
            if taken || !s.flags.writable then
              && n.loop == r.loop && n.port.sockets[f].flags.filterOut == task && !n.port.sockets[f].flags.writable
              && n.port.sockets[f].privp == s.privp && Outstanding(n.port, s.privp).send
            else n.port == r.port && LoopTheorems.Told(r.loop, n.loop, task)
  {
    hide NewPort, Run, Sound, Tasks, LoopModel.Activated, LoopTheorems.Told, Open?, AllTaken;
    RunSound(w, es, r);
    HeldOpen(r, f);
    SoundBasics(r);
    WorldTells(r, task, f);
    MirrorIs(r, f);
    WaiterServed(w, es, r, f);
    ConnectOutIs(r, f, task, taken);
  }

  lemma ConnectOutIs(r: World, f: Socket, task: OptTask, taken: bool)
    requires Tasks(r) && Open?(r.port, f) && Known(r, task) && r.loop.taskq in r.loop.fam.lists
    requires var s := r.port.sockets[f]; s.flags.pollOut == Outstanding(r.port, s.privp).send && s.flags.writable == !s.flags.pollOut
    ensures var n, s := ConnectOut(r, f, task, taken), r.port.sockets[f];
            if taken || !s.flags.writable then
              && n.loop == r.loop && n.port.sockets[f].flags.filterOut == task && !n.port.sockets[f].flags.writable
              && n.port.sockets[f].privp == s.privp && Outstanding(n.port, s.privp).send
            else n == r.(loop := LoopModel.Activated(r.loop, task, f))
  {
    hide Tasks, LoopModel.Activated;
  }

  /** A completion, in every run of a new port: the waiter of its side is told, that side is ready and waited for no
      more, the other side is as it was; one for a detached descriptor tells nobody. */
  lemma CompletionTells(w: World, es: seq<Event>, r: World, b: Block, side: Side)
    requires NewPort(w) && Run(w, es, r) && Returnable(r.port, b, side)
    ensures Tasks(r) && b in r.port.blocks && (r.port.blocks[b].filp != null ==> r.port.blocks[b].filp in r.port.sockets)
    ensures var n := Complete(r, b, side);
            if r.port.blocks[b].filp == null then n.loop == r.loop && n.port.sockets == r.port.sockets
            else
              var f := r.port.blocks[b].filp;
              var x := r.port.sockets[f].flags;
              && LoopTheorems.Told(r.loop, n.loop, if side == Send then x.filterOut else x.filterIn)
              && n.port.sockets == r.port.sockets[f := r.port.sockets[f].(flags :=
                   if side == Send then x.(pollOut := false, writable := true, filterOut := null)
                   else x.(pollIn := false, readable := true, filterIn := null))]
  {
    hide NewPort, Run, Sound, Tasks, LoopModel.Activated, LoopTheorems.Told, Complete, BlockOk;
    RunSound(w, es, r);
    CompleteReady(r, b, side);
    var f := r.port.blocks[b].filp;
    if f == null {
      OrphanIs(r, b, side);
    } else {
      WaitersTold(r, f);
      CompleteIs(r, b, side, f);
      UpdatedSockets(r.port, Complete(r, b, side).port, f, r.port.sockets[f].(flags := AfterReturn(r.port.sockets[f].flags, side)), b,
                     r.port.blocks[b].(refcnt := r.port.blocks[b].refcnt - 1), Without(Outstanding(r.port, b), side));
    }
  }

  lemma UpdatedSockets(p: Port, r: Port, f: Socket, s: SocketFields, b: Block, y: BlockFields, k: Pending)
    requires Updated(p, r, f, s, b, y, k)
    ensures r.sockets == p.sockets[f := s]
  {
  }

  lemma OrphanIs(w: World, b: Block, side: Side)
    requires Tasks(w) && b in w.port.blocks && w.port.blocks[b].filp == null
    ensures Complete(w, b, side).loop == w.loop && Complete(w, b, side).port.sockets == w.port.sockets
  {
    OrphanStays(w.port, b, side);
    hide Tasks, Unref, Returned;
  }

  /** An accepted socket is handed out once: afterwards the listener is not readable and has none to hand out. */
  lemma AcceptOnce(w: World, f: Socket)
    requires Open?(w.port, f)
    ensures var r := Accept(w, f);
            && Open?(r.0.port, f) && r.0.loop == w.loop
            && (var s := w.port.sockets[f];
                if s.listen && s.flags.readable then
                  && r.1 == w.port.blocks[s.privp].newfd && r.0.port.blocks[s.privp].newfd == -1
                  && r.0.port.sockets == w.port.sockets[f := s.(flags := s.flags.(readable := false))]
                else r == (w, -1))
            && (w.port.sockets[f].listen ==> Accept(r.0, f).1 == -1)
  {
  }

  /** The socket a completed accept hands out is the one it was posted with. */
  lemma AcceptsWhatWasPosted(w: World, f: Socket, b: Block, task: OptTask, newfd: int) returns (m: World, n: World, r: World)
    requires NewPort(w) && Fresh(w.port, b) && Known(w, task) && newfd != -1
    ensures Does(w, OpenEvent(f, b, true), m) && Does(m, WaitInEvent(f, task, newfd, true), n)
    ensures Does(n, CompleteEvent(b, Recv), r) && Open?(r.port, f) && Accept(r, f).1 == newfd
  {
    m, n, r := AcceptedLost(w, f, b, task, newfd);
  }

  /** Closing a descriptor, in every run of a new port: it is detached and leads to no block, every other descriptor is as
      it was, and its block is deleted if and only if the kernel holds no operation on it. Closing it again does nothing. */
  lemma ClosedIs(w: World, es: seq<Event>, r: World, f: Socket)
    requires NewPort(w) && Run(w, es, r) && f in r.port.sockets
    ensures Live(r.port.sockets[f].flags) ==> Open?(r.port, f)
    ensures var n, s := Close(r, f), r.port.sockets[f];
            if Live(s.flags) then
              && n.loop == r.loop && n.port.sockets == r.port.sockets[f := s.(flags := s.flags.(detached := true), privp := null)]
              && (s.privp in n.port.freed <==> Outstanding(r.port, s.privp) == NOTHING)
            else n == r
  {
    hide NewPort, Run, Sound, Open?;
    RunSound(w, es, r);
    if Live(r.port.sockets[f].flags) {
      HeldOpen(r, f);
      MirrorIs(r, f);
      ClosedPort(r, f);
      ClosedSockets(r.port, f);
    }
  }

  lemma ClosedPort(r: World, f: Socket)
    requires Sound(r) && f in r.port.sockets && Live(r.port.sockets[f].flags)
    ensures Open?(r.port, f)
    ensures Closed(r.port, f).freed == r.port.freed + if Outstanding(r.port, r.port.sockets[f].privp) == NOTHING then [r.port.sockets[f].privp] else []
  {
    SoundTasks(r);
    hide Sound, PortOk, Tasks, LoopProofs.Inv;
    ClosePort(r.port, f);
  }

  lemma ClosedSockets(p: Port, f: Socket)
    requires Open?(p, f)
    ensures var s := p.sockets[f]; Closed(p, f).sockets == p.sockets[f := s.(flags := s.flags.(detached := true), privp := null)]
  {
    hide Unlinked;
  }

  /** A waiter that cancelled is not told by a later completion; cancelling for somebody else changes nothing. */
  lemma CancelledIs(w: World, f: Socket, side: Side, verify: object?, b: Block)
    requires Sound(w) && f in w.port.sockets && Returnable(w.port, b, side)
    ensures b in w.port.blocks
    ensures var n, x := CancelWait(w, f, side, verify), w.port.sockets[f].flags;
            if verify == (if side == Recv then x.filterIn else x.filterOut) then
              && Sound(n) && Returnable(n.port, b, side) && Tasks(n) && b in n.port.blocks
              && (n.port.blocks[b].filp != null ==> n.port.blocks[b].filp in n.port.sockets)
              && (w.port.blocks[b].filp == f ==> Complete(n, b, side).loop == w.loop)
            else n == w
  {
    hide Sound, LoopModel.Activated, BlockOk, Complete, Tasks;
    CompleteReady(w, b, side);
    CancelKeeps(w, f, side, verify);
    var n := CancelWait(w, f, side, verify);
    if verify == (if side == Recv then w.port.sockets[f].flags.filterIn else w.port.sockets[f].flags.filterOut) {
      CompleteReady(n, b, side);
      if w.port.blocks[b].filp == f {
        CompleteIs(n, b, side, f);
        SoundBasics(n);
        NobodyTold(n.loop, f);
      }
    }
  }

  lemma NobodyTold(l: LoopState, f: object?)
    requires l.taskq in l.fam.lists
    ensures LoopModel.Activated(l, null, f) == l
  {
  }

  /** After a poll the poller is on the run queue again, unless the loop is stopped. */
  lemma PollerRejoins(w: World, batch: seq<(Block, Side)>, r: World)
    requires Polls(w, batch, r) && !w.loop.stop && w.port.poller in w.loop.tasks && !w.loop.tasks[w.port.poller].pending
    ensures LoopModel.OnQueue(r.loop, w.port.poller)
  {
    hide Sound, LoopModel.PollActivate, LoopModel.OnQueue, LoopProofs.Inv;
    BatchWaiters(w, batch);
    SoundBasics(r);
    LoopTheorems.PollerQueued(Batch(w, batch).loop, r.loop, w.port.poller);
  }

  lemma {:induction false} BatchWaiters(w: World, batch: seq<(Block, Side)>)
    requires Sound(w) && Batchable(w, batch)
    ensures LoopTheorems.NoNewWaiters(w.loop, Batch(w, batch).loop) && Batch(w, batch).port.poller == w.port.poller
    decreases |batch|
  {
    hide Sound, Enabled, Next;
    if batch != [] {
      var e := CompleteEvent(batch[0].0, batch[0].1);
      NextSound(w, e);
      CompleteWaiters(w, batch[0].0, batch[0].1);
      BatchWaiters(Next(w, e), batch[1..]);
    }
  }

  lemma CompleteWaiters(w: World, b: Block, side: Side)
    requires Sound(w) && Enabled(w, CompleteEvent(b, side)) && Defined(w, CompleteEvent(b, side))
    ensures var r := Next(w, CompleteEvent(b, side));
            LoopTheorems.NoNewWaiters(w.loop, r.loop) && r.port.poller == w.port.poller
  {
    hide Sound, Tasks, Complete, LoopModel.Activated, BlockOk, Returnable;
    CompleteReady(w, b, side);
    var f := w.port.blocks[b].filp;
    if f == null {
      OrphanIs(w, b, side);
      OrphanPoller(w, b, side);
    } else {
      WaitersTold(w, f);
      CompleteIs(w, b, side, f);
      LoopTheorems.ActivatedWaiters(w.loop, if side == Send then w.port.sockets[f].flags.filterOut else w.port.sockets[f].flags.filterIn, f);
      UpdatedPoller(w.port, Complete(w, b, side).port, f, w.port.sockets[f].(flags := AfterReturn(w.port.sockets[f].flags, side)), b,
                    w.port.blocks[b].(refcnt := w.port.blocks[b].refcnt - 1), Without(Outstanding(w.port, b), side));
    }
  }

  lemma UpdatedPoller(p: Port, r: Port, f: Socket, s: SocketFields, b: Block, y: BlockFields, k: Pending)
    requires Updated(p, r, f, s, b, y, k)
    ensures r.poller == p.poller
  {
  }

  lemma OrphanPoller(w: World, b: Block, side: Side)
    requires Tasks(w) && b in w.port.blocks && w.port.blocks[b].filp == null
    ensures Complete(w, b, side).port.poller == w.port.poller
  {
    hide Tasks, Unlinked;
  }

  /** A poll begins with a wait of 15 if and only if no break is pending, no task is BUSY, tx_holder is free or names the
      port, and no count leaked in the last two rounds is in the way; otherwise with none. */
  lemma FirstWaitIff(w: World, batch: seq<(Block, Side)>, port: object)
    requires Sound(w) && Batchable(w, batch)
    ensures Waits(w, batch, port)[0] ==
              if !w.loop.brk && LoopProofs.BusyTasks(w.loop) == {} && (w.loop.holder == null || w.loop.holder == port)
                 && (LoopTheorems.Slack(w.loop) == 0 || !LoopModel.LastTwoRounds(w.loop.busy))
              then 15 else 0
  {
    SoundBasics(w);
    hide Sound, LoopProofs.Inv, LoopModel.Timeout, LoopTheorems.Slack, LoopProofs.BusyTasks, Batchable;
    LoopEnds.TimeoutIff(w.loop, port);
  }
}
