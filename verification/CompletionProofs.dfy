/** The life of a completion block: its references are exactly the descriptor and the outstanding
    operations, and it is deleted exactly once, with the last of them. */
module CompletionProofs {
  import opened IntrusiveList
  import LoopModel
  import LoopProofs
  import opened ReadinessModel
  import ReadinessProofs
  import opened CompletionModel

  // ---------------------------------------------------------------- the invariant

  function One(b: bool): int { if b then 1 else 0 }

  /** A block has one reference for its descriptor and one for each outstanding operation. */
  ghost predicate BlockOk(p: Port, b: Block)
    requires b in p.blocks
  {
    var x, k := p.blocks[b], Outstanding(p, b);
    && x.refcnt == One(x.filp != null) + One(k.recv) + One(k.send) && x.refcnt >= 1
    && (x.filp != null ==> x.filp in p.sockets && Live(p.sockets[x.filp].flags) && p.sockets[x.filp].privp == b)
  }

  /** While attached, the POLL flags mirror the outstanding operations, and an accepted socket is kept
      exactly from the accept on until it is handed out. */
  ghost predicate SocketOk(p: Port, f: Socket)
    requires f in p.sockets
  {
    var s := p.sockets[f];
    if Live(s.flags) then
      && s.privp != null && s.privp in p.blocks && p.blocks[s.privp].filp == f
      && s.flags.pollIn == Outstanding(p, s.privp).recv && s.flags.pollOut == Outstanding(p, s.privp).send
      && (if s.listen then p.blocks[s.privp].newfd != -1 <==> s.flags.pollIn || s.flags.readable
          else p.blocks[s.privp].newfd == -1)
      && !(s.listen && s.flags.pollIn && s.flags.readable)
    else s.privp == null
  }

  ghost predicate Blocks(p: Port) { forall b :: b in p.blocks ==> BlockOk(p, b) }

  ghost predicate Sockets(p: Port) { forall f :: f in p.sockets ==> SocketOk(p, f) }

  /** The kernel holds no operation on a deleted block. */
  ghost predicate Kernel(p: Port) {
    forall b :: b in p.kernel && p.kernel[b] != NOTHING ==> b in p.blocks
  }

  /** port_list holds exactly the blocks that are not deleted. */
  ghost predicate Listed(p: Port) {
    && WellFormed(p.fam) && p.fam.lists.Keys == {p.head} && p.fam.at.Keys == p.blocks.Keys && p.head !in p.blocks
  }

  /** No block is deleted twice. */
  ghost predicate Freed(p: Port) {
    && Distinct(p.freed) && (forall b :: b in p.freed ==> b !in p.blocks)
  }

  ghost predicate PortOk(p: Port) {
    Blocks(p) && Sockets(p) && Kernel(p) && Listed(p) && Freed(p)
  }

  ghost predicate Sound(w: World) {
    LoopProofs.Inv(w.loop) && Tasks(w) && PortOk(w.port)
  }

  // ---------------------------------------------------------------- one socket and its block change

  /** Everything but socket f, block b and the operations on b is as before. */
  ghost predicate Local(p: Port, r: Port, f: Socket?, b: Block) {
    && r.head == p.head && r.poller == p.poller
    && (forall g :: g != f && g in p.sockets ==> g in r.sockets && r.sockets[g] == p.sockets[g])
    && (forall g :: g != f && g in r.sockets ==> g in p.sockets)
    && (forall c :: c != b && c in p.blocks ==> c in r.blocks && r.blocks[c] == p.blocks[c])
    && (forall c :: c != b && c in r.blocks ==> c in p.blocks)
    && (forall c :: c != b && c in p.kernel ==> c in r.kernel && r.kernel[c] == p.kernel[c])
    && (forall c :: c != b && c in r.kernel ==> c in p.kernel)
  }

  /** Socket f and block b belong together, or one of them to nobody. */
  ghost predicate Mates(p: Port, f: Socket?, b: Block) {
    && (forall g :: g in p.sockets && g != f ==> p.sockets[g].privp != b)
    && (f != null ==> forall c :: c in p.blocks && c != b ==> p.blocks[c].filp != f)
  }

  lemma LocalOk(p: Port, r: Port, f: Socket?, b: Block)
    requires Blocks(p) && Sockets(p) && Kernel(p) && Local(p, r, f, b) && Mates(p, f, b)
    requires b in r.blocks ==> BlockOk(r, b)
    requires f != null && f in r.sockets ==> SocketOk(r, f)
    requires b in r.kernel && r.kernel[b] != NOTHING ==> b in r.blocks
    ensures Blocks(r) && Sockets(r) && Kernel(r)
  {
    forall c | c in r.blocks && c != b ensures BlockOk(r, c) {
      assert BlockOk(p, c) && Outstanding(r, c) == Outstanding(p, c);
    }
    forall g | g in r.sockets && g != f ensures SocketOk(r, g) {
      assert SocketOk(p, g);
      if Live(p.sockets[g].flags) {
        assert p.sockets[g].privp != b;
        assert Outstanding(r, p.sockets[g].privp) == Outstanding(p, p.sockets[g].privp);
      }
    }
  }

  /** An attached socket and its block are mates. */
  lemma OpenMates(p: Port, f: Socket)
    requires Blocks(p) && Sockets(p) && f in p.sockets && Live(p.sockets[f].flags)
    ensures p.sockets[f].privp in p.blocks && Mates(p, f, p.sockets[f].privp)
  {
    assert SocketOk(p, f);
    var b := p.sockets[f].privp;
    forall g | g in p.sockets && g != f ensures p.sockets[g].privp != b {
      assert SocketOk(p, g);
    }
    forall c | c in p.blocks && c != b ensures p.blocks[c].filp != f {
      assert BlockOk(p, c);
    }
  }

  /** How the flags of an attached socket f, its block b and the operations k on it go together. */
  ghost predicate Match(f: Socket, x: SocketFields, b: Block, y: BlockFields, k: Pending) {
    && Live(x.flags) && x.privp == b && y.filp == f && y.refcnt == 1 + One(k.recv) + One(k.send)
    && x.flags.pollIn == k.recv && x.flags.pollOut == k.send
    && (if x.listen then y.newfd != -1 <==> x.flags.pollIn || x.flags.readable else y.newfd == -1)
    && !(x.listen && x.flags.pollIn && x.flags.readable)
  }

  lemma Matched(p: Port, f: Socket)
    requires PortOk(p) && f in p.sockets && Live(p.sockets[f].flags)
    ensures Open?(p, f)
    ensures var b := p.sockets[f].privp; Match(f, p.sockets[f], b, p.blocks[b], Outstanding(p, b))
  {
    hide Listed, Freed, Kernel;
    assert SocketOk(p, f);
    assert BlockOk(p, p.sockets[f].privp);
  }

  /** The port after a call that keeps every block allocated. */
  ghost predicate Updated(p: Port, r: Port, f: Socket, x: SocketFields, b: Block, y: BlockFields, k: Pending) {
    && r.head == p.head && r.poller == p.poller && r.fam == p.fam && r.freed == p.freed
    && r.sockets == p.sockets[f := x] && r.blocks == p.blocks[b := y]
    && (r.kernel == p.kernel || r.kernel == p.kernel[b := k]) && Outstanding(r, b) == k
  }

  lemma UpdatedOk(p: Port, r: Port, f: Socket, x: SocketFields, y: BlockFields, k: Pending)
    requires PortOk(p) && f in p.sockets && Live(p.sockets[f].flags) && p.sockets[f].privp != null
    requires Updated(p, r, f, x, p.sockets[f].privp, y, k) && Match(f, x, p.sockets[f].privp, y, k)
    ensures PortOk(r)
  {
    hide SocketOk, BlockOk, Local, Mates, Blocks, Sockets, Kernel, WellFormed, Distinct, Match;
    var b := p.sockets[f].privp;
    OpenMates(p, f);
    UpdatedPair(p, r, f, x, b, y, k);
    UpdatedLocal(p, r, f, x, b, y, k);
    LocalOk(p, r, f, b);
    assert r.blocks.Keys == p.blocks.Keys;
  }

  lemma UpdatedPair(p: Port, r: Port, f: Socket, x: SocketFields, b: Block, y: BlockFields, k: Pending)
    requires Updated(p, r, f, x, b, y, k) && Match(f, x, b, y, k)
    ensures BlockOk(r, b) && SocketOk(r, f)
  {
  }

  lemma UpdatedLocal(p: Port, r: Port, f: Socket, x: SocketFields, b: Block, y: BlockFields, k: Pending)
    requires Updated(p, r, f, x, b, y, k) && f in p.sockets
    ensures Local(p, r, f, b)
  {
  }

  // ---------------------------------------------------------------- the loop

  lemma TasksAgain(w: World, r: World, f: Socket, x: SocketFields)
    requires Tasks(w) && ReadinessProofs.LoopMoved(w.loop, r.loop) && r.port.poller == w.port.poller
    requires r.port.sockets == w.port.sockets[f := x] && ReadinessProofs.FitsLoop(x.flags, r.loop)
    ensures Tasks(r)
  {
    hide LoopProofs.Inv;
  }

  /** A call on f leaves a sound world sound, if its flags, its block and the kernel still match. */
  lemma CallKeeps(w: World, r: World, f: Socket, x: SocketFields, y: BlockFields, k: Pending)
    requires Sound(w) && (r.loop == w.loop || ReadinessProofs.LoopMoved(w.loop, r.loop)) && f in w.port.sockets && Live(w.port.sockets[f].flags)
    requires w.port.sockets[f].privp != null && Updated(w.port, r.port, f, x, w.port.sockets[f].privp, y, k)
    requires Match(f, x, w.port.sockets[f].privp, y, k) && ReadinessProofs.FitsLoop(x.flags, r.loop)
    ensures Sound(r)
  {
    UpdatedOk(w.port, r.port, f, x, y, k);
    hide LoopProofs.Inv, PortOk, Match, ReadinessProofs.FitsLoop, Tasks, Live;
    assert ReadinessProofs.LoopMoved(w.loop, r.loop) by { LoopStays(w); }
    TasksAgain(w, r, f, x);
  }

  lemma LoopStays(w: World)
    requires Sound(w)
    ensures ReadinessProofs.LoopMoved(w.loop, w.loop)
  {
    hide LoopProofs.Inv, PortOk;
  }

  lemma Fitting(w: World, f: Socket)
    requires Sound(w) && f in w.port.sockets && Live(w.port.sockets[f].flags)
    ensures LoopProofs.Inv(w.loop) && Tasks(w) && PortOk(w.port) && ReadinessProofs.FitsLoop(w.port.sockets[f].flags, w.loop)
    ensures Open?(w.port, f)
    ensures var b := w.port.sockets[f].privp; Match(f, w.port.sockets[f], b, w.port.blocks[b], Outstanding(w.port, b))
  {
    hide LoopProofs.Inv, PortOk, Match;
    Matched(w.port, f);
  }

  // ---------------------------------------------------------------- calls

  /** Only flags change. */
  lemma FlagsKeep(w: World, r: World, f: Socket, x: Filp)
    requires Sound(w) && (r.loop == w.loop || ReadinessProofs.LoopMoved(w.loop, r.loop)) && f in w.port.sockets && Live(w.port.sockets[f].flags)
    requires Open?(w.port, f) && r.port == SetFlags(w.port, f, x) && ReadinessProofs.FitsLoop(x, r.loop)
    requires var b := w.port.sockets[f].privp;
             Match(f, w.port.sockets[f].(flags := x), b, w.port.blocks[b], Outstanding(w.port, b))
    ensures Sound(r)
  {
    hide Sound, Match, ReadinessProofs.FitsLoop, Live;
    var b := w.port.sockets[f].privp;
    assert w.port.blocks[b := w.port.blocks[b]] == w.port.blocks;
    CallKeeps(w, r, f, w.port.sockets[f].(flags := x), w.port.blocks[b], Outstanding(w.port, b));
  }

  ghost predicate Attached(w: World, f: Socket) {
    Sound(w) && f in w.port.sockets && Live(w.port.sockets[f].flags)
  }

  lemma MatchRecv(f: Socket, s: SocketFields, b: Block, y: BlockFields, k: Pending, newfd: int)
    requires Match(f, s, b, y, k) && !s.flags.pollIn && (if s.listen then newfd != -1 && !s.flags.readable else newfd == y.newfd)
    ensures Match(f, s.(flags := s.flags.(pollIn := true)), b, y.(refcnt := y.refcnt + 1, newfd := newfd), k.(recv := true))
  {
  }

  lemma MatchSend(f: Socket, s: SocketFields, b: Block, y: BlockFields, k: Pending)
    requires Match(f, s, b, y, k) && !s.flags.pollOut
    ensures Match(f, s.(flags := s.flags.(writable := false, pollOut := true)), b, y.(refcnt := y.refcnt + 1), k.(send := true))
  {
  }

  lemma PostedUpdated(p: Port, f: Socket, x: SocketFields, b: Block, side: Side, newfd: int)
    requires b in p.blocks && f in p.sockets
    ensures var y, k := p.blocks[b].(refcnt := p.blocks[b].refcnt + 1), Outstanding(p, b);
            var m, q := if side == Recv then k.(recv := true) else k.(send := true), Posted(p, b, side);
            && q.sockets == p.sockets && b in q.blocks
            && Updated(p, SetSocket(q, f, x), f, x, b, y, m)
            && Updated(p, SetSocket(q.(blocks := q.blocks[b := q.blocks[b].(newfd := newfd)]), f, x), f, x, b,
                       y.(newfd := newfd), m)
  {
  }

  /** The block and the operations a posted operation leaves. */
  lemma PostKeeps(w: World, r: World, f: Socket, x: SocketFields, side: Side, newfd: int)
    requires Attached(w, f) && Open?(w.port, f) && r.loop == w.loop
    requires var b := w.port.sockets[f].privp;
             var y, k := w.port.blocks[b].(refcnt := w.port.blocks[b].refcnt + 1, newfd := newfd), Outstanding(w.port, b);
             var m := if side == Recv then k.(recv := true) else k.(send := true);
             Updated(w.port, r.port, f, x, b, y, m) && Match(f, x, b, y, m)
    requires ReadinessProofs.FitsLoop(x.flags, w.loop)
    ensures Sound(r)
  {
    hide Sound, Match, Updated, ReadinessProofs.FitsLoop, Live, Outstanding;
    var b := w.port.sockets[f].privp;
    var y, k := w.port.blocks[b].(refcnt := w.port.blocks[b].refcnt + 1, newfd := newfd), Outstanding(w.port, b);
    CallKeeps(w, r, f, x, y, if side == Recv then k.(recv := true) else k.(send := true));
  }

  lemma PostAcceptKeeps(w: World, f: Socket, newfd: int)
    requires Attached(w, f) && newfd != -1
    requires var s := w.port.sockets[f]; s.listen && !s.flags.pollIn && !s.flags.readable
    ensures Open?(w.port, f) && Sound(PostAccept(w, f, newfd))
  {
    hide Sound, LoopProofs.Inv, Tasks, PortOk, Match, Posted, Updated;
    Fitting(w, f);
    var s, b := w.port.sockets[f], w.port.sockets[f].privp;
    MatchRecv(f, s, b, w.port.blocks[b], Outstanding(w.port, b), newfd);
    PostedUpdated(w.port, f, s.(flags := s.flags.(pollIn := true)), b, Recv, newfd);
    PostKeeps(w, PostAccept(w, f, newfd), f, s.(flags := s.flags.(pollIn := true)), Recv, newfd);
  }

  lemma PostRecvKeeps(w: World, f: Socket)
    requires Attached(w, f)
    requires var s := w.port.sockets[f]; !s.listen && !s.flags.pollIn
    ensures Open?(w.port, f) && Sound(PostRecv(w, f))
  {
    hide Sound, LoopProofs.Inv, Tasks, PortOk, Match, Posted, Updated;
    Fitting(w, f);
    var s, b := w.port.sockets[f], w.port.sockets[f].privp;
    var n := w.port.blocks[b].newfd;
    MatchRecv(f, s, b, w.port.blocks[b], Outstanding(w.port, b), n);
    PostedUpdated(w.port, f, s.(flags := s.flags.(pollIn := true)), b, Recv, n);
    PostKeeps(w, PostRecv(w, f), f, s.(flags := s.flags.(pollIn := true)), Recv, n);
  }

  lemma PostSendKeeps(w: World, f: Socket)
    requires Attached(w, f) && !w.port.sockets[f].flags.pollOut
    ensures Open?(w.port, f) && Sound(PostSend(w, f))
  {
    hide Sound, LoopProofs.Inv, Tasks, PortOk, Match, Posted, Updated;
    Fitting(w, f);
    var s, b := w.port.sockets[f], w.port.sockets[f].privp;
    var n := w.port.blocks[b].newfd;
    MatchSend(f, s, b, w.port.blocks[b], Outstanding(w.port, b));
    PostedUpdated(w.port, f, s.(flags := s.flags.(writable := false, pollOut := true)), b, Send, n);
    PostKeeps(w, PostSend(w, f), f, s.(flags := s.flags.(writable := false, pollOut := true)), Send, n);
  }

  /** New flags that leave the POLL flags as the operations are, for the waiters of the loop. */
  lemma MatchFlags(f: Socket, s: SocketFields, b: Block, y: BlockFields, k: Pending, x: Filp)
    requires Match(f, s, b, y, k) && Live(x) && x.pollIn == s.flags.pollIn && x.pollOut == s.flags.pollOut
    requires s.listen ==> x.readable == s.flags.readable
    ensures Match(f, s.(flags := x), b, y, k)
  {
  }

  /** The task is told and the flags are x from then on. */
  lemma ToldKeeps(w: World, r: World, f: Socket, task: OptTask, x: Filp)
    requires Attached(w, f) && Open?(w.port, f) && (task != null ==> task in w.loop.tasks) && w.loop.taskq in w.loop.fam.lists
    requires r == World(LoopModel.Activated(w.loop, task, f), SetFlags(w.port, f, x))
    requires ReadinessProofs.FitsLoop(x, w.loop)
    requires var b := w.port.sockets[f].privp;
             Match(f, w.port.sockets[f].(flags := x), b, w.port.blocks[b], Outstanding(w.port, b))
    ensures Sound(r)
  {
    hide Sound, LoopProofs.Inv, Tasks, PortOk, Match, LoopModel.Activated, ReadinessProofs.LoopMoved, ReadinessProofs.FitsLoop;
    Fitting(w, f);
    ReadinessProofs.WakeKeeps(w.loop, task, f);
    FitsMoved(x, w.loop, r.loop);
    FlagsKeep(w, r, f, x);
  }

  lemma FitsMoved(x: Filp, l: LoopState, m: LoopState)
    requires ReadinessProofs.FitsLoop(x, l) && ReadinessProofs.LoopMoved(l, m)
    ensures ReadinessProofs.FitsLoop(x, m)
  {
    hide LoopProofs.Inv;
  }

  lemma WaitersKnown(w: World, f: Socket)
    requires Tasks(w) && f in w.port.sockets
    ensures w.loop.taskq in w.loop.fam.lists && ReadinessProofs.FitsLoop(w.port.sockets[f].flags, w.loop)
  {
  }

  lemma ReadyInKeeps(w: World, f: Socket)
    requires Attached(w, f) && !w.port.sockets[f].listen && !w.port.sockets[f].flags.pollIn
    ensures Tasks(w) && Open?(w.port, f) && Sound(ReadyIn(w, f))
  {
    hide Sound, LoopProofs.Inv, Tasks, PortOk, Match, LoopModel.Activated;
    Fitting(w, f);
    WaitersKnown(w, f);
    var s, b := w.port.sockets[f], w.port.sockets[f].privp;
    var x := s.flags.(pollIn := false, readable := true, filterIn := null);
    MatchFlags(f, s, b, w.port.blocks[b], Outstanding(w.port, b), x);
    ToldKeeps(w, ReadyIn(w, f), f, s.flags.filterIn, x);
  }

  lemma ReadyOutKeeps(w: World, f: Socket)
    requires Attached(w, f) && !w.port.sockets[f].flags.pollOut
    ensures Tasks(w) && Open?(w.port, f) && Sound(ReadyOut(w, f))
  {
    hide Sound, LoopProofs.Inv, Tasks, PortOk, Match, LoopModel.Activated;
    Fitting(w, f);
    WaitersKnown(w, f);
    var s, b := w.port.sockets[f], w.port.sockets[f].privp;
    var x := s.flags.(pollOut := false, writable := true, filterOut := null);
    MatchFlags(f, s, b, w.port.blocks[b], Outstanding(w.port, b), x);
    ToldKeeps(w, ReadyOut(w, f), f, s.flags.filterOut, x);
  }

  /** New flags of an attached socket, with the loop as it was. */
  lemma SetFlagsKeep(w: World, f: Socket, x: Filp)
    requires Attached(w, f) && Live(x) && x.pollIn == w.port.sockets[f].flags.pollIn && x.pollOut == w.port.sockets[f].flags.pollOut
    requires w.port.sockets[f].listen ==> x.readable == w.port.sockets[f].flags.readable
    requires ReadinessProofs.FitsLoop(x, w.loop)
    ensures Sound(w.(port := SetFlags(w.port, f, x)))
  {
    hide Sound, LoopProofs.Inv, Tasks, PortOk, Match, ReadinessProofs.FitsLoop;
    Fitting(w, f);
    var s, b := w.port.sockets[f], w.port.sockets[f].privp;
    MatchFlags(f, s, b, w.port.blocks[b], Outstanding(w.port, b), x);
    FlagsKeep(w, w.(port := SetFlags(w.port, f, x)), f, x);
  }

  lemma FilterKeeps(w: World, f: Socket, task: OptTask)
    requires Attached(w, f) && (task != null ==> task in w.loop.tasks)
    ensures Attached(SetFilterIn(w, f, task), f) && Attached(SetFilterOut(w, f, task), f)
  {
    hide Sound, LoopProofs.Inv, Tasks, PortOk, Match;
    Fitting(w, f);
    WaitersKnown(w, f);
    var x := w.port.sockets[f].flags;
    SetFlagsKeep(w, f, x.(filterIn := task));
    SetFlagsKeep(w, f, x.(filterOut := task));
  }

  lemma SameFlags(p: Port, f: Socket)
    requires f in p.sockets
    ensures SetFlags(p, f, p.sockets[f].flags) == p
  {
    assert p.sockets[f := p.sockets[f]] == p.sockets;
  }

  lemma AlertedSound(w: World, f: Socket, task: OptTask)
    requires Attached(w, f) && (task != null ==> task in w.loop.tasks)
    ensures Tasks(w) && Open?(w.port, f) && Sound(w.(loop := LoopModel.Activated(w.loop, task, f)))
  {
    hide Sound, LoopProofs.Inv, Tasks, PortOk, Match, LoopModel.Activated;
    Fitting(w, f);
    WaitersKnown(w, f);
    SameFlags(w.port, f);
    var s, b := w.port.sockets[f], w.port.sockets[f].privp;
    MatchFlags(f, s, b, w.port.blocks[b], Outstanding(w.port, b), s.flags);
    ToldKeeps(w, w.(loop := LoopModel.Activated(w.loop, task, f)), f, task, s.flags);
  }

  lemma PostInKeeps(w: World, f: Socket, newfd: int, taken: bool)
    requires Attached(w, f) && !w.port.sockets[f].flags.readable && (newfd != -1 || !taken)
    ensures Tasks(w) && Open?(w.port, f) && Sound(PostIn(w, f, newfd, taken))
  {
    hide Sound, LoopProofs.Inv, Tasks, PortOk, Match, PostAccept, PostRecv, ReadyIn;
    Fitting(w, f);
    var s := w.port.sockets[f];
    if !s.flags.pollIn && s.listen && taken {
      PostAcceptKeeps(w, f, newfd);
    } else if !s.flags.pollIn && !s.listen && taken {
      PostRecvKeeps(w, f);
    } else if !s.flags.pollIn && !s.listen {
      ReadyInKeeps(w, f);
    }
  }

  lemma WaitInKeeps(w: World, f: Socket, task: OptTask, newfd: int, taken: bool)
    requires Attached(w, f) && (newfd != -1 || !taken) && (task != null ==> task in w.loop.tasks)
    ensures Tasks(w) && Open?(w.port, f) && Sound(WaitIn(w, f, task, newfd, taken))
  {
    hide Sound, LoopProofs.Inv, Tasks, PortOk, Match, PostIn, LoopModel.Activated;
    Fitting(w, f);
    FilterKeeps(w, f, task);
    if w.port.sockets[f].flags.readable {
      AlertedSound(w, f, task);
    } else if !w.port.sockets[f].flags.pollIn {
      PostInKeeps(SetFilterIn(w, f, task), f, newfd, taken);
    }
  }

  lemma WaitOutKeeps(w: World, f: Socket, task: OptTask)
    requires Attached(w, f) && (task != null ==> task in w.loop.tasks)
    ensures Tasks(w) && Open?(w.port, f) && Sound(WaitOut(w, f, task))
  {
    hide Sound, LoopProofs.Inv, Tasks, PortOk, Match, LoopModel.Activated;
    Fitting(w, f);
    FilterKeeps(w, f, task);
    if w.port.sockets[f].flags.writable {
      AlertedSound(w, f, task);
    }
  }

  lemma SendOutKeeps(w: World, f: Socket, answer: Sending)
    requires Attached(w, f)
    ensures Tasks(w) && Open?(w.port, f) && Sound(SendOut(w, f, answer))
  {
    hide Sound, LoopProofs.Inv, Tasks, PortOk, Match, PostSend, ReadyOut;
    Fitting(w, f);
    if !w.port.sockets[f].flags.pollOut {
      match answer
      case Sent(_) =>
      case Taken => PostSendKeeps(w, f);
      case Failed => ReadyOutKeeps(w, f);
    }
  }

  lemma ConnectKeeps(w: World, f: Socket, task: OptTask, taken: bool)
    requires Attached(w, f) && (task != null ==> task in w.loop.tasks)
    ensures Tasks(w) && Open?(w.port, f) && Sound(ConnectOut(w, f, task, taken))
  {
    hide Sound, LoopProofs.Inv, Tasks, PortOk, Match, WaitOut, PostSend;
    Fitting(w, f);
    if !w.port.sockets[f].flags.pollOut && taken {
      PostSendKeeps(w, f);
      StillAttached(w, f);
      WaitOutKeeps(PostSend(w, f), f, task);
    } else {
      WaitOutKeeps(w, f, task);
    }
  }

  lemma StillAttached(w: World, f: Socket)
    requires Open?(w.port, f)
    ensures var r := PostSend(w, f); r.loop == w.loop && f in r.port.sockets && Live(r.port.sockets[f].flags)
  {
  }

  lemma AcceptKeeps(w: World, f: Socket)
    requires Attached(w, f)
    ensures Open?(w.port, f) && Sound(Accept(w, f).0)
    ensures w.port.sockets[f].listen && w.port.sockets[f].flags.readable ==> Accept(w, f).1 != -1
  {
    hide Sound, LoopProofs.Inv, Tasks, PortOk, Match;
    Fitting(w, f);
    WaitersKnown(w, f);
    var s, b := w.port.sockets[f], w.port.sockets[f].privp;
    if s.listen && s.flags.readable {
      AcceptMatch(f, s, b, w.port.blocks[b], Outstanding(w.port, b));
      CallKeeps(w, Accept(w, f).0, f, s.(flags := s.flags.(readable := false)), w.port.blocks[b].(newfd := -1),
                Outstanding(w.port, b));
    }
  }

  lemma AcceptMatch(f: Socket, s: SocketFields, b: Block, y: BlockFields, k: Pending)
    requires Match(f, s, b, y, k) && s.listen && s.flags.readable
    ensures Match(f, s.(flags := s.flags.(readable := false)), b, y.(newfd := -1), k) && y.newfd != -1
  {
  }

  /** Flags of a descriptor that is detached already mean nothing to anybody. */
  lemma DeadFlagsKeep(w: World, f: Socket, x: Filp)
    requires Sound(w) && f in w.port.sockets && !Live(w.port.sockets[f].flags) && !Live(x)
    requires ReadinessProofs.FitsLoop(x, w.loop)
    ensures Sound(w.(port := SetFlags(w.port, f, x)))
  {
    LoopStays(w);
    DeadPort(w.port, f, x);
    hide LoopProofs.Inv, PortOk, ReadinessProofs.FitsLoop, ReadinessProofs.LoopMoved, Live;
    TasksAgain(w, w.(port := SetFlags(w.port, f, x)), f, w.port.sockets[f].(flags := x));
  }

  lemma DeadPort(p: Port, f: Socket, x: Filp)
    requires PortOk(p) && f in p.sockets && !Live(p.sockets[f].flags) && !Live(x)
    ensures PortOk(SetFlags(p, f, x))
  {
    hide Blocks, Sockets, WellFormed, Distinct;
    var r := SetFlags(p, f, x);
    DeadPairs(p, f, x);
    assert r.kernel == p.kernel && r.blocks == p.blocks && r.fam == p.fam && r.freed == p.freed && r.head == p.head;
  }

  lemma DeadPairs(p: Port, f: Socket, x: Filp)
    requires Blocks(p) && Sockets(p) && f in p.sockets && !Live(p.sockets[f].flags) && !Live(x)
    ensures Blocks(SetFlags(p, f, x)) && Sockets(SetFlags(p, f, x))
  {
    var r := SetFlags(p, f, x);
    forall b | b in r.blocks ensures BlockOk(r, b) { assert BlockOk(p, b); }
    forall g | g in r.sockets ensures SocketOk(r, g) { assert SocketOk(p, g); }
  }

  /** generic_cancel_in and generic_cancel_out, on any descriptor. */
  lemma CancelKeeps(w: World, f: Socket, side: Side, verify: object?)
    requires Sound(w) && f in w.port.sockets
    ensures Sound(CancelWait(w, f, side, verify))
  {
    hide Sound, SetFlags;
    DroppedKeeps(w, f);
  }

  lemma DroppedKeeps(w: World, f: Socket)
    requires Sound(w) && f in w.port.sockets
    ensures Sound(SetFilterIn(w, f, null)) && Sound(SetFilterOut(w, f, null))
  {
    hide Sound, Tasks, LoopProofs.Inv, PortOk;
    SoundTasks(w);
    WaitersKnown(w, f);
    var x := w.port.sockets[f].flags;
    if Live(x) {
      SetFlagsKeep(w, f, x.(filterIn := null));
      SetFlagsKeep(w, f, x.(filterOut := null));
    } else {
      DeadFlagsKeep(w, f, x.(filterIn := null));
      DeadFlagsKeep(w, f, x.(filterOut := null));
    }
  }

  lemma SoundTasks(w: World)
    requires Sound(w)
    ensures Tasks(w) && LoopProofs.Inv(w.loop) && PortOk(w.port)
  {
    hide LoopProofs.Inv, PortOk;
  }

  /** tx_aincb_update after a would-block, on any descriptor: it keeps everything in order except on a listener
      that holds an accepted socket, which would then never be handed out. */
  lemma DrainedKeepsIff(w: World, f: Socket)
    requires Sound(w) && f in w.port.sockets
    ensures Sound(DrainedIn(w, f)) <==>
              !(Live(w.port.sockets[f].flags) && w.port.sockets[f].listen && w.port.sockets[f].flags.readable)
  {
    var s := w.port.sockets[f];
    var x := s.flags.(readable := false);
    SoundTasks(w);
    WaitersKnown(w, f);
    if Live(s.flags) && s.listen && s.flags.readable {
      LostSocket(w, f);
    } else if Live(s.flags) && !s.listen {
      hide Sound, LoopProofs.Inv, PortOk;
      SetFlagsKeep(w, f, x);
    } else if Live(s.flags) {
      SameFlags(w.port, f);
    } else {
      hide Sound, LoopProofs.Inv, PortOk;
      DeadFlagsKeep(w, f, x);
    }
  }

  lemma LostSocket(w: World, f: Socket)
    requires Sound(w) && f in w.port.sockets
    requires var s := w.port.sockets[f]; Live(s.flags) && s.listen && s.flags.readable
    ensures !Sound(DrainedIn(w, f))
  {
    Fitting(w, f);
    hide LoopProofs.Inv, Tasks;
    assert !SocketOk(DrainedIn(w, f).port, f);
  }

  // ---------------------------------------------------------------- opening, closing, completing

  /** A block that was never handed out. */
  ghost predicate Fresh(p: Port, b: Block) {
    b !in p.blocks && b !in p.freed && b != p.head && Outstanding(p, b) == NOTHING
  }

  lemma OpenAlone(p: Port, f: Socket, b: Block)
    requires Blocks(p) && Sockets(p) && f !in p.sockets && b !in p.blocks
    ensures Mates(p, f, b)
  {
    forall g | g in p.sockets ensures p.sockets[g].privp != b { assert SocketOk(p, g); }
    forall c | c in p.blocks ensures p.blocks[c].filp != f { assert BlockOk(p, c); }
  }

  lemma OpenPair(p: Port, f: Socket, b: Block, listen: bool)
    requires p.head in p.fam.lists && Outstanding(p, b) == NOTHING
    ensures var r := Opened(p, f, b, listen); BlockOk(r, b) && SocketOk(r, f)
  {
  }

  lemma OpenLocal(p: Port, f: Socket, b: Block, listen: bool)
    requires p.head in p.fam.lists
    ensures Local(p, Opened(p, f, b, listen), f, b)
  {
    hide Pushed;
  }

  lemma OpenLists(p: Port, f: Socket, b: Block, listen: bool)
    requires Listed(p) && Freed(p) && b !in p.blocks && b !in p.freed && b != p.head
    ensures p.head in p.fam.lists
    ensures Listed(Opened(p, f, b, listen)) && Freed(Opened(p, f, b, listen))
  {
    hide WellFormed, Distinct;
    var r := Opened(p, f, b, listen);
    PushedWellFormed(p.fam, p.head, b);
    assert r.fam.at.Keys == p.fam.at.Keys + {b} && r.blocks.Keys == p.blocks.Keys + {b};
    assert r.fam.lists.Keys == p.fam.lists.Keys && r.head == p.head && r.freed == p.freed;
    hide Opened;
  }

  lemma OpenPort(p: Port, f: Socket, b: Block, listen: bool)
    requires PortOk(p) && f !in p.sockets && Fresh(p, b)
    ensures p.head in p.fam.lists && PortOk(Opened(p, f, b, listen))
  {
    hide Blocks, Sockets, Kernel, Listed, Freed, Local, Mates, BlockOk, SocketOk, Opened;
    OpenLists(p, f, b, listen);
    OpenAlone(p, f, b);
    OpenPair(p, f, b, listen);
    OpenLocal(p, f, b, listen);
    OpenedHas(p, f, b, listen);
    LocalOk(p, Opened(p, f, b, listen), f, b);
  }

  lemma OpenedHas(p: Port, f: Socket, b: Block, listen: bool)
    requires p.head in p.fam.lists
    ensures var r := Opened(p, f, b, listen);
            && b in r.blocks && r.poller == p.poller
            && r.sockets == p.sockets[f := SocketFields(NEW_FILP.(attached := true), listen, b)]
  {
  }

  lemma OpenKeeps(w: World, f: Socket, b: Block, listen: bool)
    requires Sound(w) && f !in w.port.sockets && Fresh(w.port, b)
    ensures w.port.head in w.port.fam.lists && Sound(Open(w, f, b, listen))
  {
    LoopStays(w);
    hide LoopProofs.Inv, PortOk, Opened, ReadinessProofs.LoopMoved, Tasks;
    OpenPort(w.port, f, b, listen);
    OpenedHas(w.port, f, b, listen);
    TasksAgain(w, Open(w, f, b, listen), f, SocketFields(NEW_FILP.(attached := true), listen, b));
  }

  lemma UnrefLists(p: Port, b: Block)
    requires Listed(p) && Freed(p) && b in p.blocks
    ensures Listed(Unref(p, b)) && Freed(Unref(p, b))
  {
    hide WellFormed, Minus;
    UnlinkedWellFormed(p.fam, b);
    var d := p.freed + [b];
    assert Distinct(d);
  }

  /** The port in which socket f has let go of its block. */
  ghost function LetGo(p: Port, f: Socket, b: Block): Port
    requires f in p.sockets && b in p.blocks
  {
    var s := p.sockets[f];
    SetSocket(p, f, s.(flags := s.flags.(detached := true), privp := null)).(
      blocks := p.blocks[b := p.blocks[b].(filp := null)])
  }

  lemma CloseLists(p: Port, f: Socket)
    requires Listed(p) && Freed(p) && Open?(p, f)
    ensures Listed(Closed(p, f)) && Freed(Closed(p, f))
  {
    var q := LetGo(p, f, p.sockets[f].privp);
    assert Listed(q) && Freed(q) by { hide WellFormed; }
    hide Listed, Freed, Unref;
    UnrefLists(q, p.sockets[f].privp);
  }

  lemma ClosePair(p: Port, f: Socket)
    requires Open?(p, f) && SocketOk(p, f) && BlockOk(p, p.sockets[f].privp)
    ensures var r, b := Closed(p, f), p.sockets[f].privp;
            && SocketOk(r, f) && (b in r.blocks ==> BlockOk(r, b)) && r.kernel == p.kernel && r.poller == p.poller
            && (b in r.blocks <==> Outstanding(p, b) != NOTHING)
            && r.freed == p.freed + (if b in r.blocks then [] else [b])
            && r.sockets == p.sockets[f := r.sockets[f]]
            && r.sockets[f].flags == p.sockets[f].flags.(detached := true)
  {
  }

  lemma CloseLocal(p: Port, f: Socket)
    requires Open?(p, f)
    ensures Local(p, Closed(p, f), f, p.sockets[f].privp)
  {
    hide Unlinked;
  }

  lemma ClosePort(p: Port, f: Socket)
    requires PortOk(p) && f in p.sockets && Live(p.sockets[f].flags)
    ensures Open?(p, f) && PortOk(Closed(p, f))
    ensures var b := p.sockets[f].privp;
            Closed(p, f).freed == p.freed + if Outstanding(p, b) == NOTHING then [b] else []
  {
    OpenMates(p, f);
    assert SocketOk(p, f) && BlockOk(p, p.sockets[f].privp);
    hide Blocks, Sockets, Listed, Freed, Local, Mates, BlockOk, SocketOk, Closed;
    CloseLists(p, f);
    ClosePair(p, f);
    CloseLocal(p, f);
    hide Kernel;
    KernelStays(p, Closed(p, f), p.sockets[f].privp);
    LocalOk(p, Closed(p, f), f, p.sockets[f].privp);
  }

  lemma KernelStays(p: Port, r: Port, b: Block)
    requires Kernel(p) && r.kernel == p.kernel && (b in r.blocks <==> Outstanding(p, b) != NOTHING)
    ensures b in r.kernel && r.kernel[b] != NOTHING ==> b in r.blocks
  {
  }

  lemma CloseKeeps(w: World, f: Socket)
    requires Sound(w) && f in w.port.sockets
    ensures Live(w.port.sockets[f].flags) ==> Open?(w.port, f)
    ensures Sound(Close(w, f))
  {
    if Live(w.port.sockets[f].flags) {
      hide Sound, Open?;
      CloseLive(w, f);
    }
  }

  lemma CloseLive(w: World, f: Socket)
    requires Attached(w, f)
    ensures Open?(w.port, f) && Sound(Close(w, f))
  {
    LoopStays(w);
    Fitting(w, f);
    assert SocketOk(w.port, f) && BlockOk(w.port, w.port.sockets[f].privp);
    hide LoopProofs.Inv, PortOk, Closed, ReadinessProofs.LoopMoved, Tasks, SocketOk, BlockOk, Match, Sound;
    ClosePort(w.port, f);
    ClosePair(w.port, f);
    TasksAgain(w, Close(w, f), f, Closed(w.port, f).sockets[f]);
    SoundFrom(Close(w, f), w);
  }

  lemma SoundFrom(r: World, w: World)
    requires Tasks(r) && PortOk(r.port) && ReadinessProofs.LoopMoved(w.loop, r.loop)
    ensures Sound(r)
  {
    hide LoopProofs.Inv, PortOk, Tasks;
  }

  ghost predicate Has(k: Pending, side: Side) { if side == Recv then k.recv else k.send }

  function Without(k: Pending, side: Side): Pending {
    if side == Recv then k.(recv := false) else k.(send := false)
  }

  /** A block whose descriptor is gone. */
  lemma OrphanLocal(p: Port, b: Block, side: Side)
    requires b in p.blocks
    ensures Local(p, Unref(Returned(p, b, side), b), null, b)
  {
    hide Unlinked;
  }

  lemma OrphanPair(p: Port, b: Block, side: Side)
    requires b in p.blocks && BlockOk(p, b) && p.blocks[b].filp == null && Has(Outstanding(p, b), side)
    ensures var r := Unref(Returned(p, b, side), b);
            && (b in r.blocks ==> BlockOk(r, b)) && (b in r.blocks <==> Outstanding(r, b) != NOTHING)
            && Outstanding(r, b) == Without(Outstanding(p, b), side) && r.sockets == p.sockets && r.poller == p.poller
  {
  }

  lemma OrphanAlone(p: Port, b: Block)
    requires Sockets(p) && b in p.blocks && p.blocks[b].filp == null
    ensures Mates(p, null, b)
  {
    forall g | g in p.sockets ensures p.sockets[g].privp != b { assert SocketOk(p, g); }
  }

  lemma OrphanPort(p: Port, b: Block, side: Side)
    requires PortOk(p) && b in p.blocks && p.blocks[b].filp == null && Has(Outstanding(p, b), side)
    ensures PortOk(Unref(Returned(p, b, side), b))
  {
    assert BlockOk(p, b);
    var q, r := Returned(p, b, side), Unref(Returned(p, b, side), b);
    assert Listed(q) && Freed(q);
    hide Blocks, Sockets, Kernel, Listed, Freed, Local, Mates, BlockOk, SocketOk, Unref, Returned;
    UnrefLists(q, b);
    OrphanLocal(p, b, side);
    OrphanPair(p, b, side);
    OrphanAlone(p, b);
    LocalOk(p, r, null, b);
  }

  /** A block whose descriptor is still there is not deleted by a completion. */
  lemma OwnedReturns(p: Port, b: Block, side: Side)
    requires b in p.blocks && BlockOk(p, b) && p.blocks[b].filp != null && Has(Outstanding(p, b), side)
    ensures var q, y := Unref(Returned(p, b, side), b), p.blocks[b];
            && q.blocks == p.blocks[b := y.(refcnt := y.refcnt - 1)]
            && q.kernel == p.kernel[b := Without(Outstanding(p, b), side)]
            && q == p.(blocks := q.blocks, kernel := q.kernel)
  {
  }

  lemma MatchReturned(f: Socket, s: SocketFields, b: Block, y: BlockFields, k: Pending, side: Side)
    requires Match(f, s, b, y, k) && Has(k, side)
    ensures var x := if side == Send then s.flags.(pollOut := false, writable := true, filterOut := null)
                     else s.flags.(pollIn := false, readable := true, filterIn := null);
            Match(f, s.(flags := x), b, y.(refcnt := y.refcnt - 1), Without(k, side))
  {
  }

  ghost predicate Returnable(p: Port, b: Block, side: Side) { Has(Outstanding(p, b), side) }

  lemma CompleteReady(w: World, b: Block, side: Side)
    requires Sound(w) && Returnable(w.port, b, side)
    ensures Tasks(w) && b in w.port.blocks && BlockOk(w.port, b)
    ensures var f := w.port.blocks[b].filp; f != null ==> f in w.port.sockets && Live(w.port.sockets[f].flags) && w.port.sockets[f].privp == b
  {
    assert b in w.port.blocks;
    assert BlockOk(w.port, b);
    hide LoopProofs.Inv;
  }

  lemma CompleteIs(w: World, b: Block, side: Side, f: Socket)
    requires Tasks(w) && b in w.port.blocks && w.port.blocks[b].filp == f && f in w.port.sockets
    requires BlockOk(w.port, b) && Returnable(w.port, b, side)
    ensures var r, s, y := Complete(w, b, side), w.port.sockets[f], w.port.blocks[b];
            && Updated(w.port, r.port, f, s.(flags := AfterReturn(s.flags, side)), b, y.(refcnt := y.refcnt - 1),
                       Without(Outstanding(w.port, b), side))
            && r.loop == LoopModel.Activated(w.loop, if side == Send then s.flags.filterOut else s.flags.filterIn, f)
  {
    OwnedReturns(w.port, b, side);
    hide BlockOk, LoopModel.Activated, Unref, Returned;
  }

  lemma OwnedKeeps(w: World, b: Block, side: Side, f: Socket)
    requires Sound(w) && Returnable(w.port, b, side) && b in w.port.blocks && w.port.blocks[b].filp == f
    requires Tasks(w) && f in w.port.sockets
    ensures Sound(Complete(w, b, side))
    ensures Complete(w, b, side).port.sockets[f].flags == AfterReturn(w.port.sockets[f].flags, side)
  {
    hide Sound, BlockOk, LoopModel.Activated, Complete, Match, Tasks, Updated, PortOk;
    CompleteReady(w, b, side);
    Fitting(w, f);
    var s, y, k := w.port.sockets[f], w.port.blocks[b], Outstanding(w.port, b);
    CompleteIs(w, b, side, f);
    MatchReturned(f, s, b, y, k, side);
    ReadinessProofs.WakeKeeps(w.loop, if side == Send then s.flags.filterOut else s.flags.filterIn, f);
    UpdatedFlags(w.port, Complete(w, b, side).port, f, s.(flags := AfterReturn(s.flags, side)), b, y.(refcnt := y.refcnt - 1), Without(k, side));
    CallKeeps(w, Complete(w, b, side), f, s.(flags := AfterReturn(s.flags, side)), y.(refcnt := y.refcnt - 1), Without(k, side));
  }

  lemma UpdatedFlags(p: Port, r: Port, f: Socket, x: SocketFields, b: Block, y: BlockFields, k: Pending)
    requires Updated(p, r, f, x, b, y, k)
    ensures f in r.sockets && r.sockets[f] == x
  {
  }

  function AfterReturn(x: Filp, side: Side): Filp {
    if side == Send then x.(pollOut := false, writable := true, filterOut := null)
    else x.(pollIn := false, readable := true, filterIn := null)
  }

  lemma UnrefTasks(w: World, b: Block, side: Side)
    requires Tasks(w) && b in w.port.blocks
    ensures var u := w.(port := Unref(Returned(w.port, b, side), b));
            && Tasks(u) && u.port.sockets == w.port.sockets
            && (b in u.port.blocks ==> u.port.blocks[b].filp == w.port.blocks[b].filp)
    ensures b in Returned(w.port, b, side).blocks
  {
  }

  lemma OrphanKeeps(w: World, b: Block, side: Side)
    requires Sound(w) && Returnable(w.port, b, side) && b in w.port.blocks && w.port.blocks[b].filp == null && Tasks(w)
    requires BlockOk(w.port, b)
    ensures Sound(Complete(w, b, side))
  {
    hide LoopProofs.Inv, PortOk, Unref, Returned, BlockOk;
    LoopStays(w);
    UnrefTasks(w, b, side);
    OrphanPort(w.port, b, side);
    OrphanPair(w.port, b, side);
  }

  lemma CompleteKeeps(w: World, b: Block, side: Side)
    requires Sound(w) && Returnable(w.port, b, side)
    ensures Tasks(w) && b in w.port.blocks
    ensures var f := w.port.blocks[b].filp; f != null ==> f in w.port.sockets
    ensures Sound(Complete(w, b, side))
  {
    hide Sound, Complete, BlockOk, Tasks;
    CompleteReady(w, b, side);
    var f := w.port.blocks[b].filp;
    if f != null {
      OwnedKeeps(w, b, side, f);
    } else {
      OrphanKeeps(w, b, side);
    }
  }
}
