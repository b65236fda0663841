/** tx_completion_port_t on the heap, over the task loop: descriptors, shared blocks and the list of
    blocks, each function proved to take the step the model says. */
module Completion {
  import opened IntrusiveList
  import LoopModel
  import LoopProofs
  import Loop
  import opened ReadinessModel
  import opened CompletionModel
  import opened CompletionProofs
  import opened CompletionTheorems

  /** The descriptors' fields are the recorded ones. */
  ghost predicate FieldsHold(sockets: map<Socket, SocketFields>)
    reads sockets.Keys`fields
  {
    forall f :: f in sockets ==> f.fields == sockets[f]
  }

  /** The blocks' fields are the recorded ones. */
  ghost predicate BlocksHold(blocks: map<Block, BlockFields>)
    reads blocks.Keys`payload
  {
    forall b :: b in blocks ==> b.payload == blocks[b]
  }

  /** A write to the fields of a descriptor. */
  method WriteFields(f: Socket, x: SocketFields, ghost sockets: map<Socket, SocketFields>)
    requires FieldsHold(sockets)
    modifies f`fields
    ensures FieldsHold(sockets[f := x])
  {
    f.fields := x;
  }

  /** A write to the fields of a block. */
  method WriteBlock(b: Block, y: BlockFields, ghost fam: Family<BlockFields>, ghost blocks: map<Block, BlockFields>)
    requires WellFormed(fam) && Linked(fam, null) && BlocksHold(blocks)
    modifies b`payload
    ensures Linked(fam, null) && BlocksHold(blocks[b := y]) && b.payload == y
  {
    hide WellFormed, Linked;
    ghost var links := Footprint(fam);
    b.payload := y;
  }

  class CompletionPort {
    const loop: Loop.TaskLoop
    const poller: Task                  // port_poll
    const head: Block                   // port_list
    ghost var model: Port

    ghost function All(): World
      reads `model, loop`model
    {
      World(loop.model, model)
    }

    ghost function Region(): set<Block>
      reads `model
    {
      {head} + model.blocks.Keys
    }

    /** The heap is what the model says. */
    ghost predicate Coherent()
      reads this, Region(), model.sockets.Keys`fields
    {
      Holds(model)
    }

    /** The heap is what p says. */
    ghost predicate Holds(p: Port)
      reads {head} + p.blocks.Keys, p.sockets.Keys`fields
    {
      && p.poller == poller && p.head == head && p.fam.lists.Keys == {head} && p.fam.at.Keys == p.blocks.Keys
      && FieldsHold(p.sockets) && BlocksHold(p.blocks) && WellFormed(p.fam) && Linked(p.fam, null)
    }

    /** The model follows the heap. */
    ghost method SetModel(p: Port)
      requires Holds(p)
      modifies `model
      ensures Coherent() && model == p
    {
      hide WellFormed, Linked, FieldsHold, BlocksHold;
      ghost var links, sockets, blocks := Footprint(p.fam), p.sockets.Keys, p.blocks.Keys;
      model := p;
    }

    ghost predicate Valid()
      reads this, Region(), model.sockets.Keys`fields, loop, loop.Region()
    {
      Coherent() && loop.Valid() && Sound(All())
    }

    /** tx_completion_port_init */
    constructor (loop: Loop.TaskLoop)
      requires loop.Valid()
      modifies loop, loop.Region()
      ensures Valid() && this.loop == loop && fresh(poller) && fresh(head) && loop.Region() == old(loop.Region()) + {poller}
      ensures model.sockets == map[] && model.blocks == map[]
      ensures loop.model == LoopModel.PollActivate(
                old(loop.model).(tasks := old(loop.model.tasks)[poller := LoopModel.FRESH_TASK]), poller)
    {
      hide LoopProofs.Inv, LoopModel.PollActivate, Loop.TaskLoop.Valid, WellFormed, Linked, Sound, Coherent, NewPort;
      var task := loop.NewPoller();
      loop.Facts();
      var q := EmptyList();
      this.loop, poller, head := loop, task, q;
      model := Port(task, q, Family(map[q := []], map[]), map[], map[], map[], []);
      new;
      NewCoherent();
      NewSound(All());
    }

    lemma NewCoherent()
      requires model == Port(poller, head, Family(map[head := []], map[]), map[], map[], map[], [])
      requires WellFormed(model.fam) && Linked(model.fam, null) && LoopProofs.Inv(loop.model)
      requires loop.model.taskq in loop.model.fam.lists && poller in loop.model.tasks
      ensures Coherent() && NewPort(All())
    {
      hide LoopProofs.Inv;
    }

    // -------------------------------------------------------------- descriptors and blocks

    method SetFlags(f: Socket, x: Filp)
      requires Coherent() && f in model.sockets
      modifies `model, f`fields
      ensures Coherent() && model == CompletionModel.SetFlags(old(model), f, x)
    {
      hide WellFormed, Linked, FieldsHold, BlocksHold;
      ghost var p := model;
      Reads(f);
      ghost var links, blocks := Footprint(p.fam), p.blocks.Keys;
      WriteFields(f, f.fields.(flags := x), p.sockets);
      SetModel(CompletionModel.SetFlags(p, f, x));
    }

    lemma Reads(f: Socket)
      requires Coherent() && f in model.sockets
      ensures f.fields == model.sockets[f]
      ensures forall b :: b in model.blocks ==> b.payload == model.blocks[b]
    {
      hide WellFormed, Linked;
    }

    /** A write to one block. */
    method SetBlock(b: Block, y: BlockFields)
      requires Coherent() && b in model.blocks
      modifies `model, b`payload
      ensures Coherent() && model == old(model).(blocks := old(model.blocks)[b := y])
    {
      hide WellFormed, Linked, FieldsHold, BlocksHold;
      ghost var p := model;
      ghost var sockets := p.sockets.Keys;
      WriteBlock(b, y, p.fam, p.blocks);
      SetModel(p.(blocks := p.blocks[b := y]));
    }

    /** The kernel takes an operation and a reference. */
    method Post(b: Block, side: Side)
      requires Coherent() && b in model.blocks
      modifies `model, b`payload
      ensures Coherent() && model == Posted(old(model), b, side)
    {
      hide WellFormed, Linked, FieldsHold, BlocksHold;
      ghost var p := model;
      ReadsBlock(b);
      ghost var sockets := p.sockets.Keys;
      WriteBlock(b, b.payload.(refcnt := b.payload.refcnt + 1), p.fam, p.blocks);
      SetModel(Posted(p, b, side));
    }

    /** A reference is dropped; with the last one LIST_REMOVE and delete. */
    method Release(b: Block) returns (gone: bool)
      requires Coherent() && b in model.blocks
      modifies `model, Region()
      ensures Coherent() && model == Unref(old(model), b) && (gone <==> b !in model.blocks)
    {
      ghost var p := model;
      hide Coherent;
      ReadsBlock(b);
      SetBlock(b, b.payload.(refcnt := b.payload.refcnt - 1));
      ReadsBlock(b);
      gone := b.payload.refcnt == 0;
      if gone {
        Delete(p, b);
      }
    }

    method Delete(ghost p: Port, b: Block)
      requires Coherent() && b in p.blocks && p.blocks[b].refcnt - 1 == 0
      requires model == p.(blocks := p.blocks[b := p.blocks[b].(refcnt := 0)])
      modifies `model, Region()
      ensures Coherent() && model == Unref(p, b)
    {
      hide WellFormed, Linked, Unlinked, FieldsHold, BlocksHold;
      ghost var blocks := model.blocks;
      ghost var sockets, keys := model.sockets.Keys, blocks.Keys;
      UnlinkedKeys(p.fam, b);
      ListRemove(b, p.fam, null);
      FewerHold(blocks, b);
      assert blocks - {b} == p.blocks - {b};
      SetModel(Unref(p, b));
    }

    /** tx_task_active with the descriptor as the reason */
    method Tell(task: OptTask, f: Socket)
      requires Coherent() && loop.Valid() && Tasks(All()) && (task != null ==> task in loop.model.tasks)
      modifies loop, loop.Region()
      ensures Coherent() && loop.Valid() && loop.Region() == old(loop.Region())
      ensures loop.model == LoopModel.Activated(old(loop.model), task, f)
    {
      hide Loop.TaskLoop.Valid, LoopModel.ActivateTask, LoopModel.Kept, Coherent;
      ghost var links, sockets := Region(), model.sockets.Keys;
      loop.Active(task, f);
    }

    method ServeIn(f: Socket)
      requires Coherent() && loop.Valid() && Tasks(All()) && f in model.sockets
      modifies `model, f`fields, loop, loop.Region()
      ensures Coherent() && loop.Valid() && loop.Region() == old(loop.Region()) && All() == ReadyIn(old(All()), f)
    {
      hide Loop.TaskLoop.Valid, Coherent, LoopModel.Activated, Tasks;
      Reads(f);
      WaiterTasks(All(), f);
      ghost var w := All();
      Tell(f.fields.flags.filterIn, f);
      assert model == w.port;
      Reads(f);
      ghost var told, tasks := loop.model, loop.Region();
      SetFlags(f, f.fields.flags.(pollIn := false, readable := true, filterIn := null));
      assert loop.model == told && loop.Region() == tasks;
    }

    method ServeOut(f: Socket)
      requires Coherent() && loop.Valid() && Tasks(All()) && f in model.sockets
      modifies `model, f`fields, loop, loop.Region()
      ensures Coherent() && loop.Valid() && loop.Region() == old(loop.Region()) && All() == ReadyOut(old(All()), f)
    {
      hide Loop.TaskLoop.Valid, Coherent, LoopModel.Activated, Tasks;
      Reads(f);
      WaiterTasks(All(), f);
      ghost var w := All();
      Tell(f.fields.flags.filterOut, f);
      assert model == w.port;
      Reads(f);
      ghost var told, tasks := loop.model, loop.Region();
      SetFlags(f, f.fields.flags.(pollOut := false, writable := true, filterOut := null));
      assert loop.model == told && loop.Region() == tasks;
    }

    // -------------------------------------------------------------- operations handed to the kernel

    method StartAccept(f: Socket, newfd: int)
      requires Coherent() && Open?(model, f)
      modifies `model, f`fields, Region()`payload
      ensures Coherent() && All() == PostAccept(old(All()), f, newfd)
    {
      hide Coherent;
      Reads(f);
      var block := f.fields.privp;
      Post(block, Recv);
      Reads(f);
      SetBlock(block, block.payload.(newfd := newfd));
      Reads(f);
      SetFlags(f, f.fields.flags.(pollIn := true));
    }

    method StartRecv(f: Socket)
      requires Coherent() && Open?(model, f)
      modifies `model, f`fields, Region()`payload
      ensures Coherent() && All() == PostRecv(old(All()), f)
    {
      hide Coherent;
      Reads(f);
      Post(f.fields.privp, Recv);
      Reads(f);
      SetFlags(f, f.fields.flags.(pollIn := true));
    }

    method StartSend(f: Socket)
      requires Coherent() && Open?(model, f)
      modifies `model, f`fields, Region()`payload
      ensures Coherent() && All() == PostSend(old(All()), f)
    {
      hide Coherent;
      Reads(f);
      Post(f.fields.privp, Send);
      Reads(f);
      SetFlags(f, f.fields.flags.(writable := false, pollOut := true));
    }

    /** tx_completion_port_pollin */
    method PollIn(f: Socket, newfd: int, taken: bool)
      requires Coherent() && loop.Valid() && Tasks(All()) && Open?(model, f)
      modifies `model, f`fields, Region()`payload, loop, loop.Region()
      ensures Coherent() && loop.Valid() && loop.Region() == old(loop.Region())
      ensures All() == PostIn(old(All()), f, newfd, taken)
    {
      hide Coherent, Loop.TaskLoop.Valid, PostAccept, PostRecv, ReadyIn, Tasks, Open?;
      OpenListed(model, f);
      Reads(f);
      ghost var l, tasks := loop.model, loop.Region();
      if !f.fields.flags.pollIn {
        if f.fields.listen {
          if taken {
            StartAccept(f, newfd);
            assert loop.model == l && loop.Region() == tasks;
          }
        } else if taken {
          StartRecv(f);
          assert loop.model == l && loop.Region() == tasks;
        } else {
          ServeIn(f);
        }
      }
    }

    // -------------------------------------------------------------- calls

    method NoteWaiter(f: Socket, task: OptTask)
      requires Coherent() && Tasks(All()) && Open?(model, f) && (task != null ==> task in loop.model.tasks)
      modifies `model, f`fields
      ensures Coherent() && Tasks(All()) && Open?(model, f) && All() == SetFilterIn(old(All()), f, task)
    {
      hide Coherent, Tasks;
      Reads(f);
      FilterTasks(All(), f, task);
      SetFlags(f, f.fields.flags.(filterIn := task));
    }

    method WaitUnready(f: Socket, task: OptTask, newfd: int, taken: bool)
      requires Coherent() && loop.Valid() && Tasks(All()) && Open?(model, f) && (task != null ==> task in loop.model.tasks)
      requires !model.sockets[f].flags.readable
      modifies `model, f`fields, Region()`payload, loop, loop.Region()
      ensures Coherent() && loop.Valid() && loop.Region() == old(loop.Region())
      ensures All() == WaitIn(old(All()), f, task, newfd, taken)
    {
      hide Coherent, Loop.TaskLoop.Valid, PostIn, Tasks;
      ghost var tasks := loop.Region();
      NoteWaiter(f, task);
      Reads(f);
      if !f.fields.flags.pollIn {
        PollIn(f, newfd, taken);
      }
    }

    method WaitInAny(f: Socket, task: OptTask, newfd: int, taken: bool)
      requires Coherent() && loop.Valid() && Tasks(All()) && Open?(model, f) && (task != null ==> task in loop.model.tasks)
      modifies `model, f`fields, Region()`payload, loop, loop.Region()
      ensures Coherent() && loop.Valid() && loop.Region() == old(loop.Region())
      ensures All() == WaitIn(old(All()), f, task, newfd, taken)
    {
      hide Coherent, Loop.TaskLoop.Valid, PostIn, LoopModel.Activated, Tasks;
      Reads(f);
      if f.fields.flags.readable {
        Tell(task, f);
      } else {
        WaitUnready(f, task, newfd, taken);
      }
    }

    method WaitOutAny(f: Socket, task: OptTask)
      requires Coherent() && loop.Valid() && Tasks(All()) && Open?(model, f) && (task != null ==> task in loop.model.tasks)
      modifies `model, f`fields, loop, loop.Region()
      ensures Coherent() && loop.Valid() && loop.Region() == old(loop.Region())
      ensures All() == WaitOut(old(All()), f, task)
    {
      hide Coherent, Loop.TaskLoop.Valid, LoopModel.Activated;
      Reads(f);
      if f.fields.flags.writable {
        Tell(task, f);
      } else {
        ghost var tasks := loop.Region();
        SetFlags(f, f.fields.flags.(filterOut := task));
      }
    }

    /** tx_completion_port_sendout, for what the kernel answers. */
    method SendAny(f: Socket, answer: Sending)
      requires Coherent() && loop.Valid() && Tasks(All()) && Open?(model, f)
      modifies `model, f`fields, Region()`payload, loop, loop.Region()
      ensures Coherent() && loop.Valid() && loop.Region() == old(loop.Region())
      ensures All() == SendOut(old(All()), f, answer)
    {
      hide Coherent, Loop.TaskLoop.Valid, PostSend, ReadyOut, Tasks, Open?;
      OpenListed(model, f);
      Reads(f);
      ghost var l, tasks := loop.model, loop.Region();
      if !f.fields.flags.pollOut {
        if answer.Taken? {
          StartSend(f);
          assert loop.model == l && loop.Region() == tasks;
        } else if answer.Failed? {
          ServeOut(f);
        }
      }
    }

    method ConnectAny(f: Socket, task: OptTask, taken: bool)
      requires Coherent() && loop.Valid() && Tasks(All()) && Open?(model, f) && (task != null ==> task in loop.model.tasks)
      modifies `model, f`fields, Region()`payload, loop, loop.Region()
      ensures Coherent() && loop.Valid() && loop.Region() == old(loop.Region())
      ensures All() == ConnectOut(old(All()), f, task, taken)
    {
      hide Coherent, Loop.TaskLoop.Valid, WaitOut, PostSend, Tasks, Open?;
      PostSendTasks(All(), f);
      Reads(f);
      ghost var l, tasks := loop.model, loop.Region();
      if !f.fields.flags.pollOut && taken {
        StartSend(f);
        assert loop.model == l && loop.Region() == tasks;
      }
      WaitOutAny(f, task);
    }

    method AcceptAny(f: Socket) returns (newfd: int)
      requires Coherent() && Open?(model, f)
      modifies `model, f`fields, Region()`payload
      ensures Coherent() && (All(), newfd) == CompletionModel.Accept(old(All()), f)
    {
      hide Coherent;
      Reads(f);
      newfd := -1;
      if f.fields.listen && f.fields.flags.readable {
        var block := f.fields.privp;
        newfd := block.payload.newfd;
        SetFlags(f, f.fields.flags.(readable := false));
        Reads(f);
        SetBlock(block, block.payload.(newfd := -1));
      }
    }

    method CloseAny(f: Socket)
      requires Coherent() && f in model.sockets && (Live(model.sockets[f].flags) ==> Open?(model, f))
      modifies `model, f`fields, Region()
      ensures Coherent() && All() == Close(old(All()), f)
    {
      hide Coherent, Closed;
      Reads(f);
      if f.fields.flags.attached && !f.fields.flags.detached {
        CloseLive(f);
      }
    }

    method CloseLive(f: Socket)
      requires Coherent() && Open?(model, f)
      modifies `model, f`fields, Region()
      ensures Coherent() && model == Closed(old(model), f)
    {
      hide Coherent, Unref;
      Reads(f);
      var block := f.fields.privp;
      Detach(f);
      Reads(f);
      SetBlock(block, block.payload.(filp := null));
      var gone := Release(block);
    }

    method Detach(f: Socket)
      requires Coherent() && f in model.sockets
      modifies `model, f`fields
      ensures Coherent()
      ensures var s := old(model.sockets[f]);
              model == SetSocket(old(model), f, s.(flags := s.flags.(detached := true), privp := null))
    {
      hide WellFormed, Linked, FieldsHold, BlocksHold;
      ghost var p := model;
      Reads(f);
      ghost var links, blocks := Footprint(p.fam), p.blocks.Keys;
      var x := f.fields.(flags := f.fields.flags.(detached := true), privp := null);
      WriteFields(f, x, p.sockets);
      SetModel(SetSocket(p, f, x));
    }

    /** generic_active_in; newfd is the socket a listener would accept with */
    method Wait(f: Socket, task: OptTask, newfd: int, taken: bool)
      requires Valid() && Enabled(All(), WaitInEvent(f, task, newfd, taken))
      modifies `model, f`fields, Region()`payload, loop, loop.Region()
      ensures Valid() && loop.Region() == old(loop.Region())
      ensures Does(old(All()), WaitInEvent(f, task, newfd, taken), All())
    {
      hide Coherent, Loop.TaskLoop.Valid, Sound, Held, WaitIn;
      AttachedFacts(All(), f);
      NextSound(All(), WaitInEvent(f, task, newfd, taken));
      WaitInAny(f, task, newfd, taken);
    }

    /** generic_active_out */
    method WaitWritable(f: Socket, task: OptTask)
      requires Valid() && Enabled(All(), WaitOutEvent(f, task))
      modifies `model, f`fields, loop, loop.Region()
      ensures Valid() && loop.Region() == old(loop.Region())
      ensures Does(old(All()), WaitOutEvent(f, task), All())
    {
      hide Coherent, Loop.TaskLoop.Valid, Sound, Held, WaitOut;
      AttachedFacts(All(), f);
      NextSound(All(), WaitOutEvent(f, task));
      WaitOutAny(f, task);
    }

    /** tx_completion_port_sendout */
    method SendData(f: Socket, answer: Sending)
      requires Valid() && Enabled(All(), SendEvent(f, answer))
      modifies `model, f`fields, Region()`payload, loop, loop.Region()
      ensures Valid() && loop.Region() == old(loop.Region())
      ensures Does(old(All()), SendEvent(f, answer), All())
    {
      hide Coherent, Loop.TaskLoop.Valid, Sound, Held, SendOut;
      AttachedFacts(All(), f);
      NextSound(All(), SendEvent(f, answer));
      SendAny(f, answer);
    }

    /** tx_aiocb_connect */
    method Connect(f: Socket, task: OptTask, taken: bool)
      requires Valid() && Enabled(All(), StartConnectEvent(f, task, taken))
      modifies `model, f`fields, Region()`payload, loop, loop.Region()
      ensures Valid() && loop.Region() == old(loop.Region())
      ensures Does(old(All()), StartConnectEvent(f, task, taken), All())
    {
      hide Coherent, Loop.TaskLoop.Valid, Sound, Held, ConnectOut;
      AttachedFacts(All(), f);
      NextSound(All(), StartConnectEvent(f, task, taken));
      ConnectAny(f, task, taken);
    }

    /** tx_aiocb_fini: tx_completion_port_detach */
    method Fini(f: Socket)
      requires Valid() && Enabled(All(), CloseEvent(f))
      modifies `model, f`fields, Region()
      ensures Valid()
      ensures Does(old(All()), CloseEvent(f), All())
    {
      hide Coherent, Loop.TaskLoop.Valid, Sound, Held, Close, Open?, Tasks, Does;
      ghost var w, tasks := All(), loop.Region();
      CloseDoes(w, f);
      CloseAny(f);
      assert loop.model == w.loop && loop.Region() == tasks;
    }

    /** tx_completion_port_accept */
    method Accept(f: Socket) returns (newfd: int)
      requires Valid() && Enabled(All(), AcceptEvent(f))
      modifies `model, f`fields, Region()`payload
      ensures Valid() && Does(old(All()), AcceptEvent(f), All())
      ensures newfd == Accepted(old(All()), f)
    {
      hide Coherent, Loop.TaskLoop.Valid, Sound, Held, CompletionModel.Accept, Does, Accepted;
      ghost var tasks := loop.Region();
      AcceptDoes(All(), f);
      newfd := AcceptAny(f);
    }

    /** A write to the flags alone, by what is left of a world in order. */
    method Replace(f: Socket, x: Filp)
      requires Coherent() && loop.Valid() && f in model.sockets
      modifies `model, f`fields
      ensures Coherent() && loop.Valid() && All() == old(All()).(port := CompletionModel.SetFlags(old(model), f, x))
    {
      hide Coherent, Loop.TaskLoop.Valid, CompletionModel.SetFlags;
      ghost var tasks := loop.Region();
      SetFlags(f, x);
    }

    method CancelAny(f: Socket, side: Side, verify: object?)
      requires Coherent() && loop.Valid() && f in model.sockets
      modifies `model, f`fields
      ensures Coherent() && loop.Valid() && All() == CancelWait(old(All()), f, side, verify)
    {
      hide Coherent, Loop.TaskLoop.Valid, CompletionModel.SetFlags;
      Reads(f);
      if side == Recv {
        if verify == f.fields.flags.filterIn {
          Replace(f, f.fields.flags.(filterIn := null));
        }
      } else if verify == f.fields.flags.filterOut {
        Replace(f, f.fields.flags.(filterOut := null));
      }
    }

    /** generic_cancel_in, generic_cancel_out */
    method Cancel(f: Socket, side: Side, verify: object?)
      requires Valid() && f in model.sockets
      modifies `model, f`fields
      ensures Valid() && All() == CancelWait(old(All()), f, side, verify)
    {
      hide Coherent, Loop.TaskLoop.Valid, Sound, CancelWait;
      CancelKeeps(All(), f, side, verify);
      CancelAny(f, side, verify);
    }

    /** tx_aincb_update after a would-block; see DrainedKeepsIff for listeners. */
    method Drained(f: Socket)
      requires Valid() && f in model.sockets
      modifies `model, f`fields
      ensures Coherent() && loop.Valid() && All() == DrainedIn(old(All()), f)
      ensures Valid() <==> old(!(Held(model, f) && model.sockets[f].listen && model.sockets[f].flags.readable))
    {
      hide Coherent, Loop.TaskLoop.Valid, Sound, Live;
      DrainedKeepsIff(All(), f);
      Reads(f);
      Replace(f, f.fields.flags.(readable := false));
    }

    // -------------------------------------------------------------- tx_aiocb_init, tx_listen_init

    /** tx_completion_port_attach of a new descriptor */
    method Open(listen: bool) returns (f: Socket, b: Block)
      requires Valid()
      modifies `model, Region()`next, Region()`prev
      ensures Valid() && fresh(f)
      ensures Does(old(All()), OpenEvent(f, b, listen), All())
    {
      hide Loop.TaskLoop.Valid, Sound, Coherent, Opened, Fresh, Opening, Does;
      ghost var s, tasks := All(), loop.Region();
      f, b := OpenAny(listen);
      assert loop.model == s.loop && loop.Region() == tasks;
      NextOpening(s, f, b, listen);
    }

    lemma NextOpening(w: World, f: Socket, b: Block, listen: bool)
      requires Sound(w) && Opening(w.port, f, b, listen) && w.loop == loop.model
      ensures Does(w, OpenEvent(f, b, listen), All()) && Sound(All())
    {
      hide Sound, Opened, Fresh, Does;
      NextOpen(w, f, b, listen);
    }

    ghost predicate Opening(p: Port, f: Socket, b: Block, listen: bool)
      reads `model
    {
      f !in p.sockets && Fresh(p, b) && p.head in p.fam.lists && model == Opened(p, f, b, listen)
    }

    method OpenAny(listen: bool) returns (f: Socket, b: Block)
      requires Coherent()
      modifies `model, Region()`next, Region()`prev
      ensures Opening(old(model), f, b, listen) && Coherent() && fresh(f)
    {
      ghost var blocks := Region();
      hide Coherent, Opened, Fresh;
      SameHead();
      f, b := NewPair(listen);
      NotHead(b);
      Insert(f, b, listen);
    }

    method NewPair(listen: bool) returns (f: Socket, b: Block)
      requires Coherent()
      ensures Coherent() && fresh(f) && fresh(b) && f.fields == SocketFields(NEW_FILP.(attached := true), listen, b)
      ensures f !in model.sockets && Fresh(model, b)
    {
      hide Coherent;
      ghost var sockets, blocks, links := model.sockets.Keys, Region(), Footprint(model.fam);
      ghost var freed, kernel, p := model.freed, model.kernel.Keys, model;
      SameHead();
      b := new Link(BlockFields(null, 0, -1));
      f := new Socket(SocketFields(NEW_FILP.(attached := true), listen, b));
    }

    lemma SameHead()
      requires Coherent()
      ensures head in model.fam.lists && model.head == head
    {
    }

    lemma NotHead(b: Block)
      requires Coherent() && Fresh(model, b)
      ensures b != head && b !in model.blocks
    {
    }

    /** LIST_INSERT_HEAD of a filled block. */
    method LinkBlock(b: Block, y: BlockFields)
      requires Coherent() && b !in model.blocks && b != head && head in model.fam.lists
      modifies Region()`next, Region()`prev, b
      ensures WellFormed(Pushed(model.fam, head, b)) && Linked(Pushed(model.fam, head, b), null) && b.payload == y
      ensures BlocksHold(model.blocks[b := y])
    {
      hide WellFormed, Linked, Pushed, FieldsHold, BlocksHold;
      WriteBlock(b, y, model.fam, model.blocks);
      ghost var blocks := model.blocks.Keys;
      ListInsertHead(head, b, model.fam);
    }

    method Insert(f: Socket, b: Block, listen: bool)
      requires Coherent() && f !in model.sockets && b !in model.blocks && b != head
      requires f.fields == SocketFields(NEW_FILP.(attached := true), listen, b) && head in model.fam.lists
      modifies `model, Region()`next, Region()`prev, b
      ensures Coherent() && model == Opened(old(model), f, b, listen)
    {
      hide WellFormed, Linked, Pushed, FieldsHold, BlocksHold;
      ghost var p := model;
      ghost var sockets := p.sockets.Keys;
      PushedKeys(p.fam, head, b);
      LinkBlock(b, BlockFields(f, 1, -1));
      MoreHold(p.sockets, f, f.fields);
      SetModel(Opened(p, f, b, listen));
    }

    // -------------------------------------------------------------- tx_completion_port_polling

    ghost method GiveBack(b: Block, side: Side)
      requires Coherent()
      modifies `model
      ensures Coherent() && model == Returned(old(model), b, side)
    {
      hide WellFormed, Linked, FieldsHold, BlocksHold;
      SetModel(Returned(model, b, side));
    }

    /** The operation is over and its reference dropped. */
    method Reclaim(b: Block, side: Side) returns (gone: bool)
      requires Coherent() && loop.Valid() && Tasks(All()) && b in model.blocks
      modifies `model, Region()
      ensures Coherent() && loop.Valid() && Tasks(All()) && loop.Region() == old(loop.Region())
      ensures loop.model == old(loop.model) && model == Unref(Returned(old(model), b, side), b)
      ensures (gone <==> b !in model.blocks) && model.sockets == old(model.sockets)
      ensures !gone ==> b.payload == model.blocks[b] && b.payload.filp == old(model.blocks[b].filp)
    {
      hide Coherent, Loop.TaskLoop.Valid, Unref, Returned, Tasks;
      ghost var tasks, w := loop.Region(), All();
      UnrefTasks(w, b, side);
      GiveBack(b, side);
      gone := Release(b);
      assert loop.model == w.loop && loop.Region() == tasks;
      if !gone {
        ReadsBlock(b);
      }
    }

    method HandleAny(b: Block, side: Side)
      requires Coherent() && loop.Valid() && Tasks(All()) && b in model.blocks
      requires var f := model.blocks[b].filp; f != null ==> f in model.sockets
      modifies `model, Region(), model.sockets.Keys`fields, loop, loop.Region()
      ensures Coherent() && loop.Valid() && loop.Region() == old(loop.Region()) && All() == Complete(old(All()), b, side)
    {
      hide Coherent, Loop.TaskLoop.Valid, ReadyIn, ReadyOut, Unref, Returned, Tasks;
      ghost var tasks := loop.Region();
      var gone := Reclaim(b, side);
      if gone {
        return;
      }
      var f := b.payload.filp;
      if f != null {
        if side == Send {
          ServeOut(f);
        } else {
          ServeIn(f);
        }
      }
    }

    lemma ReadsBlock(b: Block)
      requires Coherent() && b in model.blocks
      ensures b.payload == model.blocks[b]
    {
    }

    /** handle_overlapped */
    method HandleOverlapped(b: Block, side: Side)
      requires Valid() && Enabled(All(), CompleteEvent(b, side))
      modifies `model, Region(), model.sockets.Keys`fields, loop, loop.Region()
      ensures Valid() && loop.Region() == old(loop.Region())
      ensures Does(old(All()), CompleteEvent(b, side), All())
    {
      hide Coherent, Loop.TaskLoop.Valid, Sound, Complete, Returnable, Tasks;
      CompleteFacts(All(), b, side);
      NextSound(All(), CompleteEvent(b, side));
      HandleAny(b, side);
    }

    /** What is left of the batch makes the world into `goal`, asking for the waits `left`; the sets are what
        it may write. */
    ghost predicate CompletesTo(batch: seq<(Block, Side)>, goal: World, left: seq<int>,
                                sockets: set<Socket>, blocks: set<Block>, region: set<Task>)
      reads this, Region(), model.sockets.Keys`fields, loop, loop.Region()
    {
      && Valid() && Sound(All()) && Batchable(All(), batch) && Batch(All(), batch) == goal
      && Waits(All(), batch, this) == left
      && model.sockets.Keys == sockets && Region() <= blocks && loop.Region() == region
    }

    /** The timeout for GetQueuedCompletionStatus. */
    method WaitTime() returns (wait: int)
      requires loop.Valid()
      ensures wait == WaitOf(loop.model, this)
    {
      hide Loop.TaskLoop.Valid, LoopModel.Timeout;
      var timeout := loop.TimeoutFor(this);
      wait := if timeout != 0 then 15 else 0;
    }

    method HandleNext(b: Block, side: Side, ghost rest: seq<(Block, Side)>, ghost goal: World, ghost left: seq<int>,
                      ghost sockets: set<Socket>, ghost blocks: set<Block>, ghost region: set<Task>)
      requires CompletesTo([(b, side)] + rest, goal, left, sockets, blocks, region)
      modifies `model, blocks, sockets`fields, loop, region
      ensures left != [] && CompletesTo(rest, goal, left[1..], sockets, blocks, region)
    {
      hide Coherent, Loop.TaskLoop.Valid, Sound, Complete, Returnable, Tasks, WaitOf;
      assert ([(b, side)] + rest)[0] == (b, side) && ([(b, side)] + rest)[1..] == rest;
      ghost var w := All();
      FewerBlocks(w, b, side);
      FirstWait(w, [(b, side)] + rest);
      HandleOverlapped(b, side);
    }

    lemma FirstWait(w: World, batch: seq<(Block, Side)>)
      requires Sound(w) && Batchable(w, batch)
      ensures Waits(w, batch, this) != [] && Waits(w, batch, this)[0] == WaitOf(w.loop, this)
    {
      hide Sound, WaitOf, Batchable;
    }

    lemma WaitNow(batch: seq<(Block, Side)>, goal: World, left: seq<int>,
                  sockets: set<Socket>, blocks: set<Block>, region: set<Task>)
      requires CompletesTo(batch, goal, left, sockets, blocks, region)
      ensures loop.Valid() && left != [] && left[0] == WaitOf(loop.model, this)
      ensures batch == [] ==> left == [WaitOf(loop.model, this)]
    {
      hide Sound, Coherent, WaitOf, Loop.TaskLoop.Valid;
      FirstWait(All(), batch);
    }

    /** What a round may wait. */
    method AskWait(ghost batch: seq<(Block, Side)>, ghost goal: World, ghost left: seq<int>,
                   ghost sockets: set<Socket>, ghost blocks: set<Block>, ghost region: set<Task>) returns (wait: int)
      requires CompletesTo(batch, goal, left, sockets, blocks, region)
      ensures CompletesTo(batch, goal, left, sockets, blocks, region)
      ensures left != [] && wait == left[0] && (batch == [] ==> left == [wait])
    {
      hide CompletesTo, WaitOf, Loop.TaskLoop.Valid;
      ghost var links, fs, tasks := Region(), model.sockets.Keys, loop.Region();
      WaitNow(batch, goal, left, sockets, blocks, region);
      wait := WaitTime();
    }

    /** The loop of tx_completion_port_polling: every round asks how long it may wait, and the last one finds
        nothing. */
    method HandleAll(batch: seq<(Block, Side)>, ghost goal: World, ghost all: seq<int>,
                     ghost sockets: set<Socket>, ghost blocks: set<Block>, ghost region: set<Task>) returns (waits: seq<int>)
      requires CompletesTo(batch, goal, all, sockets, blocks, region)
      modifies `model, blocks, sockets`fields, loop, region
      ensures CompletesTo([], goal, all[|all| - 1..], sockets, blocks, region) && waits == all
    {
      hide CompletesTo;
      assert batch[0..] == batch && all[0..] == all;
      waits := [];
      for i := 0 to |batch|
        invariant |waits| == i <= |all| && waits == all[..i]
        invariant CompletesTo(batch[i..], goal, all[i..], sockets, blocks, region)
      {
        assert batch[i..] == [batch[i]] + batch[i + 1..];
        var wait := AskWait(batch[i..], goal, all[i..], sockets, blocks, region);
        waits := waits + [wait];
        HandleNext(batch[i].0, batch[i].1, batch[i + 1..], goal, all[i..], sockets, blocks, region);
        assert all[i..][1..] == all[i + 1..];
      }
      assert batch[|batch|..] == [];
      var wait := AskWait(batch[|batch|..], goal, all[|batch|..], sockets, blocks, region);
      waits := waits + [wait];
    }

    /** tx_completion_port_polling, for the operations the kernel gives back until none is left, and the
        waits it was asked for. */
    method Polling(batch: seq<(Block, Side)>) returns (waits: seq<int>)
      requires Valid() && Sound(All()) && Batchable(All(), batch)
      modifies `model, Region(), model.sockets.Keys`fields, loop, loop.Region()
      ensures Valid() && loop.Region() == old(loop.Region())
      ensures Polls(old(All()), batch, All())
      ensures Sound(old(All())) && Batchable(old(All()), batch) && waits == Waits(old(All()), batch, this)
    {
      hide Coherent, Loop.TaskLoop.Valid, Sound, Polls, LoopModel.PollActivate;
      ghost var w := Batch(All(), batch);
      PollsTo(All(), batch);
      ghost var sockets, blocks, region := model.sockets.Keys, Region(), loop.Region();
      ghost var all := Waits(All(), batch, this);
      waits := HandleAll(batch, w, all, sockets, blocks, region);
      Handled(w, all[|all| - 1..], sockets, blocks, region);
      Rejoin();
    }

    lemma Handled(goal: World, left: seq<int>, sockets: set<Socket>, blocks: set<Block>, region: set<Task>)
      requires CompletesTo([], goal, left, sockets, blocks, region)
      ensures Coherent() && loop.Valid() && All() == goal && poller == goal.port.poller && loop.Region() == region
    {
      hide Sound, Loop.TaskLoop.Valid;
    }

    method Rejoin()
      requires Coherent() && loop.Valid() && loop.model.taskq in loop.model.fam.lists && poller in loop.model.tasks
      modifies loop, loop.Region()
      ensures Coherent() && loop.Valid() && loop.Region() == old(loop.Region())
      ensures loop.model == LoopModel.PollActivate(old(loop.model), poller)
    {
      hide Coherent, Loop.TaskLoop.Valid;
      ghost var sockets, blocks := model.sockets.Keys, Region();
      loop.PollActive(poller);
    }
  }

  lemma MoreHold(sockets: map<Socket, SocketFields>, f: Socket, x: SocketFields)
    requires FieldsHold(sockets) && f.fields == x
    ensures FieldsHold(sockets[f := x])
  {
  }

  lemma FewerHold(blocks: map<Block, BlockFields>, b: Block)
    requires BlocksHold(blocks)
    ensures BlocksHold(blocks - {b})
  {
  }

  lemma UnlinkedKeys(f: Family<BlockFields>, b: Block)
    ensures Unlinked(f, b).lists.Keys == f.lists.Keys && Unlinked(f, b).at.Keys == f.at.Keys - {b}
  {
    hide Minus;
  }

  /** LIST_INIT */
  method EmptyList() returns (head: Block)
    ensures fresh(head)
    ensures var f := Family(map[head := []], map[]); WellFormed(f) && Linked(f, null)
  {
    head := new Link(BlockFields(null, 0, -1));
    head.next := null;
    assert Chain(head, [], false);
  }

  lemma FilterTasks(w: World, f: Socket, task: OptTask)
    requires Tasks(w) && f in w.port.sockets && (task != null ==> task in w.loop.tasks)
    ensures Tasks(SetFilterIn(w, f, task))
  {
  }

  lemma OpenListed(p: Port, f: Socket)
    requires Open?(p, f)
    ensures f in p.sockets
  {
  }

  lemma WaiterTasks(w: World, f: Socket)
    requires Tasks(w) && f in w.port.sockets
    ensures var x := w.port.sockets[f].flags;
            (x.filterIn != null ==> x.filterIn in w.loop.tasks) && (x.filterOut != null ==> x.filterOut in w.loop.tasks)
  {
  }

  lemma PostSendTasks(w: World, f: Socket)
    requires Tasks(w) && Open?(w.port, f)
    ensures f in w.port.sockets && Tasks(PostSend(w, f)) && Open?(PostSend(w, f).port, f)
  {
  }

  lemma AttachedFacts(w: World, f: Socket)
    requires Sound(w) && Held(w.port, f)
    ensures Tasks(w) && Open?(w.port, f)
  {
    hide Sound, Open?, Held;
    SoundBasics(w);
    HeldOpen(w, f);
  }

  lemma CloseDoes(w: World, f: Socket)
    requires Sound(w) && Enabled(w, CloseEvent(f))
    ensures f in w.port.sockets && (Live(w.port.sockets[f].flags) ==> Open?(w.port, f))
    ensures Does(w, CloseEvent(f), Close(w, f)) && Sound(Close(w, f))
  {
    hide Sound, Close;
    if Held(w.port, f) { AttachedFacts(w, f); }
    NextSound(w, CloseEvent(f));
  }

  lemma AcceptDoes(w: World, f: Socket)
    requires Sound(w) && Enabled(w, AcceptEvent(f))
    ensures Open?(w.port, f)
    ensures var r := CompletionModel.Accept(w, f); Does(w, AcceptEvent(f), r.0) && Sound(r.0) && Accepted(w, f) == r.1
  {
    hide Sound, Held, CompletionModel.Accept;
    AttachedFacts(w, f);
    NextSound(w, AcceptEvent(f));
  }

  lemma NextOpen(w: World, f: Socket, b: Block, listen: bool)
    requires Sound(w) && f !in w.port.sockets && Fresh(w.port, b) && w.port.head in w.port.fam.lists
    ensures var r := w.(port := Opened(w.port, f, b, listen)); Does(w, OpenEvent(f, b, listen), r) && Sound(r)
  {
    hide Sound, Opened, Fresh;
    NextSound(w, OpenEvent(f, b, listen));
  }

  lemma CompleteFacts(w: World, b: Block, side: Side)
    requires Sound(w) && Returnable(w.port, b, side)
    ensures Tasks(w) && b in w.port.blocks
    ensures var f := w.port.blocks[b].filp; f != null ==> f in w.port.sockets
  {
    CompleteReady(w, b, side);
  }

  lemma PushedKeys(f: Family<BlockFields>, h: Block, b: Block)
    requires h in f.lists
    ensures Pushed(f, h, b).at.Keys == f.at.Keys + {b}
  {
  }

  lemma FewerBlocks(w: World, b: Block, side: Side)
    requires Sound(w) && Enabled(w, CompleteEvent(b, side))
    ensures var r := Next(w, CompleteEvent(b, side)).port;
            && r.blocks.Keys <= w.port.blocks.Keys && r.sockets.Keys == w.port.sockets.Keys && r.head == w.port.head
  {
    hide Sound, Complete;
    CompleteFacts(w, b, side);
    CompletedKeys(w, b, side);
  }

  lemma CompletedKeys(w: World, b: Block, side: Side)
    requires Tasks(w) && b in w.port.blocks
    requires var f := w.port.blocks[b].filp; f != null ==> f in w.port.sockets
    ensures var r := Complete(w, b, side).port;
            && r.blocks.Keys <= w.port.blocks.Keys && r.sockets.Keys == w.port.sockets.Keys && r.head == w.port.head
  {
    hide LoopModel.Activated, Unlinked;
  }
}
