/** tx_completion_port.cpp, under the generic calls of tx_aiocb.cpp, as a state machine on values: a
    block shared between a descriptor and the operations the kernel has outstanding on it. */
module CompletionModel {
  import opened IntrusiveList
  import LoopModel
  import opened ReadinessModel

  /** tx_overlapped_t */
  datatype BlockFields = BlockFields(filp: Socket?, refcnt: int, newfd: int)

  type Block = Link<BlockFields>
  type OptBlock = Link?<BlockFields>

  /** A tx_aiocb on a completion port. */
  datatype SocketFields = SocketFields(flags: Filp, listen: bool, privp: OptBlock)

  class Socket {
    var fields: SocketFields

    constructor (fields: SocketFields)
      ensures this.fields == fields
    {
      this.fields := fields;
    }
  }

  /** The operations the kernel has outstanding on a block: a receive or accept, a send or connect. */
  datatype Pending = Pending(recv: bool, send: bool)

  const NOTHING := Pending(false, false)

  datatype Side = Recv | Send

  datatype Port = Port(
    poller: Task,
    head: Block,                               // port_list
    fam: Family<BlockFields>,
    blocks: map<Block, BlockFields>,           // allocated and not yet deleted
    sockets: map<Socket, SocketFields>,
    kernel: map<Block, Pending>,               // environment
    freed: seq<Block>)                         // history of delete

  datatype World = World(loop: LoopState, port: Port)

  function Outstanding(p: Port, b: Block): Pending {
    if b in p.kernel then p.kernel[b] else NOTHING
  }

  function SetSocket(p: Port, f: Socket, x: SocketFields): Port { p.(sockets := p.sockets[f := x]) }

  function SetFlags(p: Port, f: Socket, x: Filp): Port
    requires f in p.sockets
  {
    SetSocket(p, f, p.sockets[f].(flags := x))
  }

  /** An operation is handed to the kernel: it holds a reference to the block. */
  function Posted(p: Port, b: Block, side: Side): Port
    requires b in p.blocks
  {
    var k := Outstanding(p, b);
    p.(kernel := p.kernel[b := if side == Recv then k.(recv := true) else k.(send := true)],
       blocks := p.blocks[b := p.blocks[b].(refcnt := p.blocks[b].refcnt + 1)])
  }

  /** A reference is dropped; with the last one the block is unlinked and deleted. */
  function Unref(p: Port, b: Block): Port
    requires b in p.blocks
  {
    if p.blocks[b].refcnt - 1 == 0 then
      p.(fam := Unlinked(p.fam, b), blocks := p.blocks - {b}, freed := p.freed + [b])
    else p.(blocks := p.blocks[b := p.blocks[b].(refcnt := p.blocks[b].refcnt - 1)])
  }

  ghost predicate Tasks(w: World) {
    && w.loop.taskq in w.loop.fam.lists && w.port.poller in w.loop.tasks
    && forall f :: f in w.port.sockets ==>
         && (w.port.sockets[f].flags.filterIn != null ==> w.port.sockets[f].flags.filterIn in w.loop.tasks)
         && (w.port.sockets[f].flags.filterOut != null ==> w.port.sockets[f].flags.filterOut in w.loop.tasks)
  }

  // ---------------------------------------------------------------- calls

  function Opened(p: Port, f: Socket, b: Block, listen: bool): Port
    requires p.head in p.fam.lists
  {
    SetSocket(p, f, SocketFields(NEW_FILP.(attached := true), listen, b)).(
      fam := Pushed(p.fam, p.head, b), blocks := p.blocks[b := BlockFields(f, 1, -1)])
  }

  /** tx_aiocb_init or tx_listen_init, with a new block b. */
  function Open(w: World, f: Socket, b: Block, listen: bool): World
    requires w.port.head in w.port.fam.lists
  {
    w.(port := Opened(w.port, f, b, listen))
  }

  /** The input waiter is told at once that waiting failed or is over. */
  ghost function ReadyIn(w: World, f: Socket): World
    requires Tasks(w) && f in w.port.sockets
  {
    var x := w.port.sockets[f].flags;
    World(LoopModel.Activated(w.loop, x.filterIn, f), SetFlags(w.port, f, x.(pollIn := false, readable := true, filterIn := null)))
  }

  ghost function ReadyOut(w: World, f: Socket): World
    requires Tasks(w) && f in w.port.sockets
  {
    var x := w.port.sockets[f].flags;
    World(LoopModel.Activated(w.loop, x.filterOut, f), SetFlags(w.port, f, x.(pollOut := false, writable := true, filterOut := null)))
  }

  /** A socket whose block is known. */
  ghost predicate Open?(p: Port, f: Socket) {
    f in p.sockets && Live(p.sockets[f].flags) && p.sockets[f].privp != null && p.sockets[f].privp in p.blocks
  }

  /** AcceptEx with the socket newfd. */
  function PostAccept(w: World, f: Socket, newfd: int): World
    requires Open?(w.port, f)
  {
    var s, b := w.port.sockets[f], w.port.sockets[f].privp;
    var p := Posted(w.port, b, Recv);
    w.(port := SetFlags(p.(blocks := p.blocks[b := p.blocks[b].(newfd := newfd)]), f, s.flags.(pollIn := true)))
  }

  /** WSARecv of no bytes. */
  function PostRecv(w: World, f: Socket): World
    requires Open?(w.port, f)
  {
    w.(port := SetFlags(Posted(w.port, w.port.sockets[f].privp, Recv), f, w.port.sockets[f].flags.(pollIn := true)))
  }

  /** WSASend or ConnectEx. */
  function PostSend(w: World, f: Socket): World
    requires Open?(w.port, f)
  {
    w.(port := SetFlags(Posted(w.port, w.port.sockets[f].privp, Send), f,
                        w.port.sockets[f].flags.(writable := false, pollOut := true)))
  }

  /** tx_completion_port_pollin; the kernel takes the receive or does not. A listener whose AcceptEx is
      not taken is left as it is, its waiter included; only the new socket is closed. */
  ghost function PostIn(w: World, f: Socket, newfd: int, taken: bool): World
    requires Tasks(w) && Open?(w.port, f)
  {
    var s := w.port.sockets[f];
    if s.flags.pollIn then w
    else if s.listen then if taken then PostAccept(w, f, newfd) else w
    else if taken then PostRecv(w, f)
    else ReadyIn(w, f)
  }

  function SetFilterIn(w: World, f: Socket, task: OptTask): World
    requires f in w.port.sockets
  {
    w.(port := SetFlags(w.port, f, w.port.sockets[f].flags.(filterIn := task)))
  }

  function SetFilterOut(w: World, f: Socket, task: OptTask): World
    requires f in w.port.sockets
  {
    w.(port := SetFlags(w.port, f, w.port.sockets[f].flags.(filterOut := task)))
  }

  /** generic_active_in */
  ghost function WaitIn(w: World, f: Socket, task: OptTask, newfd: int, taken: bool): World
    requires Tasks(w) && Open?(w.port, f) && (task != null ==> task in w.loop.tasks)
  {
    var x := w.port.sockets[f].flags;
    if x.readable then w.(loop := LoopModel.Activated(w.loop, task, f))
    else
      var u := SetFilterIn(w, f, task);
      if x.pollIn then u else PostIn(u, f, newfd, taken)
  }

  /** generic_active_out; pollout does nothing on this port. */
  ghost function WaitOut(w: World, f: Socket, task: OptTask): World
    requires Tasks(w) && Open?(w.port, f) && (task != null ==> task in w.loop.tasks)
  {
    var x := w.port.sockets[f].flags;
    if x.writable then w.(loop := LoopModel.Activated(w.loop, task, f))
    else SetFilterOut(w, f, task)
  }

  /** What the kernel makes of a send: some bytes sent at once, the operation taken, or refused. */
  datatype Sending = Sent(n: int) | Taken | Failed

  /** tx_completion_port_sendout */
  ghost function SendOut(w: World, f: Socket, answer: Sending): World
    requires Tasks(w) && Open?(w.port, f)
  {
    var s := w.port.sockets[f];
    if s.flags.pollOut then w
    else match answer
      case Sent(_) => w
      case Taken => PostSend(w, f)
      case Failed => ReadyOut(w, f)
  }

  /** tx_aiocb_connect: tx_completion_port_connect, then generic_active_out. */
  ghost function ConnectOut(w: World, f: Socket, task: OptTask, taken: bool): World
    requires Tasks(w) && Open?(w.port, f) && (task != null ==> task in w.loop.tasks)
  {
    WaitOut(if !w.port.sockets[f].flags.pollOut && taken then PostSend(w, f) else w, f, task)
  }

  /** tx_completion_port_accept: the accepted socket is handed out, once. */
  function Accept(w: World, f: Socket): (r: (World, int))
    requires Open?(w.port, f)
  {
    var s, b := w.port.sockets[f], w.port.sockets[f].privp;
    if s.listen && s.flags.readable then
      (w.(port := SetFlags(w.port, f, s.flags.(readable := false)).(
                    blocks := w.port.blocks[b := w.port.blocks[b].(newfd := -1)])),
       w.port.blocks[b].newfd)
    else (w, -1)
  }

  function CancelWait(w: World, f: Socket, side: Side, verify: object?): World
    requires f in w.port.sockets
  {
    var x := w.port.sockets[f].flags;
    if side == Recv then if verify == x.filterIn then SetFilterIn(w, f, null) else w
    else if verify == x.filterOut then SetFilterOut(w, f, null) else w
  }

  /** tx_aincb_update after recv said would-block. */
  function DrainedIn(w: World, f: Socket): World
    requires f in w.port.sockets
  {
    w.(port := SetFlags(w.port, f, w.port.sockets[f].flags.(readable := false)))
  }

  function Closed(p: Port, f: Socket): Port
    requires Open?(p, f)
  {
    var s, b := p.sockets[f], p.sockets[f].privp;
    var q := SetSocket(p, f, s.(flags := s.flags.(detached := true), privp := null));
    Unref(q.(blocks := q.blocks[b := q.blocks[b].(filp := null)]), b)
  }

  /** tx_completion_port_detach; a detached descriptor is left alone. */
  function Close(w: World, f: Socket): World
    requires f in w.port.sockets && (Live(w.port.sockets[f].flags) ==> Open?(w.port, f))
  {
    if Live(w.port.sockets[f].flags) then w.(port := Closed(w.port, f)) else w
  }

  // ---------------------------------------------------------------- completions

  /** The kernel gives an operation back. */
  function Returned(p: Port, b: Block, side: Side): (r: Port)
    ensures r.blocks == p.blocks && r.sockets == p.sockets
  {
    var k := Outstanding(p, b);
    p.(kernel := p.kernel[b := if side == Recv then k.(recv := false) else k.(send := false)])
  }

  /** handle_overlapped */
  ghost function Complete(w: World, b: Block, side: Side): World
    requires Tasks(w) && b in w.port.blocks
    requires var f := w.port.blocks[b].filp; f != null ==> f in w.port.sockets
  {
    var p := Unref(Returned(w.port, b, side), b);
    var u := w.(port := p);
    if b !in p.blocks || p.blocks[b].filp == null then u
    else if side == Send then ReadyOut(u, p.blocks[b].filp) else ReadyIn(u, p.blocks[b].filp)
  }
}
