// bounce::TcpServer as an object whose methods do what the functions of ServerProtocol say.
module TcpServerObject {
  import opened ConnectionStates
  import opened Options
  import opened ServerProtocol
  import opened ServerSafety

  class TcpServer {
    var connectionMap: map<int, Conn>
    // The connections and loops the server works on.
    var conns: seq<Info>
    var loops: map<Loop, LoopState>
    ghost var users: set<Conn>
    ghost var left: multiset<Conn>
    ghost var queued: multiset<Conn>
    ghost var collisions: nat
    ghost var wrongErasures: nat

    ghost function Model(): Server
      reads this
    {
      Server(conns, connectionMap, loops, users, left, queued, collisions, wrongErasures)
    }

    constructor (ioLoops: set<Loop>)
      ensures Initial(Model()) && Inv(Model()) && loops.Keys == ioLoops + {BASE}
    {
      connectionMap, conns := map[], [];
      loops := map l | l in ioLoops + {BASE} :: IDLE;
      users, left, queued, collisions, wrongErasures := {}, multiset{}, multiset{}, 0, 0;
      new;
      InitialInv(Model());
    }

    method QueueTaskInThread(l: Loop, t: Task)
      requires l in loops
      modifies this`loops
      ensures Model() == Push(old(Model()), l, t)
    {
      loops := loops[l := loops[l].(queue := loops[l].queue + [t])];
    }

    method ConnectComplete(c: Conn)
      requires c < |conns|
      modifies this`conns
      ensures Model() == Connect(old(Model()), c)
    {
      conns := conns[c := conns[c].(state := Connected)];
      conns := conns[c := conns[c].(registered := true, muted := false)];
    }

    /** Runs in the base loop. A server without threads, or a pool without a loop, uses the base loop. */
    method NewConnection(fd: int, picked: Option<Loop>)
      requires BASE in loops && (picked.Some? ==> picked.value in loops)
      modifies this
      ensures Model() == ServerProtocol.NewConnection(old(Model()), fd, if picked.Some? then picked.value else BASE)
      ensures old(Inv(Model())) && old(Enabled(Model(), Accept(fd, if picked.Some? then picked.value else BASE))) ==>
        Inv(Model())
    {
      var connLoop := if picked.Some? then picked.value else BASE;
      ghost var s := Model();
      var conn := |conns|;
      conns := conns + [Info(fd, connLoop, Connecting, false, false)];
      if fd in connectionMap {
        collisions := collisions + 1;
      } else {
        connectionMap := connectionMap[fd := conn];
      }
      if connLoop == BASE {
        ConnectComplete(conn);
      } else {
        QueueTaskInThread(connLoop, Task.ConnectComplete(conn));
      }
      if Inv(s) && Enabled(s, Accept(fd, connLoop)) { AcceptKeeps(s, Accept(fd, connLoop)); }
    }

    /** Runs in the connection's loop, and hands over to the base loop. */
    method RemoveConnection(c: Conn)
      requires Known(Model(), c)
      modifies this
      ensures Model() == if old(conns)[c].loop == BASE then ServerProtocol.RemoveConnectionInLoop(old(Model()), c)
                         else Push(old(Model()), BASE, Task.RemoveConnection(c))
      ensures conns == old(conns)
      ensures old(InvBut(Model(), c)) && old(Closing(Model(), c)) ==> Inv(Model())
    {
      if conns[c].loop == BASE {
        RemoveConnectionInLoop(c);
      } else {
        ghost var s := Model();
        QueueTaskInThread(BASE, Task.RemoveConnection(c));
        if InvBut(s, c) && Closing(s, c) { QueueRemoval(s, c); }
      }
    }

    /** Runs in the base loop, and hands over to the connection's loop if the map has the descriptor. */
    method RemoveConnectionInLoop(c: Conn)
      requires Known(Model(), c)
      modifies this
      ensures Model() == ServerProtocol.RemoveConnectionInLoop(old(Model()), c)
      ensures conns == old(conns)
      ensures loops ==
        if conns[c].fd in old(connectionMap) then Push(old(Model()), conns[c].loop, DestroyConnection(c)).loops
        else old(loops)
      ensures old(InvBut(Model(), c)) && old(Closing(Model(), c)) ==> Inv(Model())
    {
      ghost var s := Model();
      var fd := conns[c].fd;
      if fd in connectionMap {
        left := left + multiset{connectionMap[fd]};
        queued := queued + multiset{c};
        wrongErasures := wrongErasures + if connectionMap[fd] == c then 0 else 1;
        connectionMap := connectionMap - {fd};
        QueueTaskInThread(conns[c].loop, DestroyConnection(c));
      }
      if InvBut(s, c) && Closing(s, c) { RemoveNow(s, c); }
    }

    // disableAll, which updates the poller
    method Mute(c: Conn)
      requires c < |conns|
      modifies this`conns
      ensures Model() == SetConn(old(Model()), c,
                old(conns)[c].(state := Disconnected, registered := true, muted := true))
    {
      conns := conns[c := conns[c].(state := Disconnected)];
      conns := conns[c := conns[c].(registered := true, muted := true)];
    }

    method Close(c: Conn)
      requires Known(Model(), c)
      modifies this
      ensures Model() == ServerProtocol.HandleClose(old(Model()), c)
    {
      Mute(c);
      RemoveConnection(c);
    }

    /** TcpConnection::handleClose: the channel is muted, and the server is told. */
    method HandleClose(c: Conn)
      requires Known(Model(), c)
      modifies this
      ensures Model() == ServerProtocol.HandleClose(old(Model()), c)
      ensures old(Inv(Model())) && old(conns)[c].registered ==> Inv(Model())
    {
      ghost var s := Model();
      Close(c);
      if Inv(s) && s.conns[c].registered { CloseKeeps(s, c); }
    }

    /** TcpConnection::destroyConnection: the last that is done to a connection. */
    method DestroyInLoop(c: Conn)
      requires c < |conns|
      modifies this`conns
      ensures Model() == Destroy(old(Model()), c)
    {
      if conns[c].state == Connected {
        conns := conns[c := conns[c].(state := Disconnected)];
      }
      conns := conns[c := conns[c].(registered := false)];
    }

    // sendInLoop, which updates the channel of a connection that is not closed.
    method SendInLoop(c: Conn)
      requires Known(Model(), c)
      modifies this`conns
      ensures Model() == Execute(old(Model()), Task.SendInLoop(c))
    {
      if conns[c].state != Disconnected {
        conns := conns[c := conns[c].(registered := true, muted := false)];
      }
    }

    // A task is called.
    method Call(t: Task)
      requires Known(Model(), t.conn)
      modifies this
      ensures Model() == Execute(old(Model()), t)
    {
      match t
      case ConnectComplete(c) => ConnectComplete(c);
      case RemoveConnection(c) => RemoveConnectionInLoop(c);
      case DestroyConnection(c) => DestroyInLoop(c);
      case ForceClose(c) => if conns[c].state != Disconnected { HandleClose(c); }
      case SendInLoop(c) => SendInLoop(c);
      case ShutdownInLoop(_) =>
    }

    /** The next task of a loop's batch: whatever it is, the invariant of the protocol is kept. */
    method RunTask(l: Loop)
      requires Inv(Model()) && Enabled(Model(), Action.RunTask(l))
      modifies this
      ensures Model() == Next(old(Model()), Action.RunTask(l)) && Inv(Model())
    {
      RunTaskKeeps(Model(), Action.RunTask(l));
      var ls := loops[l];
      var t := ls.batch[0];
      loops := loops[l := ls.(ran := ls.ran + [t], batch := ls.batch[1..])];
      Call(t);
    }
  }
}
