// The connection protocol of TcpServer across event loops, as a state machine whose
// steps are the ones one thread takes without another thread seeing an intermediate state.
module ServerProtocol {
  import opened Channels
  import opened ConnectionStates

  // A connection is named by its creation number: the identity of the TcpConnection object.
  type Conn = nat
  type Loop = nat

  // The loop of the server itself. Accepting and the connection map live here.
  const BASE: Loop := 0

  // registered: the poller of the loop holds the channel. muted: its events are all off.
  datatype Info = Info(fd: int, loop: Loop, state: ConnState, registered: bool, muted: bool)

  datatype Task =
    | ConnectComplete(conn: Conn)
    | RemoveConnection(conn: Conn)
    | DestroyConnection(conn: Conn)
    | ForceClose(conn: Conn)
    | SendInLoop(conn: Conn)
    | ShutdownInLoop(conn: Conn)
  {
    // Tasks that bind a plain `this` and so keep nothing alive.
    predicate Bare() {
      SendInLoop? || ShutdownInLoop?
    }
  }

  // active: reported by poll, not yet handled. current/todo: the event being handled.
  // ran ++ batch: the swapped-out task vector, split at the next task. queue: task_vec_.
  datatype LoopState = LoopState(
    active: seq<Conn>, current: seq<Conn>, todo: seq<Handler>,
    ran: seq<Task>, batch: seq<Task>, queue: seq<Task>)
  {
    function Pending(): seq<Task> {
      batch + queue
    }

    function Held(): seq<Task> {
      ran + Pending()
    }

    predicate Watches(c: Conn) {
      c in active || c in current
    }
  }

  // users: connections some user code owns. left, queued: every map entry ever erased and
  // every destroyConnection ever queued. collisions: map inserts that found the key taken.
  // wrongErasures: removals that erased an entry of another connection.
  datatype Server = Server(
    conns: seq<Info>, connections: map<int, Conn>, loops: map<Loop, LoopState>, users: set<Conn>,
    left: multiset<Conn>, queued: multiset<Conn>, collisions: nat, wrongErasures: nat)

  ghost predicate InMap(s: Server, c: Conn) {
    exists fd :: fd in s.connections && s.connections[fd] == c
  }

  // Some task in a loop's vectors, run or not, binds a shared pointer to c.
  ghost predicate HeldByTask(s: Server, c: Conn) {
    exists l, t :: l in s.loops && t in s.loops[l].Held() && t.conn == c && !t.Bare()
  }

  // The reference count of c is positive.
  ghost predicate Alive(s: Server, c: Conn) {
    InMap(s, c) || HeldByTask(s, c) || c in s.users
  }

  // Bodies of the source's functions -------------------------------------------------

  function Push(s: Server, l: Loop, t: Task): Server
    requires l in s.loops
  {
    s.(loops := s.loops[l := s.loops[l].(queue := s.loops[l].queue + [t])])
  }

  ghost predicate Known(s: Server, c: Conn) {
    c < |s.conns| && s.conns[c].loop in s.loops && BASE in s.loops
  }

  function SetConn(s: Server, c: Conn, i: Info): Server
    requires c < |s.conns|
  {
    s.(conns := s.conns[c := i])
  }

  function Connect(s: Server, c: Conn): Server
    requires c < |s.conns|
  {
    SetConn(s, c, s.conns[c].(state := Connected, registered := true, muted := false))
  }

  function RemoveConnectionInLoop(s: Server, c: Conn): Server
    requires Known(s, c)
  {
    var fd := s.conns[c].fd;
    if fd in s.connections then
      var victim := s.connections[fd];
      var erased := s.(connections := s.connections - {fd},
                       left := s.left + multiset{victim},
                       queued := s.queued + multiset{c},
                       wrongErasures := s.wrongErasures + if victim == c then 0 else 1);
      Push(erased, s.conns[c].loop, DestroyConnection(c))
    else
      s
  }

  // disableAll updates the poller, which registers a channel it does not know.
  function HandleClose(s: Server, c: Conn): Server
    requires Known(s, c)
  {
    var closed := SetConn(s, c, s.conns[c].(state := Disconnected, registered := true, muted := true));
    if s.conns[c].loop == BASE then RemoveConnectionInLoop(closed, c)
    else Push(closed, BASE, RemoveConnection(c))
  }

  function Destroy(s: Server, c: Conn): Server
    requires c < |s.conns|
  {
    var i := s.conns[c];
    SetConn(s, c, i.(state := if i.state == Connected then Disconnected else i.state, registered := false))
  }

  function Execute(s: Server, t: Task): Server
    requires Known(s, t.conn)
  {
    var i := s.conns[t.conn];
    match t
    case ConnectComplete(c) => Connect(s, c)
    case RemoveConnection(c) => RemoveConnectionInLoop(s, c)
    case DestroyConnection(c) => Destroy(s, c)
    case ForceClose(c) => if i.state == Disconnected then s else HandleClose(s, c)
    // A send that turns write interest on updates the poller.
    case SendInLoop(c) => if i.state == Disconnected then s else SetConn(s, c, i.(registered := true, muted := false))
    case ShutdownInLoop(_) => s
  }

  function NewConnection(s: Server, fd: int, l: Loop): Server
    requires l in s.loops
  {
    var c := |s.conns|;
    var taken := fd in s.connections;
    var added := s.(conns := s.conns + [Info(fd, l, Connecting, false, false)],
                    connections := if taken then s.connections else s.connections[fd := c],
                    collisions := s.collisions + if taken then 1 else 0);
    if l == BASE then Connect(added, c) else Push(added, l, ConnectComplete(c))
  }

  // Steps ------------------------------------------------------------------------------

  // inLoop: the calling thread is the one of the connection's loop, so the task runs at once.
  datatype Action =
    | Accept(fd: int, loop: Loop)
    | Poll(loop: Loop, ready: seq<Conn>)
    | BeginEvent(loop: Loop, revents: bv16)
    | RunHandler(loop: Loop, eof: bool)
    | EndEvent(loop: Loop)
    | SwapTasks(loop: Loop)
    | RunTask(loop: Loop)
    | EndTasks(loop: Loop)
    | UserSend(conn: Conn, inLoop: bool)
    | UserShutdown(conn: Conn, inLoop: bool)
    | UserForceClose(conn: Conn, inLoop: bool)
    | UserAcquire(conn: Conn)
    | UserRelease(conn: Conn)

  // User code holds a connection only after its first callback, and only while it lives.
  ghost predicate Exposed(s: Server, c: Conn) {
    Known(s, c) && Alive(s, c) && s.conns[c].state != Connecting
  }

  predicate Distinct(cs: seq<Conn>) {
    forall i, j :: 0 <= i < j < |cs| ==> cs[i] != cs[j]
  }

  ghost predicate Enabled(s: Server, a: Action) {
    match a
    // The kernel hands out a descriptor no living connection has open.
    case Accept(fd, l) =>
      l in s.loops && BASE in s.loops && fd >= 0 &&
      forall c :: 0 <= c < |s.conns| && Alive(s, c) ==> s.conns[c].fd != fd
    // The kernel reports registered descriptors that are not muted.
    case Poll(l, ready) =>
      l in s.loops && s.loops[l].active == [] && s.loops[l].current == [] &&
      s.loops[l].ran == [] && s.loops[l].batch == [] && Distinct(ready) &&
      forall c :: c in ready ==> c < |s.conns| && s.conns[c].loop == l && s.conns[c].registered && !s.conns[c].muted
    case BeginEvent(l, _) => l in s.loops && s.loops[l].active != [] && s.loops[l].current == []
    case RunHandler(l, _) =>
      l in s.loops && |s.loops[l].current| == 1 && s.loops[l].todo != [] && Known(s, s.loops[l].current[0])
    case EndEvent(l) => l in s.loops && |s.loops[l].current| == 1 && s.loops[l].todo == []
    case SwapTasks(l) =>
      l in s.loops && s.loops[l].active == [] && s.loops[l].current == [] &&
      s.loops[l].ran == [] && s.loops[l].batch == []
    case RunTask(l) =>
      l in s.loops && s.loops[l].active == [] && s.loops[l].current == [] &&
      s.loops[l].batch != [] && Known(s, s.loops[l].batch[0].conn)
    case EndTasks(l) => l in s.loops && s.loops[l].batch == []
    case UserSend(c, _) => Exposed(s, c)
    case UserShutdown(c, _) => Exposed(s, c)
    case UserForceClose(c, _) => Exposed(s, c)
    case UserAcquire(c) => Exposed(s, c)
    case UserRelease(c) => c in s.users
  }

  function SetLoop(s: Server, l: Loop, ls: LoopState): Server {
    s.(loops := s.loops[l := ls])
  }

  ghost function Next(s: Server, a: Action): Server
    requires Enabled(s, a)
  {
    match a
    case Accept(fd, l) => NewConnection(s, fd, l)
    case Poll(l, ready) => SetLoop(s, l, s.loops[l].(active := ready))
    case BeginEvent(l, revents) =>
      var ls := s.loops[l];
      SetLoop(s, l, ls.(active := ls.active[1..], current := [ls.active[0]], todo := Dispatch(revents)))
    case RunHandler(l, eof) =>
      var ls := s.loops[l];
      var c, h := ls.current[0], ls.todo[0];
      var s1 := SetLoop(s, l, ls.(todo := ls.todo[1..]));
      if h == OnClose || (h == OnRead && eof) then HandleClose(s1, c) else s1
    case EndEvent(l) => SetLoop(s, l, s.loops[l].(current := []))
    case SwapTasks(l) => SetLoop(s, l, s.loops[l].(batch := s.loops[l].queue, queue := []))
    case RunTask(l) =>
      var ls := s.loops[l];
      Execute(SetLoop(s, l, ls.(ran := ls.ran + [ls.batch[0]], batch := ls.batch[1..])), ls.batch[0])
    case EndTasks(l) => SetLoop(s, l, s.loops[l].(ran := []))
    case UserSend(c, inLoop) =>
      if s.conns[c].state != Connected then s
      else if inLoop then Execute(s, SendInLoop(c))
      else Push(s, s.conns[c].loop, SendInLoop(c))
    case UserShutdown(c, inLoop) =>
      if s.conns[c].state == Disconnected then s
      else
        var s1 := SetConn(s, c, s.conns[c].(state := Disconnecting));
        if inLoop then s1 else Push(s1, s.conns[c].loop, ShutdownInLoop(c))
    case UserForceClose(c, inLoop) =>
      if s.conns[c].state == Disconnected then s
      else
        var s1 := SetConn(s, c, s.conns[c].(state := Disconnecting));
        if inLoop then HandleClose(s1, c) else Push(s1, s.conns[c].loop, ForceClose(c))
    case UserAcquire(c) => s.(users := s.users + {c})
    case UserRelease(c) => s.(users := s.users - {c})
  }

  const IDLE := LoopState([], [], [], [], [], [])

  // A server that has just started, with any set of loops.
  predicate Initial(s: Server) {
    && s.conns == [] && s.connections == map[] && s.users == {}
    && BASE in s.loops && (forall l :: l in s.loops ==> s.loops[l] == IDLE)
    && s.left == multiset{} && s.queued == multiset{} && s.collisions == 0 && s.wrongErasures == 0
  }

  ghost predicate IsRun(s: Server, run: seq<Action>)
    decreases |run|
  {
    run == [] || (Enabled(s, run[0]) && IsRun(Next(s, run[0]), run[1..]))
  }

  ghost function After(s: Server, run: seq<Action>): Server
    requires IsRun(s, run)
    decreases |run|
  {
    if run == [] then s else After(Next(s, run[0]), run[1..])
  }
}
