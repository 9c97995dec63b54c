// What whole runs of the connection protocol amount to, told from the actions alone: the state of every
// connection, the tasks of every loop, and the callbacks of every event.
module ServerRuns {
  import opened Channels
  import opened ConnectionStates
  import opened Sequences
  import opened ServerProtocol
  import opened ServerSafety

  // handleClose is called for c: by a hang-up, an end of file, a force-close that runs or one in the loop.
  ghost predicate Closes(s: Server, a: Action, c: Conn)
    requires Enabled(s, a)
  {
    match a
    case RunHandler(l, eof) =>
      s.loops[l].current[0] == c && (s.loops[l].todo[0] == OnClose || (s.loops[l].todo[0] == OnRead && eof))
    case RunTask(l) => s.loops[l].batch[0] == ForceClose(c) && s.conns[c].state != Disconnected
    case UserForceClose(d, inLoop) => d == c && inLoop && s.conns[c].state != Disconnected
    case _ => false
  }

  // The user asks for the end of c.
  predicate AsksEnd(a: Action, c: Conn) {
    (a.UserShutdown? || a.UserForceClose?) && a.conn == c
  }

  ghost predicate Completes(s: Server, a: Action, c: Conn)
    requires Enabled(s, a)
  {
    a.RunTask? && s.loops[a.loop].batch[0] == ConnectComplete(c)
  }

  // State ------------------------------------------------------------------------------------------------

  // What one action makes of the state of c.
  ghost function StateAfter(s: Server, a: Action, c: Conn): ConnState
    requires Enabled(s, a) && c < |s.conns|
  {
    var state := s.conns[c].state;
    if state == Disconnected || Closes(s, a, c) then Disconnected
    else if state == Disconnecting || AsksEnd(a, c) then Disconnecting
    else if state == Connected || Completes(s, a, c) then Connected
    else Connecting
  }

  // r holds c as s does, but for what the state says.
  ghost predicate SameConn(s: Server, r: Server, c: Conn) {
    c < |s.conns| <= |r.conns| && r.conns[c].fd == s.conns[c].fd && r.conns[c].loop == s.conns[c].loop
  }

  lemma CloseConn(s: Server, x: Conn, c: Conn)
    requires Known(s, x) && c < |s.conns|
    ensures SameConn(s, HandleClose(s, x), c) && |HandleClose(s, x).conns| == |s.conns|
    ensures HandleClose(s, x).conns[c].state == if c == x then Disconnected else s.conns[c].state
  {
  }

  // A task that runs finds its connection where the stages have it.
  lemma TaskFinds(s: Server, l: Loop, c: Conn)
    requires Inv(s) && Enabled(s, RunTask(l)) && s.loops[l].batch[0].conn == c
    ensures c < |s.conns|
    ensures s.loops[l].batch[0] == ConnectComplete(c) ==> s.conns[c].state == Connecting
    ensures s.loops[l].batch[0] == DestroyConnection(c) ==> s.conns[c].state == Disconnected
  {
    var t := s.loops[l].batch[0];
    PopOwn(s, l);
    Ready(s, l);
    assert ConnInv(s, c);
    assert t in s.loops[l].Pending();
    assert t in s.loops[l].Held();
    assert WellPlaced(s, l, t);
  }

  // c is as one action leaves it.
  ghost predicate StateStep(s: Server, a: Action, c: Conn)
    requires Enabled(s, a) && c < |s.conns|
  {
    SameConn(s, Next(s, a), c) && Next(s, a).conns[c].state == StateAfter(s, a, c)
  }

  // Running a task, in terms of the connections alone.
  lemma ExecuteConn(s: Server, t: Task, c: Conn)
    requires Known(s, t.conn) && c < |s.conns|
    ensures var r, i := Execute(s, t), s.conns[c];
      && SameConn(s, r, c)
      && r.conns[c].state ==
         if t == ForceClose(c) then Disconnected
         else if t == ConnectComplete(c) then Connected
         else if t == DestroyConnection(c) && i.state == Connected then Disconnected
         else i.state
  {
    if t.ForceClose? && s.conns[t.conn].state != Disconnected { CloseConn(s, t.conn, c); }
  }

  lemma TaskNext(s: Server, a: Action)
    requires Enabled(s, a) && a.RunTask?
    ensures var t, s1 := s.loops[a.loop].batch[0], Popped(s, a.loop);
      Known(s1, t.conn) && s1.conns == s.conns && Next(s, a) == Execute(s1, t)
  {
  }

  lemma TaskState(s: Server, a: Action, c: Conn)
    requires Inv(s) && Enabled(s, a) && a.RunTask? && c < |s.conns|
    ensures StateStep(s, a, c)
  {
    var t := s.loops[a.loop].batch[0];
    TaskFinds(s, a.loop, t.conn);
    TaskNext(s, a);
    ExecuteConn(Popped(s, a.loop), t, c);
  }

  lemma HandlerState(s: Server, a: Action, c: Conn)
    requires Enabled(s, a) && a.RunHandler? && c < |s.conns|
    ensures StateStep(s, a, c)
  {
    var ls := s.loops[a.loop];
    CloseConn(SetLoop(s, a.loop, ls.(todo := ls.todo[1..])), ls.current[0], c);
  }

  lemma ForceCloseState(s: Server, a: Action, c: Conn)
    requires Enabled(s, a) && a.UserForceClose? && c < |s.conns|
    ensures StateStep(s, a, c)
  {
    if s.conns[a.conn].state != Disconnected {
      CloseConn(SetConn(s, a.conn, s.conns[a.conn].(state := Disconnecting)), a.conn, c);
    }
  }

  lemma UserState(s: Server, a: Action, c: Conn)
    requires Enabled(s, a) && (a.UserSend? || a.UserShutdown?) && c < |s.conns|
    ensures StateStep(s, a, c)
  {
  }

  lemma AcceptState(s: Server, a: Action, c: Conn)
    requires Enabled(s, a) && a.Accept? && c < |s.conns|
    ensures StateStep(s, a, c)
  {
  }

  predicate NoConn(a: Action) {
    a.Poll? || a.BeginEvent? || a.EndEvent? || a.SwapTasks? || a.EndTasks? || a.UserAcquire? || a.UserRelease?
  }

  lemma OtherState(s: Server, a: Action, c: Conn)
    requires Enabled(s, a) && NoConn(a) && c < |s.conns|
    ensures StateStep(s, a, c)
  {
    assert Next(s, a).conns == s.conns;
  }

  lemma StepState(s: Server, a: Action, c: Conn)
    requires Inv(s) && Enabled(s, a) && c < |s.conns|
    ensures StateStep(s, a, c)
  {
    if a.RunTask? { TaskState(s, a, c); }
    else if a.RunHandler? { HandlerState(s, a, c); }
    else if a.UserForceClose? { ForceCloseState(s, a, c); }
    else if a.Accept? { AcceptState(s, a, c); }
    else if NoConn(a) { OtherState(s, a, c); }
    else { UserState(s, a, c); }
  }

  ghost predicate EverCloses(s: Server, run: seq<Action>, c: Conn)
    requires IsRun(s, run)
    decreases |run|
  {
    run != [] && (Closes(s, run[0], c) || EverCloses(Next(s, run[0]), run[1..], c))
  }

  predicate EndAsked(run: seq<Action>, c: Conn) {
    run != [] && (AsksEnd(run[0], c) || EndAsked(run[1..], c))
  }

  ghost predicate EverCompletes(s: Server, run: seq<Action>, c: Conn)
    requires IsRun(s, run)
    decreases |run|
  {
    run != [] && (Completes(s, run[0], c) || EverCompletes(Next(s, run[0]), run[1..], c))
  }

  lemma {:induction false} RunState(s: Server, run: seq<Action>, c: Conn)
    requires Inv(s) && IsRun(s, run) && c < |s.conns|
    ensures SameConn(s, After(s, run), c)
    ensures var state := s.conns[c].state;
      After(s, run).conns[c].state ==
      if state == Disconnected || EverCloses(s, run, c) then Disconnected
      else if state == Disconnecting || EndAsked(run, c) then Disconnecting
      else if state == Connected || EverCompletes(s, run, c) then Connected
      else Connecting
    decreases |run|
  {
    if run != [] {
      StepKeeps(s, run[0]);
      StepState(s, run[0], c);
      RunState(Next(s, run[0]), run[1..], c);
    }
  }

  /** What a new connection starts with: its descriptor, its loop and its entry in the map. In the base loop it is
      completed at once, in another by a task. */
  lemma AcceptAdds(s: Server, run: seq<Action>, fd: int, l: Loop)
    requires Initial(s) && IsRun(s, run) && Enabled(After(s, run), Accept(fd, l))
    ensures var m, r := After(s, run), Next(After(s, run), Accept(fd, l));
      && fd !in m.connections && r.connections == m.connections[fd := |m.conns|]
      && r.conns == m.conns + [Info(fd, l, if l == BASE then Connected else Connecting, l == BASE, false)]
  {
    InitialInv(s);
    RunKeeps(s, run);
    AddedBase(After(s, run), fd, l);
  }

  /** From its acceptance on, over every interleaving: a connection is closed exactly if handleClose has been
      called for it, otherwise disconnecting exactly if a user has asked for its end, and otherwise connected
      exactly if it was accepted in the base loop or its task has run. */
  lemma StateIs(s: Server, run: seq<Action>, fd: int, l: Loop, more: seq<Action>)
    requires Initial(s) && IsRun(s, run) && Enabled(After(s, run), Accept(fd, l))
    requires IsRun(Next(After(s, run), Accept(fd, l)), more)
    ensures var c, m := |After(s, run).conns|, Next(After(s, run), Accept(fd, l));
      c < |After(m, more).conns| && After(m, more).conns[c].state ==
      if EverCloses(m, more, c) then Disconnected
      else if EndAsked(more, c) then Disconnecting
      else if l == BASE || EverCompletes(m, more, c) then Connected
      else Connecting
  {
    AcceptAdds(s, run, fd, l);
    InitialInv(s);
    RunKeeps(s, run);
    StepKeeps(After(s, run), Accept(fd, l));
    RunState(Next(After(s, run), Accept(fd, l)), more, |After(s, run).conns|);
  }

  // Tasks ------------------------------------------------------------------------------------------------

  // The tasks that closing c asks of loop l: in the base loop its map entry goes at once.
  ghost function CloseAsks(s: Server, c: Conn, l: Loop): seq<Task>
    requires Known(s, c)
  {
    if l != BASE then []
    else if s.conns[c].loop != BASE then [RemoveConnection(c)]
    else if s.conns[c].fd in s.connections then [DestroyConnection(c)] else []
  }

  // The tasks that one action asks of loop l.
  ghost function Asks(s: Server, a: Action, l: Loop): seq<Task>
    requires Enabled(s, a)
  {
    match a
    case Accept(_, k) => if k == l && l != BASE then [ConnectComplete(|s.conns|)] else []
    case RunHandler(k, _) => if Closes(s, a, s.loops[k].current[0]) then CloseAsks(s, s.loops[k].current[0], l) else []
    case RunTask(k) =>
      var t := s.loops[k].batch[0];
      if Closes(s, a, t.conn) then CloseAsks(s, t.conn, l)
      else if t.RemoveConnection? && s.conns[t.conn].loop == l && s.conns[t.conn].fd in s.connections
      then [DestroyConnection(t.conn)] else []
    case UserSend(c, inLoop) =>
      if !inLoop && s.conns[c].loop == l && s.conns[c].state == Connected then [SendInLoop(c)] else []
    case UserShutdown(c, inLoop) =>
      if !inLoop && s.conns[c].loop == l && s.conns[c].state != Disconnected then [ShutdownInLoop(c)] else []
    case UserForceClose(c, inLoop) =>
      if inLoop then if Closes(s, a, c) then CloseAsks(s, c, l) else []
      else if s.conns[c].loop == l && s.conns[c].state != Disconnected then [ForceClose(c)] else []
    case _ => []
  }

  // The task of loop l that one action runs.
  ghost function Runs(s: Server, a: Action, l: Loop): seq<Task>
    requires Enabled(s, a)
  {
    if a == RunTask(l) then [s.loops[l].batch[0]] else []
  }

  // Between s and r, loop l has been asked for some tasks and has run one or none.
  ghost predicate TaskStep(s: Server, r: Server, l: Loop, asked: seq<Task>, ran: seq<Task>) {
    l in s.loops && l in r.loops && s.loops[l].Pending() + asked == ran + r.loops[l].Pending()
  }

  lemma PushTasks(s: Server, k: Loop, t: Task, l: Loop)
    requires k in s.loops && l in s.loops
    ensures TaskStep(s, Push(s, k, t), l, if k == l then [t] else [], [])
  {
    PushLoops(s, k, t);
  }

  lemma CloseTasks(s: Server, c: Conn, l: Loop)
    requires Known(s, c) && l in s.loops
    ensures TaskStep(s, HandleClose(s, c), l, CloseAsks(s, c, l), [])
  {
    var closed := SetConn(s, c, s.conns[c].(state := Disconnected, registered := true, muted := true));
    assert TaskStep(s, closed, l, [], []);
    if s.conns[c].loop == BASE { RemoveTasks(closed, c, l); } else { PushTasks(closed, BASE, RemoveConnection(c), l); }
  }

  lemma RemoveTasks(s: Server, c: Conn, l: Loop)
    requires Known(s, c) && l in s.loops
    ensures var asked := if s.conns[c].loop == l && s.conns[c].fd in s.connections then [DestroyConnection(c)] else [];
      TaskStep(s, RemoveConnectionInLoop(s, c), l, asked, [])
  {
    var fd := s.conns[c].fd;
    if fd in s.connections {
      var erased := s.(connections := s.connections - {fd}, left := s.left + multiset{s.connections[fd]},
                       queued := s.queued + multiset{c},
                       wrongErasures := s.wrongErasures + if s.connections[fd] == c then 0 else 1);
      PushTasks(erased, s.conns[c].loop, DestroyConnection(c), l);
    }
  }

  lemma HandlerTasks(s: Server, a: Action, l: Loop)
    requires Enabled(s, a) && a.RunHandler? && l in s.loops
    ensures TaskStep(s, Next(s, a), l, Asks(s, a, l), [])
  {
    var ls := s.loops[a.loop];
    var s1 := SetLoop(s, a.loop, ls.(todo := ls.todo[1..]));
    assert s1.loops[l].Pending() == s.loops[l].Pending();
    if Closes(s, a, ls.current[0]) { CloseTasks(s1, ls.current[0], l); }
  }

  lemma ExecuteTasks(s: Server, t: Task, l: Loop)
    requires Known(s, t.conn) && l in s.loops
    ensures var i := s.conns[t.conn];
      var asked :=
        if t.ForceClose? && i.state != Disconnected then CloseAsks(s, t.conn, l)
        else if t.RemoveConnection? && i.loop == l && i.fd in s.connections then [DestroyConnection(t.conn)] else [];
      TaskStep(s, Execute(s, t), l, asked, [])
  {
    if t.ForceClose? && s.conns[t.conn].state != Disconnected { CloseTasks(s, t.conn, l); }
    if t.RemoveConnection? { RemoveTasks(s, t.conn, l); }
  }

  lemma TaskTasks(s: Server, a: Action, l: Loop)
    requires Enabled(s, a) && a.RunTask? && l in s.loops
    ensures TaskStep(s, Next(s, a), l, Asks(s, a, l), Runs(s, a, l))
  {
    var t, s1 := s.loops[a.loop].batch[0], Popped(s, a.loop);
    TaskNext(s, a);
    PopAlive(s, a.loop, t.conn);
    ExecuteTasks(s1, t, l);
    assert CloseAsks(s1, t.conn, l) == CloseAsks(s, t.conn, l);
    if l == a.loop {
      Twice(s.loops[l].Pending(), [t], s1.loops[l].Pending(), Asks(s, a, l), Next(s, a).loops[l].Pending());
    }
  }

  lemma Twice(p: seq<Task>, ran: seq<Task>, p1: seq<Task>, asked: seq<Task>, p2: seq<Task>)
    requires p == ran + p1 && p1 + asked == [] + p2
    ensures p + asked == ran + p2
  {
    assert [] + p2 == p2;
    assert ran + p1 + asked == ran + (p1 + asked);
  }

  lemma ForceCloseTasks(s: Server, a: Action, l: Loop)
    requires Enabled(s, a) && a.UserForceClose? && l in s.loops
    ensures TaskStep(s, Next(s, a), l, Asks(s, a, l), [])
  {
    var c, i := a.conn, s.conns[a.conn];
    var asked := SetConn(s, c, i.(state := Disconnecting));
    if i.state != Disconnected {
      if a.inLoop {
        CloseTasks(asked, c, l);
        assert CloseAsks(asked, c, l) == CloseAsks(s, c, l);
      } else {
        PushTasks(asked, i.loop, ForceClose(c), l);
      }
    }
  }

  lemma UserTasks(s: Server, a: Action, l: Loop)
    requires Enabled(s, a) && (a.UserSend? || a.UserShutdown?) && l in s.loops
    ensures TaskStep(s, Next(s, a), l, Asks(s, a, l), [])
  {
    var c, i := a.conn, s.conns[a.conn];
    if a.UserSend? { PushTasks(s, i.loop, SendInLoop(c), l); }
    else { PushTasks(SetConn(s, c, i.(state := Disconnecting)), i.loop, ShutdownInLoop(c), l); }
  }

  lemma AcceptTasks(s: Server, a: Action, l: Loop)
    requires Enabled(s, a) && a.Accept? && l in s.loops
    ensures TaskStep(s, Next(s, a), l, Asks(s, a, l), [])
  {
    var c, taken := |s.conns|, a.fd in s.connections;
    var added := s.(conns := s.conns + [Info(a.fd, a.loop, Connecting, false, false)],
                    connections := if taken then s.connections else s.connections[a.fd := c],
                    collisions := s.collisions + if taken then 1 else 0);
    assert added.loops == s.loops;
    if a.loop != BASE { PushTasks(added, a.loop, ConnectComplete(c), l); }
  }

  lemma OtherTasks(s: Server, a: Action, l: Loop)
    requires Enabled(s, a) && NoConn(a) && l in s.loops
    ensures TaskStep(s, Next(s, a), l, [], [])
  {
    if a.SwapTasks? && a.loop == l { assert s.loops[l].queue + [] == [] + s.loops[l].queue; }
  }

  lemma StepTasks(s: Server, a: Action, l: Loop)
    requires Enabled(s, a) && l in s.loops
    ensures TaskStep(s, Next(s, a), l, Asks(s, a, l), Runs(s, a, l))
  {
    if a.RunTask? { TaskTasks(s, a, l); }
    else if a.RunHandler? { HandlerTasks(s, a, l); }
    else if a.Accept? { AcceptTasks(s, a, l); }
    else if NoConn(a) { OtherTasks(s, a, l); }
    else if a.UserForceClose? { ForceCloseTasks(s, a, l); }
    else { UserTasks(s, a, l); }
  }

  ghost function AllAsked(s: Server, run: seq<Action>, l: Loop): seq<Task>
    requires IsRun(s, run)
    decreases |run|
  {
    if run == [] then [] else Asks(s, run[0], l) + AllAsked(Next(s, run[0]), run[1..], l)
  }

  ghost function AllRun(s: Server, run: seq<Action>, l: Loop): seq<Task>
    requires IsRun(s, run)
    decreases |run|
  {
    if run == [] then [] else Runs(s, run[0], l) + AllRun(Next(s, run[0]), run[1..], l)
  }

  lemma {:induction false} RunTasks(s: Server, run: seq<Action>, l: Loop)
    requires IsRun(s, run) && l in s.loops
    ensures TaskStep(s, After(s, run), l, AllAsked(s, run, l), AllRun(s, run, l))
    decreases |run|
  {
    if run != [] {
      var n := Next(s, run[0]);
      StepTasks(s, run[0], l);
      RunTasks(n, run[1..], l);
      Chain(s.loops[l].Pending(), Asks(s, run[0], l), Runs(s, run[0], l), n.loops[l].Pending(),
            AllAsked(n, run[1..], l), AllRun(n, run[1..], l), After(s, run).loops[l].Pending());
    }
  }

  /** Over every interleaving, the tasks that a loop has run, and then those it has still to run, are those asked
      of it, each once, in order. */
  lemma TasksInOrder(s: Server, run: seq<Action>, l: Loop)
    requires Initial(s) && IsRun(s, run) && l in s.loops
    ensures l in After(s, run).loops
    ensures AllAsked(s, run, l) == AllRun(s, run, l) + After(s, run).loops[l].Pending()
  {
    RunTasks(s, run, l);
    assert s.loops[l].Pending() == [];
    assert [] + AllAsked(s, run, l) == AllAsked(s, run, l);
  }

  // c is closed, or its loop has the task that will close it.
  ghost predicate Forced(s: Server, c: Conn) {
    Known(s, c) && (s.conns[c].state == Disconnected || ForceClose(c) in s.loops[s.conns[c].loop].Pending())
  }

  lemma StepForced(s: Server, a: Action, c: Conn)
    requires Inv(s) && Enabled(s, a) && (Forced(s, c) || (a.UserForceClose? && a.conn == c))
    ensures Forced(Next(s, a), c)
  {
    var l := s.conns[c].loop;
    StepKeeps(s, a);
    StepState(s, a, c);
    StepTasks(s, a, l);
    var all := s.loops[l].Pending() + Asks(s, a, l);
    if Next(s, a).conns[c].state != Disconnected {
      assert ForceClose(c) in all;
      assert ForceClose(c) !in Runs(s, a, l);
    }
  }

  lemma {:induction false} RunForced(s: Server, run: seq<Action>, c: Conn, inLoop: bool)
    requires Inv(s) && IsRun(s, run) && (Forced(s, c) || UserForceClose(c, inLoop) in run)
    ensures Forced(After(s, run), c)
    decreases |run|
  {
    if run != [] {
      StepKeeps(s, run[0]);
      if Forced(s, c) || run[0] == UserForceClose(c, inLoop) {
        StepForced(s, run[0], c);
      } else {
        assert run == [run[0]] + run[1..];
      }
      RunForced(Next(s, run[0]), run[1..], c, inLoop);
    }
  }

  /** No force-close is lost: the connection a user asked it of is closed, or its loop has the task that will. */
  lemma ForceCloseNotLost(s: Server, run: seq<Action>, c: Conn, inLoop: bool)
    requires Initial(s) && IsRun(s, run) && UserForceClose(c, inLoop) in run
    ensures var e := After(s, run);
      && c < |e.conns| && e.conns[c].loop in e.loops
      && (e.conns[c].state == Disconnected || ForceClose(c) in e.loops[e.conns[c].loop].Pending())
  {
    InitialInv(s);
    RunForced(s, run, c, inLoop);
  }

  // Events -----------------------------------------------------------------------------------------------

  // A callback of a connection's channel.
  datatype Call = Call(conn: Conn, handler: Handler)

  function Calls(c: Conn, hs: seq<Handler>): (cs: seq<Call>)
    ensures |cs| == |hs| && forall i :: 0 <= i < |hs| ==> cs[i] == Call(c, hs[i])
  {
    seq(|hs|, i requires 0 <= i < |hs| => Call(c, hs[i]))
  }

  // The callbacks left of the event a loop is handling.
  function CallsLeft(ls: LoopState): seq<Call> {
    if ls.current == [] then [] else Calls(ls.current[0], ls.todo)
  }

  ghost function Polled(a: Action, l: Loop): seq<Conn> {
    if a.Poll? && a.loop == l then a.ready else []
  }

  ghost function Begun(s: Server, a: Action, l: Loop): seq<Conn>
    requires Enabled(s, a)
  {
    if a.BeginEvent? && a.loop == l then [s.loops[l].active[0]] else []
  }

  ghost function CallsDue(s: Server, a: Action, l: Loop): seq<Call>
    requires Enabled(s, a)
  {
    if a.BeginEvent? && a.loop == l then Calls(s.loops[l].active[0], Dispatch(a.revents)) else []
  }

  ghost function CallsRun(s: Server, a: Action, l: Loop): seq<Call>
    requires Enabled(s, a)
  {
    if a.RunHandler? && a.loop == l then [Call(s.loops[l].current[0], s.loops[l].todo[0])] else []
  }

  // Between s and r, loop l has polled and begun some connections, and has had and run some callbacks.
  ghost predicate EventStep(s: Server, r: Server, l: Loop, polled: seq<Conn>, begun: seq<Conn>,
                            due: seq<Call>, ran: seq<Call>) {
    && l in s.loops && l in r.loops
    && s.loops[l].active + polled == begun + r.loops[l].active
    && CallsLeft(s.loops[l]) + due == ran + CallsLeft(r.loops[l])
  }

  ghost predicate SameEvents(s: Server, r: Server, l: Loop) {
    l in s.loops && l in r.loops && r.loops[l].active == s.loops[l].active &&
    r.loops[l].current == s.loops[l].current && r.loops[l].todo == s.loops[l].todo
  }

  lemma PushEvents(s: Server, k: Loop, t: Task, l: Loop)
    requires k in s.loops && l in s.loops
    ensures SameEvents(s, Push(s, k, t), l)
  {
  }

  lemma RemoveEvents(s: Server, c: Conn, l: Loop)
    requires Known(s, c) && l in s.loops
    ensures SameEvents(s, RemoveConnectionInLoop(s, c), l)
  {
  }

  lemma CloseEvents(s: Server, c: Conn, l: Loop)
    requires Known(s, c) && l in s.loops
    ensures SameEvents(s, HandleClose(s, c), l)
  {
    RemoveEvents(SetConn(s, c, s.conns[c].(state := Disconnected, registered := true, muted := true)), c, l);
  }

  lemma ExecuteEvents(s: Server, t: Task, l: Loop)
    requires Known(s, t.conn) && l in s.loops
    ensures SameEvents(s, Execute(s, t), l)
  {
    if t.ForceClose? { CloseEvents(s, t.conn, l); }
    if t.RemoveConnection? { RemoveEvents(s, t.conn, l); }
  }

  lemma UserEvents(s: Server, a: Action, l: Loop)
    requires Enabled(s, a) && (a.UserSend? || a.UserShutdown? || a.UserForceClose?) && l in s.loops
    ensures SameEvents(s, Next(s, a), l)
  {
    if a.UserForceClose? { CloseEvents(SetConn(s, a.conn, s.conns[a.conn].(state := Disconnecting)), a.conn, l); }
  }

  // Only polling and handling touch the events.
  lemma OtherEvents(s: Server, a: Action, l: Loop)
    requires Enabled(s, a) && l in s.loops
    requires !a.Poll? && !a.BeginEvent? && !a.RunHandler? && !a.EndEvent?
    ensures SameEvents(s, Next(s, a), l)
  {
    if a.RunTask? {
      TaskNext(s, a);
      ExecuteEvents(Popped(s, a.loop), s.loops[a.loop].batch[0], l);
    } else if a.UserSend? || a.UserShutdown? || a.UserForceClose? {
      UserEvents(s, a, l);
    }
  }

  lemma HandlerEvents(s: Server, a: Action, l: Loop)
    requires Enabled(s, a) && a.RunHandler? && l in s.loops
    ensures EventStep(s, Next(s, a), l, [], [], [], CallsRun(s, a, l))
  {
    var ls := s.loops[a.loop];
    var s1 := SetLoop(s, a.loop, ls.(todo := ls.todo[1..]));
    if Closes(s, a, ls.current[0]) { CloseEvents(s1, ls.current[0], l); }
    assert SameEvents(s1, Next(s, a), l);
    if l == a.loop {
      assert CallsLeft(ls) == [Call(ls.current[0], ls.todo[0])] + CallsLeft(s1.loops[l]);
    }
    assert s.loops[l].active + [] == [] + s.loops[l].active;
    assert CallsLeft(s.loops[l]) + [] == [] + CallsLeft(s.loops[l]);
  }

  lemma EventEvents(s: Server, a: Action, l: Loop)
    requires Enabled(s, a) && (a.Poll? || a.BeginEvent? || a.EndEvent?) && l in s.loops
    ensures EventStep(s, Next(s, a), l, Polled(a, l), Begun(s, a, l), CallsDue(s, a, l), [])
  {
    var ls, ls' := s.loops[l], Next(s, a).loops[l];
    assert ls.active + [] == [] + ls.active && [] + ls'.active == ls'.active;
    assert CallsLeft(ls) + [] == [] + CallsLeft(ls) && [] + CallsLeft(ls') == CallsLeft(ls');
    if a.BeginEvent? && a.loop == l {
      assert ls.active == [ls.active[0]] + ls.active[1..];
    }
  }

  lemma StepEvents(s: Server, a: Action, l: Loop)
    requires Enabled(s, a) && l in s.loops
    ensures EventStep(s, Next(s, a), l, Polled(a, l), Begun(s, a, l), CallsDue(s, a, l), CallsRun(s, a, l))
  {
    if a.RunHandler? {
      HandlerEvents(s, a, l);
    } else if a.Poll? || a.BeginEvent? || a.EndEvent? {
      EventEvents(s, a, l);
    } else {
      OtherEvents(s, a, l);
      assert s.loops[l].active + [] == [] + s.loops[l].active;
      assert CallsLeft(s.loops[l]) + [] == [] + CallsLeft(s.loops[l]);
    }
  }

  // What a run polls, begins, has to call and calls, in order.
  datatype Events = Events(polled: seq<Conn>, begun: seq<Conn>, due: seq<Call>, ran: seq<Call>)

  ghost function EventsOf(s: Server, run: seq<Action>, l: Loop): Events
    requires IsRun(s, run)
    decreases |run|
  {
    if run == [] then Events([], [], [], [])
    else
      var a, rest := run[0], EventsOf(Next(s, run[0]), run[1..], l);
      Events(Polled(a, l) + rest.polled, Begun(s, a, l) + rest.begun, CallsDue(s, a, l) + rest.due,
             CallsRun(s, a, l) + rest.ran)
  }

  lemma {:induction false} RunEvents(s: Server, run: seq<Action>, l: Loop)
    requires IsRun(s, run) && l in s.loops
    ensures var e := EventsOf(s, run, l); EventStep(s, After(s, run), l, e.polled, e.begun, e.due, e.ran)
    decreases |run|
  {
    if run == [] {
      assert s.loops[l].active + [] == [] + s.loops[l].active;
      assert CallsLeft(s.loops[l]) + [] == [] + CallsLeft(s.loops[l]);
    } else {
      var a, n := run[0], Next(s, run[0]);
      var rest := EventsOf(n, run[1..], l);
      StepEvents(s, a, l);
      RunEvents(n, run[1..], l);
      ChainEvents(s, n, After(s, run), l, Polled(a, l), Begun(s, a, l), CallsDue(s, a, l), CallsRun(s, a, l), rest);
    }
  }

  lemma ChainEvents(s: Server, n: Server, r: Server, l: Loop, polled: seq<Conn>, begun: seq<Conn>,
                    due: seq<Call>, ran: seq<Call>, e: Events)
    requires EventStep(s, n, l, polled, begun, due, ran) && EventStep(n, r, l, e.polled, e.begun, e.due, e.ran)
    ensures EventStep(s, r, l, polled + e.polled, begun + e.begun, due + e.due, ran + e.ran)
  {
    Chain(s.loops[l].active, polled, begun, n.loops[l].active, e.polled, e.begun, r.loops[l].active);
    Chain(CallsLeft(s.loops[l]), due, ran, CallsLeft(n.loops[l]), e.due, e.ran, CallsLeft(r.loops[l]));
  }

  /** Over every interleaving, the events a loop begins to handle, and then those it has polled and not begun, are
      those it polled, in order; and the callbacks it runs, and then those left of the event it is at, are those
      that its events call for. */
  lemma EventsInOrder(s: Server, run: seq<Action>, l: Loop)
    requires Initial(s) && IsRun(s, run) && l in s.loops
    ensures l in After(s, run).loops
    ensures var ls, e := After(s, run).loops[l], EventsOf(s, run, l);
      e.polled == e.begun + ls.active && e.due == e.ran + CallsLeft(ls)
  {
    var e := EventsOf(s, run, l);
    RunEvents(s, run, l);
    assert [] + e.polled == e.polled && [] + e.due == e.due;
  }
}
