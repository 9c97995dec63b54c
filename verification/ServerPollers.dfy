// What a run of the server's protocol does to the poller of one loop, and when it brings that poller down.
module ServerPollers {
  import opened Channels
  import opened ConnectionStates
  import opened ServerProtocol
  import opened ServerSafety
  import P = PollTables

  // The poller operations of an action ----------------------------------------------------------------------

  // A write handler, or a send, may update the channel of a connection, which keeps its interest in reading.
  predicate MayUpdate(fd: int, ops: seq<P.Op>) {
    ops == [] || (|ops| == 1 && ops[0].Set? && ops[0].fd == fd && ops[0].events != NONE_EVENT)
  }

  ghost predicate TaskIssues(s: Server, t: Task, ops: seq<P.Op>)
    requires t.conn < |s.conns|
  {
    var i := s.conns[t.conn];
    match t
    case ConnectComplete(_) => ops == [P.Set(i.fd, READ_EVENT)]
    case DestroyConnection(_) => ops == [P.Drop(i.fd)]
    case ForceClose(_) => ops == if i.state == Disconnected then [] else [P.Set(i.fd, NONE_EVENT)]
    case SendInLoop(_) => if i.state == Disconnected then ops == [] else MayUpdate(i.fd, ops)
    case _ => ops == []
  }

  ghost predicate HandlerIssues(i: Info, h: Handler, eof: bool, ops: seq<P.Op>) {
    if h == OnClose || (h == OnRead && eof) then ops == [P.Set(i.fd, NONE_EVENT)]
    else if h == OnWrite && i.state != Disconnected then MayUpdate(i.fd, ops)
    else ops == []
  }

  // ops is what the action has the poller of loop l do.
  ghost predicate Issues(s: Server, a: Action, l: Loop, ops: seq<P.Op>)
    requires Enabled(s, a)
  {
    match a
    case Accept(fd, at) => ops == if at == BASE && l == BASE then [P.Set(fd, READ_EVENT)] else []
    case RunHandler(at, eof) =>
      if at == l then HandlerIssues(s.conns[s.loops[at].current[0]], s.loops[at].todo[0], eof, ops) else ops == []
    case RunTask(at) => if at == l then TaskIssues(s, s.loops[at].batch[0], ops) else ops == []
    case UserSend(c, inLoop) =>
      if inLoop && s.conns[c].loop == l && s.conns[c].state == Connected then MayUpdate(s.conns[c].fd, ops)
      else ops == []
    case UserForceClose(c, inLoop) =>
      ops ==
      if inLoop && s.conns[c].loop == l && s.conns[c].state != Disconnected then [P.Set(s.conns[c].fd, NONE_EVENT)]
      else []
    case _ => ops == []
  }

  // What an action does to the connections that the poller holds -----------------------------------------------

  predicate OnLoop(s: Server, l: Loop, c: Conn) {
    c < |s.conns| && s.conns[c].loop == l && s.conns[c].registered
  }

  predicate SameAt(s: Server, r: Server, l: Loop, c: Conn) {
    (OnLoop(r, l, c) <==> OnLoop(s, l, c)) &&
    (OnLoop(s, l, c) ==> r.conns[c].fd == s.conns[c].fd && r.conns[c].muted == s.conns[c].muted)
  }

  ghost predicate SameBut(s: Server, r: Server, l: Loop, x: int) {
    forall c: Conn :: c != x ==> SameAt(s, r, l, c)
  }

  // The operation and the new state of the connection it is about agree.
  ghost predicate Effect(s: Server, r: Server, l: Loop, op: P.Op, c: Conn) {
    && SameBut(s, r, l, c) && c < |r.conns| && op.fd == r.conns[c].fd
    && (op.Set? ==> OnLoop(r, l, c) && (r.conns[c].muted <==> op.events == NONE_EVENT) &&
                    (OnLoop(s, l, c) ==> s.conns[c].fd == op.fd) && (op.events == NONE_EVENT ==> OnLoop(s, l, c)))
    && (op.Drop? ==> OnLoop(s, l, c) && !OnLoop(r, l, c) && s.conns[c].fd == op.fd)
  }

  // Some connection takes the effect of the operations, of which there is at most one.
  ghost predicate Effects(s: Server, r: Server, l: Loop, ops: seq<P.Op>, c: Conn) {
    if ops == [] then SameBut(s, r, l, -1) else |ops| == 1 && Effect(s, r, l, ops[0], c)
  }

  lemma OneChanged(s: Server, r: Server, l: Loop, c: Conn, i: Info)
    requires c < |s.conns| && r.conns == s.conns[c := i]
    ensures SameBut(s, r, l, c)
    ensures i.loop == s.conns[c].loop != l ==> SameBut(s, r, l, -1)
    ensures i.(state := s.conns[c].state) == s.conns[c] ==> SameBut(s, r, l, -1)
  {
  }

  lemma CloseEffects(s: Server, r: Server, l: Loop, c: Conn)
    requires Known(s, c) && r == HandleClose(s, c) && s.conns[c].registered
    ensures s.conns[c].loop == l ==> Effect(s, r, l, P.Set(s.conns[c].fd, NONE_EVENT), c)
    ensures s.conns[c].loop != l ==> SameBut(s, r, l, -1)
  {
    OneChanged(s, r, l, c, s.conns[c].(state := Disconnected, registered := true, muted := true));
  }

  lemma UpdateEffects(s: Server, r: Server, l: Loop, c: Conn, ops: seq<P.Op>)
    requires OnLoop(s, l, c) && !s.conns[c].muted && r.conns == s.conns && MayUpdate(s.conns[c].fd, ops)
    ensures Effects(s, r, l, ops, c)
  {
  }

  lemma MoveEffects(s: Server, s1: Server, r: Server, l: Loop, ops: seq<P.Op>, c: Conn)
    requires s1.conns == s.conns && Effects(s1, r, l, ops, c)
    ensures Effects(s, r, l, ops, c)
  {
    forall d: Conn ensures OnLoop(s, l, d) == OnLoop(s1, l, d) && (SameAt(s, r, l, d) <==> SameAt(s1, r, l, d)) { }
  }

  // What is known of a connection whose event is handled.
  ghost predicate Handles(s: Server, c: Conn, at: Loop) {
    Known(s, c) && OnLoop(s, at, c) && (s.conns[c].state != Disconnected ==> !s.conns[c].muted)
  }

  lemma CurrentHandles(s: Server, l: Loop)
    requires Inv(s) && l in s.loops && |s.loops[l].current| == 1
    ensures Handles(s, s.loops[l].current[0], l)
  {
    var c := s.loops[l].current[0];
    assert s.loops[l].Watches(c);
    assert WatchedHere(s, l, c);
    assert ConnInv(s, c);
  }

  // The handler runs in s.
  lemma EventEffects(s: Server, c: Conn, at: Loop, h: Handler, eof: bool, l: Loop, ops: seq<P.Op>)
    requires Handles(s, c, at)
    requires if at == l then HandlerIssues(s.conns[c], h, eof, ops) else ops == []
    ensures Effects(s, if h == OnClose || (h == OnRead && eof) then HandleClose(s, c) else s, l, ops, c)
  {
    if h == OnClose || (h == OnRead && eof) {
      CloseEffects(s, HandleClose(s, c), l, c);
    } else if at == l && h == OnWrite && s.conns[c].state != Disconnected {
      UpdateEffects(s, s, l, c, ops);
    }
  }

  lemma HandlerEffects(s: Server, a: Action, l: Loop, ops: seq<P.Op>) returns (c: Conn)
    requires Inv(s) && Enabled(s, a) && a.RunHandler? && Issues(s, a, l, ops)
    ensures Effects(s, Next(s, a), l, ops, c)
  {
    var ls := s.loops[a.loop];
    c := ls.current[0];
    CurrentHandles(s, a.loop);
    HandlerMoves(s, a, l, ops, c);
  }

  lemma HandlerMoves(s: Server, a: Action, l: Loop, ops: seq<P.Op>, c: Conn)
    requires Enabled(s, a) && a.RunHandler? && Issues(s, a, l, ops)
    requires c == s.loops[a.loop].current[0] && Handles(s, c, a.loop)
    ensures Effects(s, Next(s, a), l, ops, c)
  {
    var ls := s.loops[a.loop];
    var s1 := SetLoop(s, a.loop, ls.(todo := ls.todo[1..]));
    EventEffects(s1, c, a.loop, ls.todo[0], a.eof, l, ops);
    MoveEffects(s, s1, Next(s, a), l, ops, c);
  }

  // What is known of the task that runs next.
  ghost predicate Runs(s: Server, t: Task, at: Loop) {
    Known(s, t.conn) &&
    var i := s.conns[t.conn];
    && (t.RemoveConnection? || i.loop == at)
    && (t.DestroyConnection? ==> i.registered)
    && ((t.ForceClose? || t.SendInLoop?) && i.state != Disconnected ==> i.registered && !i.muted)
  }

  lemma ConnectEffects(s: Server, t: Task, at: Loop, l: Loop)
    requires Runs(s, t, at) && t.ConnectComplete?
    ensures at == l ==> Effect(s, Execute(s, t), l, P.Set(s.conns[t.conn].fd, READ_EVENT), t.conn)
    ensures at != l ==> SameBut(s, Execute(s, t), l, -1)
  {
    var i := s.conns[t.conn];
    OneChanged(s, Execute(s, t), l, t.conn, i.(state := Connected, registered := true, muted := false));
  }

  lemma DestroyEffects(s: Server, t: Task, at: Loop, l: Loop)
    requires Runs(s, t, at) && t.DestroyConnection?
    ensures at == l ==> Effect(s, Execute(s, t), l, P.Drop(s.conns[t.conn].fd), t.conn)
    ensures at != l ==> SameBut(s, Execute(s, t), l, -1)
  {
    OneChanged(s, Execute(s, t), l, t.conn, Execute(s, t).conns[t.conn]);
  }

  lemma SendEffects(s: Server, t: Task, at: Loop, l: Loop, ops: seq<P.Op>)
    requires Runs(s, t, at) && t.SendInLoop?
    requires if at == l then TaskIssues(s, t, ops) else ops == []
    ensures Effects(s, Execute(s, t), l, ops, t.conn)
  {
    assert s.conns[t.conn := s.conns[t.conn]] == s.conns;
    if at == l && s.conns[t.conn].state != Disconnected { UpdateEffects(s, Execute(s, t), l, t.conn, ops); }
  }

  lemma ExecuteEffects(s: Server, t: Task, at: Loop, l: Loop, ops: seq<P.Op>)
    requires Runs(s, t, at)
    requires if at == l then TaskIssues(s, t, ops) else ops == []
    ensures Effects(s, Execute(s, t), l, ops, t.conn)
  {
    match t
    case ConnectComplete(_) => ConnectEffects(s, t, at, l);
    case DestroyConnection(_) => DestroyEffects(s, t, at, l);
    case ForceClose(c) => if s.conns[c].state != Disconnected { CloseEffects(s, Execute(s, t), l, c); }
    case SendInLoop(_) => SendEffects(s, t, at, l, ops);
    case _ =>
  }

  lemma TaskEffects(s: Server, a: Action, l: Loop, ops: seq<P.Op>) returns (c: Conn)
    requires Inv(s) && Enabled(s, a) && a.RunTask? && Issues(s, a, l, ops)
    ensures Effects(s, Next(s, a), l, ops, c)
  {
    c := s.loops[a.loop].batch[0].conn;
    NextRuns(s, a.loop);
    TaskMoves(s, a, l, ops, c);
  }

  lemma TaskMoves(s: Server, a: Action, l: Loop, ops: seq<P.Op>, c: Conn)
    requires Enabled(s, a) && a.RunTask? && Issues(s, a, l, ops) && c == s.loops[a.loop].batch[0].conn
    requires Runs(Popped(s, a.loop), s.loops[a.loop].batch[0], a.loop)
    ensures Effects(s, Next(s, a), l, ops, c)
  {
    var s1 := Popped(s, a.loop);
    ExecuteEffects(s1, s.loops[a.loop].batch[0], a.loop, l, ops);
    MoveEffects(s, s1, Next(s, a), l, ops, c);
  }

  lemma NextRuns(s: Server, l: Loop)
    requires Inv(s) && Enabled(s, RunTask(l))
    ensures Runs(Popped(s, l), s.loops[l].batch[0], l)
  {
    PopOwn(s, l);
    Ready(s, l);
  }

  lemma UserEffects(s: Server, a: Action, l: Loop, ops: seq<P.Op>) returns (c: Conn)
    requires Inv(s) && Enabled(s, a) && Issues(s, a, l, ops)
    requires a.UserSend? || a.UserShutdown? || a.UserForceClose?
    ensures Effects(s, Next(s, a), l, ops, c)
  {
    c := a.conn;
    ExposedHandles(s, c);
    UserMoves(s, a, l, ops, c);
  }

  lemma ExposedHandles(s: Server, c: Conn)
    requires Inv(s) && Exposed(s, c)
    ensures s.conns[c].state != Disconnected ==> Handles(s, c, s.conns[c].loop)
  {
    assert ConnInv(s, c);
  }

  lemma UserMoves(s: Server, a: Action, l: Loop, ops: seq<P.Op>, c: Conn)
    requires Enabled(s, a) && Issues(s, a, l, ops) && (a.UserSend? || a.UserShutdown? || a.UserForceClose?)
    requires a.conn == c && (s.conns[c].state != Disconnected ==> Handles(s, c, s.conns[c].loop))
    ensures Effects(s, Next(s, a), l, ops, c)
  {
    var i, r := s.conns[c], Next(s, a);
    if i.state != Disconnected {
      if a.UserSend? {
        assert s.conns[c := i] == s.conns;
        if a.inLoop && i.loop == l && i.state == Connected { UpdateEffects(s, r, l, c, ops); }
      } else {
        AskedEffects(s, a, l, ops, c);
      }
    }
  }

  lemma AskedEffects(s: Server, a: Action, l: Loop, ops: seq<P.Op>, c: Conn)
    requires Enabled(s, a) && Issues(s, a, l, ops) && (a.UserShutdown? || a.UserForceClose?)
    requires a.conn == c && s.conns[c].state != Disconnected && Handles(s, c, s.conns[c].loop)
    ensures Effects(s, Next(s, a), l, ops, c)
  {
    var asked := SetConn(s, c, s.conns[c].(state := Disconnecting));
    OneChanged(s, asked, l, c, asked.conns[c]);
    if a.UserForceClose? && a.inLoop {
      CloseEffects(asked, HandleClose(asked, c), l, c);
      AfterSame(s, asked, HandleClose(asked, c), l, ops, c);
    }
  }

  lemma AfterSame(s: Server, s1: Server, r: Server, l: Loop, ops: seq<P.Op>, c: Conn)
    requires SameBut(s, s1, l, -1) && Effects(s1, r, l, ops, c)
    ensures Effects(s, r, l, ops, c)
  {
    forall d: Conn ensures SameAt(s1, r, l, d) ==> SameAt(s, r, l, d) { assert SameAt(s, s1, l, d); }
    assert SameAt(s, s1, l, c);
  }

  lemma AcceptEffects(s: Server, a: Action, l: Loop, ops: seq<P.Op>) returns (c: Conn)
    requires Inv(s) && Enabled(s, a) && a.Accept? && Issues(s, a, l, ops)
    ensures Effects(s, Next(s, a), l, ops, c)
  {
    c := |s.conns|;
  }

  lemma StepEffects(s: Server, a: Action, l: Loop, ops: seq<P.Op>) returns (c: Conn)
    requires Inv(s) && Enabled(s, a) && Issues(s, a, l, ops)
    ensures Effects(s, Next(s, a), l, ops, c)
  {
    c := 0;
    match a {
      case Accept(_, _) => c := AcceptEffects(s, a, l, ops);
      case RunHandler(_, _) => c := HandlerEffects(s, a, l, ops);
      case RunTask(_) => c := TaskEffects(s, a, l, ops);
      case UserSend(_, _) => c := UserEffects(s, a, l, ops);
      case UserShutdown(_, _) => c := UserEffects(s, a, l, ops);
      case UserForceClose(_, _) => c := UserEffects(s, a, l, ops);
      case _ =>
    }
  }

  // The table and the server agree ----------------------------------------------------------------------------

  // own: the descriptors of the loop's other channels, which stay registered and interested in something.
  // A connection's descriptor is in the table exactly while its channel is registered, and muted as it is.
  ghost predicate Mirrors(s: Server, l: Loop, t: P.Table, own: set<int>) {
    && P.Bijective(t)
    && (forall c: Conn :: c < |s.conns| ==> s.conns[c].fd >= 0 && s.conns[c].fd !in own)
    && (forall c: Conn :: OnLoop(s, l, c) ==> ConnIn(s, t, c))
    && (forall fd :: fd in t.index ==> (fd in own && !MutedAt(t, fd)) || HasConn(s, l, fd))
  }

  predicate MutedAt(t: P.Table, fd: int)
    requires fd in t.index && t.index[fd] < |t.slots|
  {
    P.Muted(t.slots[t.index[fd]])
  }

  predicate ConnIn(s: Server, t: P.Table, c: Conn) {
    c < |s.conns| && s.conns[c].fd in t.index && t.index[s.conns[c].fd] < |t.slots| &&
    (MutedAt(t, s.conns[c].fd) <==> s.conns[c].muted)
  }

  ghost predicate HasConn(s: Server, l: Loop, fd: int) {
    exists c: Conn :: OnLoop(s, l, c) && s.conns[c].fd == fd
  }

  // Registered connections have different descriptors.
  ghost predicate Apart(s: Server, l: Loop) {
    forall c: Conn, d: Conn :: OnLoop(s, l, c) && OnLoop(s, l, d) && s.conns[c].fd == s.conns[d].fd ==> c == d
  }

  lemma InvApart(s: Server, l: Loop)
    requires Inv(s)
    ensures Apart(s, l)
  {
    forall c: Conn, d: Conn | OnLoop(s, l, c) && OnLoop(s, l, d) && s.conns[c].fd == s.conns[d].fd ensures c == d {
      RegisteredAlive(s, c);
      RegisteredAlive(s, d);
    }
  }

  lemma UpdateMuted(t: P.Table, fd: int, events: bv16, g: int)
    requires P.Bijective(t) && fd >= 0
    ensures var t' := P.Update(t, fd, events);
      && P.Bijective(t') && t'.index.Keys == t.index.Keys + {fd}
      && (g == fd && (fd in t.index || events != NONE_EVENT) ==> (MutedAt(t', g) <==> events == NONE_EVENT))
      && (g in t.index && g != fd ==> (MutedAt(t', g) <==> MutedAt(t, g)))
  {
    P.UpdateKeeps(t, fd, events);
    assert P.KeyOk(t, g) && P.KeyOk(t, fd);
  }

  lemma RemoveMuted(t: P.Table, fd: int, g: int)
    requires P.Bijective(t) && P.Remove(t, fd).Removed?
    ensures var t' := P.Remove(t, fd).table;
      && P.Bijective(t') && t'.index.Keys == t.index.Keys - {fd}
      && (g in t'.index ==> (MutedAt(t', g) <==> MutedAt(t, g)))
  {
    P.RemoveKeeps(t, fd);
    P.RemoveExactly(t, fd);
    var last := |t.slots| - 1;
    assert P.KeyOk(t, g) && P.KeyOk(t, fd) && P.SlotOk(t, last);
  }

  // The descriptors of the new state.
  ghost predicate FdsOk(r: Server, own: set<int>) {
    forall c: Conn :: c < |r.conns| ==> r.conns[c].fd >= 0 && r.conns[c].fd !in own
  }

  lemma MirrorsSame(s: Server, r: Server, l: Loop, t: P.Table, own: set<int>)
    requires Mirrors(s, l, t, own) && SameBut(s, r, l, -1) && FdsOk(r, own)
    ensures Mirrors(r, l, t, own)
  {
    forall c: Conn | OnLoop(r, l, c) ensures ConnIn(r, t, c) {
      assert SameAt(s, r, l, c) && ConnIn(s, t, c);
    }
    forall fd | fd in t.index && HasConn(s, l, fd) ensures HasConn(r, l, fd) {
      var c: Conn :| OnLoop(s, l, c) && s.conns[c].fd == fd;
      assert SameAt(s, r, l, c);
    }
  }

  lemma MirrorsSet(s: Server, r: Server, l: Loop, t: P.Table, own: set<int>, op: P.Op, c: Conn)
    requires Mirrors(s, l, t, own) && Effect(s, r, l, op, c) && op.Set? && FdsOk(r, own) && Apart(r, l)
    ensures Mirrors(r, l, P.Update(t, op.fd, op.events), own)
  {
    var t' := P.Update(t, op.fd, op.events);
    UpdateMuted(t, op.fd, op.events, op.fd);
    if op.events == NONE_EVENT { assert ConnIn(s, t, c); }
    forall d: Conn | OnLoop(r, l, d) ensures ConnIn(r, t', d) {
      if d != c {
        assert SameAt(s, r, l, d) && ConnIn(s, t, d);
        assert OnLoop(r, l, c);
        UpdateMuted(t, op.fd, op.events, s.conns[d].fd);
      }
    }
    forall fd | fd in t'.index ensures (fd in own && !MutedAt(t', fd)) || HasConn(r, l, fd) {
      UpdateMuted(t, op.fd, op.events, fd);
      if fd == op.fd {
        assert OnLoop(r, l, c) && r.conns[c].fd == fd;
      } else if HasConn(s, l, fd) {
        var d: Conn :| OnLoop(s, l, d) && s.conns[d].fd == fd;
        assert d != c && SameAt(s, r, l, d);
      }
    }
  }

  lemma MirrorsDrop(s: Server, r: Server, l: Loop, t: P.Table, own: set<int>, op: P.Op, c: Conn)
    requires Mirrors(s, l, t, own) && Effect(s, r, l, op, c) && op.Drop? && FdsOk(r, own) && Apart(s, l)
    requires P.Remove(t, op.fd).Removed?
    ensures Mirrors(r, l, P.Remove(t, op.fd).table, own)
  {
    var t' := P.Remove(t, op.fd).table;
    forall d: Conn | OnLoop(r, l, d) ensures ConnIn(r, t', d) {
      assert d != c && SameAt(s, r, l, d) && ConnIn(s, t, d);
      assert OnLoop(s, l, c);
      RemoveMuted(t, op.fd, s.conns[d].fd);
    }
    RemoveMuted(t, op.fd, op.fd);
    forall fd | fd in t'.index ensures (fd in own && !MutedAt(t', fd)) || HasConn(r, l, fd) {
      RemoveMuted(t, op.fd, fd);
      if HasConn(s, l, fd) {
        var d: Conn :| OnLoop(s, l, d) && s.conns[d].fd == fd;
        assert d != c && SameAt(s, r, l, d);
      }
    }
  }

  // The connection that is taken out of the poller is not last, and the last one is another that is muted.
  ghost predicate BehindMuted(s: Server, l: Loop, t: P.Table, c: Conn) {
    exists d: Conn :: d != c && OnLoop(s, l, d) && s.conns[d].muted && LastIs(t, s.conns[d].fd)
  }

  predicate LastIs(t: P.Table, fd: int) {
    fd in t.index && t.index[fd] == |t.slots| - 1
  }

  /** The removal of a connection's channel brings the poller down, if and only if the last slot belongs to
      another connection, and that one is muted. */
  lemma RemovalFails(s: Server, l: Loop, t: P.Table, own: set<int>, c: Conn)
    requires Mirrors(s, l, t, own) && Apart(s, l) && OnLoop(s, l, c)
    ensures !P.Remove(t, s.conns[c].fd).NotFound?
    ensures P.Remove(t, s.conns[c].fd).NullChannel? <==> BehindMuted(s, l, t, c)
  {
    var fd, last := s.conns[c].fd, |t.slots| - 1;
    assert ConnIn(s, t, c);
    P.RemoveExactly(t, fd);
    assert P.KeyOk(t, fd) && P.SlotOk(t, last);
    var g := P.Owner(t.slots[last]);
    assert LastIs(t, g);
    if P.Remove(t, fd).NullChannel? {
      assert MutedAt(t, g) && HasConn(s, l, g);
      var d: Conn :| OnLoop(s, l, d) && s.conns[d].fd == g;
      assert ConnIn(s, t, d);
      assert d != c && s.conns[d].muted && LastIs(t, s.conns[d].fd);
    }
    if d: Conn :| d != c && OnLoop(s, l, d) && s.conns[d].muted && LastIs(t, s.conns[d].fd) {
      assert ConnIn(s, t, d);
      assert P.KeyOk(t, s.conns[d].fd);
    }
  }

  // Runs ---------------------------------------------------------------------------------------------------------

  // ops holds, action by action, what the run has the poller of loop l do.
  ghost predicate Issued(s: Server, run: seq<Action>, l: Loop, ops: seq<seq<P.Op>>)
    requires IsRun(s, run)
    decreases |run|
  {
    |ops| == |run| && (run == [] || (Issues(s, run[0], l, ops[0]) && Issued(Next(s, run[0]), run[1..], l, ops[1..])))
  }

  function Flat(ops: seq<seq<P.Op>>): seq<P.Op> {
    if ops == [] then [] else ops[0] + Flat(ops[1..])
  }

  // The kernel hands out no descriptor of the loop's other channels.
  ghost predicate AcceptsApart(run: seq<Action>, own: set<int>) {
    forall i :: 0 <= i < |run| && run[i].Accept? ==> run[i].fd !in own
  }

  // The action destroys a connection whose channel the poller cannot remove.
  ghost predicate Fatal(s: Server, a: Action, l: Loop, t: P.Table)
    requires Enabled(s, a)
  {
    a == RunTask(l) && s.loops[l].batch[0].DestroyConnection? && BehindMuted(s, l, t, s.loops[l].batch[0].conn)
  }

  // Some action of the run is, with the table as the actions before it have left it.
  ghost predicate RunFatal(s: Server, run: seq<Action>, l: Loop, t: P.Table, ops: seq<seq<P.Op>>)
    requires IsRun(s, run) && Issued(s, run, l, ops)
    decreases |run|
  {
    run != [] &&
    (Fatal(s, run[0], l, t) ||
     (P.Run(t, ops[0]).Up? && RunFatal(Next(s, run[0]), run[1..], l, P.Run(t, ops[0]).table, ops[1..])))
  }

  lemma OneOp(t: P.Table, op: P.Op)
    requires P.Bijective(t)
    ensures P.Run(t, [op]) == P.Apply(t, op) && P.Run(t, []) == P.Up(t)
  {
    assert [op][1..] == [];
  }

  lemma {:induction false} RunBoth(t: P.Table, a: seq<P.Op>, b: seq<P.Op>)
    ensures P.Run(t, a + b) == if P.Run(t, a).Up? then P.Run(P.Run(t, a).table, b) else P.Down
    decreases |a|
  {
    if a == [] {
      assert a + b == b;
    } else {
      assert (a + b)[1..] == a[1..] + b;
      if P.Indexed(t) && P.Apply(t, a[0]).Up? { RunBoth(P.Apply(t, a[0]).table, a[1..], b); }
    }
  }

  // No connection changes its descriptor.
  predicate SameFds(s: Server, r: Server) {
    |r.conns| == |s.conns| && forall c :: 0 <= c < |s.conns| ==> r.conns[c].fd == s.conns[c].fd
  }

  lemma CloseFds(s: Server, c: Conn)
    requires Known(s, c)
    ensures SameFds(s, HandleClose(s, c))
  {
  }

  lemma ExecuteFds(s: Server, t: Task)
    requires Known(s, t.conn)
    ensures SameFds(s, Execute(s, t))
  {
    if t.ForceClose? { CloseFds(s, t.conn); }
  }

  lemma UserFds(s: Server, a: Action)
    requires Enabled(s, a) && (a.UserSend? || a.UserShutdown? || a.UserForceClose?)
    ensures SameFds(s, Next(s, a))
  {
    var c := a.conn;
    ExecuteFds(s, SendInLoop(c));
    CloseFds(SetConn(s, c, s.conns[c].(state := Disconnecting)), c);
  }

  lemma EventFds(s: Server, a: Action)
    requires Enabled(s, a) && a.RunHandler?
    ensures SameFds(s, Next(s, a))
  {
    var ls := s.loops[a.loop];
    CloseFds(SetLoop(s, a.loop, ls.(todo := ls.todo[1..])), ls.current[0]);
  }

  lemma TaskFds(s: Server, a: Action)
    requires Enabled(s, a) && a.RunTask?
    ensures SameFds(s, Next(s, a))
  {
    ExecuteFds(Popped(s, a.loop), s.loops[a.loop].batch[0]);
  }

  lemma NextFds(s: Server, a: Action, l: Loop, t: P.Table, own: set<int>)
    requires Mirrors(s, l, t, own) && Enabled(s, a) && (a.Accept? ==> a.fd !in own)
    ensures FdsOk(Next(s, a), own)
  {
    match a {
      case Accept(_, _) =>
      case RunHandler(_, _) => EventFds(s, a);
      case RunTask(_) => TaskFds(s, a);
      case UserSend(_, _) => UserFds(s, a);
      case UserShutdown(_, _) => UserFds(s, a);
      case UserForceClose(_, _) => UserFds(s, a);
      case _ =>
    }
  }

  // Only the destruction of a connection removes a channel.
  lemma DropsOnly(s: Server, a: Action, l: Loop, ops: seq<P.Op>, c: Conn)
    requires Enabled(s, a) && Issues(s, a, l, ops) && Effects(s, Next(s, a), l, ops, c) && Inv(s)
    ensures ops != [] && ops[0].Drop? ==>
      a == RunTask(l) && s.loops[l].batch[0] == DestroyConnection(c)
    ensures a == RunTask(l) && s.loops[l].batch[0].DestroyConnection? ==> |ops| == 1 && ops[0].Drop?
  {
    if ops != [] && ops[0].Drop? {
      assert a == RunTask(l) && s.loops[l].batch[0].DestroyConnection?;
      NextRuns(s, l);
      assert OnLoop(s, l, s.loops[l].batch[0].conn);
      InvApart(s, l);
    }
  }

  /** One action keeps table and server in step, unless it brings the poller down, which is exactly if it
      destroys a connection while the last slot is that of another one that is muted. */
  lemma StepMirrors(s: Server, a: Action, l: Loop, t: P.Table, own: set<int>, ops: seq<P.Op>)
    requires Inv(s) && Enabled(s, a) && Issues(s, a, l, ops) && Mirrors(s, l, t, own) && (a.Accept? ==> a.fd !in own)
    ensures P.Run(t, ops).Down? <==> Fatal(s, a, l, t)
    ensures P.Run(t, ops).Up? ==> Mirrors(Next(s, a), l, P.Run(t, ops).table, own)
  {
    var r := Next(s, a);
    var c := StepEffects(s, a, l, ops);
    StepKeeps(s, a);
    InvApart(s, l);
    InvApart(r, l);
    NextFds(s, a, l, t, own);
    DropsOnly(s, a, l, ops, c);
    if ops == [] {
      MirrorsSame(s, r, l, t, own);
    } else {
      assert ops == [ops[0]];
      OneOp(t, ops[0]);
      if ops[0].Set? {
        MirrorsSet(s, r, l, t, own, ops[0], c);
      } else {
        RemovalFails(s, l, t, own, c);
        if P.Remove(t, ops[0].fd).Removed? { MirrorsDrop(s, r, l, t, own, ops[0], c); }
      }
    }
  }

  lemma {:induction false} RunMirrors(s: Server, run: seq<Action>, l: Loop, t: P.Table, own: set<int>,
      ops: seq<seq<P.Op>>)
    requires Inv(s) && IsRun(s, run) && Issued(s, run, l, ops) && Mirrors(s, l, t, own) && AcceptsApart(run, own)
    ensures P.Run(t, Flat(ops)).Down? <==> RunFatal(s, run, l, t, ops)
    ensures P.Run(t, Flat(ops)).Up? ==> Mirrors(After(s, run), l, P.Run(t, Flat(ops)).table, own)
    decreases |run|
  {
    if run != [] {
      assert run[0].Accept? ==> run[0].fd !in own;
      StepMirrors(s, run[0], l, t, own, ops[0]);
      StepKeeps(s, run[0]);
      RunBoth(t, ops[0], Flat(ops[1..]));
      if P.Run(t, ops[0]).Up? {
        assert forall i :: 0 <= i < |run[1..]| ==> run[1..][i] == run[i + 1];
        RunMirrors(Next(s, run[0]), run[1..], l, P.Run(t, ops[0]).table, own, ops[1..]);
      }
    }
  }

  /** Over every run of the server, from a poller that holds only channels of the loop itself, none of them
      muted: the run's operations bring that poller down, if and only if at some point a connection is destroyed
      while the last slot is that of another connection, which is muted. Otherwise the poller holds the channels
      of exactly the registered connections of the loop beside its own, muted as they are. */
  lemma PollerDown(s: Server, run: seq<Action>, l: Loop, t: P.Table, ops: seq<seq<P.Op>>)
    requires Initial(s) && IsRun(s, run) && Issued(s, run, l, ops)
    requires P.Bijective(t) && (forall fd :: fd in t.index ==> !MutedAt(t, fd)) && AcceptsApart(run, t.index.Keys)
    ensures P.Run(t, Flat(ops)).Down? <==> RunFatal(s, run, l, t, ops)
    ensures P.Run(t, Flat(ops)).Up? ==> Mirrors(After(s, run), l, P.Run(t, Flat(ops)).table, t.index.Keys)
  {
    InitialInv(s);
    RunMirrors(s, run, l, t, t.index.Keys, ops);
  }
}
