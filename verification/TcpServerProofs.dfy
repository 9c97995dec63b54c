// What every interleaving of the connection protocol keeps.
module ServerSafety {
  import opened ConnectionStates
  import opened ServerProtocol

  // The invariant ------------------------------------------------------------------------

  ghost predicate Mapped(s: Server, c: Conn) {
    c < |s.conns| && s.conns[c].fd in s.connections && s.connections[s.conns[c].fd] == c
  }

  ghost predicate WellPlaced(s: Server, l: Loop, t: Task) {
    t.conn < |s.conns| && l == if t.RemoveConnection? then BASE else s.conns[t.conn].loop
  }

  ghost predicate WatchedHere(s: Server, l: Loop, c: Conn) {
    c < |s.conns| && s.conns[c].loop == l && s.conns[c].registered
  }

  ghost predicate WellFormed(s: Server) {
    && BASE in s.loops
    && (forall c :: 0 <= c < |s.conns| ==> s.conns[c].loop in s.loops)
    && (forall fd :: fd in s.connections ==> s.connections[fd] < |s.conns| && s.conns[s.connections[fd]].fd == fd)
    && (forall l, t :: l in s.loops && t in s.loops[l].Held() ==> WellPlaced(s, l, t))
    && (forall l :: l in s.loops ==> |s.loops[l].current| <= 1)
    && (forall l, c: Conn :: l in s.loops && s.loops[l].Watches(c) ==> WatchedHere(s, l, c))
    && (forall c :: c in s.users ==> c < |s.conns|)
  }

  ghost predicate DistinctFds(s: Server) {
    forall c, d ::
      0 <= c < |s.conns| && 0 <= d < |s.conns| && Alive(s, c) && Alive(s, d) && s.conns[c].fd == s.conns[d].fd ==>
        c == d
  }

  // Every task with a bare pointer to c comes before the task that lets c go.
  ghost predicate BareFirst(p: seq<Task>, c: Conn) {
    forall i, j ::
      0 <= i < |p| && 0 <= j < |p| && p[i] == DestroyConnection(c) && p[j].Bare() && p[j].conn == c ==> j < i
  }

  ghost predicate NoBare(p: seq<Task>, c: Conn) {
    SendInLoop(c) !in p && ShutdownInLoop(c) !in p
  }

  // The life of one connection; home and base are what its loop and the base loop have still to run.
  ghost predicate Stage(i: Info, c: Conn, mapped: bool, home: seq<Task>, base: seq<Task>, left: nat, queued: nat) {
    match i.state
    case Connecting =>
      mapped && !i.registered && multiset(home)[ConnectComplete(c)] == 1 && left == 0 && queued == 0 &&
      RemoveConnection(c) !in base && DestroyConnection(c) !in home && ForceClose(c) !in home && NoBare(home, c)
    case Connected =>
      mapped && i.registered && !i.muted && left == 0 && queued == 0 &&
      ConnectComplete(c) !in home && RemoveConnection(c) !in base && DestroyConnection(c) !in home
    case Disconnecting =>
      mapped && i.registered && !i.muted && left == 0 && queued == 0 &&
      ConnectComplete(c) !in home && RemoveConnection(c) !in base && DestroyConnection(c) !in home
    case Disconnected =>
      ConnectComplete(c) !in home && i.muted &&
      if mapped then
        i.registered && left == 0 && queued == 0 && RemoveConnection(c) in base && DestroyConnection(c) !in home
      else
        left == 1 && queued == 1 &&
        multiset(home)[DestroyConnection(c)] == (if i.registered then 1 else 0) &&
        BareFirst(home, c) && (!i.registered ==> NoBare(home, c))
  }

  ghost predicate ConnInv(s: Server, c: Conn) {
    Known(s, c) &&
    Stage(s.conns[c], c, Mapped(s, c), s.loops[s.conns[c].loop].Pending(), s.loops[BASE].Pending(),
          s.left[c], s.queued[c])
  }

  // The invariant, but for the stage of x.
  ghost predicate InvBut(s: Server, x: int) {
    && WellFormed(s)
    && DistinctFds(s)
    && (forall c :: 0 <= c < |s.conns| && c != x ==> ConnInv(s, c))
    && (forall c: Conn :: c >= |s.conns| ==> s.left[c] == 0 && s.queued[c] == 0)
    && s.collisions == 0
    && s.wrongErasures == 0
  }

  ghost predicate Inv(s: Server) {
    InvBut(s, -1)
  }

  // c has been closed: its stage, but for the removal that is to be queued or run next.
  ghost predicate Closing(s: Server, c: Conn) {
    Known(s, c) && s.conns[c].state == Disconnected && Alive(s, c) &&
    (Mapped(s, c) ==> Stage(s.conns[c], c, true, s.loops[s.conns[c].loop].Pending(),
                            s.loops[BASE].Pending() + [RemoveConnection(c)], s.left[c], s.queued[c])) &&
    (!Mapped(s, c) ==> ConnInv(s, c))
  }

  // Tasks of other connections do not matter ----------------------------------------------

  lemma StageAppend(i: Info, c: Conn, mapped: bool, home: seq<Task>, base: seq<Task>, left: nat, queued: nat, t: Task)
    requires Stage(i, c, mapped, home, base, left, queued)
    ensures t.conn != c || t.RemoveConnection? || (t.ForceClose? && i.state != Connecting) ==>
              Stage(i, c, mapped, home + [t], base, left, queued)
    ensures t.conn != c || !t.RemoveConnection? ==> Stage(i, c, mapped, home, base + [t], left, queued)
    ensures t.Bare() && i.state in {Connected, Disconnecting} ==> Stage(i, c, mapped, home + [t], base, left, queued)
    ensures t == RemoveConnection(c) && i.state == Disconnected ==> Stage(i, c, mapped, home, base + [t], left, queued)
  {
  }

  lemma StageDrop(i: Info, c: Conn, mapped: bool, home: seq<Task>, base: seq<Task>, left: nat, queued: nat)
    requires Stage(i, c, mapped, home, base, left, queued)
    ensures home != [] && (home[0].conn != c || home[0].RemoveConnection? || home[0].ForceClose? || home[0].Bare()) ==>
              Stage(i, c, mapped, home[1..], base, left, queued)
    ensures base != [] && (base[0].conn != c || !base[0].RemoveConnection?) ==>
              Stage(i, c, mapped, home, base[1..], left, queued)
  {
    if home != [] { assert home == [home[0]] + home[1..]; }
    if base != [] { assert base == [base[0]] + base[1..]; }
  }

  // Lifetimes ------------------------------------------------------------------------------

  lemma MappedAlive(s: Server, c: Conn)
    requires WellFormed(s)
    ensures InMap(s, c) <==> Mapped(s, c)
    ensures Mapped(s, c) ==> Alive(s, c)
  {
  }

  lemma TaskAlive(s: Server, l: Loop, t: Task)
    requires l in s.loops && t in s.loops[l].Held() && !t.Bare()
    ensures Alive(s, t.conn)
  {
    assert HeldByTask(s, t.conn);
  }

  /** A channel in a poller belongs to a connection that somebody still owns. */
  lemma RegisteredAlive(s: Server, c: Conn)
    requires Inv(s) && c < |s.conns| && s.conns[c].registered
    ensures Alive(s, c)
    ensures Mapped(s, c) || DestroyConnection(c) in s.loops[s.conns[c].loop].Pending()
  {
    assert ConnInv(s, c);
    MappedAlive(s, c);
    if !Mapped(s, c) {
      var ls := s.loops[s.conns[c].loop];
      assert DestroyConnection(c) in ls.Pending();
      assert DestroyConnection(c) in ls.Held();
      TaskAlive(s, s.conns[c].loop, DestroyConnection(c));
    }
  }

  // Steps that only add to what a loop has to run -------------------------------------------

  lemma PushLoops(s: Server, l: Loop, t: Task)
    requires l in s.loops
    ensures forall k :: k in s.loops ==>
      Push(s, l, t).loops[k].Pending() == if k == l then s.loops[k].Pending() + [t] else s.loops[k].Pending()
    ensures forall k :: k in s.loops ==>
      Push(s, l, t).loops[k].Held() == if k == l then s.loops[k].Held() + [t] else s.loops[k].Held()
  {
    var ls, ls' := s.loops[l], Push(s, l, t).loops[l];
    assert ls'.Pending() == ls.Pending() + [t];
    assert ls'.Held() == ls.Held() + [t];
  }

  lemma PushAlive(s: Server, l: Loop, t: Task, c: Conn)
    requires l in s.loops
    requires Alive(s, t.conn) || t.Bare()
    ensures Alive(Push(s, l, t), c) <==> Alive(s, c)
  {
    var s' := Push(s, l, t);
    if HeldByTask(s, c) { PushHolds(s, l, t, c); }
    if HeldByTask(s', c) { PushHeld(s, l, t, c); }
  }

  lemma PushHolds(s: Server, l: Loop, t: Task, c: Conn)
    requires l in s.loops && HeldByTask(s, c)
    ensures HeldByTask(Push(s, l, t), c)
  {
    PushLoops(s, l, t);
    var k, u :| k in s.loops && u in s.loops[k].Held() && u.conn == c && !u.Bare();
    assert u in Push(s, l, t).loops[k].Held();
  }

  lemma PushHeld(s: Server, l: Loop, t: Task, c: Conn)
    requires l in s.loops && HeldByTask(Push(s, l, t), c)
    ensures HeldByTask(s, c) || (t.conn == c && !t.Bare())
  {
    PushLoops(s, l, t);
    var s' := Push(s, l, t);
    var k, u :| k in s'.loops && u in s'.loops[k].Held() && u.conn == c && !u.Bare();
    if k != l || u != t { assert u in s.loops[k].Held(); }
  }

  lemma PushWellFormed(s: Server, l: Loop, t: Task)
    requires WellFormed(s) && l in s.loops && WellPlaced(s, l, t)
    ensures WellFormed(Push(s, l, t))
  {
    var s' := Push(s, l, t);
    PushLoops(s, l, t);
    forall k, u | k in s'.loops && u in s'.loops[k].Held() ensures WellPlaced(s', k, u) {
      assert u in s.loops[k].Held() || (k == l && u == t);
      assert WellPlaced(s, k, u);
    }
    forall k, c: Conn | k in s'.loops && s'.loops[k].Watches(c)
      ensures WatchedHere(s', k, c)
    {
      assert s.loops[k].Watches(c);
      assert WatchedHere(s, k, c);
    }
  }

  // A task of another connection leaves c where it is.
  lemma PushOther(s: Server, l: Loop, t: Task, c: Conn)
    requires ConnInv(s, c) && l in s.loops && c != t.conn
    ensures ConnInv(Push(s, l, t), c)
  {
    PushLoops(s, l, t);
    var home, base := s.loops[s.conns[c].loop].Pending(), s.loops[BASE].Pending();
    StageAppend(s.conns[c], c, Mapped(s, c), home, base, s.left[c], s.queued[c], t);
    if s.conns[c].loop == l {
      StageAppend(s.conns[c], c, Mapped(s, c), home + [t], base, s.left[c], s.queued[c], t);
    }
  }

  lemma PushBase(s: Server, l: Loop, t: Task, x: int)
    requires InvBut(s, x) && l in s.loops && WellPlaced(s, l, t)
    requires Alive(s, t.conn) || t.Bare()
    requires x == -1 || x == t.conn
    ensures InvBut(Push(s, l, t), t.conn)
  {
    var s' := Push(s, l, t);
    PushWellFormed(s, l, t);
    forall c: Conn ensures Alive(s', c) <==> Alive(s, c) { PushAlive(s, l, t, c); }
    forall c | 0 <= c < |s.conns| && c != x && c != t.conn ensures ConnInv(s', c) {
      assert ConnInv(s, c);
      PushOther(s, l, t, c);
    }
  }

  // Closing --------------------------------------------------------------------------------

  lemma SetConnBase(s: Server, c: Conn, i: Info, x: int)
    requires InvBut(s, x) && c < |s.conns|
    requires i.fd == s.conns[c].fd && i.loop == s.conns[c].loop
    requires i.registered || forall l :: l in s.loops ==> !s.loops[l].Watches(c)
    ensures WellFormed(SetConn(s, c, i)) && DistinctFds(SetConn(s, c, i))
    ensures forall d: Conn :: Alive(SetConn(s, c, i), d) <==> Alive(s, d)
    ensures forall d :: 0 <= d < |s.conns| && d != x && d != c ==> ConnInv(SetConn(s, c, i), d)
  {
    var s' := SetConn(s, c, i);
    forall d: Conn ensures Alive(s', d) <==> Alive(s, d) {
      assert InMap(s', d) <==> InMap(s, d);
      assert HeldByTask(s', d) <==> HeldByTask(s, d);
    }
    forall k, u | k in s'.loops && u in s'.loops[k].Held() ensures WellPlaced(s', k, u) {
      assert u in s.loops[k].Held();
      assert WellPlaced(s, k, u);
    }
    forall k, d: Conn | k in s'.loops && s'.loops[k].Watches(d) ensures WatchedHere(s', k, d) {
      assert s.loops[k].Watches(d);
      assert WatchedHere(s, k, d);
    }
    forall d | 0 <= d < |s.conns| && d != x && d != c ensures ConnInv(s', d) {
      assert ConnInv(s, d);
    }
  }

  lemma QueueRemoval(s: Server, c: Conn)
    requires InvBut(s, c) && Closing(s, c)
    ensures Inv(Push(s, BASE, RemoveConnection(c)))
  {
    var t := RemoveConnection(c);
    var s' := Push(s, BASE, t);
    PushBase(s, BASE, t, c);
    PushLoops(s, BASE, t);
    var home, base := s.loops[s.conns[c].loop].Pending(), s.loops[BASE].Pending();
    if Mapped(s, c) {
      if s.conns[c].loop == BASE {
        StageAppend(s.conns[c], c, true, home, base + [t], s.left[c], s.queued[c], t);
      }
    } else {
      StageAppend(s.conns[c], c, false, home, base, s.left[c], s.queued[c], t);
      if s.conns[c].loop == BASE {
        StageAppend(s.conns[c], c, false, home, base + [t], s.left[c], s.queued[c], t);
      }
    }
  }

  // The entry under the descriptor of a living connection is its own.
  lemma OwnEntry(s: Server, c: Conn)
    requires WellFormed(s) && DistinctFds(s) && c < |s.conns| && Alive(s, c)
    ensures s.conns[c].fd in s.connections <==> Mapped(s, c)
  {
    if s.conns[c].fd in s.connections {
      MappedAlive(s, s.connections[s.conns[c].fd]);
    }
  }

  ghost function Erase(s: Server, c: Conn): Server
    requires Mapped(s, c)
  {
    s.(connections := s.connections - {s.conns[c].fd}, left := s.left + multiset{c}, queued := s.queued + multiset{c})
  }

  lemma EraseBase(s: Server, c: Conn)
    requires InvBut(s, c) && Mapped(s, c)
    ensures InvBut(Erase(s, c), c) && !Mapped(Erase(s, c), c)
  {
    var s' := Erase(s, c);
    forall d: Conn ensures Alive(s', d) ==> Alive(s, d) {
      assert InMap(s', d) ==> InMap(s, d);
      assert HeldByTask(s', d) ==> HeldByTask(s, d);
    }
    forall k, u | k in s'.loops && u in s'.loops[k].Held() ensures WellPlaced(s', k, u) {
      assert WellPlaced(s, k, u);
    }
    forall k, d: Conn | k in s'.loops && s'.loops[k].Watches(d) ensures WatchedHere(s', k, d) {
      assert WatchedHere(s, k, d);
    }
    forall d | 0 <= d < |s'.conns| && d != c ensures ConnInv(s', d) {
      assert ConnInv(s, d);
      assert Mapped(s', d) <==> Mapped(s, d);
    }
  }

  // Unmapped, with its last task queued behind every other task of its loop.
  lemma LetGo(i: Info, c: Conn, home: seq<Task>, base: seq<Task>, base': seq<Task>)
    requires i.state == Disconnected && Stage(i, c, true, home, base, 0, 0)
    ensures Stage(i, c, false, home + [DestroyConnection(c)], base', 1, 1)
  {
    assert multiset(home)[DestroyConnection(c)] == 0;
  }

  // What removing c's own entry amounts to.
  ghost function LetGoOf(s: Server, c: Conn): Server
    requires Known(s, c) && Mapped(s, c)
  {
    Erase(Push(s, s.conns[c].loop, DestroyConnection(c)), c)
  }

  lemma LetGoStage(s: Server, c: Conn)
    requires Closing(s, c) && Mapped(s, c)
    ensures ConnInv(LetGoOf(s, c), c)
  {
    var l, s' := s.conns[c].loop, LetGoOf(s, c);
    PushLoops(s, l, DestroyConnection(c));
    LetGo(s.conns[c], c, s.loops[l].Pending(), s.loops[BASE].Pending() + [RemoveConnection(c)],
          s'.loops[BASE].Pending());
  }

  lemma RemoveNow(s: Server, c: Conn)
    requires InvBut(s, c) && Closing(s, c)
    ensures Inv(RemoveConnectionInLoop(s, c))
  {
    OwnEntry(s, c);
    if Mapped(s, c) {
      var l, t := s.conns[c].loop, DestroyConnection(c);
      PushBase(s, l, t, c);
      EraseBase(Push(s, l, t), c);
      LetGoStage(s, c);
      assert LetGoOf(s, c) == RemoveConnectionInLoop(s, c);
    }
  }

  lemma CloseKeeps(s: Server, c: Conn)
    requires Inv(s) && c < |s.conns| && s.conns[c].registered
    ensures Inv(HandleClose(s, c))
  {
    assert ConnInv(s, c);
    RegisteredAlive(s, c);
    var i := s.conns[c].(state := Disconnected, registered := true, muted := true);
    var closed := SetConn(s, c, i);
    SetConnBase(s, c, i, -1);
    assert Closing(closed, c);
    if s.conns[c].loop == BASE { RemoveNow(closed, c); } else { QueueRemoval(closed, c); }
  }

  // Loops that move work about without adding any --------------------------------------------

  lemma LoopKeeps(s: Server, l: Loop, ls: LoopState)
    requires Inv(s) && l in s.loops
    requires ls.Pending() == s.loops[l].Pending() && |ls.current| <= 1
    requires forall t :: t in ls.Held() ==> t in s.loops[l].Held()
    requires forall c: Conn :: ls.Watches(c) ==> WatchedHere(s, l, c)
    ensures Inv(SetLoop(s, l, ls))
  {
    var s' := SetLoop(s, l, ls);
    forall d: Conn ensures Alive(s', d) ==> Alive(s, d) {
      assert InMap(s', d) ==> InMap(s, d);
      if HeldByTask(s', d) {
        var k, u :| k in s'.loops && u in s'.loops[k].Held() && u.conn == d && !u.Bare();
        assert u in s.loops[k].Held();
      }
    }
    forall k, u | k in s'.loops && u in s'.loops[k].Held() ensures WellPlaced(s', k, u) {
      assert u in s.loops[k].Held();
      assert WellPlaced(s, k, u);
    }
    forall k, d: Conn | k in s'.loops && s'.loops[k].Watches(d) ensures WatchedHere(s', k, d) {
      if k != l { assert s.loops[k].Watches(d); }
      assert WatchedHere(s, k, d);
    }
    forall d | 0 <= d < |s'.conns| && d != -1 ensures ConnInv(s', d) {
      assert ConnInv(s, d);
    }
  }

  lemma EventKeeps(s: Server, a: Action)
    requires Inv(s) && Enabled(s, a)
    requires a.Poll? || a.BeginEvent? || a.EndEvent? || a.SwapTasks? || a.EndTasks?
    ensures Inv(Next(s, a))
  {
    var l := a.loop;
    var ls, ls' := s.loops[l], Next(s, a).loops[l];
    if a.SwapTasks? { assert ls'.Pending() == ls.Pending(); }
    forall c: Conn | ls'.Watches(c) ensures WatchedHere(s, l, c) {
      if !a.Poll? { assert ls.Watches(c); }
    }
    LoopKeeps(s, l, ls');
  }

  lemma HandlerKeeps(s: Server, a: Action)
    requires Inv(s) && Enabled(s, a) && a.RunHandler?
    ensures Inv(Next(s, a))
  {
    var l := a.loop;
    var ls := s.loops[l];
    var ls' := ls.(todo := ls.todo[1..]);
    forall c: Conn | ls'.Watches(c) ensures WatchedHere(s, l, c) { assert ls.Watches(c); }
    LoopKeeps(s, l, ls');
    var c := ls.current[0];
    assert ls.Watches(c);
    assert WatchedHere(s, l, c);
    CloseKeeps(SetLoop(s, l, ls'), c);
  }

  // Running one task -------------------------------------------------------------------------

  ghost function Popped(s: Server, l: Loop): Server
    requires l in s.loops && s.loops[l].batch != []
  {
    var ls := s.loops[l];
    SetLoop(s, l, ls.(ran := ls.ran + [ls.batch[0]], batch := ls.batch[1..]))
  }

  lemma PopAlive(s: Server, l: Loop, d: Conn)
    requires l in s.loops && s.loops[l].batch != []
    ensures Popped(s, l).loops[l].Held() == s.loops[l].Held()
    ensures s.loops[l].Pending() == [s.loops[l].batch[0]] + Popped(s, l).loops[l].Pending()
    ensures Alive(Popped(s, l), d) <==> Alive(s, d)
  {
    var s1 := Popped(s, l);
    assert s.loops[l].Pending() == [s.loops[l].batch[0]] + s1.loops[l].Pending();
    assert s1.loops[l].Held() == s.loops[l].Held();
    assert InMap(s1, d) <==> InMap(s, d);
    if HeldByTask(s, d) {
      var k, u :| k in s.loops && u in s.loops[k].Held() && u.conn == d && !u.Bare();
      assert u in s1.loops[k].Held();
    }
    if HeldByTask(s1, d) {
      var k, u :| k in s1.loops && u in s1.loops[k].Held() && u.conn == d && !u.Bare();
      assert u in s.loops[k].Held();
    }
  }

  lemma PopOther(s: Server, l: Loop, d: Conn)
    requires l in s.loops && s.loops[l].batch != [] && d != s.loops[l].batch[0].conn
    requires ConnInv(s, d)
    ensures ConnInv(Popped(s, l), d)
  {
    PopAlive(s, l, d);
    var s1 := Popped(s, l);
    var i, m, home, base := s.conns[d], Mapped(s, d), s.loops[s.conns[d].loop].Pending(), s.loops[BASE].Pending();
    var home1, base1 := s1.loops[i.loop].Pending(), s1.loops[BASE].Pending();
    StageDrop(i, d, m, home, base, s.left[d], s.queued[d]);
    if i.loop == l { assert home1 == home[1..]; } else { assert home1 == home; }
    if l == BASE {
      assert base1 == base[1..];
      StageDrop(i, d, m, home1, base, s.left[d], s.queued[d]);
    }
  }

  lemma PopBase(s: Server, l: Loop)
    requires Inv(s) && l in s.loops && s.loops[l].batch != []
    ensures InvBut(Popped(s, l), s.loops[l].batch[0].conn)
  {
    var t := s.loops[l].batch[0];
    var s1 := Popped(s, l);
    forall d: Conn ensures Alive(s1, d) <==> Alive(s, d) { PopAlive(s, l, d); }
    PopAlive(s, l, 0);
    forall k, u | k in s1.loops && u in s1.loops[k].Held() ensures WellPlaced(s1, k, u) {
      assert u in s.loops[k].Held();
      assert WellPlaced(s, k, u);
    }
    forall k, d: Conn | k in s1.loops && s1.loops[k].Watches(d) ensures WatchedHere(s1, k, d) {
      assert s.loops[k].Watches(d);
      assert WatchedHere(s, k, d);
    }
    forall d | 0 <= d < |s1.conns| && d != t.conn ensures ConnInv(s1, d) {
      assert ConnInv(s, d);
      PopOther(s, l, d);
    }
  }

  // The stage of a connection whose task t is next to run in one of the two vectors.
  lemma StageRun(i: Info, c: Conn, m: bool, home: seq<Task>, base: seq<Task>, left: nat, queued: nat,
                 t: Task, home1: seq<Task>, base1: seq<Task>)
    requires Stage(i, c, m, home, base, left, queued) && t.conn == c
    requires if t.RemoveConnection? then base == [t] + base1 else home == [t] + home1
    requires home == home1 || home == [t] + home1
    requires base == base1 || base == [t] + base1
    ensures t.ForceClose? || t.Bare() ==> i.state != Connecting && Stage(i, c, m, home1, base1, left, queued)
    ensures t.RemoveConnection? ==> i.state == Disconnected
    ensures t.RemoveConnection? && m ==> Stage(i, c, true, home1, base1 + [t], left, queued)
    ensures t.RemoveConnection? && !m ==> Stage(i, c, false, home1, base1, left, queued)
    ensures t.ConnectComplete? ==>
              Stage(i.(state := Connected, registered := true, muted := false), c, m, home1, base1, left, queued)
    ensures t.DestroyConnection? ==>
              i.state == Disconnected && i.registered && !m &&
              Stage(i.(registered := false), c, m, home1, base1, left, queued)
  {
    if home == [t] + home1 { assert home1 == home[1..]; assert t in home; }
    if base == [t] + base1 { assert base1 == base[1..]; assert t in base; }
    StageDrop(i, c, m, home, base, left, queued);
    if t.DestroyConnection? { assert home[0] == t; }
  }

  // The task that runs, its connection's stage, and the two vectors before and after.
  lemma PopOwn(s: Server, l: Loop)
    requires Inv(s) && l in s.loops && s.loops[l].batch != []
    ensures var t := s.loops[l].batch[0]; var s1 := Popped(s, l);
      && ConnInv(s, t.conn) && WellPlaced(s, l, t) && (t.Bare() || Alive(s, t.conn))
      && (forall k :: k in s.loops ==>
           s.loops[k].Pending() == if k == l then [t] + s1.loops[k].Pending() else s1.loops[k].Pending())
  {
    var t := s.loops[l].batch[0];
    PopAlive(s, l, t.conn);
    assert t in s.loops[l].Pending();
    assert t in s.loops[l].Held();
    assert WellPlaced(s, l, t);
    if !t.Bare() { TaskAlive(s, l, t); }
  }

  // Stage of connection c in s, had it the fields i.
  ghost predicate StageAs(s: Server, c: Conn, i: Info) {
    Known(s, c) && i.loop == s.conns[c].loop && i.fd == s.conns[c].fd &&
    Stage(i, c, Mapped(s, c), s.loops[i.loop].Pending(), s.loops[BASE].Pending(), s.left[c], s.queued[c])
  }

  lemma Ready(s: Server, l: Loop)
    requires Inv(s) && l in s.loops && s.loops[l].batch != [] && s.loops[l].batch[0].conn < |s.conns|
    ensures var t := s.loops[l].batch[0]; var c := t.conn; var s1 := Popped(s, l); var i := s.conns[c];
      && WellPlaced(s, l, t)
      && (t.ForceClose? || t.Bare() ==> i.state != Connecting && StageAs(s1, c, i))
      && (t.RemoveConnection? ==> Closing(s1, c))
      && (t.ConnectComplete? ==> StageAs(s1, c, i.(state := Connected, registered := true, muted := false)))
      && (t.DestroyConnection? ==> i.state == Disconnected && i.registered && StageAs(s1, c, i.(registered := false)))
  {
    var t := s.loops[l].batch[0];
    var c, s1 := t.conn, Popped(s, l);
    var i := s.conns[c];
    PopOwn(s, l);
    PopAlive(s, l, c);
    PopStage(s, l, t, c, s1, i);
  }

  lemma PopStage(s: Server, l: Loop, t: Task, c: Conn, s1: Server, i: Info)
    requires l in s.loops && s.loops[l].batch != [] && t == s.loops[l].batch[0] && c == t.conn && s1 == Popped(s, l)
    requires ConnInv(s, c) && i == s.conns[c] && WellPlaced(s, l, t) && (t.Bare() || Alive(s1, c))
    requires forall k :: k in s.loops ==>
      s.loops[k].Pending() == if k == l then [t] + s1.loops[k].Pending() else s1.loops[k].Pending()
    ensures t.ForceClose? || t.Bare() ==> i.state != Connecting && StageAs(s1, c, i)
    ensures t.RemoveConnection? ==> Closing(s1, c)
    ensures t.ConnectComplete? ==> StageAs(s1, c, i.(state := Connected, registered := true, muted := false))
    ensures t.DestroyConnection? ==>
      i.state == Disconnected && i.registered && StageAs(s1, c, i.(registered := false))
  {
    StageRun(i, c, Mapped(s, c), s.loops[i.loop].Pending(), s.loops[BASE].Pending(), s.left[c], s.queued[c],
             t, s1.loops[i.loop].Pending(), s1.loops[BASE].Pending());
  }

  lemma SetOwn(s: Server, c: Conn, i: Info)
    requires InvBut(s, c) && StageAs(s, c, i)
    requires i.registered || forall l :: l in s.loops ==> !s.loops[l].Watches(c)
    ensures Inv(SetConn(s, c, i))
  {
    SetConnBase(s, c, i, c);
    assert ConnInv(SetConn(s, c, i), c);
  }

  lemma RunTaskKeeps(s: Server, a: Action)
    requires Inv(s) && Enabled(s, a) && a.RunTask?
    ensures Inv(Next(s, a))
  {
    var l := a.loop;
    var t := s.loops[l].batch[0];
    var c, s1 := t.conn, Popped(s, l);
    var i := s.conns[c];
    PopBase(s, l);
    Ready(s, l);
    if t.ConnectComplete? {
      SetOwn(s1, c, i.(state := Connected, registered := true, muted := false));
    } else if t.RemoveConnection? {
      RemoveNow(s1, c);
    } else if t.DestroyConnection? {
      forall k | k in s1.loops ensures !s1.loops[k].Watches(c) {
        assert k == l || !WatchedHere(s1, k, c);
      }
      SetOwn(s1, c, i.(registered := false));
    } else {
      assert ConnInv(s1, c);
      if t.ForceClose? && i.state != Disconnected { CloseKeeps(s1, c); }
      if t.SendInLoop? && i.state != Disconnected { assert s1.conns[c := i] == s1.conns; }
    }
  }

  // New connections ------------------------------------------------------------------------------

  // The state in which the new connection owns its map entry and nothing else knows it.
  ghost function Added(s: Server, fd: int, l: Loop): Server {
    s.(conns := s.conns + [Info(fd, l, Connecting, false, false)], connections := s.connections[fd := |s.conns|])
  }

  lemma AddedBase(s: Server, fd: int, l: Loop)
    requires Inv(s) && Enabled(s, Accept(fd, l))
    ensures fd !in s.connections
    ensures InvBut(Added(s, fd, l), |s.conns|)
  {
    var s' := Added(s, fd, l);
    var n := |s.conns|;
    if fd in s.connections { MappedAlive(s, s.connections[fd]); }
    forall d: Conn ensures Alive(s', d) ==> d == n || Alive(s, d) {
      assert InMap(s', d) ==> d == n || InMap(s, d);
      assert HeldByTask(s', d) ==> HeldByTask(s, d);
    }
    forall k, u | k in s'.loops && u in s'.loops[k].Held() ensures WellPlaced(s', k, u) {
      assert WellPlaced(s, k, u);
    }
    forall k, d: Conn | k in s'.loops && s'.loops[k].Watches(d) ensures WatchedHere(s', k, d) {
      assert WatchedHere(s, k, d);
    }
    forall d | 0 <= d < |s'.conns| && d != n ensures ConnInv(s', d) {
      assert ConnInv(s, d);
      assert s.conns[d] == s'.conns[d];
      assert Mapped(s', d) <==> Mapped(s, d);
    }
  }

  lemma NoTasks(s: Server, c: Conn, l: Loop)
    requires WellFormed(s) && c >= |s.conns| && l in s.loops
    ensures forall t :: t in s.loops[l].Pending() ==> t.conn != c
  {
    forall t | t in s.loops[l].Pending() ensures t.conn != c {
      assert t in s.loops[l].Held();
      assert WellPlaced(s, l, t);
    }
  }

  lemma AcceptKeeps(s: Server, a: Action)
    requires Inv(s) && Enabled(s, a) && a.Accept?
    ensures Inv(Next(s, a))
  {
    var n, l := |s.conns|, a.loop;
    var s1 := Added(s, a.fd, l);
    AddedBase(s, a.fd, l);
    NoTasks(s, n, l);
    NoTasks(s, n, BASE);
    MappedAlive(s1, n);
    if l == BASE {
      SetOwn(s1, n, Info(a.fd, l, Connected, true, false));
    } else {
      PushBase(s1, l, ConnectComplete(n), n);
      FirstTask(s1, l, n);
    }
  }

  // A connection that nothing knows starts with the task that completes it.
  lemma FirstTask(s: Server, l: Loop, n: Conn)
    requires Known(s, n) && s.conns[n] == Info(s.conns[n].fd, l, Connecting, false, false) && Mapped(s, n) && l != BASE
    requires (forall t :: t in s.loops[l].Pending() ==>
        t.conn != n) && forall t :: t in s.loops[BASE].Pending() ==> t.conn != n
    requires s.left[n] == 0 && s.queued[n] == 0
    ensures ConnInv(Push(s, l, ConnectComplete(n)), n)
  {
    PushLoops(s, l, ConnectComplete(n));
    assert multiset(s.loops[l].Pending())[ConnectComplete(n)] == 0;
  }

  // User calls -------------------------------------------------------------------------------------

  lemma SetStateKeeps(s: Server, c: Conn)
    requires Inv(s) && c < |s.conns| && s.conns[c].state in {Connected, Disconnecting}
    ensures Inv(SetConn(s, c, s.conns[c].(state := Disconnecting)))
    ensures Alive(SetConn(s, c, s.conns[c].(state := Disconnecting)), c)
  {
    assert ConnInv(s, c);
    var i := s.conns[c].(state := Disconnecting);
    RegisteredAlive(s, c);
    SetConnBase(s, c, i, -1);
    assert ConnInv(SetConn(s, c, i), c);
  }

  lemma PushKeeps(s: Server, l: Loop, t: Task)
    requires Inv(s) && l in s.loops && WellPlaced(s, l, t) && Alive(s, t.conn)
    requires t.Bare() || t.ForceClose?
    requires s.conns[t.conn].state in {Connected, Disconnecting}
    ensures Inv(Push(s, l, t))
  {
    var c := t.conn;
    assert ConnInv(s, c);
    PushBase(s, l, t, -1);
    PushLoops(s, l, t);
    var i, home, base := s.conns[c], s.loops[l].Pending(), s.loops[BASE].Pending();
    StageAppend(i, c, Mapped(s, c), home, base, s.left[c], s.queued[c], t);
    if l == BASE { StageAppend(i, c, Mapped(s, c), home + [t], base, s.left[c], s.queued[c], t); }
    assert ConnInv(Push(s, l, t), c);
  }

  lemma UserKeeps(s: Server, a: Action)
    requires Inv(s) && Enabled(s, a)
    requires a.UserSend? || a.UserShutdown? || a.UserForceClose?
    ensures Inv(Next(s, a))
  {
    var c := a.conn;
    var l := s.conns[c].loop;
    assert ConnInv(s, c);
    if s.conns[c].state != Disconnected {
      if a.UserSend? {
        if a.inLoop { assert s.conns[c := s.conns[c]] == s.conns; }
        else if s.conns[c].state == Connected { PushKeeps(s, l, SendInLoop(c)); }
      } else {
        SetStateKeeps(s, c);
        var s1 := SetConn(s, c, s.conns[c].(state := Disconnecting));
        assert ConnInv(s1, c);
        if a.UserShutdown? && !a.inLoop { PushKeeps(s1, l, ShutdownInLoop(c)); }
        if a.UserForceClose? && !a.inLoop { PushKeeps(s1, l, ForceClose(c)); }
        if a.UserForceClose? && a.inLoop { CloseKeeps(s1, c); }
      }
    }
  }

  lemma OwnershipKeeps(s: Server, a: Action)
    requires Inv(s) && Enabled(s, a) && (a.UserAcquire? || a.UserRelease?)
    ensures Inv(Next(s, a))
  {
    var s' := Next(s, a);
    forall d: Conn ensures Alive(s', d) ==> Alive(s, d) {
      assert InMap(s', d) ==> InMap(s, d);
      assert HeldByTask(s', d) ==> HeldByTask(s, d);
    }
    forall k, u | k in s'.loops && u in s'.loops[k].Held() ensures WellPlaced(s', k, u) {
      assert WellPlaced(s, k, u);
    }
    forall k, d: Conn | k in s'.loops && s'.loops[k].Watches(d) ensures WatchedHere(s', k, d) {
      assert WatchedHere(s, k, d);
    }
    forall d | 0 <= d < |s'.conns| && d != -1 ensures ConnInv(s', d) { assert ConnInv(s, d); }
  }

  /** Every step of every thread keeps the invariant. */
  lemma StepKeeps(s: Server, a: Action)
    requires Inv(s) && Enabled(s, a)
    ensures Inv(Next(s, a))
  {
    match a {
      case Accept(_, _) => AcceptKeeps(s, a);
      case RunHandler(_, _) => HandlerKeeps(s, a);
      case RunTask(_) => RunTaskKeeps(s, a);
      case UserSend(_, _) => UserKeeps(s, a);
      case UserShutdown(_, _) => UserKeeps(s, a);
      case UserForceClose(_, _) => UserKeeps(s, a);
      case UserAcquire(_) => OwnershipKeeps(s, a);
      case UserRelease(_) => OwnershipKeeps(s, a);
      case _ => EventKeeps(s, a);
    }
  }

  lemma {:induction false} RunKeeps(s: Server, run: seq<Action>)
    requires Inv(s) && IsRun(s, run)
    ensures Inv(After(s, run))
    decreases |run|
  {
    if run != [] {
      StepKeeps(s, run[0]);
      RunKeeps(Next(s, run[0]), run[1..]);
    }
  }

  lemma InitialInv(s: Server)
    requires Initial(s)
    ensures Inv(s)
  {
    forall c: Conn ensures !Alive(s, c) {
      assert !InMap(s, c);
      assert !HeldByTask(s, c);
    }
  }

  // What users of the protocol rely on -----------------------------------------------------------

  // No poller, no event being handled and no task yet to run reaches a freed connection.
  ghost predicate NothingDangles(s: Server) {
    && (forall c :: 0 <= c < |s.conns| && s.conns[c].registered ==>
          s.conns[c].loop in s.loops && Alive(s, c) && (InMap(s, c) ||
              DestroyConnection(c) in s.loops[s.conns[c].loop].Pending()))
    && (forall l, c: Conn :: l in s.loops && s.loops[l].Watches(c) ==> Alive(s, c))
    && (forall l, t :: l in s.loops && t in s.loops[l].Pending() ==> Alive(s, t.conn))
  }

  // Each connection leaves the map, and has its destruction queued, at most once, and by its own hand.
  ghost predicate RemovedOnce(s: Server) {
    && (forall c: Conn :: s.left[c] == s.queued[c] <= 1)
    && s.collisions == 0 && s.wrongErasures == 0
  }

  lemma PendingAlive(s: Server, l: Loop, t: Task)
    requires Inv(s) && l in s.loops && t in s.loops[l].Pending()
    ensures Alive(s, t.conn)
  {
    assert t in s.loops[l].Held();
    assert WellPlaced(s, l, t);
    if t.Bare() {
      assert ConnInv(s, t.conn);
      RegisteredAlive(s, t.conn);
    } else {
      TaskAlive(s, l, t);
    }
  }

  lemma InvDangles(s: Server)
    requires Inv(s)
    ensures NothingDangles(s)
  {
    forall c | 0 <= c < |s.conns| && s.conns[c].registered
      ensures s.conns[c].loop in s.loops && Alive(s, c)
      ensures InMap(s, c) || DestroyConnection(c) in s.loops[s.conns[c].loop].Pending()
    {
      RegisteredAlive(s, c);
      MappedAlive(s, c);
    }
    forall l, c: Conn | l in s.loops && s.loops[l].Watches(c) ensures Alive(s, c) {
      assert WatchedHere(s, l, c);
      RegisteredAlive(s, c);
    }
    forall l, t | l in s.loops && t in s.loops[l].Pending() ensures Alive(s, t.conn) {
      PendingAlive(s, l, t);
    }
  }

  lemma InvRemovedOnce(s: Server)
    requires Inv(s)
    ensures RemovedOnce(s)
  {
    forall c: Conn ensures s.left[c] == s.queued[c] <= 1 {
      if c < |s.conns| { assert ConnInv(s, c); }
    }
  }

  /** Safety of every interleaving: nothing dangles, and every connection is torn down once. */
  lemma Safety(s: Server, run: seq<Action>)
    requires Initial(s) && IsRun(s, run)
    ensures NothingDangles(After(s, run)) && RemovedOnce(After(s, run)) && DistinctFds(After(s, run))
  {
    InitialInv(s);
    RunKeeps(s, run);
    InvDangles(After(s, run));
    InvRemovedOnce(After(s, run));
  }

  /** destroyConnection always finds its connection closed by handleClose and still in the poller:
      its test for a connected state never holds, and the removal always finds the channel. */
  lemma DestroyFindsClosed(s: Server, run: seq<Action>, l: Loop)
    requires Initial(s) && IsRun(s, run) && Enabled(After(s, run), RunTask(l))
    requires After(s, run).loops[l].batch[0].DestroyConnection?
    ensures var i := After(s, run).conns[After(s, run).loops[l].batch[0].conn];
      i.loop == l && i.state == Disconnected && i.registered && i.muted
  {
    InitialInv(s);
    RunKeeps(s, run);
    var t := After(s, run).loops[l].batch[0];
    PopOwn(After(s, run), l);
    Ready(After(s, run), l);
    assert ConnInv(After(s, run), t.conn);
  }

  /** Nothing leaks: once no loop has work left, a closed connection is out of the map and out of its
      poller, and only user code can keep it; every other connection is in both. */
  lemma NoLeak(s: Server, run: seq<Action>, c: Conn)
    requires Initial(s) && IsRun(s, run) && c < |After(s, run).conns|
    requires forall l :: l in After(s, run).loops ==> After(s, run).loops[l] == IDLE
    ensures var e := After(s, run);
      if e.conns[c].state == Disconnected then
        !InMap(e, c) && !e.conns[c].registered && (Alive(e, c) <==> c in e.users) && e.queued[c] == 1
      else
        e.conns[c].state != Connecting && InMap(e, c) && e.conns[c].registered && !e.conns[c].muted
  {
    InitialInv(s);
    RunKeeps(s, run);
    var e := After(s, run);
    assert ConnInv(e, c);
    MappedAlive(e, c);
    assert !HeldByTask(e, c);
  }
}
