// A run of the server that brings a poller down: two connections of one loop hang up at once.
module ServerCrash {
  import opened Channels
  import opened ConnectionStates
  import opened ServerProtocol
  import opened ServerPollers

  // The server of one loop with connections 0 and 1.
  const TWO_UP := [Info(7, BASE, Connected, true, false), Info(8, BASE, Connected, true, false)]

  function OneLoop(conns: seq<Info>, connections: map<int, Conn>, l: LoopState, gone: multiset<Conn>): Server {
    Server(conns, connections, map[BASE := l], {}, gone, gone, 0, 0)
  }

  const START := OneLoop([], map[], IDLE, multiset{})

  // A run from the start, with what it has the poller do.
  datatype Trace = Trace(run: seq<Action>, ops: seq<seq<P.Op>>)

  // The trace leads to s, and has had the poller do all.
  ghost predicate Leads(tr: Trace, s: Server, all: seq<P.Op>) {
    IsRun(START, tr.run) && After(START, tr.run) == s && Issued(START, tr.run, BASE, tr.ops) && Flat(tr.ops) == all
  }

  lemma {:induction false} RunLast(s: Server, tr: Trace, a: Action, ops: seq<P.Op>)
    requires IsRun(s, tr.run) && Issued(s, tr.run, BASE, tr.ops)
    requires Enabled(After(s, tr.run), a) && Issues(After(s, tr.run), a, BASE, ops)
    ensures IsRun(s, tr.run + [a]) && After(s, tr.run + [a]) == Next(After(s, tr.run), a)
    ensures Issued(s, tr.run + [a], BASE, tr.ops + [ops])
    decreases |tr.run|
  {
    if tr.run == [] {
      assert [] + [a] == [a] && [a][1..] == [] && [] + [ops] == [ops] && [ops][1..] == [];
    } else {
      var rest := Trace(tr.run[1..], tr.ops[1..]);
      assert (tr.run + [a])[1..] == rest.run + [a] && (tr.ops + [ops])[1..] == rest.ops + [ops];
      RunLast(Next(s, tr.run[0]), rest, a, ops);
    }
  }

  lemma {:induction false} FlatLast(all: seq<seq<P.Op>>, ops: seq<P.Op>)
    ensures Flat(all + [ops]) == Flat(all) + ops
  {
    if all == [] {
      assert [] + [ops] == [ops] && [ops][1..] == [];
    } else {
      assert (all + [ops])[1..] == all[1..] + [ops];
      FlatLast(all[1..], ops);
    }
  }

  lemma Step(tr: Trace, s: Server, all: seq<P.Op>, a: Action, ops: seq<P.Op>) returns (next: Trace)
    requires Leads(tr, s, all) && Enabled(s, a) && Issues(s, a, BASE, ops)
    ensures Leads(next, Next(s, a), all + ops)
  {
    RunLast(START, tr, a, ops);
    FlatLast(tr.ops, ops);
    next := Trace(tr.run + [a], tr.ops + [ops]);
  }

  const BOTH_SET := [P.Set(7, READ_EVENT), P.Set(8, READ_EVENT)]

  lemma BothAccepted() returns (tr: Trace)
    ensures Leads(tr, OneLoop(TWO_UP, map[7 := 0, 8 := 1], IDLE, multiset{}), BOTH_SET)
  {
    var s1 := Next(START, Accept(7, BASE));
    assert s1 == OneLoop([TWO_UP[0]], map[7 := 0], IDLE, multiset{});
    assert Enabled(s1, Accept(8, BASE));
    assert Next(s1, Accept(8, BASE)) == OneLoop(TWO_UP, map[7 := 0, 8 := 1], IDLE, multiset{});
    tr := Step(Trace([], []), START, [], Accept(7, BASE), [P.Set(7, READ_EVENT)]);
    assert [] + [P.Set(7, READ_EVENT)] == [P.Set(7, READ_EVENT)];
    tr := Step(tr, s1, [P.Set(7, READ_EVENT)], Accept(8, BASE), [P.Set(8, READ_EVENT)]);
    assert [P.Set(7, READ_EVENT)] + [P.Set(8, READ_EVENT)] == BOTH_SET;
  }

  function Closed(i: Info): Info {
    i.(state := Disconnected, muted := true)
  }

  // The connection at the front of those reported is closed, and its removal queued.
  function HangUp(s: Server, c: Conn): Server
    requires c < |s.conns| && BASE in s.loops && s.loops[BASE].active != []
  {
    var l := s.loops[BASE];
    s.(conns := s.conns[c := Closed(s.conns[c])], connections := s.connections - {s.conns[c].fd},
       loops := map[BASE := l.(active := l.active[1..], queue := l.queue + [DestroyConnection(c)])],
       left := s.left + multiset{c}, queued := s.queued + multiset{c})
  }

  // One loop, in front of the event of c.
  ghost predicate Reported(s: Server, c: Conn) {
    && BASE in s.loops && s.loops == map[BASE := s.loops[BASE]]
    && var l := s.loops[BASE];
    && l.active != [] && l.active[0] == c && l.current == [] && l.todo == []
    && c < |s.conns| && s.conns[c].loop == BASE && s.conns[c].registered
    && s.conns[c].fd in s.connections && s.connections[s.conns[c].fd] == c
  }

  lemma HungUp(s: Server, c: Conn, tr: Trace, all: seq<P.Op>) returns (next: Trace)
    requires Reported(s, c) && Leads(tr, s, all)
    ensures Leads(next, HangUp(s, c), all + [P.Set(s.conns[c].fd, NONE_EVENT)])
  {
    var l := s.loops[BASE];
    var ops := [P.Set(s.conns[c].fd, NONE_EVENT)];
    assert all + [] == all && all + ops + [] == all + ops;
    var s1 := Next(s, BeginEvent(BASE, POLLHUP));
    assert Dispatch(POLLHUP) == [OnClose];
    assert s1.loops[BASE] == l.(active := l.active[1..], current := [c], todo := [OnClose]);
    next := Step(tr, s, all, BeginEvent(BASE, POLLHUP), []);
    var s2 := Next(s1, RunHandler(BASE, false));
    assert [OnClose][1..] == [];
    assert s2.loops[BASE] ==
           l.(active := l.active[1..], current := [c], todo := [], queue := l.queue + [DestroyConnection(c)]);
    next := Step(next, s1, all, RunHandler(BASE, false), ops);
    var s3 := Next(s2, EndEvent(BASE));
    assert s3.loops == map[BASE := l.(active := l.active[1..], queue := l.queue + [DestroyConnection(c)])];
    next := Step(next, s2, all + ops, EndEvent(BASE), []);
  }

  const POLLED := OneLoop(TWO_UP, map[7 := 0, 8 := 1], IDLE.(active := [0, 1]), multiset{})

  const ONE_CLOSED :=
    OneLoop([Closed(TWO_UP[0]), TWO_UP[1]], map[8 := 1],
            IDLE.(active := [1], queue := [DestroyConnection(0)]), multiset{0})

  const BOTH_CLOSED :=
    OneLoop([Closed(TWO_UP[0]), Closed(TWO_UP[1])], map[],
            IDLE.(queue := [DestroyConnection(0), DestroyConnection(1)]), multiset{0, 1})

  const ALL_SET := BOTH_SET + [P.Set(7, NONE_EVENT)] + [P.Set(8, NONE_EVENT)]

  lemma FirstHungUp()
    ensures HangUp(POLLED, 0) == ONE_CLOSED
  {
    assert [0, 1][1..] == [1];
    assert map[7 := 0, 8 := 1] - {7} == map[8 := 1];
    assert [] + [DestroyConnection(0)] == [DestroyConnection(0)];
  }

  lemma SecondHungUp()
    ensures HangUp(ONE_CLOSED, 1) == BOTH_CLOSED
  {
    assert [1][1..] == [];
    assert map[8 := 1] - {8} == map[];
    assert [DestroyConnection(0)] + [DestroyConnection(1)] == [DestroyConnection(0), DestroyConnection(1)];
  }

  /** The protocol does mute two channels of one loop before it removes the first: hang-ups reported by one
      call of poll are all handled before any task runs. */
  lemma BothMuted() returns (tr: Trace)
    ensures Initial(START) && Leads(tr, BOTH_CLOSED, ALL_SET)
  {
    tr := BothAccepted();
    var s0 := OneLoop(TWO_UP, map[7 := 0, 8 := 1], IDLE, multiset{});
    assert Next(s0, Poll(BASE, [0, 1])) == POLLED;
    assert BOTH_SET + [] == BOTH_SET;
    tr := Step(tr, s0, BOTH_SET, Poll(BASE, [0, 1]), []);
    tr := HungUp(POLLED, 0, tr, BOTH_SET);
    FirstHungUp();
    tr := HungUp(ONE_CLOSED, 1, tr, BOTH_SET + [P.Set(7, NONE_EVENT)]);
    SecondHungUp();
  }

  /** And then the first of the two destructions brings the poller down, whatever the loop has registered
      before: there is a run of the server whose poller operations end in the missing channel. */
  lemma GoesDown(t: P.Table) returns (tr: Trace)
    requires P.Bijective(t) && 7 !in t.index && 8 !in t.index
    ensures Initial(START) && IsRun(START, tr.run) && Issued(START, tr.run, BASE, tr.ops)
    ensures P.Run(t, Flat(tr.ops)).Down?
  {
    tr := BothMuted();
    var swapped := Next(BOTH_CLOSED, SwapTasks(BASE));
    assert ALL_SET + [] == ALL_SET;
    tr := Step(tr, BOTH_CLOSED, ALL_SET, SwapTasks(BASE), []);
    assert swapped.loops[BASE].batch == [DestroyConnection(0), DestroyConnection(1)];
    tr := Step(tr, swapped, ALL_SET, RunTask(BASE), [P.Drop(7)]);
    P.CloseTogether(t, 7, 8);
    assert ALL_SET + [P.Drop(7)] ==
      [P.Set(7, READ_EVENT), P.Set(8, READ_EVENT), P.Set(7, NONE_EVENT), P.Set(8, NONE_EVENT), P.Drop(7)];
  }
}
