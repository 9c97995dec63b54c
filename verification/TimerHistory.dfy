// What has fired over a whole run: every callback that ran is on record, a one-shot timer is stored until it
// has fired, and a deleted timer does not fire again.
module TimerHistory {
  import opened TimerQueues
  import opened TimerSafety

  // The log holds every firing of every timer, and no other.
  ghost predicate Logged(s: State) {
    forall t: nat :: multiset(s.log)[t] == Get(s, t).fired
  }

  // A one-shot timer waits, in the map or among those about to run, or has fired, once.
  ghost predicate OnceOk(s: State, due: seq<Entry>) {
    forall t: nat :: t < |s.timers| && s.timers[t].duration == 0 ==>
      s.timers[t].fired == if t in Names(s.once) || t in Names(due) then 0 else 1
  }

  ghost predicate History(s: State, due: seq<Entry>) {
    Logged(s) && OnceOk(s, due)
  }

  // Adding and running -----------------------------------------------------------------------------------

  lemma CreateStores(s: State, n: New)
    ensures Created(s, Create(s, n), n)
  {
  }

  lemma InsertIn(es: seq<Entry>, e: Entry, t: nat)
    ensures t in Names(Insert(es, e)) <==> t == e.timer || t in Names(es)
  {
    InsertNames(es, e);
    assert multiset(Names(Insert(es, e)))[t] == multiset(Names(es))[t] + multiset{e.timer}[t];
  }

  lemma CreateHistory(s: State, n: New, due: seq<Entry>)
    requires History(s, due)
    ensures History(Create(s, n), due)
  {
    CreateStores(s, n);
    var r, e := Create(s, n), Entry(n.expiration, |s.timers|);
    assert forall t: nat :: Get(r, t).fired == Get(s, t).fired;
    forall t: nat | t < |r.timers| && r.timers[t].duration == 0
      ensures r.timers[t].fired == if t in Names(r.once) || t in Names(due) then 0 else 1
    {
      InsertIn(s.once, e, t);
      if t < |s.timers| { assert r.timers[t] == s.timers[t]; }
    }
  }

  lemma {:induction false} CreateAllHistory(s: State, ns: seq<New>, due: seq<Entry>)
    requires History(s, due)
    ensures History(CreateAll(s, ns), due)
    decreases |ns|
  {
    if ns != [] {
      CreateHistory(s, ns[0], due);
      CreateAllHistory(Create(s, ns[0]), ns[1..], due);
    }
  }

  lemma ExecLogs(s: State, t: nat)
    requires Logged(s) && t < |s.timers|
    ensures Logged(Exec(s, t))
  {
    var r := Exec(s, t);
    forall x: nat ensures multiset(r.log)[x] == Get(r, x).fired { assert multiset(s.log)[x] == Get(s, x).fired; }
  }

  // The first of the one-shot timers about to run does.
  lemma ExecOneHistory(s: State, due: seq<Entry>)
    requires History(s, due) && Core(s, []) && MapOk(s, due, false) && due != []
    requires forall i :: 0 <= i < |due| ==> due[i].timer !in Names(s.once)
    ensures History(Exec(s, due[0].timer), due[1..])
  {
    assert EntryOk(s, due[0], false);
    ExecLogs(s, due[0].timer);
    assert Names(due) == [due[0].timer] + Names(due[1..]);
    assert due[0].timer !in Names(due[1..]);
  }

  // Those about to run are out of the map.
  ghost predicate Out(s: State, due: seq<Entry>) {
    MapOk(s, due, false) && forall i :: 0 <= i < |due| ==> due[i].timer !in Names(s.once)
  }

  lemma {:induction false} CreateAllOut(s: State, ns: seq<New>, due: seq<Entry>)
    requires Core(s, []) && Out(s, due)
    ensures Core(CreateAll(s, ns), []) && Out(CreateAll(s, ns), due)
    decreases |ns|
  {
    if ns != [] {
      var r := Create(s, ns[0]);
      CreateKeeps(s, ns[0], []);
      MapSame(s, r, due, false);
      forall i | 0 <= i < |due| ensures due[i].timer !in Names(r.once) {
        assert EntryOk(s, due[i], false);
        InsertIn(s.once, Entry(ns[0].expiration, |s.timers|), due[i].timer);
      }
      CreateAllOut(r, ns[1..], due);
    }
  }

  lemma ExecOut(s: State, due: seq<Entry>)
    requires Core(s, []) && Out(s, due) && due != []
    ensures Core(Exec(s, due[0].timer), []) && Out(Exec(s, due[0].timer), due[1..])
  {
    assert EntryOk(s, due[0], false);
    ExecKeeps(s, due[0].timer, []);
    MapSlice(s, due, false, 1, |due|);
    assert due[1..|due|] == due[1..];
    MapSame(s, Exec(s, due[0].timer), due[1..], false);
  }

  lemma {:induction false} ExecOnceHistory(s: State, due: seq<Entry>, script: seq<seq<New>>)
    requires History(s, due) && Core(s, []) && Out(s, due)
    ensures History(ExecOnce(s, due, script), [])
    decreases |due|
  {
    if due != [] {
      var ran := Exec(s, due[0].timer);
      ExecOneHistory(s, due);
      ExecOut(s, due);
      CreateAllHistory(ran, Head(script), due[1..]);
      CreateAllOut(ran, Head(script), due[1..]);
      ExecOnceHistory(CreateAll(ran, Head(script)), due[1..], Tail(script));
    }
  }

  // The walk -----------------------------------------------------------------------------------------------

  lemma {:induction false} CreateAllUnderIs(c: Cursor, ns: seq<New>)
    ensures CreateAllUnder(c, ns).state == CreateAll(c.state, ns) && CreateAllUnder(c, ns).update == c.update
    decreases |ns|
  {
    if ns != [] { CreateAllUnderIs(CreateUnder(c, ns[0]), ns[1..]); }
  }

  // A turn is a callback and what it adds.
  lemma TurnIs(c: Cursor, adds: seq<New>)
    requires c.at < |c.state.repeated|
    ensures var t := c.state.repeated[c.at].timer;
      Turn(c, adds).state == CreateAll(Exec(c.state, t), adds) && Turn(c, adds).update == c.update + [t]
  {
    CreateAllUnderIs(Running(c), adds);
  }

  lemma ExecRepeatHistory(s: State, t: nat)
    requires History(s, []) && t < |s.timers| && s.timers[t].duration != 0
    ensures History(Exec(s, t), [])
  {
    ExecLogs(s, t);
  }

  lemma {:induction false} WalkHistory(c: Cursor, script: seq<seq<New>>)
    requires History(c.state, []) && CursorOk(c, false)
    ensures History(ExecRepeated(c, script).state, [])
    decreases c.upper - c.at + Total(script)
  {
    if c.at < c.upper {
      var t := c.state.repeated[c.at].timer;
      assert EntryOk(c.state, c.state.repeated[c.at], true);
      TurnIs(c, Head(script));
      ExecRepeatHistory(c.state, t);
      CreateAllHistory(Exec(c.state, t), Head(script), []);
      TurnKeeps(c, Head(script));
      TurnFirst(c, script);
      CreateAllUnderTotal(c, script);
      WalkHistory(Turn(c, Head(script)), Tail(script));
    }
  }

  // Moving timers on leaves the records and the one-shot timers alone.
  ghost predicate SameRecord(s: State, r: State) {
    && r.log == s.log && r.once == s.once && |r.timers| == |s.timers|
    && forall t: nat :: Get(r, t).fired == Get(s, t).fired && Get(r, t).duration == Get(s, t).duration
  }

  lemma {:induction false} ReinsertRecord(s: State, update: seq<nat>)
    ensures SameRecord(s, Reinsert(s, update))
    decreases |update|
  {
    if update != [] {
      var moved := Put(s, update[0], Advance(Get(s, update[0])));
      var e := Entry(Get(moved, update[0]).expiration, update[0]);
      ReinsertRecord(moved.(repeated := Insert(moved.repeated, e)), update[1..]);
    }
  }

  lemma SameHistory(s: State, r: State)
    requires History(s, []) && SameRecord(s, r)
    ensures History(r, [])
  {
    forall t: nat | t < |r.timers| && r.timers[t].duration == 0
      ensures r.timers[t].fired == if t in Names(r.once) || t in Names([]) then 0 else 1
    {
      assert Get(r, t).fired == Get(s, t).fired && Get(r, t).duration == Get(s, t).duration;
    }
  }

  lemma RoundEnds(s: State, now: int, script: seq<seq<New>>, later: int)
    ensures var c := Walk(s, now, script);
      HandleRead(s, now, script, later) ==
      Reset(Reinsert(c.state.(repeated := DropFirst(c.state.repeated, c.upper)), c.update), later)
  {
  }

  lemma ResetRecord(s: State, clock: int)
    ensures SameRecord(s, Reset(s, clock)) && Reset(s, clock).repeated == s.repeated
  {
  }

  lemma RoundHistory(s: State, now: int, script: seq<seq<New>>, later: int)
    requires History(s, []) && Core(s, [])
    ensures History(HandleRead(s, now, script, later), [])
  {
    var u, first, c := UpperBound(s.once, now), AfterOnce(s, now, script), Walk(s, now, script);
    DueOut(s, u);
    ExecOnceHistory(s.(fd := Disarmed, once := s.once[u..]), s.once[..u], script);
    AfterOnceKeeps(s, now, script);
    WalkHistory(Cursor(first, 0, UpperBound(first.repeated, now), []), Skip(script, u));
    BehindHistory(c, later);
    RoundEnds(s, now, script, later);
  }

  lemma BehindHistory(c: Cursor, later: int)
    requires History(c.state, [])
    ensures var erased := c.state.(repeated := DropFirst(c.state.repeated, c.upper));
      History(Reset(Reinsert(erased, c.update), later), [])
  {
    var erased := c.state.(repeated := DropFirst(c.state.repeated, c.upper));
    SameHistory(c.state, erased);
    ReinsertRecord(erased, c.update);
    SameHistory(erased, Reinsert(erased, c.update));
    ResetRecord(Reinsert(erased, c.update), later);
    SameHistory(Reinsert(erased, c.update), Reset(Reinsert(erased, c.update), later));
  }

  lemma DueOut(s: State, u: nat)
    requires Core(s, []) && u <= |s.once|
    ensures var s0, due := s.(fd := Disarmed, once := s.once[u..]), s.once[..u];
      Core(s0, []) && Out(s0, due) && (History(s, []) ==> History(s0, due))
  {
    var s0, due := s.(fd := Disarmed, once := s.once[u..]), s.once[..u];
    DueSlices(s, u);
    assert Names(s.once) == Names(due) + Names(s0.once);
  }

  lemma {:induction false} RunHistory(s: State, run: seq<Action>)
    requires History(s, []) && Inv(s)
    ensures History(After(s, run), [])
    decreases |run|
  {
    if run != [] {
      StepKeeps(s, run[0]);
      match run[0] {
        case Add(n) => CreateHistory(s, n, []);
        case Round(now, script, later) => RoundHistory(s, now, script, later);
        case _ => SameHistory(s, Next(s, run[0]));
      }
      RunHistory(Next(s, run[0]), run[1..]);
    }
  }

  /** Over every run: a timer's callback has run as often as its record says, a one-shot timer's at most once,
      and until then, deleted or not, the timer is stored; from then on it is not. */
  lemma OneShots(run: seq<Action>, t: nat)
    ensures var s := After(EMPTY, run);
      && multiset(s.log)[t] == Get(s, t).fired
      && (t < |s.timers| && s.timers[t].duration == 0 ==>
          s.timers[t].fired == if t in Names(s.once) then 0 else 1)
  {
    RunHistory(EMPTY, run);
    assert t !in Names([]);
  }

  // Deleted timers -----------------------------------------------------------------------------------------

  // A timer that is stored nowhere.
  ghost predicate Gone(s: State, t: nat) {
    t < |s.timers| && Fresh(s, t)
  }

  lemma {:induction false} CreateAllGone(s: State, ns: seq<New>, t: nat)
    requires Gone(s, t)
    ensures Gone(CreateAll(s, ns), t) && CreateAll(s, ns).log == s.log
    decreases |ns|
  {
    if ns != [] {
      CreateStores(s, ns[0]);
      InsertIn(s.once, Entry(ns[0].expiration, |s.timers|), t);
      InsertIn(s.repeated, Entry(ns[0].expiration, |s.timers|), t);
      CreateAllGone(Create(s, ns[0]), ns[1..], t);
    }
  }

  // A callback of another timer, and what it adds.
  lemma OtherRuns(s: State, x: nat, adds: seq<New>, t: nat)
    requires Gone(s, t) && x != t
    ensures var r := CreateAll(Exec(s, x), adds); Gone(r, t) && multiset(r.log)[t] == multiset(s.log)[t]
  {
    CreateAllGone(Exec(s, x), adds, t);
  }

  lemma {:induction false} ExecOnceGone(s: State, due: seq<Entry>, script: seq<seq<New>>, t: nat)
    requires Gone(s, t) && t !in Names(due)
    ensures var r := ExecOnce(s, due, script); Gone(r, t) && multiset(r.log)[t] == multiset(s.log)[t]
    decreases |due|
  {
    if due != [] {
      assert Names(due) == [due[0].timer] + Names(due[1..]);
      OtherRuns(s, due[0].timer, Head(script), t);
      ExecOnceGone(CreateAll(Exec(s, due[0].timer), Head(script)), due[1..], Tail(script), t);
    }
  }

  lemma {:induction false} WalkGone(c: Cursor, script: seq<seq<New>>, t: nat)
    requires Gone(c.state, t) && t !in c.update
    ensures var r := ExecRepeated(c, script);
      Gone(r.state, t) && t !in r.update && multiset(r.state.log)[t] == multiset(c.state.log)[t]
    decreases (if c.at < c.upper then c.upper - c.at else 0) + Total(script)
  {
    if c.at < c.upper && c.at < |c.state.repeated| {
      assert Names(c.state.repeated)[c.at] in Names(c.state.repeated);
      TurnIs(c, Head(script));
      OtherRuns(c.state, c.state.repeated[c.at].timer, Head(script), t);
      CreateAllUnderTotal(c, script);
      WalkGone(Turn(c, Head(script)), Tail(script), t);
    }
  }

  lemma {:induction false} ReinsertGone(s: State, update: seq<nat>, t: nat)
    requires Gone(s, t) && t !in update
    ensures Gone(Reinsert(s, update), t)
    decreases |update|
  {
    if update != [] {
      var moved := Put(s, update[0], Advance(Get(s, update[0])));
      var e := Entry(Get(moved, update[0]).expiration, update[0]);
      InsertIn(moved.repeated, e, t);
      ReinsertGone(moved.(repeated := Insert(moved.repeated, e)), update[1..], t);
    }
  }

  lemma RoundGone(s: State, now: int, script: seq<seq<New>>, later: int, t: nat)
    requires Gone(s, t)
    ensures var r := HandleRead(s, now, script, later); Gone(r, t) && multiset(r.log)[t] == multiset(s.log)[t]
  {
    var u, first, c := UpperBound(s.once, now), AfterOnce(s, now, script), Walk(s, now, script);
    OnceGone(s, u, t);
    ExecOnceGone(s.(fd := Disarmed, once := s.once[u..]), s.once[..u], script, t);
    WalkGone(Cursor(first, 0, UpperBound(first.repeated, now), []), Skip(script, u), t);
    BehindGone(c, later, t);
    RoundEnds(s, now, script, later);
  }

  lemma OnceGone(s: State, u: nat, t: nat)
    requires Gone(s, t) && u <= |s.once|
    ensures Gone(s.(fd := Disarmed, once := s.once[u..]), t) && t !in Names(s.once[..u])
  {
    assert Names(s.once) == Names(s.once[..u]) + Names(s.once[u..]);
  }

  lemma BehindGone(c: Cursor, later: int, t: nat)
    requires Gone(c.state, t) && t !in c.update
    ensures var erased := c.state.(repeated := DropFirst(c.state.repeated, c.upper));
      var r := Reset(Reinsert(erased, c.update), later); Gone(r, t) && r.log == c.state.log
  {
    var erased := c.state.(repeated := DropFirst(c.state.repeated, c.upper));
    assert c.upper < |c.state.repeated| ==> Names(erased.repeated) == Names(c.state.repeated)[c.upper..];
    ReinsertGone(erased, c.update, t);
    ReinsertRecord(erased, c.update);
    ResetRecord(Reinsert(erased, c.update), later);
  }

  lemma {:induction false} RunGone(s: State, run: seq<Action>, t: nat)
    requires Gone(s, t)
    ensures Gone(After(s, run), t) && multiset(After(s, run).log)[t] == multiset(s.log)[t]
    decreases |run|
  {
    if run != [] {
      match run[0] {
        case Add(n) =>
          CreateAllGone(s, [n], t);
          assert [n][1..] == [] && CreateAll(s, [n]) == CreateAll(Create(s, n), []);
        case Delete(x) => DeletedGone(s, x, t);
        case Round(now, script, later) => RoundGone(s, now, script, later, t);
        case Wait(_) =>
      }
      RunGone(Next(s, run[0]), run[1..], t);
    }
  }

  lemma DeletedGone(s: State, x: nat, t: nat)
    requires Gone(s, t)
    ensures Gone(DeleteTimerInLoop(s, x), t)
  {
    var k := WithoutAt(s.repeated, x);
    var r := Without(s.repeated, x);
    forall i | 0 <= i < |r| ensures r[i].timer != t {
      assert Names(s.repeated)[if i < k then i else i + 1] in Names(s.repeated);
    }
  }

  lemma NowGone(s: State, t: nat)
    requires Core(s, []) && t < |s.timers| && s.timers[t].duration != 0
    ensures Gone(DeleteTimerInLoop(s, t), t)
  {
    var r := DeleteTimerInLoop(s, t);
    forall i | 0 <= i < |r.repeated| ensures r.repeated[i].timer != t {
      DeleteExactly(s, t, r.repeated[i]);
    }
    forall i | 0 <= i < |s.once| ensures s.once[i].timer != t { assert EntryOk(s, s.once[i], false); }
  }

  /** Once a repeat timer is deleted, its callback does not run again, whatever else happens. */
  lemma NeverAgain(before: seq<Action>, t: nat, later: seq<Action>)
    requires var s := After(EMPTY, before); t < |s.timers| && s.timers[t].duration != 0
    ensures multiset(After(EMPTY, before + [Delete(t)] + later).log)[t] == multiset(After(EMPTY, before).log)[t]
  {
    var s := After(EMPTY, before);
    RunKeeps(EMPTY, before);
    AfterBoth(EMPTY, before + [Delete(t)], later);
    AfterBoth(EMPTY, before, [Delete(t)]);
    assert After(s, [Delete(t)]) == After(DeleteTimerInLoop(s, t), []);
    NowGone(s, t);
    RunGone(DeleteTimerInLoop(s, t), later, t);
  }

  // Repeat timers that are not deleted ---------------------------------------------------------------------

  lemma {:induction false} CreateAllStored(s: State, ns: seq<New>, t: nat)
    requires t in Names(s.repeated)
    ensures t in Names(CreateAll(s, ns).repeated)
    decreases |ns|
  {
    if ns != [] {
      CreateStores(s, ns[0]);
      InsertIn(s.repeated, Entry(ns[0].expiration, |s.timers|), t);
      CreateAllStored(Create(s, ns[0]), ns[1..], t);
    }
  }

  lemma {:induction false} ExecOnceStored(s: State, due: seq<Entry>, script: seq<seq<New>>, t: nat)
    requires t in Names(s.repeated)
    ensures t in Names(ExecOnce(s, due, script).repeated)
    decreases |due|
  {
    if due != [] {
      CreateAllStored(Exec(s, due[0].timer), Head(script), t);
      ExecOnceStored(CreateAll(Exec(s, due[0].timer), Head(script)), due[1..], Tail(script), t);
    }
  }

  lemma {:induction false} WalkStored(c: Cursor, script: seq<seq<New>>, t: nat)
    requires t in Names(c.state.repeated)
    ensures t in Names(ExecRepeated(c, script).state.repeated)
    decreases (if c.at < c.upper then c.upper - c.at else 0) + Total(script)
  {
    if c.at < c.upper && c.at < |c.state.repeated| {
      TurnIs(c, Head(script));
      CreateAllStored(Exec(c.state, c.state.repeated[c.at].timer), Head(script), t);
      CreateAllUnderTotal(c, script);
      WalkStored(Turn(c, Head(script)), Tail(script), t);
    }
  }

  // A callback of the round adds a repeat timer that expires before the callback's own timer.
  ghost predicate RoundStrays(s: State, now: int, script: seq<seq<New>>) {
    var u, first := UpperBound(s.once, now), AfterOnce(s, now, script);
    Strays(Cursor(first, 0, UpperBound(first.repeated, now), []), Skip(script, u))
  }

  lemma RoundStored(s: State, now: int, script: seq<seq<New>>, later: int, t: nat)
    requires Core(s, []) && t in Names(s.repeated) && !RoundStrays(s, now, script)
    ensures t in Names(HandleRead(s, now, script, later).repeated)
  {
    var u, first, c := UpperBound(s.once, now), AfterOnce(s, now, script), Walk(s, now, script);
    ExecOnceStored(s.(fd := Disarmed, once := s.once[u..]), s.once[..u], script, t);
    WalkStored(Cursor(first, 0, UpperBound(first.repeated, now), []), Skip(script, u), t);
    RoundKeepsAll(s, now, script, later);
    assert t in multiset(Names(c.state.repeated));
  }

  // t is not deleted, and no round of the run strays.
  ghost predicate Steady(s: State, run: seq<Action>, t: nat)
    decreases |run|
  {
    run == [] ||
    (run[0] != Delete(t) && (run[0].Round? ==> !RoundStrays(s, run[0].now, run[0].script)) &&
     Steady(Next(s, run[0]), run[1..], t))
  }

  lemma DeleteStored(s: State, x: nat, t: nat)
    requires Core(s, []) && t in Names(s.repeated) && x != t
    ensures t in Names(DeleteTimerInLoop(s, x).repeated)
  {
    var i :| 0 <= i < |s.repeated| && s.repeated[i].timer == t;
    DeleteExactly(s, x, s.repeated[i]);
    var r := DeleteTimerInLoop(s, x).repeated;
    var k :| 0 <= k < |r| && r[k] == s.repeated[i];
    assert Names(r)[k] == t;
  }

  lemma {:induction false} RunStored(s: State, run: seq<Action>, t: nat)
    requires Inv(s) && t in Names(s.repeated) && Steady(s, run, t)
    ensures t in Names(After(s, run).repeated)
    decreases |run|
  {
    if run != [] {
      StepKeeps(s, run[0]);
      match run[0] {
        case Add(n) =>
          CreateStores(s, n);
          InsertIn(s.repeated, Entry(n.expiration, |s.timers|), t);
        case Delete(x) => DeleteStored(s, x, t);
        case Round(now, script, later) => RoundStored(s, now, script, later, t);
        case Wait(_) =>
      }
      RunStored(Next(s, run[0]), run[1..], t);
    }
  }

  /** A repeat timer is stored from its addition on, until it is deleted or a callback adds a repeat timer for a
      time before its own timer's. */
  lemma StaysStored(before: seq<Action>, n: New, later: seq<Action>)
    requires n.duration != 0 && Steady(After(EMPTY, before + [Add(n)]), later, |After(EMPTY, before).timers|)
    ensures |After(EMPTY, before).timers| in Names(After(EMPTY, before + [Add(n)] + later).repeated)
  {
    var s := After(EMPTY, before);
    RunKeeps(EMPTY, before);
    AfterBoth(EMPTY, before + [Add(n)], later);
    AfterBoth(EMPTY, before, [Add(n)]);
    assert After(s, [Add(n)]) == After(Create(s, n), []);
    StepKeeps(s, Add(n));
    CreateStores(s, n);
    InsertIn(s.repeated, Entry(n.expiration, |s.timers|), |s.timers|);
    RunStored(Create(s, n), later, |s.timers|);
  }

  // The descriptor is read --------------------------------------------------------------------------------

  lemma {:induction false} CreateAllRead(s: State, ns: seq<New>)
    requires !s.fd.Expired?
    ensures !CreateAll(s, ns).fd.Expired?
    decreases |ns|
  {
    if ns != [] { CreateAllRead(Create(s, ns[0]), ns[1..]); }
  }

  lemma {:induction false} ExecOnceRead(s: State, due: seq<Entry>, script: seq<seq<New>>)
    requires !s.fd.Expired?
    ensures !ExecOnce(s, due, script).fd.Expired?
    decreases |due|
  {
    if due != [] {
      CreateAllRead(Exec(s, due[0].timer), Head(script));
      ExecOnceRead(CreateAll(Exec(s, due[0].timer), Head(script)), due[1..], Tail(script));
    }
  }

  lemma {:induction false} WalkRead(c: Cursor, script: seq<seq<New>>)
    requires !c.state.fd.Expired?
    ensures !ExecRepeated(c, script).state.fd.Expired?
    decreases (if c.at < c.upper then c.upper - c.at else 0) + Total(script)
  {
    if c.at < c.upper && c.at < |c.state.repeated| {
      TurnIs(c, Head(script));
      CreateAllRead(Exec(c.state, c.state.repeated[c.at].timer), Head(script));
      CreateAllUnderTotal(c, script);
      WalkRead(Turn(c, Head(script)), Tail(script));
    }
  }

  lemma {:induction false} ReinsertRead(s: State, update: seq<nat>)
    ensures Reinsert(s, update).fd == s.fd
    decreases |update|
  {
    if update != [] {
      var moved := Put(s, update[0], Advance(Get(s, update[0])));
      var e := Entry(Get(moved, update[0]).expiration, update[0]);
      ReinsertRead(moved.(repeated := Insert(moved.repeated, e)), update[1..]);
    }
  }

  /** A round reads the descriptor: until time passes again it has not gone off. */
  lemma RoundReads(s: State, now: int, script: seq<seq<New>>, later: int)
    ensures !HandleRead(s, now, script, later).fd.Expired?
  {
    var u, first, c := UpperBound(s.once, now), AfterOnce(s, now, script), Walk(s, now, script);
    ExecOnceRead(s.(fd := Disarmed, once := s.once[u..]), s.once[..u], script);
    WalkRead(Cursor(first, 0, UpperBound(first.repeated, now), []), Skip(script, u));
    var erased := c.state.(repeated := DropFirst(c.state.repeated, c.upper));
    ReinsertRead(erased, c.update);
    ResetArms(Reinsert(erased, c.update), later);
    RoundEnds(s, now, script, later);
  }

  // What callbacks add -------------------------------------------------------------------------------------

  datatype Birth = Birth(start: int, duration: int)

  // The timers made so far, in order.
  function Births(ts: seq<Timer>): (bs: seq<Birth>)
    ensures |bs| == |ts| && forall i :: 0 <= i < |ts| ==> bs[i] == Birth(ts[i].start, ts[i].duration)
  {
    seq(|ts|, i requires 0 <= i < |ts| => Birth(ts[i].start, ts[i].duration))
  }

  // The timers asked for, in order.
  function Wanted(ns: seq<New>): (bs: seq<Birth>)
    ensures |bs| == |ns| && forall i :: 0 <= i < |ns| ==> bs[i] == Birth(ns[i].expiration, ns[i].duration)
  {
    seq(|ns|, i requires 0 <= i < |ns| => Birth(ns[i].expiration, ns[i].duration))
  }

  // What the first n callbacks of a round ask for.
  function Asked(script: seq<seq<New>>, n: nat): seq<New> {
    if n == 0 then [] else Head(script) + Asked(Tail(script), n - 1)
  }

  lemma WantedBoth(a: seq<New>, b: seq<New>)
    ensures Wanted(a + b) == Wanted(a) + Wanted(b)
  {
  }

  lemma SkipTail(script: seq<seq<New>>, m: nat)
    ensures Skip(script, m + 1) == Skip(Tail(script), m)
  {
  }

  lemma Concat<T>(a: seq<T>, b: seq<T>, c: seq<T>)
    ensures a + b + c == a + (b + c)
  {
  }

  lemma {:induction false} AskedBoth(script: seq<seq<New>>, m: nat, n: nat)
    ensures Asked(script, m + n) == Asked(script, m) + Asked(Skip(script, m), n)
    decreases m
  {
    if m == 0 {
      AskedNone(script, n);
    } else {
      calc {
        Asked(script, m + n);
        { AskedFirst(script, m + n); }
        Head(script) + Asked(Tail(script), m - 1 + n);
        { AskedBoth(Tail(script), m - 1, n); }
        Head(script) + (Asked(Tail(script), m - 1) + Asked(Skip(Tail(script), m - 1), n));
        { SkipTail(script, m - 1); }
        Head(script) + (Asked(Tail(script), m - 1) + Asked(Skip(script, m), n));
        { Concat(Head(script), Asked(Tail(script), m - 1), Asked(Skip(script, m), n)); }
        Head(script) + Asked(Tail(script), m - 1) + Asked(Skip(script, m), n);
        { AskedFirst(script, m); }
        Asked(script, m) + Asked(Skip(script, m), n);
      }
    }
  }

  lemma AskedNone(script: seq<seq<New>>, n: nat)
    ensures Skip(script, 0) == script && Asked(script, 0) + Asked(script, n) == Asked(script, n)
  {
  }

  lemma AskedFirst(script: seq<seq<New>>, m: nat)
    requires m > 0
    ensures Asked(script, m) == Head(script) + Asked(Tail(script), m - 1)
  {
  }

  lemma {:induction false} CreateAllBirths(s: State, ns: seq<New>)
    ensures Births(CreateAll(s, ns).timers) == Births(s.timers) + Wanted(ns) && CreateAll(s, ns).log == s.log
    decreases |ns|
  {
    if ns != [] {
      CreateStores(s, ns[0]);
      CreateAllBirths(Create(s, ns[0]), ns[1..]);
      assert Births(Create(s, ns[0]).timers) == Births(s.timers) + Wanted([ns[0]]);
      assert ns == [ns[0]] + ns[1..];
      WantedBoth([ns[0]], ns[1..]);
    }
  }

  // From s to r, callbacks have run, and what they ask for has been made.
  ghost predicate Grown(s: State, r: State, script: seq<seq<New>>) {
    && |r.log| >= |s.log|
    && Births(r.timers) == Births(s.timers) + Wanted(Asked(script, |r.log| - |s.log|))
  }

  lemma GrownBoth(s: State, m: State, r: State, script: seq<seq<New>>, n: nat)
    requires Grown(s, m, script) && n == |m.log| - |s.log| && Grown(m, r, Skip(script, n))
    ensures Grown(s, r, script)
  {
    var j := |r.log| - |m.log|;
    AskedBoth(script, n, j);
    WantedBoth(Asked(script, n), Asked(Skip(script, n), j));
    Concat(Births(s.timers), Wanted(Asked(script, n)), Wanted(Asked(Skip(script, n), j)));
  }

  lemma NotGrown(s: State, r: State, script: seq<seq<New>>)
    requires r.log == s.log && Births(r.timers) == Births(s.timers)
    ensures Grown(s, r, script)
  {
    assert Wanted(Asked(script, 0)) == [];
  }

  // A callback and what it adds.
  lemma RunsAndAdds(s: State, t: nat, script: seq<seq<New>>)
    ensures var r := CreateAll(Exec(s, t), Head(script));
      Grown(s, r, script) && |r.log| == |s.log| + 1 && Skip(script, 1) == Tail(script)
  {
    CreateAllBirths(Exec(s, t), Head(script));
    assert Births(Exec(s, t).timers) == Births(s.timers);
    assert Asked(script, 1) == Head(script) + Asked(Tail(script), 0);
    assert Head(script) + [] == Head(script);
  }

  lemma {:induction false} ExecOnceBirths(s: State, due: seq<Entry>, script: seq<seq<New>>)
    ensures var r := ExecOnce(s, due, script); Grown(s, r, script) && |r.log| == |s.log| + |due|
    decreases |due|
  {
    if due == [] {
      NotGrown(s, s, script);
    } else {
      var ran := CreateAll(Exec(s, due[0].timer), Head(script));
      RunsAndAdds(s, due[0].timer, script);
      ExecOnceBirths(ran, due[1..], Tail(script));
      GrownBoth(s, ran, ExecOnce(ran, due[1..], Tail(script)), script, 1);
    }
  }

  lemma {:induction false} WalkBirths(c: Cursor, script: seq<seq<New>>)
    ensures Grown(c.state, ExecRepeated(c, script).state, script)
    decreases (if c.at < c.upper then c.upper - c.at else 0) + Total(script)
  {
    if c.at < c.upper && c.at < |c.state.repeated| {
      var r := Turn(c, Head(script));
      TurnIs(c, Head(script));
      CreateAllUnderTotal(c, script);
      RunsAndAdds(c.state, c.state.repeated[c.at].timer, script);
      WalkBirths(r, Tail(script));
      GrownBoth(c.state, r.state, ExecRepeated(r, Tail(script)).state, script, 1);
    } else {
      NotGrown(c.state, c.state, script);
    }
  }

  lemma {:induction false} ReinsertBirths(s: State, update: seq<nat>)
    ensures Births(Reinsert(s, update).timers) == Births(s.timers) && Reinsert(s, update).log == s.log
    decreases |update|
  {
    if update != [] {
      var moved := Put(s, update[0], Advance(Get(s, update[0])));
      var e := Entry(Get(moved, update[0]).expiration, update[0]);
      assert Births(moved.timers) == Births(s.timers);
      ReinsertBirths(moved.(repeated := Insert(moved.repeated, e)), update[1..]);
    }
  }

  lemma OnceGrown(s: State, now: int, script: seq<seq<New>>)
    ensures var first := AfterOnce(s, now, script);
      Grown(s, first, script) && |first.log| == |s.log| + UpperBound(s.once, now)
  {
    var u := UpperBound(s.once, now);
    ExecOnceBirths(s.(fd := Disarmed, once := s.once[u..]), s.once[..u], script);
  }

  lemma WalkGrown(s: State, now: int, script: seq<seq<New>>)
    ensures Grown(s, Walk(s, now, script).state, script)
  {
    var u, first := UpperBound(s.once, now), AfterOnce(s, now, script);
    OnceGrown(s, now, script);
    WalkBirths(Cursor(first, 0, UpperBound(first.repeated, now), []), Skip(script, u));
    GrownBoth(s, first, Walk(s, now, script).state, script, u);
  }

  lemma BehindBirths(c: Cursor, later: int)
    ensures var erased := c.state.(repeated := DropFirst(c.state.repeated, c.upper));
      var r := Reset(Reinsert(erased, c.update), later);
      r.log == c.state.log && Births(r.timers) == Births(c.state.timers)
  {
    ReinsertBirths(c.state.(repeated := DropFirst(c.state.repeated, c.upper)), c.update);
  }

  lemma RoundBirths(s: State, now: int, script: seq<seq<New>>, later: int)
    ensures var m, r := Walk(s, now, script).state, HandleRead(s, now, script, later);
      r.log == m.log && Births(r.timers) == Births(m.timers)
  {
    RoundEnds(s, now, script, later);
    BehindBirths(Walk(s, now, script), later);
  }

  lemma SameGrown(s: State, m: State, r: State, script: seq<seq<New>>)
    requires Grown(s, m, script) && r.log == m.log && Births(r.timers) == Births(m.timers)
    ensures Grown(s, r, script)
  {
  }

  /** What the callbacks of a round ask for is made, in the order in which they run, and nothing else. */
  lemma AdditionsMade(s: State, now: int, script: seq<seq<New>>, later: int)
    ensures var r := HandleRead(s, now, script, later);
      && |r.log| >= |s.log|
      && Births(r.timers) == Births(s.timers) + Wanted(Asked(script, |r.log| - |s.log|))
  {
    WalkGrown(s, now, script);
    RoundBirths(s, now, script, later);
    SameGrown(s, Walk(s, now, script).state, HandleRead(s, now, script, later), script);
  }

  lemma {:induction false} RunBirths(s: State, run: seq<Action>)
    ensures Births(s.timers) <= Births(After(s, run).timers)
    decreases |run|
  {
    if run != [] {
      match run[0] {
        case Add(n) => CreateStores(s, n);
        case Round(now, script, later) => AdditionsMade(s, now, script, later);
        case _ =>
      }
      RunBirths(Next(s, run[0]), run[1..]);
    }
  }

  /** An added one-shot timer is stored or has fired once, never both, whatever else happens. */
  lemma FiresOnce(before: seq<Action>, n: New, later: seq<Action>)
    requires n.duration == 0
    ensures var t, s := |After(EMPTY, before).timers|, After(EMPTY, before + [Add(n)] + later);
      multiset(s.log)[t] == if t in Names(s.once) then 0 else 1
  {
    var m, s := After(EMPTY, before), After(EMPTY, before + [Add(n)] + later);
    AfterBoth(EMPTY, before + [Add(n)], later);
    AfterBoth(EMPTY, before, [Add(n)]);
    assert After(m, [Add(n)]) == After(Create(m, n), []);
    CreateStores(m, n);
    RunBirths(Create(m, n), later);
    assert Births(s.timers)[|m.timers|] == Births(Create(m, n).timers)[|m.timers|];
    OneShots(before + [Add(n)] + later, |m.timers|);
  }
}
