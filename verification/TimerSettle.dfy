// Rounds without callbacks that add timers catch up with the clock.
module TimerSettling {
  import opened TimerQueues
  import opened TimerSafety

  function Over(key: int, now: int): nat {
    if key <= now then now - key + 1 else 0
  }

  // How much time the entries are overdue in all.
  function Overdue(es: seq<Entry>, now: int): nat {
    if es == [] then 0 else Over(es[0].key, now) + Overdue(es[1..], now)
  }

  lemma {:induction false} OverdueBoth(a: seq<Entry>, b: seq<Entry>, now: int)
    ensures Overdue(a + b, now) == Overdue(a, now) + Overdue(b, now)
  {
    if a == [] {
      assert a + b == b;
    } else {
      assert (a + b)[1..] == a[1..] + b;
      OverdueBoth(a[1..], b, now);
    }
  }

  lemma OverdueInsert(es: seq<Entry>, e: Entry, now: int)
    ensures Overdue(Insert(es, e), now) == Overdue(es, now) + Over(e.key, now)
  {
    var u := UpperBound(es, e.key);
    assert es == es[..u] + es[u..];
    OverdueBoth(es[..u], es[u..], now);
    OverdueBetween(es[..u], e, es[u..], now);
  }

  lemma OverdueBetween(a: seq<Entry>, e: Entry, b: seq<Entry>, now: int)
    ensures Overdue(a + [e] + b, now) == Overdue(a, now) + Over(e.key, now) + Overdue(b, now)
  {
    OverdueBoth(a + [e], b, now);
    OverdueBoth(a, [e], now);
    assert [e][1..] == [];
  }

  // A round whose callbacks add nothing --------------------------------------------------------------

  lemma {:induction false} PlainOnce(s: State, due: seq<Entry>)
    ensures var r := ExecOnce(s, due, []); r.once == s.once && r.repeated == s.repeated
    decreases |due|
  {
    if due != [] { PlainOnce(Exec(s, due[0].timer), due[1..]); }
  }

  lemma NamesStep(log: seq<nat>, es: seq<Entry>, es': seq<Entry>, i: nat, j: nat)
    requires i < j <= |es| && j <= |es'| && forall k :: i < k < j ==> es'[k] == es[k]
    ensures log + [es[i].timer] + Names(es'[i + 1..j]) == log + Names(es[i..j])
  {
    assert es'[i + 1..j] == es[i + 1..j];
    assert Names(es[i..j]) == [es[i].timer] + Names(es[i + 1..j]);
  }

  lemma {:induction false} PlainWalk(c: Cursor)
    requires CursorOk(c, false)
    ensures var r := ExecRepeated(c, []);
      && r.state.repeated == c.state.repeated && r.state.once == c.state.once && r.upper == c.upper
      && r.update == c.update + Names(c.state.repeated[c.at..c.upper])
    decreases c.upper - c.at
  {
    if c.at < c.upper {
      var r := Turn(c, []);
      TurnKeeps(c, []);
      TurnFirst(c, []);
      PlainWalk(r);
      NamesStep(c.update, c.state.repeated, r.state.repeated, c.at, c.upper);
    } else {
      assert c.update + Names(c.state.repeated[c.at..c.upper]) == c.update;
    }
  }

  // What moving some timers on by a period makes of their lateness.
  function Moved(s: State, update: seq<nat>, now: int): nat {
    if update == [] then 0 else Over(Advance(Get(s, update[0])).expiration, now) + Moved(s, update[1..], now)
  }

  lemma {:induction false} MovedSame(s: State, r: State, update: seq<nat>, now: int)
    requires forall i :: 0 <= i < |update| ==> Get(r, update[i]) == Get(s, update[i])
    ensures Moved(r, update, now) == Moved(s, update, now)
  {
    if update != [] {
      assert forall i :: 0 <= i < |update[1..]| ==> update[1..][i] == update[i + 1];
      MovedSame(s, r, update[1..], now);
    }
  }

  lemma {:induction false} ReinsertOverdue(s: State, update: seq<nat>, now: int)
    requires forall i, j :: 0 <= i < j < |update| ==> update[i] != update[j]
    requires forall i :: 0 <= i < |update| ==> update[i] < |s.timers|
    ensures Overdue(Reinsert(s, update).repeated, now) == Overdue(s.repeated, now) + Moved(s, update, now)
    ensures Reinsert(s, update).once == s.once
    decreases |update|
  {
    if update != [] {
      var t := update[0];
      var moved := Put(s, t, Advance(Get(s, t)));
      var e := Entry(Get(moved, t).expiration, t);
      var next := moved.(repeated := Insert(moved.repeated, e));
      OverdueInsert(moved.repeated, e, now);
      assert forall i :: 0 <= i < |update[1..]| ==> update[1..][i] == update[i + 1];
      ReinsertOverdue(next, update[1..], now);
      MovedSame(s, next, update[1..], now);
    }
  }

  ghost predicate DueRepeat(s: State, e: Entry, now: int) {
    EntryOk(s, e, true) && e.key <= now && s.timers[e.timer].duration > 0
  }

  // Every due timer gets less late.
  lemma {:induction false} MovedLess(s: State, es: seq<Entry>, now: int)
    requires forall i :: 0 <= i < |es| ==> DueRepeat(s, es[i], now)
    ensures Moved(s, Names(es), now) + |es| <= Overdue(es, now)
  {
    if es != [] {
      assert Names(es)[1..] == Names(es[1..]);
      assert DueRepeat(s, es[0], now);
      forall i | 0 <= i < |es[1..]| ensures DueRepeat(s, es[1..][i], now) { assert DueRepeat(s, es[i + 1], now); }
      MovedLess(s, es[1..], now);
    }
  }

  ghost predicate NoNegativePeriods(s: State) {
    forall t :: 0 <= t < |s.timers| ==> s.timers[t].duration >= 0
  }

  ghost predicate SamePeriods(s: State, r: State) {
    |s.timers| == |r.timers| && forall t :: 0 <= t < |s.timers| ==> r.timers[t].duration == s.timers[t].duration
  }

  lemma {:induction false} PlainOncePeriods(s: State, due: seq<Entry>)
    ensures SamePeriods(s, ExecOnce(s, due, []))
    decreases |due|
  {
    if due != [] { PlainOncePeriods(Exec(s, due[0].timer), due[1..]); }
  }

  lemma {:induction false} PlainWalkPeriods(c: Cursor)
    requires CursorOk(c, false)
    ensures SamePeriods(c.state, ExecRepeated(c, []).state)
    decreases c.upper - c.at
  {
    if c.at < c.upper {
      TurnKeeps(c, []);
      TurnFirst(c, []);
      PlainWalkPeriods(Turn(c, []));
    }
  }

  lemma {:induction false} ReinsertPeriods(s: State, update: seq<nat>)
    ensures SamePeriods(s, Reinsert(s, update))
    decreases |update|
  {
    if update != [] {
      var moved := Put(s, update[0], Advance(Get(s, update[0])));
      var e := Entry(Get(moved, update[0]).expiration, update[0]);
      ReinsertPeriods(moved.(repeated := Insert(moved.repeated, e)), update[1..]);
    }
  }

  // Nothing stored is due.
  ghost predicate Settled(s: State, now: int) {
    UpperBound(s.once, now) == 0 && UpperBound(s.repeated, now) == 0
  }

  // The walk of a round whose callbacks add nothing.
  lemma PlainRound(s: State, now: int)
    requires Core(s, [])
    ensures var c := Walk(s, now, []);
      && CursorOk(c, false) && c.at == c.upper == UpperBound(s.repeated, now) && SamePeriods(s, c.state)
      && c.state.repeated == s.repeated && c.state.once == s.once[UpperBound(s.once, now)..]
      && c.update == Names(s.repeated[..c.upper])
  {
    var u, v := UpperBound(s.once, now), UpperBound(s.repeated, now);
    var s0 := s.(fd := Disarmed, once := s.once[u..]);
    PlainOnce(s0, s.once[..u]);
    PlainOncePeriods(s0, s.once[..u]);
    AfterOnceKeeps(s, now, []);
    var c0 := Cursor(AfterOnce(s, now, []), 0, v, []);
    PlainWalk(c0);
    PlainWalkPeriods(c0);
    WalkKeeps(s, now, []);
    assert s.repeated[0..v] == s.repeated[..v];
  }

  // Moving on the timers of the first v entries makes them less late.
  lemma PassedLess(c: Cursor, now: int)
    requires CursorOk(c, false) && NoNegativePeriods(c.state)
    requires forall i :: 0 <= i < c.upper ==> c.state.repeated[i].key <= now
    ensures var es := c.state.repeated[..c.upper]; Moved(c.state, Names(es), now) + c.upper <= Overdue(es, now)
  {
    var es := c.state.repeated[..c.upper];
    forall i | 0 <= i < |es| ensures DueRepeat(c.state, es[i], now) {
      assert EntryOk(c.state, c.state.repeated[i], true);
    }
    MovedLess(c.state, es, now);
  }

  lemma Undue(es: seq<Entry>, now: int)
    requires Sorted(es)
    ensures UpperBound(es[UpperBound(es, now)..], now) == 0
  {
  }

  lemma PutBack(c: Cursor, erased: State, now: int)
    requires CursorOk(c, false) && c.at == c.upper && erased == c.state.(repeated := c.state.repeated[c.upper..])
    ensures var r := Reinsert(erased, c.update);
      && Overdue(r.repeated, now) == Overdue(erased.repeated, now) + Moved(c.state, c.update, now)
      && r.once == c.state.once && SamePeriods(c.state, r)
  {
    ErasedFresh(c, erased);
    ReinsertPeriods(erased, c.update);
    assert forall i :: 0 <= i < |c.update| ==> c.update[i] in c.update;
    ReinsertOverdue(erased, c.update, now);
    MovedSame(c.state, erased, c.update, now);
  }

  lemma OverdueSplit(es: seq<Entry>, n: nat, now: int)
    requires n <= |es|
    ensures Overdue(es, now) == Overdue(es[..n], now) + Overdue(es[n..], now)
  {
    assert es == es[..n] + es[n..];
    OverdueBoth(es[..n], es[n..], now);
  }

  // The maps and periods a round leaves are those of its walk, put back.
  lemma RoundIs(s: State, now: int, later: int, c: Cursor, erased: State)
    requires c == Walk(s, now, []) && c.upper <= |c.state.repeated|
    requires erased == c.state.(repeated := c.state.repeated[c.upper..])
    ensures var r, back := HandleRead(s, now, [], later), Reinsert(erased, c.update);
      r.timers == back.timers && r.once == back.once && r.repeated == back.repeated
  {
    assert DropFirst(c.state.repeated, c.upper) == c.state.repeated[c.upper..];
  }

  lemma WalkLess(s: State, now: int, c: Cursor, erased: State)
    requires Core(s, []) && NoNegativePeriods(s) && c == Walk(s, now, [])
    requires c.upper <= |c.state.repeated| && erased == c.state.(repeated := c.state.repeated[c.upper..])
    ensures var r := Reinsert(erased, c.update);
      && Overdue(r.repeated, now) + UpperBound(s.repeated, now) <= Overdue(s.repeated, now)
      && r.once == s.once[UpperBound(s.once, now)..] && SamePeriods(s, r)
  {
    PlainRound(s, now);
    PutBack(c, erased, now);
    PassedLess(c, now);
    OverdueSplit(s.repeated, c.upper, now);
  }

  /** A round leaves no one-shot timer due, and the repeat timers less overdue than they were. */
  lemma RoundLess(s: State, now: int, later: int)
    requires Core(s, []) && NoNegativePeriods(s)
    ensures var r := HandleRead(s, now, [], later);
      && Core(r, []) && NoNegativePeriods(r) && UpperBound(r.once, now) == 0
      && Overdue(r.repeated, now) + UpperBound(s.repeated, now) <= Overdue(s.repeated, now)
  {
    var c := Walk(s, now, []);
    WalkKeeps(s, now, []);
    var erased := c.state.(repeated := c.state.repeated[c.upper..]);
    WalkLess(s, now, c, erased);
    RoundIs(s, now, later, c, erased);
    HandleReadKeeps(s, now, [], later);
    Undue(s.once, now);
  }

  function Rounds(s: State, now: int, later: int, n: nat): State
    decreases n
  {
    if n == 0 then s else Rounds(HandleRead(s, now, [], later), now, later, n - 1)
  }

  /** With no negative period, repeated rounds at a fixed time reach a state in which nothing is due. */
  lemma {:induction false} Settles(s: State, now: int, later: int) returns (n: nat)
    requires Core(s, []) && NoNegativePeriods(s)
    ensures Settled(Rounds(s, now, later, n), now)
    decreases Overdue(s.repeated, now), UpperBound(s.once, now)
  {
    if Settled(s, now) {
      n := 0;
    } else {
      RoundLess(s, now, later);
      var r := HandleRead(s, now, [], later);
      var m := Settles(r, now, later);
      n := m + 1;
    }
  }

  // Rounds whose callbacks add timers ------------------------------------------------------------------

  ghost predicate Periods(ns: seq<New>) {
    forall i :: 0 <= i < |ns| ==> ns[i].duration >= 0
  }

  ghost predicate ScriptPeriods(script: seq<seq<New>>) {
    forall k :: 0 <= k < |script| ==> Periods(script[k])
  }

  lemma {:induction false} CreateAllPeriods(s: State, ns: seq<New>)
    requires NoNegativePeriods(s) && Periods(ns)
    ensures NoNegativePeriods(CreateAll(s, ns))
    decreases |ns|
  {
    if ns != [] {
      assert ns[0].duration >= 0;
      CreatePeriods(s, ns[0]);
      assert forall i :: 0 <= i < |ns[1..]| ==> ns[1..][i] == ns[i + 1];
      CreateAllPeriods(Create(s, ns[0]), ns[1..]);
    }
  }

  lemma CreatePeriods(s: State, n: New)
    requires NoNegativePeriods(s) && n.duration >= 0
    ensures NoNegativePeriods(Create(s, n))
  {
    assert Create(s, n).timers == s.timers + [Timer(n.expiration, n.duration, n.expiration, 0)];
  }

  lemma {:induction false} CreateAllUnderPeriods(c: Cursor, ns: seq<New>)
    requires NoNegativePeriods(c.state) && Periods(ns)
    ensures NoNegativePeriods(CreateAllUnder(c, ns).state)
    decreases |ns|
  {
    if ns != [] {
      assert ns[0].duration >= 0;
      CreatePeriods(c.state, ns[0]);
      assert forall i :: 0 <= i < |ns[1..]| ==> ns[1..][i] == ns[i + 1];
      CreateAllUnderPeriods(CreateUnder(c, ns[0]), ns[1..]);
    }
  }

  lemma ExecPeriods(s: State, t: nat)
    requires NoNegativePeriods(s)
    ensures NoNegativePeriods(Exec(s, t))
  {
  }

  lemma ScriptNext(script: seq<seq<New>>)
    requires ScriptPeriods(script)
    ensures Periods(Head(script)) && ScriptPeriods(Tail(script))
  {
    if script != [] {
      assert Periods(script[0]);
      forall k | 0 <= k < |Tail(script)| ensures Periods(Tail(script)[k]) { assert Periods(script[k + 1]); }
    }
  }

  lemma {:induction false} ExecOncePeriods(s: State, due: seq<Entry>, script: seq<seq<New>>)
    requires NoNegativePeriods(s) && ScriptPeriods(script)
    ensures NoNegativePeriods(ExecOnce(s, due, script))
    decreases |due|
  {
    if due != [] {
      ScriptNext(script);
      ExecPeriods(s, due[0].timer);
      CreateAllPeriods(Exec(s, due[0].timer), Head(script));
      ExecOncePeriods(CreateAll(Exec(s, due[0].timer), Head(script)), due[1..], Tail(script));
    }
  }

  lemma {:induction false} WalkPeriods(c: Cursor, script: seq<seq<New>>)
    requires CursorOk(c, false) && NoNegativePeriods(c.state) && ScriptPeriods(script)
    ensures NoNegativePeriods(ExecRepeated(c, script).state)
    decreases c.upper - c.at + Total(script)
  {
    if c.at < c.upper {
      var t := c.state.repeated[c.at].timer;
      ScriptNext(script);
      ExecPeriods(c.state, t);
      CreateAllUnderPeriods(c.(state := Exec(c.state, t)), Head(script));
      TurnKeeps(c, Head(script));
      TurnFirst(c, script);
      CreateAllUnderTotal(c, script);
      WalkPeriods(Turn(c, Head(script)), Tail(script));
    }
  }

  lemma SkipPeriods(script: seq<seq<New>>, n: nat)
    requires ScriptPeriods(script)
    ensures ScriptPeriods(Skip(script, n))
  {
    forall k | 0 <= k < |Skip(script, n)| ensures Periods(Skip(script, n)[k]) { assert Periods(script[n + k]); }
  }

  lemma RoundPeriods(s: State, now: int, script: seq<seq<New>>, later: int)
    requires Core(s, []) && NoNegativePeriods(s) && ScriptPeriods(script)
    ensures NoNegativePeriods(HandleRead(s, now, script, later))
  {
    var u := UpperBound(s.once, now);
    ExecOncePeriods(s.(fd := Disarmed, once := s.once[u..]), s.once[..u], script);
    AfterOnceKeeps(s, now, script);
    SkipPeriods(script, u);
    var first := AfterOnce(s, now, script);
    WalkPeriods(Cursor(first, 0, UpperBound(first.repeated, now), []), Skip(script, u));
    var c := Walk(s, now, script);
    ReinsertPeriods(c.state.(repeated := DropFirst(c.state.repeated, c.upper)), c.update);
  }

  // Rounds at a fixed time: the callbacks of the k-th add what scripts[k] says, those of later ones nothing.
  function ScriptedRounds(s: State, now: int, later: int, scripts: seq<seq<seq<New>>>): State
    decreases |scripts|
  {
    if scripts == [] then s else ScriptedRounds(HandleRead(s, now, scripts[0], later), now, later, scripts[1..])
  }

  /** With no negative period, repeated rounds at a fixed time reach a state in which nothing is due, whatever
      finite number of timers their callbacks add in all. */
  lemma {:induction false} SettlesAfter(s: State, now: int, later: int, scripts: seq<seq<seq<New>>>) returns (n: nat)
    requires Core(s, []) && NoNegativePeriods(s)
    requires forall k :: 0 <= k < |scripts| ==> ScriptPeriods(scripts[k])
    ensures Settled(Rounds(ScriptedRounds(s, now, later, scripts), now, later, n), now)
    decreases |scripts|
  {
    if scripts == [] {
      n := Settles(s, now, later);
    } else {
      assert ScriptPeriods(scripts[0]);
      RoundPeriods(s, now, scripts[0], later);
      HandleReadKeeps(s, now, scripts[0], later);
      assert forall k :: 0 <= k < |scripts[1..]| ==> scripts[1..][k] == scripts[k + 1];
      n := SettlesAfter(HandleRead(s, now, scripts[0], later), now, later, scripts[1..]);
    }
  }
}
