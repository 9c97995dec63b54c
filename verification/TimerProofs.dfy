// What a timer queue keeps, what one round fires, and when the descriptor is armed.
module TimerSafety {
  import opened TimerQueues

  ghost predicate Sorted(es: seq<Entry>) {
    forall i, j :: 0 <= i <= j < |es| ==> es[i].key <= es[j].key
  }

  function Names(es: seq<Entry>): (ns: seq<nat>)
    ensures |ns| == |es| && forall i :: 0 <= i < |es| ==> ns[i] == es[i].timer
  {
    seq(|es|, i requires 0 <= i < |es| => es[i].timer)
  }

  ghost predicate DistinctNames(es: seq<Entry>) {
    forall i, j :: 0 <= i < j < |es| ==> es[i].timer != es[j].timer
  }

  // An entry's key is the current expiration of its timer.
  ghost predicate EntryOk(s: State, e: Entry, repeats: bool) {
    e.timer < |s.timers| && e.key == s.timers[e.timer].expiration && (s.timers[e.timer].duration != 0 <==> repeats)
  }

  ghost predicate MapOk(s: State, es: seq<Entry>, repeats: bool) {
    Sorted(es) && DistinctNames(es) && forall i :: 0 <= i < |es| ==> EntryOk(s, es[i], repeats)
  }

  // A repeat timer is at its start plus one period for every time its callback ran; those in pending
  // have run once more than they have been moved.
  ghost predicate OnSchedule(v: Timer, pending: bool) {
    v.duration != 0 ==> v.expiration == v.start + (v.fired - if pending then 1 else 0) * v.duration
  }

  ghost predicate Core(s: State, pending: seq<nat>) {
    MapOk(s, s.once, false) && MapOk(s, s.repeated, true) &&
    forall t :: 0 <= t < |s.timers| ==> OnSchedule(s.timers[t], t in pending)
  }

  // Multimaps -----------------------------------------------------------------------------------

  lemma BoundAbove(es: seq<Entry>, i: nat, key: int)
    requires Sorted(es) && i < |es| && es[i].key <= key
    ensures UpperBound(es, key) > i
  {
  }

  lemma BoundBelow(es: seq<Entry>, i: nat, key: int)
    requires i < |es| && es[i].key > key
    ensures UpperBound(es, key) <= i
  {
  }

  lemma InsertAt(es: seq<Entry>, e: Entry)
    ensures var u, r := UpperBound(es, e.key), Insert(es, e);
      && |r| == |es| + 1 && r[u] == e
      && (forall i :: 0 <= i < u ==> r[i] == es[i])
      && (forall i :: u < i < |r| ==> r[i] == es[i - 1])
  {
  }

  lemma InsertSorted(es: seq<Entry>, e: Entry)
    requires Sorted(es)
    ensures Sorted(Insert(es, e))
  {
    InsertAt(es, e);
    var u, r := UpperBound(es, e.key), Insert(es, e);
    forall i, j | 0 <= i <= j < |r| ensures r[i].key <= r[j].key {
      if i == u && u < j { assert es[u].key <= es[j - 1].key; }
    }
  }

  lemma InsertDistinct(es: seq<Entry>, e: Entry)
    requires DistinctNames(es) && e.timer !in Names(es)
    ensures DistinctNames(Insert(es, e))
  {
    InsertAt(es, e);
    var u, r := UpperBound(es, e.key), Insert(es, e);
    assert forall k :: 0 <= k < |es| ==> Names(es)[k] in Names(es);
    forall i, j | 0 <= i < j < |r| ensures r[i].timer != r[j].timer {
      if i == u { assert r[j].timer == Names(es)[j - 1]; }
      if j == u { assert r[i].timer == Names(es)[i]; }
    }
  }

  lemma InsertOk(s: State, es: seq<Entry>, e: Entry, repeats: bool)
    requires MapOk(s, es, repeats) && EntryOk(s, e, repeats) && e.timer !in Names(es)
    ensures MapOk(s, Insert(es, e), repeats)
  {
    InsertAt(es, e);
    InsertSorted(es, e);
    InsertDistinct(es, e);
  }

  lemma InsertNames(es: seq<Entry>, e: Entry)
    ensures multiset(Names(Insert(es, e))) == multiset(Names(es)) + multiset{e.timer}
  {
    var u := UpperBound(es, e.key);
    assert Names(Insert(es, e)) == Names(es)[..u] + [e.timer] + Names(es)[u..];
    assert Names(es) == Names(es)[..u] + Names(es)[u..];
  }

  // Later states in which no stored timer has moved.
  ghost predicate SameTimes(s: State, s': State) {
    |s.timers| <= |s'.timers| &&
    forall t :: 0 <= t < |s.timers| ==>
      s'.timers[t].expiration == s.timers[t].expiration && s'.timers[t].duration == s.timers[t].duration
  }

  lemma MapSame(s: State, s': State, es: seq<Entry>, repeats: bool)
    requires MapOk(s, es, repeats) && SameTimes(s, s')
    ensures MapOk(s', es, repeats)
  {
    forall i | 0 <= i < |es| ensures EntryOk(s', es[i], repeats) { assert EntryOk(s, es[i], repeats); }
  }

  lemma MapSlice(s: State, es: seq<Entry>, repeats: bool, i: nat, j: nat)
    requires MapOk(s, es, repeats) && i <= j <= |es|
    ensures MapOk(s, es[i..j], repeats)
  {
    forall k | 0 <= k < j - i ensures EntryOk(s, es[i..j][k], repeats) { assert EntryOk(s, es[i + k], repeats); }
  }

  // The descriptor ---------------------------------------------------------------------------------

  /** The seconds and nanoseconds handed to the kernel add up, are in range, and are both zero, which
      disarms, exactly when the difference is. */
  lemma SetTimeExact(diff: nat, clock: int)
    ensures SetTime(diff, clock) == if diff == 0 then Disarmed else ArmedAt(clock + diff)
    ensures 0 <= diff % 1000000000 < 1000000000
  {
  }

  // min is at most every expiration.
  ghost predicate MinOk(s: State) {
    (forall i :: 0 <= i < |s.once| ==> s.min <= s.once[i].key) &&
    forall i :: 0 <= i < |s.repeated| ==> s.min <= s.repeated[i].key
  }

  // How the descriptor is set for min at the given time.
  function ArmedFor(min: int, rearmed: int): TimerFd {
    if min < rearmed then ArmedAt(rearmed + 10) else if min == rearmed then Disarmed else ArmedAt(min)
  }

  // Unless it has gone off, the descriptor is as it was set for min; it goes off only if it was armed.
  ghost predicate FdOk(s: State) {
    s.min == NEVER || (s.fd.Expired? && s.min != s.rearmed) || s.fd == ArmedFor(s.min, s.rearmed)
  }

  lemma ResetKeeps(s: State, clock: int, pending: seq<nat>)
    requires Core(s, pending)
    ensures var r := Reset(s, clock);
      && Core(r, pending) && MinOk(r) && FdOk(r)
      && r.timers == s.timers && r.once == s.once && r.repeated == s.repeated && r.log == s.log
      && (r.min == NEVER || (r.once != [] && r.min == r.once[0].key) || (r.repeated != [] &&
          r.min == r.repeated[0].key))
  {
    var r := Reset(s, clock);
    if s.once != [] { assert EntryOk(s, s.once[0], false); }
    if s.repeated != [] { assert EntryOk(s, s.repeated[0], true); }
    MapSame(s, r, s.once, false);
    MapSame(s, r, s.repeated, true);
    SetTimeExact(if r.min < clock then 10 else r.min - clock, clock);
  }

  /** The clock of the call decides: a time to come is armed for, one gone by goes off 10 ns from now, and the
      present one disarms. With nothing to wait for the descriptor is left alone. */
  lemma ResetArms(s: State, clock: int)
    ensures var r := Reset(s, clock);
      && (r.min == NEVER ==> r.fd == s.fd && r.rearmed == s.rearmed)
      && (r.min != NEVER ==> r.rearmed == clock)
      && (r.min != NEVER && r.min > clock ==> r.fd == ArmedAt(r.min))
      && (r.min != NEVER && r.min < clock ==> r.fd == ArmedAt(clock + 10))
      && (r.min != NEVER && r.min == clock ==> r.fd == Disarmed)
  {
    var min := Reset(s, clock).min;
    SetTimeExact(if min < clock then 10 else min - clock, clock);
  }

  // Adding -------------------------------------------------------------------------------------------

  ghost predicate Fresh(s: State, t: nat) {
    t !in Names(s.once) && t !in Names(s.repeated)
  }

  lemma StoreKeeps(s: State, t: nat, pending: seq<nat>)
    requires Core(s, pending) && t < |s.timers| && Fresh(s, t)
    ensures Core(Store(s, t), pending)
  {
    var r := Store(s, t);
    var e := Entry(s.timers[t].expiration, t);
    MapSame(s, r, s.once, false);
    MapSame(s, r, s.repeated, true);
    if s.timers[t].duration == 0 { InsertOk(r, s.once, e, false); } else { InsertOk(r, s.repeated, e, true); }
  }

  lemma StoreMin(s: State, t: nat)
    requires MinOk(s) && s.min <= Get(s, t).expiration
    ensures MinOk(Store(s, t))
  {
    InsertAt(s.once, Entry(Get(s, t).expiration, t));
    InsertAt(s.repeated, Entry(Get(s, t).expiration, t));
    var u, v := UpperBound(s.once, Get(s, t).expiration), UpperBound(s.repeated, Get(s, t).expiration);
    var r := Store(s, t);
    forall i | 0 <= i < |r.once| ensures r.min <= r.once[i].key {
      assert r.once == s.once || i == u || (i < u && r.once[i] == s.once[i]) || r.once[i] == s.once[i - 1];
    }
    forall i | 0 <= i < |r.repeated| ensures r.min <= r.repeated[i].key {
      assert r.repeated == s.repeated || i == v || (i < v && r.repeated[i] == s.repeated[i]) ||
          r.repeated[i] == s.repeated[i - 1];
    }
  }

  // What creating a timer leaves as it was, and adds.
  ghost predicate Created(s: State, r: State, n: New) {
    && r.timers == s.timers + [Timer(n.expiration, n.duration, n.expiration, 0)] && r.log == s.log
    && var e := Entry(n.expiration, |s.timers|);
       r.once == (if n.duration == 0 then Insert(s.once, e) else s.once) &&
       r.repeated == if n.duration == 0 then s.repeated else Insert(s.repeated, e)
  }

  lemma MadeKeeps(s: State, made: State, v: Timer, pending: seq<nat>)
    requires Core(s, pending) && |s.timers| !in pending
    requires made == s.(timers := s.timers + [v]) && v.expiration == v.start && v.fired == 0
    ensures Core(made, pending) && Fresh(made, |s.timers|)
  {
    MapSame(s, made, s.once, false);
    MapSame(s, made, s.repeated, true);
    assert forall i :: 0 <= i < |s.once| ==> EntryOk(s, s.once[i], false);
    assert forall i :: 0 <= i < |s.repeated| ==> EntryOk(s, s.repeated[i], true);
    forall i | 0 <= i < |made.timers| ensures OnSchedule(made.timers[i], i in pending) {
      if i < |s.timers| { assert OnSchedule(s.timers[i], i in pending); }
    }
  }

  lemma CreateKeeps(s: State, n: New, pending: seq<nat>)
    requires Core(s, pending) && |s.timers| !in pending
    ensures Core(Create(s, n), pending) && Created(s, Create(s, n), n)
    ensures MinOk(s) && FdOk(s) ==> MinOk(Create(s, n)) && FdOk(Create(s, n))
  {
    var t, v := |s.timers|, Timer(n.expiration, n.duration, n.expiration, 0);
    var made := s.(timers := s.timers + [v]);
    MadeKeeps(s, made, v, pending);
    StoreKeeps(made, t, pending);
    if n.expiration < s.min {
      ResetKeeps(Store(made, t), n.clock, pending);
    } else if MinOk(s) && FdOk(s) {
      StoreMin(made, t);
    }
  }

  lemma {:induction false} CreateAllKeeps(s: State, ns: seq<New>, pending: seq<nat>)
    requires Core(s, pending) && forall t :: t in pending ==> t < |s.timers|
    ensures Core(CreateAll(s, ns), pending) && SameTimes(s, CreateAll(s, ns)) && CreateAll(s, ns).log == s.log
    decreases |ns|
  {
    if ns != [] {
      CreateKeeps(s, ns[0], pending);
      CreateAllKeeps(Create(s, ns[0]), ns[1..], pending);
    }
  }

  // Deleting -------------------------------------------------------------------------------------------

  ghost predicate Lacks(es: seq<Entry>, t: nat) {
    forall i :: 0 <= i < |es| ==> es[i].timer != t
  }

  lemma {:induction false} WithoutAt(es: seq<Entry>, t: nat) returns (k: nat)
    ensures k <= |es|
    ensures Lacks(es, t) ==> k == |es| && Without(es, t) == es
    ensures !Lacks(es, t) ==> k < |es| && es[k].timer == t && Without(es, t) == es[..k] + es[k + 1..]
  {
    if es == [] {
      k := 0;
    } else if es[0].timer == t {
      k := 0;
    } else {
      var n := WithoutAt(es[1..], t);
      k := n + 1;
      assert Lacks(es, t) <==> Lacks(es[1..], t) by {
        assert forall i :: 0 <= i < |es[1..]| ==> es[1..][i] == es[i + 1];
        assert forall i :: 1 <= i < |es| ==> es[i] == es[1..][i - 1];
      }
    }
  }

  /** A deleted timer's entry goes, if it has one, and every other stays. */
  lemma WithoutExactly(es: seq<Entry>, t: nat, e: Entry)
    requires DistinctNames(es)
    ensures e in Without(es, t) <==> e in es && e.timer != t
    ensures Lacks(es, t) ==> Without(es, t) == es
  {
    var k := WithoutAt(es, t);
    if k < |es| {
      assert es == es[..k] + [es[k]] + es[k + 1..];
      if e in es[..k] {
        var i :| 0 <= i < k && es[i] == e;
      }
      if e in es[k + 1..] {
        var i :| k < i < |es| && es[i] == e;
      }
    }
  }

  // The i-th entry that is left.
  lemma WithoutEach(es: seq<Entry>, t: nat, k: nat, i: nat)
    requires k < |es| && Without(es, t) == es[..k] + es[k + 1..] && i < |es| - 1
    ensures Without(es, t)[i] == es[if i < k then i else i + 1]
  {
  }

  lemma MapWithout(s: State, es: seq<Entry>, t: nat, repeats: bool)
    requires MapOk(s, es, repeats)
    ensures MapOk(s, Without(es, t), repeats)
    ensures forall i :: 0 <= i < |Without(es, t)| ==> Without(es, t)[i] in es
  {
    var k := WithoutAt(es, t);
    var r := Without(es, t);
    if k < |es| {
      assert |r| == |es| - 1;
      forall i | 0 <= i < |r| ensures r[i] == es[if i < k then i else i + 1] { WithoutEach(es, t, k, i); }
      forall i | 0 <= i < |r| ensures EntryOk(s, r[i], repeats) {
        assert EntryOk(s, es[if i < k then i else i + 1], repeats);
      }
    }
  }

  lemma DeleteKeeps(s: State, t: nat)
    requires Core(s, [])
    ensures Core(DeleteTimerInLoop(s, t), [])
    ensures MinOk(s) && FdOk(s) ==> MinOk(DeleteTimerInLoop(s, t)) && FdOk(DeleteTimerInLoop(s, t))
  {
    var r := DeleteTimerInLoop(s, t);
    MapWithout(s, s.repeated, t, true);
    MapSame(s, r, s.once, false);
    MapSame(s, r, r.repeated, true);
  }

  /** Deletion takes the target's entry out of the repeat map, if it has one, and does nothing else: a one-shot
      timer stays stored, and the descriptor armed. */
  lemma DeleteExactly(s: State, t: nat, e: Entry)
    requires DistinctNames(s.repeated)
    ensures var r := DeleteTimerInLoop(s, t);
      && (e in r.repeated <==> e in s.repeated && e.timer != t)
      && r.once == s.once && r.timers == s.timers && r.min == s.min
      && r.fd == s.fd && r.rearmed == s.rearmed && r.log == s.log
  {
    WithoutExactly(s.repeated, t, e);
  }

  // One round: the one-shot timers ----------------------------------------------------------------

  lemma ExecKeeps(s: State, t: nat, pending: seq<nat>)
    requires Core(s, pending) && t < |s.timers| && t !in pending
    ensures SameTimes(s, Exec(s, t)) && Exec(s, t).log == s.log + [t]
    ensures Core(Exec(s, t), if s.timers[t].duration == 0 then pending else pending + [t])
  {
    var r := Exec(s, t);
    MapSame(s, r, s.once, false);
    MapSame(s, r, s.repeated, true);
    var after := if s.timers[t].duration == 0 then pending else pending + [t];
    forall i | 0 <= i < |r.timers| ensures OnSchedule(r.timers[i], i in after) {
      assert OnSchedule(s.timers[i], i in pending);
    }
  }

  lemma ExecOneKeeps(s: State, e: Entry, adds: seq<New>)
    requires Core(s, []) && EntryOk(s, e, false)
    ensures var r := CreateAll(Exec(s, e.timer), adds);
      Core(r, []) && SameTimes(s, r) && r.log == s.log + [e.timer]
  {
    ExecKeeps(s, e.timer, []);
    CreateAllKeeps(Exec(s, e.timer), adds, []);
  }

  lemma NamesFirst(log: seq<nat>, es: seq<Entry>)
    requires es != []
    ensures log + [es[0].timer] + Names(es[1..]) == log + Names(es)
  {
    assert Names(es) == [es[0].timer] + Names(es[1..]);
  }

  lemma {:induction false} ExecOnceKeeps(s: State, due: seq<Entry>, script: seq<seq<New>>)
    requires Core(s, []) && MapOk(s, due, false)
    ensures Core(ExecOnce(s, due, script), []) && SameTimes(s, ExecOnce(s, due, script))
    ensures ExecOnce(s, due, script).log == s.log + Names(due)
    decreases |due|
  {
    if due == [] {
      assert s.log + Names(due) == s.log;
    } else {
      assert EntryOk(s, due[0], false);
      ExecOneKeeps(s, due[0], Head(script));
      var next := CreateAll(Exec(s, due[0].timer), Head(script));
      assert MapOk(next, due[1..], false) by {
        MapSlice(s, due, false, 1, |due|);
        assert due[1..|due|] == due[1..];
        MapSame(s, next, due[1..], false);
      }
      ExecOnceKeeps(next, due[1..], Tail(script));
      NamesFirst(s.log, due);
    }
  }

  // One round: the repeat timers -------------------------------------------------------------------

  // Timers whose callback ran in this round; running: the one the walk is at included.
  ghost function Pending(c: Cursor, running: bool): seq<nat>
    requires running ==> c.at < |c.state.repeated|
  {
    if running then c.update + [c.state.repeated[c.at].timer] else c.update
  }

  // One of the first n entries is t's.
  ghost predicate Passed(es: seq<Entry>, n: nat, t: nat) {
    exists i :: 0 <= i < n && i < |es| && es[i].timer == t
  }

  // The timers to be moved are those of entries the walk has passed.
  ghost predicate CursorOk(c: Cursor, running: bool) {
    && c.at <= c.upper <= |c.state.repeated| && (running ==> c.at < c.upper)
    && Core(c.state, Pending(c, running))
    && (forall i, j :: 0 <= i < j < |c.update| ==> c.update[i] != c.update[j])
    && forall t :: t in c.update ==> Passed(c.state.repeated, c.at, t)
  }

  // An entry the walk has passed stays passed.
  lemma NameStays(es: seq<Entry>, e: Entry, n: nat, t: nat)
    requires n <= |es| && Passed(es, n, t)
    ensures Passed(Insert(es, e), if UpperBound(es, e.key) <= n then n + 1 else n, t)
  {
    var i :| 0 <= i < n && es[i].timer == t;
    InsertBeside(es, e, i);
  }

  lemma PendingBelow(c: Cursor, running: bool)
    requires CursorOk(c, running)
    ensures forall t :: t in Pending(c, running) ==> t < |c.state.timers|
    ensures c.at < |c.state.repeated| ==> c.state.repeated[c.at].timer !in c.update
  {
    forall t | t in c.update ensures t < |c.state.timers| {
      var i :| 0 <= i < c.at && c.state.repeated[i].timer == t;
      assert EntryOk(c.state, c.state.repeated[i], true);
    }
    if c.at < |c.state.repeated| {
      assert EntryOk(c.state, c.state.repeated[c.at], true);
    }
  }

  lemma InsertBeside(es: seq<Entry>, e: Entry, n: nat)
    requires n < |es|
    ensures Insert(es, e)[if UpperBound(es, e.key) <= n then n + 1 else n] == es[n]
  {
    InsertAt(es, e);
  }

  lemma CreateUnderPending(c: Cursor, n: New, running: bool)
    requires CursorOk(c, running) && Created(c.state, CreateUnder(c, n).state, n)
    ensures var r := CreateUnder(c, n);
      r.at <= r.upper <= |r.state.repeated| && (running ==>
          r.at < r.upper) && Pending(r, running) == Pending(c, running)
  {
    var e := Entry(n.expiration, |c.state.timers|);
    InsertAt(c.state.repeated, e);
    if running { InsertBeside(c.state.repeated, e, c.at); }
  }

  lemma CreateUnderNames(c: Cursor, n: New, t: nat)
    requires c.at <= |c.state.repeated| && Created(c.state, CreateUnder(c, n).state, n)
    requires Passed(c.state.repeated, c.at, t)
    ensures Passed(CreateUnder(c, n).state.repeated, CreateUnder(c, n).at, t)
  {
    var e := Entry(n.expiration, |c.state.timers|);
    InsertAt(c.state.repeated, e);
    if n.duration != 0 { NameStays(c.state.repeated, e, c.at, t); }
  }

  lemma CreateUnderKeeps(c: Cursor, n: New, running: bool)
    requires CursorOk(c, running)
    ensures CursorOk(CreateUnder(c, n), running) && CreateUnder(c, n).update == c.update
    ensures Created(c.state, CreateUnder(c, n).state, n)
    ensures Pending(CreateUnder(c, n), running) == Pending(c, running)
  {
    var r := CreateUnder(c, n);
    assert Core(r.state, Pending(c, running)) && Created(c.state, r.state, n) by {
      PendingBelow(c, running);
      CreateKeeps(c.state, n, Pending(c, running));
    }
    CreateUnderPending(c, n, running);
    forall t | t in r.update ensures Passed(r.state.repeated, r.at, t) { CreateUnderNames(c, n, t); }
  }

  lemma {:induction false} CreateAllUnderKeeps(c: Cursor, ns: seq<New>, running: bool)
    requires CursorOk(c, running)
    ensures var r := CreateAllUnder(c, ns);
      CursorOk(r, running) && r.update == c.update && r.state.log == c.state.log &&
          Pending(r, running) == Pending(c, running)
    decreases |ns|
  {
    if ns != [] {
      CreateUnderKeeps(c, ns[0], running);
      CreateAllUnderKeeps(CreateUnder(c, ns[0]), ns[1..], running);
    }
  }

  // One turn of the walk.
  function Turn(c: Cursor, adds: seq<New>): Cursor
    requires c.at < |c.state.repeated|
  {
    var t := c.state.repeated[c.at].timer;
    var ran := CreateAllUnder(c.(state := Exec(c.state, t)), adds);
    ran.(at := ran.at + 1, update := ran.update + [t])
  }

  // c has its callback run, before anything is added.
  function Running(c: Cursor): Cursor
    requires c.at < |c.state.repeated|
  {
    c.(state := Exec(c.state, c.state.repeated[c.at].timer))
  }

  lemma RunningOk(c: Cursor)
    requires CursorOk(c, false) && c.at < c.upper
    ensures CursorOk(Running(c), true) && Running(c).state.repeated == c.state.repeated
    ensures Running(c).state.log == c.state.log + [c.state.repeated[c.at].timer]
  {
    PendingBelow(c, false);
    assert EntryOk(c.state, c.state.repeated[c.at], true);
    ExecKeeps(c.state, c.state.repeated[c.at].timer, c.update);
  }

  // The timer that has run is moved later, and the walk goes on behind it.
  lemma StepPast(ran: Cursor, t: nat)
    requires CursorOk(ran, true) && ran.state.repeated[ran.at].timer == t
    ensures CursorOk(ran.(at := ran.at + 1, update := ran.update + [t]), false)
  {
    PendingBelow(ran, true);
    var r := ran.(at := ran.at + 1, update := ran.update + [t]);
    forall x | x in r.update ensures Passed(r.state.repeated, r.at, x) {
      if x == t { assert r.state.repeated[ran.at].timer == x; } else { assert Passed(ran.state.repeated, ran.at, x); }
    }
    forall i, j | 0 <= i < j < |r.update| ensures r.update[i] != r.update[j] {
      assert i < |ran.update| && ran.update[i] in ran.update;
    }
  }

  lemma SamePending(c: Cursor, r: Cursor)
    requires c.at < |c.state.repeated| && r.at < |r.state.repeated| && Pending(c, true) == Pending(r, true) &&
        c.update == r.update
    ensures r.state.repeated[r.at].timer == c.state.repeated[c.at].timer
  {
    assert Pending(c, true)[|c.update|] == Pending(r, true)[|c.update|];
  }

  lemma TurnKeeps(c: Cursor, adds: seq<New>)
    requires CursorOk(c, false) && c.at < c.upper
    ensures CursorOk(Turn(c, adds), false)
    ensures Turn(c, adds).state.log == c.state.log + [c.state.repeated[c.at].timer]
  {
    var c1 := Running(c);
    RunningOk(c);
    CreateAllUnderKeeps(c1, adds, true);
    var ran := CreateAllUnder(c1, adds);
    SamePending(c1, ran);
    StepPast(ran, c.state.repeated[c.at].timer);
  }

  lemma {:induction false} ExecRepeatedKeeps(c: Cursor, script: seq<seq<New>>)
    requires CursorOk(c, false)
    ensures CursorOk(ExecRepeated(c, script), false)
    ensures ExecRepeated(c, script).at == ExecRepeated(c, script).upper
    ensures |ExecRepeated(c, script).state.log| >= |c.state.log| + c.upper - c.at
    ensures c.state.log <= ExecRepeated(c, script).state.log
    decreases c.upper - c.at + Total(script)
  {
    if c.at < c.upper {
      TurnKeeps(c, Head(script));
      var r := Turn(c, Head(script));
      ExecRepeatedKeeps(r, Tail(script));
      assert ExecRepeated(c, script) == ExecRepeated(r, Tail(script));
    }
  }

  lemma {:induction false} ReinsertKeeps(s: State, update: seq<nat>)
    requires Core(s, update) && forall t :: t in update ==> t < |s.timers| && s.timers[t].duration != 0 && Fresh(s, t)
    requires forall i, j :: 0 <= i < j < |update| ==> update[i] != update[j]
    ensures Core(Reinsert(s, update), []) && Reinsert(s, update).log == s.log
    ensures multiset(Names(Reinsert(s, update).repeated)) == multiset(Names(s.repeated)) + multiset(update)
    decreases |update|
  {
    if update != [] {
      var t, rest := update[0], update[1..];
      assert t in update;
      var moved := Put(s, t, Advance(Get(s, t)));
      var e := Entry(Get(moved, t).expiration, t);
      var next := moved.(repeated := Insert(moved.repeated, e));
      MovedKeeps(s, moved, t, rest);
      InsertOk(moved, moved.repeated, e, true);
      MapSame(moved, next, next.repeated, true);
      MapSame(moved, next, next.once, false);
      InsertNames(moved.repeated, e);
      assert update == [t] + rest;
      forall x | x in rest ensures x < |next.timers| && next.timers[x].duration != 0 && Fresh(next, x) {
        assert x in update && x != t;
        assert multiset(Names(next.repeated))[x] == multiset(Names(s.repeated))[x];
      }
      assert Core(next, rest);
      ReinsertKeeps(next, rest);
    }
  }

  // A timer in neither map moves on by one period.
  lemma MovedKeeps(s: State, moved: State, t: nat, rest: seq<nat>)
    requires Core(s, [t] + rest) && t < |s.timers| && s.timers[t].duration != 0 && Fresh(s, t) && t !in rest
    requires moved == Put(s, t, Advance(Get(s, t)))
    ensures Core(moved, rest)
  {
    forall i | 0 <= i < |s.once| ensures EntryOk(moved, s.once[i], false) {
      assert EntryOk(s, s.once[i], false) && Names(s.once)[i] in Names(s.once);
    }
    forall i | 0 <= i < |s.repeated| ensures EntryOk(moved, s.repeated[i], true) {
      assert EntryOk(s, s.repeated[i], true) && Names(s.repeated)[i] in Names(s.repeated);
    }
    forall x | 0 <= x < |s.timers| ensures OnSchedule(moved.timers[x], x in rest) {
      assert OnSchedule(s.timers[x], x in [t] + rest);
      var v := s.timers[t];
      assert (v.fired - 1) * v.duration + v.duration == v.fired * v.duration;
    }
  }

  // A whole round ------------------------------------------------------------------------------------

  // The state in which the walk over the repeat timers starts.
  function AfterOnce(s: State, now: int, script: seq<seq<New>>): State {
    var u := UpperBound(s.once, now);
    ExecOnce(s.(fd := Disarmed, once := s.once[u..]), s.once[..u], script)
  }

  function Walk(s: State, now: int, script: seq<seq<New>>): Cursor {
    var first := AfterOnce(s, now, script);
    ExecRepeated(Cursor(first, 0, UpperBound(first.repeated, now), []), Skip(script, UpperBound(s.once, now)))
  }

  lemma DueSlices(s: State, u: nat)
    requires Core(s, []) && u <= |s.once|
    ensures var s0 := s.(fd := Disarmed, once := s.once[u..]); Core(s0, []) && MapOk(s0, s.once[..u], false)
  {
    var s0 := s.(fd := Disarmed, once := s.once[u..]);
    MapSlice(s, s.once, false, 0, u);
    MapSlice(s, s.once, false, u, |s.once|);
    assert s.once[0..u] == s.once[..u] && s.once[u..|s.once|] == s.once[u..];
    MapSame(s, s0, s0.once, false);
    MapSame(s, s0, s0.repeated, true);
    MapSame(s, s0, s.once[..u], false);
  }

  lemma AfterOnceKeeps(s: State, now: int, script: seq<seq<New>>)
    requires Core(s, [])
    ensures Core(AfterOnce(s, now, script), [])
    ensures AfterOnce(s, now, script).log == s.log + Names(s.once[..UpperBound(s.once, now)])
  {
    var u := UpperBound(s.once, now);
    DueSlices(s, u);
    ExecOnceKeeps(s.(fd := Disarmed, once := s.once[u..]), s.once[..u], script);
  }

  lemma WalkKeeps(s: State, now: int, script: seq<seq<New>>)
    requires Core(s, [])
    ensures CursorOk(Walk(s, now, script), false) && Walk(s, now, script).at == Walk(s, now, script).upper
  {
    AfterOnceKeeps(s, now, script);
    var first := AfterOnce(s, now, script);
    ExecRepeatedKeeps(Cursor(first, 0, UpperBound(first.repeated, now), []), Skip(script, UpperBound(s.once, now)));
  }

  // The timers that have run are no longer stored once the entries the walk has passed are erased.
  lemma ErasedFresh(c: Cursor, erased: State)
    requires CursorOk(c, false) && c.at == c.upper && erased == c.state.(repeated := c.state.repeated[c.upper..])
    ensures Core(erased, c.update)
    ensures forall t :: t in c.update ==> t < |erased.timers| && erased.timers[t].duration != 0 && Fresh(erased, t)
  {
    var es := c.state.repeated;
    MapSlice(c.state, es, true, c.upper, |es|);
    MapSame(c.state, erased, erased.repeated, true);
    MapSame(c.state, erased, erased.once, false);
    forall t | t in c.update ensures t < |erased.timers| && erased.timers[t].duration != 0 && Fresh(erased, t) {
      var i :| 0 <= i < c.at && es[i].timer == t;
      assert EntryOk(c.state, es[i], true);
      assert t !in Names(erased.once) by {
        assert forall j :: 0 <= j < |erased.once| ==> EntryOk(c.state, erased.once[j], false);
      }
    }
  }

  lemma HandleReadKeeps(s: State, now: int, script: seq<seq<New>>, later: int)
    requires Core(s, [])
    ensures var r := HandleRead(s, now, script, later);
      Core(r, []) && MinOk(r) && FdOk(r) && r.log == Walk(s, now, script).state.log
  {
    var c := Walk(s, now, script);
    WalkKeeps(s, now, script);
    var erased := c.state.(repeated := c.state.repeated[c.upper..]);
    assert DropFirst(c.state.repeated, c.upper) == c.state.repeated[c.upper..];
    ErasedFresh(c, erased);
    ReinsertKeeps(erased, c.update);
    ResetKeeps(Reinsert(erased, c.update), later, []);
  }

  // Exactly what fires ---------------------------------------------------------------------------------

  // A timer added by a repeat timer's callback goes in behind the entry at which the walk stops.
  predicate Behind(es: seq<Entry>, upper: nat, n: New) {
    n.duration == 0 || (upper < |es| && n.expiration >= es[upper].key)
  }

  // It is not in the walk's way: it goes in behind the stop, or in front of the entry of the running timer.
  predicate Aside(es: seq<Entry>, upper: nat, key: int, n: New) {
    Behind(es, upper, n) || n.expiration < key
  }

  ghost predicate AllAside(es: seq<Entry>, upper: nat, key: int, ns: seq<New>) {
    forall i :: 0 <= i < |ns| ==> Aside(es, upper, key, ns[i])
  }

  // None of the timers is in the way that the callbacks of the entries from at up to upper add.
  ghost predicate ScriptAside(es: seq<Entry>, at: nat, upper: nat, script: seq<seq<New>>) {
    upper <= |es| &&
    forall k :: 0 <= k < upper - at && k < |script| ==> AllAside(es, upper, es[at + k].key, script[k])
  }

  // What is left of the walk has not changed.
  ghost predicate SameWalk(c: Cursor, r: Cursor) {
    && c.at <= c.upper <= |c.state.repeated| && r.at <= r.upper <= |r.state.repeated|
    && r.state.repeated[r.at..r.upper] == c.state.repeated[c.at..c.upper]
    && SameStop(c.state.repeated, c.upper, r.state.repeated, r.upper)
  }

  predicate SameStop(es: seq<Entry>, upper: nat, es': seq<Entry>, upper': nat) {
    (upper < |es| <==> upper' < |es'|) && (upper < |es| ==> es'[upper'] == es[upper])
  }

  // A timer added in the way is one more for the walk to come to.
  lemma InTheWay(c: Cursor, n: New)
    requires CursorOk(c, true) && !Aside(c.state.repeated, c.upper, c.state.repeated[c.at].key, n)
    ensures CreateUnder(c, n).upper == c.upper + 1 && CreateUnder(c, n).at == c.at
  {
    BoundAbove(c.state.repeated, c.at, n.expiration);
    if c.upper < |c.state.repeated| { BoundBelow(c.state.repeated, c.upper, n.expiration); }
  }

  lemma InsertBehind(es: seq<Entry>, e: Entry, i: nat, j: nat)
    requires i <= j < UpperBound(es, e.key)
    ensures Insert(es, e)[i..j] == es[i..j] && Insert(es, e)[j] == es[j]
  {
    InsertAt(es, e);
  }

  lemma InsertBefore(es: seq<Entry>, e: Entry, i: nat, j: nat)
    requires UpperBound(es, e.key) <= i <= j <= |es|
    ensures |Insert(es, e)| == |es| + 1 && Insert(es, e)[i + 1..j + 1] == es[i..j]
    ensures j < |es| ==> Insert(es, e)[j + 1] == es[j]
  {
    InsertAt(es, e);
  }

  lemma InsertedBehind(c: Cursor, r: Cursor, e: Entry)
    requires c.at <= c.upper < |c.state.repeated| && c.upper < UpperBound(c.state.repeated, e.key)
    requires r.state.repeated == Insert(c.state.repeated, e) && r.at == c.at && r.upper == c.upper
    ensures SameWalk(c, r)
  {
    InsertBehind(c.state.repeated, e, c.at, c.upper);
    InsertAt(c.state.repeated, e);
  }

  lemma InsertedBefore(c: Cursor, r: Cursor, e: Entry)
    requires UpperBound(c.state.repeated, e.key) <= c.at <= c.upper <= |c.state.repeated|
    requires r.state.repeated == Insert(c.state.repeated, e) && r.at == c.at + 1 && r.upper == c.upper + 1
    ensures SameWalk(c, r)
  {
    InsertBefore(c.state.repeated, e, c.at, c.upper);
  }

  lemma OneAside(c: Cursor, n: New)
    requires CursorOk(c, true) && Aside(c.state.repeated, c.upper, c.state.repeated[c.at].key, n)
    ensures SameWalk(c, CreateUnder(c, n))
  {
    CreateUnderKeeps(c, n, true);
    if n.duration != 0 {
      var e := Entry(n.expiration, |c.state.timers|);
      if Behind(c.state.repeated, c.upper, n) {
        BoundAbove(c.state.repeated, c.upper, n.expiration);
        InsertedBehind(c, CreateUnder(c, n), e);
      } else {
        BoundBelow(c.state.repeated, c.at, n.expiration);
        InsertedBefore(c, CreateUnder(c, n), e);
      }
    }
  }

  lemma AsideSame(es: seq<Entry>, upper: nat, es': seq<Entry>, upper': nat, key: int, ns: seq<New>)
    requires SameStop(es, upper, es', upper')
    ensures AllAside(es, upper, key, ns) <==> AllAside(es', upper', key, ns)
  {
    assert forall n: New :: Aside(es, upper, key, n) <==> Aside(es', upper', key, n);
  }

  lemma AsideFirst(es: seq<Entry>, upper: nat, key: int, ns: seq<New>)
    requires ns != [] && Aside(es, upper, key, ns[0])
    ensures AllAside(es, upper, key, ns) <==> AllAside(es, upper, key, ns[1..])
  {
    if AllAside(es, upper, key, ns[1..]) {
      forall i | 0 <= i < |ns| ensures Aside(es, upper, key, ns[i]) {
        if i > 0 { assert Aside(es, upper, key, ns[1..][i - 1]); }
      }
    }
  }

  lemma SameTwice(a: Cursor, b: Cursor, c: Cursor)
    requires SameWalk(a, b) && SameWalk(b, c)
    ensures SameWalk(a, c)
  {
  }

  lemma SameAt(c: Cursor, r: Cursor)
    requires SameWalk(c, r) && c.at < c.upper
    ensures r.at < r.upper && r.state.repeated[r.at] == c.state.repeated[c.at]
  {
    assert r.state.repeated[r.at..r.upper][0] == c.state.repeated[c.at..c.upper][0];
  }

  lemma AsideLater(c: Cursor, n: New, ns: seq<New>)
    requires CursorOk(c, true) && ns != [] && ns[0] == n
    requires Aside(c.state.repeated, c.upper, c.state.repeated[c.at].key, n)
    ensures var r := CreateUnder(c, n);
      && CursorOk(r, true) && SameWalk(c, r)
      && (AllAside(r.state.repeated, r.upper, r.state.repeated[r.at].key, ns[1..]) <==>
          AllAside(c.state.repeated, c.upper, c.state.repeated[c.at].key, ns))
  {
    var r := CreateUnder(c, n);
    CreateUnderKeeps(c, n, true);
    OneAside(c, n);
    SameAt(c, r);
    AsideFirst(c.state.repeated, c.upper, c.state.repeated[c.at].key, ns);
    AsideSame(c.state.repeated, c.upper, r.state.repeated, r.upper, c.state.repeated[c.at].key, ns[1..]);
  }

  lemma {:induction false} AsideKeeps(c: Cursor, ns: seq<New>)
    requires CursorOk(c, true) && AllAside(c.state.repeated, c.upper, c.state.repeated[c.at].key, ns)
    ensures SameWalk(c, CreateAllUnder(c, ns))
    decreases |ns|
  {
    if ns != [] {
      var r := CreateUnder(c, ns[0]);
      AsideLater(c, ns[0], ns);
      AsideKeeps(r, ns[1..]);
      SameTwice(c, r, CreateAllUnder(r, ns[1..]));
    }
  }

  lemma {:induction false} Grows(c: Cursor, ns: seq<New>)
    requires CursorOk(c, true) && !AllAside(c.state.repeated, c.upper, c.state.repeated[c.at].key, ns)
    ensures var r := CreateAllUnder(c, ns); r.upper - r.at > c.upper - c.at
    decreases |ns|
  {
    if Aside(c.state.repeated, c.upper, c.state.repeated[c.at].key, ns[0]) {
      AsideLater(c, ns[0], ns);
      SameLength(c, CreateUnder(c, ns[0]));
      Grows(CreateUnder(c, ns[0]), ns[1..]);
    } else {
      InTheWay(c, ns[0]);
    }
  }

  lemma SameLength(c: Cursor, r: Cursor)
    requires SameWalk(c, r)
    ensures r.upper - r.at == c.upper - c.at
  {
    assert |r.state.repeated[r.at..r.upper]| == |c.state.repeated[c.at..c.upper]|;
  }

  // What is left of the walk has lost its first entry.
  ghost predicate Shorter(c: Cursor, r: Cursor) {
    && c.at < c.upper <= |c.state.repeated| && r.at <= r.upper <= |r.state.repeated|
    && r.state.repeated[r.at..r.upper] == c.state.repeated[c.at + 1..c.upper]
    && SameStop(c.state.repeated, c.upper, r.state.repeated, r.upper)
  }

  // One turn that adds nothing in the way.
  lemma TurnAside(c: Cursor, adds: seq<New>)
    requires CursorOk(c, false) && c.at < c.upper
    requires AllAside(c.state.repeated, c.upper, c.state.repeated[c.at].key, adds)
    ensures Shorter(c, Turn(c, adds))
  {
    RunningOk(c);
    AsideKeeps(Running(c), adds);
    TurnOff(c, adds);
  }

  lemma TurnOff(c: Cursor, adds: seq<New>)
    requires c.at < c.upper <= |c.state.repeated| && Running(c).state.repeated == c.state.repeated
    requires SameWalk(Running(c), CreateAllUnder(Running(c), adds))
    ensures Shorter(c, Turn(c, adds))
  {
    var ran := CreateAllUnder(Running(c), adds);
    SameAt(Running(c), ran);
    FirstOff(Running(c), ran, Turn(c, adds));
  }

  lemma FirstOff(c: Cursor, ran: Cursor, r: Cursor)
    requires SameWalk(c, ran) && c.at < c.upper && ran.at < ran.upper
    requires r.state.repeated == ran.state.repeated && r.at == ran.at + 1 && r.upper == ran.upper
    ensures Shorter(c, r)
  {
    assert ran.state.repeated[ran.at..ran.upper][1..] == ran.state.repeated[ran.at + 1..ran.upper];
    assert c.state.repeated[c.at..c.upper][1..] == c.state.repeated[c.at + 1..c.upper];
  }

  lemma FirstName(es: seq<Entry>, i: nat, j: nat)
    requires i < j <= |es|
    ensures Names(es[i..j]) == [es[i].timer] + Names(es[i + 1..j])
  {
  }

  lemma TurnFirst(c: Cursor, script: seq<seq<New>>)
    requires c.at < c.upper <= |c.state.repeated|
    ensures ExecRepeated(c, script) == ExecRepeated(Turn(c, Head(script)), Tail(script))
  {
  }

  // The k-th turn to come is the one behind it for the rest of the walk.
  lemma NextAside(c: Cursor, r: Cursor, script: seq<seq<New>>, k: nat)
    requires Shorter(c, r) && k < r.upper - r.at && k < |Tail(script)|
    ensures c.at + 1 + k < c.upper && script != []
    ensures AllAside(r.state.repeated, r.upper, r.state.repeated[r.at + k].key, Tail(script)[k]) <==>
            AllAside(c.state.repeated, c.upper, c.state.repeated[c.at + (k + 1)].key, script[k + 1])
  {
    ShorterLength(c, r);
    assert r.state.repeated[r.at..r.upper][k] == c.state.repeated[c.at + 1..c.upper][k];
    AsideSame(c.state.repeated, c.upper, r.state.repeated, r.upper, r.state.repeated[r.at + k].key, Tail(script)[k]);
  }

  // A turn uses up the first piece of the script.
  lemma StillAside(c: Cursor, r: Cursor, script: seq<seq<New>>)
    requires Shorter(c, r) && AllAside(c.state.repeated, c.upper, c.state.repeated[c.at].key, Head(script))
    ensures ScriptAside(c.state.repeated, c.at, c.upper, script) <==>
            ScriptAside(r.state.repeated, r.at, r.upper, Tail(script))
  {
    ShorterLength(c, r);
    if ScriptAside(r.state.repeated, r.at, r.upper, Tail(script)) {
      AsideBack(c, r, script);
    } else if ScriptAside(c.state.repeated, c.at, c.upper, script) {
      AsideOn(c, r, script);
    }
  }

  lemma AsideBack(c: Cursor, r: Cursor, script: seq<seq<New>>)
    requires Shorter(c, r) && AllAside(c.state.repeated, c.upper, c.state.repeated[c.at].key, Head(script))
    requires ScriptAside(r.state.repeated, r.at, r.upper, Tail(script))
    ensures ScriptAside(c.state.repeated, c.at, c.upper, script)
  {
    ShorterLength(c, r);
    forall k | 0 <= k < c.upper - c.at && k < |script|
      ensures AllAside(c.state.repeated, c.upper, c.state.repeated[c.at + k].key, script[k])
    {
      if k > 0 { NextAside(c, r, script, k - 1); }
    }
  }

  lemma AsideOn(c: Cursor, r: Cursor, script: seq<seq<New>>)
    requires Shorter(c, r) && ScriptAside(c.state.repeated, c.at, c.upper, script)
    ensures ScriptAside(r.state.repeated, r.at, r.upper, Tail(script))
  {
    ShorterLength(c, r);
    forall k | 0 <= k < r.upper - r.at && k < |Tail(script)|
      ensures AllAside(r.state.repeated, r.upper, r.state.repeated[r.at + k].key, Tail(script)[k])
    {
      NextAside(c, r, script, k);
    }
  }

  lemma WalkStep(c: Cursor, script: seq<seq<New>>)
    requires CursorOk(c, false) && c.at < c.upper && ScriptAside(c.state.repeated, c.at, c.upper, script)
    ensures var r := Turn(c, Head(script));
      && CursorOk(r, false) && r.upper - r.at == c.upper - c.at - 1
      && ScriptAside(r.state.repeated, r.at, r.upper, Tail(script))
      && r.state.log + Names(r.state.repeated[r.at..r.upper]) == c.state.log + Names(c.state.repeated[c.at..c.upper])
  {
    var r := Turn(c, Head(script));
    HeadAside(c, script);
    TurnKeeps(c, Head(script));
    TurnAside(c, Head(script));
    StillAside(c, r, script);
    ShorterLength(c, r);
    LogStep(c, r);
  }

  lemma LogStep(c: Cursor, r: Cursor)
    requires Shorter(c, r) && r.state.log == c.state.log + [c.state.repeated[c.at].timer]
    ensures r.state.log + Names(r.state.repeated[r.at..r.upper]) == c.state.log + Names(c.state.repeated[c.at..c.upper])
  {
    FirstName(c.state.repeated, c.at, c.upper);
    Joined(c.state.log, c.state.repeated[c.at].timer, Names(c.state.repeated[c.at + 1..c.upper]));
  }

  lemma Joined(log: seq<nat>, t: nat, rest: seq<nat>)
    ensures log + [t] + rest == log + ([t] + rest)
  {
  }

  lemma {:induction false} WalkExactly(c: Cursor, script: seq<seq<New>>)
    requires CursorOk(c, false) && ScriptAside(c.state.repeated, c.at, c.upper, script)
    ensures ExecRepeated(c, script).state.log == c.state.log + Names(c.state.repeated[c.at..c.upper])
    decreases c.upper - c.at
  {
    if c.at == c.upper {
      assert c.state.log + Names(c.state.repeated[c.at..c.upper]) == c.state.log;
    } else {
      WalkStep(c, script);
      TurnFirst(c, script);
      WalkExactly(Turn(c, Head(script)), Tail(script));
    }
  }

  lemma HeadAside(c: Cursor, script: seq<seq<New>>)
    requires c.at < c.upper && ScriptAside(c.state.repeated, c.at, c.upper, script)
    ensures AllAside(c.state.repeated, c.upper, c.state.repeated[c.at].key, Head(script))
  {
    if script != [] { assert AllAside(c.state.repeated, c.upper, c.state.repeated[c.at + 0].key, script[0]); }
  }

  lemma ShorterLength(c: Cursor, r: Cursor)
    requires Shorter(c, r)
    ensures r.upper - r.at == c.upper - c.at - 1
  {
    assert |r.state.repeated[r.at..r.upper]| == |c.state.repeated[c.at + 1..c.upper]|;
  }

  lemma {:induction false} WalkTooFar(c: Cursor, script: seq<seq<New>>)
    requires CursorOk(c, false) && !ScriptAside(c.state.repeated, c.at, c.upper, script)
    ensures |ExecRepeated(c, script).state.log| > |c.state.log| + c.upper - c.at
    decreases c.upper - c.at
  {
    var r := Turn(c, Head(script));
    TurnKeeps(c, Head(script));
    TurnFirst(c, script);
    if AllAside(c.state.repeated, c.upper, c.state.repeated[c.at].key, Head(script)) {
      TurnAside(c, Head(script));
      StillAside(c, r, script);
      ShorterLength(c, r);
      WalkTooFar(r, Tail(script));
    } else {
      RunningOk(c);
      Grows(Running(c), Head(script));
      ExecRepeatedKeeps(r, Tail(script));
    }
  }

  /** One round runs the callbacks of exactly the timers that are due, one-shot timers first, each kind in
      the order of expiration, if and only if no due repeat timer's callback adds a repeat timer that expires
      no earlier than its own timer but earlier than the first stored repeat timer that is not due, or with
      none such stored. The walk over the live map comes to the added timer, and it fires, due or not. */
  lemma RoundFires(s: State, now: int, script: seq<seq<New>>, later: int)
    requires Core(s, [])
    ensures var u, first := UpperBound(s.once, now), AfterOnce(s, now, script);
      var v := UpperBound(first.repeated, now);
      HandleRead(s, now, script, later).log == s.log + Names(s.once[..u]) + Names(first.repeated[..v]) <==>
      ScriptAside(first.repeated, 0, v, Skip(script, u))
  {
    var u, first := UpperBound(s.once, now), AfterOnce(s, now, script);
    var v, rest := UpperBound(first.repeated, now), Skip(script, u);
    AfterOnceKeeps(s, now, script);
    HandleReadKeeps(s, now, script, later);
    var c := Cursor(first, 0, v, []);
    assert CursorOk(c, false);
    assert first.repeated[0..v] == first.repeated[..v];
    if ScriptAside(first.repeated, 0, v, rest) {
      WalkExactly(c, rest);
    } else {
      WalkTooFar(c, rest);
    }
  }

  // What is erased without having run ------------------------------------------------------------------

  // A callback adds a repeat timer that expires before the timer it belongs to.
  ghost predicate Early(ns: seq<New>, key: int) {
    exists i :: 0 <= i < |ns| && ns[i].duration != 0 && ns[i].expiration < key
  }

  // Some callback of the walk does.
  ghost predicate Strays(c: Cursor, script: seq<seq<New>>)
    decreases (if c.at < c.upper then c.upper - c.at else 0) + Total(script)
  {
    c.at < c.upper && c.at < |c.state.repeated| &&
    (Early(Head(script), c.state.repeated[c.at].key) || Strays(Turn(c, Head(script)), Tail(script)))
  }

  // What an entry inserted behind the running timer's, or in front of it, does to the entries passed.
  lemma PassedBehind(es: seq<Entry>, e: Entry, at: nat)
    requires Sorted(es) && at < |es| && es[at].key <= e.key
    ensures UpperBound(es, e.key) > at
    ensures Insert(es, e)[..at] == es[..at] && Insert(es, e)[at] == es[at]
  {
    BoundAbove(es, at, e.key);
    InsertAt(es, e);
  }

  lemma PassedBefore(es: seq<Entry>, e: Entry, at: nat)
    requires at < |es| && es[at].key > e.key
    ensures UpperBound(es, e.key) <= at && |Insert(es, e)| == |es| + 1 && Insert(es, e)[at + 1] == es[at]
  {
    BoundBelow(es, at, e.key);
    InsertAt(es, e);
  }

  // The entries the walk has passed, and the one it is at.
  ghost predicate PassedSame(c: Cursor, r: Cursor) {
    && c.at < |c.state.repeated| && r.at < |r.state.repeated|
    && r.state.repeated[r.at] == c.state.repeated[c.at]
    && (r.at == c.at ==> r.state.repeated[..r.at] == c.state.repeated[..c.at])
  }

  lemma InsertedPassed(c: Cursor, r: Cursor, e: Entry)
    requires Sorted(c.state.repeated) && c.at < |c.state.repeated| && r.state.repeated == Insert(c.state.repeated, e)
    requires r.at == if UpperBound(c.state.repeated, e.key) <= c.at then c.at + 1 else c.at
    ensures PassedSame(c, r) && (r.at == c.at + 1 <==> e.key < c.state.repeated[c.at].key)
  {
    if e.key < c.state.repeated[c.at].key {
      PassedBefore(c.state.repeated, e, c.at);
    } else {
      PassedBehind(c.state.repeated, e, c.at);
    }
  }

  lemma OnePassed(c: Cursor, n: New)
    requires CursorOk(c, true)
    ensures var r := CreateUnder(c, n);
      && CursorOk(r, true) && PassedSame(c, r)
      && r.at == c.at + (if n.duration != 0 && n.expiration < c.state.repeated[c.at].key then 1 else 0)
  {
    CreateUnderKeeps(c, n, true);
    if n.duration != 0 { InsertedPassed(c, CreateUnder(c, n), Entry(n.expiration, |c.state.timers|)); }
  }

  lemma EarlyFirst(ns: seq<New>, key: int)
    requires ns != []
    ensures Early(ns, key) <==> (ns[0].duration != 0 && ns[0].expiration < key) || Early(ns[1..], key)
  {
    if Early(ns[1..], key) {
      var i :| 0 <= i < |ns[1..]| && ns[1..][i].duration != 0 && ns[1..][i].expiration < key;
      assert ns[i + 1] == ns[1..][i];
    }
    if Early(ns, key) && !(ns[0].duration != 0 && ns[0].expiration < key) {
      var i :| 0 <= i < |ns| && ns[i].duration != 0 && ns[i].expiration < key;
      assert ns[1..][i - 1] == ns[i];
    }
  }

  lemma {:induction false} AllPassed(c: Cursor, ns: seq<New>)
    requires CursorOk(c, true)
    ensures var r := CreateAllUnder(c, ns);
      && r.at >= c.at && (r.at > c.at <==> Early(ns, c.state.repeated[c.at].key))
      && PassedSame(c, r)
    decreases |ns|
  {
    if ns != [] {
      OnePassed(c, ns[0]);
      EarlyFirst(ns, c.state.repeated[c.at].key);
      AllPassed(CreateUnder(c, ns[0]), ns[1..]);
    }
  }

  lemma TurnPassed(c: Cursor, adds: seq<New>)
    requires CursorOk(c, false) && c.at < c.upper
    ensures var r, early := Turn(c, adds), Early(adds, c.state.repeated[c.at].key);
      && CursorOk(r, false) && |r.update| == |c.update| + 1 && r.at >= c.at + 1 && (r.at > c.at + 1 <==> early)
      && (!early && c.update == Names(c.state.repeated[..c.at]) ==> r.update == Names(r.state.repeated[..r.at]))
  {
    var r := Turn(c, adds);
    TurnKeeps(c, adds);
    RunningOk(c);
    AllPassed(Running(c), adds);
    CreateAllUnderKeeps(Running(c), adds, true);
    if r.at == c.at + 1 { OneMorePassed(c.state.repeated, r.state.repeated, c.at); }
  }

  lemma OneMorePassed(es: seq<Entry>, es': seq<Entry>, at: nat)
    requires at < |es| && at < |es'| && es'[at] == es[at] && es'[..at] == es[..at]
    ensures Names(es'[..at + 1]) == Names(es[..at]) + [es[at].timer]
  {
    assert es'[..at + 1] == es[..at] + [es[at]];
  }

  // Every entry the walk has passed belongs to a timer that has run, unless it strayed there.
  lemma {:induction false} WalkPassed(c: Cursor, script: seq<seq<New>>)
    requires CursorOk(c, false)
    ensures var r := ExecRepeated(c, script);
      && r.at - |r.update| >= c.at - |c.update|
      && (Strays(c, script) ==> r.at - |r.update| > c.at - |c.update|)
      && (!Strays(c, script) && c.update == Names(c.state.repeated[..c.at]) ==>
          r.at <= |r.state.repeated| && r.update == Names(r.state.repeated[..r.at]))
    decreases c.upper - c.at + Total(script)
  {
    if c.at < c.upper {
      TurnPassed(c, Head(script));
      TurnFirst(c, script);
      CreateAllUnderTotal(c, script);
      WalkPassed(Turn(c, Head(script)), Tail(script));
    }
  }

  lemma CreateAllUnderTotal(c: Cursor, script: seq<seq<New>>)
    requires c.at < c.upper && c.at < |c.state.repeated|
    ensures var r := Turn(c, Head(script)); r.upper - r.at + Total(Tail(script)) < c.upper - c.at + Total(script)
  {
  }

  /** A round leaves in the map every repeat timer that was in it at any time of the round, if and only if no
      callback of the walk adds a repeat timer that expires before its own timer. Such a timer goes in among
      the entries that the walk has passed, and is erased with them: it never fires. */
  lemma RoundKeepsAll(s: State, now: int, script: seq<seq<New>>, later: int)
    requires Core(s, [])
    ensures var u, first := UpperBound(s.once, now), AfterOnce(s, now, script);
      var c := Cursor(first, 0, UpperBound(first.repeated, now), []);
      multiset(Names(HandleRead(s, now, script, later).repeated)) ==
      multiset(Names(Walk(s, now, script).state.repeated)) <==>
      !Strays(c, Skip(script, u))
  {
    var u, first := UpperBound(s.once, now), AfterOnce(s, now, script);
    var start, c := Cursor(first, 0, UpperBound(first.repeated, now), []), Walk(s, now, script);
    AfterOnceKeeps(s, now, script);
    WalkKeeps(s, now, script);
    WalkPassed(start, Skip(script, u));
    var erased := c.state.(repeated := c.state.repeated[c.upper..]);
    assert DropFirst(c.state.repeated, c.upper) == c.state.repeated[c.upper..];
    StoredAgain(c, erased);
    if Strays(start, Skip(script, u)) {
      FewerNames(c.state.repeated, c.upper, c.update);
    } else {
      SameNames(c.state.repeated, c.upper);
    }
  }

  lemma StoredAgain(c: Cursor, erased: State)
    requires CursorOk(c, false) && c.at == c.upper && erased == c.state.(repeated := c.state.repeated[c.upper..])
    ensures multiset(Names(Reinsert(erased, c.update).repeated)) ==
            multiset(Names(c.state.repeated[c.upper..])) + multiset(c.update)
  {
    ErasedFresh(c, erased);
    ReinsertKeeps(erased, c.update);
  }

  lemma SameNames(es: seq<Entry>, n: nat)
    requires n <= |es|
    ensures multiset(Names(es)) == multiset(Names(es[n..])) + multiset(Names(es[..n]))
  {
    assert Names(es) == Names(es[..n]) + Names(es[n..]);
  }

  lemma FewerNames(es: seq<Entry>, n: nat, update: seq<nat>)
    requires n <= |es| && |update| < n
    ensures multiset(Names(es[n..])) + multiset(update) != multiset(Names(es))
  {
    assert |multiset(Names(es[n..])) + multiset(update)| == |es| - n + |update|;
    assert |multiset(Names(es))| == |es|;
  }

  /** The due timers are those whose expiration has come. */
  lemma DueExactly(s: State, es: seq<Entry>, repeats: bool, now: int)
    requires MapOk(s, es, repeats)
    ensures forall i :: 0 <= i < |es| ==> (i < UpperBound(es, now) <==> s.timers[es[i].timer].expiration <= now)
  {
    forall i | 0 <= i < |es| ensures i < UpperBound(es, now) <==> s.timers[es[i].timer].expiration <= now {
      assert EntryOk(s, es[i], repeats);
      if es[i].key <= now { BoundAbove(es, i, now); }
    }
  }

  // Runs -----------------------------------------------------------------------------------------------

  datatype Action =
    | Add(timer: New)
    | Delete(name: nat)
    | Round(now: int, script: seq<seq<New>>, later: int)
    | Wait(clock: int)

  function Next(s: State, a: Action): State {
    match a
    case Add(n) => Create(s, n)
    case Delete(t) => DeleteTimerInLoop(s, t)
    case Round(now, script, later) => HandleRead(s, now, script, later)
    case Wait(clock) => Tick(s, clock)
  }

  function After(s: State, run: seq<Action>): State
    decreases |run|
  {
    if run == [] then s else After(Next(s, run[0]), run[1..])
  }

  ghost predicate Inv(s: State) {
    Core(s, []) && MinOk(s) && FdOk(s)
  }

  lemma StepKeeps(s: State, a: Action)
    requires Inv(s)
    ensures Inv(Next(s, a))
  {
    match a {
      case Add(n) => CreateKeeps(s, n, []);
      case Delete(t) => DeleteKeeps(s, t);
      case Round(now, script, later) => HandleReadKeeps(s, now, script, later);
      case Wait(clock) =>
        MapSame(s, Tick(s, clock), s.once, false);
        MapSame(s, Tick(s, clock), s.repeated, true);
    }
  }

  lemma {:induction false} RunKeeps(s: State, run: seq<Action>)
    requires Inv(s)
    ensures Inv(After(s, run))
    decreases |run|
  {
    if run != [] {
      StepKeeps(s, run[0]);
      RunKeeps(Next(s, run[0]), run[1..]);
    }
  }

  /** Over every run: every key is its timer's current expiration, in order, and repeat timers do not drift. */
  lemma KeysAndSchedule(run: seq<Action>)
    ensures var s := After(EMPTY, run);
      && MapOk(s, s.once, false) && MapOk(s, s.repeated, true)
      && forall t :: 0 <= t < |s.timers| && s.timers[t].duration != 0 ==>
           s.timers[t].expiration == s.timers[t].start + s.timers[t].fired * s.timers[t].duration
  {
    RunKeeps(EMPTY, run);
    var s := After(EMPTY, run);
    forall t | 0 <= t < |s.timers| && s.timers[t].duration != 0
      ensures s.timers[t].expiration == s.timers[t].start + s.timers[t].fired * s.timers[t].duration
    {
      assert OnSchedule(s.timers[t], t in []);
    }
  }

  // The clock of the last action that set the descriptor: a round, or an addition before all that is stored.
  function ClockAfter(s: State, clock: int, run: seq<Action>): int
    decreases |run|
  {
    if run == [] then clock
    else
      var at := match run[0]
        case Add(n) => if n.expiration < s.min then n.clock else clock
        case Round(_, _, later) => later
        case _ => clock;
      ClockAfter(Next(s, run[0]), at, run[1..])
  }

  lemma {:induction false} ClockKeeps(s: State, clock: int, run: seq<Action>)
    requires s.min != NEVER ==> s.rearmed == clock
    ensures var r := After(s, run); r.min != NEVER ==> r.rearmed == ClockAfter(s, clock, run)
    decreases |run|
  {
    if run != [] {
      var r := Next(s, run[0]);
      match run[0] {
        case Add(n) =>
          var made := s.(timers := s.timers + [Timer(n.expiration, n.duration, n.expiration, 0)]);
          ResetArms(Store(made, |s.timers|), n.clock);
          ClockKeeps(r, if n.expiration < s.min then n.clock else clock, run[1..]);
        case Round(now, script, later) =>
          var c := Walk(s, now, script);
          ResetArms(Reinsert(c.state.(repeated := DropFirst(c.state.repeated, c.upper)), c.update), later);
          ClockKeeps(r, later, run[1..]);
        case Delete(_) => ClockKeeps(r, clock, run[1..]);
        case Wait(_) => ClockKeeps(r, clock, run[1..]);
      }
    }
  }

  /** Over every run, while a timer is stored the descriptor has gone off, or is armed for a time no later than
      the timer's, or for 10 ns after the clock of the last action that set it, if that was too late already.
      The one exception, exactly: it was last set at the very nanosecond of min, and then it is not armed. */
  lemma ArmedInTime(run: seq<Action>, e: Entry)
    requires var s := After(EMPTY, run); (e in s.once || e in s.repeated) && e.key < NEVER
    ensures var s, clock := After(EMPTY, run), ClockAfter(EMPTY, 0, run);
      && s.min <= e.key
      && (s.min > clock ==> s.fd == Expired || s.fd == ArmedAt(s.min))
      && (s.min < clock ==> s.fd == Expired || s.fd == ArmedAt(clock + 10))
      && (s.min == clock <==> s.fd == Disarmed)
  {
    RunKeeps(EMPTY, run);
    ClockKeeps(EMPTY, 0, run);
    var s := After(EMPTY, run);
    if e in s.once {
      var i :| 0 <= i < |s.once| && s.once[i] == e;
    } else {
      var i :| 0 <= i < |s.repeated| && s.repeated[i] == e;
    }
  }

  lemma {:induction false} AfterBoth(s: State, a: seq<Action>, b: seq<Action>)
    ensures After(s, a + b) == After(After(s, a), b)
    decreases |a|
  {
    if a == [] {
      assert a + b == b;
    } else {
      assert (a + b)[0] == a[0] && (a + b)[1..] == a[1..] + b;
      AfterBoth(Next(s, a[0]), a[1..], b);
    }
  }

  /** Over every run, once a stored timer's time has come, and 10 ns since the descriptor was set, it has gone
      off, unless it was set at the very nanosecond of min. */
  lemma GoesOff(run: seq<Action>, e: Entry, clock: int)
    requires var s := After(EMPTY, run); (e in s.once || e in s.repeated) && e.key < NEVER
    requires clock >= e.key && clock >= ClockAfter(EMPTY, 0, run) + 10
    ensures var s := After(EMPTY, run + [Wait(clock)]);
      s.fd == if s.min == ClockAfter(EMPTY, 0, run) then Disarmed else Expired
  {
    ArmedInTime(run, e);
    AfterBoth(EMPTY, run, [Wait(clock)]);
    assert After(After(EMPTY, run), [Wait(clock)]) == After(Tick(After(EMPTY, run), clock), []);
  }

  // Inputs at which it fails -----------------------------------------------------------------------------

  // A repeat timer for 10, every 10, and a round at 20 in which its callback adds another, every 5.
  function Adding(expiration: int): seq<Action> {
    [Add(New(10, 10, 0)), Round(20, [[New(expiration, 5, 20)]], 21)]
  }

  const ONE_TIMER := State([Timer(10, 10, 10, 0)], [], [Entry(10, 0)], 10, ArmedAt(10), 0, [])

  lemma AfterTwo(a: Action, b: Action)
    ensures After(EMPTY, [a, b]) == Next(Next(EMPTY, a), b)
  {
    assert [a, b][1..] == [b] && [b][1..] == [];
    assert After(Next(EMPTY, a), [b]) == After(Next(Next(EMPTY, a), b), []);
  }

  lemma OneAdded()
    ensures Next(EMPTY, Add(New(10, 10, 0))) == ONE_TIMER
  {
    var made := EMPTY.(timers := [Timer(10, 10, 10, 0)]);
    assert EMPTY.timers + [Timer(10, 10, 10, 0)] == [Timer(10, 10, 10, 0)];
    assert Insert([], Entry(10, 0)) == [Entry(10, 0)];
    var stored := Store(made, 0);
    assert stored == made.(repeated := [Entry(10, 0)]);
    SetTimeExact(10, 0);
  }

  // The round up to the first turn of the walk.
  lemma FirstTurn(script: seq<New>)
    ensures var c := Cursor(ONE_TIMER.(fd := Disarmed), 0, 1, []);
      && AfterOnce(ONE_TIMER, 20, [script]) == c.state
      && Walk(ONE_TIMER, 20, [script]) == ExecRepeated(Turn(c, script), [])
  {
    assert UpperBound([Entry(10, 0)], 20) == 1 + UpperBound([], 20);
    assert ONE_TIMER.once[0..] == [];
    var c := Cursor(ONE_TIMER.(fd := Disarmed), 0, 1, []);
    TurnFirst(c, [script]);
  }

  const RAN := ONE_TIMER.(fd := Disarmed, timers := [Timer(10, 10, 10, 1)], log := [0])

  // What the callback leaves when it adds a timer for 25, or for 5.
  lemma TurnLate()
    ensures Turn(Cursor(ONE_TIMER.(fd := Disarmed), 0, 1, []), [New(25, 5, 20)]) ==
      Cursor(RAN.(timers := RAN.timers + [Timer(25, 5, 25, 0)], repeated := [Entry(10, 0), Entry(25, 1)]), 1, 2, [0])
  {
    var c, n := Cursor(RAN, 0, 1, []), New(25, 5, 20);
    assert [n][1..] == [];
    assert UpperBound([Entry(10, 0)], 25) == 1 + UpperBound([Entry(10, 0)][1..], 25);
    assert Insert([Entry(10, 0)], Entry(25, 1)) == [Entry(10, 0), Entry(25, 1)];
    assert CreateAllUnder(c, [n]) == CreateAllUnder(CreateUnder(c, n), []);
  }

  lemma TurnEarly()
    ensures var r := Turn(Cursor(ONE_TIMER.(fd := Disarmed), 0, 1, []), [New(5, 5, 20)]);
      && r.at == 2 && r.upper == 2 && r.update == [0] && r.state.log == [0]
      && r.state.timers == [Timer(10, 10, 10, 1), Timer(5, 5, 5, 0)]
      && r.state.once == [] && r.state.repeated == [Entry(5, 1), Entry(10, 0)]
  {
    var c, n := Cursor(RAN, 0, 1, []), New(5, 5, 20);
    assert [n][1..] == [];
    assert Insert([Entry(10, 0)], Entry(5, 1)) == [Entry(5, 1), Entry(10, 0)];
    assert RAN.timers + [Timer(5, 5, 5, 0)] == [Timer(10, 10, 10, 1), Timer(5, 5, 5, 0)];
    assert CreateAllUnder(c, [n]) == CreateAllUnder(CreateUnder(c, n), []);
  }

  // The round behind the walk.
  lemma RoundEnd(script: seq<New>, c: Cursor)
    requires Walk(ONE_TIMER, 20, [script]) == c && c.upper == |c.state.repeated|
    ensures var back, r := Reinsert(c.state.(repeated := []), c.update), HandleRead(ONE_TIMER, 20, [script], 21);
      r.timers == back.timers && r.repeated == back.repeated && r.log == back.log
  {
    assert DropFirst(c.state.repeated, c.upper) == [];
  }

  // The walk comes to the added timer.
  lemma LateWalk()
    ensures var e := Walk(ONE_TIMER, 20, [[New(25, 5, 20)]]);
      && e.upper == |e.state.repeated| && e.update == [0, 1] && e.state.log == [0, 1]
      && e.state.timers == [Timer(10, 10, 10, 1), Timer(25, 5, 25, 1)]
  {
    FirstTurn([New(25, 5, 20)]);
    TurnLate();
    var c := Turn(Cursor(ONE_TIMER.(fd := Disarmed), 0, 1, []), [New(25, 5, 20)]);
    TurnFirst(c, []);
    assert Turn(c, []).at == 2 && ExecRepeated(Turn(c, []), []) == Turn(c, []);
    assert [0] + [1] == [0, 1];
  }

  /** A callback that adds a repeat timer for later, with no other stored, has it fire at once: at 20, before
      its first time, 25. */
  lemma FiresEarly()
    ensures var s := After(EMPTY, Adding(25)); |s.timers| == 2 && s.timers[1] == Timer(30, 5, 25, 1) && s.log == [0, 1]
  {
    AfterTwo(Adding(25)[0], Adding(25)[1]);
    OneAdded();
    LateWalk();
    var e := Walk(ONE_TIMER, 20, [[New(25, 5, 20)]]);
    RoundEnd([New(25, 5, 20)], e);
    MovedBoth(e.state.(repeated := []));
  }

  lemma MovedBoth(s: State)
    requires s.timers == [Timer(10, 10, 10, 1), Timer(25, 5, 25, 1)]
    ensures Reinsert(s, [0, 1]).timers == [Timer(20, 10, 10, 1), Timer(30, 5, 25, 1)]
    ensures Reinsert(s, [0, 1]).log == s.log
  {
    assert [0, 1][1..] == [1] && [1][1..] == [];
  }

  lemma EarlyWalk()
    ensures var e := Walk(ONE_TIMER, 20, [[New(5, 5, 20)]]);
      && e.upper == |e.state.repeated| && e.update == [0]
      && e.state.timers == [Timer(10, 10, 10, 1), Timer(5, 5, 5, 0)]
  {
    FirstTurn([New(5, 5, 20)]);
    TurnEarly();
    var e := Turn(Cursor(ONE_TIMER.(fd := Disarmed), 0, 1, []), [New(5, 5, 20)]);
    assert ExecRepeated(e, []) == e;
  }

  lemma MovedFirst(s: State)
    requires s.timers == [Timer(10, 10, 10, 1), Timer(5, 5, 5, 0)] && s.repeated == []
    ensures Reinsert(s, [0]).timers == [Timer(20, 10, 10, 1), Timer(5, 5, 5, 0)]
    ensures Reinsert(s, [0]).repeated == [Entry(20, 0)]
  {
    assert [0][1..] == [];
    assert Insert([], Entry(20, 0)) == [Entry(20, 0)];
  }

  /** One that adds a repeat timer for a time before its own has it lost: it has not fired, and is not stored. */
  lemma AddedAndLost()
    ensures var s := After(EMPTY, Adding(5)); |s.timers| == 2 && s.timers[1].fired == 0 && s.repeated == [Entry(20, 0)]
  {
    AfterTwo(Adding(5)[0], Adding(5)[1]);
    OneAdded();
    EarlyWalk();
    var e := Walk(ONE_TIMER, 20, [[New(5, 5, 20)]]);
    RoundEnd([New(5, 5, 20)], e);
    MovedFirst(e.state.(repeated := []));
  }

  /** A timer added at its own nanosecond leaves the descriptor disarmed. */
  lemma NotArmed()
    ensures var s := After(EMPTY, [Add(New(5, 0, 5))]); s.once == [Entry(5, 0)] && s.fd == Disarmed
  {
    assert [Add(New(5, 0, 5))][1..] == [];
    assert Insert([], Entry(5, 0)) == [Entry(5, 0)];
    SetTimeExact(0, 5);
    assert After(Next(EMPTY, Add(New(5, 0, 5))), []) == Next(EMPTY, Add(New(5, 0, 5)));
  }
}
