// bounce::TimerQueue as an object whose loops do what the functions of TimerQueues say.
module TimerQueueObject {
  import opened TimerQueues
  import opened TimerSafety

  class TimerQueue {
    var timers: seq<Timer>
    var timerMapOnce: seq<Entry>
    var timerMapRepeat: seq<Entry>
    var minExpiration: int
    var timerFd: TimerFd
    ghost var rearmed: int
    ghost var log: seq<nat>

    ghost function Model(): State
      reads this
    {
      State(timers, timerMapOnce, timerMapRepeat, minExpiration, timerFd, rearmed, log)
    }

    ghost predicate Valid()
      reads this
    {
      MapOk(Model(), timerMapOnce, false) && MapOk(Model(), timerMapRepeat, true)
    }

    constructor ()
      ensures Model() == EMPTY && Inv(Model())
    {
      timers, timerMapOnce, timerMapRepeat := [], [], [];
      minExpiration, timerFd, rearmed, log := NEVER, Disarmed, 0, [];
    }

    method ResetTimerfd(clock: int)
      requires Valid()
      modifies this
      ensures Model() == Reset(old(Model()), clock)
      ensures minExpiration == NEVER ==> timerFd == old(timerFd)
      ensures minExpiration != NEVER && minExpiration > clock ==> timerFd == ArmedAt(minExpiration)
      ensures minExpiration != NEVER && minExpiration < clock ==> timerFd == ArmedAt(clock + 10)
      ensures minExpiration != NEVER && minExpiration == clock ==> timerFd == Disarmed
    {
      ResetArms(Model(), clock);
      var onceExpiration, repeatExpiration := NEVER, NEVER;
      if timerMapOnce != [] {
        assert EntryOk(Model(), timerMapOnce[0], false);
        onceExpiration := timers[timerMapOnce[0].timer].expiration;
      }
      if timerMapRepeat != [] {
        assert EntryOk(Model(), timerMapRepeat[0], true);
        repeatExpiration := timers[timerMapRepeat[0].timer].expiration;
      }
      minExpiration := if onceExpiration < repeatExpiration then onceExpiration else repeatExpiration;
      if minExpiration != NEVER {
        var diff := minExpiration - clock;
        if diff < 0 {
          diff := 10;
        }
        timerFd := SetTime(diff, clock);
        rearmed := clock;
      }
    }

    // insert of a multimap: behind the entries of the same key
    method InsertEntry(es: seq<Entry>, e: Entry) returns (r: seq<Entry>)
      ensures r == Insert(es, e)
    {
      var u := UpperBound(es, e.key);
      r := es[..u] + [e] + es[u..];
    }

    method AddTimerInLoop(t: nat, clock: int)
      requires Valid() && t < |timers| && Fresh(Model(), t)
      modifies this
      ensures Valid() && Model() == TimerQueues.AddTimerInLoop(old(Model()), t, clock)
    {
      ghost var s, stored := Model(), Store(Model(), t);
      var e := Entry(timers[t].expiration, t);
      MapSame(s, stored, s.once, false);
      MapSame(s, stored, s.repeated, true);
      if timers[t].duration == 0 {
        InsertOk(stored, s.once, e, false);
        timerMapOnce := InsertEntry(timerMapOnce, e);
      } else {
        InsertOk(stored, s.repeated, e, true);
        timerMapRepeat := InsertEntry(timerMapRepeat, e);
      }
      assert Model() == stored;
      if timers[t].expiration < minExpiration {
        ResetTimerfd(clock);
        MapSame(stored, Model(), stored.once, false);
        MapSame(stored, Model(), stored.repeated, true);
      }
    }

    /** From the first entry of the timer's expiration on, up to the first later one. */
    method DeleteTimerInLoop(t: nat)
      requires Valid() && t < |timers|
      modifies this
      ensures Model() == TimerQueues.DeleteTimerInLoop(old(Model()), t)
      ensures forall e :: e in timerMapRepeat <==> e in old(timerMapRepeat) && e.timer != t
    {
      Deleted(timerMapRepeat, t);
      ghost var es := timerMapRepeat;
      var i := 0;
      while i < |timerMapRepeat| && timerMapRepeat[i].key < timers[t].expiration
        invariant 0 <= i <= |es| && timerMapRepeat == es
        invariant forall k :: 0 <= k < i ==> es[k].key < timers[t].expiration
      {
        i := i + 1;
      }
      while i < |timerMapRepeat|
        invariant 0 <= i <= |es| && timerMapRepeat == es
        invariant forall k :: 0 <= k < i ==> es[k].timer != t || es[k].key < timers[t].expiration
      {
        assert EntryOk(Model(), timerMapRepeat[i], true);
        if timers[timerMapRepeat[i].timer].expiration > timers[t].expiration {
          break;
        }
        if timerMapRepeat[i].timer == t {
          ErasedAt(es, i, t);
          timerMapRepeat := timerMapRepeat[..i] + timerMapRepeat[i + 1..];
          return;
        }
        i := i + 1;
      }
      NotFound(Model(), t, i);
      ghost var k := WithoutAt(es, t);
    }

    /** addTimer, called in the loop */
    method AddTimer(n: New, ghost pending: seq<nat>)
      requires Core(Model(), pending) && |timers| !in pending
      modifies this
      ensures Model() == Create(old(Model()), n) && Core(Model(), pending)
    {
      ghost var s := Model();
      CreateKeeps(s, n, pending);
      var timer := Timer(n.expiration, n.duration, n.expiration, 0);
      MadeKeeps(s, s.(timers := s.timers + [timer]), timer, pending);
      timers := timers + [timer];
      AddTimerInLoop(|timers| - 1, n.clock);
    }

    // The callback of a timer, which adds timers one after the other.
    method ExecCallback(t: nat, adds: seq<New>, ghost pending: seq<nat>)
      requires Core(Model(), pending) && t < |timers| && t !in pending && forall x :: x in pending ==> x < |timers|
      modifies this
      ensures Model() == CreateAll(Exec(old(Model()), t), adds)
    {
      ghost var after := if timers[t].duration == 0 then pending else pending + [t];
      ExecKeeps(Model(), t, pending);
      Ran(t);
      RunAdds(adds, after);
    }

    method RunAdds(adds: seq<New>, ghost pending: seq<nat>)
      requires Core(Model(), pending) && forall x :: x in pending ==> x < |timers|
      modifies this
      ensures Model() == CreateAll(old(Model()), adds) && Core(Model(), pending)
    {
      var rest := adds;
      while rest != []
        invariant Core(Model(), pending) && (forall x :: x in pending ==> x < |timers|)
        invariant CreateAll(Model(), rest) == CreateAll(old(Model()), adds)
        decreases |rest|
      {
        AddTimer(rest[0], pending);
        rest := rest[1..];
      }
    }

    /** The one-shot timers that are due, and then the repeat timers, walked in the live map. */
    method HandleRead(now: int, script: seq<seq<New>>, later: int)
      requires Inv(Model())
      modifies this
      ensures Model() == TimerQueues.HandleRead(old(Model()), now, script, later) && Inv(Model())
    {
      HandleReadKeeps(Model(), now, script, later);
      ghost var c := Walk(Model(), now, script);
      WalkKeeps(Model(), now, script);
      var ran := RunDue(now, script);
      var update := RunRepeated(now, Skip(script, ran));
      assert DropFirst(c.state.repeated, c.upper) == c.state.repeated[c.upper..];
      ErasedFresh(c, Model());
      ReinsertKeeps(Model(), update);
      assert forall i :: 0 <= i < |update| ==> update[i] in update;
      PutBack(update);
      ResetTimerfd(later);
    }

    method RunDue(now: int, script: seq<seq<New>>) returns (upper: nat)
      requires Core(Model(), [])
      modifies this
      ensures upper == UpperBound(old(timerMapOnce), now)
      ensures Model() == AfterOnce(old(Model()), now, script) && Core(Model(), [])
    {
      ghost var s := Model();
      AfterOnceKeeps(s, now, script);
      timerFd := Disarmed;
      upper := UpperBound(timerMapOnce, now);
      var toDelete := timerMapOnce[..upper];
      timerMapOnce := timerMapOnce[upper..];
      DueSlices(s, upper);
      RunOnce(toDelete, script);
    }

    method RunOnce(due: seq<Entry>, script: seq<seq<New>>)
      requires Core(Model(), []) && MapOk(Model(), due, false)
      modifies this
      ensures Model() == ExecOnce(old(Model()), due, script) && Core(Model(), [])
    {
      var rest, more := due, script;
      while rest != []
        invariant Core(Model(), []) && MapOk(Model(), rest, false)
        invariant ExecOnce(Model(), rest, more) == ExecOnce(old(Model()), due, script)
        decreases |rest|
      {
        ghost var before := Model();
        assert EntryOk(before, rest[0], false);
        ExecOneKeeps(before, rest[0], Head(more));
        MapSlice(before, rest, false, 1, |rest|);
        assert rest[1..|rest|] == rest[1..];
        ExecCallback(rest[0].timer, Head(more), []);
        MapSame(before, Model(), rest[1..], false);
        rest, more := rest[1..], Tail(more);
      }
    }

    // What a callback adds, with the two iterators of the walk staying at their entries.
    method AddUnder(n: New, start: nat, stop: nat, ghost update: seq<nat>) returns (at: nat, upper: nat)
      requires CursorOk(Cursor(Model(), start, stop, update), true)
      modifies this
      ensures Cursor(Model(), at, upper, update) == CreateUnder(Cursor(old(Model()), start, stop, update), n)
      ensures CursorOk(Cursor(Model(), at, upper, update), true)
    {
      ghost var c := Cursor(Model(), start, stop, update);
      UnderReady(c, n);
      at, upper := start, stop;
      if n.duration != 0 {
        var p := UpperBound(timerMapRepeat, n.expiration);
        at, upper := if p <= at then at + 1 else at, if p <= upper then upper + 1 else upper;
      }
      AddTimer(n, Pending(c, true));
    }

    method RunAddsUnder(adds: seq<New>, start: nat, stop: nat, ghost update: seq<nat>) returns (at: nat, upper: nat)
      requires CursorOk(Cursor(Model(), start, stop, update), true)
      modifies this
      ensures Cursor(Model(), at, upper, update) == CreateAllUnder(Cursor(old(Model()), start, stop, update), adds)
    {
      var rest := adds;
      at, upper := start, stop;
      while rest != []
        invariant CursorOk(Cursor(Model(), at, upper, update), true)
        invariant CreateAllUnder(Cursor(Model(), at, upper, update), rest)
               == CreateAllUnder(Cursor(old(Model()), start, stop, update), adds)
        decreases |rest|
      {
        at, upper := AddUnder(rest[0], at, upper, update);
        rest := rest[1..];
      }
    }

    // One turn of the walk: the callback at the cursor, what it adds, and on to the next entry.
    method RunOneRepeated(adds: seq<New>, start: nat, stop: nat, ghost update: seq<nat>)
      returns (at: nat, upper: nat, t: nat)
      requires CursorOk(Cursor(Model(), start, stop, update), false) && start < stop
      modifies this
      ensures Cursor(Model(), at, upper, update + [t]) == Turn(Cursor(old(Model()), start, stop, update), adds)
      ensures CursorOk(Cursor(Model(), at, upper, update + [t]), false)
    {
      ghost var c := Cursor(Model(), start, stop, update);
      RunningOk(c);
      TurnKeeps(c, adds);
      t := timerMapRepeat[start].timer;
      assert EntryOk(c.state, c.state.repeated[start], true);
      Ran(t);
      assert Cursor(Model(), start, stop, update) == Running(c);
      at, upper := RunAddsUnder(adds, start, stop, update);
      at := at + 1;
    }

    method RunRepeated(now: int, script: seq<seq<New>>) returns (update: seq<nat>)
      requires Core(Model(), [])
      modifies this
      ensures var c := ExecRepeated(Cursor(old(Model()), 0, UpperBound(old(timerMapRepeat), now), []), script);
        && c.upper <= |c.state.repeated| && update == c.update
        && Model() == c.state.(repeated := c.state.repeated[c.upper..])
    {
      var at: nat, upper: nat, more := 0, UpperBound(timerMapRepeat, now), script;
      update := [];
      ghost var c0 := Cursor(Model(), 0, upper, []);
      while at < upper
        invariant CursorOk(Cursor(Model(), at, upper, update), false)
        invariant ExecRepeated(Cursor(Model(), at, upper, update), more) == ExecRepeated(c0, script)
        decreases upper - at + Total(more)
      {
        ghost var c := Cursor(Model(), at, upper, update);
        TurnFirst(c, more);
        TurnShorter(c, more);
        var t;
        at, upper, t := RunOneRepeated(Head(more), at, upper, update);
        update, more := update + [t], Tail(more);
      }
      timerMapRepeat := timerMapRepeat[upper..];
    }

    method Ran(t: nat)
      requires t < |timers|
      modifies this
      ensures Model() == Exec(old(Model()), t)
    {
      timers := timers[t := timers[t].(fired := timers[t].fired + 1)];
      log := log + [t];
    }

    // timerUpdate, and the entry for the new time
    method MoveOn(t: nat)
      requires t < |timers|
      modifies this
      ensures |timers| == old(|timers|)
      ensures forall rest: seq<nat> :: Reinsert(old(Model()), [t] + rest) == Reinsert(Model(), rest)
    {
      if timers[t].duration != 0 {
        timers := timers[t := timers[t].(expiration := timers[t].expiration + timers[t].duration)];
      }
      assert Model() == Put(old(Model()), t, Advance(Get(old(Model()), t)));
      timerMapRepeat := InsertEntry(timerMapRepeat, Entry(timers[t].expiration, t));
      forall rest: seq<nat> ensures Reinsert(old(Model()), [t] + rest) == Reinsert(Model(), rest) {
        assert ([t] + rest)[1..] == rest;
      }
    }

    method PutBack(update: seq<nat>)
      requires forall i :: 0 <= i < |update| ==> update[i] < |timers|
      modifies this
      ensures Model() == Reinsert(old(Model()), update)
    {
      var i := 0;
      assert update[0..] == update;
      while i < |update|
        invariant 0 <= i <= |update| && |timers| == old(|timers|)
        invariant Reinsert(Model(), update[i..]) == Reinsert(old(Model()), update)
      {
        assert update[i..] == [update[i]] + update[i + 1..];
        MoveOn(update[i]);
        i := i + 1;
      }
    }
  }

  lemma Deleted(es: seq<Entry>, t: nat)
    requires DistinctNames(es)
    ensures forall e :: e in Without(es, t) <==> e in es && e.timer != t
  {
    forall e ensures e in Without(es, t) <==> e in es && e.timer != t { WithoutExactly(es, t, e); }
  }

  // Nothing from an entry that is later than the timer on is the timer's.
  lemma NotFound(s: State, t: nat, i: nat)
    requires MapOk(s, s.repeated, true) && t < |s.timers| && i <= |s.repeated|
    requires i < |s.repeated| ==> s.repeated[i].key > s.timers[t].expiration
    requires forall k :: 0 <= k < i ==> s.repeated[k].timer != t || s.repeated[k].key < s.timers[t].expiration
    ensures Lacks(s.repeated, t)
  {
    forall k | 0 <= k < |s.repeated| ensures s.repeated[k].timer != t {
      assert EntryOk(s, s.repeated[k], true);
      assert k >= i ==> s.repeated[i].key <= s.repeated[k].key;
    }
  }

  lemma UnderReady(c: Cursor, n: New)
    requires CursorOk(c, true)
    ensures CursorOk(CreateUnder(c, n), true) && CreateUnder(c, n).update == c.update
    ensures Core(c.state, Pending(c, true)) && |c.state.timers| !in Pending(c, true)
  {
    CreateUnderKeeps(c, n, true);
    PendingBelow(c, true);
  }

  lemma TurnShorter(c: Cursor, script: seq<seq<New>>)
    requires c.at < c.upper && c.at < |c.state.repeated|
    ensures var r := Turn(c, Head(script)); r.upper - r.at + Total(Tail(script)) < c.upper - c.at + Total(script)
  {
  }

  lemma ErasedAt(es: seq<Entry>, i: nat, t: nat)
    requires DistinctNames(es) && i < |es| && es[i].timer == t
    ensures Without(es, t) == es[..i] + es[i + 1..]
  {
    var k := WithoutAt(es, t);
    assert k == i;
  }
}
