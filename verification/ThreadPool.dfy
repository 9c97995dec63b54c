// spdlog's thread_pool: posters, a bounded queue, worker threads, and a destructor that drains them.
module ThreadPools {
  import opened Options
  import opened Rings

  datatype Kind = Log | Flush | Terminate
  datatype Msg = Msg(kind: Kind, id: nat)
  const TERMINATE := Msg(Terminate, 0)

  datatype Policy = Block | OverrunOldest

  datatype Worker = Waiting | Handling(msg: Msg) | Exited

  // terminates: how many the destructor has posted. posted, waited and handled only record history: the
  // messages accepted from loggers, whether each was posted to wait for room, and those the workers are done with.
  datatype Pool = Pool(
    ring: Ring<Msg>, workers: seq<Worker>, closing: bool, terminates: nat,
    posted: seq<Msg>, waited: seq<bool>, handled: seq<Msg>)

  // The constructor throws on none or more than 1000 threads.
  function Start(capacity: nat, threads: nat): Option<Pool> {
    if threads == 0 || threads > 1000 then None
    else Some(Pool(EmptyRing(capacity), seq(threads, i => Waiting), false, 0, [], [], []))
  }

  datatype Action =
    | Post(msg: Msg, policy: Policy)
    | Close
    | PostTerminate
    | Take(worker: nat)
    | Finish(worker: nat)
    | TimeOut(worker: nat)

  predicate Ready(s: Pool, i: nat, w: Worker) {
    i < |s.workers| && s.workers[i] == w
  }

  // A wait for room or for a message lets no step happen until there is some. Loggers hold on to the pool
  // while they post, so none does once the destructor runs.
  predicate Enabled(s: Pool, a: Action) {
    match a
    case Post(msg, policy) => !s.closing && msg.kind != Terminate && (policy == Block ==> !Full(s.ring))
    case Close => !s.closing
    case PostTerminate => s.closing && s.terminates < |s.workers| && !Full(s.ring)
    case Take(i) => Ready(s, i, Waiting) && s.ring.items != []
    case Finish(i) => i < |s.workers| && s.workers[i].Handling?
    case TimeOut(i) => Ready(s, i, Waiting) && s.ring.items == []
  }

  function Next(s: Pool, a: Action): Pool
    requires Enabled(s, a)
  {
    match a
    case Post(msg, policy) =>
      s.(ring := Pushed(s.ring, msg), posted := s.posted + [msg], waited := s.waited + [policy == Block])
    case Close => s.(closing := true)
    case PostTerminate => s.(ring := Pushed(s.ring, TERMINATE), terminates := s.terminates + 1)
    case Take(i) => s.(ring := Popped(s.ring), workers := s.workers[i := Handling(s.ring.items[0])])
    case Finish(i) =>
      var msg := s.workers[i].msg;
      if msg.kind == Terminate then s.(workers := s.workers[i := Exited])
      else s.(workers := s.workers[i := Waiting], handled := s.handled + [msg])
    case TimeOut(_) => s
  }

  predicate IsRun(s: Pool, run: seq<Action>)
    decreases |run|
  {
    run == [] || (Enabled(s, run[0]) && IsRun(Next(s, run[0]), run[1..]))
  }

  function After(s: Pool, run: seq<Action>): Pool
    requires IsRun(s, run)
    decreases |run|
  {
    if run == [] then s else After(Next(s, run[0]), run[1..])
  }

  ghost predicate AllExited(s: Pool) {
    forall i :: 0 <= i < |s.workers| ==> s.workers[i] == Exited
  }

  // The destructor has posted its messages and joined every thread.
  ghost predicate Destroyed(s: Pool) {
    s.closing && s.terminates == |s.workers| && AllExited(s)
  }

  // What every step keeps ---------------------------------------------------------------------------------

  // Whether m is what a worker took last, and is not done with; a thread that has exited keeps its message.
  function Held(w: Worker, m: Msg): nat {
    if (w.Handling? && w.msg == m) || (w.Exited? && m == TERMINATE) then 1 else 0
  }

  function Holding(workers: seq<Worker>, m: Msg): nat {
    if workers == [] then 0 else Held(workers[0], m) + Holding(workers[1..], m)
  }

  function Busy(workers: seq<Worker>): nat {
    if workers == [] then 0 else (if workers[0].Handling? then 1 else 0) + Busy(workers[1..])
  }

  function Terminates(n: nat): seq<Msg> {
    seq(n, i => TERMINATE)
  }

  ghost predicate NoTerminate(ms: seq<Msg>) {
    forall i :: 0 <= i < |ms| ==> ms[i].kind != Terminate
  }

  ghost predicate Shape(s: Pool) {
    1 <= |s.workers| && |s.ring.items| <= s.ring.capacity &&
    s.terminates <= |s.workers| && (!s.closing ==> s.terminates == 0) && |s.waited| == |s.posted|
  }

  // The messages are in the order of posting, those of the destructor behind all others.
  ghost predicate Ordered(s: Pool) {
    Items(s.ring.gone) + s.ring.items == s.posted + Terminates(s.terminates)
  }

  ghost predicate BalancedAt(taken: seq<Msg>, handled: seq<Msg>, workers: seq<Worker>, m: Msg) {
    multiset(taken)[m] == multiset(handled)[m] + Holding(workers, m)
  }

  // Each message taken has been handled or is in the hands of a thread.
  ghost predicate Balanced(s: Pool) {
    forall m :: BalancedAt(TakenItems(s.ring.gone), s.handled, s.workers, m)
  }

  ghost predicate Kinds(s: Pool) {
    && NoTerminate(s.posted) && NoTerminate(s.handled) && NoTerminate(DroppedItems(s.ring.gone))
    && forall i :: 0 <= i < |s.workers| && s.workers[i].Handling? && s.workers[i].msg.kind == Terminate ==>
         s.workers[i].msg == TERMINATE
  }

  // A thread that is alone handles the messages in turn.
  ghost predicate InTurn(s: Pool) {
    |s.workers| == 1 ==>
      TakenItems(s.ring.gone) == s.handled +
        match s.workers[0] { case Waiting => [] case Handling(msg) => [msg] case Exited => [TERMINATE] }
  }

  ghost predicate Inv(s: Pool) {
    && Shape(s) && Ordered(s) && Balanced(s) && Kinds(s) && InTurn(s)
    && |DroppedItems(s.ring.gone)| == s.ring.overruns
  }

  lemma {:induction false} HoldingSet(workers: seq<Worker>, i: nat, w: Worker, m: Msg)
    requires i < |workers|
    ensures Holding(workers[i := w], m) == Holding(workers, m) - Held(workers[i], m) + Held(w, m)
  {
    if i > 0 {
      assert workers[i := w][1..] == workers[1..][i - 1 := w];
      HoldingSet(workers[1..], i - 1, w, m);
    } else {
      assert workers[i := w][1..] == workers[1..];
    }
  }

  lemma {:induction false} BusySet(workers: seq<Worker>, i: nat, w: Worker)
    requires i < |workers|
    ensures Busy(workers[i := w]) == Busy(workers) - (if workers[i].Handling? then 1 else 0) +
        (if w.Handling? then 1 else 0)
  {
    if i > 0 {
      assert workers[i := w][1..] == workers[1..][i - 1 := w];
      BusySet(workers[1..], i - 1, w);
    } else {
      assert workers[i := w][1..] == workers[1..];
    }
  }

  lemma {:induction false} HoldingExited(workers: seq<Worker>, m: Msg)
    requires forall i :: 0 <= i < |workers| ==> workers[i] == Exited
    ensures Holding(workers, m) == if m == TERMINATE then |workers| else 0
  {
    if workers != [] {
      assert forall i :: 0 <= i < |workers[1..]| ==> workers[1..][i] == workers[i + 1];
      HoldingExited(workers[1..], m);
    }
  }

  lemma {:induction false} HoldingNone(workers: seq<Worker>, m: Msg)
    requires forall i :: 0 <= i < |workers| ==> workers[i] == Waiting
    ensures Holding(workers, m) == 0
  {
    if workers != [] { HoldingNone(workers[1..], m); }
  }

  lemma StartOk(capacity: nat, threads: nat)
    ensures Start(capacity, threads).Some? <==> 1 <= threads <= 1000
    ensures Start(capacity, threads).Some? ==> Inv(Start(capacity, threads).value)
  {
    if 1 <= threads <= 1000 {
      var s := Start(capacity, threads).value;
      forall m ensures BalancedAt(TakenItems(s.ring.gone), s.handled, s.workers, m) { HoldingNone(s.workers, m); }
    }
  }

  lemma PushKeeps(s: Pool, msg: Msg)
    requires Inv(s) && (Full(s.ring) ==> s.terminates == 0 && msg.kind != Terminate)
    ensures var r := Pushed(s.ring, msg);
      && |r.items| <= r.capacity
      && Items(r.gone) + r.items == s.posted + Terminates(s.terminates) + [msg]
      && TakenItems(r.gone) == TakenItems(s.ring.gone)
      && |DroppedItems(r.gone)| == r.overruns && NoTerminate(DroppedItems(r.gone))
  {
    DoKeeps(s.ring, Push(msg));
    if Full(s.ring) {
      var all := s.ring.items + [msg];
      ItemsAppend(s.ring.gone, Dropped(all[0]));
      if s.ring.items != [] { FrontKnown(s); }
    }
  }

  lemma PostKeeps(s: Pool, msg: Msg, policy: Policy)
    requires Inv(s) && Enabled(s, Post(msg, policy))
    ensures Inv(Next(s, Post(msg, policy)))
  {
    PushKeeps(s, msg);
    assert Terminates(0) == [];
    assert s.posted + [msg] == s.posted + [] + [msg] == s.posted + [msg] + [];
  }

  lemma TerminateKeeps(s: Pool)
    requires Inv(s) && Enabled(s, PostTerminate)
    ensures Inv(Next(s, PostTerminate))
  {
    PushKeeps(s, TERMINATE);
    assert s.posted + Terminates(s.terminates) + [TERMINATE] == s.posted + Terminates(s.terminates + 1);
  }

  // The item at the front is a logger's message, or the destructor's.
  lemma FrontKnown(s: Pool)
    requires Ordered(s) && NoTerminate(s.posted) && s.ring.items != []
    ensures s.ring.items[0].kind == Terminate ==> s.ring.items[0] == TERMINATE && s.terminates > 0
  {
    var k := |Items(s.ring.gone)|;
    assert s.ring.items[0] == (Items(s.ring.gone) + s.ring.items)[k] == (s.posted + Terminates(s.terminates))[k];
  }

  lemma TakeKeeps(s: Pool, i: nat)
    requires Inv(s) && Enabled(s, Take(i))
    ensures Inv(Next(s, Take(i)))
  {
    FrontKnown(s);
    DoKeeps(s.ring, Pop);
    ItemsAppend(s.ring.gone, Taken(s.ring.items[0]));
    TakeInTurn(s, i);
    TakeBalanced(s, i);
  }

  lemma TakeBalanced(s: Pool, i: nat)
    requires Balanced(s) && Enabled(s, Take(i))
    ensures Balanced(Next(s, Take(i)))
  {
    var taken, msg := TakenItems(s.ring.gone), s.ring.items[0];
    var taken', workers' := taken + [msg], s.workers[i := Handling(msg)];
    ItemsAppend(s.ring.gone, Taken(msg));
    forall m ensures BalancedAt(taken', s.handled, workers', m) {
      assert BalancedAt(taken, s.handled, s.workers, m);
      TakeBalancedAt(taken, s.handled, s.workers, i, msg, m);
    }
  }

  lemma TakeBalancedAt(taken: seq<Msg>, handled: seq<Msg>, workers: seq<Worker>, i: nat, msg: Msg, m: Msg)
    requires BalancedAt(taken, handled, workers, m) && i < |workers| && workers[i] == Waiting
    ensures BalancedAt(taken + [msg], handled, workers[i := Handling(msg)], m)
  {
    HoldingSet(workers, i, Handling(msg), m);
    Appended(taken, msg, m);
  }

  lemma Appended(ms: seq<Msg>, msg: Msg, m: Msg)
    ensures multiset(ms + [msg])[m] == multiset(ms)[m] + if m == msg then 1 else 0
  {
  }

  lemma TakeInTurn(s: Pool, i: nat)
    requires InTurn(s) && Enabled(s, Take(i))
    ensures InTurn(Next(s, Take(i)))
  {
    ItemsAppend(s.ring.gone, Taken(s.ring.items[0]));
    assert s.handled + [] == s.handled;
  }

  lemma FinishInTurn(s: Pool, i: nat)
    requires InTurn(s) && Kinds(s) && Enabled(s, Finish(i))
    ensures InTurn(Next(s, Finish(i)))
  {
    assert s.handled + [s.workers[i].msg] + [] == s.handled + [s.workers[i].msg];
  }

  lemma FinishBalanced(s: Pool, i: nat)
    requires Balanced(s) && Kinds(s) && Enabled(s, Finish(i))
    ensures Balanced(Next(s, Finish(i)))
  {
    var msg, r := s.workers[i].msg, Next(s, Finish(i));
    forall m ensures BalancedAt(TakenItems(s.ring.gone), r.handled, r.workers, m) {
      assert BalancedAt(TakenItems(s.ring.gone), s.handled, s.workers, m);
      FinishBalancedAt(TakenItems(s.ring.gone), s.handled, s.workers, i, msg, m);
    }
  }

  lemma FinishBalancedAt(taken: seq<Msg>, handled: seq<Msg>, workers: seq<Worker>, i: nat, msg: Msg, m: Msg)
    requires BalancedAt(taken, handled, workers, m) && i < |workers| && workers[i] == Handling(msg)
    ensures msg == TERMINATE ==> BalancedAt(taken, handled, workers[i := Exited], m)
    ensures BalancedAt(taken, handled + [msg], workers[i := Waiting], m)
  {
    HoldingSet(workers, i, Exited, m);
    HoldingSet(workers, i, Waiting, m);
    Appended(handled, msg, m);
  }

  lemma FinishKeeps(s: Pool, i: nat)
    requires Inv(s) && Enabled(s, Finish(i))
    ensures Inv(Next(s, Finish(i)))
  {
    FinishInTurn(s, i);
    FinishBalanced(s, i);
  }

  lemma StepKeeps(s: Pool, a: Action)
    requires Inv(s) && Enabled(s, a)
    ensures Inv(Next(s, a))
  {
    match a
    case Post(msg, policy) => PostKeeps(s, msg, policy);
    case PostTerminate => TerminateKeeps(s);
    case Take(i) => TakeKeeps(s, i);
    case Finish(i) => FinishKeeps(s, i);
    case _ =>
  }

  lemma {:induction false} RunKeeps(s: Pool, run: seq<Action>)
    requires Inv(s) && IsRun(s, run)
    ensures Inv(After(s, run))
    decreases |run|
  {
    if run != [] {
      StepKeeps(s, run[0]);
      RunKeeps(Next(s, run[0]), run[1..]);
    }
  }

  // Nothing is lost but by overruns ----------------------------------------------------------------------

  /** A message is dropped exactly by a post that does not wait, on a full queue. */
  lemma OverrunOnly(s: Pool, a: Action)
    requires Enabled(s, a)
    ensures Next(s, a).ring.overruns == s.ring.overruns + if a.Post? && a.policy == OverrunOldest &&
        Full(s.ring) then 1 else 0
  {
  }

  // A thread that has taken a message of the destructor has left only such messages behind.
  lemma OnlyTerminates(s: Pool)
    requires Inv(s) && Holding(s.workers, TERMINATE) > 0
    ensures forall m :: m in s.ring.items ==> m == TERMINATE
  {
    var all, gone := s.posted + Terminates(s.terminates), Items(s.ring.gone);
    var k := SomeGone(s);
    assert (gone + s.ring.items)[k] == all[k];
    forall j | 0 <= j < |s.ring.items| ensures s.ring.items[j] == TERMINATE {
      assert (gone + s.ring.items)[|gone| + j] == all[|gone| + j];
    }
  }

  lemma SomeGone(s: Pool) returns (k: nat)
    requires Balanced(s) && Holding(s.workers, TERMINATE) > 0
    ensures k < |Items(s.ring.gone)| && Items(s.ring.gone)[k] == TERMINATE
  {
    assert BalancedAt(TakenItems(s.ring.gone), s.handled, s.workers, TERMINATE);
    TakenOrDropped(s.ring.gone);
    assert multiset(Items(s.ring.gone))[TERMINATE] > 0;
    assert TERMINATE in Items(s.ring.gone);
    k :| 0 <= k < |Items(s.ring.gone)| && Items(s.ring.gone)[k] == TERMINATE;
  }

  lemma Lacks(ms: seq<Msg>)
    requires NoTerminate(ms)
    ensures multiset(ms)[TERMINATE] == 0
  {
    assert TERMINATE !in ms;
  }

  // Where the messages are.
  lemma Balance(s: Pool, m: Msg)
    requires Inv(s)
    ensures multiset(s.posted)[m] + multiset(Terminates(s.terminates))[m]
         == multiset(s.handled)[m] + Holding(s.workers,
             m) + multiset(DroppedItems(s.ring.gone))[m] + multiset(s.ring.items)[m]
  {
    assert BalancedAt(TakenItems(s.ring.gone), s.handled, s.workers, m);
    TakenOrDropped(s.ring.gone);
    assert multiset(s.posted + Terminates(s.terminates))[m] == multiset(s.posted)[m] +
        multiset(Terminates(s.terminates))[m];
    assert multiset(Items(s.ring.gone) + s.ring.items)[m] == multiset(Items(s.ring.gone))[m] +
        multiset(s.ring.items)[m];
  }

  // How many messages of the destructor are still in the queue.
  lemma TerminatesLeft(s: Pool)
    requires Inv(s)
    ensures s.terminates == Holding(s.workers, TERMINATE) + multiset(s.ring.items)[TERMINATE]
  {
    Balance(s, TERMINATE);
    TerminatesMany(s.terminates, TERMINATE);
    Lacks(s.posted);
    Lacks(s.handled);
    Lacks(DroppedItems(s.ring.gone));
  }

  lemma {:induction false} TerminatesMany(n: nat, m: Msg)
    ensures multiset(Terminates(n))[m] == if m == TERMINATE then n else 0
  {
    if n > 0 {
      TerminatesMany(n - 1, m);
      assert Terminates(n) == [TERMINATE] + Terminates(n - 1);
    }
  }

  lemma SomeRunning(s: Pool) returns (i: nat)
    requires Inv(s) && s.terminates < |s.workers|
    ensures i < |s.workers| && s.workers[i] != Exited
  {
    TerminatesLeft(s);
    if AllExited(s) { HoldingExited(s.workers, TERMINATE); }
    i :| 0 <= i < |s.workers| && s.workers[i] != Exited;
  }

  /** Over every run, whoever waits for room in a queue that can hold a message waits for a thread that is
      still running, and that can take a step. */
  lemma PosterUnblocked(capacity: nat, threads: nat, run: seq<Action>) returns (i: nat)
    requires 1 <= threads <= 1000 && IsRun(Start(capacity, threads).value, run) && capacity >= 1
    requires var s := After(Start(capacity, threads).value, run); Full(s.ring) && (s.closing ==> s.terminates < threads)
    ensures var s := After(Start(capacity, threads).value, run); Enabled(s, Take(i)) || Enabled(s, Finish(i))
  {
    StartOk(capacity, threads);
    RunKeeps(Start(capacity, threads).value, run);
    SameShape(Start(capacity, threads).value, run);
    var s := After(Start(capacity, threads).value, run);
    i := SomeRunning(s);
  }

  lemma {:induction false} SameShape(s: Pool, run: seq<Action>)
    requires IsRun(s, run)
    ensures After(s, run).ring.capacity == s.ring.capacity && |After(s, run).workers| == |s.workers|
    decreases |run|
  {
    if run != [] { SameShape(Next(s, run[0]), run[1..]); }
  }

  lemma SomeTerminate(ms: seq<Msg>)
    requires forall m :: m in ms ==> m == TERMINATE
    ensures ms != [] ==> multiset(ms)[TERMINATE] > 0
  {
    if ms != [] { assert ms[0] in ms; }
  }

  // Once every thread has exited, the queue is empty and each message was handled or dropped.
  lemma AllAccountedFor(s: Pool)
    requires Inv(s) && AllExited(s)
    ensures s.terminates == |s.workers| && s.ring.items == []
    ensures multiset(s.posted) == multiset(s.handled) + multiset(DroppedItems(s.ring.gone))
  {
    HoldingExited(s.workers, TERMINATE);
    TerminatesLeft(s);
    OnlyTerminates(s);
    SomeTerminate(s.ring.items);
    forall m ensures multiset(s.posted)[m] == multiset(s.handled)[m] + multiset(DroppedItems(s.ring.gone))[m] {
      Balance(s, m);
      HoldingExited(s.workers, m);
      TerminatesMany(s.terminates, m);
    }
  }

  predicate Overruns(s: Pool, run: seq<Action>)
    requires IsRun(s, run)
    decreases |run|
  {
    run != [] && ((run[0].Post? && run[0].policy == OverrunOldest && Full(s.ring)) ||
        Overruns(Next(s, run[0]), run[1..]))
  }

  lemma {:induction false} OverrunsCounted(s: Pool, run: seq<Action>)
    requires IsRun(s, run)
    ensures After(s, run).ring.overruns >= s.ring.overruns
    ensures Overruns(s, run) <==> After(s, run).ring.overruns > s.ring.overruns
    decreases |run|
  {
    if run != [] {
      OverrunOnly(s, run[0]);
      OverrunsCounted(Next(s, run[0]), run[1..]);
    }
  }

  /** After every run in which all threads have exited: the queue is empty, every message was handled or
      dropped, and all were handled exactly if nobody posted to a full queue without waiting. With one
      thread they are handled in the order of posting. */
  lemma Drained(capacity: nat, threads: nat, run: seq<Action>)
    requires 1 <= threads <= 1000 && IsRun(Start(capacity, threads).value, run)
    requires AllExited(After(Start(capacity, threads).value, run))
    ensures var s := After(Start(capacity, threads).value, run);
      && Destroyed(s) && s.ring.items == []
      && multiset(s.posted) == multiset(s.handled) + multiset(DroppedItems(s.ring.gone))
      && |DroppedItems(s.ring.gone)| == s.ring.overruns
      && (multiset(s.handled) == multiset(s.posted) <==> !Overruns(Start(capacity, threads).value, run))
      && (threads == 1 && !Overruns(Start(capacity, threads).value, run) ==> s.handled == s.posted)
  {
    var s0 := Start(capacity, threads).value;
    StartOk(capacity, threads);
    RunKeeps(s0, run);
    SameShape(s0, run);
    OverrunsCounted(s0, run);
    var s := After(s0, run);
    AllAccountedFor(s);
    assert |multiset(s.posted)| == |multiset(s.handled)| + s.ring.overruns;
    if threads == 1 && s.ring.overruns == 0 {
      NoneDropped(s.ring.gone);
      assert Terminates(1) == [TERMINATE];
      assert s.posted + [TERMINATE] == s.handled + [TERMINATE];
      assert s.posted == (s.posted + [TERMINATE])[..|s.posted|] &&
          s.handled == (s.handled + [TERMINATE])[..|s.handled|];
    }
  }

  lemma {:induction false} NoneDropped<T>(gone: seq<Exit<T>>)
    requires DroppedItems(gone) == []
    ensures TakenItems(gone) == Items(gone)
  {
    if gone != [] { NoneDropped(gone[..|gone| - 1]); }
  }

  // The destructor ------------------------------------------------------------------------------------------

  function Measure(s: Pool): nat
    requires s.terminates <= |s.workers|
  {
    3 * (|s.workers| - s.terminates) + 2 * |s.ring.items| + Busy(s.workers)
  }

  /** Once the destructor runs, every step but a timed-out wait brings its end nearer. */
  lemma StepShorter(s: Pool, a: Action)
    requires Inv(s) && s.closing && Enabled(s, a) && !a.TimeOut?
    ensures Next(s, a).terminates <= |Next(s, a).workers| && Measure(Next(s, a)) < Measure(s)
  {
    match a
    case Take(i) => BusySet(s.workers, i, Handling(s.ring.items[0]));
    case Finish(i) => BusySet(s.workers, i, if s.workers[i].msg.kind == Terminate then Exited else Waiting);
    case _ =>
  }

  // As long as it is not done, there is such a step.
  lemma Progress(s: Pool) returns (a: Action)
    requires Inv(s) && s.closing && s.ring.capacity >= 1 && !Destroyed(s)
    ensures Enabled(s, a) && !a.TimeOut?
  {
    if s.terminates < |s.workers| {
      if Full(s.ring) {
        var i := SomeRunning(s);
        a := if s.workers[i].Handling? then Finish(i) else Take(i);
      } else {
        a := PostTerminate;
      }
    } else {
      var i :| 0 <= i < |s.workers| && s.workers[i] != Exited;
      if s.workers[i].Handling? {
        a := Finish(i);
      } else {
        NotAllHeld(s.workers, i);
        TerminatesLeft(s);
        a := Take(i);
      }
    }
  }

  lemma {:induction false} NotAllHeld(workers: seq<Worker>, i: nat)
    requires i < |workers| && workers[i] == Waiting
    ensures Holding(workers, TERMINATE) < |workers|
  {
    if i > 0 { NotAllHeld(workers[1..], i - 1); } else { HeldAtMost(workers[1..]); }
  }

  lemma {:induction false} HeldAtMost(workers: seq<Worker>)
    ensures Holding(workers, TERMINATE) <= |workers|
  {
    if workers != [] { HeldAtMost(workers[1..]); }
  }

  predicate NoTimeOut(run: seq<Action>) {
    forall i :: 0 <= i < |run| ==> !run[i].TimeOut?
  }

  /** However the threads are scheduled: at most so many steps are left, and as long as the destructor is
      not done there is a next one, if the queue can hold a message. */
  lemma {:induction false} AnySchedule(s: Pool, run: seq<Action>)
    requires Inv(s) && s.closing && IsRun(s, run) && NoTimeOut(run)
    ensures |run| <= Measure(s)
    ensures s.ring.capacity >= 1 ==> Destroyed(After(s, run)) || exists a :: Enabled(After(s, run), a) && !a.TimeOut?
    decreases |run|
  {
    if run != [] {
      assert !run[0].TimeOut?;
      StepKeeps(s, run[0]);
      StepShorter(s, run[0]);
      assert forall i :: 0 <= i < |run[1..]| ==> run[1..][i] == run[i + 1];
      AnySchedule(Next(s, run[0]), run[1..]);
    } else if s.ring.capacity >= 1 && !Destroyed(s) {
      var a := Progress(s);
    }
  }

  lemma {:induction false} Finishes(s: Pool) returns (run: seq<Action>)
    requires Inv(s) && s.closing && s.ring.capacity >= 1
    ensures IsRun(s, run) && Destroyed(After(s, run))
    decreases Measure(s)
  {
    if Destroyed(s) {
      run := [];
    } else {
      var a := Progress(s);
      StepKeeps(s, a);
      StepShorter(s, a);
      var rest := Finishes(Next(s, a));
      run := [a] + rest;
      assert run[1..] == rest;
    }
  }

  lemma {:induction false} Stuck(s: Pool, run: seq<Action>)
    requires Inv(s) && s.ring.capacity == 0 && s.terminates == 0 && IsRun(s, run)
    ensures After(s, run).terminates == 0
    decreases |run|
  {
    if run != [] {
      StepKeeps(s, run[0]);
      Stuck(Next(s, run[0]), run[1..]);
    }
  }

  ghost predicate Returns(s: Pool, run: seq<Action>) {
    IsRun(s, run) && Destroyed(After(s, run))
  }

  lemma CanReturn(s: Pool) returns (run: seq<Action>)
    requires Inv(s) && s.ring.capacity >= 1
    ensures Returns(s, run)
  {
    if s.closing {
      run := Finishes(s);
    } else {
      StepKeeps(s, Close);
      var rest := Finishes(Next(s, Close));
      run := [Close] + rest;
      assert run[1..] == rest;
      assert run[0] == Close;
    }
  }

  /** From any point of any run, the destructor can finish exactly if the queue can hold a message. */
  lemma DestructorReturns(capacity: nat, threads: nat, run: seq<Action>)
    requires 1 <= threads <= 1000 && IsRun(Start(capacity, threads).value, run)
    ensures var s := After(Start(capacity, threads).value, run);
      (exists more :: Returns(s, more)) <==> capacity >= 1
  {
    var s0 := Start(capacity, threads).value;
    var s := After(s0, run);
    StartOk(capacity, threads);
    RunKeeps(s0, run);
    SameShape(s0, run);
    if capacity >= 1 {
      var more := CanReturn(s);
    } else {
      Stuck(s0, run);
      forall more | IsRun(s, more) ensures !Returns(s, more) {
        Stuck(s, more);
        RunKeeps(s, more);
      }
    }
  }

  // Messages whose posters waited ---------------------------------------------------------------------------

  // The step drops a message, and it is the k-th that leaves the queue.
  predicate DropsAt(s: Pool, a: Action, k: nat) {
    a.Post? && a.policy == OverrunOldest && Full(s.ring) && |s.ring.gone| == k
  }

  predicate RunDropsAt(s: Pool, run: seq<Action>, k: nat)
    requires IsRun(s, run)
    decreases |run|
  {
    run != [] && (DropsAt(s, run[0], k) || RunDropsAt(Next(s, run[0]), run[1..], k))
  }

  lemma StepGone(s: Pool, a: Action)
    requires Enabled(s, a)
    ensures var gone, gone' := s.ring.gone, Next(s, a).ring.gone;
      && gone <= gone' && |gone'| <= |gone| + 1
      && (|gone'| > |gone| ==> (gone'[|gone|].Dropped? <==> DropsAt(s, a, |gone|)))
      && (DropsAt(s, a, |gone|) ==> |gone'| > |gone|)
    ensures s.waited <= Next(s, a).waited && s.posted <= Next(s, a).posted
  {
  }

  // The k-th message to leave is dropped exactly if a post that does not wait finds the queue full just then.
  lemma {:induction false} ExitIs(s: Pool, run: seq<Action>, k: nat)
    requires IsRun(s, run) && k >= |s.ring.gone|
    ensures s.ring.gone <= After(s, run).ring.gone
    ensures s.waited <= After(s, run).waited && s.posted <= After(s, run).posted
    ensures k < |After(s, run).ring.gone| ==> (After(s, run).ring.gone[k].Dropped? <==> RunDropsAt(s, run, k))
    ensures RunDropsAt(s, run, k) ==> k < |After(s, run).ring.gone|
    decreases |run|
  {
    if run != [] {
      var n := Next(s, run[0]);
      StepGone(s, run[0]);
      if k >= |n.ring.gone| {
        ExitIs(n, run[1..], k);
      } else {
        ExitIs(n, run[1..], |n.ring.gone|);
        NoLaterDrop(n, run[1..], k);
      }
    }
  }

  lemma {:induction false} NoLaterDrop(s: Pool, run: seq<Action>, k: nat)
    requires IsRun(s, run) && k < |s.ring.gone|
    ensures !RunDropsAt(s, run, k)
    decreases |run|
  {
    if run != [] {
      StepGone(s, run[0]);
      NoLaterDrop(Next(s, run[0]), run[1..], k);
    }
  }

  /** A post that does not wait finds the queue full, and its oldest message, which has to go, was posted by
      one who waited. With no message in the queue, the one that is posted goes itself. */
  predicate Displaces(s: Pool, a: Action) {
    a.Post? && a.policy == OverrunOldest && Full(s.ring) && s.ring.items != [] &&
    |s.ring.gone| < |s.waited| && s.waited[|s.ring.gone|]
  }

  predicate RunDisplaces(s: Pool, run: seq<Action>)
    requires IsRun(s, run)
    decreases |run|
  {
    run != [] && (Displaces(s, run[0]) || RunDisplaces(Next(s, run[0]), run[1..]))
  }

  // The oldest message of the queue is the one posted after all that have left.
  lemma Oldest(s: Pool)
    requires Inv(s) && !s.closing
    ensures |s.ring.gone| + |s.ring.items| == |s.posted|
    ensures s.ring.items != [] ==> s.posted[|s.ring.gone|] == s.ring.items[0]
  {
    GoneLength(s.ring.gone);
    assert Terminates(0) == [];
    if s.ring.items != [] {
      assert (Items(s.ring.gone) + s.ring.items)[|s.ring.gone|] == s.ring.items[0];
    }
  }

  lemma {:induction false} GoneLength<T>(gone: seq<Exit<T>>)
    ensures |Items(gone)| == |gone| && forall k :: 0 <= k < |gone| ==> Items(gone)[k] == gone[k].item
  {
    if gone != [] { GoneLength(gone[..|gone| - 1]); }
  }

  // A message that had to wait is displaced at step a exactly if it is the k-th to leave and dropped.
  lemma DisplacesAt(s: Pool, a: Action)
    requires Inv(s) && Enabled(s, a)
    ensures Displaces(s, a) <==>
      DropsAt(s, a, |s.ring.gone|) && |s.ring.gone| < |Next(s, a).waited| && Next(s, a).waited[|s.ring.gone|]
  {
    if !s.closing { Oldest(s); }
  }

  lemma {:induction false} DisplacedSome(s: Pool, run: seq<Action>) returns (k: nat)
    requires Inv(s) && IsRun(s, run)
    ensures RunDisplaces(s, run) ==> RunDropsAt(s, run, k) && k < |After(s, run).waited| && After(s, run).waited[k]
    decreases |run|
  {
    k := 0;
    if RunDisplaces(s, run) {
      StepKeeps(s, run[0]);
      if Displaces(s, run[0]) {
        k := |s.ring.gone|;
        DisplacesAt(s, run[0]);
        ExitIs(Next(s, run[0]), run[1..], |Next(s, run[0]).ring.gone|);
      } else {
        k := DisplacedSome(Next(s, run[0]), run[1..]);
      }
    }
  }

  lemma {:induction false} DisplacedNone(s: Pool, run: seq<Action>, k: nat)
    requires Inv(s) && IsRun(s, run) && RunDropsAt(s, run, k)
    requires k < |After(s, run).waited| && After(s, run).waited[k]
    ensures RunDisplaces(s, run)
    decreases |run|
  {
    StepKeeps(s, run[0]);
    if DropsAt(s, run[0], k) {
      ExitIs(Next(s, run[0]), run[1..], |Next(s, run[0]).ring.gone|);
      if !s.closing { Oldest(s); }
      assert k < |Next(s, run[0]).waited|;
      DisplacesAt(s, run[0]);
    } else {
      DisplacedNone(Next(s, run[0]), run[1..], k);
    }
  }

  // The k-th posted message was taken from the queue by a thread.
  predicate WasTaken(s: Pool, k: nat) {
    k < |s.ring.gone| && k < |s.posted| && s.ring.gone[k] == Taken(s.posted[k])
  }

  /** After every run in which all threads have exited: every message whose poster waited was handled, if and
      only if no post that does not wait found the queue full with such a message as its oldest. The messages
      handled are exactly those taken. */
  lemma WaitedHandled(capacity: nat, threads: nat, run: seq<Action>)
    requires 1 <= threads <= 1000 && IsRun(Start(capacity, threads).value, run)
    requires AllExited(After(Start(capacity, threads).value, run))
    ensures var s := After(Start(capacity, threads).value, run);
      && |s.waited| == |s.posted| <= |s.ring.gone|
      && (forall k :: 0 <= k < |s.posted| ==> s.ring.gone[k].item == s.posted[k])
      && multiset(s.handled) == multiset(TakenItems(s.ring.gone[..|s.posted|]))
      && ((forall k :: 0 <= k < |s.posted| && s.waited[k] ==> WasTaken(s, k)) <==>
          !RunDisplaces(Start(capacity, threads).value, run))
  {
    var s0 := Start(capacity, threads).value;
    var s := After(s0, run);
    StartOk(capacity, threads);
    RunKeeps(s0, run);
    AllAccountedFor(s);
    AllLeft(s);
    if RunDisplaces(s0, run) {
      var k := DisplacedSome(s0, run);
      ExitIs(s0, run, k);
      assert !WasTaken(s, k);
    } else {
      forall k | 0 <= k < |s.posted| && s.waited[k] ensures WasTaken(s, k) {
        ExitIs(s0, run, k);
        if RunDropsAt(s0, run, k) { DisplacedNone(s0, run, k); }
      }
    }
  }

  lemma {:induction false} TakenBoth<T>(a: seq<Exit<T>>, b: seq<Exit<T>>)
    ensures TakenItems(a + b) == TakenItems(a) + TakenItems(b)
  {
    if b == [] {
      assert a + b == a;
    } else {
      assert (a + b)[..|a + b| - 1] == a + b[..|b| - 1];
      TakenBoth(a, b[..|b| - 1]);
    }
  }

  lemma {:induction false} TakenAt<T>(gone: seq<Exit<T>>, m: T) returns (k: nat)
    requires m in TakenItems(gone)
    ensures k < |gone| && gone[k].item == m
  {
    var last := |gone| - 1;
    if m in TakenItems(gone[..last]) { k := TakenAt(gone[..last], m); } else { k := last; }
  }

  // Those taken, but for the ones that tell a thread to exit, are those handled.
  lemma TakenPosted(s: Pool)
    requires Inv(s) && AllExited(s) && |s.posted| <= |s.ring.gone|
    requires forall k :: 0 <= k < |s.posted| ==> s.ring.gone[k].item == s.posted[k]
    requires forall k :: |s.posted| <= k < |s.ring.gone| ==> s.ring.gone[k].item == TERMINATE
    ensures multiset(s.handled) == multiset(TakenItems(s.ring.gone[..|s.posted|]))
  {
    var first, rest := s.ring.gone[..|s.posted|], s.ring.gone[|s.posted|..];
    assert s.ring.gone == first + rest;
    TakenBoth(first, rest);
    forall m ensures multiset(s.handled)[m] == multiset(TakenItems(first))[m] { TakenPostedAt(s, first, rest, m); }
  }

  lemma TakenPostedAt(s: Pool, first: seq<Exit<Msg>>, rest: seq<Exit<Msg>>, m: Msg)
    requires Inv(s) && AllExited(s) && |first| == |s.posted|
    requires TakenItems(s.ring.gone) == TakenItems(first) + TakenItems(rest)
    requires forall k :: 0 <= k < |first| ==> first[k].item == s.posted[k]
    requires forall k :: 0 <= k < |rest| ==> rest[k].item == TERMINATE
    ensures multiset(s.handled)[m] == multiset(TakenItems(first))[m]
  {
    HoldingExited(s.workers, m);
    assert BalancedAt(TakenItems(s.ring.gone), s.handled, s.workers, m);
    if m == TERMINATE {
      Lacks(s.handled);
      if m in TakenItems(first) { var k := TakenAt(first, m); }
    } else if m in TakenItems(rest) {
      var k := TakenAt(rest, m);
    }
  }

  // Once the queue is empty, every posted message has left it, before those of the destructor.
  lemma AllLeft(s: Pool)
    requires Inv(s) && AllExited(s)
    ensures |s.posted| <= |s.ring.gone| && |s.waited| == |s.posted|
    ensures forall k :: 0 <= k < |s.posted| ==> s.ring.gone[k].item == s.posted[k]
    ensures multiset(s.handled) == multiset(TakenItems(s.ring.gone[..|s.posted|]))
  {
    AllAccountedFor(s);
    GoneLength(s.ring.gone);
    var all := s.posted + Terminates(s.terminates);
    assert Items(s.ring.gone) + [] == Items(s.ring.gone);
    assert Items(s.ring.gone) == all;
    forall k | 0 <= k < |s.posted| ensures s.ring.gone[k].item == s.posted[k] {
      assert Items(s.ring.gone)[k] == all[k];
    }
    forall k | |s.posted| <= k < |s.ring.gone| ensures s.ring.gone[k].item == TERMINATE {
      assert Items(s.ring.gone)[k] == all[k];
    }
    TakenPosted(s);
  }

  /** A message whose poster waited can be dropped later, by one who does not wait. */
  lemma BlockedPostLost() returns (run: seq<Action>)
    ensures IsRun(Start(1, 1).value, run) && run != [] && run[0] == Post(Msg(Log, 1), Block)
    ensures After(Start(1, 1).value, run).ring.gone == [Dropped(Msg(Log, 1))]
  {
    var s0, first, second := Start(1, 1).value, Msg(Log, 1), Msg(Log, 2);
    run := [Post(first, Block), Post(second, OverrunOldest)];
    var s1 := Next(s0, run[0]);
    assert s1.ring == Ring(1, [first], 0, []) by { assert [] + [first] == [first]; }
    var s2 := Next(s1, run[1]);
    assert s2.ring.gone == [Dropped(first)];
    var last := [run[1]];
    assert run[1..] == last && last[1..] == [];
    assert IsRun(s2, []) && After(s2, []) == s2;
    assert IsRun(s1, last) && After(s1, last) == s2;
  }
}
