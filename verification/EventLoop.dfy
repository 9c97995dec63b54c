// bounce::EventLoop: poll, handle channels, run the queued tasks; other threads queue tasks and wake it up.
module EventLoops {

  // Where a task was pushed: by the loop's own thread, handling a channel or elsewhere, or by another thread.
  datatype Origin = Handler | Elsewhere | Other(thread: nat)

  // Tasks are numbered in the order of pushing.
  datatype Task = Task(id: nat, origin: Origin)

  // What the loop's thread is at. Handling: the wake-up channel is active and its callback still to come.
  datatype Phase = NotLooping | Polling | Handling(weakup: bool) | Flagged | Between | InTask

  // What another thread is at in queueTaskInThread.
  datatype Pc = Idle | HasPushed(id: nat) | WillWrite(id: nat)

  // A task the loop's own thread ran at once, and how many queued tasks had run before it.
  datatype Direct = Direct(origin: Origin, behind: nat)

  // counter is that of the eventfd. executed, direct, pushed, swapped (how many had been pushed at the last swap)
  // and saw (tasks whose pusher found the loop doing its tasks) only record history.
  datatype State = State(
    phase: Phase, doing: bool, counter: nat, tasks: seq<Task>, batch: seq<Task>, threads: seq<Pc>,
    executed: seq<Task>, direct: seq<Direct>, pushed: seq<Task>, swapped: nat, saw: set<nat>)

  function Initial(threads: nat): State {
    State(NotLooping, false, 0, [], [], seq(threads, i => Idle), [], [], [], 0, {})
  }

  datatype Action =
    | Loop
    | Poll(other: bool)
    | Weakup
    | EndHandling
    | Swap
    | StartTask
    | EndTask
    | EndTasks
    | LoopPush
    | RunNow
    | Push(thread: nat)
    | Look(thread: nat)
    | Write(thread: nat)

  // The loop's thread is in a handler or a task, or has not started to loop.
  predicate InLoop(s: State) {
    s.phase == NotLooping || s.phase.Handling? || s.phase == InTask
  }

  function LoopOrigin(phase: Phase): Origin {
    if phase.Handling? then Handler else Elsewhere
  }

  // poll returns when the counter is positive or something else is ready.
  predicate Enabled(s: State, a: Action) {
    match a
    case Loop => s.phase == NotLooping
    case Poll(other) => s.phase == Polling && (s.counter > 0 || other)
    case Weakup => s.phase == Handling(true)
    case EndHandling => s.phase == Handling(false)
    case Swap => s.phase == Flagged
    case StartTask => s.phase == Between && s.batch != []
    case EndTask => s.phase == InTask
    case EndTasks => s.phase == Between && s.batch == []
    case LoopPush => InLoop(s)
    case RunNow => InLoop(s)
    case Push(i) => i < |s.threads| && s.threads[i].Idle?
    case Look(i) => i < |s.threads| && s.threads[i].HasPushed?
    case Write(i) => i < |s.threads| && s.threads[i].WillWrite?
  }

  function PushTask(s: State, origin: Origin): State {
    var task := Task(|s.pushed|, origin);
    s.(tasks := s.tasks + [task], pushed := s.pushed + [task])
  }

  function Next(s: State, a: Action): State
    requires Enabled(s, a)
  {
    match a
    case Loop => s.(phase := Polling)
    case Poll(_) => s.(phase := Handling(s.counter > 0))
    case Weakup => s.(phase := Handling(false), counter := 0)
    case EndHandling => s.(phase := Flagged, doing := true)
    case Swap => s.(phase := Between, batch := s.tasks, tasks := [], swapped := |s.pushed|)
    case StartTask => s.(phase := InTask, executed := s.executed + [s.batch[0]], batch := s.batch[1..])
    case EndTask => s.(phase := Between)
    case EndTasks => s.(phase := Polling, doing := false)
    case LoopPush => PushTask(s, LoopOrigin(s.phase))
    case RunNow => s.(direct := s.direct + [Direct(LoopOrigin(s.phase), |s.executed|)])
    case Push(i) => PushTask(s, Other(i)).(threads := s.threads[i := HasPushed(|s.pushed|)])
    case Look(i) =>
      var id := s.threads[i].id;
      if s.doing then s.(threads := s.threads[i := Idle], saw := s.saw + {id})
      else s.(threads := s.threads[i := WillWrite(id)])
    case Write(i) => s.(threads := s.threads[i := Idle], counter := s.counter + 1)
  }

  predicate IsRun(s: State, run: seq<Action>)
    decreases |run|
  {
    run == [] || (Enabled(s, run[0]) && IsRun(Next(s, run[0]), run[1..]))
  }

  function After(s: State, run: seq<Action>): State
    requires IsRun(s, run)
    decreases |run|
  {
    if run == [] then s else After(Next(s, run[0]), run[1..])
  }

  // What every step keeps ---------------------------------------------------------------------------------

  // The thread that pushed t has not come to its write yet.
  predicate OnItsWay(s: State, t: Task) {
    t.origin.Other? && t.origin.thread < |s.threads| &&
    (s.threads[t.origin.thread] == HasPushed(t.id) || s.threads[t.origin.thread] == WillWrite(t.id))
  }

  // Nobody wakes the loop for t.
  predicate Unwoken(s: State, t: Task) {
    t.origin == Elsewhere || t.id in s.saw
  }

  // The loop is on its way to the swap, or poll will not block.
  predicate WillSwap(s: State) {
    s.counter > 0 || s.phase.Handling? || s.phase == Flagged
  }

  ghost predicate Inv(s: State) {
    && s.executed + s.batch + s.tasks == s.pushed && s.swapped <= |s.pushed| && s.tasks == s.pushed[s.swapped..]
    && (s.doing <==> s.phase == Flagged || s.phase == Between || s.phase == InTask)
    && (s.phase == Handling(true) ==> s.counter > 0)
    && (s.phase != Between && s.phase != InTask ==> s.batch == [])
    && (forall k :: 0 <= k < |s.pushed| ==> s.pushed[k].id == k)
    && (forall i :: 0 <= i < |s.threads| && !s.threads[i].Idle? ==>
        s.threads[i].id < |s.pushed| && s.pushed[s.threads[i].id].origin == Other(i))
    && forall k :: s.swapped <= k < |s.pushed| ==> Accounted(s, s.pushed[k])
  }

  ghost predicate Accounted(s: State, t: Task) {
    Unwoken(s, t) || OnItsWay(s, t) || WillSwap(s)
  }

  lemma PushKeeps(s: State, origin: Origin)
    requires Inv(s)
    ensures var r := PushTask(s, origin);
      && r.executed + r.batch + r.tasks == r.pushed && r.tasks == r.pushed[r.swapped..]
  {
    var task := Task(|s.pushed|, origin);
    assert s.executed + s.batch + (s.tasks + [task]) == s.executed + s.batch + s.tasks + [task];
    assert (s.pushed + [task])[s.swapped..] == s.pushed[s.swapped..] + [task];
  }

  lemma StepKeeps(s: State, a: Action)
    requires Inv(s) && Enabled(s, a)
    ensures Inv(Next(s, a))
  {
    match a
    case LoopPush => LoopPushKeeps(s);
    case Push(i) => ThreadPushKeeps(s, i);
    case Look(i) => ThreadStep(s, a, i);
    case Write(i) => ThreadStep(s, a, i);
    case Swap => SwapKeeps(s);
    case _ => PhaseStep(s, a);
  }

  lemma PhaseStep(s: State, a: Action)
    requires Inv(s) && Enabled(s, a)
    requires !a.LoopPush? && !a.Push? && !a.Look? && !a.Write? && !a.Swap?
    ensures Inv(Next(s, a))
  {
    StillAccounted(s, Next(s, a));
    if a == StartTask {
      assert s.executed + [s.batch[0]] + s.batch[1..] == s.executed + s.batch;
    }
  }

  lemma SwapKeeps(s: State)
    requires Inv(s) && Enabled(s, Swap)
    ensures Inv(Next(s, Swap))
  {
    assert s.executed + s.tasks + [] == s.executed + [] + s.tasks;
  }

  lemma LoopPushKeeps(s: State)
    requires Inv(s) && Enabled(s, LoopPush)
    ensures Inv(Next(s, LoopPush))
  {
    var r := Next(s, LoopPush);
    PushKeeps(s, LoopOrigin(s.phase));
    forall k | r.swapped <= k < |r.pushed| ensures Accounted(r, r.pushed[k]) {
      if k < |s.pushed| { assert Accounted(s, s.pushed[k]); }
    }
  }

  lemma ThreadPushKeeps(s: State, i: nat)
    requires Inv(s) && Enabled(s, Push(i))
    ensures Inv(Next(s, Push(i)))
  {
    var r := Next(s, Push(i));
    PushKeeps(s, Other(i));
    forall k | r.swapped <= k < |r.pushed| ensures Accounted(r, r.pushed[k]) {
      if k < |s.pushed| { assert Accounted(s, s.pushed[k]); }
    }
  }

  // Steps that push nothing.
  lemma StillAccounted(s: State, r: State)
    requires Inv(s) && r.pushed == s.pushed && r.swapped == s.swapped && r.threads == s.threads && r.saw == s.saw
    requires WillSwap(s) ==> WillSwap(r)
    ensures forall k :: r.swapped <= k < |r.pushed| ==> Accounted(r, r.pushed[k])
  {
    forall k | r.swapped <= k < |r.pushed| ensures Accounted(r, r.pushed[k]) {
      assert Accounted(s, s.pushed[k]);
    }
  }

  lemma ThreadStep(s: State, a: Action, i: nat)
    requires Inv(s) && Enabled(s, a) && (a == Look(i) || a == Write(i))
    ensures Inv(Next(s, a))
  {
    var r := Next(s, a);
    forall k | r.swapped <= k < |r.pushed| ensures Accounted(r, r.pushed[k]) {
      assert Accounted(s, s.pushed[k]);
    }
  }

  lemma {:induction false} RunKeeps(s: State, run: seq<Action>)
    requires Inv(s) && IsRun(s, run)
    ensures Inv(After(s, run))
    decreases |run|
  {
    if run != [] {
      StepKeeps(s, run[0]);
      RunKeeps(Next(s, run[0]), run[1..]);
    }
  }

  // The tasks that the steps of a run push, numbered from n on: by another thread, by a handler, or by the
  // loop's own thread elsewhere.
  function Pushes(s: State, run: seq<Action>, n: nat): seq<Task>
    requires IsRun(s, run)
    decreases |run|
  {
    if run == [] then []
    else
      var rest := run[1..];
      match run[0]
      case Push(i) => [Task(n, Other(i))] + Pushes(Next(s, run[0]), rest, n + 1)
      case LoopPush =>
        [Task(n, if s.phase.Handling? then Handler else Elsewhere)] + Pushes(Next(s, run[0]), rest, n + 1)
      case _ => Pushes(Next(s, run[0]), rest, n)
  }

  lemma {:induction false} PushedAre(s: State, run: seq<Action>)
    requires IsRun(s, run)
    ensures After(s, run).pushed == s.pushed + Pushes(s, run, |s.pushed|)
    decreases |run|
  {
    if run != [] { PushedAre(Next(s, run[0]), run[1..]); }
  }

  /** Over every interleaving: the tasks that have run, the rest of the batch and those waiting are those that
      the steps of the run push, each once, in that order. */
  lemma InOrder(threads: nat, run: seq<Action>)
    requires IsRun(Initial(threads), run)
    ensures var s := After(Initial(threads), run); s.executed + s.batch + s.tasks == Pushes(Initial(threads), run, 0)
  {
    RunKeeps(Initial(threads), run);
    PushedAre(Initial(threads), run);
  }

  // The eventfd --------------------------------------------------------------------------------------------

  // The writes that no wake-up callback has read yet, n of them to begin with.
  function Unread(run: seq<Action>, n: nat): nat
    decreases |run|
  {
    if run == [] then n
    else Unread(run[1..], match run[0] case Write(_) => n + 1 case Weakup => 0 case _ => n)
  }

  /** Over every interleaving, the eventfd counts the writes since the wake-up callback last ran. */
  lemma {:induction false} CounterIs(s: State, run: seq<Action>)
    requires IsRun(s, run)
    ensures After(s, run).counter == Unread(run, s.counter)
    decreases |run|
  {
    if run != [] { CounterIs(Next(s, run[0]), run[1..]); }
  }

  // Woken, and the wake-up callback has not run.
  predicate Woken(s: State) {
    s.counter > 0 && (s.phase == NotLooping || s.phase == Polling || s.phase == Handling(true))
  }

  lemma {:induction false} StaysWoken(s: State, run: seq<Action>)
    requires Woken(s) && IsRun(s, run) && Weakup !in run
    ensures Woken(After(s, run)) && Swap !in run
    decreases |run|
  {
    if run != [] {
      InFirstOrRest(run, Weakup);
      InFirstOrRest(run, Swap);
      StaysWoken(Next(s, run[0]), run[1..]);
    }
  }

  /** Whatever the other threads do meanwhile: a loop that polls with the counter up runs the wake-up callback
      before it takes its tasks. */
  lemma TurnReads(threads: nat, run: seq<Action>, turn: seq<Action>)
    requires IsRun(Initial(threads), run) && IsRun(After(Initial(threads), run), turn) && Swap in turn
    requires var s := After(Initial(threads), run); s.phase == Polling && s.counter > 0
    ensures Weakup in turn
  {
    if Weakup !in turn { StaysWoken(After(Initial(threads), run), turn); }
  }

  lemma {:induction false} Recorded(s: State, run: seq<Action>)
    requires IsRun(s, run)
    ensures s.executed <= After(s, run).executed && s.direct <= After(s, run).direct
    decreases |run|
  {
    if run != [] { Recorded(Next(s, run[0]), run[1..]); }
  }

  /** Over every interleaving, a task that the loop's own thread runs at once runs behind the queued tasks that
      have run, and ahead of all that wait. */
  lemma RunsAhead(threads: nat, run: seq<Action>, more: seq<Action>)
    requires IsRun(Initial(threads), run) && Enabled(After(Initial(threads), run), RunNow)
    requires IsRun(Next(After(Initial(threads), run), RunNow), more)
    ensures var s := After(Initial(threads), run);
      var r := After(Next(s, RunNow), more);
      && |s.direct| < |r.direct| && r.direct[|s.direct|] == Direct(LoopOrigin(s.phase), |s.executed|)
      && s.executed <= r.executed
      && forall t :: t in s.batch || t in s.tasks ==> t !in r.executed[..|s.executed|]
  {
    var s := After(Initial(threads), run);
    RunKeeps(Initial(threads), run);
    Recorded(Next(s, RunNow), more);
    WaitingApart(s);
    assert After(Next(s, RunNow), more).executed[..|s.executed|] == s.executed;
  }

  // No waiting task has run.
  lemma WaitingApart(s: State)
    requires Inv(s)
    ensures forall t :: t in s.batch || t in s.tasks ==> t !in s.executed
  {
    var waiting := s.batch + s.tasks;
    assert s.executed + waiting == s.pushed;
    Numbered(s.executed, waiting, s.pushed);
    forall t | t in s.batch || t in s.tasks ensures t in waiting { }
  }

  lemma Numbered(first: seq<Task>, rest: seq<Task>, all: seq<Task>)
    requires first + rest == all && forall k :: 0 <= k < |all| ==> all[k].id == k
    ensures forall t :: t in rest ==> t !in first
  {
    forall t | t in rest ensures t !in first {
      var k :| 0 <= k < |rest| && rest[k] == t;
      assert all[|first| + k] == t;
      assert forall j :: 0 <= j < |first| ==> all[j] == first[j];
    }
  }

  predicate Blocked(s: State) {
    s.phase == Polling && s.counter == 0
  }

  /** Over every interleaving, a task waits while the loop blocks only if its pusher is still on the way to
      waking it, or nobody is: it was pushed by the loop's thread outside a channel's handling, or its pusher
      found the loop doing its tasks. */
  lemma WaitsOnlyIf(threads: nat, run: seq<Action>, t: Task)
    requires IsRun(Initial(threads), run)
    requires var s := After(Initial(threads), run); Blocked(s) && t in s.tasks
    ensures Unwoken(After(Initial(threads), run), t) || OnItsWay(After(Initial(threads), run), t)
  {
    RunKeeps(Initial(threads), run);
    var s := After(Initial(threads), run);
    var k :| 0 <= k < |s.tasks| && s.tasks[k] == t;
    assert s.pushed[s.swapped + k] == t;
    assert Accounted(s, t);
  }

  // No thread is in the middle of pushing.
  ghost predicate Quiet(s: State) {
    forall i :: 0 <= i < |s.threads| ==> s.threads[i] == Idle
  }

  function SinceSwap(s: State): seq<Task> {
    if s.swapped <= |s.pushed| then s.pushed[s.swapped..] else []
  }

  /** With no thread in the middle of a push, the loop blocks over waiting tasks exactly if, since it last took
      its tasks, one was pushed that nobody wakes it for; and then it waits for an event of another channel or
      another push. */
  lemma LeftWaiting(threads: nat, run: seq<Action>)
    requires IsRun(Initial(threads), run)
    requires Blocked(After(Initial(threads), run)) && Quiet(After(Initial(threads), run))
    ensures var s := After(Initial(threads), run);
      && (s.tasks != [] <==> exists t :: t in SinceSwap(s) && Unwoken(s, t))
      && forall a :: Enabled(s, a) ==> a == Poll(true) || a.Push?
  {
    RunKeeps(Initial(threads), run);
    var s := After(Initial(threads), run);
    if s.tasks != [] {
      var t := s.tasks[0];
      WaitsOnlyIf(threads, run, t);
      assert t in SinceSwap(s);
    }
  }

  // No step of the run leads to a lost wake-up: the loop's own thread pushes in handlers only, and no other
  // thread finds the loop doing its tasks.
  predicate Careful(s: State, run: seq<Action>)
    requires IsRun(s, run)
    decreases |run|
  {
    run == [] ||
    ((run[0] == LoopPush ==> s.phase.Handling?) && (run[0].Look? ==> !s.doing) && Careful(Next(s, run[0]), run[1..]))
  }

  lemma {:induction false} NoneUnwoken(s: State, run: seq<Action>)
    requires IsRun(s, run) && Careful(s, run) && s.saw == {}
    requires forall k :: 0 <= k < |s.pushed| ==> s.pushed[k].origin != Elsewhere
    ensures var r := After(s, run); r.saw == {} && forall k :: 0 <= k < |r.pushed| ==> r.pushed[k].origin != Elsewhere
    decreases |run|
  {
    if run != [] { NoneUnwoken(Next(s, run[0]), run[1..]); }
  }

  /** Otherwise a loop that blocks, with no thread in the middle of a push, has run every task. */
  lemma NoneLeft(threads: nat, run: seq<Action>)
    requires IsRun(Initial(threads), run) && Careful(Initial(threads), run)
    requires Blocked(After(Initial(threads), run)) && Quiet(After(Initial(threads), run))
    ensures After(Initial(threads), run).executed == Pushes(Initial(threads), run, 0)
  {
    var s := After(Initial(threads), run);
    RunKeeps(Initial(threads), run);
    NoneUnwoken(Initial(threads), run);
    LeftWaiting(threads, run);
    InOrder(threads, run);
    assert s.executed + [] + [] == s.executed;
  }

  lemma StepGrows(s: State, a: Action)
    requires Inv(s) && Enabled(s, a)
    ensures s.pushed <= Next(s, a).pushed && s.swapped <= Next(s, a).swapped
    ensures a == Swap ==> |s.pushed| <= Next(s, a).swapped
  {
  }

  lemma {:induction false} OnlyGrows(s: State, run: seq<Action>)
    requires Inv(s) && IsRun(s, run)
    ensures s.pushed <= After(s, run).pushed && s.swapped <= After(s, run).swapped
    ensures Swap in run ==> |s.pushed| <= After(s, run).swapped
    decreases |run|
  {
    if run != [] {
      StepKeeps(s, run[0]);
      StepGrows(s, run[0]);
      OnlyGrows(Next(s, run[0]), run[1..]);
      InFirstOrRest(run, Swap);
    }
  }

  lemma InFirstOrRest(run: seq<Action>, a: Action)
    requires run != []
    ensures a in run <==> run[0] == a || a in run[1..]
  {
    assert run == [run[0]] + run[1..];
  }

  /** Whatever the other threads do meanwhile: when the loop, having taken its tasks in between, comes back to
      poll, all tasks that were pushed before have run, in order, behind those that had run already. */
  lemma TurnRunsAll(threads: nat, run: seq<Action>, turn: seq<Action>)
    requires IsRun(Initial(threads), run) && IsRun(After(Initial(threads), run), turn) && Swap in turn
    requires After(After(Initial(threads), run), turn).phase == Polling
    ensures var s := After(Initial(threads), run); s.executed + s.batch + s.tasks <= After(s, turn).executed
  {
    var s := After(Initial(threads), run);
    RunKeeps(Initial(threads), run);
    RunKeeps(s, turn);
    OnlyGrows(s, turn);
    var r := After(s, turn);
    AllTaken(r);
    assert r.pushed[..|s.pushed|] == s.pushed;
  }

  lemma {:induction false} HandlingOn(s: State, run: seq<Action>)
    requires IsRun(s, run) && (s.phase.Handling? || s.phase == Flagged) && Swap !in run
    ensures var r := After(s, run); r.phase.Handling? || r.phase == Flagged
    decreases |run|
  {
    if run != [] {
      InFirstOrRest(run, Swap);
      HandlingOn(Next(s, run[0]), run[1..]);
    }
  }

  /** A task pushed while a channel is handled, by its handler or by another thread, has run when the loop comes
      back to poll. */
  lemma HandledTasksRun(threads: nat, run: seq<Action>, turn: seq<Action>)
    requires IsRun(Initial(threads), run) && IsRun(After(Initial(threads), run), turn)
    requires After(Initial(threads), run).phase.Handling?
    requires After(After(Initial(threads), run), turn).phase == Polling
    ensures var s := After(Initial(threads), run); s.executed + s.batch + s.tasks <= After(s, turn).executed
  {
    if Swap !in turn { HandlingOn(After(Initial(threads), run), turn); }
    TurnRunsAll(threads, run, turn);
  }

  lemma AllTaken(s: State)
    requires Inv(s) && s.phase == Polling
    ensures s.executed == s.pushed[..s.swapped]
  {
    assert s.executed + [] + s.tasks == s.executed + s.tasks;
    assert |s.executed| == s.swapped;
  }

  // Lost wake-ups ------------------------------------------------------------------------------------------

  lemma {:induction false} RunThen(s: State, first: seq<Action>, more: seq<Action>)
    requires IsRun(s, first) && IsRun(After(s, first), more)
    ensures IsRun(s, first + more) && After(s, first + more) == After(After(s, first), more)
    decreases |first|
  {
    if first == [] {
      assert first + more == more;
    } else {
      assert (first + more)[1..] == first[1..] + more;
      RunThen(Next(s, first[0]), first[1..], more);
    }
  }

  function Single(s: State, a: Action): (r: State)
    requires Enabled(s, a)
    ensures IsRun(s, [a]) && After(s, [a]) == r
  {
    assert [a][1..] == [];
    assert After(Next(s, a), []) == Next(s, a);
    Next(s, a)
  }

  // One turn of the loop, from poll up to the swap, with nothing to do.
  const UP_TO_SWAP: seq<Action> := [Loop, Poll(true), EndHandling, Swap]

  lemma UpToSwap(threads: nat)
    ensures IsRun(Initial(threads), UP_TO_SWAP)
    ensures After(Initial(threads), UP_TO_SWAP) == Initial(threads).(phase := Between, doing := true)
  {
    var s0 := Initial(threads);
    var s1 := Single(s0, Loop);
    var s2 := Single(s1, Poll(true));
    var s3 := Single(s2, EndHandling);
    var s4 := Single(s3, Swap);
    RunThen(s0, [Loop], [Poll(true)]);
    RunThen(s0, [Loop] + [Poll(true)], [EndHandling]);
    RunThen(s0, [Loop] + [Poll(true)] + [EndHandling], [Swap]);
    assert UP_TO_SWAP == [Loop] + [Poll(true)] + [EndHandling] + [Swap];
  }

  // The loop is at its tasks, of which there are none; a thread pushes one, and looks.
  const AT_TASKS := Initial(1).(phase := Between, doing := true)
  const PUSHED := AT_TASKS.(tasks := [Task(0, Other(0))], pushed := [Task(0, Other(0))], threads := [HasPushed(0)])
  const LOOKED := PUSHED.(threads := [Idle], saw := {0})

  lemma PushUnseen()
    ensures IsRun(AT_TASKS, [Push(0), Look(0)]) && After(AT_TASKS, [Push(0), Look(0)]) == LOOKED
  {
    assert [] + [Task(0, Other(0))] == [Task(0, Other(0))] && AT_TASKS.threads == [Idle];
    var s1 := Single(AT_TASKS, Push(0));
    assert s1 == PUSHED;
    var s2 := Single(PUSHED, Look(0));
    assert s2 == LOOKED;
    RunThen(AT_TASKS, [Push(0)], [Look(0)]);
    assert [Push(0)] + [Look(0)] == [Push(0), Look(0)];
  }

  /** It does happen: a thread pushes behind the swap, finds the loop doing its tasks and does not write. */
  lemma WakeUpLost() returns (run: seq<Action>)
    ensures IsRun(Initial(1), run)
    ensures var s := After(Initial(1), run); Blocked(s) && Quiet(s) && s.tasks == [Task(0, Other(0))]
  {
    UpToSwap(1);
    PushUnseen();
    RunThen(Initial(1), UP_TO_SWAP, [Push(0), Look(0)]);
    run := UP_TO_SWAP + [Push(0), Look(0)];
    var s := Single(LOOKED, EndTasks);
    RunThen(Initial(1), run, [EndTasks]);
    run := run + [EndTasks];
  }

  /** So it does to a task that the loop's own thread pushes before it loops. */
  lemma EarlyTaskWaits() returns (run: seq<Action>)
    ensures IsRun(Initial(0), run)
    ensures var s := After(Initial(0), run); Blocked(s) && Quiet(s) && s.tasks == [Task(0, Elsewhere)]
  {
    var s1 := Single(Initial(0), LoopPush);
    var s2 := Single(s1, Loop);
    RunThen(Initial(0), [LoopPush], [Loop]);
    run := [LoopPush] + [Loop];
  }
}
