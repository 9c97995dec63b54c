// bounce::EventLoop as an object whose methods take the steps of EventLoops, one call at a time.
module EventLoopObject {
  import opened EventLoops

  datatype Caller = LoopThread | OtherThread(i: nat)

  // The steps of one call of queueTaskInThread.
  function Queued(s: State, caller: Caller): State
    requires if caller.LoopThread? then Enabled(s, LoopPush) else Enabled(s, Push(caller.i))
  {
    if caller.LoopThread? then Next(s, LoopPush)
    else
      var looked := Next(Next(s, Push(caller.i)), Look(caller.i));
      if Enabled(looked, Write(caller.i)) then Next(looked, Write(caller.i)) else looked
  }

  // In the end the pusher is idle again, and the loop has been woken or the task marked.
  function PushedFrom(s: State, i: nat): State {
    var task := Task(|s.pushed|, Other(i));
    var pushed := s.(tasks := s.tasks + [task], pushed := s.pushed + [task]);
    if s.doing then pushed.(saw := s.saw + {task.id}) else pushed.(counter := s.counter + 1)
  }

  lemma QueuedFrom(s: State, i: nat)
    requires Enabled(s, Push(i))
    ensures Queued(s, OtherThread(i)) == PushedFrom(s, i)
  {
    var id := |s.pushed|;
    assert s.threads[i := HasPushed(id)][i := Idle] == s.threads;
    assert s.threads[i := HasPushed(id)][i := WillWrite(id)][i := Idle] == s.threads;
  }

  // The loop's thread pushes k tasks.
  function PushMany(s: State, k: nat): (r: State)
    requires Enabled(s, LoopPush)
    ensures Enabled(r, LoopPush) && r.phase == s.phase && r.batch == s.batch && r.executed == s.executed &&
        r.counter == s.counter
    ensures s.tasks <= r.tasks && |r.tasks| == |s.tasks| + k
    decreases k
  {
    if k == 0 then s else PushMany(Next(s, LoopPush), k - 1)
  }

  // The tasks of the batch run, and each may push others.
  function RunBatch(s: State, pushes: Task -> nat): (r: State)
    requires s.phase == Between
    ensures r.phase == Between && r.batch == [] && r.executed == s.executed + s.batch && r.counter == s.counter
    decreases |s.batch|
  {
    if s.batch == [] then s
    else
      assert s.executed + [s.batch[0]] + s.batch[1..] == s.executed + s.batch;
      RunBatch(Next(PushMany(Next(s, StartTask), pushes(s.batch[0])), EndTask), pushes)
  }

  function DoTasks(s: State, pushes: Task -> nat): (r: State)
    requires s.phase == Handling(false)
    ensures r.phase == Polling && r.executed == s.executed + s.tasks && r.counter == s.counter
  {
    Next(RunBatch(Next(Next(s, EndHandling), Swap), pushes), EndTasks)
  }

  // Channels polled before and behind the wake-up channel push tasks when handled.
  function HandledAll(s: State, other: bool, before: nat, behind: nat): (r: State)
    requires Enabled(s, Poll(other))
    ensures r.phase == Handling(false) && r.executed == s.executed && s.tasks <= r.tasks
    ensures |r.tasks| == |s.tasks| + before + behind && r.counter == 0
  {
    var s1 := PushMany(Next(s, Poll(other)), before);
    PushMany(if s.counter > 0 then Next(s1, Weakup) else s1, behind)
  }

  // A turn of the loop.
  function Turn(s: State, other: bool, before: nat, behind: nat, pushes: Task -> nat): (r: State)
    requires Enabled(s, Poll(other))
    ensures r.phase == Polling && r.counter == 0
  {
    DoTasks(HandledAll(s, other, before, behind), pushes)
  }

  class EventLoop {
    var taskVec: seq<Task>
    var doingTheTasks: bool
    var weakupFd: nat
    // Where the loop's thread is in the code, and what has been pushed: these name and number the tasks.
    var phase: Phase
    var pushed: seq<Task>
    ghost var batch: seq<Task>
    ghost var threads: seq<Pc>
    ghost var executed: seq<Task>
    ghost var direct: seq<Direct>
    ghost var swapped: nat
    ghost var saw: set<nat>

    ghost function Model(): State
      reads this
    {
      State(phase, doingTheTasks, weakupFd, taskVec, batch, threads, executed, direct, pushed, swapped, saw)
    }

    constructor (ghost others: nat)
      ensures Model() == Initial(others)
    {
      taskVec, doingTheTasks, weakupFd := [], false, 0;
      phase, batch, threads := NotLooping, [], seq(others, i => Idle);
      executed, direct, pushed, swapped, saw := [], [], [], 0, {};
    }

    // func is the next task of its origin.
    ghost predicate MayQueue(caller: Caller, func: Task)
      reads this
    {
      func.id == |pushed| &&
      match caller
      case LoopThread => InLoop(Model()) && func.origin == LoopOrigin(phase)
      case OtherThread(i) => Enabled(Model(), Push(i)) && func.origin == Other(i)
    }

    // The steps of a call from another thread, one after the other.
    method QueueFromThread(i: nat, func: Task)
      requires MayQueue(OtherThread(i), func)
      modifies this
      ensures Model() == Queued(old(Model()), OtherThread(i))
      ensures taskVec == old(taskVec) + [func] && weakupFd == old(weakupFd) + if doingTheTasks then 0 else 1
    {
      taskVec := taskVec + [func];
      pushed := pushed + [func];
      if !doingTheTasks {
        weakupFd := weakupFd + 1;
      } else {
        saw := saw + {func.id};
      }
      QueuedFrom(old(Model()), i);
    }

    /** The loop's own thread never writes; another one writes unless the loop is doing its tasks. */
    method QueueTaskInThread(caller: Caller, func: Task)
      requires MayQueue(caller, func)
      modifies this
      ensures Model() == Queued(old(Model()), caller)
      ensures taskVec == old(taskVec) + [func]
      ensures weakupFd == old(weakupFd) + if caller.LoopThread? || doingTheTasks then 0 else 1
    {
      if caller == LoopThread {
        taskVec := taskVec + [func];
        pushed := pushed + [func];
      } else {
        QueueFromThread(caller.i, func);
      }
    }

    /** The loop's own thread runs the task at once, ahead of all that are queued. */
    method DoTaskInThread(caller: Caller, func: Task)
      requires MayQueue(caller, func)
      modifies this
      ensures caller == LoopThread ==> Model() == Next(old(Model()), RunNow) && taskVec == old(taskVec) &&
                                       direct == old(direct) + [Direct(func.origin, |executed|)]
      ensures caller != LoopThread ==> Model() == Queued(old(Model()), caller)
    {
      if caller == LoopThread {
        direct := direct + [Direct(func.origin, |executed|)];
      } else {
        QueueTaskInThread(caller, func);
      }
    }

    method WeakupCallback()
      requires Enabled(Model(), Weakup)
      modifies this
      ensures Model() == Next(old(Model()), Weakup)
      ensures weakupFd == 0 && taskVec == old(taskVec)
    {
      weakupFd := 0;
      phase := Handling(false);
    }

    // A handler, or a task, pushes k tasks.
    method PushFromLoop(k: nat)
      requires Enabled(Model(), LoopPush)
      modifies this
      ensures Model() == PushMany(old(Model()), k)
    {
      var n := 0;
      while n < k
        invariant 0 <= n <= k && Enabled(Model(), LoopPush)
        invariant PushMany(Model(), k - n) == PushMany(old(Model()), k)
      {
        QueueTaskInThread(LoopThread, Task(|pushed|, LoopOrigin(phase)));
        n := n + 1;
      }
    }

    /** Sets the flag, swaps the vector for an empty one, runs what was in it and clears the flag. */
    method DoTheTasks(pushes: Task -> nat)
      requires phase == Handling(false)
      modifies this
      ensures Model() == DoTasks(old(Model()), pushes)
      ensures executed == old(executed) + old(taskVec) && weakupFd == old(weakupFd) && !doingTheTasks
    {
      var tmpVec := TakeTasks();
      RunTasks(tmpVec, pushes);
      doingTheTasks, phase := false, Polling;
    }

    method TakeTasks() returns (tmpVec: seq<Task>)
      requires phase == Handling(false)
      modifies this
      ensures Model() == Next(Next(old(Model()), EndHandling), Swap) && tmpVec == batch
    {
      doingTheTasks, phase := true, Flagged;
      tmpVec := taskVec;
      taskVec, batch, swapped, phase := [], taskVec, |pushed|, Between;
    }

    method RunTasks(tmpVec: seq<Task>, pushes: Task -> nat)
      requires phase == Between && batch == tmpVec
      modifies this
      ensures Model() == RunBatch(old(Model()), pushes)
    {
      var rest := tmpVec;
      while rest != []
        invariant phase == Between && batch == rest
        invariant RunBatch(Model(), pushes) == RunBatch(old(Model()), pushes)
        decreases |rest|
      {
        RunTask(rest[0], pushes(rest[0]));
        rest := rest[1..];
      }
    }

    method BeginTask()
      requires phase == Between && batch != []
      modifies this
      ensures Model() == Next(old(Model()), StartTask)
    {
      batch, executed, phase := batch[1..], executed + [batch[0]], InTask;
    }

    // One task, which pushes k others.
    method RunTask(task: Task, k: nat)
      requires phase == Between && batch != [] && batch[0] == task
      modifies this
      ensures Model() == Next(PushMany(Next(old(Model()), StartTask), k), EndTask)
    {
      BeginTask();
      PushFromLoop(k);
      phase := Between;
    }

    /** One turn of loop: what poll finds ready is handled, and then the tasks are run. */
    method LoopTurn(other: bool, before: nat, behind: nat, pushes: Task -> nat)
      requires Enabled(Model(), Poll(other))
      modifies this
      ensures Model() == Turn(old(Model()), other, before, behind, pushes)
      ensures weakupFd == 0 && old(executed) + old(taskVec) <= executed
    {
      HandleReady(other, before, behind);
      DoTheTasks(pushes);
    }

    method HandleReady(other: bool, before: nat, behind: nat)
      requires Enabled(Model(), Poll(other))
      modifies this
      ensures Model() == HandledAll(old(Model()), other, before, behind)
    {
      var weakup := weakupFd > 0;
      phase := Handling(weakup);
      PushFromLoop(before);
      if weakup {
        WeakupCallback();
      }
      PushFromLoop(behind);
    }
  }

  // A call, or a turn, that nothing interrupts is a run of the machine ---------------------------------------

  lemma {:induction false} PushManyIsRun(s: State, k: nat) returns (run: seq<Action>)
    requires Enabled(s, LoopPush)
    ensures IsRun(s, run) && After(s, run) == PushMany(s, k)
    decreases k
  {
    if k == 0 {
      run := [];
    } else {
      var rest := PushManyIsRun(Next(s, LoopPush), k - 1);
      run := [LoopPush] + rest;
      assert run[1..] == rest;
    }
  }

  lemma {:induction false} RunBatchIsRun(s: State, pushes: Task -> nat) returns (run: seq<Action>)
    requires s.phase == Between
    ensures IsRun(s, run) && After(s, run) == RunBatch(s, pushes)
    decreases |s.batch|
  {
    if s.batch == [] {
      run := [];
    } else {
      var s1 := Single(s, StartTask);
      var pushed := PushManyIsRun(s1, pushes(s.batch[0]));
      var s2 := PushMany(s1, pushes(s.batch[0]));
      var s3 := Single(s2, EndTask);
      var rest := RunBatchIsRun(s3, pushes);
      RunThen(s2, [EndTask], rest);
      RunThen(s1, pushed, [EndTask] + rest);
      RunThen(s, [StartTask], pushed + ([EndTask] + rest));
      run := [StartTask] + (pushed + ([EndTask] + rest));
    }
  }

  lemma DoTasksIsRun(s: State, pushes: Task -> nat) returns (run: seq<Action>)
    requires s.phase == Handling(false)
    ensures IsRun(s, run) && After(s, run) == DoTasks(s, pushes)
  {
    var s1 := Single(s, EndHandling);
    var s2 := Single(s1, Swap);
    var batch := RunBatchIsRun(s2, pushes);
    var s3 := RunBatch(s2, pushes);
    var s4 := Single(s3, EndTasks);
    RunThen(s2, batch, [EndTasks]);
    RunThen(s1, [Swap], batch + [EndTasks]);
    RunThen(s, [EndHandling], [Swap] + (batch + [EndTasks]));
    run := [EndHandling] + ([Swap] + (batch + [EndTasks]));
  }

  lemma {:induction false} LeftByBatch(s: State, pushes: Task -> nat)
    requires s.phase == Between
    ensures RunBatch(s, pushes).tasks == [] <==> s.tasks == [] && forall i :: 0 <= i < |s.batch| ==>
        pushes(s.batch[i]) == 0
    decreases |s.batch|
  {
    if s.batch != [] {
      var r := Next(PushMany(Next(s, StartTask), pushes(s.batch[0])), EndTask);
      LeftByBatch(r, pushes);
      assert r.tasks == [] <==> s.tasks == [] && pushes(s.batch[0]) == 0;
      assert forall i :: 0 < i < |s.batch| ==> s.batch[i] == r.batch[i - 1];
    }
  }

  lemma HandledAllIsRun(s: State, other: bool, before: nat, behind: nat) returns (run: seq<Action>)
    requires Enabled(s, Poll(other))
    ensures IsRun(s, run) && After(s, run) == HandledAll(s, other, before, behind) && [Poll(other)] <= run
  {
    var s1 := Single(s, Poll(other));
    var first := PushManyIsRun(s1, before);
    var s2 := PushMany(s1, before);
    RunThen(s, [Poll(other)], first);
    run := [Poll(other)] + first;
    var s3 := s2;
    if s.counter > 0 {
      s3 := Single(s2, Weakup);
      RunThen(s, run, [Weakup]);
      run := run + [Weakup];
    }
    var second := PushManyIsRun(s3, behind);
    RunThen(s, run, second);
    run := run + second;
  }

  // What a turn runs and leaves.
  lemma TurnRuns(h: State, pushes: Task -> nat)
    requires h.phase == Handling(false)
    ensures var r := DoTasks(h, pushes);
      && r.executed == h.executed + h.tasks
      && (r.tasks == [] <==> forall i :: |h.executed| <= i < |r.executed| ==> pushes(r.executed[i]) == 0)
  {
    var swapped := Next(Next(h, EndHandling), Swap);
    assert swapped.batch == h.tasks && swapped.tasks == [];
    LeftByBatch(swapped, pushes);
    Shifted(h.executed, h.tasks, pushes);
  }

  lemma Shifted(before: seq<Task>, batch: seq<Task>, pushes: Task -> nat)
    ensures (forall i :: 0 <= i < |batch| ==> pushes(batch[i]) == 0) <==>
            (forall i :: |before| <= i < |before + batch| ==> pushes((before + batch)[i]) == 0)
  {
    assert forall i :: 0 <= i < |batch| ==> batch[i] == (before + batch)[|before| + i];
  }

  /** A turn of the loop that nothing interrupts is a run of the machine. It reads the eventfd, runs what was
      waiting and what the handlers pushed, in order, and leaves tasks waiting exactly if one that ran has pushed
      others. */
  lemma TurnIsRun(s: State, other: bool, before: nat, behind: nat, pushes: Task -> nat) returns (run: seq<Action>)
    requires Enabled(s, Poll(other))
    ensures IsRun(s, run) && After(s, run) == Turn(s, other, before, behind, pushes) && [Poll(other)] <= run
    ensures var r := Turn(s, other, before, behind, pushes);
      && r.counter == 0
      && s.executed + s.tasks <= r.executed && |r.executed| == |s.executed| + |s.tasks| + before + behind
      && (r.tasks == [] <==> forall i :: |s.executed| <= i < |r.executed| ==> pushes(r.executed[i]) == 0)
  {
    var h := HandledAll(s, other, before, behind);
    var first := HandledAllIsRun(s, other, before, behind);
    var second := DoTasksIsRun(h, pushes);
    RunThen(s, first, second);
    run := first + second;
    TurnRuns(h, pushes);
  }

  /** A write is enough: with no event of another channel, the loop polls, reads the eventfd and runs all that
      waits. */
  lemma WokenTurn(s: State) returns (run: seq<Action>)
    requires s.phase == Polling && s.counter > 0
    ensures IsRun(s, run) && [Poll(false)] <= run
    ensures var r := After(s, run);
      r.phase == Polling && r.counter == 0 && r.executed == s.executed + s.tasks && r.tasks == []
  {
    run := TurnIsRun(s, false, 0, 0, t => 0);
    var r := After(s, run);
    assert r.executed[..|s.executed + s.tasks|] == s.executed + s.tasks;
  }
}
