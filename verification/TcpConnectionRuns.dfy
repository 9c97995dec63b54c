// What whole runs of a connection amount to, told from the actions alone: which tasks are asked for and run,
// what state it is in, how many bytes the kernel takes, and how often callbacks and SHUT_WR come.
module ConnectionRuns {
  import opened ByteType
  import opened Channels
  import opened ConnectionStates
  import opened Connections
  import opened Sequences

  // Tasks ------------------------------------------------------------------------------------------------

  // The task that an action from another thread asks for: a message while connected, an end until closed.
  function Asks(l: Link, a: Action): seq<Task> {
    match a
    case CalledSend(message, false, _) => if l.state == Connected then [Send(message)] else []
    case CalledShutdown(false) => if l.state != Disconnected then [Shutdown] else []
    case CalledForceClose(false) => if l.state != Disconnected then [ForceClose] else []
    case _ => []
  }

  // The task that an action runs.
  function Runs(l: Link, a: Action): seq<Task>
    requires Enabled(l, a)
  {
    if a.RanTask? then [l.tasks[0]] else []
  }

  function AllAsked(l: Link, run: seq<Action>): seq<Task>
    requires IsRun(l, run)
    decreases |run|
  {
    if run == [] then [] else Asks(l, run[0]) + AllAsked(Next(l, run[0]), run[1..])
  }

  function AllRun(l: Link, run: seq<Action>): seq<Task>
    requires IsRun(l, run)
    decreases |run|
  {
    if run == [] then [] else Runs(l, run[0]) + AllRun(Next(l, run[0]), run[1..])
  }

  lemma StepTasks(l: Link, a: Action)
    requires Enabled(l, a)
    ensures l.tasks + Asks(l, a) == Runs(l, a) + Next(l, a).tasks
  {
    if a.RanTask? { assert l.tasks == [l.tasks[0]] + l.tasks[1..]; }
  }

  lemma {:induction false} RunTasks(l: Link, run: seq<Action>)
    requires IsRun(l, run)
    ensures l.tasks + AllAsked(l, run) == AllRun(l, run) + After(l, run).tasks
    decreases |run|
  {
    if run != [] {
      var n := Next(l, run[0]);
      StepTasks(l, run[0]);
      RunTasks(n, run[1..]);
      Chain(l.tasks, Asks(l, run[0]), Runs(l, run[0]), n.tasks, AllAsked(n, run[1..]), AllRun(n, run[1..]),
            After(l, run).tasks);
    }
  }

  /** Over every run: the tasks that have run, and then those that wait, are those that other threads asked for,
      each once, in order. */
  lemma TasksInOrder(run: seq<Action>)
    requires IsRun(FRESH, run)
    ensures AllAsked(FRESH, run) == AllRun(FRESH, run) + After(FRESH, run).tasks
  {
    RunTasks(FRESH, run);
    assert [] + AllAsked(FRESH, run) == AllAsked(FRESH, run);
  }

  /** A task that runs does what it was asked for. A message is taken on unless the connection is closed or the
      kernel refuses it for good; a shutdown issues SHUT_WR unless bytes wait for the descriptor; a force-close
      closes. */
  lemma TaskDoes(l: Link, answer: Answer)
    requires Enabled(l, RanTask(answer))
    ensures var r := Next(l, RanTask(answer));
      match l.tasks[0]
      case Send(message) =>
        r.accepted == if l.state == Disconnected || GivesUp(l, RanTask(answer)) then l.accepted
                      else l.accepted + message
      case Shutdown => r.shuts == if IsWriting(l.events) then l.shuts else l.shuts + 1
      case ForceClose => r.state == Disconnected
  {
  }

  // State ------------------------------------------------------------------------------------------------

  // An end of file, a hang-up, or a force-close in the loop.
  predicate Closes(l: Link, a: Action) {
    match a
    case Handled(h, eof, _) => h == OnClose || (h == OnRead && eof)
    case CalledForceClose(inLoop) => inLoop && l.state != Disconnected
    case RanTask(_) => l.tasks != [] && l.tasks[0] == ForceClose && l.state != Disconnected
    case _ => false
  }

  predicate EverCloses(l: Link, run: seq<Action>)
    requires IsRun(l, run)
    decreases |run|
  {
    run != [] && (Closes(l, run[0]) || EverCloses(Next(l, run[0]), run[1..]))
  }

  // The user has asked for the end.
  predicate EndAsked(run: seq<Action>) {
    run != [] && (run[0].CalledShutdown? || run[0].CalledForceClose? || EndAsked(run[1..]))
  }

  lemma StepState(l: Link, a: Action)
    requires Enabled(l, a) && l.state != Connecting
    ensures Next(l, a).state ==
      if l.state == Disconnected || Closes(l, a) then Disconnected
      else if a.CalledShutdown? || a.CalledForceClose? then Disconnecting else l.state
  {
  }

  lemma {:induction false} RunState(l: Link, run: seq<Action>)
    requires IsRun(l, run) && l.state != Connecting
    ensures After(l, run).state ==
      if l.state == Disconnected || EverCloses(l, run) then Disconnected
      else if EndAsked(run) then Disconnecting else l.state
    decreases |run|
  {
    if run != [] {
      StepState(l, run[0]);
      RunState(Next(l, run[0]), run[1..]);
    }
  }

  /** Over every run: the connection is closed exactly if something closed it, and otherwise disconnecting
      exactly if the user asked for its end. */
  lemma StateIs(run: seq<Action>)
    requires IsRun(FRESH, run) && run != []
    ensures After(FRESH, run).state ==
      if EverCloses(FRESH, run) then Disconnected else if EndAsked(run) then Disconnecting else Connected
  {
    RunState(Next(FRESH, run[0]), run[1..]);
  }

  /** Over every run: a connection waits to read from connectComplete until it is closed, and to write exactly
      while bytes are buffered; before and afterwards it waits for nothing. */
  lemma InterestIs(run: seq<Action>)
    requires IsRun(FRESH, run)
    ensures var l := After(FRESH, run);
      if l.state == Connected || l.state == Disconnecting
      then IsReading(l.events) && (IsWriting(l.events) <==> l.output != [])
      else l.events == NONE_EVENT
  {
    Connections.RunKeeps(FRESH, run);
  }

  lemma StepForced(l: Link, a: Action)
    requires Enabled(l, a) && (l.state == Disconnected || ForceClose in l.tasks || a.CalledForceClose?)
    ensures var r := Next(l, a); r.state == Disconnected || ForceClose in r.tasks
  {
    if a.RanTask? { assert l.tasks == [l.tasks[0]] + l.tasks[1..]; }
  }

  lemma {:induction false} RunForced(l: Link, run: seq<Action>)
    requires IsRun(l, run)
    requires l.state == Disconnected || ForceClose in l.tasks || exists inLoop :: CalledForceClose(inLoop) in run
    ensures var r := After(l, run); r.state == Disconnected || ForceClose in r.tasks
    decreases |run|
  {
    if run != [] {
      if l.state == Disconnected || ForceClose in l.tasks || run[0].CalledForceClose? {
        StepForced(l, run[0]);
      } else {
        assert run == [run[0]] + run[1..];
      }
      RunForced(Next(l, run[0]), run[1..]);
    }
  }

  /** No force-close is lost: the connection it was asked of is closed, or has the task that will in its loop. */
  lemma ForceCloseNotLost(run: seq<Action>, inLoop: bool)
    requires IsRun(FRESH, run) && CalledForceClose(inLoop) in run
    ensures After(FRESH, run).state == Disconnected || ForceClose in After(FRESH, run).tasks
  {
    RunForced(FRESH, run);
  }

  // Bytes and callbacks ------------------------------------------------------------------------------------

  // The bytes that the kernel takes.
  function Took(l: Link, a: Action): int {
    if Calls(l, a) && AnswerOf(a).ret > 0 then AnswerOf(a).ret else 0
  }

  // It takes all it is given, so that a write-complete callback is queued.
  predicate Completes(l: Link, a: Action) {
    Calls(l, a) && AnswerOf(a).ret == |Given(l, a)|
  }

  // SHUT_WR is issued: by shutdownInLoop with no bytes waiting for the descriptor, or once they are drained.
  predicate Shuts(l: Link, a: Action) {
    match a
    case CalledShutdown(inLoop) => inLoop && l.state != Disconnected && !IsWriting(l.events)
    case RanTask(_) => l.tasks != [] && l.tasks[0] == Shutdown && !IsWriting(l.events)
    case Handled(_, _, _) => Completes(l, a) && l.state == Disconnecting
    case _ => false
  }

  datatype Tally = Tally(bytes: int, completions: nat, shuts: nat, closes: nat)

  function TallyOf(l: Link, run: seq<Action>): Tally
    requires IsRun(l, run)
    decreases |run|
  {
    if run == [] then Tally(0, 0, 0, 0)
    else
      var rest := TallyOf(Next(l, run[0]), run[1..]);
      Tally(Took(l, run[0]) + rest.bytes, (if Completes(l, run[0]) then 1 else 0) + rest.completions,
            (if Shuts(l, run[0]) then 1 else 0) + rest.shuts, (if Closes(l, run[0]) then 1 else 0) + rest.closes)
  }

  lemma SendTally(l: Link, message: seq<byte>, a: Answer)
    requires Legal(l, |message|, a) && l.state != Disconnected
    ensures var r, idle := SendInLoop(l, message, a), !IsWriting(l.events) && l.output == [];
      && |r.wire| == |l.wire| + (if idle && a.ret > 0 then a.ret else 0)
      && r.written == l.written + (if idle && a.ret == |message| then 1 else 0) && r.shuts == l.shuts
      && r.closes == l.closes
  {
  }

  lemma WriteTally(l: Link, a: Answer)
    requires Inv(l) && l.state != Connecting && Legal(l, |l.output|, a)
    ensures var r, done := HandleWrite(l, a), IsWriting(l.events) && a.ret == |l.output|;
      && |r.wire| == |l.wire| + (if IsWriting(l.events) && a.ret > 0 then a.ret else 0)
      && r.written == l.written + (if done then 1 else 0)
      && r.shuts == l.shuts + (if done && l.state == Disconnecting then 1 else 0) && r.closes == l.closes
  {
  }

  // One step, and what the actions above make of it.
  ghost predicate Tallied(l: Link, a: Action, r: Link) {
    && |r.wire| == |l.wire| + Took(l, a)
    && r.written == l.written + (if Completes(l, a) then 1 else 0)
    && r.shuts == l.shuts + (if Shuts(l, a) then 1 else 0)
    && r.closes == l.closes + (if Closes(l, a) then 1 else 0)
  }

  lemma HandledTally(l: Link, a: Action)
    requires Inv(l) && Enabled(l, a) && a.Handled?
    ensures Tallied(l, a, Next(l, a))
  {
    if a.handler == OnWrite { WriteTally(l, a.answer); }
  }

  lemma MessageTally(l: Link, a: Action)
    requires Enabled(l, a) && (a.CalledSend? || a.RanTask?)
    ensures Tallied(l, a, Next(l, a))
  {
    if Sends(l, a) { SendTally(if a.RanTask? then l.(tasks := l.tasks[1..]) else l, Given(l, a), a.answer); }
  }

  lemma StepTally(l: Link, a: Action)
    requires Inv(l) && Enabled(l, a)
    ensures Tallied(l, a, Next(l, a))
  {
    match a {
      case Handled(_, _, _) => HandledTally(l, a);
      case CalledSend(_, _, _) => MessageTally(l, a);
      case RanTask(_) => MessageTally(l, a);
      case _ =>
    }
  }

  // All that is given is taken: nothing is left to send.
  lemma AllSent(l: Link, a: Action)
    requires Inv(l) && Enabled(l, a) && Completes(l, a)
    ensures Next(l, a).output == []
  {
  }

  lemma {:induction false} RunTally(l: Link, run: seq<Action>)
    requires Inv(l) && IsRun(l, run)
    ensures var r, tally := After(l, run), TallyOf(l, run);
      && |r.wire| == |l.wire| + tally.bytes && r.written == l.written + tally.completions
      && r.shuts == l.shuts + tally.shuts && r.closes == l.closes + tally.closes
    decreases |run|
  {
    if run != [] {
      StepKeeps(l, run[0]);
      StepTally(l, run[0]);
      RunTally(Next(l, run[0]), run[1..]);
    }
  }

  /** Over every run: the wire is the bytes accepted, cut off at the sum of what the kernel took, so that none is
      sent twice; and callbacks, SHUT_WR and handleClose come once for every action that calls for them. */
  lemma Counts(run: seq<Action>)
    requires IsRun(FRESH, run)
    ensures var l, tally := After(FRESH, run), TallyOf(FRESH, run);
      && 0 <= tally.bytes <= |AllTaken(FRESH, run)| && l.wire == AllTaken(FRESH, run)[..tally.bytes]
      && l.written == tally.completions && l.shuts == tally.shuts && l.closes == tally.closes
  {
    RunTally(FRESH, run);
    Stream(run);
  }

  /** Over every run, when a write-complete callback is queued every accepted byte is on the wire. */
  lemma CompleteMeansSent(run: seq<Action>, a: Action)
    requires IsRun(FRESH, run) && Enabled(After(FRESH, run), a)
    requires Next(After(FRESH, run), a).written > After(FRESH, run).written
    ensures Next(After(FRESH, run), a).wire == AllTaken(FRESH, run) + Taken(After(FRESH, run), a)
  {
    var l := After(FRESH, run);
    Connections.RunKeeps(FRESH, run);
    StepKeeps(l, a);
    StepTally(l, a);
    AllSent(l, a);
    assert [] + AllTaken(FRESH, run) == AllTaken(FRESH, run);
  }
}
