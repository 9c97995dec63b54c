// The outgoing side of a connection: what is accepted, what is buffered, what is on the wire.
module Connections {
  import opened ByteType
  import opened Channels
  import opened ConnectionStates

  const EWOULDBLOCK := 11
  const EPIPE := 32
  const ECONNRESET := 104

  // What ::send returned, and errno after it.
  datatype Answer = Answer(ret: int, errno: int)

  // Tasks of this connection waiting in its loop.
  datatype Task = Send(message: seq<byte>) | Shutdown | ForceClose

  // wire: the bytes the kernel took. accepted: the messages sendInLoop took on, in order.
  // shuts: how often SHUT_WR was issued; shortShut: once with accepted bytes not on the wire.
  // written: how many write-complete callbacks were queued. closes: how often handleClose ran, with its callbacks.
  datatype Link = Link(
    state: ConnState, events: bv16, output: seq<byte>, tasks: seq<Task>,
    wire: seq<byte>, accepted: seq<byte>, shuts: nat, shortShut: bool, written: nat, closes: nat)
  {
    predicate Writing() {
      IsWriting(events)
    }
  }

  // The kernel takes no more than it was given, and nothing once writing is shut down.
  predicate Legal(l: Link, len: nat, a: Answer) {
    -1 <= a.ret <= len && (l.shuts > 0 && len > 0 ==> a.ret == -1 && a.errno == EPIPE)
  }

  // Bodies of the source's functions -------------------------------------------------------

  // The first send of a message failed for good, so that the message is given up.
  predicate Refused(l: Link, len: nat, a: Answer) {
    !l.Writing() && l.output == [] && a.ret != len && a.ret <= 0 && a.errno in {EPIPE, ECONNRESET}
  }

  function SendInLoop(l: Link, message: seq<byte>, a: Answer): Link
    requires Legal(l, |message|, a)
  {
    if l.state == Disconnected then l
    else if Refused(l, |message|, a) then l
    else
      var idle := !l.Writing() && l.output == [];
      var wrote := if idle && a.ret > 0 then a.ret else 0;
      var rest := message[wrote..];
      var sent := l.(wire := l.wire + message[..wrote],
                     written := l.written + if idle && a.ret == |message| then 1 else 0,
                     accepted := l.accepted + message);
      if rest == [] then sent
      else sent.(output := l.output + rest, events := if l.Writing() then l.events else EnableWriting(l.events))
  }

  function ShutdownInLoop(l: Link): Link {
    if l.Writing() then l
    else l.(shuts := l.shuts + 1, shortShut := l.shortShut || l.wire != l.accepted)
  }

  function HandleWrite(l: Link, a: Answer): Link
    requires Legal(l, |l.output|, a)
  {
    if !l.Writing() || a.ret <= 0 then l
    else
      var sent := l.(wire := l.wire + l.output[..a.ret], output := l.output[a.ret..]);
      if sent.output != [] then sent
      else
        var drained := sent.(events := DisableWriting(l.events), written := l.written + 1);
        if l.state == Disconnecting then ShutdownInLoop(drained) else drained
  }

  function HandleClose(l: Link): Link {
    l.(state := Disconnected, events := NONE_EVENT, closes := l.closes + 1)
  }

  function ForceCloseInLoop(l: Link): Link {
    if l.state == Disconnected then l else HandleClose(l)
  }

  function ConnectComplete(l: Link): Link {
    l.(state := Connected, events := EnableReading(l.events))
  }

  function Queue(l: Link, t: Task): Link {
    l.(tasks := l.tasks + [t])
  }

  function UserSend(l: Link, message: seq<byte>, inLoop: bool, a: Answer): Link
    requires Legal(l, |message|, a)
  {
    if l.state != Connected then l
    else if inLoop then SendInLoop(l, message, a)
    else Queue(l, Send(message))
  }

  function UserShutdown(l: Link, inLoop: bool): Link {
    if l.state == Disconnected then l
    else
      var asked := l.(state := Disconnecting);
      if inLoop then ShutdownInLoop(asked) else Queue(asked, Shutdown)
  }

  function UserForceClose(l: Link, inLoop: bool): Link {
    if l.state == Disconnected then l
    else
      var asked := l.(state := Disconnecting);
      if inLoop then ForceCloseInLoop(asked) else Queue(asked, ForceClose)
  }

  // Steps --------------------------------------------------------------------------------------

  datatype Action =
    | Completed
    | Handled(handler: Handler, eof: bool, answer: Answer)
    | RanTask(answer: Answer)
    | CalledSend(message: seq<byte>, inLoop: bool, answer: Answer)
    | CalledShutdown(inLoop: bool)
    | CalledForceClose(inLoop: bool)

  // Callbacks and user calls come only after connectComplete, which runs once.
  predicate Enabled(l: Link, a: Action) {
    match a
    case Completed => l.state == Connecting
    case Handled(_, _, answer) => l.state != Connecting && Legal(l, |l.output|, answer)
    case RanTask(answer) =>
      l.state != Connecting && l.tasks != [] && (l.tasks[0].Send? ==> Legal(l, |l.tasks[0].message|, answer))
    case CalledSend(message, _, answer) => l.state != Connecting && Legal(l, |message|, answer)
    case CalledShutdown(_) => l.state != Connecting
    case CalledForceClose(_) => l.state != Connecting
  }

  function Next(l: Link, a: Action): Link
    requires Enabled(l, a)
  {
    match a
    case Completed => ConnectComplete(l)
    case Handled(h, eof, answer) =>
      if h == OnClose || (h == OnRead && eof) then HandleClose(l)
      else if h == OnWrite then HandleWrite(l, answer)
      else l
    case RanTask(answer) =>
      var rest := l.(tasks := l.tasks[1..]);
      (match l.tasks[0]
       case Send(message) => SendInLoop(rest, message, answer)
       case Shutdown => ShutdownInLoop(rest)
       case ForceClose => ForceCloseInLoop(rest))
    case CalledSend(message, inLoop, answer) => UserSend(l, message, inLoop, answer)
    case CalledShutdown(inLoop) => UserShutdown(l, inLoop)
    case CalledForceClose(inLoop) => UserForceClose(l, inLoop)
  }

  const FRESH := Link(Connecting, NONE_EVENT, [], [], [], [], 0, false, 0, 0)

  predicate IsRun(l: Link, run: seq<Action>)
    decreases |run|
  {
    run == [] || (Enabled(l, run[0]) && IsRun(Next(l, run[0]), run[1..]))
  }

  function After(l: Link, run: seq<Action>): Link
    requires IsRun(l, run)
    decreases |run|
  {
    if run == [] then l else After(Next(l, run[0]), run[1..])
  }

  // What one action does, in terms of the state before it -----------------------------------------

  // sendInLoop gets a message, and the connection is not closed.
  predicate Sends(l: Link, a: Action) {
    match a
    case CalledSend(_, inLoop, _) => inLoop && l.state == Connected
    case RanTask(_) => l.tasks != [] && l.tasks[0].Send? && l.state != Disconnected
    case _ => false
  }

  // ::send is called: for a message with nothing ahead of it, or for the buffer.
  predicate Calls(l: Link, a: Action) {
    if a.Handled? then a.handler == OnWrite && l.Writing() else Sends(l, a) && !l.Writing() && l.output == []
  }

  // What it is given.
  function Given(l: Link, a: Action): seq<byte> {
    match a
    case Handled(_, _, _) => l.output
    case CalledSend(message, _, _) => message
    case RanTask(_) => if l.tasks != [] && l.tasks[0].Send? then l.tasks[0].message else []
    case _ => []
  }

  function AnswerOf(a: Action): Answer {
    match a
    case Handled(_, _, answer) => answer
    case CalledSend(_, _, answer) => answer
    case RanTask(answer) => answer
    case _ => Answer(0, 0)
  }

  // The message is given up: nothing of it was sent, and errno is EPIPE or ECONNRESET.
  predicate GivesUp(l: Link, a: Action) {
    var answer := AnswerOf(a);
    Calls(l, a) && answer.ret <= 0 && answer.ret != |Given(l, a)| && (answer.errno == 32 || answer.errno == 104)
  }

  // The messages one action takes on.
  function Taken(l: Link, a: Action): seq<byte> {
    if Sends(l, a) && !GivesUp(l, a) then Given(l, a) else []
  }

  function AllTaken(l: Link, run: seq<Action>): seq<byte>
    requires IsRun(l, run)
    decreases |run|
  {
    if run == [] then [] else Taken(l, run[0]) + AllTaken(Next(l, run[0]), run[1..])
  }

  // Invariants -----------------------------------------------------------------------------------

  ghost predicate Inv(l: Link) {
    // The wire and the buffer together are what was accepted.
    && l.wire + l.output == l.accepted
    // Write interest is on exactly while something is buffered.
    && (l.state != Disconnected ==> (l.Writing() <==> l.output != []))
    // SHUT_WR follows the last accepted byte, and nothing is buffered behind it.
    && (l.state != Disconnected && l.shuts > 0 ==> l.output == [])
    && (l.shortShut ==> l.state == Disconnected)
    // A shutdown that was asked for has been issued, or will be.
    && (l.state == Disconnecting ==> l.output != [] || l.shuts > 0 || Shutdown in l.tasks || ForceClose in l.tasks)
    // A connection reads from connectComplete on, and a closed one waits for nothing.
    && (l.state == Connected || l.state == Disconnecting ==> IsReading(l.events))
    && (l.state == Disconnected ==> l.events == NONE_EVENT)
    && (l.state == Connecting ==> l == FRESH)
  }

  // What taking a message on does to the connection.
  lemma SendShape(l: Link, message: seq<byte>, a: Answer)
    requires Legal(l, |message|, a) && l.state != Disconnected && !Refused(l, |message|, a)
    ensures var n := if !l.Writing() && l.output == [] && a.ret > 0 then a.ret else 0;
      var r := SendInLoop(l, message, a);
      && r.wire == l.wire + message[..n] && r.output == l.output + message[n..]
      && r.state == l.state && r.tasks == l.tasks && r.shuts == l.shuts && r.shortShut == l.shortShut
      && (r.Writing() <==> l.Writing() || n < |message|) && (IsReading(r.events) <==> IsReading(l.events))
  {
    var n := if !l.Writing() && l.output == [] && a.ret > 0 then a.ret else 0;
    var rest := message[n..];
    assert |rest| == |message| - n;
    if rest == [] { NothingMore(l.output, rest); }
  }

  lemma NothingMore(output: seq<byte>, rest: seq<byte>)
    requires rest == []
    ensures output + rest == output
  {
  }

  lemma SendKeeps(l: Link, message: seq<byte>, a: Answer)
    requires Inv(l) && l.state != Connecting && Legal(l, |message|, a)
    ensures Inv(SendInLoop(l, message, a))
    ensures SendInLoop(l, message, a).accepted ==
            l.accepted + if l.state != Disconnected && !Refused(l, |message|, a) then message else []
    ensures l.state == Disconnected || l.shuts > 0 ==> SendInLoop(l, message, a).wire == l.wire
    ensures SendInLoop(l, message, a).state == l.state
  {
    if l.state != Disconnected && !Refused(l, |message|, a) {
      SendStream(l, message, a);
      SendShape(l, message, a);
      SendLive(l, SendInLoop(l, message, a), message, if l.output == [] && a.ret > 0 then a.ret else 0);
      if l.shuts > 0 { assert message == [] || a.ret == -1; }
    }
  }

  lemma SendLive(l: Link, r: Link, message: seq<byte>, n: nat)
    requires Inv(l) && (l.state == Connected || l.state == Disconnecting) && n <= |message|
    requires r.wire + r.output == r.accepted && r.output == l.output + message[n..]
    requires r.state == l.state && r.tasks == l.tasks && r.shuts == l.shuts && r.shortShut == l.shortShut
    requires (r.Writing() <==> l.Writing() || n < |message|) && (IsReading(r.events) <==> IsReading(l.events))
    requires l.shuts > 0 ==> message == []
    ensures Inv(r)
  {
  }

  lemma SendStream(l: Link, message: seq<byte>, a: Answer)
    requires l.wire + l.output == l.accepted && Legal(l, |message|, a)
    requires l.state != Disconnected && !Refused(l, |message|, a)
    ensures var r := SendInLoop(l, message, a);
      r.wire + r.output == r.accepted == l.accepted + message
  {
    var n := if !l.Writing() && l.output == [] && a.ret > 0 then a.ret else 0;
    var r := SendInLoop(l, message, a);
    assert r.wire == l.wire + message[..n] && r.output == l.output + message[n..];
    SentAndKept(l.wire, l.output, message, n);
  }

  lemma SentAndKept(wire: seq<byte>, output: seq<byte>, message: seq<byte>, n: nat)
    requires n <= |message| && (n == 0 || output == [])
    ensures (wire + message[..n]) + (output + message[n..]) == wire + output + message
  {
    assert message == message[..n] + message[n..];
  }

  lemma WriteKeeps(l: Link, a: Answer)
    requires Inv(l) && l.state != Connecting && Legal(l, |l.output|, a)
    ensures Inv(HandleWrite(l, a))
    ensures HandleWrite(l, a).accepted == l.accepted
    ensures l.state == Disconnected || l.shuts > 0 ==> HandleWrite(l, a).wire == l.wire
    ensures HandleWrite(l, a).state == l.state
  {
    if l.Writing() && a.ret > 0 {
      assert l.output == l.output[..a.ret] + l.output[a.ret..];
      assert l.wire + l.output == (l.wire + l.output[..a.ret]) + l.output[a.ret..];
    }
  }

  // Taking the next task out loses no shutdown but the one that is about to run.
  lemma PopKeeps(l: Link)
    requires Inv(l) && l.tasks != [] && l.tasks[0].Send?
    ensures Inv(l.(tasks := l.tasks[1..]))
  {
    assert l.tasks == [l.tasks[0]] + l.tasks[1..];
  }

  lemma RanTaskKeeps(l: Link, answer: Answer)
    requires Inv(l) && Enabled(l, RanTask(answer))
    ensures var r := Next(l, RanTask(answer));
      && Inv(r) && r.accepted == l.accepted + Taken(l, RanTask(answer))
      && (l.state == Disconnected || l.shuts > 0 ==> r.wire == l.wire)
      && (l.state == Disconnected ==> r.state == Disconnected)
  {
    if l.tasks[0].Send? {
      PopKeeps(l);
      SendKeeps(l.(tasks := l.tasks[1..]), l.tasks[0].message, answer);
    }
  }

  lemma HandledKeeps(l: Link, a: Action)
    requires Inv(l) && Enabled(l, a) && a.Handled?
    ensures var r := Next(l, a);
      && Inv(r) && r.accepted == l.accepted && Taken(l, a) == []
      && (l.state == Disconnected || l.shuts > 0 ==> r.wire == l.wire)
      && (l.state == Disconnected ==> r.state == Disconnected)
  {
    WriteKeeps(l, a.answer);
  }

  lemma CalledSendKeeps(l: Link, a: Action)
    requires Inv(l) && Enabled(l, a) && a.CalledSend?
    ensures var r := Next(l, a);
      && Inv(r) && r.accepted == l.accepted + Taken(l, a)
      && (l.state == Disconnected || l.shuts > 0 ==> r.wire == l.wire) && r.state == l.state
  {
    if l.state == Connected && a.inLoop {
      SendKeeps(l, a.message, a.answer);
    } else {
      assert Taken(l, a) == [] && Next(l, a).accepted == l.accepted;
      QueueKeeps(l, Send(a.message));
    }
  }

  lemma QueueKeeps(l: Link, t: Task)
    requires Inv(l) && l.state != Connecting
    ensures Inv(Queue(l, t))
  {
  }

  // Asking for the end of a connection.
  lemma CalledEndKeeps(l: Link, a: Action)
    requires Inv(l) && Enabled(l, a) && (a.CalledShutdown? || a.CalledForceClose?)
    ensures var r := Next(l, a);
      && Inv(r) && r.accepted == l.accepted && Taken(l, a) == [] && r.wire == l.wire
      && (l.state == Disconnected ==> r.state == Disconnected)
  {
    if l.state != Disconnected { AskedKeeps(l, if a.CalledShutdown? then Shutdown else ForceClose); }
  }

  // Queued, or run at once.
  lemma AskedKeeps(l: Link, t: Task)
    requires Inv(l) && l.state != Connecting && l.state != Disconnected && !t.Send?
    ensures var asked := l.(state := Disconnecting);
      Inv(Queue(asked, t)) && Inv(if t.Shutdown? then ShutdownInLoop(asked) else ForceCloseInLoop(asked))
  {
  }

  /** Every action keeps the invariant; a closed connection stays closed and sends nothing more,
      and nothing is sent behind SHUT_WR. */
  lemma StepKeeps(l: Link, a: Action)
    requires Inv(l) && Enabled(l, a)
    ensures Inv(Next(l, a))
    ensures Next(l, a).accepted == l.accepted + Taken(l, a)
    ensures l.state == Disconnected || l.shuts > 0 ==> Next(l, a).wire == l.wire
    ensures l.state == Disconnected ==> Next(l, a).state == Disconnected
  {
    match a {
      case Completed =>
      case Handled(_, _, _) => HandledKeeps(l, a);
      case RanTask(answer) => RanTaskKeeps(l, answer);
      case CalledSend(_, _, _) => CalledSendKeeps(l, a);
      case _ => CalledEndKeeps(l, a);
    }
  }

  lemma {:induction false} RunKeeps(l: Link, run: seq<Action>)
    requires Inv(l) && IsRun(l, run)
    ensures Inv(After(l, run))
    ensures After(l, run).accepted == l.accepted + AllTaken(l, run)
    ensures l.state == Disconnected || l.shuts > 0 ==> After(l, run).wire == l.wire
    ensures l.state == Disconnected ==> After(l, run).state == Disconnected
    decreases |run|
  {
    if run != [] {
      var n := Next(l, run[0]);
      StepKeeps(l, run[0]);
      StepShuts(l, run[0]);
      RunKeeps(n, run[1..]);
      Associate(l.accepted, Taken(l, run[0]), AllTaken(n, run[1..]));
    }
  }

  lemma Associate(a: seq<byte>, b: seq<byte>, c: seq<byte>)
    ensures a + b + c == a + (b + c)
  {
  }

  lemma StepShuts(l: Link, a: Action)
    requires Enabled(l, a)
    ensures l.shuts <= Next(l, a).shuts
  {
  }

  // What users of a connection rely on ---------------------------------------------------------

  /** The wire and then the buffer hold exactly the accepted messages, in the order they were taken on. */
  lemma Stream(run: seq<Action>)
    requires IsRun(FRESH, run)
    ensures After(FRESH, run).wire + After(FRESH, run).output == AllTaken(FRESH, run)
    ensures After(FRESH, run).state != Disconnected ==>
              (After(FRESH, run).Writing() <==> After(FRESH, run).output != [])
  {
    RunKeeps(FRESH, run);
    assert [] + AllTaken(FRESH, run) == AllTaken(FRESH, run);
  }

  ghost predicate IsRunOn(run: seq<Action>, more: seq<Action>) {
    IsRun(FRESH, run) && IsRun(After(FRESH, run), more)
  }

  /** Once a connection has been closed, or its writing shut down, no later action puts a byte on the wire. */
  lemma Silence(run: seq<Action>, more: seq<Action>)
    requires IsRunOn(run, more)
    requires After(FRESH, run).state == Disconnected || After(FRESH, run).shuts > 0
    ensures After(After(FRESH, run), more).wire == After(FRESH, run).wire
  {
    RunKeeps(FRESH, run);
    RunKeeps(After(FRESH, run), more);
  }

  /** The action that drains the buffer of a connection asked to shut down issues SHUT_WR itself,
      with every accepted byte on the wire. */
  lemma ShutdownAtDrain(run: seq<Action>, answer: Answer)
    requires IsRun(FRESH, run)
    requires var l := After(FRESH, run);
      l.state == Disconnecting && l.output != [] && Legal(l, |l.output|, answer) && answer.ret == |l.output|
    ensures var l := After(FRESH, run);
      var n := Next(l, Handled(OnWrite, false, answer));
      n.shuts == l.shuts + 1 && n.wire == AllTaken(FRESH, run) && n.output == [] && !n.shortShut
  {
    RunKeeps(FRESH, run);
    var l := After(FRESH, run);
    WriteKeeps(l, answer);
    assert l.wire + l.output[..answer.ret] == l.accepted == AllTaken(FRESH, run);
  }

  /** No shutdown is lost: a connection asked to shut down has bytes to drain, or has issued SHUT_WR,
      or has the task that will in its loop. */
  lemma ShutdownNotLost(run: seq<Action>)
    requires IsRun(FRESH, run) && After(FRESH, run).state == Disconnecting
    ensures var l := After(FRESH, run);
      l.output != [] || l.shuts > 0 || Shutdown in l.tasks || ForceClose in l.tasks
  {
    RunKeeps(FRESH, run);
  }

  /** A queued shutdown cuts the stream short exactly when the connection was closed before it ran,
      with bytes still in the buffer: handleClose turns write interest off, and the task tests nothing else. */
  lemma ShortShutdown(run: seq<Action>, answer: Answer)
    requires IsRun(FRESH, run)
    requires var l := After(FRESH, run); l.state != Connecting && l.tasks != [] && l.tasks[0] == Shutdown
    ensures var l := After(FRESH, run);
      var n := Next(l, RanTask(answer));
      n.shuts > l.shuts && n.wire != n.accepted <==> l.state == Disconnected && l.output != []
  {
    RunKeeps(FRESH, run);
    var l := After(FRESH, run);
    assert l.output != [] ==> |l.wire| < |l.accepted|;
    assert l.output == [] ==> l.wire == l.accepted;
  }

  lemma Prepend(l: Link, a: Action, rest: seq<Action>, end: Link)
    requires Enabled(l, a) && IsRun(Next(l, a), rest) && After(Next(l, a), rest) == end
    ensures IsRun(l, [a] + rest) && After(l, [a] + rest) == end
  {
    assert ([a] + rest)[1..] == rest;
  }

  // Hung up, and then the shutdown that was queued runs.
  lemma HungUpFirst(l: Link, full: Answer) returns (run: seq<Action>)
    requires l.state == Disconnecting && l.tasks == [Shutdown] && l.wire != l.accepted && l.shuts == 0
    requires full == Answer(-1, EWOULDBLOCK)
    ensures IsRun(l, run) && After(l, run).shortShut
  {
    var closed := Next(l, Handled(OnClose, false, full));
    var end := Next(closed, RanTask(full));
    Prepend(closed, RanTask(full), [], end);
    run := [RanTask(full)] + [];
    Prepend(l, Handled(OnClose, false, full), run, end);
    run := [Handled(OnClose, false, full)] + run;
  }

  /** That happens: a send the kernel has no room for, a shutdown from another thread, and a hang-up. */
  lemma ShortShutdownHappens(message: seq<byte>)
    requires message != []
    ensures exists run :: IsRun(FRESH, run) && After(FRESH, run).shortShut
  {
    var full := Answer(-1, EWOULDBLOCK);
    var l1 := Next(FRESH, Completed);
    var l2 := Next(l1, CalledSend(message, true, full));
    assert l2.output == message && l2.wire == [] && l2.accepted == message;
    var l3 := Next(l2, CalledShutdown(false));
    var run := HungUpFirst(l3, full);
    var end := After(l3, run);
    Prepend(l2, CalledShutdown(false), run, end);
    run := [CalledShutdown(false)] + run;
    Prepend(l1, CalledSend(message, true, full), run, end);
    run := [CalledSend(message, true, full)] + run;
    Prepend(FRESH, Completed, run, end);
    run := [Completed] + run;
    assert IsRun(FRESH, run) && After(FRESH, run).shortShut;
  }
}
