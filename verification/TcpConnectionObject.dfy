// bounce::TcpConnection as an object over its output Buffer, refining the actions of Connections.
module ConnectionObject {
  import Buffers
  import opened ByteType
  import opened Channels
  import opened ConnectionStates
  import opened Connections

  class TcpConnection {
    var state: ConnState
    var events: bv16
    var outputBuffer: Buffers.Buffer
    var tasks: seq<Task>  // what this connection has queued in its loop
    var written: nat      // write-complete callbacks queued
    ghost var wire: seq<byte>
    ghost var accepted: seq<byte>
    ghost var shuts: nat
    ghost var shortShut: bool
    ghost var closes: nat

    ghost predicate Valid()
      reads this, outputBuffer
    {
      outputBuffer.Valid()
    }

    ghost function Model(): Link
      requires Valid()
      reads this, outputBuffer, outputBuffer.data
    {
      Link(state, events, outputBuffer.Contents(), tasks, wire, accepted, shuts, shortShut, written, closes)
    }

    constructor (init: nat)
      ensures Valid() && fresh(outputBuffer) && fresh(outputBuffer.data)
      ensures Model() == FRESH
    {
      state, events, tasks, written := Connecting, NONE_EVENT, [], 0;
      wire, accepted, shuts, shortShut, closes := [], [], 0, false, 0;
      outputBuffer := new Buffers.Buffer(init);
    }

    method ConnectComplete()
      requires Valid()
      modifies this
      ensures Valid() && outputBuffer == old(outputBuffer)
      ensures Model() == Connections.ConnectComplete(old(Model()))
      ensures state == Connected && IsReading(events) && (IsWriting(events) <==> IsWriting(old(events)))
    {
      state := Connected;
      events := EnableReading(events);
    }

    // Tries to send at once, if nothing is waiting to be sent.
    method TrySend(message: seq<byte>, answer: Answer) returns (wroteBytes: nat, sendError: bool)
      requires Valid() && Legal(Model(), |message|, answer)
      modifies this`wire, this`written
      ensures Valid() && sendError == Refused(old(Model()), |message|, answer)
      ensures sendError <==> !IsWriting(events) && old(Model()).output == [] && answer.ret != |message| &&
                             answer.ret <= 0 && (answer.errno == 32 || answer.errno == 104)
      ensures var idle := !old(Model()).Writing() && old(Model()).output == [];
        && wroteBytes == (if idle && answer.ret > 0 then answer.ret else 0) <= |message|
        && Model() == old(Model()).(wire := old(wire) + message[..wroteBytes],
                                    written := old(written) + if idle && answer.ret == |message| then 1 else 0)
    {
      wroteBytes, sendError := 0, false;
      if !IsWriting(events) && outputBuffer.ReadableBytes() == 0 {
        if answer.ret == |message| {
          wroteBytes := |message|;
          written := written + 1;
        } else if answer.ret > 0 {
          wroteBytes := answer.ret;
        } else if answer.errno != EWOULDBLOCK {
          if answer.errno == EPIPE || answer.errno == ECONNRESET {
            sendError := true;
          }
        }
      }
      wire := wire + message[..wroteBytes];
    }

    // What could not be sent waits in the buffer for the descriptor to become writable.
    method KeepRest(rest: seq<byte>)
      requires Valid()
      modifies this`events, outputBuffer, outputBuffer.data
      ensures Valid() && outputBuffer == old(outputBuffer)
      ensures outputBuffer.data == old(outputBuffer.data) || fresh(outputBuffer.data)
      ensures Model() == old(Model()).(output := old(Model()).output + rest,
                                       events := if IsWriting(old(events)) then old(events)
                                           else EnableWriting(old(events)))
    {
      outputBuffer.Append(rest);
      if !IsWriting(events) {
        events := EnableWriting(events);
      }
    }

    // answer: what ::send returns, should it be called
    method SendInLoop(message: seq<byte>, answer: Answer)
      requires Valid() && Legal(Model(), |message|, answer)
      modifies this, outputBuffer, outputBuffer.data
      ensures Valid() && outputBuffer == old(outputBuffer)
      ensures outputBuffer.data == old(outputBuffer.data) || fresh(outputBuffer.data)
      ensures Model() == Connections.SendInLoop(old(Model()), message, answer)
    {
      if state == Disconnected {
        return;
      }
      ghost var l := Model();
      var wroteBytes, sendError := TrySend(message, answer);
      SendParts(l, message, answer, wroteBytes, Model());
      if !sendError {
        accepted := accepted + message;
        if wroteBytes < |message| {
          KeepRest(message[wroteBytes..]);
        }
      }
    }

    method ShutdownInLoop()
      requires Valid()
      modifies this
      ensures Valid() && outputBuffer == old(outputBuffer)
      ensures Model() == Connections.ShutdownInLoop(old(Model()))
      ensures events == old(events) && shuts == old(shuts) + if IsWriting(old(events)) then 0 else 1
    {
      if !IsWriting(events) {
        shuts := shuts + 1;
        shortShut := shortShut || wire != accepted;
      }
    }

    // The buffer has run empty.
    method Drained()
      requires Valid()
      modifies this
      ensures Valid() && outputBuffer == old(outputBuffer)
      ensures var drained := old(Model()).(events := DisableWriting(old(events)), written := old(written) + 1);
        Model() == if old(state) == Disconnecting then Connections.ShutdownInLoop(drained) else drained
    {
      events := DisableWriting(events);
      written := written + 1;
      if state == Disconnecting {
        ShutdownInLoop();
      }
    }

    // n bytes have been sent.
    method Sent(n: nat)
      requires Valid() && n <= |Model().output|
      modifies this`wire, outputBuffer
      ensures Valid() && outputBuffer == old(outputBuffer)
      ensures Model() == old(Model()).(wire := old(wire) + old(Model()).output[..n], output := old(Model()).output[n..])
    {
      wire := wire + outputBuffer.Contents()[..n];
      outputBuffer.Retrieve(n);
    }

    method HandleWrite(answer: Answer)
      requires Valid() && Legal(Model(), |Model().output|, answer)
      modifies this, outputBuffer
      ensures Valid() && outputBuffer == old(outputBuffer)
      ensures Model() == Connections.HandleWrite(old(Model()), answer)
    {
      if IsWriting(events) {
        var wroteBytes := answer.ret;
        if wroteBytes > 0 {
          Sent(wroteBytes);
          if outputBuffer.ReadableBytes() == 0 {
            Drained();
          }
        }
      }
    }

    method HandleClose()
      requires Valid()
      modifies this
      ensures Valid() && outputBuffer == old(outputBuffer)
      ensures Model() == Connections.HandleClose(old(Model()))
      ensures state == Disconnected && events == NONE_EVENT && closes == old(closes) + 1
    {
      state := Disconnected;
      events := NONE_EVENT;
      closes := closes + 1;
    }

    method ForceCloseInLoop()
      requires Valid()
      modifies this
      ensures Valid() && outputBuffer == old(outputBuffer)
      ensures Model() == Connections.ForceCloseInLoop(old(Model()))
      ensures state == Disconnected && closes == old(closes) + if old(state) == Disconnected then 0 else 1
    {
      if state != Disconnected {
        HandleClose();
      }
    }

    method Send(message: seq<byte>, inLoop: bool, answer: Answer)
      requires Valid() && Legal(Model(), |message|, answer)
      modifies this, outputBuffer, outputBuffer.data
      ensures Valid() && outputBuffer == old(outputBuffer)
      ensures Model() == UserSend(old(Model()), message, inLoop, answer)
      ensures tasks == old(tasks) + if old(state) == Connected && !inLoop then [Task.Send(message)] else []
    {
      if state == Connected {
        if inLoop { SendInLoop(message, answer); } else { tasks := tasks + [Task.Send(message)]; }
      }
    }

    method Shutdown(inLoop: bool)
      requires Valid()
      modifies this
      ensures Valid() && outputBuffer == old(outputBuffer)
      ensures Model() == UserShutdown(old(Model()), inLoop)
      ensures state == if old(state) == Disconnected then Disconnected else Disconnecting
      ensures tasks == old(tasks) + if old(state) != Disconnected && !inLoop then [Task.Shutdown] else []
    {
      if state != Disconnected {
        state := Disconnecting;
        if inLoop { ShutdownInLoop(); } else { tasks := tasks + [Task.Shutdown]; }
      }
    }

    method ForceClose(inLoop: bool)
      requires Valid()
      modifies this
      ensures Valid() && outputBuffer == old(outputBuffer)
      ensures Model() == UserForceClose(old(Model()), inLoop)
      ensures state == if old(state) == Disconnected || inLoop then Disconnected else Disconnecting
      ensures tasks == old(tasks) + if old(state) != Disconnected && !inLoop then [Task.ForceClose] else []
    {
      if state != Disconnected {
        state := Disconnecting;
        if inLoop { ForceCloseInLoop(); } else { tasks := tasks + [Task.ForceClose]; }
      }
    }

    // The loop runs the next task this connection has queued.
    method RunTask(answer: Answer)
      requires Valid() && Enabled(Model(), RanTask(answer))
      modifies this, outputBuffer, outputBuffer.data
      ensures Valid() && outputBuffer == old(outputBuffer)
      ensures Model() == Next(old(Model()), RanTask(answer))
    {
      var task := tasks[0];
      tasks := tasks[1..];
      match task {
        case Send(message) => SendInLoop(message, answer);
        case Shutdown => ShutdownInLoop();
        case ForceClose => ForceCloseInLoop();
      }
    }

    // One event of the channel; eof is what a read finds.
    method HandleChannel(revents: bv16, eof: bool, answer: Answer)
      requires Valid() && state != Connecting && Legal(Model(), |Model().output|, answer)
      modifies this, outputBuffer
      ensures Valid() && outputBuffer == old(outputBuffer)
      ensures Model() == HandleAll(old(Model()), Dispatch(revents), eof, answer)
    {
      ghost var l := Model();
      if revents & POLLHUP != 0 && revents & POLLIN == 0 {
        HandleClose();
      }
      ghost var closed := Model();
      if revents & (POLLERR | POLLNVAL) != 0 {
        // The error callback changes nothing here.
      }
      if revents & (POLLIN | POLLPRI | POLLRDHUP) != 0 {
        if eof {
          HandleClose();
        }
      }
      ghost var read := Model();
      if revents & POLLOUT != 0 {
        HandleWrite(answer);
      }
      DispatchOrder(l, closed, read, Model(), revents, eof, answer);
    }
  }

  // What is left to do once the first send has been tried.
  lemma SendParts(l: Link, message: seq<byte>, a: Answer, wrote: nat, tried: Link)
    requires Legal(l, |message|, a) && l.state != Disconnected
    requires var idle := !l.Writing() && l.output == [];
      && wrote == (if idle && a.ret > 0 then a.ret else 0) <= |message|
      && tried == l.(wire := l.wire + message[..wrote],
                     written := l.written + if idle && a.ret == |message| then 1 else 0)
    ensures var r := Connections.SendInLoop(l, message, a);
      r == if Refused(l, |message|, a) then tried
           else if wrote == |message| then tried.(accepted := l.accepted + message)
           else tried.(accepted := l.accepted + message, output := l.output + message[wrote..],
                       events := if l.Writing() then l.events else EnableWriting(l.events))
  {
    assert l.wire + [] == l.wire;
  }

  // The handlers of one event, one after the other.
  ghost function HandleAll(l: Link, todo: seq<Handler>, eof: bool, answer: Answer): Link
    decreases |todo|
  {
    if todo == [] then l
    else
      var a := Handled(todo[0], eof, answer);
      HandleAll(if Enabled(l, a) then Next(l, a) else l, todo[1..], eof, answer)
  }

  lemma {:induction false} HandleBoth(l: Link, first: seq<Handler>, second: seq<Handler>, eof: bool, answer: Answer)
    ensures HandleAll(l, first + second, eof, answer) ==
            HandleAll(HandleAll(l, first, eof, answer), second, eof, answer)
    decreases |first|
  {
    if first == [] {
      assert first + second == second;
    } else {
      var a := Handled(first[0], eof, answer);
      assert (first + second)[1..] == first[1..] + second;
      HandleBoth(if Enabled(l, a) then Next(l, a) else l, first[1..], second, eof, answer);
    }
  }

  lemma HandleOne(l: Link, h: Handler, on: bool, eof: bool, answer: Answer)
    requires Enabled(l, Handled(h, eof, answer))
    ensures HandleAll(l, if on then [h] else [], eof, answer) == if on then Next(l, Handled(h, eof, answer)) else l
  {
    assert [h][1..] == [];
  }

  lemma MayClose(l: Link, r: Link, h: Handler, on: bool, eof: bool, answer: Answer)
    requires l.state != Connecting && Legal(l, |l.output|, answer) && (h == OnClose || h == OnRead)
    requires r == if on && (h == OnClose || eof) then Connections.HandleClose(l) else l
    ensures r == HandleAll(l, if on then [h] else [], eof, answer)
    ensures r.state != Connecting && Legal(r, |r.output|, answer)
  {
    HandleOne(l, h, on, eof, answer);
  }

  lemma InOrder(l: Link, c: bool, e: bool, r: bool, w: bool, eof: bool, answer: Answer)
    ensures HandleAll(l, Handlers(c, e, r, w), eof, answer) ==
      var l1 := HandleAll(l, if c then [OnClose] else [], eof, answer);
      var l2 := HandleAll(l1, if e then [OnError] else [], eof, answer);
      var l3 := HandleAll(l2, if r then [OnRead] else [], eof, answer);
      HandleAll(l3, if w then [OnWrite] else [], eof, answer)
  {
    var cs: seq<Handler> := if c then [OnClose] else [];
    var es: seq<Handler> := if e then [OnError] else [];
    var rs: seq<Handler> := if r then [OnRead] else [];
    var ws: seq<Handler> := if w then [OnWrite] else [];
    HandleBoth(l, cs + es + rs, ws, eof, answer);
    HandleBoth(l, cs + es, rs, eof, answer);
    HandleBoth(l, cs, es, eof, answer);
  }

  lemma OrderOf(l: Link, closed: Link, read: Link, end: Link, c: bool, e: bool, r: bool, w: bool,
                eof: bool, answer: Answer)
    requires l.state != Connecting && Legal(l, |l.output|, answer)
    requires closed == if c then Connections.HandleClose(l) else l
    requires read == if r && eof then Connections.HandleClose(closed) else closed
    requires end == if w then Connections.HandleWrite(read, answer) else read
    ensures end == HandleAll(l, Handlers(c, e, r, w), eof, answer)
  {
    InOrder(l, c, e, r, w, eof, answer);
    MayClose(l, closed, OnClose, c, eof, answer);
    HandleOne(closed, OnError, e, eof, answer);
    MayClose(closed, read, OnRead, r, eof, answer);
    HandleOne(read, OnWrite, w, eof, answer);
  }

  lemma DispatchOrder(l: Link, closed: Link, read: Link, end: Link, revents: bv16, eof: bool, answer: Answer)
    requires l.state != Connecting && Legal(l, |l.output|, answer)
    requires closed == if revents & POLLHUP != 0 && revents & POLLIN == 0 then Connections.HandleClose(l) else l
    requires read ==
      if revents & (POLLIN | POLLPRI | POLLRDHUP) != 0 && eof then Connections.HandleClose(closed) else closed
    requires end == if revents & POLLOUT != 0 then Connections.HandleWrite(read, answer) else read
    ensures end == HandleAll(l, Dispatch(revents), eof, answer)
  {
    var c, e := revents & POLLHUP != 0 && revents & POLLIN == 0, revents & (POLLERR | POLLNVAL) != 0;
    var r, w := revents & (POLLIN | POLLPRI | POLLRDHUP) != 0, revents & POLLOUT != 0;
    OrderOf(l, closed, read, end, c, e, r, w, eof, answer);
  }
}
