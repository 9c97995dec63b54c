// Event masks of a channel and the order in which one event's callbacks run.
module Channels {

  const POLLIN: bv16 := 0x0001
  const POLLPRI: bv16 := 0x0002
  const POLLOUT: bv16 := 0x0004
  const POLLERR: bv16 := 0x0008
  const POLLHUP: bv16 := 0x0010
  const POLLNVAL: bv16 := 0x0020
  const POLLRDHUP: bv16 := 0x2000

  const NONE_EVENT: bv16 := 0
  const READ_EVENT: bv16 := POLLIN | POLLPRI
  const WRITE_EVENT: bv16 := POLLOUT

  predicate IsWriting(events: bv16) {
    events & WRITE_EVENT != 0
  }

  predicate IsReading(events: bv16) {
    events & READ_EVENT != 0
  }

  function EnableReading(events: bv16): (e: bv16)
    ensures IsReading(e) && (IsWriting(e) <==> IsWriting(events))
  {
    events | READ_EVENT
  }

  function EnableWriting(events: bv16): (e: bv16)
    ensures IsWriting(e) && (IsReading(e) <==> IsReading(events))
  {
    events | WRITE_EVENT
  }

  function DisableWriting(events: bv16): (e: bv16)
    ensures !IsWriting(e) && (IsReading(e) <==> IsReading(events))
  {
    events & !WRITE_EVENT
  }

  datatype Handler = OnClose | OnError | OnRead | OnWrite

  /** The callbacks one event runs, in order. They are not exclusive. */
  function Dispatch(revents: bv16): seq<Handler> {
    (if revents & POLLHUP != 0 && revents & POLLIN == 0 then [OnClose] else [])
    + (if revents & (POLLERR | POLLNVAL) != 0 then [OnError] else [])
    + (if revents & (POLLIN | POLLPRI | POLLRDHUP) != 0 then [OnRead] else [])
    + (if revents & POLLOUT != 0 then [OnWrite] else [])
  }

  // The place of a callback in handleChannel.
  function Place(h: Handler): nat {
    match h case OnClose => 0 case OnError => 1 case OnRead => 2 case OnWrite => 3
  }

  lemma Bits(revents: bv16)
    ensures revents & (POLLERR | POLLNVAL) != 0 <==> revents & 0x0008 != 0 || revents & 0x0020 != 0
    ensures revents & (POLLIN | POLLPRI | POLLRDHUP) != 0 <==>
            revents & 0x0001 != 0 || revents & 0x0002 != 0 || revents & 0x2000 != 0
  {
  }

  // The callbacks of one event, where each runs or not.
  function Handlers(c: bool, e: bool, r: bool, w: bool): seq<Handler> {
    (if c then [OnClose] else []) + (if e then [OnError] else [])
    + (if r then [OnRead] else []) + (if w then [OnWrite] else [])
  }

  lemma HandlersExactly(c: bool, e: bool, r: bool, w: bool)
    ensures var hs := Handlers(c, e, r, w);
      && (OnClose in hs <==> c) && (OnError in hs <==> e) && (OnRead in hs <==> r) && (OnWrite in hs <==> w)
      && forall i, j :: 0 <= i < j < |hs| ==> Place(hs[i]) < Place(hs[j])
  {
  }

  /** The events each callback answers to, by their bits, and the order of the callbacks. */
  lemma DispatchExactly(revents: bv16)
    ensures var hs := Dispatch(revents);
      && (OnClose in hs <==> revents & 0x0010 != 0 && revents & 0x0001 == 0)
      && (OnError in hs <==> revents & 0x0008 != 0 || revents & 0x0020 != 0)
      && (OnRead in hs <==> revents & 0x0001 != 0 || revents & 0x0002 != 0 || revents & 0x2000 != 0)
      && (OnWrite in hs <==> revents & 0x0004 != 0)
      && forall i, j :: 0 <= i < j < |hs| ==> Place(hs[i]) < Place(hs[j])
  {
    var c, e := revents & POLLHUP != 0 && revents & POLLIN == 0, revents & (POLLERR | POLLNVAL) != 0;
    var r, w := revents & (POLLIN | POLLPRI | POLLRDHUP) != 0, revents & POLLOUT != 0;
    Bits(revents);
    HandlersExactly(c, e, r, w);
    assert Dispatch(revents) == Handlers(c, e, r, w);
  }

  /** One event can close a connection in two of its callbacks: exactly when it reports a hang-up with
      nothing to read, together with priority data or a half-close. */
  lemma CloseThenRead(revents: bv16)
    ensures OnClose in Dispatch(revents) && OnRead in Dispatch(revents) <==>
            revents & POLLHUP != 0 && revents & POLLIN == 0 && revents & (POLLPRI | POLLRDHUP) != 0
    ensures OnClose in Dispatch(revents) ==> Dispatch(revents)[0] == OnClose
    ensures |Dispatch(revents)| <= 4
  {
    assert revents & (POLLIN | POLLPRI | POLLRDHUP) != 0 <==>
        revents & POLLIN != 0 || revents & (POLLPRI | POLLRDHUP) != 0;
  }
}

module ConnectionStates {
  datatype ConnState = Connecting | Connected | Disconnecting | Disconnected
}
