// bounce::Buffer: a growing byte array with a readable window.
module ByteType {
  newtype byte = x: int | 0 <= x < 256
}

module Buffers {
  import opened ByteType

  const STACK_BUFFER_SIZE := 65536

  function Min(a: nat, b: nat): nat {
    if a < b then a else b
  }

  function Max(a: nat, b: nat): nat {
    if a < b then b else a
  }

  // Layout ----------------------------------------------------------------------------------

  // The size of the storage and its two indices; what is readable is [read, write).
  datatype Layout = Layout(size: nat, read: nat, write: nat) {
    predicate Ok() {
      read <= write <= size
    }

    function Readable(): nat
      requires Ok()
    {
      write - read
    }

    function Spare(): nat
      requires Ok()
    {
      size - write
    }

    // append, with the shift and the growth of makeSpace
    function Append(init: nat, len: nat): (r: Layout)
      requires Ok()
    {
      if Spare() >= len then Layout(size, read, write + len)
      else
        var moved := if read > init / 2 then Layout(size, 0, write - read) else this;
        if moved.Spare() >= len then moved.(write := moved.write + len)
        else Layout(size + len, moved.read, moved.write + len)
    }

    function Retrieve(len: nat): (r: Layout)
      requires Ok()
    {
      if len < Readable() then Layout(size, read + len, write) else Layout(size, 0, 0)
    }

    // readFd with n bytes read into the spare room and then into the stack buffer
    function ReadFd(init: nat, n: nat): (r: Layout)
      requires Ok()
    {
      if Spare() > n then Layout(size, read, write + n)
      else Layout(size, read, size).Append(init, n - Spare())
    }
  }

  datatype Op = Append(len: nat) | Retrieve(len: nat) | ReadFd(n: nat)

  // n: at most what readv has room for.
  predicate Legal(l: Layout, op: Op)
    requires l.Ok()
  {
    op.ReadFd? ==> op.n <= l.Spare() + STACK_BUFFER_SIZE
  }

  function Apply(init: nat, l: Layout, op: Op): Layout
    requires l.Ok()
  {
    match op
    case Append(len) => l.Append(init, len)
    case Retrieve(len) => l.Retrieve(len)
    case ReadFd(n) => l.ReadFd(init, n)
  }

  function Added(op: Op): nat {
    match op
    case Append(len) => len
    case Retrieve(_) => 0
    case ReadFd(n) => n
  }

  function Kept(l: Layout, op: Op): nat
    requires l.Ok()
  {
    if op.Retrieve? then l.Readable() - Min(op.len, l.Readable()) else l.Readable()
  }

  lemma AppendShape(init: nat, l: Layout, len: nat)
    requires l.Ok()
    ensures var r := l.Append(init, len);
      r.Ok() && r.Readable() == l.Readable() + len && r.size <= Max(l.size, init / 2 + l.Readable() + 2 * len)
  {
  }

  /** When an append moves and when it grows. With room behind what is readable it does neither; without, it moves
      if more than half the initial size lies in front, and grows if there is no room even so. */
  lemma AppendExactly(init: nat, l: Layout, len: nat)
    requires l.Ok()
    ensures var r := l.Append(init, len);
      && r.read == (if len > l.size - l.write && l.read > init / 2 then 0 else l.read)
      && r.write == r.read + (l.write - l.read) + len
      && (r.size == l.size || r.size == l.size + len)
      && (r.size > l.size <==> len > l.size - l.write && len > l.size - (r.write - len))
      && (r.size > l.size ==> l.size < init / 2 + (l.write - l.read) + len)
  {
  }

  /** Taking bytes from the front leaves the rest where it is, and an emptied buffer starts over. */
  lemma RetrieveExactly(l: Layout, len: nat)
    requires l.Ok()
    ensures var r := l.Retrieve(len);
      && r.size == l.size
      && if len < l.write - l.read then r.write == l.write && r.read == l.read + len else r.write == 0 && r.read == 0
  {
  }

  /** No operation loses or invents a byte, and growth is bounded by what is stored. */
  lemma StepShape(init: nat, l: Layout, op: Op)
    requires l.Ok()
    ensures Apply(init, l, op).Ok()
    ensures Apply(init, l, op).Readable() == Kept(l, op) + Added(op)
    ensures op.Append? ==> Apply(init, l, op).size <= Max(l.size, init / 2 + l.Readable() + 2 * op.len)
    ensures op.Retrieve? ==> Apply(init, l, op).size == l.size
    ensures op.ReadFd? && Legal(l, op) ==>
              Apply(init, l, op).size <= Max(l.size, init / 2 + l.Readable() + op.n + STACK_BUFFER_SIZE)
  {
    match op
    case Append(len) => AppendShape(init, l, len);
    case Retrieve(len) =>
    case ReadFd(n) =>
      if l.Spare() <= n { AppendShape(init, Layout(l.size, l.read, l.size), n - l.Spare()); }
  }

  ghost predicate IsRun(init: nat, l: Layout, run: seq<Op>, limit: nat)
    requires l.Ok()
    decreases |run|
  {
    run == [] ||
    (Legal(l, run[0]) && Added(run[0]) + l.Readable() <= limit &&
     (StepShape(init, l, run[0]); IsRun(init, Apply(init, l, run[0]), run[1..], limit)))
  }

  ghost function AfterRun(init: nat, l: Layout, run: seq<Op>): Layout
    requires l.Ok()
    decreases |run|
  {
    if run == [] then l
    else StepShape(init, l, run[0]); AfterRun(init, Apply(init, l, run[0]), run[1..])
  }

  /** Over a whole run in which at most `limit` bytes are ever stored, the storage stays within a fixed
      multiple of that, however many bytes pass through. */
  lemma {:induction false} RunSize(init: nat, l: Layout, run: seq<Op>, limit: nat)
    requires l.Ok() && IsRun(init, l, run, limit)
    ensures AfterRun(init, l, run).size <= Max(l.size, init / 2 + 2 * limit + STACK_BUFFER_SIZE)
    decreases |run|
  {
    if run != [] {
      StepShape(init, l, run[0]);
      RunSize(init, Apply(init, l, run[0]), run[1..], limit);
    }
  }

  // How many bytes a run leaves, of those there were.
  function Balance(have: nat, run: seq<Op>): nat
    decreases |run|
  {
    if run == [] then have
    else
      Balance(match run[0]
              case Append(len) => have + len
              case Retrieve(len) => if len < have then have - len else 0
              case ReadFd(n) => have + n, run[1..])
  }

  /** Over a whole run, what is readable is what came in and has not been taken. */
  lemma {:induction false} RunBytes(init: nat, l: Layout, run: seq<Op>)
    requires l.Ok()
    ensures AfterRun(init, l, run).Ok() && AfterRun(init, l, run).Readable() == Balance(l.Readable(), run)
    decreases |run|
  {
    if run != [] {
      StepShape(init, l, run[0]);
      RunBytes(init, Apply(init, l, run[0]), run[1..]);
    }
  }

  // Integers ---------------------------------------------------------------------------------

  function Pow256(n: nat): (p: int)
    ensures p > 0
  {
    if n == 0 then 1 else 256 * Pow256(n - 1)
  }

  // The n bytes of an unsigned integer, least significant first.
  function Bytes(u: nat, n: nat): (b: seq<byte>)
    ensures |b| == n
  {
    if n == 0 then [] else [(u % 256) as byte] + Bytes(u / 256, n - 1)
  }

  function Unsigned(b: seq<byte>): nat {
    if b == [] then 0 else b[0] as nat + 256 * Unsigned(b[1..])
  }

  predicate Fits(x: int, n: nat) {
    -Pow256(n) <= 2 * x < Pow256(n)
  }

  // Two's complement, as memory holds an intN_t of n bytes.
  function Encode(x: int, n: nat): (b: seq<byte>)
    requires Fits(x, n)
    ensures |b| == n
  {
    Bytes(if x < 0 then x + Pow256(n) else x, n)
  }

  function Decode(b: seq<byte>): int {
    var u := Unsigned(b);
    if 2 * u >= Pow256(|b|) then u - Pow256(|b|) else u
  }

  lemma {:induction false} UnsignedBytes(u: nat, n: nat)
    requires u < Pow256(n)
    ensures Unsigned(Bytes(u, n)) == u
  {
    if n > 0 {
      UnsignedBytes(u / 256, n - 1);
      assert Bytes(u, n)[1..] == Bytes(u / 256, n - 1);
    }
  }

  /** The values that fit are those of int8_t, int16_t and int32_t. */
  lemma FitsExactly(x: int)
    ensures Fits(x, 1) <==> -0x80 <= x < 0x80
    ensures Fits(x, 2) <==> -0x8000 <= x < 0x8000
    ensures Fits(x, 4) <==> -0x8000_0000 <= x < 0x8000_0000
  {
    assert Pow256(1) == 0x100 && Pow256(2) == 0x1_0000;
    assert Pow256(3) == 256 * Pow256(2);
  }

  /** writeIntN and peekIntN are inverse on every value of the type, which is held least byte first. */
  lemma DecodeEncode(x: int, n: nat)
    requires Fits(x, n)
    ensures Decode(Encode(x, n)) == x
    ensures n > 0 ==> Encode(x, n)[0] as int == x % 256
  {
    UnsignedBytes(if x < 0 then x + Pow256(n) else x, n);
    if n > 0 { SameLowByte(x, Pow256(n - 1)); }
  }

  lemma SameLowByte(x: int, p: int)
    ensures (x + 256 * p) % 256 == x % 256
  {
  }

  // The class --------------------------------------------------------------------------------

  class Buffer {
    const initSize: nat
    var data: array<byte>
    var readIndex: nat
    var writeIndex: nat

    ghost function Shape(): (l: Layout)
      reads this
    {
      Layout(data.Length, readIndex, writeIndex)
    }

    ghost predicate Valid()
      reads this
    {
      Shape().Ok()
    }

    ghost function Contents(): (s: seq<byte>)
      requires Valid()
      reads this, data
    {
      data[readIndex..writeIndex]
    }

    constructor (init: nat)
      ensures Valid() && fresh(data) && initSize == init
      ensures Contents() == [] && Shape() == Layout(init, 0, 0)
    {
      initSize := init;
      data := new byte[init](_ => 0);
      readIndex, writeIndex := 0, 0;
    }

    function ReadableBytes(): (n: nat)
      requires Valid()
      reads this, data
      ensures n == |Contents()|
    {
      writeIndex - readIndex
    }

    function WriteableBytes(): (n: nat)
      requires Valid()
      reads this
      ensures n == Shape().Spare()
    {
      data.Length - writeIndex
    }

    // std::copy to the write index
    method Copy(src: seq<byte>)
      requires Valid() && |src| <= WriteableBytes()
      modifies data
      ensures Contents() == old(Contents())
      ensures data[readIndex..writeIndex + |src|] == old(Contents()) + src
    {
      var i := 0;
      while i < |src|
        modifies data
        invariant 0 <= i <= |src|
        invariant data[readIndex..writeIndex] == old(Contents())
        invariant data[writeIndex..writeIndex + i] == src[..i]
      {
        data[writeIndex + i] := src[i];
        i := i + 1;
      }
      assert data[readIndex..writeIndex + |src|] == data[readIndex..writeIndex] + data[writeIndex..writeIndex + |src|];
    }

    method Append(src: seq<byte>)
      requires Valid()
      modifies this, data
      ensures Valid() && (data == old(data) || fresh(data))
      ensures Contents() == old(Contents()) + src
      ensures Shape() == old(Shape()).Append(initSize, |src|)
    {
      if WriteableBytes() < |src| {
        MakeSpace(|src|);
      }
      Copy(src);
      writeIndex := writeIndex + |src|;
    }

    // std::copy of the readable bytes to the front, in place
    method MoveToFront()
      requires Valid()
      modifies this, data
      ensures Valid() && data == old(data) && Contents() == old(Contents())
      ensures Shape() == Layout(data.Length, 0, old(writeIndex) - old(readIndex))
    {
      ghost var was := data[..];
      var n, i := writeIndex - readIndex, 0;
      while i < n
        modifies data
        invariant 0 <= i <= n
        invariant forall k :: 0 <= k < i ==> data[k] == was[readIndex + k]
        invariant forall m :: readIndex + i <= m < data.Length ==> data[m] == was[m]
      {
        data[i] := data[readIndex + i];
        i := i + 1;
      }
      assert data[..n] == was[readIndex..writeIndex];
      writeIndex := n;
      readIndex := 0;
    }

    // vector::resize
    method Grow(len: nat)
      requires Valid()
      modifies this`data
      ensures Valid() && fresh(data) && Contents() == old(Contents())
      ensures Shape() == Layout(old(data.Length) + len, readIndex, writeIndex)
    {
      var grown := new byte[data.Length + len](i requires 0 <= i reads this,
          data => if i < data.Length then data[i] else 0);
      assert grown[readIndex..writeIndex] == data[readIndex..writeIndex];
      data := grown;
    }

    // Moves the readable bytes to the front when enough has been read, then grows if it must.
    method MakeSpace(len: nat)
      requires Valid()
      modifies this, data
      ensures Valid() && (data == old(data) || fresh(data))
      ensures Contents() == old(Contents())
      ensures Shape() ==
        var l := old(Shape());
        var moved := if l.read > initSize / 2 then Layout(l.size, 0, l.write - l.read) else l;
        if moved.Spare() < len then moved.(size := l.size + len) else moved
    {
      if readIndex > initSize / 2 {
        MoveToFront();
      }
      if WriteableBytes() < len {
        Grow(len);
      }
    }

    // readv fills the spare room of the storage first, then the buffer on the stack.
    method Readv(incoming: seq<byte>) returns (stack: seq<byte>)
      requires Valid()
      modifies data
      ensures Contents() == old(Contents())
      ensures var n := Min(|incoming|, WriteableBytes());
        data[readIndex..writeIndex + n] == old(Contents()) + incoming[..n] && stack == incoming[n..]
    {
      var n := Min(|incoming|, WriteableBytes());
      Copy(incoming[..n]);
      stack := incoming[n..];
    }

    // incoming: what the kernel had to give. A failed readv changes nothing.
    method ReadFd(failed: bool, incoming: seq<byte>) returns (ret: int)
      requires Valid() && |incoming| <= WriteableBytes() + STACK_BUFFER_SIZE
      modifies this, data
      ensures Valid() && (data == old(data) || fresh(data))
      ensures failed ==> ret == -1 && Contents() == old(Contents()) && Shape() == old(Shape())
      ensures !failed ==> ret == |incoming| && Contents() == old(Contents()) + incoming
      ensures !failed ==> Shape() == old(Shape()).ReadFd(initSize, |incoming|)
    {
      if failed {
        return -1;
      }
      var stack := Readv(incoming);
      ret := |incoming|;
      if WriteableBytes() > ret {
        assert incoming[..ret] == incoming;
        writeIndex := writeIndex + ret;
      } else {
        TakeStack(incoming, stack);
      }
    }

    // The storage is full, and what went to the stack is appended.
    method TakeStack(ghost incoming: seq<byte>, stack: seq<byte>)
      requires Valid() && |incoming| >= WriteableBytes() && stack == incoming[WriteableBytes()..]
      requires data[readIndex..] == Contents() + incoming[..WriteableBytes()]
      modifies this, data
      ensures Valid() && (data == old(data) || fresh(data))
      ensures Contents() == old(Contents()) + incoming
      ensures Shape() == old(Shape()).(write := old(data.Length)).Append(initSize, |stack|)
    {
      ghost var was, room := Contents(), WriteableBytes();
      writeIndex := data.Length;
      assert Contents() == data[readIndex..] == was + incoming[..room];
      Rejoin(was, incoming, room);
      Append(stack);
    }

    method ReadAsString(size: nat) returns (str: seq<byte>)
      requires Valid()
      modifies this
      ensures Valid() && data == old(data)
      ensures var n := Min(size, |old(Contents())|);
        str == old(Contents())[..n] && Contents() == old(Contents())[n..]
      ensures Shape() == old(Shape()).Retrieve(size)
    {
      var readBytes := size;
      if size > ReadableBytes() {
        readBytes := ReadableBytes();
      }
      str := data[readIndex..readIndex + readBytes];
      if readBytes == ReadableBytes() {
        readIndex, writeIndex := 0, 0;
      } else {
        readIndex := readIndex + readBytes;
      }
    }

    method Retrieve(len: nat)
      requires Valid()
      modifies this
      ensures Valid() && data == old(data)
      ensures Contents() == old(Contents())[Min(len, |old(Contents())|)..]
      ensures Shape() == old(Shape()).Retrieve(len)
    {
      if len < ReadableBytes() {
        readIndex := readIndex + len;
      } else {
        readIndex, writeIndex := 0, 0;
      }
    }

    // writeInt8, writeInt16 and writeInt32: n is 1, 2 or 4
    method WriteInt(x: int, n: nat)
      requires Valid() && Fits(x, n)
      modifies this, data
      ensures Valid() && (data == old(data) || fresh(data))
      ensures Contents() == old(Contents()) + Encode(x, n)
    {
      Append(Encode(x, n));
    }

    // peekInt8, peekInt16 and peekInt32; an integer that came in whole is given back.
    method PeekInt(n: nat) returns (x: int)
      requires Valid()
      ensures x == if n > |Contents()| then 0 else Decode(Contents()[..n])
      ensures forall y :: Fits(y, n) && Encode(y, n) <= Contents() ==> x == y
    {
      if readIndex + n > writeIndex {
        return 0;
      }
      x := Decode(data[readIndex..readIndex + n]);
      assert Contents()[..n] == data[readIndex..writeIndex][..n] == data[readIndex..readIndex + n];
      forall y | Fits(y, n) && Encode(y, n) <= Contents() ensures x == y {
        assert Contents()[..n] == Encode(y, n);
        DecodeEncode(y, n);
      }
    }
  }

  lemma Rejoin(was: seq<byte>, incoming: seq<byte>, n: nat)
    requires n <= |incoming|
    ensures was + incoming[..n] + incoming[n..] == was + incoming
  {
  }
}
