// spdlog's circular_q: a ring that drops its oldest item when there is no room, and the blocking queue around it.
module Rings {

  // How an item has left: taken from the front, or dropped for want of room.
  datatype Exit<T> = Taken(item: T) | Dropped(item: T)

  // gone only records history: the items that have left, in order.
  datatype Ring<T> = Ring(capacity: nat, items: seq<T>, overruns: nat, gone: seq<Exit<T>>)

  function EmptyRing<T>(capacity: nat): Ring<T> {
    Ring(capacity, [], 0, [])
  }

  predicate Full<T>(r: Ring<T>) {
    |r.items| >= r.capacity
  }

  function Pushed<T>(r: Ring<T>, x: T): Ring<T> {
    var all := r.items + [x];
    if Full(r) then r.(items := all[1..], overruns := r.overruns + 1, gone := r.gone + [Dropped(all[0])])
    else r.(items := all)
  }

  function Popped<T>(r: Ring<T>): Ring<T>
    requires r.items != []
  {
    r.(items := r.items[1..], gone := r.gone + [Taken(r.items[0])])
  }

  function Items<T>(gone: seq<Exit<T>>): seq<T> {
    if gone == [] then [] else Items(gone[..|gone| - 1]) + [gone[|gone| - 1].item]
  }

  function TakenItems<T>(gone: seq<Exit<T>>): seq<T> {
    if gone == [] then []
    else
      var e := gone[|gone| - 1];
      TakenItems(gone[..|gone| - 1]) + if e.Taken? then [e.item] else []
  }

  function DroppedItems<T>(gone: seq<Exit<T>>): seq<T> {
    if gone == [] then []
    else
      var e := gone[|gone| - 1];
      DroppedItems(gone[..|gone| - 1]) + if e.Dropped? then [e.item] else []
  }

  lemma ItemsAppend<T>(gone: seq<Exit<T>>, e: Exit<T>)
    ensures Items(gone + [e]) == Items(gone) + [e.item]
    ensures TakenItems(gone + [e]) == TakenItems(gone) + if e.Taken? then [e.item] else []
    ensures DroppedItems(gone + [e]) == DroppedItems(gone) + if e.Dropped? then [e.item] else []
  {
    assert (gone + [e])[..|gone|] == gone;
  }

  lemma {:induction false} TakenOrDropped<T>(gone: seq<Exit<T>>)
    ensures multiset(Items(gone)) == multiset(TakenItems(gone)) + multiset(DroppedItems(gone))
    ensures |Items(gone)| == |TakenItems(gone)| + |DroppedItems(gone)|
  {
    if gone != [] { TakenOrDropped(gone[..|gone| - 1]); }
  }

  // Runs -----------------------------------------------------------------------------------------------

  datatype Op<T> = Push(item: T) | Pop

  // A pop of an empty ring is undefined, so none is made.
  predicate Allowed<T>(r: Ring<T>, op: Op<T>) {
    op.Pop? ==> r.items != []
  }

  function Do<T>(r: Ring<T>, op: Op<T>): Ring<T>
    requires Allowed(r, op)
  {
    if op.Push? then Pushed(r, op.item) else Popped(r)
  }

  predicate IsRun<T>(r: Ring<T>, ops: seq<Op<T>>)
    decreases |ops|, 0
  {
    ops == [] || (IsRun(r, ops[..|ops| - 1]) && Allowed(After(r, ops[..|ops| - 1]), ops[|ops| - 1]))
  }

  function After<T>(r: Ring<T>, ops: seq<Op<T>>): Ring<T>
    requires IsRun(r, ops)
    decreases |ops|, 1
  {
    if ops == [] then r else Do(After(r, ops[..|ops| - 1]), ops[|ops| - 1])
  }

  function Pushes<T>(ops: seq<Op<T>>): seq<T> {
    if ops == [] then []
    else
      var op := ops[|ops| - 1];
      Pushes(ops[..|ops| - 1]) + if op.Push? then [op.item] else []
  }

  function Pops<T>(ops: seq<Op<T>>): nat {
    if ops == [] then 0 else Pops(ops[..|ops| - 1]) + if ops[|ops| - 1].Pop? then 1 else 0
  }

  // The number of items stored, told from the operations alone.
  function FillStep<T>(capacity: nat, n: nat, op: Op<T>): nat {
    if op.Pop? then if n > 0 then n - 1 else 0
    else if n < capacity then n + 1 else n
  }

  function Fill<T>(capacity: nat, ops: seq<Op<T>>): nat {
    if ops == [] then 0 else FillStep(capacity, Fill(capacity, ops[..|ops| - 1]), ops[|ops| - 1])
  }

  // The pushes that find the capacity used up.
  function Overruns<T>(capacity: nat, ops: seq<Op<T>>): nat {
    if ops == [] then 0
    else
      var before := ops[..|ops| - 1];
      Overruns(capacity, before) + if ops[|ops| - 1].Push? && Fill(capacity, before) == capacity then 1 else 0
  }

  // The first item leaves, one way or the other.
  lemma Leaves<T>(gone: seq<Exit<T>>, all: seq<T>, e: Exit<T>)
    requires all != [] && e.item == all[0]
    ensures Items(gone + [e]) + all[1..] == Items(gone) + all
  {
    ItemsAppend(gone, e);
    assert all == [all[0]] + all[1..];
  }

  lemma PushKeeps<T>(r: Ring<T>, x: T)
    requires |r.items| <= r.capacity
    ensures var r' := Pushed(r, x);
      && |r'.items| <= r'.capacity == r.capacity
      && Items(r'.gone) + r'.items == Items(r.gone) + r.items + [x]
      && TakenItems(r'.gone) == TakenItems(r.gone)
      && |r'.items| == |r.items| + (if |r.items| < r.capacity then 1 else 0)
      && r'.overruns == r.overruns + (if |r.items| < r.capacity then 0 else 1)
      && r'.overruns - r.overruns == |DroppedItems(r'.gone)| - |DroppedItems(r.gone)|
  {
    var all := r.items + [x];
    assert Items(r.gone) + all == Items(r.gone) + r.items + [x];
    if Full(r) {
      Leaves(r.gone, all, Dropped(all[0]));
      ItemsAppend(r.gone, Dropped(all[0]));
    }
  }

  lemma PopKeeps<T>(r: Ring<T>)
    requires r.items != [] && |r.items| <= r.capacity
    ensures var r' := Popped(r);
      && |r'.items| <= r'.capacity == r.capacity
      && Items(r'.gone) + r'.items == Items(r.gone) + r.items
      && |TakenItems(r'.gone)| == |TakenItems(r.gone)| + 1 && |r'.items| == |r.items| - 1
      && DroppedItems(r'.gone) == DroppedItems(r.gone) && r'.overruns == r.overruns
  {
    Leaves(r.gone, r.items, Taken(r.items[0]));
    ItemsAppend(r.gone, Taken(r.items[0]));
  }

  lemma DoKeeps<T>(r: Ring<T>, op: Op<T>)
    requires Allowed(r, op) && |r.items| <= r.capacity
    ensures var r' := Do(r, op);
      && |r'.items| <= r'.capacity == r.capacity
      && Items(r'.gone) + r'.items == Items(r.gone) + r.items + (if op.Push? then [op.item] else [])
      && |TakenItems(r'.gone)| == |TakenItems(r.gone)| + (if op.Pop? then 1 else 0)
      && r'.overruns - r.overruns == |DroppedItems(r'.gone)| - |DroppedItems(r.gone)|
      && |r'.items| == FillStep(r.capacity, |r.items|, op)
      && r'.overruns == r.overruns + (if op.Push? && |r.items| == r.capacity then 1 else 0)
  {
    if op.Pop? {
      PopKeeps(r);
      assert Items(r.gone) + r.items + [] == Items(r.gone) + r.items;
    } else {
      PushKeeps(r, op.item);
    }
  }

  /** Over every run, of any capacity: items leave in the order they were pushed, each of them once, and
      those pushed are those popped, those dropped, which the counter counts, and those still there. A push
      drops one exactly if as many are stored as the capacity allows. */
  lemma {:induction false} Conservation<T>(capacity: nat, ops: seq<Op<T>>)
    requires IsRun(EmptyRing(capacity), ops)
    ensures var r := After(EmptyRing(capacity), ops);
      && |r.items| <= r.capacity == capacity
      && Items(r.gone) + r.items == Pushes(ops)
      && |r.items| == Fill(capacity, ops) && r.overruns == Overruns(capacity, ops)
      && |TakenItems(r.gone)| == Pops(ops) && |DroppedItems(r.gone)| == r.overruns
      && |Pushes(ops)| == Pops(ops) + |r.items| + r.overruns
  {
    if ops != [] {
      Conservation(capacity, ops[..|ops| - 1]);
      DoKeeps(After(EmptyRing(capacity), ops[..|ops| - 1]), ops[|ops| - 1]);
    }
    Counted(After(EmptyRing(capacity), ops));
  }

  lemma Counted<T>(r: Ring<T>)
    ensures |Items(r.gone) + r.items| == |TakenItems(r.gone)| + |DroppedItems(r.gone)| + |r.items|
  {
    TakenOrDropped(r.gone);
  }

  // The array --------------------------------------------------------------------------------------------

  // The index behind i, around the end of n slots.
  function Step(i: nat, n: nat): nat {
    if i + 1 == n then 0 else i + 1
  }

  lemma Wrapped(i: nat, n: nat)
    requires i < n
    ensures (i + 1) % n == Step(i, n)
  {
  }

  // From head on, around the end, up to tail.
  function Slots<T>(v: seq<T>, head: nat, tail: nat): (s: seq<T>)
    requires head < |v| && tail < |v|
    ensures |s| == if head <= tail then tail - head else |v| - head + tail
  {
    if head <= tail then v[head..tail] else v[head..] + v[..tail]
  }

  lemma SlotAt<T>(v: seq<T>, head: nat, tail: nat, k: nat)
    requires head < |v| && tail < |v| && k < |Slots(v, head, tail)|
    ensures Slots(v, head, tail)[k] == if head + k < |v| then v[head + k] else v[head + k - |v|]
  {
  }

  // Behind the last item of a ring with a free slot left over.
  lemma StoreSlot<T>(v: seq<T>, head: nat, tail: nat, x: T)
    requires head < |v| && tail < |v| && Step(tail, |v|) != head
    ensures Slots(v[tail := x], head, Step(tail, |v|)) == Slots(v, head, tail) + [x]
  {
    var s, r := Slots(v, head, tail), Slots(v[tail := x], head, Step(tail, |v|));
    forall k | 0 <= k < |s| + 1 ensures r[k] == (s + [x])[k] {
      SlotAt(v[tail := x], head, Step(tail, |v|), k);
      if k < |s| { SlotAt(v, head, tail, k); }
    }
  }

  lemma DropSlot<T>(v: seq<T>, head: nat, tail: nat)
    requires head < |v| && tail < |v| && head != tail
    ensures Slots(v, Step(head, |v|), tail) == Slots(v, head, tail)[1..] && Slots(v, head, tail)[0] == v[head]
  {
    var s, r := Slots(v, head, tail), Slots(v, Step(head, |v|), tail);
    forall k | 0 <= k < |s| - 1 ensures r[k] == s[1..][k] {
      SlotAt(v, Step(head, |v|), tail, k);
      SlotAt(v, head, tail, k + 1);
    }
    SlotAt(v, head, tail, 0);
  }

  // Into the last free slot, at the cost of the oldest item.
  lemma OverrunSlot<T>(v: seq<T>, head: nat, tail: nat, x: T)
    requires head < |v| && tail < |v| && Step(tail, |v|) == head
    ensures Slots(v[tail := x], Step(head, |v|), head) == (Slots(v, head, tail) + [x])[1..]
  {
    var w := v[tail := x];
    if head == tail {
      assert |v| == 1;
    } else {
      DropSlot(v, head, tail);
      LastSlot(w, Step(head, |v|), tail);
      SameSlots(v, w, Step(head, |v|), tail);
      TailOfSum(Slots(v, head, tail), x);
    }
  }

  lemma TailOfSum<T>(s: seq<T>, x: T)
    requires s != []
    ensures (s + [x])[1..] == s[1..] + [x]
  {
  }

  // The slots up to one behind tail, when tail is not the slot in front of head.
  lemma LastSlot<T>(w: seq<T>, head: nat, tail: nat)
    requires head < |w| && tail < |w| && Step(tail, |w|) != head
    ensures Slots(w, head, Step(tail, |w|)) == Slots(w, head, tail) + [w[tail]]
  {
    assert w[tail := w[tail]] == w;
    StoreSlot(w, head, tail, w[tail]);
  }

  lemma SameSlots<T>(v: seq<T>, w: seq<T>, head: nat, tail: nat)
    requires head < |v| && tail < |v| && |w| == |v| && forall k :: 0 <= k < |v| && k != tail ==> w[k] == v[k]
    ensures Slots(w, head, tail) == Slots(v, head, tail)
  {
    forall k | 0 <= k < |Slots(v, head, tail)| ensures Slots(w, head, tail)[k] == Slots(v, head, tail)[k] {
      SlotAt(v, head, tail, k);
      SlotAt(w, head, tail, k);
    }
  }

  class CircularQ<T(0)> {
    const maxItems: nat
    const v: array<T>
    var head: nat
    var tail: nat
    var overrunCounter: nat
    ghost var gone: seq<Exit<T>>

    ghost predicate Valid()
      reads this
    {
      v.Length == maxItems && head < maxItems && tail < maxItems
    }

    ghost function Contents(): seq<T>
      requires Valid()
      reads this, v
    {
      Slots(v[..], head, tail)
    }

    ghost function Model(): Ring<T>
      requires Valid()
      reads this, v
    {
      Ring(maxItems - 1, Contents(), overrunCounter, gone)
    }

    // One slot is kept free, to tell a full ring from an empty one.
    constructor (capacity: nat)
      ensures Valid() && fresh(v) && Model() == EmptyRing(capacity)
    {
      maxItems := capacity + 1;
      v := new T[capacity + 1];
      head, tail, overrunCounter, gone := 0, 0, 0, [];
    }

    predicate IsEmpty()
      requires Valid()
      reads this, v
      ensures IsEmpty() <==> Contents() == []
    {
      tail == head
    }

    predicate IsFull()
      requires Valid()
      reads this, v
      ensures IsFull() <==> Full(Model())
      ensures IsFull() <==> |Contents()| == maxItems - 1
    {
      Wrapped(tail, maxItems);
      (tail + 1) % maxItems == head
    }

    method PushBack(item: T)
      requires Valid()
      modifies this, v
      ensures Valid() && Model() == Pushed(old(Model()), item)
    {
      ghost var slots, all, h, t := v[..], Contents() + [item], head, tail;
      Wrapped(tail, maxItems);
      v[tail] := item;
      assert v[..] == slots[t := item];
      tail := (tail + 1) % maxItems;
      if tail == head {
        OverrunSlot(slots, h, t, item);
        Wrapped(head, maxItems);
        head := (head + 1) % maxItems;
        overrunCounter := overrunCounter + 1;
        gone := gone + [Dropped(all[0])];
      } else {
        StoreSlot(slots, h, t, item);
      }
    }

    method PopFront() returns (item: T)
      requires Valid() && Contents() != []
      modifies this
      ensures Valid() && item == old(Contents())[0] && Model() == Popped(old(Model()))
    {
      DropSlot(v[..], head, tail);
      Wrapped(head, maxItems);
      item := v[head];
      gone := gone + [Taken(item)];
      head := (head + 1) % maxItems;
    }
  }
}
