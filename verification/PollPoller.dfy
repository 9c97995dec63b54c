// bounce::PollPoller: a dense pollfd array kept in step with a map from descriptors to channels.
module PollTables {
  import opened Channels

  // One struct pollfd. A muted channel's slot holds -fd - 1, which poll ignores.
  datatype PollFd = PollFd(fd: int, events: bv16, revents: int)

  function Owner(s: PollFd): int {
    if s.fd < 0 then -s.fd - 1 else s.fd
  }

  function Slot(fd: int, events: bv16): PollFd {
    PollFd(if events == NONE_EVENT then -fd - 1 else fd, events, 0)
  }

  // index: the keys of channels_ with each channel's own index.
  datatype Table = Table(index: map<int, nat>, slots: seq<PollFd>)

  // Removing a channel can look up a channel that the map does not hold.
  datatype Removal = Removed(table: Table) | NotFound | NullChannel

  // Bodies of the source's functions ------------------------------------------------------------

  predicate Indexed(t: Table) {
    forall fd :: fd in t.index ==> t.index[fd] < |t.slots|
  }

  function Update(t: Table, fd: int, events: bv16): Table
    requires Indexed(t)
  {
    if fd in t.index then t.(slots := t.slots[t.index[fd] := Slot(fd, events)])
    else Table(t.index[fd := |t.slots|], t.slots + [PollFd(fd, events, 0)])
  }

  function Remove(t: Table, fd: int): Removal
    requires Indexed(t)
  {
    if fd !in t.index then NotFound
    else
      var idx, last, rest := t.index[fd], |t.slots| - 1, t.index - {fd};
      if idx == last then Removed(Table(rest, t.slots[..last]))
      else if t.slots[last].fd !in rest then NullChannel
      else Removed(Table(rest[t.slots[last].fd := idx], t.slots[idx := t.slots[last]][..last]))
  }

  // Invariants -------------------------------------------------------------------------------------

  predicate KeyOk(t: Table, fd: int) {
    fd in t.index ==> fd >= 0 && t.index[fd] < |t.slots| && Owner(t.slots[t.index[fd]]) == fd
  }

  predicate SlotOk(t: Table, i: nat) {
    i < |t.slots| ==> Owner(t.slots[i]) in t.index && t.index[Owner(t.slots[i])] == i
  }

  // The map and the array are inverse to each other.
  ghost predicate Bijective(t: Table) {
    Indexed(t) && (forall fd :: KeyOk(t, fd)) && (forall i :: SlotOk(t, i))
  }

  predicate Muted(s: PollFd) {
    s.fd < 0
  }

  // A slot is muted exactly when its channel is interested in nothing.
  ghost predicate Encoded(t: Table) {
    forall i :: 0 <= i < |t.slots| ==> (Muted(t.slots[i]) <==> t.slots[i].events == NONE_EVENT)
  }

  // What the array says about a descriptor.
  ghost function Interest(t: Table, fd: int): bv16
    requires Indexed(t) && fd in t.index
  {
    t.slots[t.index[fd]].events
  }

  // The one slot that an update writes, and the others as they were.
  ghost predicate UpdatedAt(t: Table, t': Table, fd: int, events: bv16)
    requires Indexed(t) && Indexed(t')
  {
    && fd in t'.index && t'.index[fd] == (if fd in t.index then t.index[fd] else |t.slots|)
    && t'.slots[t'.index[fd]].revents == 0
    && (Muted(t'.slots[t'.index[fd]]) <==> fd in t.index && events == NONE_EVENT)
    && forall g :: g in t.index && g != fd ==>
         g in t'.index && t'.index[g] == t.index[g] && t'.slots[t'.index[g]] == t.slots[t.index[g]]
  }

  lemma UpdateSlots(t: Table, fd: int, events: bv16)
    requires Bijective(t) && fd >= 0
    ensures Indexed(Update(t, fd, events)) && UpdatedAt(t, Update(t, fd, events), fd, events)
  {
    assert KeyOk(t, fd);
    var t' := Update(t, fd, events);
    forall g | g in t.index && g != fd
      ensures t'.index[g] == t.index[g] && t'.slots[t'.index[g]] == t.slots[t.index[g]]
    {
      assert KeyOk(t, g);
    }
  }

  lemma UpdateKeeps(t: Table, fd: int, events: bv16)
    requires Bijective(t) && fd >= 0
    ensures Bijective(Update(t, fd, events))
    ensures Update(t, fd, events).index.Keys == t.index.Keys + {fd}
    ensures Interest(Update(t, fd, events), fd) == events
    ensures forall g :: g in t.index && g != fd ==> Interest(Update(t, fd, events), g) == Interest(t, g)
    ensures Encoded(t) ==> (Encoded(Update(t, fd, events)) <==> fd in t.index || events != NONE_EVENT)
    ensures UpdatedAt(t, Update(t, fd, events), fd, events)
  {
    var t' := Update(t, fd, events);
    UpdateSlots(t, fd, events);
    assert KeyOk(t, fd);
    forall g ensures KeyOk(t', g) { assert KeyOk(t, g); }
    forall i: nat ensures SlotOk(t', i) { assert SlotOk(t, i); }
    if fd !in t.index {
      assert t'.slots[|t.slots|] == PollFd(fd, events, 0);
    } else {
      assert t'.slots[t.index[fd]] == Slot(fd, events);
    }
    forall g | g in t.index && g != fd ensures Interest(t', g) == Interest(t, g) {
      assert KeyOk(t, g);
    }
  }

  /** Swap-removal fails exactly when the last slot belongs to another channel and is muted: the slot then
      holds no descriptor, and the map has no channel under what it holds. */
  lemma RemoveExactly(t: Table, fd: int)
    requires Bijective(t)
    ensures Remove(t, fd).NotFound? <==> fd !in t.index
    ensures Remove(t, fd).NullChannel? <==>
            fd in t.index && t.index[fd] != |t.slots| - 1 && Muted(t.slots[|t.slots| - 1])
  {
    if fd in t.index {
      var last := |t.slots| - 1;
      assert KeyOk(t, fd) && SlotOk(t, last) && KeyOk(t, t.slots[last].fd);
    }
  }

  lemma RemoveKeeps(t: Table, fd: int)
    requires Bijective(t) && Remove(t, fd).Removed?
    ensures var t' := Remove(t, fd).table;
      && Bijective(t') && t'.index.Keys == t.index.Keys - {fd}
      && (forall g :: g in t'.index ==> t'.slots[t'.index[g]] == t.slots[t.index[g]])
      && (forall g :: g in t'.index ==>
            t'.index[g] == if t.index[g] == |t.slots| - 1 then t.index[fd] else t.index[g])
      && (Encoded(t) ==> Encoded(t'))
  {
    RemoveExactly(t, fd);
    var t' := Remove(t, fd).table;
    var idx, last := t.index[fd], |t.slots| - 1;
    var moved := Owner(t.slots[last]);
    assert KeyOk(t, fd) && SlotOk(t, last);
    forall g ensures KeyOk(t', g) {
      assert KeyOk(t, g);
      if g in t.index { assert SlotOk(t, t.index[g]); }
    }
    forall i: nat ensures SlotOk(t', i) { assert SlotOk(t, i); }
    assert forall g :: g in t'.index ==> KeyOk(t', g) && KeyOk(t, g);
  }

  // Runs ---------------------------------------------------------------------------------------------

  datatype Op = Set(fd: int, events: bv16) | Drop(fd: int)

  // The table after some operations, or nothing once a null channel has been touched.
  datatype Outcome = Up(table: Table) | Down

  function Apply(t: Table, op: Op): Outcome
    requires Indexed(t)
  {
    match op
    case Set(fd, events) => Up(Update(t, fd, events))
    case Drop(fd) =>
      match Remove(t, fd)
      case Removed(t') => Up(t')
      case NotFound => Up(t)
      case NullChannel => Down
  }

  lemma ApplyKeeps(t: Table, op: Op)
    requires Bijective(t) && op.fd >= 0
    ensures Apply(t, op).Up? ==> Bijective(Apply(t, op).table)
    ensures Apply(t, op).Up? ==>
              Apply(t, op).table.index.Keys == if op.Set? then t.index.Keys + {op.fd} else t.index.Keys - {op.fd}
    ensures Apply(t, op).Up? && Encoded(t) && (op.Set? ==> op.fd in t.index || op.events != NONE_EVENT) ==>
              Encoded(Apply(t, op).table)
  {
    if op.Set? {
      UpdateKeeps(t, op.fd, op.events);
    } else {
      RemoveExactly(t, op.fd);
      if Remove(t, op.fd).Removed? { RemoveKeeps(t, op.fd); }
    }
  }

  function Run(t: Table, ops: seq<Op>): Outcome
    decreases |ops|
  {
    if ops == [] then Up(t)
    else if !Indexed(t) || Apply(t, ops[0]).Down? then Down
    else Run(Apply(t, ops[0]).table, ops[1..])
  }

  const EMPTY := Table(map[], [])

  // A channel is registered with some interest before it is muted.
  ghost predicate InterestFirst(t: Table, ops: seq<Op>)
    requires Bijective(t)
    decreases |ops|
  {
    ops == [] ||
    (ops[0].fd >= 0 &&
     (ops[0].Set? ==> ops[0].fd in t.index || ops[0].events != NONE_EVENT) &&
     (Apply(t, ops[0]).Up? ==> (ApplyKeeps(t, ops[0]); InterestFirst(Apply(t, ops[0]).table, ops[1..]))))
  }

  /** Over every run, as long as it does not go down, the array and the map stay inverse to each other. */
  lemma {:induction false} RunBijective(t: Table, ops: seq<Op>)
    requires Bijective(t) && (forall i :: 0 <= i < |ops| ==> ops[i].fd >= 0) && Run(t, ops).Up?
    ensures Bijective(Run(t, ops).table)
    decreases |ops|
  {
    if ops != [] {
      ApplyKeeps(t, ops[0]);
      RunBijective(Apply(t, ops[0]).table, ops[1..]);
    }
  }

  /** If moreover no channel is inserted that is interested in nothing, every slot is muted exactly when its
      channel is interested in nothing. */
  lemma {:induction false} RunKeeps(t: Table, ops: seq<Op>)
    requires Bijective(t) && Encoded(t) && InterestFirst(t, ops) && Run(t, ops).Up?
    ensures Bijective(Run(t, ops).table) && Encoded(Run(t, ops).table)
    decreases |ops|
  {
    if ops != [] {
      ApplyKeeps(t, ops[0]);
      RunKeeps(Apply(t, ops[0]).table, ops[1..]);
    }
  }

  // The n-th operation removes a channel that is not last while the last slot is muted.
  ghost predicate FailsAt(t: Table, ops: seq<Op>, n: nat) {
    n < |ops| && ops[n].Drop? && Run(t, ops[..n]).Up? &&
    var t' := Run(t, ops[..n]).table;
    ops[n].fd in t'.index && t'.index[ops[n].fd] != |t'.slots| - 1 && t'.slots != [] && Muted(t'.slots[|t'.slots| - 1])
  }

  lemma FailsLater(t: Table, ops: seq<Op>, n: nat)
    requires Bijective(t) && ops != [] && ops[0].fd >= 0 && Apply(t, ops[0]).Up?
    ensures FailsAt(t, ops, n + 1) <==> FailsAt(Apply(t, ops[0]).table, ops[1..], n)
  {
    if n < |ops| - 1 {
      assert ops[..n + 1][0] == ops[0] && ops[..n + 1][1..] == ops[1..][..n];
    }
  }

  /** A run goes down if and only if some operation removes a channel that is not last while the last slot is
      muted. */
  lemma {:induction false} DownExactly(t: Table, ops: seq<Op>)
    requires Bijective(t) && forall i :: 0 <= i < |ops| ==> ops[i].fd >= 0
    ensures Run(t, ops).Down? <==> exists n: nat :: FailsAt(t, ops, n)
    decreases |ops|
  {
    if ops != [] {
      assert ops[..0] == [];
      ApplyKeeps(t, ops[0]);
      if ops[0].Drop? { RemoveExactly(t, ops[0].fd); }
      if Apply(t, ops[0]).Down? {
        assert FailsAt(t, ops, 0);
      } else {
        var t' := Apply(t, ops[0]).table;
        DownExactly(t', ops[1..]);
        assert !FailsAt(t, ops, 0);
        if n: nat :| FailsAt(t', ops[1..], n) {
          FailsLater(t, ops, n);
        }
        if n: nat :| FailsAt(t, ops, n) {
          assert n > 0;
          FailsLater(t, ops, n - 1);
        }
      }
    }
  }

  /** Two channels that are both muted before the first of them is removed bring it down, whatever was
      registered before them, if nothing is registered behind: the later one's slot is last, and muted. */
  lemma CloseTogether(t: Table, a: int, b: int)
    requires Bijective(t) && a >= 0 && b >= 0 && a != b && a !in t.index && b !in t.index
    ensures Run(t, [Set(a, READ_EVENT), Set(b, READ_EVENT), Set(a, NONE_EVENT), Set(b, NONE_EVENT), Drop(a)]).Down?
  {
    var ops := [Set(a, READ_EVENT), Set(b, READ_EVENT), Set(a, NONE_EVENT), Set(b, NONE_EVENT), Drop(a)];
    var n := |t.slots|;
    var t1 := Update(t, a, READ_EVENT);
    var t2 := Update(t1, b, READ_EVENT);
    var t3 := Update(t2, a, NONE_EVENT);
    var t4 := Update(t3, b, NONE_EVENT);
    UpdateKeeps(t, a, READ_EVENT);
    UpdateKeeps(t1, b, READ_EVENT);
    UpdateKeeps(t2, a, NONE_EVENT);
    UpdateKeeps(t3, b, NONE_EVENT);
    assert t4.index[a] == n && |t4.slots| == n + 2 && Muted(t4.slots[n + 1]);
    RemoveExactly(t4, a);
    assert ops[1..][1..][1..][1..] == [Drop(a)];
    assert Run(t4, [Drop(a)]).Down?;
    assert ops[1..][1..][1..] == [Set(b, NONE_EVENT), Drop(a)];
    assert Run(t3, ops[1..][1..][1..]).Down?;
    assert Run(t2, ops[1..][1..]).Down?;
    assert Run(t1, ops[1..]).Down?;
  }

  /** Nothing goes wrong while at most the channel that is removed is muted. */
  lemma RemoveAlone(t: Table, fd: int)
    requires Bijective(t) && fd in t.index
    requires forall i :: 0 <= i < |t.slots| && i != t.index[fd] ==> !Muted(t.slots[i])
    ensures Remove(t, fd).Removed?
  {
    RemoveExactly(t, fd);
  }

  // poll ---------------------------------------------------------------------------------------------

  lemma FilledKeeps(t: Table, t': Table)
    requires Bijective(t) && Polled(t.slots, t'.slots) && t'.index == t.index
    ensures Bijective(t') && QuietMuted(t')
  {
    assert forall i :: 0 <= i < |t.slots| ==> Owner(t'.slots[i]) == Owner(t.slots[i]);
    forall g ensures KeyOk(t', g) { assert KeyOk(t, g); }
    forall i: nat ensures SlotOk(t', i) { assert SlotOk(t, i); }
  }

  lemma ReadyOwner(t: Table, i: nat)
    requires Bijective(t) && QuietMuted(t) && i < |t.slots| && Ready(t.slots[i])
    ensures t.slots[i].fd in t.index && t.index[t.slots[i].fd] == i
  {
    assert SlotOk(t, i);
  }

  predicate Ready(s: PollFd) {
    s.revents > 0
  }

  // What the kernel fills in: nothing for slots it ignores.
  predicate Polled(slots: seq<PollFd>, filled: seq<PollFd>) {
    |filled| == |slots| &&
    forall i :: 0 <= i < |slots| ==>
      filled[i].fd == slots[i].fd && filled[i].events == slots[i].events && (Muted(slots[i]) ==> filled[i].revents == 0)
  }

  function ReadyFds(slots: seq<PollFd>): seq<int> {
    if slots == [] then []
    else ReadyFds(slots[..|slots| - 1]) + if Ready(slots[|slots| - 1]) then [slots[|slots| - 1].fd] else []
  }

  ghost predicate SlotOrder(t: Table, fds: seq<int>) {
    (forall i :: 0 <= i < |fds| ==> fds[i] in t.index) &&
    forall i, j :: 0 <= i < j < |fds| ==> t.index[fds[i]] < t.index[fds[j]]
  }

  // The kernel reports nothing for muted slots.
  ghost predicate QuietMuted(t: Table) {
    forall i :: 0 <= i < |t.slots| && Muted(t.slots[i]) ==> t.slots[i].revents == 0
  }

  lemma OneReady(t: Table, n: nat, before: seq<int>, fd: int)
    requires Bijective(t) && n < |t.slots| && QuietMuted(t)
    requires fd in before <==> fd in t.index && t.index[fd] < n && Ready(t.slots[t.index[fd]])
    ensures fd in before + (if Ready(t.slots[n]) then [t.slots[n].fd] else []) <==>
            fd in t.index && t.index[fd] < n + 1 && Ready(t.slots[t.index[fd]])
  {
    assert KeyOk(t, fd) && SlotOk(t, n);
  }

  lemma OrderOn(t: Table, n: nat, before: seq<int>)
    requires Bijective(t) && n < |t.slots| && QuietMuted(t) && SlotOrder(t, before)
    requires forall fd :: fd in before ==> fd in t.index && t.index[fd] < n
    ensures SlotOrder(t, before + (if Ready(t.slots[n]) then [t.slots[n].fd] else []))
  {
    assert SlotOk(t, n);
    var all := before + (if Ready(t.slots[n]) then [t.slots[n].fd] else []);
    forall i, j | 0 <= i < j < |all| ensures t.index[all[i]] < t.index[all[j]] {
      assert all[i] == before[i] && before[i] in before;
    }
  }

  /** The descriptors reported are those of the ready slots, once each and in the order of the slots. */
  lemma {:induction false} ReadyOnce(t: Table, n: nat)
    requires Bijective(t) && n <= |t.slots| && QuietMuted(t)
    ensures forall fd :: fd in ReadyFds(t.slots[..n]) <==>
              fd in t.index && t.index[fd] < n && t.slots[t.index[fd]].revents > 0
    ensures SlotOrder(t, ReadyFds(t.slots[..n]))
  {
    if n > 0 {
      ReadyOnce(t, n - 1);
      ReadyLast(t.slots, n);
      var before := ReadyFds(t.slots[..n - 1]);
      forall fd ensures fd in ReadyFds(t.slots[..n]) <==>
          fd in t.index && t.index[fd] < n && Ready(t.slots[t.index[fd]]) {
        OneReady(t, n - 1, before, fd);
      }
      OrderOn(t, n - 1, before);
    }
  }

  lemma ReadyLast(slots: seq<PollFd>, n: nat)
    requires 0 < n <= |slots|
    ensures ReadyFds(slots[..n]) == ReadyFds(slots[..n - 1]) + if Ready(slots[n - 1]) then [slots[n - 1].fd] else []
  {
    assert slots[..n][..n - 1] == slots[..n - 1];
  }
}

module Pollers {
  import opened Channels
  import opened PollTables

  class Channel {
    const fd: int
    var events: bv16
    var revents: int
    var index: nat

    constructor (f: int)
      ensures fd == f && events == NONE_EVENT && revents == 0 && index == 0
    {
      fd, events, revents, index := f, NONE_EVENT, 0, 0;
    }
  }

  lemma SameEntry<K, V>(m: map<K, V>, k: K, v: V)
    requires k in m && m[k] == v
    ensures m[k := v] == m
  {
  }

  lemma NoEntry<K, V>(m: map<K, V>, k: K)
    requires k !in m
    ensures m - {k} == m
  {
  }

  class PollPoller {
    var channels: map<int, Channel>
    var pollfds: seq<PollFd>
    ghost var table: Table  // the array, and the map with each channel's own index

    // Each channel of the map is the one of its key, and holds its own index.
    ghost predicate Linked()
      reads this, channels.Values
    {
      table.slots == pollfds && table.index.Keys == channels.Keys &&
      forall fd :: fd in channels ==> channels[fd].fd == fd && channels[fd].index == table.index[fd]
    }

    ghost predicate Valid()
      reads this, channels.Values
    {
      Linked() && Bijective(table)
    }

    constructor ()
      ensures Valid() && table == EMPTY
    {
      channels, pollfds, table := map[], [], EMPTY;
    }

    // The slot of a channel that is known.
    method ModifySlot(channel: Channel)
      requires Valid() && channel.fd >= 0 && channel.fd in channels && channels[channel.fd] == channel
      modifies this
      ensures Valid() && channels == old(channels)
      ensures table == Update(old(table), channel.fd, channel.events)
    {
      UpdateKeeps(table, channel.fd, channel.events);
      var tmp := PollFd(channel.fd, channel.events, 0);
      if channel.events == NONE_EVENT {
        tmp := tmp.(fd := -tmp.fd - 1);
      }
      pollfds := pollfds[channel.index := tmp];
      table := Update(table, channel.fd, channel.events);
    }

    // A slot for a new one.
    method AddSlot(channel: Channel)
      requires Valid() && channel.fd >= 0 && channel.fd !in channels
      modifies this, channel`index
      ensures Valid() && channels == old(channels)[channel.fd := channel]
      ensures table == Update(old(table), channel.fd, channel.events)
    {
      UpdateKeeps(table, channel.fd, channel.events);
      channels := channels[channel.fd := channel];
      pollfds := pollfds + [PollFd(channel.fd, channel.events, 0)];
      channel.index := |pollfds| - 1;
      table := Update(table, channel.fd, channel.events);
    }

    /** Called by a channel whose events have changed. */
    method UpdateChannel(channel: Channel)
      requires Valid() && channel.fd >= 0 && (channel.fd in channels ==> channels[channel.fd] == channel)
      modifies this, channel`index
      ensures Valid() && channels == old(channels)[channel.fd := channel]
      ensures table == Update(old(table), channel.fd, channel.events)
    {
      if channel.fd in channels {
        SameEntry(channels, channel.fd, channel);
        ModifySlot(channel);
      } else {
        AddSlot(channel);
      }
    }

    /** ok: every lookup on the way found a channel. */
    method RemoveChannel(channel: Channel) returns (ok: bool)
      requires Valid() && (channel.fd in channels ==> channels[channel.fd] == channel)
      modifies this, channels.Values`index
      ensures ok <==> !Remove(old(table), channel.fd).NullChannel?
      ensures ok ==> Valid() && channels == old(channels) - {channel.fd}
      ensures ok ==> table == match Remove(old(table), channel.fd) { case Removed(t) => t case _ => old(table) }
    {
      ghost var was := table;
      if channel.fd !in channels {
        NoEntry(channels, channel.fd);
        return true;
      }
      RemoveExactly(table, channel.fd);
      channels := channels - {channel.fd};
      var idx, last := channel.index, |pollfds| - 1;
      if idx != last {
        if pollfds[last].fd !in channels {
          return false;
        }
        channels[pollfds[last].fd].index := idx;
        pollfds := pollfds[idx := pollfds[last]][last := pollfds[idx]];
      }
      pollfds := pollfds[..last];
      table := Remove(was, channel.fd).table;
      assert pollfds == table.slots;
      RemoveKeeps(was, channel.fd);
      ok := true;
    }

    // One turn of the loop over the array: a ready slot's channel gets the slot's revents.
    method Visit(i: nat)
      requires Linked() && i < |pollfds|
      requires Ready(pollfds[i]) ==> pollfds[i].fd in channels && table.index[pollfds[i].fd] == i
      modifies channels.Values`revents
      ensures Linked()
      ensures Ready(pollfds[i]) ==> channels[pollfds[i].fd].revents == pollfds[i].revents
      ensures forall fd :: fd in channels && (table.index[fd] != i || pollfds[i].revents <= 0) ==>
                channels[fd].revents == old(channels[fd].revents)
    {
      if Ready(pollfds[i]) {
        channels[pollfds[i].fd].revents := pollfds[i].revents;
      }
    }

    ghost function Revents(): map<int, int>
      reads this, channels.Values
    {
      map fd | fd in channels :: channels[fd].revents
    }

    // Every slot below n with positive revents has handed them on, and no other channel's have changed.
    ghost predicate HandedOn(n: nat, was: map<int, int>)
      requires Linked()
      reads this, channels.Values
    {
      was.Keys == channels.Keys &&
      forall fd :: fd in channels && table.index[fd] < |pollfds| ==>
        channels[fd].revents ==
        if table.index[fd] < n && pollfds[table.index[fd]].revents > 0 then pollfds[table.index[fd]].revents
        else was[fd]
    }

    /** filled: the array after ::poll, which found at least one descriptor ready. */
    method Poll(filled: seq<PollFd>) returns (active: seq<Channel>)
      requires Valid() && Polled(pollfds, filled)
      modifies this`pollfds, this`table, channels.Values`revents
      ensures Valid() && table == old(table).(slots := filled)
      ensures AllIn(ReadyFds(filled), channels) && active == LookUp(ReadyFds(filled), channels)
      ensures forall fd :: fd in ReadyFds(filled) <==> fd in channels && filled[table.index[fd]].revents > 0
      ensures forall fd :: fd in channels && filled[table.index[fd]].revents > 0 ==>
                channels[fd].revents == filled[table.index[fd]].revents
      ensures forall fd :: fd in channels && filled[table.index[fd]].revents <= 0 ==>
                channels[fd].revents == old(Revents())[fd]
    {
      Fill(filled);
      active := HandOnAll(old(Revents()));
    }

    method Fill(filled: seq<PollFd>)
      requires Valid() && Polled(pollfds, filled)
      modifies this`pollfds, this`table
      ensures Valid() && QuietMuted(table) && pollfds == filled && table == old(table).(slots := filled)
    {
      FilledKeeps(table, table.(slots := filled));
      pollfds := filled;
      table := table.(slots := filled);
    }

    // The loop over the array.
    method HandOnAll(ghost was: map<int, int>) returns (active: seq<Channel>)
      requires Valid() && QuietMuted(table) && was == Revents()
      modifies channels.Values`revents
      ensures Valid() && HandedOn(|pollfds|, was)
      ensures AllIn(ReadyFds(pollfds), channels) && active == LookUp(ReadyFds(pollfds), channels)
      ensures forall fd :: fd in ReadyFds(pollfds) <==> fd in channels && pollfds[table.index[fd]].revents > 0
    {
      active := [];
      ghost var fds: seq<int> := [];
      var i := 0;
      while i < |pollfds|
        modifies channels.Values`revents
        invariant 0 <= i <= |pollfds| && Linked() && HandedOn(i, was)
        invariant fds == ReadyFds(pollfds[..i]) && AllIn(fds, channels) && active == LookUp(fds, channels)
      {
        ReadyNext(pollfds, i);
        if Ready(pollfds[i]) {
          ReadyOwner(table, i);
          LookUpNext(fds, pollfds[i].fd, channels);
          active := active + [channels[pollfds[i].fd]];
          fds := fds + [pollfds[i].fd];
        }
        HandOn(i, was);
        i := i + 1;
      }
      assert pollfds[..i] == pollfds;
      ActiveExactly(table, channels);
    }

    method HandOn(i: nat, ghost was: map<int, int>)
      requires Linked() && HandedOn(i, was) && i < |pollfds| && Bijective(table) && QuietMuted(table)
      modifies channels.Values`revents
      ensures Linked() && HandedOn(i + 1, was)
    {
      if Ready(pollfds[i]) { ReadyOwner(table, i); }
      forall fd ensures fd in channels && table.index[fd] == i && Ready(pollfds[i]) ==> fd == pollfds[i].fd {
        assert KeyOk(table, fd);
      }
      Visit(i);
    }
  }

  predicate AllIn<V>(fds: seq<int>, m: map<int, V>) {
    forall fd :: fd in fds ==> fd in m
  }

  // The values under some keys, in order.
  function LookUp<V>(fds: seq<int>, m: map<int, V>): seq<V>
    requires AllIn(fds, m)
  {
    if fds == [] then []
    else
      var last := fds[|fds| - 1];
      assert last in fds;
      LookUp(fds[..|fds| - 1], m) + [m[last]]
  }

  /** The channels handed back are those of the descriptors whose slots have positive revents, once each and in
      the order of the slots. */
  lemma ActiveExactly<V>(t: Table, m: map<int, V>)
    requires Bijective(t) && QuietMuted(t) && AllIn(ReadyFds(t.slots), m)
    ensures var fds, active := ReadyFds(t.slots), LookUp(ReadyFds(t.slots), m);
      && |active| == |fds| && (forall k :: 0 <= k < |fds| ==> fds[k] in m && active[k] == m[fds[k]])
      && (forall fd :: fd in fds <==> fd in t.index && t.slots[t.index[fd]].revents > 0)
      && SlotOrder(t, fds)
  {
    assert t.slots[..|t.slots|] == t.slots;
    ReadyOnce(t, |t.slots|);
    LookUpEach(ReadyFds(t.slots), m);
  }

  lemma {:induction false} LookUpEach<V>(fds: seq<int>, m: map<int, V>)
    requires AllIn(fds, m)
    ensures |LookUp(fds, m)| == |fds|
    ensures forall k :: 0 <= k < |fds| ==> fds[k] in m && LookUp(fds, m)[k] == m[fds[k]]
    decreases |fds|
  {
    if fds != [] { LookUpEach(fds[..|fds| - 1], m); }
  }

  lemma LookUpNext<V>(fds: seq<int>, fd: int, m: map<int, V>)
    requires AllIn(fds, m) && fd in m
    ensures AllIn(fds + [fd], m) && LookUp(fds + [fd], m) == LookUp(fds, m) + [m[fd]]
  {
    assert (fds + [fd])[..|fds|] == fds;
  }

  lemma ReadyNext(slots: seq<PollFd>, i: nat)
    requires i < |slots|
    ensures ReadyFds(slots[..i + 1]) == if Ready(slots[i]) then ReadyFds(slots[..i]) + [slots[i].fd]
        else ReadyFds(slots[..i])
  {
    assert slots[..i + 1][..i] == slots[..i];
  }
}
