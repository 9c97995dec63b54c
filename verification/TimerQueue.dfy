// bounce::TimerQueue: two multimaps ordered by expiration and one armed timer descriptor.
module TimerQueues {

  // Nanoseconds. NEVER is TimePoint::max().
  const NEVER: int := 0x7FFF_FFFF_FFFF_FFFF

  // start and fired only record history: the first expiration, and how often the callback ran.
  datatype Timer = Timer(expiration: int, duration: int, start: int, fired: nat)

  // One entry of a multimap; timers are named by their creation number.
  datatype Entry = Entry(key: int, timer: nat)

  // The descriptor: armed for a point in time, or gone off and not yet read.
  datatype TimerFd = Disarmed | ArmedAt(at: int) | Expired

  // rearmed: when the descriptor was last set. log: the callbacks that have run, in order.
  datatype State = State(
    timers: seq<Timer>, once: seq<Entry>, repeated: seq<Entry>,
    min: int, fd: TimerFd, rearmed: int, log: seq<nat>)

  const EMPTY := State([], [], [], NEVER, Disarmed, 0, [])

  function Get(s: State, t: nat): Timer {
    if t < |s.timers| then s.timers[t] else Timer(NEVER, 0, NEVER, 0)
  }

  function Put(s: State, t: nat, v: Timer): State {
    if t < |s.timers| then s.(timers := s.timers[t := v]) else s
  }

  // Multimaps -----------------------------------------------------------------------------------

  // The index of the first entry with a greater key.
  function UpperBound(es: seq<Entry>, key: int): (u: nat)
    ensures u <= |es|
    ensures forall i :: 0 <= i < u ==> es[i].key <= key
    ensures u < |es| ==> es[u].key > key
  {
    if es == [] || es[0].key > key then 0 else 1 + UpperBound(es[1..], key)
  }

  function Insert(es: seq<Entry>, e: Entry): seq<Entry> {
    var u := UpperBound(es, e.key);
    es[..u] + [e] + es[u..]
  }

  // Bodies of the source's functions ---------------------------------------------------------------

  // timerfd_settime with the difference split into seconds and nanoseconds; zero disarms.
  function SetTime(diff: nat, clock: int): TimerFd {
    var sec, nsec := diff / 1000000000, diff % 1000000000;
    if sec == 0 && nsec == 0 then Disarmed else ArmedAt(clock + sec * 1000000000 + nsec)
  }

  function Earliest(s: State, es: seq<Entry>): int {
    if es == [] then NEVER else Get(s, es[0].timer).expiration
  }

  function Reset(s: State, clock: int): State {
    var once, repeated := Earliest(s, s.once), Earliest(s, s.repeated);
    var min := if once < repeated then once else repeated;
    if min == NEVER then s.(min := min)
    else
      var diff := min - clock;
      s.(min := min, fd := SetTime(if diff < 0 then 10 else diff, clock), rearmed := clock)
  }

  function Store(s: State, t: nat): State {
    var e := Entry(Get(s, t).expiration, t);
    if Get(s, t).duration == 0 then s.(once := Insert(s.once, e)) else s.(repeated := Insert(s.repeated, e))
  }

  function AddTimerInLoop(s: State, t: nat, clock: int): State {
    if Get(s, t).expiration < s.min then Reset(Store(s, t), clock) else Store(s, t)
  }

  // addTimer called in the loop, at some time of the clock
  datatype New = New(expiration: int, duration: int, clock: int)

  function Create(s: State, n: New): State {
    AddTimerInLoop(s.(timers := s.timers + [Timer(n.expiration, n.duration, n.expiration, 0)]), |s.timers|, n.clock)
  }

  function CreateAll(s: State, ns: seq<New>): State
    decreases |ns|
  {
    if ns == [] then s else CreateAll(Create(s, ns[0]), ns[1..])
  }

  function Without(es: seq<Entry>, t: nat): seq<Entry> {
    if es == [] then [] else if es[0].timer == t then es[1..] else [es[0]] + Without(es[1..], t)
  }

  function DeleteTimerInLoop(s: State, t: nat): State {
    s.(repeated := Without(s.repeated, t))
  }

  // The callback of a timer runs; what it adds comes from a script.
  function Exec(s: State, t: nat): State {
    Put(s, t, Get(s, t).(fired := Get(s, t).fired + 1)).(log := s.log + [t])
  }

  function Head(script: seq<seq<New>>): seq<New> {
    if script == [] then [] else script[0]
  }

  function Tail(script: seq<seq<New>>): seq<seq<New>> {
    if script == [] then [] else script[1..]
  }

  function ExecOnce(s: State, due: seq<Entry>, script: seq<seq<New>>): State
    decreases |due|
  {
    if due == [] then s else ExecOnce(CreateAll(Exec(s, due[0].timer), Head(script)), due[1..], Tail(script))
  }

  function Skip(script: seq<seq<New>>, n: nat): seq<seq<New>> {
    if n < |script| then script[n..] else []
  }

  // The loop over the repeat timers walks the live map: at is the entry it is at, upper the first entry
  // that was not due. An entry inserted in front of either pushes it back.
  datatype Cursor = Cursor(state: State, at: nat, upper: nat, update: seq<nat>)

  function CreateUnder(c: Cursor, n: New): Cursor {
    var p := UpperBound(c.state.repeated, n.expiration);
    Cursor(Create(c.state, n),
           if n.duration != 0 && p <= c.at then c.at + 1 else c.at,
           if n.duration != 0 && p <= c.upper then c.upper + 1 else c.upper, c.update)
  }

  function CreateAllUnder(c: Cursor, ns: seq<New>): (r: Cursor)
    ensures r.upper - r.at <= c.upper - c.at + |ns|
    ensures c.at < c.upper ==> c.upper - c.at <= r.upper - r.at
    decreases |ns|
  {
    if ns == [] then c else CreateAllUnder(CreateUnder(c, ns[0]), ns[1..])
  }

  function Total(script: seq<seq<New>>): nat {
    if script == [] then 0 else |script[0]| + Total(script[1..])
  }

  function ExecRepeated(c: Cursor, script: seq<seq<New>>): Cursor
    decreases (if c.at < c.upper then c.upper - c.at else 0) + Total(script)
  {
    if c.at >= c.upper || c.at >= |c.state.repeated| then c
    else
      var t := c.state.repeated[c.at].timer;
      var ran := CreateAllUnder(c.(state := Exec(c.state, t)), Head(script));
      ExecRepeated(ran.(at := ran.at + 1, update := ran.update + [t]), Tail(script))
  }

  // timerUpdate
  function Advance(v: Timer): Timer {
    if v.duration != 0 then v.(expiration := v.expiration + v.duration) else v
  }

  function Reinsert(s: State, update: seq<nat>): State
    decreases |update|
  {
    if update == [] then s
    else
      var moved := Put(s, update[0], Advance(Get(s, update[0])));
      var e := Entry(Get(moved, update[0]).expiration, update[0]);
      Reinsert(moved.(repeated := Insert(moved.repeated, e)), update[1..])
  }

  function DropFirst(es: seq<Entry>, n: nat): seq<Entry> {
    if n < |es| then es[n..] else []
  }

  // now: the clock when the timers are looked up; later: when the descriptor is set again.
  function HandleRead(s: State, now: int, script: seq<seq<New>>, later: int): State {
    var u := UpperBound(s.once, now);
    var first := ExecOnce(s.(fd := Disarmed, once := s.once[u..]), s.once[..u], script);
    var c := ExecRepeated(Cursor(first, 0, UpperBound(first.repeated, now), []), Skip(script, u));
    var erased := c.state.(repeated := DropFirst(c.state.repeated, c.upper));
    Reset(Reinsert(erased, c.update), later)
  }

  // Time passes, and the descriptor goes off.
  function Tick(s: State, clock: int): State {
    if s.fd.ArmedAt? && s.fd.at <= clock then s.(fd := Expired) else s
  }
}
