// spdlog's mpmc_blocking_queue and thread_pool as objects that take the steps of ThreadPools.
module BlockingQueues {
  import opened Rings

  class MpmcBlockingQueue<T(0)> {
    const q: CircularQ<T>

    ghost predicate Valid()
      reads this, q
    {
      q.Valid()
    }

    ghost function Model(): Ring<T>
      requires Valid()
      reads this, q, q.v
    {
      q.Model()
    }

    constructor (capacity: nat)
      ensures Valid() && fresh(q) && fresh(q.v) && Model() == EmptyRing(capacity)
    {
      q := new CircularQ(capacity);
    }

    // What a poster does when it looks: it goes on only if there is room, and waits otherwise.
    method Enqueue(item: T) returns (done: bool)
      requires Valid()
      modifies q, q.v
      ensures Valid() && done == !Full(old(Model()))
      ensures Model() == if done then Pushed(old(Model()), item) else old(Model())
      ensures Model().overruns == old(Model()).overruns
    {
      done := !q.IsFull();
      if done {
        q.PushBack(item);
      }
    }

    method EnqueueNowait(item: T)
      requires Valid()
      modifies q, q.v
      ensures Valid() && Model() == Pushed(old(Model()), item)
    {
      q.PushBack(item);
    }

    // Nothing is dequeued only if the wait times out, with the queue empty.
    method DequeueFor(item: T) returns (dequeued: bool, poppedItem: T)
      requires Valid()
      modifies q
      ensures Valid() && dequeued == (old(Model()).items != [])
      ensures dequeued ==> poppedItem == old(Model()).items[0] && Model() == Popped(old(Model()))
      ensures !dequeued ==> poppedItem == item && Model() == old(Model())
    {
      dequeued, poppedItem := !q.IsEmpty(), item;
      if dequeued {
        poppedItem := q.PopFront();
      }
    }
  }
}

module ThreadPoolObject {
  import opened Rings
  import opened BlockingQueues
  import opened ThreadPools

  class ThreadPool {
    const q: MpmcBlockingQueue<Msg>
    var threads: seq<Worker>
    var closing: bool
    var terminates: nat
    ghost var posted: seq<Msg>
    ghost var waited: seq<bool>
    ghost var handled: seq<Msg>

    ghost predicate Valid()
      reads this, q, q.q
    {
      q.Valid()
    }

    ghost function Model(): Pool
      requires Valid()
      reads this, q, q.q, q.q.v
    {
      Pool(q.Model(), threads, closing, terminates, posted, waited, handled)
    }

    constructor (capacity: nat, threadsN: nat)
      requires 1 <= threadsN <= 1000
      ensures Valid() && fresh(q) && fresh(q.q) && fresh(q.q.v)
      ensures Model() == Start(capacity, threadsN).value && Inv(Model())
    {
      q := new MpmcBlockingQueue(capacity);
      threads := seq(threadsN, i => Waiting);
      closing, terminates, posted, waited, handled := false, 0, [], [], [];
      new;
      StartOk(capacity, threadsN);
    }

    /** False: the poster waits. */
    method PostAsyncMsg(msg: Msg, policy: Policy) returns (done: bool)
      requires Valid() && Inv(Model()) && !closing && msg.kind != Terminate
      modifies this, q.q, q.q.v
      ensures Valid() && Inv(Model()) && done == Enabled(old(Model()), Post(msg, policy))
      ensures Model() == if done then Next(old(Model()), Post(msg, policy)) else old(Model())
    {
      if policy == Block {
        done := q.Enqueue(msg);
      } else {
        q.EnqueueNowait(msg);
        done := true;
      }
      if done {
        PostKeeps(old(Model()), msg, policy);
        posted, waited := posted + [msg], waited + [policy == Block];
      }
    }

    method PostTerminate() returns (done: bool)
      requires Valid() && Inv(Model()) && closing && terminates < |threads|
      modifies this, q.q, q.q.v
      ensures Valid() && Inv(Model()) && done == Enabled(old(Model()), ThreadPools.PostTerminate)
      ensures Model() == if done then Next(old(Model()), ThreadPools.PostTerminate) else old(Model())
    {
      done := q.Enqueue(TERMINATE);
      if done {
        TerminateKeeps(old(Model()));
        terminates := terminates + 1;
      }
    }

    /** One round of a thread's loop, with no other step in between. */
    method ProcessNextMsg(i: nat) returns (alive: bool)
      requires Valid() && Inv(Model()) && i < |threads| && threads[i] == Waiting
      modifies this, q.q
      ensures Valid() && Inv(Model()) && |threads| == |old(threads)|
      ensures Model() == if old(Model()).ring.items == [] then old(Model()) else Round(old(Model()), i)
      ensures alive == (old(Model()).ring.items == [] || old(Model()).ring.items[0].kind != Terminate)
    {
      var dequeued, msg := q.DequeueFor(TERMINATE);
      if !dequeued {
        return true;
      }
      RoundKeeps(old(Model()), i);
      RoundIs(old(Model()), i);
      match msg.kind {
        case Terminate =>
          threads, alive := threads[i := Exited], false;
        case _ =>
          handled, alive := handled + [msg], true;
      }
    }

    /** The loop of a thread that is left alone, until it exits or would wait. */
    method WorkerLoop(i: nat)
      requires Valid() && Inv(Model()) && i < |threads| && threads[i] == Waiting
      modifies this, q.q
      ensures Valid() && Inv(Model()) && Model() == Rounds(old(Model()), i)
    {
      var alive := true;
      while alive && !q.q.IsEmpty()
        invariant Valid() && Inv(Model()) && i < |threads|
        invariant Rounds(Model(), i) == Rounds(old(Model()), i)
        invariant threads[i] == if alive then Waiting else Exited
        decreases |Model().ring.items|, alive
      {
        ghost var s := Model();
        RoundIs(s, i);
        alive := ProcessNextMsg(i);
      }
    }
  }

  // A thread takes a message and is done with it.
  function Round(s: Pool, i: nat): Pool
    requires Enabled(s, Take(i))
  {
    Next(Next(s, Take(i)), Finish(i))
  }

  lemma RoundIs(s: Pool, i: nat)
    requires Enabled(s, Take(i))
    ensures var msg := s.ring.items[0];
      Round(s, i) == if msg.kind == Terminate then s.(ring := Popped(s.ring), workers := s.workers[i := Exited])
                     else s.(ring := Popped(s.ring), handled := s.handled + [msg])
  {
    var msg := s.ring.items[0];
    assert s.workers[i := Handling(msg)][i := Waiting] == s.workers;
    assert s.workers[i := Handling(msg)][i := Exited] == s.workers[i := Exited];
  }

  lemma RoundKeeps(s: Pool, i: nat)
    requires Inv(s) && Enabled(s, Take(i))
    ensures Inv(Round(s, i))
  {
    TakeKeeps(s, i);
    FinishKeeps(Next(s, Take(i)), i);
  }

  function Rounds(s: Pool, i: nat): Pool
    decreases |s.ring.items|
  {
    if Enabled(s, Take(i)) then Rounds(Round(s, i), i) else s
  }

  /** A thread that is left alone handles, in order, the messages up to the first one that tells it to exit,
      or all there are. */
  lemma {:induction false} RoundsHandle(s: Pool, i: nat) returns (mine: seq<Msg>, last: seq<Msg>)
    requires Ready(s, i, Waiting)
    ensures var r := Rounds(s, i);
      && r.handled == s.handled + mine && NoTerminate(mine)
      && s.ring.items == mine + last + r.ring.items && |last| <= 1
      && (last == [] ==> r.workers == s.workers && r.ring.items == [])
      && (last != [] ==> r.workers == s.workers[i := Exited] && last[0].kind == Terminate)
    decreases |s.ring.items|
  {
    mine, last := [], [];
    if s.ring.items != [] {
      var msg, r := s.ring.items[0], Round(s, i);
      RoundIs(s, i);
      assert s.ring.items == [msg] + r.ring.items;
      if msg.kind != Terminate {
        mine, last := RoundsHandle(r, i);
        Prepend(msg, mine, last, Rounds(r, i).ring.items, s.handled);
        mine := [msg] + mine;
      } else {
        last := [msg];
        assert Rounds(r, i) == r;
      }
    }
  }

  lemma Prepend(msg: Msg, mine: seq<Msg>, last: seq<Msg>, rest: seq<Msg>, handled: seq<Msg>)
    ensures [msg] + (mine + last + rest) == [msg] + mine + last + rest
    ensures handled + [msg] + mine == handled + ([msg] + mine)
  {
  }
}
