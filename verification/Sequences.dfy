// Accounts of what goes into a queue and comes out of it.
module Sequences {

  /** before: what waits at first, next: behind one step, after: in the end. What goes in is what comes out and
      what waits, over the step and over the rest, and so over both. */
  lemma Chain<T>(before: seq<T>, a: seq<T>, r: seq<T>, next: seq<T>, aa: seq<T>, rr: seq<T>, after: seq<T>)
    requires before + a == r + next && next + aa == rr + after
    ensures before + (a + aa) == (r + rr) + after
  {
    calc {
      before + (a + aa);
      (before + a) + aa;
      (r + next) + aa;
      r + (next + aa);
      r + (rr + after);
      (r + rr) + after;
    }
  }
}
