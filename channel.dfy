/**
 * A (deque, counting semaphore) pair used as an event channel: the producer
 * calls appendleft and then up(), the consumer waits in down() and then pops
 * from the right.  Index 0 of a sequence is the deque's left end.
 */
module Channels {

  /** appendleft */
  function Post<T>(q: seq<T>, x: T): seq<T>
  {
    [x] + q
  }

  /** The item pop() returns: the rightmost. */
  function Oldest<T>(q: seq<T>): T
    requires |q| > 0
  {
    q[|q| - 1]
  }

  /** The deque after pop(). */
  function DropOldest<T>(q: seq<T>): seq<T>
    requires |q| > 0
  {
    q[..|q| - 1]
  }

  /** The items posted one after another. */
  function PostAll<T>(q: seq<T>, xs: seq<T>): seq<T>
    decreases |xs|
  {
    if xs == [] then q else PostAll(Post(q, xs[0]), xs[1..])
  }

  /** The order in which repeated pops hand the items out. */
  function Drain<T>(q: seq<T>): seq<T>
    decreases |q|
  {
    if q == [] then [] else [Oldest(q)] + Drain(DropOldest(q))
  }

  /** A post lands behind everything pending: the next pop is unaffected unless nothing was pending. */
  lemma PostThenPop<T>(q: seq<T>, x: T)
    ensures Oldest(Post(q, x)) == (if q == [] then x else Oldest(q))
    ensures q != [] ==> DropOldest(Post(q, x)) == Post(DropOldest(q), x)
    ensures q == [] ==> DropOldest(Post(q, x)) == []
  {
  }

  lemma {:induction false} DrainPost<T>(q: seq<T>, x: T)
    ensures Drain(Post(q, x)) == Drain(q) + [x]
    decreases |q|
  {
    PostThenPop(q, x);
    if q != [] {
      DrainPost(DropOldest(q), x);
    }
  }

  /** Events of one kind are consumed in the order they arrived. */
  lemma {:induction false} ChannelIsFifo<T>(q: seq<T>, xs: seq<T>)
    ensures Drain(PostAll(q, xs)) == Drain(q) + xs
    decreases |xs|
  {
    if xs == [] {
      assert Drain(q) + xs == Drain(q);
    } else {
      DrainPost(q, xs[0]);
      ChannelIsFifo(Post(q, xs[0]), xs[1..]);
      assert Drain(q) + [xs[0]] + xs[1..] == Drain(q) + xs;
    }
  }

  lemma {:induction false} PostAllLength<T>(q: seq<T>, xs: seq<T>)
    ensures |PostAll(q, xs)| == |q| + |xs|
    decreases |xs|
  {
    if xs != [] {
      PostAllLength(Post(q, xs[0]), xs[1..]);
    }
  }
}
