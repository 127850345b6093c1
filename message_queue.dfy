/** The per-session FIFO of messages awaiting delivery. The lock is left
    out; the counting semaphore is kept as `avail`, and a wait that would
    time out (the count is zero) is a dequeue that returns nothing. */
module Queueing {
  import opened Messages

  class MessageQueue {
    /** `m_messages`, head first. */
    var messages: seq<Message>
    /** The value of the semaphore `m_avail`. */
    var avail: nat

    /** The semaphore counts exactly the queued messages. */
    ghost predicate Valid()
      reads this
    {
      avail == |messages|
    }

    constructor ()
      ensures messages == [] && avail == 0
      ensures Valid()
    {
      messages, avail := [], 0;
    }

    /** `push_back` then `sem_post`. */
    method Enqueue(m: Message)
      modifies this
      ensures messages == old(messages) + [m]
      ensures avail == old(avail) + 1
      ensures old(Valid()) ==> Valid()
    {
      messages := messages + [m];
      avail := avail + 1;
    }

    /** A wait on a zero count times out and returns nothing, changing
        nothing; otherwise the count drops and the head is popped, or
        nothing is returned if the deque is empty after all. */
    method Dequeue() returns (r: Option<Message>)
      modifies this
      ensures old(avail) == 0 ==> r == None && messages == old(messages) && avail == 0
      ensures old(avail) > 0 ==> avail == old(avail) - 1
      ensures old(avail) > 0 && old(messages) == [] ==> r == None && messages == []
      ensures old(avail) > 0 && old(messages) != [] ==>
                r == Some(old(messages)[0]) && messages == old(messages)[1..]
      ensures old(Valid()) ==> Valid()
      ensures old(Valid()) ==> (r == None <==> old(messages) == [])
    {
      if avail == 0 {
        return None;
      }
      avail := avail - 1;
      if messages == [] {
        return None;
      }
      r := Some(messages[0]);
      messages := messages[1..];
    }

    /** The destructor: every message still queued is discarded, head first. */
    method Discard()
      modifies this
      ensures messages == []
      ensures avail == old(avail)
    {
      while messages != []
        invariant avail == old(avail)
        decreases |messages|
      {
        messages := messages[1..];
      }
    }
  }

  /** First in, first out: enqueuing `ms` into a new queue and then
      dequeuing as many times returns `ms`, in order, and leaves the queue
      empty. */
  method FifoOrder(ms: seq<Message>) returns (got: seq<Message>)
    ensures got == ms
  {
    var q := new MessageQueue();
    var i := 0;
    while i < |ms|
      invariant i <= |ms|
      invariant q.messages == ms[..i] && q.Valid()
    {
      q.Enqueue(ms[i]);
      assert ms[..i + 1] == ms[..i] + [ms[i]];
      i := i + 1;
    }
    got := [];
    while |got| < |ms|
      invariant ms == got + q.messages && q.Valid()
      decreases |q.messages|
    {
      var r := q.Dequeue();
      got := got + [r.value];
    }
  }
}
