/** The multi-producer, single-consumer channel that every actor's mailbox is
    built on.  It stands in for the standard library channel the runtime uses:
    an unbounded FIFO queue whose sends fail once the receiving end is gone and
    whose receives report a disconnection once every sending end is gone and
    the queue has run dry. */
module Mailbox {

  /** What a non-blocking receive observes. */
  datatype Received<T> = Got(item: T) | Empty | Disconnected

  class Channel<T> {
    /** Messages sent and not yet received, oldest first. */
    var queue: seq<T>
    /** The receiving end has been dropped (its consumer thread has exited). */
    var closed: bool
    /** Every sending end has been dropped. */
    var hungUp: bool

    constructor ()
      ensures queue == [] && !closed && !hungUp
    {
      queue, closed, hungUp := [], false, false;
    }

    /** Never blocks; fails exactly when nobody will ever receive. */
    method Send(x: T) returns (ok: bool)
      modifies this
      ensures ok == !old(closed)
      ensures queue == if ok then old(queue) + [x] else old(queue)
      ensures closed == old(closed) && hungUp == old(hungUp)
    {
      ok := !closed;
      if ok {
        queue := queue + [x];
      }
    }

    /** Takes the oldest message if there is one.  On an empty queue it reports
        `Disconnected` once every sender is gone and `Empty` otherwise (where a
        blocking receive would wait). */
    method TryRecv() returns (r: Received<T>)
      modifies this
      ensures old(queue) != [] ==> r == Got(old(queue)[0]) && queue == old(queue)[1..]
      ensures old(queue) == [] ==> queue == [] && r == if hungUp then Disconnected else Empty
      ensures closed == old(closed) && hungUp == old(hungUp)
    {
      if queue != [] {
        r := Got(queue[0]);
        queue := queue[1..];
      } else if hungUp {
        r := Disconnected;
      } else {
        r := Empty;
      }
    }

    /** The consumer drops its receiving end: later sends fail. */
    method CloseReceiver()
      modifies this
      ensures closed && queue == old(queue) && hungUp == old(hungUp)
    {
      closed := true;
    }

    /** The last sending end is dropped: a receive on the drained queue fails. */
    method HangUp()
      modifies this
      ensures hungUp && queue == old(queue) && closed == old(closed)
    {
      hungUp := true;
    }
  }
}
