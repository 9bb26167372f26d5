/** The POSIX message queues the active objects use, seen from their single reader.

    Every queue in the source is opened with `mq_maxmsg = 10` and blocking sends, so a
    send into a full queue never returns: the model makes room a precondition of
    `Send` instead of dropping the message. */
module Mailbox {

  /** MQ_MAX_MESSAGES, and `mq_maxmsg` in adminScanner. */
  const Capacity: nat := 10

  /** Pending messages, oldest first. */
  type Queue<E> = seq<E>

  predicate HasRoom<E>(q: Queue<E>) {
    |q| < Capacity
  }

  /** `mq_send` with priority 0: the message joins the back of the queue. */
  function Send<E>(q: Queue<E>, e: E): (r: Queue<E>)
    requires HasRoom(q)
    ensures |r| == |q| + 1 <= Capacity
    ensures r[..|q|] == q && r[|q|] == e
  {
    q + [e]
  }

  /** `mq_receive`: the oldest message and what is left behind it. */
  function Receive<E>(q: Queue<E>): (r: (E, Queue<E>))
    requires |q| > 0
    ensures [r.0] + r.1 == q
  {
    (q[0], q[1..])
  }

  /** Messages leave in the order they were sent: a send behind a non-empty queue does
      not change which message is received next. */
  lemma FifoOrder<E>(q: Queue<E>, e: E)
    requires HasRoom(q)
    ensures q == [] ==> Receive(Send(q, e)) == (e, [])
    ensures q != [] ==> Receive(Send(q, e)).0 == q[0] &&
                        Receive(Send(q, e)).1 == Send(q[1..], e)
  {
    if q != [] {
      assert (q + [e])[1..] == q[1..] + [e];
    }
  }
}
