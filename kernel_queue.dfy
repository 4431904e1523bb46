/**
 * The two FreeRTOS queue primitives the drivers use, reduced to what they do to a
 * bounded FIFO of items: a send with zero block time (or from an ISR) and a receive.
 */
module KernelQueue {

  datatype Option<T> = None | Some(value: T)

  /** xQueueSend with no block time, or xQueueSendFromISR: the item goes to the tail when there is a free slot. */
  function Send<T>(q: seq<T>, capacity: nat, x: T): (r: (seq<T>, bool))
    ensures r.1 <==> |q| < capacity
    ensures r.1 ==> |r.0| == |q| + 1 && r.0[..|q|] == q && r.0[|q|] == x
    ensures !r.1 ==> r.0 == q
    ensures |q| <= capacity ==> |r.0| <= capacity
  {
    if |q| < capacity then (q + [x], true) else (q, false)
  }

  /** xQueueReceive with no block time, or xQueueReceiveFromISR: the oldest item leaves the queue. */
  function Receive<T>(q: seq<T>): (r: (seq<T>, Option<T>))
    ensures r.1.Some? <==> q != []
    ensures r.1.Some? ==> [r.1.value] + r.0 == q
    ensures r.1.None? ==> r.0 == q
  {
    if q == [] then (q, None) else (q[1..], Some(q[0]))
  }
}
