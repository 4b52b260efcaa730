/** Callback dispatch with per-listener isolation. A listener is named by its registration
    position; calling it with a payload is recorded as a delivery. Because every call is
    wrapped in `try/except: pass`, a raising listener never stops the ones after it, so
    dispatch always reaches every registered listener. */
module Dispatch {

  datatype Delivery<P> = Delivery(listener: nat, payload: P)

  /** One payload handed to listeners `0 .. count-1` in registration order. */
  function Fanout<P>(count: nat, payload: P): (r: seq<Delivery<P>>)
    ensures |r| == count
    ensures forall i :: 0 <= i < count ==> r[i] == Delivery(i, payload)
  {
    seq(count, i requires 0 <= i < count => Delivery(i, payload))
  }

  /** Several payloads dispatched one after the other: round `k` of the log is payload `k`
      reaching every listener, and rounds follow the order of the payloads. */
  function Broadcast<P>(count: nat, payloads: seq<P>): (r: seq<seq<Delivery<P>>>)
    ensures |r| == |payloads|
    ensures forall k :: 0 <= k < |payloads| ==> r[k] == Fanout(count, payloads[k])
  {
    seq(|payloads|, k requires 0 <= k < |payloads| => Fanout(count, payloads[k]))
  }
}
