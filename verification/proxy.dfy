/**
 * The proxy endpoint: every election message bumps a process-wide C `int`
 * counter under a lock, and only the message that sees the counter at 1
 * after its own increment is forwarded to the node's response endpoint.
 */
module Dedup {
  import opened Node

  /**
   * How many more proxy calls, counting the next one, until a call sees the
   * counter at 1 and forwards. From 0 this is 1; from 1 it is 2^32, the
   * whole way round the 32-bit counter.
   */
  function CallsUntilForward(c: Int32): (n: nat)
    ensures 1 <= n <= Modulus
    ensures n == 1 <==> c == 0
  {
    (-(c as int)) % Modulus + 1
  }

  /** One proxy call with the given payload (the sender's node id). */
  function Proxy(s: NodeState, payload: int): (r: Step)
    ensures r.state.election == s.election && r.state.coordinator == s.coordinator
    ensures s.counter < I32Max ==> r.state.counter == s.counter + 1
    ensures s.counter == I32Max ==> r.state.counter == I32Min
    ensures r.effects != [] <==> s.counter == 0
    ensures r.effects != [] ==> r.effects == [Forward(payload)]
    ensures s.counter != 0 ==> CallsUntilForward(r.state.counter) == CallsUntilForward(s.counter) - 1
    ensures s.counter == 0 ==> CallsUntilForward(r.state.counter) == Modulus
  {
    var unique := Wrap32(s.counter + 1);
    Step(s.(counter := unique), if unique == 1 then [Forward(payload)] else [])
  }
}
