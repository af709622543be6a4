/**
 * The data model of one peer of the Bully election: its fixed identity, the
 * mutable state the election handlers share, the snapshot it serves to its
 * peers, and the effects (outgoing calls and scheduled work) that the
 * handlers emit instead of performing I/O.
 */
module Node {

  /** Status code the directory service returns for a successful registration. */
  const RegistrationOk: int := 200

  const I32Min: int := -0x8000_0000
  const I32Max: int := 0x7fff_ffff
  /** Number of distinct values of a 32-bit signed integer. */
  const Modulus: int := 0x1_0000_0000

  /** The range of a C `int`, the type of the shared dedup counter. */
  type Int32 = x: int | I32Min <= x <= I32Max

  /** Two's-complement wrap-around of an unbounded integer into a C `int`. */
  function Wrap32(x: int): (r: Int32)
    ensures (r - x) % Modulus == 0
    ensures I32Min <= x <= I32Max ==> r == x
  {
    (x - I32Min) % Modulus + I32Min
  }

  /**
   * What a node knows about the current coordinator. Self-promotion stores
   * the boolean `True`, an announcement stores the announced name, and the
   * value before either is whatever the node was constructed with.
   */
  datatype Coordinator = Unknown | Self | Named(name: string)

  /** Fixed per-process identity: name, rank and listening port. */
  datatype Identity = Identity(name: string, id: int, port: int)

  /**
   * The mutable state of one node: whether it is running an election round,
   * whom it takes to be the coordinator, and the process-wide counter of
   * proxied election messages.
   */
  datatype NodeState = NodeState(election: bool, coordinator: Coordinator, counter: Int32)

  /** The snapshot a node serves on its details endpoint. */
  datatype NodeDetails = NodeDetails(
    nodeName: string, nodeId: int, coordinator: Coordinator, election: bool, port: int)

  /** The two node scripts differ only in the call that announces a new coordinator. */
  datatype Script = NodeScript | Node3Script

  /** Outgoing calls and scheduled work a handler asks for. */
  datatype Effect =
    | Announce(name: string)                                // announce(node_name)
    | CommunicateMaster(name: string)                       // communicate_master(node_name)
    | Election(higherNodes: seq<NodeDetails>, nodeId: int)  // election(higher_nodes_array, node_id)
    | ScheduleElection(wait: bool)                          // a new thread running initialize_election(wait)
    | Forward(nodeId: int)                                  // proxy posting the payload to /response

  /** The state after a handler ran, and what it emitted, in order. */
  datatype Step = Step(state: NodeState, effects: seq<Effect>)

  /** An effect that tells the other nodes who the coordinator is. */
  predicate IsAnnouncement(e: Effect) {
    e.Announce? || e.CommunicateMaster?
  }

  /** The announcement call each script makes after self-promotion. */
  function AnnounceEffect(script: Script, name: string): (e: Effect)
    ensures IsAnnouncement(e)
    ensures e.name == name
    ensures e.Announce? <==> script == NodeScript
  {
    match script
    case NodeScript => Announce(name)
    case Node3Script => CommunicateMaster(name)
  }

  /** The details endpoint: a read-only view of identity and state. */
  function GetNodeDetails(me: Identity, s: NodeState): (d: NodeDetails)
    ensures d.nodeName == me.name && d.nodeId == me.id && d.port == me.port
    ensures d.coordinator == s.coordinator && d.election == s.election
  {
    NodeDetails(me.name, me.id, s.coordinator, s.election, me.port)
  }
}
