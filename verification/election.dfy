/**
 * The election handlers of a node, as pure step functions. The directory
 * service, the peers' details, the readiness test and the list of higher
 * nodes come from collaborators whose code is not part of this model, so
 * their results are inputs (`RoundInputs`), and the calls a handler makes
 * are returned as `Effect`s.
 */
module Election {
  import opened Wrappers
  import opened Node

  /**
   * What the collaborators answered during one election round. The
   * registration status is not among them: it is fixed once at start-up
   * and passed to every handler as `registerStatus`.
   */
  datatype RoundInputs = RoundInputs(
    directory: map<string, int>,     // get_ports_of_nodes(): node name -> port
    electionReady: bool,             // ready_for_election(...)
    higherNodes: seq<NodeDetails>)   // get_higher_nodes(...)

  /** The only exception a round raises itself: removing an absent key from the directory. */
  datatype RoundError = SelfNotInDirectory

  /** The start-up registration succeeded. */
  predicate Registered(registerStatus: int) {
    registerStatus == RegistrationOk
  }

  /** A round gets past its gates and starts an election. */
  predicate Proceeds(me: Identity, registerStatus: int, wait: bool, env: RoundInputs) {
    && Registered(registerStatus)
    && me.name in env.directory
    && (env.electionReady || !wait)
  }

  /**
   * initialize_election: the registration gate, the removal of the node's
   * own entry from the directory, the readiness gate (only when `wait`),
   * then self-promotion when no higher node exists, or an election call
   * to the higher nodes otherwise.
   */
  function InitializeElection(
    me: Identity, script: Script, registerStatus: int, s: NodeState, wait: bool, env: RoundInputs)
    : (r: Result<Step, RoundError>)
    ensures !Registered(registerStatus) ==> r == Success(Step(s, []))
    ensures r.Failure? <==> Registered(registerStatus) && me.name !in env.directory
    ensures r.Success? && !Proceeds(me, registerStatus, wait, env) ==> r.value == Step(s, [])
    ensures r.Success? ==> r.value.state.counter == s.counter
    ensures r.Success? ==> forall e :: e in r.value.effects ==> !e.Forward? && !e.ScheduleElection?
    ensures Proceeds(me, registerStatus, wait, env) && |env.higherNodes| == 0 ==>
      && r.Success?
      && r.value.state.coordinator == Self
      && !r.value.state.election
      && r.value.effects == [AnnounceEffect(script, me.name)]
    ensures Proceeds(me, registerStatus, wait, env) && |env.higherNodes| > 0 ==>
      && r.Success?
      && r.value.state.election
      && r.value.state.coordinator == s.coordinator
      && r.value.effects == [Election(env.higherNodes, me.id)]
  {
    if registerStatus != RegistrationOk then
      Success(Step(s, []))
    else if me.name !in env.directory then
      Failure(SelfNotInDirectory)
    else if env.electionReady || !wait then
      var started := s.(election := true);
      if |env.higherNodes| == 0 then
        Success(Step(started.(coordinator := Self, election := false), [AnnounceEffect(script, me.name)]))
      else
        Success(Step(started, [Election(env.higherNodes, me.id)]))
    else
      Success(Step(s, []))
  }

  /**
   * response_node: a node that outranks the sender starts its own round
   * without the quiet period and clears its election flag; otherwise
   * nothing happens.
   */
  function ResponseNode(me: Identity, s: NodeState, incomingId: int): (r: Step)
    ensures me.id > incomingId ==>
      && !r.state.election
      && r.state.coordinator == s.coordinator
      && r.state.counter == s.counter
      && r.effects == [ScheduleElection(false)]
    ensures me.id <= incomingId ==> r == Step(s, [])
  {
    if me.id > incomingId then
      Step(s.(election := false), [ScheduleElection(false)])
    else
      Step(s, [])
  }

  /** announce_coordinator: the announced name replaces whatever was known. */
  function AnnounceCoordinator(s: NodeState, name: string): (r: Step)
    ensures r.state.coordinator == Named(name)
    ensures r.state.election == s.election && r.state.counter == s.counter
    ensures r.effects == []
  {
    Step(s.(coordinator := Named(name)), [])
  }

  /** The health probe's answer that triggers a new round. */
  const Crashed: string := "crashed"

  /**
   * One tick of check_coordinator_health, given the probe's answer for the
   * current coordinator: a crashed coordinator starts a round with the
   * default quiet period (`wait` true); any other answer changes nothing.
   */
  function CheckCoordinatorHealth(
    me: Identity, script: Script, registerStatus: int, s: NodeState, health: string, env: RoundInputs)
    : (r: Result<Step, RoundError>)
    ensures health != Crashed ==> r == Success(Step(s, []))
    ensures health == Crashed ==> r == InitializeElection(me, script, registerStatus, s, true, env)
    // The round runs with the quiet period: a negative readiness answer aborts it.
    ensures && health == Crashed && Registered(registerStatus)
            && me.name in env.directory && !env.electionReady ==>
      r == Success(Step(s, []))
    ensures health == Crashed && !Registered(registerStatus) ==> r == Success(Step(s, []))
    ensures health == Crashed && Registered(registerStatus) && me.name !in env.directory ==>
      r == Failure(SelfNotInDirectory)
    ensures health == Crashed && Proceeds(me, registerStatus, true, env) && |env.higherNodes| == 0 ==>
      && r.Success?
      && r.value.state.coordinator == Self
      && !r.value.state.election
      && r.value.effects == [AnnounceEffect(script, me.name)]
    ensures health == Crashed && Proceeds(me, registerStatus, true, env) && |env.higherNodes| > 0 ==>
      && r.Success?
      && r.value.state.election
      && r.value.state.coordinator == s.coordinator
      && r.value.effects == [Election(env.higherNodes, me.id)]
  {
    if health == Crashed then
      InitializeElection(me, script, registerStatus, s, true, env)
    else
      Success(Step(s, []))
  }

  /** Without the quiet period the readiness answer is never consulted. */
  lemma NoWaitIgnoresReadiness(
    me: Identity, script: Script, registerStatus: int, s: NodeState, env: RoundInputs, ready: bool)
    ensures InitializeElection(me, script, registerStatus, s, false, env)
         == InitializeElection(me, script, registerStatus, s, false, env.(electionReady := ready))
  {
  }

  /**
   * With the quiet period and a negative readiness answer the round is a
   * no-op: a corollary of InitializeElection's abort clause with `wait` true.
   */
  lemma WaitingRoundAbortsWhenNotReady(
    me: Identity, script: Script, registerStatus: int, s: NodeState, env: RoundInputs)
    requires Registered(registerStatus) && me.name in env.directory && !env.electionReady
    ensures InitializeElection(me, script, registerStatus, s, true, env) == Success(Step(s, []))
  {
  }

  /** Delivering the same announcement twice leaves the node as one delivery does. */
  lemma AnnounceIdempotent(s: NodeState, name: string)
    ensures AnnounceCoordinator(AnnounceCoordinator(s, name).state, name) == AnnounceCoordinator(s, name)
  {
  }

  /** Of two announcements the later one wins, whatever the earlier said. */
  lemma AnnounceLastWriterWins(s: NodeState, first: string, second: string)
    ensures AnnounceCoordinator(AnnounceCoordinator(s, first).state, second) == AnnounceCoordinator(s, second)
  {
  }

  /**
   * The two scripts run the same round: the same state results, and the
   * effects agree except that the announcement goes through announce in one
   * and communicate_master in the other. It holds by construction, since
   * one definition takes the script as a parameter; it is stated so that
   * the agreement of the two scripts is explicit.
   */
  lemma ScriptsAgree(me: Identity, registerStatus: int, s: NodeState, wait: bool, env: RoundInputs)
    ensures InitializeElection(me, NodeScript, registerStatus, s, wait, env).Success?
        <==> InitializeElection(me, Node3Script, registerStatus, s, wait, env).Success?
    ensures InitializeElection(me, NodeScript, registerStatus, s, wait, env).Success? ==>
      var a := InitializeElection(me, NodeScript, registerStatus, s, wait, env).value;
      var b := InitializeElection(me, Node3Script, registerStatus, s, wait, env).value;
      && a.state == b.state
      && |a.effects| == |b.effects|
      && forall i :: 0 <= i < |a.effects| ==>
           (a.effects[i] == b.effects[i] && !IsAnnouncement(a.effects[i]))
           || (a.effects[i] == Announce(me.name) && b.effects[i] == CommunicateMaster(me.name))
  {
  }

  /**
   * A node that outranks the sender of an election message, and has no
   * higher node, ends the round it schedules as the coordinator, whatever
   * the readiness answer: the scheduled round skips the quiet period.
   */
  lemma OutrankingNodeBecomesCoordinator(
    me: Identity, script: Script, registerStatus: int, s: NodeState, incomingId: int, env: RoundInputs)
    requires me.id > incomingId
    requires Registered(registerStatus) && me.name in env.directory && |env.higherNodes| == 0
    ensures var response := ResponseNode(me, s, incomingId);
      && response.effects == [ScheduleElection(false)]
      && var round :=
           InitializeElection(me, script, registerStatus, response.state, response.effects[0].wait, env);
      && round.Success?
      && GetNodeDetails(me, round.value.state) == NodeDetails(me.name, me.id, Self, false, me.port)
      && round.value.effects == [AnnounceEffect(script, me.name)]
  {
  }

  /**
   * After self-promotion the details endpoint reports the node as
   * coordinator, not electing: a corollary of InitializeElection's
   * promotion clause and GetNodeDetails's field copy.
   */
  lemma SnapshotAfterPromotion(
    me: Identity, script: Script, registerStatus: int, s: NodeState, wait: bool, env: RoundInputs)
    requires Proceeds(me, registerStatus, wait, env) && |env.higherNodes| == 0
    ensures var round := InitializeElection(me, script, registerStatus, s, wait, env);
      var d := GetNodeDetails(me, round.value.state);
      d.coordinator == Self && !d.election && d.nodeName == me.name && d.nodeId == me.id
  {
  }

  /**
   * After an announcement the details endpoint reports the announced name:
   * a corollary of AnnounceCoordinator's and GetNodeDetails's contracts.
   */
  lemma SnapshotAfterAnnouncement(me: Identity, s: NodeState, name: string)
    ensures GetNodeDetails(me, AnnounceCoordinator(s, name).state).coordinator == Named(name)
    ensures GetNodeDetails(me, AnnounceCoordinator(s, name).state).election == s.election
  {
  }
}
