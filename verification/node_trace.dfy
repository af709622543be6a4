/**
 * A node driven by a sequence of inbound events, handled one at a time
 * (the lock around the counter makes each proxy call atomic; interleaving
 * inside a handler is not modelled). A handler that raises leaves the node
 * as it was and emits nothing, as a failed request thread does. The
 * registration status is computed once at start-up, so one value holds for
 * the whole trace.
 */
module NodeTrace {
  import opened Wrappers
  import opened Node
  import opened Election
  import opened Dedup

  datatype Event =
    | Start(wait: bool, env: RoundInputs)       // a run of initialize_election
    | Response(incomingId: int)                 // POST /response
    | AnnounceIn(coordinator: string)           // POST /announce
    | ProxyIn(nodeId: int)                      // POST /proxy
    | HealthTick(health: string, env: RoundInputs)  // one run of check_coordinator_health

  function Handle(me: Identity, script: Script, registerStatus: int, s: NodeState, e: Event): Step {
    match e
    case Start(wait, env) =>
      var r := InitializeElection(me, script, registerStatus, s, wait, env);
      if r.Success? then r.value else Step(s, [])
    case Response(id) => ResponseNode(me, s, id)
    case AnnounceIn(name) => AnnounceCoordinator(s, name)
    case ProxyIn(id) => Proxy(s, id)
    case HealthTick(health, env) =>
      var r := CheckCoordinatorHealth(me, script, registerStatus, s, health, env);
      if r.Success? then r.value else Step(s, [])
  }

  /** The final state after all events, and every effect emitted, in order. */
  function Run(me: Identity, script: Script, registerStatus: int, s: NodeState, events: seq<Event>): Step
    decreases |events|
  {
    if events == [] then Step(s, [])
    else
      var first := Handle(me, script, registerStatus, s, events[0]);
      var rest := Run(me, script, registerStatus, first.state, events[1..]);
      Step(rest.state, first.effects + rest.effects)
  }

  /** Number of proxy calls among the events. */
  function ProxyCount(events: seq<Event>): nat {
    if events == [] then 0 else (if events[0].ProxyIn? then 1 else 0) + ProxyCount(events[1..])
  }

  /** Payloads of the forwarded messages, in order. */
  function Forwarded(effects: seq<Effect>): seq<int> {
    if effects == [] then []
    else (if effects[0].Forward? then [effects[0].nodeId] else []) + Forwarded(effects[1..])
  }

  /** Payload of the first proxy call among the events. */
  function FirstProxyPayload(events: seq<Event>): int
    requires ProxyCount(events) > 0
  {
    if events[0].ProxyIn? then events[0].nodeId else FirstProxyPayload(events[1..])
  }

  lemma {:induction false} ForwardedAppend(a: seq<Effect>, b: seq<Effect>)
    ensures Forwarded(a + b) == Forwarded(a) + Forwarded(b)
  {
    if a == [] {
      assert a + b == b;
    } else {
      assert (a + b)[1..] == a[1..] + b;
      ForwardedAppend(a[1..], b);
    }
  }

  lemma {:induction false} NothingForwarded(effects: seq<Effect>)
    requires forall e :: e in effects ==> !e.Forward?
    ensures Forwarded(effects) == []
  {
    if effects != [] {
      assert effects[0] in effects;
      NothingForwarded(effects[1..]);
    }
  }

  /** Events other than proxy calls neither forward nor touch the counter. */
  lemma HandleOtherEvent(me: Identity, script: Script, registerStatus: int, s: NodeState, e: Event)
    requires !e.ProxyIn?
    ensures Handle(me, script, registerStatus, s, e).state.counter == s.counter
    ensures Forwarded(Handle(me, script, registerStatus, s, e).effects) == []
  {
    NothingForwarded(Handle(me, script, registerStatus, s, e).effects);
  }

  /**
   * Until the counter comes round to 1 again, no proxy call forwards, and
   * each proxy call brings that moment one call closer.
   */
  lemma {:induction false} NoForwardUntilCounterReturns(
    me: Identity, script: Script, registerStatus: int, s: NodeState, events: seq<Event>)
    requires ProxyCount(events) < CallsUntilForward(s.counter)
    ensures Forwarded(Run(me, script, registerStatus, s, events).effects) == []
    ensures CallsUntilForward(Run(me, script, registerStatus, s, events).state.counter)
         == CallsUntilForward(s.counter) - ProxyCount(events)
    decreases |events|
  {
    if events != [] {
      var first := Handle(me, script, registerStatus, s, events[0]);
      if events[0].ProxyIn? {
        assert s.counter != 0;
      } else {
        HandleOtherEvent(me, script, registerStatus, s, events[0]);
      }
      NoForwardUntilCounterReturns(me, script, registerStatus, first.state, events[1..]);
      ForwardedAppend(first.effects, Run(me, script, registerStatus, first.state, events[1..]).effects);
    }
  }

  /**
   * From a fresh counter, over any events with at most 2^32 proxy calls
   * among them, exactly one message is forwarded: the first proxy call's.
   */
  lemma {:induction false} FirstProxyCallWins(
    me: Identity, script: Script, registerStatus: int, s: NodeState, events: seq<Event>)
    requires s.counter == 0
    requires 0 < ProxyCount(events) <= Modulus
    ensures Forwarded(Run(me, script, registerStatus, s, events).effects) == [FirstProxyPayload(events)]
    decreases |events|
  {
    var first := Handle(me, script, registerStatus, s, events[0]);
    var rest := Run(me, script, registerStatus, first.state, events[1..]);
    ForwardedAppend(first.effects, rest.effects);
    if events[0].ProxyIn? {
      assert Forwarded(first.effects) == [events[0].nodeId];
      NoForwardUntilCounterReturns(me, script, registerStatus, first.state, events[1..]);
    } else {
      HandleOtherEvent(me, script, registerStatus, s, events[0]);
      FirstProxyCallWins(me, script, registerStatus, first.state, events[1..]);
    }
  }

  /**
   * The counter is a 32-bit C int: after exactly 2^32 proxy calls from a
   * fresh counter it is back at 0, so the next proxy call forwards again.
   */
  lemma {:induction false} CounterWrapsAfterModulusCalls(
    me: Identity, script: Script, registerStatus: int, s: NodeState, events: seq<Event>, payload: int)
    requires s.counter == 0
    requires ProxyCount(events) == Modulus
    ensures Run(me, script, registerStatus, s, events).state.counter == 0
    ensures Proxy(Run(me, script, registerStatus, s, events).state, payload).effects == [Forward(payload)]
    decreases |events|
  {
    var first := Handle(me, script, registerStatus, s, events[0]);
    if events[0].ProxyIn? {
      NoForwardUntilCounterReturns(me, script, registerStatus, first.state, events[1..]);
    } else {
      HandleOtherEvent(me, script, registerStatus, s, events[0]);
      CounterWrapsAfterModulusCalls(me, script, registerStatus, first.state, events[1..], payload);
    }
  }
}
