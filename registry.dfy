/**
 * The websocket client registry of lib/web/server.go: the set of connected
 * clients, the one primary client allowed to control the recorder, and the
 * connections that have been closed. The three events are a new connection,
 * a read error (disconnect) and a "requestPrimary" message.
 */
module ClientRegistry {
  import opened Types
  import opened State

  datatype Registry = Registry(clients: set<ClientId>, primary: Option<ClientId>, closed: set<ClientId>)

  /** No primary exactly when there are no clients, and a primary is always a
      registered client. */
  predicate Consistent(r: Registry)
  {
    && (r.clients == {} <==> r.primary == None)
    && (r.primary.Some? ==> r.primary.value in r.clients)
  }

  /** A connection that has been closed is never registered. */
  predicate NoClosedClient(r: Registry)
  {
    r.clients !! r.closed
  }

  /** The registry part of the shared state. */
  function RegistryOf(state: AppState): Registry
    reads state
  {
    Registry(state.clients, state.primaryClient, state.closedConns)
  }

  /** A new connection is registered; it becomes primary when there is none or
      when it is the only client. */
  function Connect(r: Registry, c: ClientId): (r': Registry)
    requires c !in r.clients
    ensures r'.clients == r.clients + {c} && r'.closed == r.closed
    ensures r.primary == None || r.clients == {} ==> r'.primary == Some(c)
    ensures r.primary.Some? && r.clients != {} ==> r'.primary == r.primary
    ensures Consistent(r) && r.primary.Some? ==> r'.primary == r.primary
    ensures Consistent(r) ==> Consistent(r')
  {
    var clients := r.clients + {c};
    if r.primary == None || |clients| == 1 then Registry(clients, Some(c), r.closed)
    else Registry(clients, r.primary, r.closed)
  }

  /** The read loop of client c failed: c is removed and closed. If c was
      primary, the first remaining client in map order (`pick`) takes over, or
      nobody when none remain; a lone remaining client without a primary is
      then made primary. */
  function Disconnect(r: Registry, c: ClientId, pick: ClientId): (r': Registry)
    requires r.clients - {c} != {} ==> pick in r.clients - {c}
    ensures r'.clients == r.clients - {c} && r'.closed == r.closed + {c}
    ensures r.primary == Some(c) ==> r'.primary == (if r'.clients == {} then None else Some(pick))
    ensures Consistent(r) && r.primary != Some(c) ==> r'.primary == r.primary
    ensures Consistent(r) ==> Consistent(r')
  {
    var clients := r.clients - {c};
    var primary := if r.primary == Some(c) then (if clients == {} then None else Some(pick)) else r.primary;
    var primary' := if |clients| == 1 && primary == None then Some(pick) else primary;
    Registry(clients, primary', r.closed + {c})
  }

  /** Client c asked to be primary: it is made primary, and a different old
      primary is closed and removed. */
  function RequestPrimary(r: Registry, c: ClientId): (r': Registry)
    ensures r'.primary == Some(c)
    ensures r.primary.Some? && r.primary != Some(c) ==>
      r'.clients == r.clients - {r.primary.value} && r'.closed == r.closed + {r.primary.value}
    ensures r.primary == None || r.primary == Some(c) ==> r'.clients == r.clients && r'.closed == r.closed
    ensures Consistent(r) && c in r.clients ==> Consistent(r')
  {
    match r.primary
    case Some(previous) =>
      if previous != c then
        assert c in r.clients ==> c in r.clients - {previous};
        Registry(r.clients - {previous}, Some(c), r.closed + {previous})
      else Registry(r.clients, Some(c), r.closed)
    case None => Registry(r.clients, Some(c), r.closed)
  }

  datatype Event =
    | Joined(c: ClientId)                 // a websocket upgrade succeeded
    | Left(c: ClientId, pick: ClientId)   // c's read failed; pick is the first key in map order
    | Requested(c: ClientId)              // c sent {"type": "requestPrimary"}

  /** What each event assumes of the world: a new connection is a fresh client,
      the map iteration yields a remaining client, and only a connected client
      can send a message. */
  predicate Allowed(r: Registry, e: Event)
  {
    match e
    case Joined(c) => c !in r.clients && c !in r.closed
    case Left(c, pick) => r.clients - {c} != {} ==> pick in r.clients - {c}
    case Requested(c) => c in r.clients
  }

  function Apply(r: Registry, e: Event): Registry
    requires Allowed(r, e)
  {
    match e
    case Joined(c) => Connect(r, c)
    case Left(c, pick) => Disconnect(r, c, pick)
    case Requested(c) => RequestPrimary(r, c)
  }

  /** Applies the events in order; None when one of them is not allowed. */
  function Run(r: Registry, events: seq<Event>): Option<Registry>
    decreases |events|
  {
    if events == [] then Some(r)
    else if !Allowed(r, events[0]) then None
    else Run(Apply(r, events[0]), events[1..])
  }

  /** Every event keeps both registry invariants. */
  lemma StepKeepsInvariants(r: Registry, e: Event)
    requires Consistent(r) && NoClosedClient(r) && Allowed(r, e)
    ensures Consistent(Apply(r, e)) && NoClosedClient(Apply(r, e))
  {
  }

  /** After any sequence of events from a consistent registry, the registry is
      still consistent and no closed connection is registered. */
  lemma {:induction false} RunKeepsInvariants(r: Registry, events: seq<Event>)
    requires Consistent(r) && NoClosedClient(r)
    ensures Run(r, events).Some? ==> Consistent(Run(r, events).value) && NoClosedClient(Run(r, events).value)
    decreases |events|
  {
    if events != [] && Allowed(r, events[0]) {
      StepKeepsInvariants(r, events[0]);
      RunKeepsInvariants(Apply(r, events[0]), events[1..]);
    }
  }

  /** The isPrimary flag a client receives in its state message. */
  predicate IsPrimary(r: Registry, c: ClientId)
  {
    r.primary == Some(c)
  }

  /** In a consistent registry exactly one registered client is told it is
      primary whenever any client is connected, and none otherwise. */
  lemma ExactlyOnePrimary(r: Registry)
    requires Consistent(r)
    ensures r.clients != {} ==>
      exists p | p in r.clients :: IsPrimary(r, p) && forall q | q in r.clients && IsPrimary(r, q) :: q == p
    ensures r.clients == {} ==> forall q :: !IsPrimary(r, q)
  {
    if r.clients != {} {
      var p := r.primary.value;
      assert p in r.clients && IsPrimary(r, p);
    }
  }

  /** From the registry main starts with, any run of events leaves exactly one
      primary among the connected clients, or none when nobody is connected. */
  lemma ExactlyOnePrimaryAfterAnyRun(events: seq<Event>)
    requires Run(Registry({}, None, {}), events).Some?
    ensures var r := Run(Registry({}, None, {}), events).value;
      && (r.clients != {} ==>
            exists p | p in r.clients :: IsPrimary(r, p) && forall q | q in r.clients && IsPrimary(r, q) :: q == p)
      && (r.clients == {} ==> forall q :: !IsPrimary(r, q))
  {
    RunKeepsInvariants(Registry({}, None, {}), events);
    ExactlyOnePrimary(Run(Registry({}, None, {}), events).value);
  }

  /** The JSON state message sent to one client. The storage locations come from
      the configuration and are not part of this model. */
  datatype StateMessage = StateMessage(isRunning: bool, isRecording: bool, isPrimary: bool,
                                       deviceId: int, chL: int, chR: int, boost: real)

  /** broadcastStateUpdate: every registered client receives the current state,
      with isPrimary set for the primary client alone. */
  function BroadcastStateUpdate(state: AppState): (msgs: map<ClientId, StateMessage>)
    reads state
    ensures msgs.Keys == state.clients
    ensures forall c | c in msgs :: msgs[c].isPrimary <==> IsPrimary(RegistryOf(state), c)
    ensures forall c | c in msgs ::
      && msgs[c].isRunning == state.isRunning && msgs[c].isRecording == state.isRecording
      && msgs[c].deviceId == state.deviceID && msgs[c].boost == state.boost
      && msgs[c].chL == state.chLeft && msgs[c].chR == state.chRight
  {
    map c | c in state.clients ::
      StateMessage(state.isRunning, state.isRecording, state.primaryClient == Some(c),
                   state.deviceID, state.chLeft, state.chRight, state.boost)
  }

  /** A new websocket connection (the upgrade handler). */
  method ClientConnected(state: AppState, c: ClientId) returns (notified: map<ClientId, StateMessage>)
    requires c !in state.clients
    modifies state`clients, state`primaryClient
    ensures RegistryOf(state) == Connect(old(RegistryOf(state)), c)
    ensures notified == BroadcastStateUpdate(state)
  {
    state.clients := state.clients + {c};
    var clientCount := |state.clients|;
    if state.primaryClient == None || clientCount == 1 {
      state.primaryClient := Some(c);
    }
    notified := BroadcastStateUpdate(state);
  }

  /** The read-error path of a client's reader goroutine. The map iteration
      order is arbitrary: `pick` is the key it yielded, returned so that callers
      can name it. */
  method ClientDisconnected(state: AppState, c: ClientId)
    returns (pick: ClientId, notified: map<ClientId, StateMessage>)
    modifies state`clients, state`primaryClient, state`closedConns
    ensures old(state.clients) - {c} != {} ==> pick in old(state.clients) - {c}
    ensures RegistryOf(state) == Disconnect(old(RegistryOf(state)), c, pick)
    ensures notified == BroadcastStateUpdate(state)
  {
    state.clients := state.clients - {c};
    var clientCount := |state.clients|;
    pick := c;
    if state.clients != {} {
      pick :| pick in state.clients;
    }
    if state.primaryClient == Some(c) {
      state.primaryClient := None;
      if state.clients != {} {
        state.primaryClient := Some(pick);
      }
    }
    if clientCount == 1 && state.primaryClient == None {
      state.primaryClient := Some(pick);
    }
    state.closedConns := state.closedConns + {c};
    notified := BroadcastStateUpdate(state);
  }

  /** A "requestPrimary" message from client c. */
  method PrimaryRequested(state: AppState, c: ClientId) returns (notified: map<ClientId, StateMessage>)
    modifies state`clients, state`primaryClient, state`closedConns
    ensures RegistryOf(state) == RequestPrimary(old(RegistryOf(state)), c)
    ensures notified == BroadcastStateUpdate(state)
  {
    var oldPrimary := state.primaryClient;
    state.primaryClient := Some(c);
    if oldPrimary.Some? && oldPrimary.value != c {
      state.closedConns := state.closedConns + {oldPrimary.value};
      state.clients := state.clients - {oldPrimary.value};
    }
    notified := BroadcastStateUpdate(state);
  }
}
