/** The decision part of `build_transport` (crates/services/p2p/src/config.rs): which
    admission gate guards new connections and in which order the upgrade stages are
    stacked on the base transport. The libp2p objects themselves are described by
    values; what the gates and the checksum upgrade do at run time is defined in
    modules that are not part of this model. */
module Transport {
  import opened Wrappers
  import opened P2PConfig

  /** The connection-count registry shared with the peer manager. Its contents and
      their updates belong to the peer manager and the connection tracker, which are
      not part of this model; only its identity matters here. */
  class ConnectionState {
    constructor ()
    {
    }
  }

  /** The admission gate, chosen once per transport. */
  datatype Gate =
    | GuardedNode(reservedNodes: seq<Multiaddr>)
    | ConnectionTracker(reservedNodes: seq<Multiaddr>, connectionState: ConnectionState)

  /** A stream multiplexer configuration. Only the yamux buffer bound is set by the
      node; the rest are the libraries' defaults. */
  datatype Muxer = Yamux(maxBufferSize: USize) | Mplex

  /** One upgrade applied to every inbound and outbound connection. */
  datatype Stage =
    | Authenticate(identity: Keypair, gate: Gate)       // noise XX handshake, then the gate
    | ChecksumUpgrade(checksum: Checksum)                // the network-identity exchange
    | Multiplex(preferred: Muxer, fallback: Muxer)      // negotiated stream multiplexer
    | Timeout(millis: Millis)                           // bound on the whole setup

  /** The upgraded transport: its stages, innermost first. */
  datatype UpgradedTransport = UpgradedTransport(stages: seq<Stage>)

  /** Position a stage must take in the pipeline. Authentication comes first since
      admission needs a verified peer id; the checksum is exchanged before any stream
      is multiplexed; the timeout wraps everything. */
  function Rank(s: Stage): nat
  {
    match s
    case Authenticate(_, _) => 0
    case ChecksumUpgrade(_) => 1
    case Multiplex(_, _) => 2
    case Timeout(_) => 3
  }

  /** One stage of each kind, in rank order. */
  predicate WellOrdered(stages: seq<Stage>)
  {
    && |stages| == 4
    && forall i, j :: 0 <= i < j < |stages| ==> Rank(stages[i]) < Rank(stages[j])
  }

  /** The gate `build_transport` chooses: only reserved peers in reserved-only mode,
      otherwise a connection tracker that shares `state`. */
  function SelectGate(config: Config<Initialized>, state: ConnectionState): (g: Gate)
    ensures g.GuardedNode? <==> config.reservedNodesOnlyMode
    ensures g.ConnectionTracker? <==> !config.reservedNodesOnlyMode
    ensures g.reservedNodes == config.reservedNodes
    ensures g.ConnectionTracker? ==> g.connectionState == state
  {
    if config.reservedNodesOnlyMode then GuardedNode(config.reservedNodes)
    else ConnectionTracker(config.reservedNodes, state)
  }

  /** The multiplexer choice: yamux preferred, with its buffer bounded by the largest
      response, and mplex as the negotiated fallback. */
  const MultiplexConfig: Stage := Multiplex(Yamux(MAX_RESPONSE_SIZE), Mplex)

  /** The stages `build_transport` stacks on the base transport for `config`, with
      `state` the connection state it creates. */
  function Pipeline(config: Config<Initialized>, state: ConnectionState): (t: UpgradedTransport)
    ensures WellOrdered(t.stages)
    ensures t.stages[0].Authenticate? && t.stages[0].identity == config.keypair
    ensures t.stages[0].gate == SelectGate(config, state)
    ensures t.stages[1].ChecksumUpgrade? && t.stages[1].checksum == config.checksum
    ensures t.stages[2].Multiplex? && t.stages[2].preferred.Yamux? && t.stages[2].fallback.Mplex?
    ensures t.stages[2].preferred.maxBufferSize == MAX_RESPONSE_SIZE
    ensures t.stages[3].Timeout? && t.stages[3].millis == TRANSPORT_TIMEOUT == 20_000
  {
    UpgradedTransport([
      Authenticate(config.keypair, SelectGate(config, state)),
      ChecksumUpgrade(config.checksum),
      MultiplexConfig,
      Timeout(TRANSPORT_TIMEOUT)
    ])
  }

  /** `build_transport(p2p_config)`: creates the connection state and returns it with
      the transport built on it. */
  method BuildTransport(config: Config<Initialized>) returns (transport: UpgradedTransport, state: ConnectionState)
    ensures fresh(state)
    ensures transport == Pipeline(config, state)
    ensures !config.reservedNodesOnlyMode ==> transport.stages[0].gate.connectionState == state
  {
    state := new ConnectionState();
    transport := Pipeline(config, state);
  }

  /** The two branches differ in the gate alone: flipping reserved-only mode leaves
      every stage after authentication, and the identity used to authenticate, as
      they were. */
  lemma BranchesDifferOnlyInGate(config: Config<Initialized>, state: ConnectionState)
    ensures var flipped := config.(reservedNodesOnlyMode := !config.reservedNodesOnlyMode);
      var t, u := Pipeline(config, state).stages, Pipeline(flipped, state).stages;
      && t[1..] == u[1..]
      && t[0].identity == u[0].identity
      && t[0].gate != u[0].gate
      && t[0].gate.reservedNodes == u[0].gate.reservedNodes
  {
  }

  /** The checksum a transport exchanges is the genesis root its configuration was
      initialized with; two nodes whose genesis roots differ exchange different
      checksums, so each rejects the other. */
  lemma ChecksumComesFromGenesis<G, E>(u1: Config<NotInitialized>, g1: G, u2: Config<NotInitialized>, g2: G,
                                       root: G -> Result<Checksum, E>, s1: ConnectionState, s2: ConnectionState)
    requires Init(u1, g1, root).Success? && Init(u2, g2, root).Success?
    ensures var t1 := Pipeline(Init(u1, g1, root).value, s1).stages;
      var t2 := Pipeline(Init(u2, g2, root).value, s2).stages;
      && t1[1] == ChecksumUpgrade(root(g1).value)
      && (t1[1] == t2[1] <==> root(g1).value == root(g2).value)
  {
  }
}
