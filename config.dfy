/** The p2p service's configuration record and its two-phase construction
    (crates/services/p2p/src/config.rs). A configuration starts out `NotInitialized`
    with documented defaults; `Init` turns it into an `Initialized` one by computing
    the network checksum from the chain's genesis. Only an initialized configuration
    is accepted by the transport builder (module Transport). */
module P2PConfig {
  import opened Wrappers

  // ---------------------------------------------------------------------------
  // Machine integers and durations
  // ---------------------------------------------------------------------------

  type U16 = x: nat | x < 0x1_0000
  type U32 = x: nat | x < 0x1_0000_0000
  /** `usize` on the 64-bit targets the node is built for. */
  type USize = x: nat | x < 0x1_0000_0000_0000_0000

  /** A `std::time::Duration`, in milliseconds (every duration of the module is a
      whole number of milliseconds). */
  type Millis = nat

  // ---------------------------------------------------------------------------
  // Values produced by code outside this module
  // ---------------------------------------------------------------------------

  /** The node's libp2p identity keypair (secp256k1 key handling is foreign code). */
  type Keypair(==, 00, !new)
  /** A libp2p multi-address. */
  type Multiaddr(==, 00, !new)
  /** A libp2p peer identity. */
  type PeerId(==, 00, !new)
  /** Settings of the gossip protocol, whose defaults live in the gossipsub module. */
  type GossipsubConfig(==, 00, !new)
  /** Settings of the peer heartbeat, whose defaults live in the heartbeat module. */
  type HeartbeatConfig(==, 00, !new)

  /** A byte. */
  type Byte = bv8

  /** The network-identity checksum: 32 bytes derived from the genesis. */
  type Checksum = s: seq<Byte> | |s| == 32 witness ZeroChecksum

  /** The checksum's `Default`: all 32 bytes zero. An uninitialized configuration
      carries it as a placeholder. */
  const ZeroChecksum: seq<Byte> :=
    [0, 0, 0, 0, 0, 0, 0, 0, 0, 0, 0, 0, 0, 0, 0, 0, 0, 0, 0, 0, 0, 0, 0, 0, 0, 0, 0, 0, 0, 0, 0, 0]

  datatype IpAddr = V4(octets: seq<Byte>) | V6(segments: seq<bv16>)

  // ---------------------------------------------------------------------------
  // Constants
  // ---------------------------------------------------------------------------

  /** Timeout of request/response exchanges: 20 s. */
  const REQ_RES_TIMEOUT: Millis := 20_000

  /** Maximum size of a p2p response in bytes: 18 MiB. The ingress proxy's body-size
      limit must agree with it. */
  const MAX_RESPONSE_SIZE: USize := 18 * 1024 * 1024

  /** Maximum number of block headers asked for in one request. */
  const MAX_HEADERS_PER_REQUEST: U32 := 100

  /** Bound on connection setup and protocol upgrades, inbound and outbound: 20 s. */
  const TRANSPORT_TIMEOUT: Millis := 20_000

  // ---------------------------------------------------------------------------
  // The configuration and its two states
  // ---------------------------------------------------------------------------

  /** State of a configuration that has not been through `Init`. */
  datatype NotInitialized = NotInitialized

  /** State of a configuration produced by `Init`. */
  datatype Initialized = Initialized

  /** The configuration record, indexed by its initialization state. */
  datatype Config<State> = Config(
    keypair: Keypair,
    networkName: string,
    checksum: Checksum,
    address: IpAddr,
    publicAddress: Option<Multiaddr>,
    tcpPort: U16,
    maxBlockSize: USize,
    maxHeadersPerRequest: U32,
    bootstrapNodes: seq<Multiaddr>,
    enableMdns: bool,
    allowPrivateAddresses: bool,
    randomWalk: Option<Millis>,
    connectionIdleTimeout: Option<Millis>,
    reservedNodes: seq<Multiaddr>,
    reservedNodesOnlyMode: bool,
    maxPeersConnected: U32,
    maxConnectionsPerPeer: U32,
    identifyInterval: Option<Millis>,
    infoInterval: Option<Millis>,
    gossipsubConfig: GossipsubConfig,
    heartbeatConfig: HeartbeatConfig,
    setRequestTimeout: Millis,
    setConnectionKeepAlive: Millis,
    heartbeatCheckInterval: Millis,
    heartbeatMaxAvgInterval: Millis,
    heartbeatMaxTimeSinceLast: Millis,
    metrics: bool,
    state: State)

  /** The total number of connections the peer manager may hold, as the field
      documentation of `max_peers_connected` states it:
      (max_peers_connected + number of reserved nodes) * max_connections_per_peer. */
  function ConnectionBudget<S>(c: Config<S>): nat
  {
    (c.maxPeersConnected + |c.reservedNodes|) * c.maxConnectionsPerPeer
  }

  /** `a` and `b` agree on every field except the checksum, the average heartbeat
      interval and the state: the fields that `Init` is meant to carry over. */
  ghost predicate SameSettings<S, T>(a: Config<S>, b: Config<T>)
  {
    && a.keypair == b.keypair
    && a.networkName == b.networkName
    && a.address == b.address
    && a.publicAddress == b.publicAddress
    && a.tcpPort == b.tcpPort
    && a.maxBlockSize == b.maxBlockSize
    && a.maxHeadersPerRequest == b.maxHeadersPerRequest
    && a.bootstrapNodes == b.bootstrapNodes
    && a.enableMdns == b.enableMdns
    && a.allowPrivateAddresses == b.allowPrivateAddresses
    && a.randomWalk == b.randomWalk
    && a.connectionIdleTimeout == b.connectionIdleTimeout
    && a.reservedNodes == b.reservedNodes
    && a.reservedNodesOnlyMode == b.reservedNodesOnlyMode
    && a.maxPeersConnected == b.maxPeersConnected
    && a.maxConnectionsPerPeer == b.maxConnectionsPerPeer
    && a.identifyInterval == b.identifyInterval
    && a.infoInterval == b.infoInterval
    && a.gossipsubConfig == b.gossipsubConfig
    && a.heartbeatConfig == b.heartbeatConfig
    && a.setRequestTimeout == b.setRequestTimeout
    && a.setConnectionKeepAlive == b.setConnectionKeepAlive
    && a.heartbeatCheckInterval == b.heartbeatCheckInterval
    && a.heartbeatMaxTimeSinceLast == b.heartbeatMaxTimeSinceLast
    && a.metrics == b.metrics
  }

  /** Heartbeat windows are strictly nested: the check interval is shorter than the
      tolerated average interval, which is shorter than the tolerated silence. */
  predicate NestedHeartbeatWindows<S>(c: Config<S>)
  {
    c.heartbeatCheckInterval < c.heartbeatMaxAvgInterval < c.heartbeatMaxTimeSinceLast
  }

  // ---------------------------------------------------------------------------
  // Construction
  // ---------------------------------------------------------------------------

  /** `Config<NotInitialized>::default(network_name)`. The freshly generated secp256k1
      keypair and the gossipsub and heartbeat defaults come from outside this module
      and are passed in. */
  function Default(networkName: string, keypair: Keypair,
                   gossipsub: GossipsubConfig, heartbeat: HeartbeatConfig): (r: Config<NotInitialized>)
    ensures r.state == NotInitialized && r.checksum == ZeroChecksum
    ensures r.networkName == networkName && r.keypair == keypair
    ensures r.gossipsubConfig == gossipsub && r.heartbeatConfig == heartbeat
    ensures r.address == V4([0, 0, 0, 0]) && r.tcpPort == 0 && r.publicAddress.None?
    ensures r.maxBlockSize == MAX_RESPONSE_SIZE
    ensures r.maxHeadersPerRequest == MAX_HEADERS_PER_REQUEST
    ensures r.bootstrapNodes == [] && r.reservedNodes == [] && !r.reservedNodesOnlyMode
    ensures !r.enableMdns && r.allowPrivateAddresses && !r.metrics
    ensures r.randomWalk == Some(500) && r.connectionIdleTimeout == Some(120_000)
    ensures r.maxPeersConnected == 50 && r.maxConnectionsPerPeer == 3
    ensures ConnectionBudget(r) == 150
    ensures r.setRequestTimeout == r.setConnectionKeepAlive == REQ_RES_TIMEOUT
    ensures r.heartbeatCheckInterval == 10_000
    ensures r.heartbeatMaxAvgInterval == 20_000
    ensures r.heartbeatMaxTimeSinceLast == 40_000
    ensures NestedHeartbeatWindows(r)
    ensures r.infoInterval == Some(3_000) && r.identifyInterval == Some(5_000)
  {
    Config(
      keypair := keypair,
      networkName := networkName,
      checksum := ZeroChecksum,
      address := V4([0, 0, 0, 0]),
      publicAddress := None,
      tcpPort := 0,
      maxBlockSize := MAX_RESPONSE_SIZE,
      maxHeadersPerRequest := MAX_HEADERS_PER_REQUEST,
      bootstrapNodes := [],
      enableMdns := false,
      allowPrivateAddresses := true,
      randomWalk := Some(500),
      connectionIdleTimeout := Some(120_000),
      reservedNodes := [],
      reservedNodesOnlyMode := false,
      maxPeersConnected := 50,
      maxConnectionsPerPeer := 3,
      identifyInterval := Some(5_000),
      infoInterval := Some(3_000),
      gossipsubConfig := gossipsub,
      heartbeatConfig := heartbeat,
      setRequestTimeout := REQ_RES_TIMEOUT,
      setConnectionKeepAlive := REQ_RES_TIMEOUT,
      heartbeatCheckInterval := 10_000,
      heartbeatMaxAvgInterval := 20_000,
      heartbeatMaxTimeSinceLast := 40_000,
      metrics := false,
      state := NotInitialized)
  }

  /** `Config<NotInitialized>::init(genesis)`: the one way to an initialized
      configuration. `root` is the genesis commitment (a hash computed by code outside
      this module); its error is propagated unchanged. The record is rebuilt field by
      field, and the average heartbeat interval receives the input's
      `heartbeat_max_time_since_last`, as the source writes it. */
  function Init<G, E>(self: Config<NotInitialized>, genesis: G,
                      root: G -> Result<Checksum, E>): (r: Result<Config<Initialized>, E>)
    ensures r.Success? <==> root(genesis).Success?
    ensures r.Failure? ==> r.error == root(genesis).error
    ensures r.Success? ==> r.value.checksum == root(genesis).value
    ensures r.Success? ==> SameSettings(self, r.value)
    ensures r.Success? ==> r.value.heartbeatMaxAvgInterval == self.heartbeatMaxTimeSinceLast
  {
    var checksum :- root(genesis);
    Success(Config(
      keypair := self.keypair,
      networkName := self.networkName,
      checksum := checksum,
      address := self.address,
      publicAddress := self.publicAddress,
      tcpPort := self.tcpPort,
      maxBlockSize := self.maxBlockSize,
      maxHeadersPerRequest := self.maxHeadersPerRequest,
      bootstrapNodes := self.bootstrapNodes,
      enableMdns := self.enableMdns,
      allowPrivateAddresses := self.allowPrivateAddresses,
      randomWalk := self.randomWalk,
      connectionIdleTimeout := self.connectionIdleTimeout,
      reservedNodes := self.reservedNodes,
      reservedNodesOnlyMode := self.reservedNodesOnlyMode,
      maxPeersConnected := self.maxPeersConnected,
      maxConnectionsPerPeer := self.maxConnectionsPerPeer,
      identifyInterval := self.identifyInterval,
      infoInterval := self.infoInterval,
      gossipsubConfig := self.gossipsubConfig,
      heartbeatConfig := self.heartbeatConfig,
      setRequestTimeout := self.setRequestTimeout,
      setConnectionKeepAlive := self.setConnectionKeepAlive,
      heartbeatCheckInterval := self.heartbeatCheckInterval,
      heartbeatMaxAvgInterval := self.heartbeatMaxTimeSinceLast,
      heartbeatMaxTimeSinceLast := self.heartbeatMaxTimeSinceLast,
      metrics := self.metrics,
      state := Initialized))
  }

  /** `Config<Initialized>::default_initialized(network_name)`, a test helper: the
      default configuration initialized with the default genesis. The source panics
      (`expect`) when the default genesis has no root; the precondition excludes that. */
  function DefaultInitialized<G, E>(networkName: string, keypair: Keypair,
                                    gossipsub: GossipsubConfig, heartbeat: HeartbeatConfig,
                                    defaultGenesis: G, root: G -> Result<Checksum, E>): (r: Config<Initialized>)
    requires root(defaultGenesis).Success?
    ensures r.checksum == root(defaultGenesis).value
    ensures SameSettings(Default(networkName, keypair, gossipsub, heartbeat), r)
    ensures r.heartbeatMaxAvgInterval == 40_000 && !NestedHeartbeatWindows(r)
  {
    Init(Default(networkName, keypair, gossipsub, heartbeat), defaultGenesis, root).value
  }

  // ---------------------------------------------------------------------------
  // Properties of Init
  // ---------------------------------------------------------------------------

  /** Whatever the input, an initialized configuration has equal average and maximum
      heartbeat intervals, so `Init` never keeps the heartbeat windows nested, even
      when the input's were (as the defaults' are). */
  lemma InitCollapsesHeartbeatWindows<G, E>(self: Config<NotInitialized>, genesis: G,
                                            root: G -> Result<Checksum, E>)
    requires Init(self, genesis, root).Success?
    ensures var c := Init(self, genesis, root).value;
      c.heartbeatMaxAvgInterval == c.heartbeatMaxTimeSinceLast && !NestedHeartbeatWindows(c)
  {
  }

  /** `Init` keeps every documented default except the average heartbeat interval, which
      grows from 20 s to 40 s. */
  lemma DefaultThenInit<G, E>(networkName: string, keypair: Keypair,
                              gossipsub: GossipsubConfig, heartbeat: HeartbeatConfig,
                              genesis: G, root: G -> Result<Checksum, E>)
    requires root(genesis).Success?
    ensures var d := Default(networkName, keypair, gossipsub, heartbeat);
      var c := Init(d, genesis, root).value;
      && c.checksum == root(genesis).value
      && (c.checksum != d.checksum <==> root(genesis).value != ZeroChecksum)
      && ConnectionBudget(c) == ConnectionBudget(d) == 150
      && c.heartbeatMaxAvgInterval == 2 * d.heartbeatMaxAvgInterval
  {
  }

  /** Initialization is a function of the genesis root alone: two genesis values with
      the same root give the same initialized configuration, and roots that differ give
      configurations that differ in their checksum and nowhere else. */
  lemma InitDependsOnlyOnRoot<G, E>(self: Config<NotInitialized>, g1: G, g2: G,
                                    root: G -> Result<Checksum, E>)
    requires root(g1).Success? && root(g2).Success?
    ensures var c1, c2 := Init(self, g1, root).value, Init(self, g2, root).value;
      && (c1 == c2 <==> root(g1).value == root(g2).value)
      && c1.(checksum := c2.checksum) == c2
  {
  }
}
