# fuel-core p2p configuration and transport selection, in Dafny

This project models the configuration core of fuel-core's p2p service, in
`crates/services/p2p/src/config.rs`. The model covers four parts:

- **The configuration record and its typestate.** `Config<State>` holds the node's
  identity keypair, network name, listen address and port, size limits, bootstrap
  and reserved peer addresses, reserved-only flag, peer and connection limits,
  timeouts and metrics flag.
  - `Default` builds a `Config<NotInitialized>` with the documented defaults and a
    zeroed placeholder checksum.
  - `Init` is the step to `Config<Initialized>`. It computes the checksum from the
    genesis commitment (`root`) and propagates that function's error. It rebuilds the
    record field by field. As the source writes it, the average heartbeat interval
    receives the input's `heartbeat_max_time_since_last`. The model keeps this:
    `DefaultThenInit` and `InitCollapsesHeartbeatWindows` show that the documented
    20 s default becomes 40 s after initialization.
- **Constants.** `MAX_RESPONSE_SIZE` (18 MiB), `MAX_HEADERS_PER_REQUEST` (100),
  `TRANSPORT_TIMEOUT` and `REQ_RES_TIMEOUT` (both 20 s).
- **Peer-id extraction.** `PeerIdsSetFrom` collects the peer ids embedded in a list of
  addresses. The source panics at the first address without a peer id. The model
  returns that as a `MissingPeerId` failure naming the address and its index.
- **Transport selection.** `Pipeline` describes the decision `build_transport` makes.
  The gate is `GuardedNode` in reserved-only mode and otherwise a `ConnectionTracker`
  that shares the freshly created connection state. The stages follow in this order:
  authentication, the checksum upgrade, multiplexing (yamux first, with an 18 MiB
  buffer, then mplex), and the 20 s timeout. `BuildTransport` allocates the
  connection state. The returned state and the tracker's state are one object.

Some inputs come from code outside this model, so the model takes them as
parameters:

- the genesis commitment `root`, as a function from genesis to checksum or error;
- libp2p's `PeerId::try_from_multiaddr`, as a function from address to optional id;
- the freshly generated keypair;
- the gossipsub and heartbeat defaults.

Keypairs, addresses, peer ids and the gossipsub and heartbeat settings are opaque
types. Durations are whole milliseconds.

Files: `wrappers.dfy` (Option, Result), `config.dfy` (module P2PConfig),
`peer_ids.dfy` (module PeerIds), `transport.dfy` (module Transport).

## Model

| member | source | states |
|---|---|---|
| `P2PConfig.Default` | crates/services/p2p/src/config.rs:205-239 | The result is `NotInitialized` with the zero placeholder checksum. It carries the given name and keypair, address 0.0.0.0, port 0, no public address, `max_block_size = MAX_RESPONSE_SIZE`, `max_headers_per_request = MAX_HEADERS_PER_REQUEST` and empty reserved and bootstrap lists. Reserved-only mode is off, with 50 peers and 3 connections per peer (a connection budget of 150). Both request timeouts equal `REQ_RES_TIMEOUT`. The heartbeat windows are 10 s < 20 s < 40 s. Every other documented default is stated too. |
| `P2PConfig.Init` | crates/services/p2p/src/config.rs:157-192 | Succeeds iff `root(genesis)` succeeds. A failure carries `root`'s own error. On success the checksum is the root. Every field other than checksum, state and average heartbeat interval is unchanged. The average heartbeat interval is the input's `heartbeat_max_time_since_last`. |
| `P2PConfig.DefaultInitialized` | crates/services/p2p/src/config.rs:242-249 | When the default genesis has a root, the result carries that root as checksum and keeps every default setting. Its average heartbeat interval is 40 s, so its heartbeat windows are no longer nested. |
| `P2PConfig.InitCollapsesHeartbeatWindows` | crates/services/p2p/src/config.rs:186-188 | After any successful `Init`, the average and maximum heartbeat intervals are equal, so the windows are never strictly nested. |
| `P2PConfig.DefaultThenInit` | crates/services/p2p/src/config.rs:159-191 | Initializing the default configuration sets the checksum to the root. It differs from the placeholder iff the root is non-zero. The connection budget of 150 is kept. The average heartbeat interval doubles from 20 s to 40 s. |
| `P2PConfig.InitDependsOnlyOnRoot` | crates/services/p2p/src/config.rs:165 | Two genesis values give equal initialized configurations iff their roots are equal. The two configurations differ only in the checksum. |
| `PeerIds.PeerIdsSetFrom` | crates/services/p2p/src/config.rs:323-330 | Succeeds iff every address carries a peer id. On success the result is exactly the set of extracted ids, and its size is at most the number of addresses. On failure it names the first address without an id and that address's index. |
| `PeerIds.FailureIsFirstMissing` | crates/services/p2p/src/config.rs:326-328 | If address k has no id and every earlier address has one, the extraction fails at exactly k with that address. |
| `PeerIds.DuplicateAddressCollapses` | crates/services/p2p/src/config.rs:328-329 | Appending an address that is already listed leaves the result unchanged, both when the extraction succeeds and when it fails. |
| `PeerIds.SameAddressesSameIds` | crates/services/p2p/src/config.rs:323-330 | Two lists holding the same addresses, in any order and multiplicity, give the same result when every address carries an id. |
| `PeerIds.MembershipIff` | crates/services/p2p/src/config.rs:323-330 | On success, a peer id is in the result iff some listed address embeds it. |
| `Transport.SelectGate` | crates/services/p2p/src/config.rs:293-310 | The gate is `GuardedNode` iff reserved-only mode is on, and `ConnectionTracker` iff it is off. Both are built from the configured reserved nodes. The tracker holds the given connection state. |
| `Transport.Pipeline` | crates/services/p2p/src/config.rs:282-318 | Exactly four stages, strictly in this order: authenticate, checksum upgrade, multiplex, timeout. Authentication uses the config's keypair and the selected gate. The checksum upgrade carries the config's checksum. Multiplexing prefers yamux with buffer `MAX_RESPONSE_SIZE` and falls back to mplex. The timeout is `TRANSPORT_TIMEOUT` (20 s). |
| `Transport.BuildTransport` | crates/services/p2p/src/config.rs:255-321 | The returned connection state is newly allocated. The transport is the pipeline for the config. Without reserved-only mode, the tracker's connection state is the returned object. |
| `Transport.BranchesDifferOnlyInGate` | crates/services/p2p/src/config.rs:293-318 | Flipping reserved-only mode changes the gate and nothing else. Every later stage, the authenticating identity and the reserved nodes given to the gate stay the same. |
| `Transport.ChecksumComesFromGenesis` | crates/services/p2p/src/config.rs:290 | The checksum stage of an initialized configuration carries its genesis root. Two nodes' checksum stages are equal iff their genesis roots are equal. |

## Left out

- The privacy of `Initialized(())` cannot be expressed in this model, because the model has no export sets. Any Dafny code can build an `Initialized` value. The model does show that `Default` yields only `NotInitialized`, `Init` yields only `Initialized`, and only an `Initialized` configuration is accepted by `Pipeline` and `BuildTransport`.
- The libp2p transport stack is left out because it is foreign-library plumbing and network I/O. This covers TCP with port reuse and no-delay, websocket, DNS resolution, the version-1 upgrade, noise key generation and its panic, and `.boxed()`. The model keeps only the identity keypair that authentication uses.
- The behaviour of `GuardedNode`, `ConnectionTracker`, `FuelAuthenticated` and `FuelUpgrade` is not part of this model, since their code is not shown. This includes admission counting, the reserved-only check and the checksum exchange. The gates and stages appear only as the values they are built from.
- `ConnectionState` is kept only as an object identity. Its counts, its `Arc<RwLock<…>>` locking and the enforcement of the timeout are left out: they are concurrency and asynchronous I/O.
- The genesis commitment (`root`, a SHA-256 hash), `PeerId::try_from_multiaddr`, `convert_to_libp2p_keypair` and `Keypair::generate_secp256k1` are cryptographic or parsing code in other libraries. The first two are function parameters and the generated keypair is a parameter of `Default`; `convert_to_libp2p_keypair` is not modelled.
- `default_gossipsub_config()` and `HeartbeatConfig::default()` are not part of this model. Their results are opaque parameters of `Default`.
- The checksum type is defined in `fuel_upgrade`, which is not part of this model. It is taken to be 32 bytes with an all-zero `Default`.
- Durations are whole milliseconds, not seconds plus nanoseconds. Every duration the module uses is a whole number of milliseconds.
