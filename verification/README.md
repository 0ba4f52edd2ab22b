# Cosmos-SDK event source for Voyager, in Dafny

This project models the Cosmos-SDK event-source plugin of the Voyager relayer. The plugin watches one Cosmos-SDK chain. It walks the chain block by block, pages through each block's transactions, and turns every IBC event it finds into a canonical `ChainEvent`. To build that event it reads client, connection and channel state through the Voyager RPC client. The project also models two decoders the plugin's ecosystem relies on:

- the commitment `MerkleRoot`, which must hold a 32-byte hash;
- the Tendermint light client's `ConsensusState`, with its protobuf and Solidity-ABI encodings.

Chain, gRPC and Voyager queries are oracle functions stored in datatypes. `Chain.VoyagerClient` holds the state queries, and `Chain.Node` holds `tx_search`, the latest commit and the wasm code query. The native event parser is the opaque partial function `Chain.EventParser`.

A call ends in one of three ways, given by `Chain.Outcome`:

- `Done` with a value;
- `Fail` with an RPC error, which the host may retry;
- `Panic`, which aborts the branch. It covers `panic!`, `unwrap`, `expect`, `unreachable!` and arithmetic overflow. Overflow is taken to panic, as it does when overflow checks are on.

The `Op` tree that a step emits is a plain datatype, `Voyager.Op`, with four constructors: call, data, seq and conc. The model states what each step emits. It does not model how the scheduler evaluates the tree.

Modules follow the source:

| module | file | models |
|---|---|---|
| `Outcomes`, `Bytes`, `Integers` | outcomes.dfy, bytes.dfy, integers.dfy | `Option`, `Result`; bytes, `H256`, `InvalidLength`; the `u32` and `u64` ranges |
| `Commitment` | merkle_root.dfy | `merkle_root.rs` |
| `Timestamps` | timestamp.dfy | the parts of `Timestamp` the consensus state uses |
| `TendermintConsensus` | consensus_state.dfy | `consensus_state.rs` |
| `Ibc`, `IbcClassic`, `IbcUnion`, `IbcEvents` | ibc*.dfy | heights, both IBC vocabularies, the native `IbcEvent` |
| `Voyager`, `Chain` | voyager.dfy, chain.dfy | `Op`, `ChainEvent`, `ModuleCall`; errors, outcomes, oracles |
| `ChainRevision`, `EventSource` | chain_revision.dfy, event_source.dfy | `Module`, revision parsing, `make_height`, `latest_height` |
| `Pass` | run_pass.dfy | `run_pass` |
| `Fetch` | fetch.dfy | the `FetchBlocks` and `FetchTransactions` arms of `call` |
| `PacketMetadataBuilder` | packet_metadata.dfy | `make_packet_metadata` |
| `Canonicalise` | make_chain_event.dfy | the `MakeChainEvent` arm of `call` |
| `ChecksumCache` | checksum_cache.dfy | `client_type_of_checksum` |
| `Dispatch` | call.dfy | `call` as a whole |

In the source, the native `IbcEvent` is one flat enum. Here it is split into `Classic(ClassicEvent)` and `Union(UnionEvent)`, one arm per vocabulary. Every variant keeps its fields. The flat packet fields (`packet_src_port`, `packet_dst_channel`, `packet_timeout_height` and the others) are grouped into `NativePacket`, and those of the union `PacketSend` into `UnionPacket`.

Two behaviours of the code are easy to misread:

- **`ClientMisbehaviour`.** It goes to the client-level arm together with `CreateClient` and `UpdateClient`, and both client queries run. The inner match has no case for it, so it then reaches `unreachable!("who needs flow typing")`. It never yields an event: see `Canonicalise.MisbehaviourNeverEmits`.
- **Send and Recv channels.** Both a `SendPacket` and a `RecvPacket` put the packet's source port and channel in `source_channel`, and its destination port and channel in `destination_channel`. So a packet's Send and Recv agree on both ends. A Send's `source_channel.channel_id` equals the Recv's `destination_channel.channel_id` only when the two chains use the same channel id. See `Canonicalise.SendRecvAgree`.

## Model

| member | source | states |
|---|---|---|
| Bytes.ToH256 | lib/unionlabs/src/ibc/core/commitment/merkle_root.rs:37-41 | Bytes become an `H256` iff there are exactly 32 of them, unchanged. Otherwise the error is `InvalidLength { expected: 32, found }`. |
| Commitment.FromProto | lib/unionlabs/src/ibc/core/commitment/merkle_root.rs:27-44 | Decoding succeeds iff the proto hash is 32 bytes, and keeps those bytes. Any other length fails with `Hash(InvalidLength(32, len))`. |
| Commitment.ToProto | lib/unionlabs/src/ibc/core/commitment/merkle_root.rs:19-25 | The encoding carries exactly the root's 32 hash bytes, and decoding it gives the root back. |
| Commitment.DecodeThenEncode | lib/unionlabs/src/ibc/core/commitment/merkle_root.rs:19-44 | Encoding a successfully decoded proto root reproduces the proto root. |
| Commitment.FromHashDecodes | lib/unionlabs/src/ibc/core/commitment/merkle_root.rs:13-17 | `From<H256>` wraps the hash unchanged, and agrees with decoding those bytes. |
| Timestamps.ToProto | lib/tendermint-light-client-types/src/consensus_state.rs:96 | The proto timestamp is in range: seconds non-negative, nanos in [0, 10^9), and the total fits `u64`. Seconds and nanos recombine to the same instant. |
| Timestamps.FromProto | lib/tendermint-light-client-types/src/consensus_state.rs:74 | Conversion succeeds iff the proto timestamp is in range, and then denotes the same instant. |
| Timestamps.ProtoRoundTrip | lib/tendermint-light-client-types/src/consensus_state.rs:74-96 | Timestamp to proto and back is the identity. |
| Timestamps.ProtoRoundTripBack | lib/tendermint-light-client-types/src/consensus_state.rs:74-96 | An in-range proto timestamp survives conversion and back unchanged. |
| Timestamps.FromUnixNanos | lib/tendermint-light-client-types/src/consensus_state.rs:45-46 | Every `u64` of nanoseconds is a timestamp, so the `expect("impossible")` cannot fire. The timestamp reads back as the same nanos. |
| TendermintConsensus.Required | lib/tendermint-light-client-types/src/consensus_state.rs:74-75 | `required!`: a present field is its value, and an absent one is `MissingField` naming that field. |
| TendermintConsensus.FromProto | lib/tendermint-light-client-types/src/consensus_state.rs:67-91 | Fields are checked in order: timestamp missing, then timestamp invalid, then root missing, then root length, then next-validators-hash length. The first failure decides the error. Decoding succeeds iff all pass, and the decoded value re-encodes to the input. |
| TendermintConsensus.ToProto | lib/tendermint-light-client-types/src/consensus_state.rs:93-101 | Encoding always sets `timestamp` and `root`, and copies the root and next-validators-hash bytes. |
| TendermintConsensus.ProtoRoundTrip | lib/tendermint-light-client-types/src/consensus_state.rs:67-101 | Decoding the proto encoding of any consensus state returns it. |
| TendermintConsensus.ToSol | lib/tendermint-light-client-types/src/consensus_state.rs:32-40 | The ABI struct holds the timestamp as unix nanos and the two hashes as `bytes32`, and decodes back to the same state. |
| TendermintConsensus.FromSol | lib/tendermint-light-client-types/src/consensus_state.rs:42-51 | ABI decoding is total. It rebuilds the root with `From<H256>`, the next-validators hash, and a timestamp with the given nanos. |
| TendermintConsensus.SolRoundTrip | lib/tendermint-light-client-types/src/consensus_state.rs:32-51 | ABI struct to state and back is the identity. |
| ChainRevision.SplitOn | voyager/plugins/event-source/cosmos-sdk/src/main.rs:102-103 | `split('-')` gives at least one piece. No piece contains a dash, and joining the pieces with dashes restores the input. |
| ChainRevision.SplitAround | voyager/plugins/event-source/cosmos-sdk/src/main.rs:102-103 | Splitting `x-y` is splitting `x` followed by splitting `y`. |
| ChainRevision.Last | voyager/plugins/event-source/cosmos-sdk/src/main.rs:104 | `last()` is `None` iff the sequence is empty, and otherwise the final element. |
| ChainRevision.ParseU64 | voyager/plugins/event-source/cosmos-sdk/src/main.rs:109 | `str::parse::<u64>`: an empty string is `Empty`. Otherwise parsing succeeds iff the text is all digits (after at most one `+`, when more follows) and the value fits `u64`, and the result is that value. |
| ChainRevision.ParseDigitsMeaning | voyager/plugins/event-source/cosmos-sdk/src/main.rs:109 | The left-to-right digit fold is right exactly when the digits are valid and the value fits `u64`. |
| ChainRevision.Decimal | voyager/plugins/event-source/cosmos-sdk/src/main.rs:102-109 | A number's rendering is a non-empty digit string with no sign and no dash. |
| ChainRevision.ParseDecimal | voyager/plugins/event-source/cosmos-sdk/src/main.rs:109 | Parsing the rendering of any `u64` gives it back. |
| ChainRevision.ParseChainRevision | voyager/plugins/event-source/cosmos-sdk/src/main.rs:102-113 | The revision is the `u64` value of the text after the last dash, or of the whole id if there is no dash. Failure reports the chain id and always has a parse error as its source, because `last()` cannot be `None`. |
| ChainRevision.RevisionOfFormattedChainId | voyager/plugins/event-source/cosmos-sdk/src/main.rs:102-113 | `<name>-<n>` has revision `n` for every name, dashes included, and every `u64` `n`. |
| EventSource.New | voyager/plugins/event-source/cosmos-sdk/src/main.rs:97-121 | Construction succeeds iff the network's chain id has a revision suffix, and then records that chain id, revision and gRPC URL. On failure the parser's error is passed through unchanged and names the chain id. |
| EventSource.NewFromFormattedChainId | voyager/plugins/event-source/cosmos-sdk/src/main.rs:97-121 | A node reporting `<name>-<n>` yields a plugin at revision `n`. |
| EventSource.PluginName | voyager/plugins/event-source/cosmos-sdk/src/main.rs:144-153 | The plugin's name is `<crate name>/<chain id>`, and both parts can be read back from it. |
| EventSource.PluginNamesDistinct | voyager/plugins/event-source/cosmos-sdk/src/main.rs:144-153 | Two plugins from one crate have the same name iff they watch the same chain, so a self-addressed call never reaches another chain's plugin. |
| EventSource.MakeHeight | voyager/plugins/event-source/cosmos-sdk/src/main.rs:156-158 | A block number becomes a height of the plugin's current revision. |
| EventSource.LatestHeight | voyager/plugins/event-source/cosmos-sdk/src/main.rs:314-333 | The latest height is the commit's height, one less when the commit is not canonical, always at the plugin's revision. It fails iff the commit query fails, with that error. It panics iff the height is negative or is 0 on a non-canonical commit. |
| Pass.Rewrite | voyager/plugins/event-source/cosmos-sdk/src/main.rs:454-464 | A `FetchBlocks` request for this chain becomes this plugin's `FetchBlocks` from the start height. Anything else is returned as is. |
| Pass.RunPass | voyager/plugins/event-source/cosmos-sdk/src/main.rs:445-469 | One ready entry per input op, at path `[i]` in input order, and nothing to optimise further. Only this chain's `FetchBlocks` requests are rewritten. |
| Pass.RunPassIdempotent | voyager/plugins/event-source/cosmos-sdk/src/main.rs:445-469 | A second pass over a pass's output changes nothing. |
| Fetch.FetchBlocksStep | voyager/plugins/event-source/cosmos-sdk/src/main.rs:550-572 | `FetchBlocks(h)` runs two branches in parallel: page 1 of block `h`, and a sequence that waits for `h+1` to be finalized on this chain and then fetches from `h+1`. |
| Fetch.BlocksFetchedInOrder | voyager/plugins/event-source/cosmos-sdk/src/main.rs:550-572 | Following the gated successors, `n` steps from `h` fetch blocks `h, h+1, …, h+n-1` of the same revision, in order. |
| Fetch.Collect | voyager/plugins/event-source/cosmos-sdk/src/main.rs:502-522 | Collecting a page's events succeeds iff no event fails to parse, and then gives the recognised IBC events in order, each with its own transaction's hash. On failure the error is some event's parse error. |
| Fetch.EventCalls | voyager/plugins/event-source/cosmos-sdk/src/main.rs:524-535 | One `MakeChainEvent` call per recognised event, at the page's height, with the event's transaction hash. |
| Fetch.NextPage | voyager/plugins/event-source/cosmos-sdk/src/main.rs:537-546 | With `PER_PAGE_LIMIT` = 10, `page * 10` overflows `u32` iff the step panics. Otherwise there is a next page iff `page * 10 < total_count`, and it is `page + 1`, still a valid `u32`. |
| Fetch.FetchTransactionsStep | voyager/plugins/event-source/cosmos-sdk/src/main.rs:484-549 | A failed search fails the step. A page with an unparseable event fails with no calls emitted. Otherwise the step emits one `MakeChainEvent` per recognised event, then the next page iff `page * 10 < total_count`. |
| Fetch.RequestedPages | voyager/plugins/event-source/cosmos-sdk/src/main.rs:537-546 | Starting from page 1, page `p` is requested iff `1 <= p <= ceil(total/10)`, with at least one page. |
| Fetch.TwentyFiveTransactionsThreePages | voyager/plugins/event-source/cosmos-sdk/src/main.rs:537-546 | With 25 transactions, pages 1, 2 and 3 are requested and page 4 is not. |
| Fetch.PagesCoverBlock | voyager/plugins/event-source/cosmos-sdk/src/main.rs:486-496 | The requested pages, concatenated, are exactly the block's transactions. |
| Fetch.PageContributes | voyager/plugins/event-source/cosmos-sdk/src/main.rs:484-549 | Against a node serving a block in pages of 10, page `p`'s event calls are those of its slice of the block. |
| Fetch.PagesPrefixFetched | voyager/plugins/event-source/cosmos-sdk/src/main.rs:484-549 | The event calls of pages 1..n are those of the block's first n pages. |
| Fetch.BlockFullyFetched | voyager/plugins/event-source/cosmos-sdk/src/main.rs:484-549 | Paging through a whole block emits exactly one `MakeChainEvent` per IBC event of the block, in order, and nothing else. |
| Chain.Lift | voyager/plugins/event-source/cosmos-sdk/src/main.rs:353-361 | A query's `?`: an `Ok` gives its value, and an `Err` ends the call with that error. |
| Chain.Required | voyager/plugins/event-source/cosmos-sdk/src/main.rs:353-362 | `.state.ok_or_else(missing_state(message, None))?`: present state is its value, and absent state is the retryable `MissingState(message)`. |
| Chain.Unwrap | voyager/plugins/event-source/cosmos-sdk/src/main.rs:1253-1263 | `.state.unwrap()`: present state is its value, and absent state panics. |
| PacketMetadataBuilder.MakePacketMetadata | voyager/plugins/event-source/cosmos-sdk/src/main.rs:336-431 | The self side uses the self port/channel, this chain's channel version at the event height, and the self connection's client and id. The other side uses the other port/channel, the counterparty channel's version at its latest height, and the connection's counterparty ids. The ordering comes from this chain's channel and the counterparty chain from the client meta. The lookups run in source order: connection, client info, client meta, this channel, counterparty channel. The first to fail decides the outcome: a query error is returned as is, and a missing connection or channel on either side is `MissingState`. With all five found, it panics iff the counterparty connection id is unset, and otherwise succeeds. |
| Canonicalise.ClientLevelEvent | voyager/plugins/event-source/cosmos-sdk/src/main.rs:616-670 | Client and connection events map field for field to their canonical forms. `ClientMisbehaviour` has none, and reaches `unreachable!`. |
| Canonicalise.ClassicClientEvent | voyager/plugins/event-source/cosmos-sdk/src/main.rs:588-671 | Client-level events are resolved through their own client id at the event height. The call succeeds iff the event is not misbehaviour and both client lookups succeed. A failed lookup's error is returned as is. A misbehaviour event is looked up and then panics, and nothing else panics. |
| Canonicalise.ChannelOpenInitOrTry | voyager/plugins/event-source/cosmos-sdk/src/main.rs:673-739 | The connection named by the event, read at the event height, is embedded, and its client resolves the event. It succeeds iff the connection exists and both client lookups succeed. A query error is returned as is, a missing connection is `MissingState`, and it never panics. |
| Canonicalise.ChannelOpenAckOrConfirm | voyager/plugins/event-source/cosmos-sdk/src/main.rs:740-825 | As for Init/Try, and the version is that of this chain's channel end at the event height. It succeeds iff the connection resolves and the channel exists. The channel is read last: its query error is returned as is, and its absence is `MissingState`. It never panics. |
| Canonicalise.PacketEvent | voyager/plugins/event-source/cosmos-sdk/src/main.rs:826-1036 | The canonical packet always runs from the native source port/channel to the native destination. This chain's end is the source for Send, Timeout and Acknowledge, and the destination for Recv and WriteAcknowledgement. That end carries the event's connection and its client, and this chain's channel version and ordering. It succeeds iff every lookup of `make_packet_metadata` finds its state, in the roles the direction gives. Otherwise it ends exactly as that lookup does, so it panics only on an unset counterparty connection id. |
| Canonicalise.UnionClientEvent | voyager/plugins/event-source/cosmos-sdk/src/main.rs:1037-1249 | Union client and connection events succeed iff both lookups of their own client succeed. `UpdateClient` takes its client type from the client info. A failed lookup's error is returned as is, and nothing panics. |
| Canonicalise.UnionChannelOpenTryEvent | voyager/plugins/event-source/cosmos-sdk/src/main.rs:1250-1299 | The named connection is embedded and its client resolves the event. It succeeds iff the connection exists and both client lookups succeed. A query error is returned as is, and a missing connection panics through `unwrap`. |
| Canonicalise.UnionChannelOpenConfirmEvent | voyager/plugins/event-source/cosmos-sdk/src/main.rs:1300-1361 | The version is that of this chain's channel. The named connection is embedded and its client resolves the event. It succeeds iff the channel and connection exist and both client lookups succeed. Lookups run channel first: a query error is returned as is, and missing state panics through `unwrap`. |
| Canonicalise.UnionSendPacketEvent | voyager/plugins/event-source/cosmos-sdk/src/main.rs:1362-1438 | The source end is the packet's source channel, its version, and its connection. The destination end is the packet's destination channel, with the source channel's version and the connection's counterparty ids. It succeeds iff the source channel and its connection exist and both client lookups succeed. A query error is returned as is, and missing state panics through `unwrap`. |
| Canonicalise.MakeChainEvent | voyager/plugins/event-source/cosmos-sdk/src/main.rs:573-1442 | Every event produced has this chain's id, `provable_height = height + 1` and the transaction's hash. Its specification id matches the native event's vocabulary. It corresponds field for field to the native event. The call succeeds iff `Canonicalise.Emits` holds: the event is neither evidence nor misbehaviour, and every lookup its kind needs finds its state. `SubmitEvidence` panics. A classic event panics only on evidence, on misbehaviour, or on an unset counterparty connection id. A union event panics only on absent state. |
| Canonicalise.ResolvedThroughOwnClient | voyager/plugins/event-source/cosmos-sdk/src/main.rs:573-1442 | The client info and counterparty chain id of every produced event come from one client of this chain, looked up at the event height. |
| Canonicalise.SendRecvAgree | voyager/plugins/event-source/cosmos-sdk/src/main.rs:827-1036 | A packet's Send and its Recv agree on sequence, source end and destination end, even though each chain's event names its own connection. Send's source channel equals Recv's destination channel iff the two channel ids coincide. |
| Canonicalise.PacketEndsFollowDirection | voyager/plugins/event-source/cosmos-sdk/src/main.rs:827-1036 | The end that carries the event's own connection is the source for outbound packets and the destination for inbound ones. |
| Canonicalise.MissingConnectionHandling | voyager/plugins/event-source/cosmos-sdk/src/main.rs:673-1325 | A missing connection is a retryable `MissingState` error in all four classic channel-handshake events (Init, Try, Ack, Confirm). In the union handshake it panics: in `ChannelOpenTry`, and in `ChannelOpenConfirm` once its channel is found. |
| Canonicalise.MisbehaviourNeverEmits | voyager/plugins/event-source/cosmos-sdk/src/main.rs:588-671 | `ClientMisbehaviour` never yields an event. Once its client lookups succeed, it panics. |
| ChecksumCache.ClientTypeOfChecksum | voyager/plugins/event-source/cosmos-sdk/src/main.rs:160-223 | A hit answers from the cache without a query. Connect and query failures are errors that cache nothing. Only a parsed client type is cached and returned. No type, or a parse error, is `Ok(None)` and the cache is left unchanged. |
| ChecksumCache.LookupKeepsCacheSound | voyager/plugins/event-source/cosmos-sdk/src/main.rs:160-223 | A lookup only adds entries, and every entry is what the node's code for that checksum parses to. |
| ChecksumCache.CacheIsTransparent | voyager/plugins/event-source/cosmos-sdk/src/main.rs:160-223 | With a sound cache, the answer equals the node's own answer without a cache. |
| ChecksumCache.SecondLookupHits | voyager/plugins/event-source/cosmos-sdk/src/main.rs:160-205 | After a checksum resolves to a type, asking again is a cache hit with the same answer. |
| ChecksumCache.MissesAreRetried | voyager/plugins/event-source/cosmos-sdk/src/main.rs:170-222 | After an error or a "none", the same checksum is queried again. |
| ChecksumCache.ResolveAll | voyager/plugins/event-source/cosmos-sdk/src/main.rs:160-223 | Resolving a batch through the shared cache gives the node's answer for each checksum. It keeps the cache sound, and the cache gains exactly the checksums that resolved. The node is queried exactly for the lookups that neither the starting cache nor an earlier lookup in the batch answers (`ChecksumCache.QueriesNeeded`). So repeating one resolving checksum costs at most one query, and nothing is queried when every checksum is cached. |
| ChecksumCache.RepeatedChecksumQueriedOnce | voyager/plugins/event-source/cosmos-sdk/src/main.rs:160-205 | Any number of lookups of one checksum that resolves to a client type need at most one query. |
| Dispatch.Call | voyager/plugins/event-source/cosmos-sdk/src/main.rs:482-1445 | Everything `call` emits stays within the plugin: calls to itself, waits on its own chain, and events of its own chain. `FetchBlocks` never fails. `FetchTransactions` fails only with its own height's search or parse error. `MakeChainEvent` succeeds iff canonicalisation does, and returns the event as data. |

## Left out

- I/O and process setup are not modelled: the CometBFT websocket client, `Plugin::new`'s network calls, `cmd`, `info`, the jq interest filter, `tokio::main`, logging and `dbg!`. `Module::new` is modelled from the point where the node's network name is known.
- `checksum_of_client_id` (main.rs, from line 226) is gRPC and protobuf plumbing with a type-URL assertion, and is not modelled.
- `e.try_get::<VoyagerClient>()` is not modelled: the client is a parameter. `into_value` JSON serialisation is the identity here, and error-message formatting is reduced to structured `RpcError` values.
- `IbcEvent::try_from_tendermint_event` is defined outside these files. It is the opaque parser `Chain.EventParser`, and the `tx_search` query string is reduced to the block number.
- `parse_wasm_client_type` and the wasm `WasmClientType` variants are opaque (`ChecksumCache.WasmParser`). The `DashMap`/`Arc` sharing is a plain map threaded through calls, with no concurrency.
- The `voyager_vm` evaluator and the semantics of `seq`/`conc` are not modelled. Only the shape of the `Op` each step emits is.
- `Timestamp` internals are abstract: a timestamp is a `u64` of unix nanoseconds, and the proto conversion succeeds exactly on the representable range. Base64 and hex encodings, and the `required!` and proto-conversion macros, are reduced to what they check.
- The ethereum `call.rs` types and the `galoisd` circuit are outside this model.
- Arithmetic overflow is taken to panic, as it does when overflow checks are on. A build with overflow checks off would wrap `height -= 1` in `latest_height` and `page * PER_PAGE_LIMIT` instead.
- Ibc.Height: `increment` does not model `u64` overflow of the block height; heights are unbounded naturals.
- Fetch.BlockFullyFetched: stated for blocks whose last page number times 10 fits `u32`. For `total_count` above 4294967290 the last page's `page * 10` overflows and the step panics (`Fetch.NextPage` states that panic).
- Fetch.FetchTransactionsStep: the 10-per-page limit and the descending order passed to `tx_search` live in the node oracle. The whole-block lemmas assume, through `Fetch.ServesBlock`, a node that serves one fixed list of transactions in slices of 10.
