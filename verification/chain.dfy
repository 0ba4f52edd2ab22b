/** Everything the plugin learns from outside: errors, the three ways a call can
    end, and the chain queries, which are oracle functions here. */
module Chain {
  import opened Outcomes
  import opened Bytes
  import opened Ibc
  import C = IbcClassic
  import U = IbcUnion
  import opened IbcEvents
  import opened Integers

  /** The structured errors a call can return. */
  datatype RpcError =
    | Upstream(code: int, message: string)
    | MissingState(message: string)
    | TxSearchFailed(height: Height)
    | EventParseFailed(height: Height, page: nat)
    | GrpcConnectFailed(grpcUrl: string)
    | WasmCodeQueryFailed(checksum: H256, grpcUrl: string)

  /** How a call ends: with a value, with an error the host may retry, or with a
      panic (`panic!`, `unwrap`, `expect`, `unreachable!`) that aborts the branch. */
  datatype Outcome<+T> = Done(value: T) | Fail(error: RpcError) | Panic(message: string) {

    predicate IsFailure() {
      !Done?
    }

    function PropagateFailure<V>(): Outcome<V>
      requires !Done?
    {
      match this
      case Fail(e) => Fail(e)
      case Panic(m) => Panic(m)
    }

    function Extract(): T
      requires Done?
    {
      value
    }
  }

  /** A query's `?`: its error becomes the call's error. */
  function Lift<T>(r: Result<T, RpcError>): (o: Outcome<T>)
    ensures o.Done? <==> r.Ok?
    ensures r.Ok? ==> o.value == r.value
    ensures r.Err? ==> o == Fail(r.error)
  {
    match r
    case Ok(v) => Done(v)
    case Err(e) => Fail(e)
  }

  /** `.state.ok_or_else(missing_state(message, None))?`. */
  function Required<T>(state: Option<T>, message: string): (o: Outcome<T>)
    ensures o.Done? <==> state.Some?
    ensures state.Some? ==> o.value == state.value
    ensures state.None? ==> o == Fail(MissingState(message))
  {
    match state
    case Some(v) => Done(v)
    case None => Fail(MissingState(message))
  }

  const UnwrapNone := "called `Option::unwrap()` on a `None` value"

  /** `.state.unwrap()`: an absent state aborts. */
  function Unwrap<T>(state: Option<T>): (o: Outcome<T>)
    ensures o.Done? <==> state.Some?
    ensures state.Some? ==> o.value == state.value
    ensures state.None? ==> o == Panic(UnwrapNone)
  {
    match state
    case Some(v) => Done(v)
    case None => Panic(UnwrapNone)
  }

  /** The Voyager RPC client's state queries, one oracle per query and
      specification: `query_ibc_state`, `client_info` and `client_meta`. */
  datatype VoyagerClient = VoyagerClient(
    classicConnection: (ChainId, QueryHeight, C.ConnectionId) -> Result<Option<C.ConnectionEnd>, RpcError>,
    classicChannel: (ChainId, QueryHeight, C.PortId, C.ChannelId) -> Result<Option<C.ChannelEnd>, RpcError>,
    classicClientInfo: (ChainId, C.ClientId) -> Result<ClientInfo, RpcError>,
    classicClientMeta: (ChainId, QueryHeight, C.ClientId) -> Result<ClientMeta, RpcError>,
    unionConnection: (ChainId, QueryHeight, U.ConnectionId) -> Result<Option<U.Connection>, RpcError>,
    unionChannel: (ChainId, QueryHeight, U.ChannelId) -> Result<Option<U.Channel>, RpcError>,
    unionClientInfo: (ChainId, U.ClientId) -> Result<ClientInfo, RpcError>,
    unionClientMeta: (ChainId, QueryHeight, U.ClientId) -> Result<ClientMeta, RpcError>)
  {
    /** Both lookups of a classic client succeed: its info, and its metadata
        at height `h`. */
    predicate ClassicClientKnown(chainId: ChainId, h: Height, clientId: C.ClientId) {
      classicClientInfo(chainId, clientId).Ok? && classicClientMeta(chainId, Specific(h), clientId).Ok?
    }

    /** The same for a union client. */
    predicate UnionClientKnown(chainId: ChainId, h: Height, clientId: U.ClientId) {
      unionClientInfo(chainId, clientId).Ok? && unionClientMeta(chainId, Specific(h), clientId).Ok?
    }

    /** A call that looks up a classic client (info first, then metadata at
        `h`) with `?` ends with the first lookup's error. */
    predicate ClassicClientErrorsPropagate<T>(chainId: ChainId, h: Height, clientId: C.ClientId, r: Outcome<T>) {
      var info := classicClientInfo(chainId, clientId);
      var meta := classicClientMeta(chainId, Specific(h), clientId);
      && (info.Err? ==> r == Fail(info.error))
      && (info.Ok? && meta.Err? ==> r == Fail(meta.error))
    }

    /** The same for a union client. */
    predicate UnionClientErrorsPropagate<T>(chainId: ChainId, h: Height, clientId: U.ClientId, r: Outcome<T>) {
      var info := unionClientInfo(chainId, clientId);
      var meta := unionClientMeta(chainId, Specific(h), clientId);
      && (info.Err? ==> r == Fail(info.error))
      && (info.Ok? && meta.Err? ==> r == Fail(meta.error))
    }
  }

  /** A state query that succeeded and found the state. */
  predicate Found<T>(q: Result<Option<T>, RpcError>) {
    q.Ok? && q.value.Some?
  }

  /** Two calls that did not finish end the same way: the same error or the
      same panic. */
  predicate SameFailure<A, B>(a: Outcome<A>, b: Outcome<B>) {
    && (a.Fail? <==> b.Fail?)
    && (a.Panic? <==> b.Panic?)
    && (a.Fail? && b.Fail? ==> a.error == b.error)
    && (a.Panic? && b.Panic? ==> a.message == b.message)
  }

  /** An event as the node reports it: a type and its attributes. */
  datatype RawEvent = RawEvent(kind: string, attributes: seq<(string, string)>)

  datatype TxResult = TxResult(hash: H256, events: seq<RawEvent>)

  /** One page of `tx_search`, with the total number (a `u32`) of matching
      transactions. */
  datatype TxSearchResponse = TxSearchResponse(txs: seq<TxResult>, totalCount: U32)

  /** The node's latest commit: its (signed, `i64`) height and whether it is canonical. */
  datatype Commit = Commit(height: int, canonical: bool)

  /** Why fetching a wasm code blob failed: the gRPC connection or the query. */
  datatype WasmCodeError = ConnectError | QueryError

  /** Failure of the (unseen) event parser. */
  datatype EventParseError = EventParseError(reason: string)

  /** `IbcEvent::try_from_tendermint_event`, opaque here: `None` for an event
      that is not an IBC event, otherwise the parse result. */
  type EventParser = RawEvent -> Option<Result<IbcEvent, EventParseError>>

  /** The CometBFT node and its gRPC endpoint. `txSearch` takes the block number
      and the page (the query string is `tx.height=<block number>`). */
  datatype Node = Node(
    txSearch: (nat, nat) -> Result<TxSearchResponse, RpcError>,
    commit: Result<Commit, RpcError>,
    wasmCode: H256 -> Result<Bytes, WasmCodeError>)
}
