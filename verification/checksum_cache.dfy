/** `client_type_of_checksum`: which wasm light client a code checksum belongs
    to, with a per-module cache in front of the gRPC code query. The cache only
    ever records positive answers. */
module ChecksumCache {
  import opened Outcomes
  import opened Bytes
  import opened Chain
  import opened EventSource

  /** `WasmClientType`: the light-client kind a wasm blob declares; its
      variants are not needed here. */
  datatype WasmClientType = WasmClientType(name: string)

  /** `checksum_cache`. */
  type Cache = map<H256, WasmClientType>

  /** `parse_wasm_client_type`, opaque: no declared kind, a kind, or an error. */
  type WasmParser = Bytes -> Result<Option<WasmClientType>, string>

  /** The answer, the cache afterwards, and whether the node was queried. */
  datatype Lookup = Lookup(result: Result<Option<WasmClientType>, RpcError>, cache: Cache, queried: bool)

  /** What the node itself says about `checksum`, without any cache: the
      reference the cached lookup is compared with. */
  function Uncached(m: Module, node: Node, parse: WasmParser, checksum: H256)
    : Result<Option<WasmClientType>, RpcError>
  {
    match node.wasmCode(checksum)
    case Err(ConnectError) => Err(GrpcConnectFailed(m.grpcUrl))
    case Err(QueryError) => Err(WasmCodeQueryFailed(checksum, m.grpcUrl))
    case Ok(code) =>
      match parse(code)
      case Ok(Some(t)) => Ok(Some(t))
      case Ok(None) => Ok(None)
      case Err(_) => Ok(None)
  }

  function ClientTypeOfChecksum(m: Module, node: Node, parse: WasmParser, cache: Cache, checksum: H256)
    : (l: Lookup)
    // a hit answers from the cache, without a query
    ensures checksum in cache ==> l == Lookup(Ok(Some(cache[checksum])), cache, false)
    ensures checksum !in cache ==> l.queried
    // connection and query failures are errors, and nothing is cached
    ensures checksum !in cache && node.wasmCode(checksum) == Err(ConnectError)
            ==> l.result == Err(GrpcConnectFailed(m.grpcUrl)) && l.cache == cache
    ensures checksum !in cache && node.wasmCode(checksum) == Err(QueryError)
            ==> l.result == Err(WasmCodeQueryFailed(checksum, m.grpcUrl)) && l.cache == cache
    // a parsed kind is returned and cached; no kind or a parse error is "none",
    // and is not cached
    ensures checksum !in cache && node.wasmCode(checksum).Ok? ==>
              match parse(node.wasmCode(checksum).value)
              case Ok(Some(t)) => l.result == Ok(Some(t)) && l.cache == cache[checksum := t]
              case _ => l.result == Ok(None) && l.cache == cache
  {
    if checksum in cache then
      Lookup(Ok(Some(cache[checksum])), cache, false)
    else
      match node.wasmCode(checksum)
      case Err(ConnectError) => Lookup(Err(GrpcConnectFailed(m.grpcUrl)), cache, true)
      case Err(QueryError) => Lookup(Err(WasmCodeQueryFailed(checksum, m.grpcUrl)), cache, true)
      case Ok(code) =>
        match parse(code)
        case Ok(Some(t)) => Lookup(Ok(Some(t)), cache[checksum := t], true)
        case Ok(None) => Lookup(Ok(None), cache, true)
        case Err(_) => Lookup(Ok(None), cache, true)
  }

  /** Every cached kind is what the node's code for that checksum parses to. */
  predicate Sound(node: Node, parse: WasmParser, cache: Cache) {
    forall k :: k in cache ==> node.wasmCode(k).Ok? && parse(node.wasmCode(k).value) == Ok(Some(cache[k]))
  }

  /** A lookup only ever adds to the cache, and keeps it sound. */
  lemma LookupKeepsCacheSound(m: Module, node: Node, parse: WasmParser, cache: Cache, checksum: H256)
    requires Sound(node, parse, cache)
    ensures var l := ClientTypeOfChecksum(m, node, parse, cache, checksum);
            && Sound(node, parse, l.cache)
            && cache.Keys <= l.cache.Keys
            && (forall k :: k in cache ==> l.cache[k] == cache[k])
  {
  }

  /** With a sound cache, caching is invisible: the answer is the node's. */
  lemma CacheIsTransparent(m: Module, node: Node, parse: WasmParser, cache: Cache, checksum: H256)
    requires Sound(node, parse, cache)
    ensures ClientTypeOfChecksum(m, node, parse, cache, checksum).result == Uncached(m, node, parse, checksum)
  {
  }

  /** Once a checksum has resolved to a kind, asking again is a cache hit with
      the same answer. */
  lemma SecondLookupHits(m: Module, node: Node, parse: WasmParser, cache: Cache, checksum: H256)
    requires ClientTypeOfChecksum(m, node, parse, cache, checksum).result.Ok?
    requires ClientTypeOfChecksum(m, node, parse, cache, checksum).result.value.Some?
    ensures var first := ClientTypeOfChecksum(m, node, parse, cache, checksum);
            var again := ClientTypeOfChecksum(m, node, parse, first.cache, checksum);
            again == Lookup(first.result, first.cache, false)
  {
  }

  /** Failures are not remembered: after an error or a "none", the next lookup
      of the same checksum queries the node again. */
  lemma MissesAreRetried(m: Module, node: Node, parse: WasmParser, cache: Cache, checksum: H256)
    requires checksum !in cache
    requires !(ClientTypeOfChecksum(m, node, parse, cache, checksum).result.Ok?
               && ClientTypeOfChecksum(m, node, parse, cache, checksum).result.value.Some?)
    ensures var first := ClientTypeOfChecksum(m, node, parse, cache, checksum);
            ClientTypeOfChecksum(m, node, parse, first.cache, checksum).queried
  {
  }

  /** The node's code for `checksum` parses to a client kind, so a lookup of
      it is cached. */
  predicate Resolving(m: Module, node: Node, parse: WasmParser, checksum: H256) {
    Uncached(m, node, parse, checksum).Ok? && Uncached(m, node, parse, checksum).value.Some?
  }

  /** Whether the `i`-th lookup of a batch must query the node: its checksum
      was not cached beforehand, and no earlier lookup in the batch resolved
      it. */
  predicate MustQuery(m: Module, node: Node, parse: WasmParser, cache: Cache, checksums: seq<H256>, i: nat)
    requires i < |checksums|
  {
    && checksums[i] !in cache
    && !(exists j :: 0 <= j < i && checksums[j] == checksums[i] && Resolving(m, node, parse, checksums[j]))
  }

  /** How many of the first `n` lookups of a batch must query the node. */
  function QueriesNeeded(m: Module, node: Node, parse: WasmParser, cache: Cache, checksums: seq<H256>, n: nat): nat
    requires n <= |checksums|
  {
    if n == 0 then 0
    else QueriesNeeded(m, node, parse, cache, checksums, n - 1)
         + (if MustQuery(m, node, parse, cache, checksums, n - 1) then 1 else 0)
  }

  /** Looking up one resolving checksum any number of times costs at most one
      query. */
  lemma {:induction false} RepeatedChecksumQueriedOnce(
    m: Module, node: Node, parse: WasmParser, cache: Cache, checksums: seq<H256>, c: H256, n: nat)
    requires n <= |checksums|
    requires forall i :: 0 <= i < |checksums| ==> checksums[i] == c
    requires Resolving(m, node, parse, c)
    ensures QueriesNeeded(m, node, parse, cache, checksums, n) <= 1
  {
    if n >= 2 {
      RepeatedChecksumQueriedOnce(m, node, parse, cache, checksums, c, n - 1);
      assert checksums[0] == checksums[n - 1] && Resolving(m, node, parse, checksums[0]);
      assert !MustQuery(m, node, parse, cache, checksums, n - 1);
    }
  }

  /** The cache after `i` lookups of a batch: the starting cache and the
      checksums among the first `i` that resolved. */
  ghost predicate CacheAfter(m: Module, node: Node, parse: WasmParser, cache: Cache, checksums: seq<H256>, i: nat, final: Cache)
    requires i <= |checksums|
  {
    forall k :: k in final <==> (|| k in cache
                                 || exists j :: 0 <= j < i && checksums[j] == k && Resolving(m, node, parse, k))
  }

  /** One lookup of a batch: it queries the node exactly when it must, answers
      as the node does, and extends the cache by its checksum iff it resolves. */
  lemma BatchStep(m: Module, node: Node, parse: WasmParser, cache: Cache, checksums: seq<H256>, i: nat, final: Cache)
    requires i < |checksums|
    requires Sound(node, parse, final)
    requires CacheAfter(m, node, parse, cache, checksums, i, final)
    ensures var l := ClientTypeOfChecksum(m, node, parse, final, checksums[i]);
            && (l.queried <==> MustQuery(m, node, parse, cache, checksums, i))
            && l.result == Uncached(m, node, parse, checksums[i])
            && Sound(node, parse, l.cache)
            && final.Keys <= l.cache.Keys
            && CacheAfter(m, node, parse, cache, checksums, i + 1, l.cache)
            && QueriesNeeded(m, node, parse, cache, checksums, i + 1)
               == QueriesNeeded(m, node, parse, cache, checksums, i) + (if l.queried then 1 else 0)
            && (checksums[i] in cache ==> !l.queried && l.cache == final)
  {
    var c := checksums[i];
    var l := ClientTypeOfChecksum(m, node, parse, final, c);
    CacheIsTransparent(m, node, parse, final, c);
    LookupKeepsCacheSound(m, node, parse, final, c);
    assert l.cache.Keys == if Resolving(m, node, parse, c) then final.Keys + {c} else final.Keys;
  }

  /** Resolve a batch of checksums in order through the shared cache. With a
      sound starting cache, every answer is the node's own, the cache stays
      sound and gains exactly the checksums that resolved, and the node is
      queried exactly for the lookups neither the starting cache nor an
      earlier lookup of the batch answers. */
  method ResolveAll(m: Module, node: Node, parse: WasmParser, cache: Cache, checksums: seq<H256>)
    returns (results: seq<Result<Option<WasmClientType>, RpcError>>, final: Cache, queries: nat)
    requires Sound(node, parse, cache)
    ensures |results| == |checksums|
    ensures forall i :: 0 <= i < |checksums| ==> results[i] == Uncached(m, node, parse, checksums[i])
    ensures Sound(node, parse, final)
    ensures cache.Keys <= final.Keys
    ensures CacheAfter(m, node, parse, cache, checksums, |checksums|, final)
    ensures queries <= |checksums|
    ensures queries == QueriesNeeded(m, node, parse, cache, checksums, |checksums|)
    ensures (forall i :: 0 <= i < |checksums| ==> checksums[i] in cache) ==> queries == 0 && final == cache
    // so a batch repeating one resolving checksum costs at most one query
    ensures (&& |checksums| > 0
             && (forall i :: 0 <= i < |checksums| ==> checksums[i] == checksums[0])
             && Resolving(m, node, parse, checksums[0]))
            ==> queries <= 1
  {
    results := [];
    final := cache;
    queries := 0;
    var i := 0;
    while i < |checksums|
      invariant 0 <= i <= |checksums|
      invariant |results| == i
      invariant forall j :: 0 <= j < i ==> results[j] == Uncached(m, node, parse, checksums[j])
      invariant Sound(node, parse, final)
      invariant cache.Keys <= final.Keys
      invariant queries <= i
      invariant queries == QueriesNeeded(m, node, parse, cache, checksums, i)
      invariant CacheAfter(m, node, parse, cache, checksums, i, final)
      invariant (forall j :: 0 <= j < |checksums| ==> checksums[j] in cache) ==> queries == 0 && final == cache
    {
      var l := ClientTypeOfChecksum(m, node, parse, final, checksums[i]);
      BatchStep(m, node, parse, cache, checksums, i, final);
      results := results + [l.result];
      final := l.cache;
      if l.queried {
        queries := queries + 1;
      }
      i := i + 1;
    }
    if |checksums| > 0 && (forall j :: 0 <= j < |checksums| ==> checksums[j] == checksums[0])
       && Resolving(m, node, parse, checksums[0]) {
      RepeatedChecksumQueriedOnce(m, node, parse, cache, checksums, checksums[0], |checksums|);
    }
  }
}
