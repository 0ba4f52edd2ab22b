/** The plugin's own state (`Module`): which chain it watches and its revision,
    plus the construction and height helpers of `impl Module`. */
module EventSource {
  import opened Outcomes
  import opened Ibc
  import opened Chain
  import opened Integers
  import opened ChainRevision

  /** `Module` without its network handles. `packageName` stands for the
      compile-time crate name the plugin name is built from. */
  datatype Module = Module(
    chainId: ChainId,
    chainRevision: U64,
    grpcUrl: string,
    packageName: string)
  {
    /** `plugin_name`: `<crate name>/<chain id>`, the address of its own calls.
        The crate name and the chain id can be read back from it. */
    function PluginName(): (name: string)
      ensures |name| == |packageName| + 1 + |chainId|
      ensures name[..|packageName|] == packageName && name[|packageName|] == '/'
      ensures name[|packageName| + 1..] == chainId
    {
      packageName + "/" + chainId
    }

    /** `make_height`: a block number of this chain's current revision. */
    function MakeHeight(height: nat): (h: Height)
      ensures h.revisionNumber == chainRevision
      ensures h.revisionHeight == height
    {
      Height(chainRevision, height)
    }
  }

  /** Plugins built from one crate for different chains have different names,
      so one chain's plugin never addresses another chain's. */
  lemma PluginNamesDistinct(a: Module, b: Module)
    requires a.packageName == b.packageName
    ensures a.PluginName() == b.PluginName() <==> a.chainId == b.chainId
  {
    if a.PluginName() == b.PluginName() {
      assert a.chainId == a.PluginName()[|a.packageName| + 1..];
    }
  }

  /** `Module::new` once the node has reported its network name: the revision
      is parsed from that chain id, and a chain id without a numeric suffix
      fails the construction. */
  function New(network: string, grpcUrl: string, packageName: string)
    : (r: Result<Module, ChainIdParseError>)
    ensures r.Ok? <==> ParseChainRevision(network).Ok?
    ensures r.Ok? ==> r.value.chainId == network && r.value.chainRevision == ParseChainRevision(network).value
    ensures r.Ok? ==> r.value.grpcUrl == grpcUrl
    ensures r.Err? ==> r.error == ParseChainRevision(network).error && r.error.found == network
  {
    var revision :- ParseChainRevision(network);
    Ok(Module(network, revision, grpcUrl, packageName))
  }

  /** A node reporting `<chain>-<n>` gives a plugin at revision `n`. */
  lemma NewFromFormattedChainId(name: string, revision: U64, grpcUrl: string, packageName: string)
    ensures New(name + "-" + Decimal(revision), grpcUrl, packageName).Ok?
    ensures New(name + "-" + Decimal(revision), grpcUrl, packageName).value.chainRevision == revision
  {
    RevisionOfFormattedChainId(name, revision);
  }

  /** `latest_height`: the latest commit's height, or the block before it when
      the commit is not canonical yet, at this chain's revision. A negative
      height fails the `expect`, and stepping back from block 0 overflows. */
  function LatestHeight(m: Module, commit: Result<Commit, RpcError>): (r: Outcome<Height>)
    ensures commit.Err? ==> r == Fail(commit.error)
    ensures r.Fail? <==> commit.Err?
    ensures r.Done? ==> commit.Ok? && r.value.revisionNumber == m.chainRevision
    ensures r.Done? && commit.value.canonical ==> r.value.revisionHeight == commit.value.height
    ensures r.Done? && !commit.value.canonical ==> r.value.revisionHeight + 1 == commit.value.height
    ensures commit.Ok? ==> (r.Panic? <==> commit.value.height < 0
                                          || (commit.value.height == 0 && !commit.value.canonical))
  {
    var c :- Lift(commit);
    if c.height < 0 then Panic("value is >= 0; qed;")
    else if c.canonical then Done(m.MakeHeight(c.height))
    else if c.height == 0 then Panic("attempt to subtract with overflow")
    else Done(m.MakeHeight(c.height - 1))
  }
}
