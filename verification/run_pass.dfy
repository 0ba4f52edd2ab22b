/** `run_pass`: the plugin claims the `FetchBlocks` requests addressed to its
    own chain and hands every other op back untouched. */
module Pass {
  import opened Ibc
  import opened Voyager
  import opened EventSource

  /** The op is a Voyager-level `FetchBlocks` request for this plugin's chain. */
  predicate IsOwnFetchRequest(m: Module, op: Op) {
    op.CallOp? && op.call.FetchBlocksRequest? && op.call.chainId == m.chainId
  }

  /** The rewrite of one op. */
  function Rewrite(m: Module, op: Op): (r: Op)
    ensures IsOwnFetchRequest(m, op)
            ==> r == CallOp(Plugin(m.PluginName(), FetchBlocks(op.call.startHeight)))
    ensures !IsOwnFetchRequest(m, op) ==> r == op
  {
    if IsOwnFetchRequest(m, op) then CallOp(Plugin(m.PluginName(), FetchBlocks(op.call.startHeight)))
    else op
  }

  /** `run_pass`. */
  function RunPass(m: Module, ops: seq<Op>): (r: PassResult)
    ensures r.optimizeFurther == []
    ensures |r.ready| == |ops|
    ensures forall i :: 0 <= i < |ops| ==> r.ready[i].0 == [i]
    ensures forall i :: 0 <= i < |ops| && IsOwnFetchRequest(m, ops[i])
              ==> r.ready[i].1 == CallOp(Plugin(m.PluginName(), FetchBlocks(ops[i].call.startHeight)))
    ensures forall i :: 0 <= i < |ops| && !IsOwnFetchRequest(m, ops[i]) ==> r.ready[i].1 == ops[i]
  {
    PassResult([], seq(|ops|, i requires 0 <= i < |ops| => ([i], Rewrite(m, ops[i]))))
  }

  /** The ops a pass hands back, in path order. */
  function ReadyOps(r: PassResult): (ops: seq<Op>)
    ensures |ops| == |r.ready|
    ensures forall i :: 0 <= i < |ops| ==> ops[i] == r.ready[i].1
  {
    seq(|r.ready|, i requires 0 <= i < |r.ready| => r.ready[i].1)
  }

  /** A second pass over the result of the first changes nothing: every
      request it could claim was already rewritten into a plugin call. */
  lemma RunPassIdempotent(m: Module, ops: seq<Op>)
    ensures RunPass(m, ReadyOps(RunPass(m, ops))) == RunPass(m, ops)
  {
    var once := ReadyOps(RunPass(m, ops));
    assert forall i :: 0 <= i < |once| ==> !IsOwnFetchRequest(m, once[i]);
  }
}
