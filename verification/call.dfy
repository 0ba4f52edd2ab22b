/** `call`: the plugin's entry point for the calls it addressed to itself. */
module Dispatch {
  import opened Outcomes
  import opened Bytes
  import opened Ibc
  import opened Chain
  import opened EventSource
  import opened Voyager
  import Fetch
  import Canonicalise

  /** Everything in `op` stays within this plugin: calls are to the plugin
      itself or waits on its own chain, and data are canonical events of its
      own chain. */
  predicate OwnOp(m: Module, op: Op)
    decreases op
  {
    match op
    case CallOp(c) => (c.Plugin? && c.plugin == m.PluginName()) || (c.WaitForHeight? && c.chainId == m.chainId)
    case DataOp(d) => d.ChainEventData? && d.chainEvent.chainId == m.chainId
    case SeqOp(ops) => forall i :: 0 <= i < |ops| ==> OwnOp(m, ops[i])
    case ConcOp(ops) => forall i :: 0 <= i < |ops| ==> OwnOp(m, ops[i])
  }

  /** `call(msg)`. A `MakeChainEvent` result is returned as data. */
  function Call(m: Module, node: Node, parse: EventParser, v: VoyagerClient, msg: ModuleCall): (r: Outcome<Op>)
    ensures r.Done? ==> OwnOp(m, r.value)
    ensures msg.FetchBlocks? ==> r.Done?
    ensures msg.FetchTransactions? && r.Fail?
            ==> r.error == TxSearchFailed(msg.height) || r.error == EventParseFailed(msg.height, msg.page)
    ensures msg.MakeChainEvent? ==> (r.Done? <==> Canonicalise.MakeChainEvent(m, v, msg.height, msg.txHash, msg.event).Done?)
    ensures msg.MakeChainEvent? && r.Done? ==>
              && r.value.DataOp? && r.value.data.ChainEventData?
              && r.value.data.chainEvent.provableHeight == msg.height.Increment()
              && r.value.data.chainEvent.txHash == msg.txHash
  {
    match msg
    case FetchBlocks(h) => Done(Fetch.FetchBlocksStep(m, h))
    case FetchTransactions(h, page) =>
      Fetch.FetchTransactionsStep(m, node, parse, h, page)
    case MakeChainEvent(h, tx, ev) =>
      var event :- Canonicalise.MakeChainEvent(m, v, h, tx, ev);
      Done(DataOp(ChainEventData(event)))
  }
}
