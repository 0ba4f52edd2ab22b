/** The operation algebra the plugin runs on (`voyager_vm::Op` over
    `VoyagerMessage`), the plugin's own calls and the canonical `ChainEvent`. */
module Voyager {
  import opened Bytes
  import opened Ibc
  import C = IbcClassic
  import U = IbcUnion
  import opened IbcEvents
  import opened Chain
  import opened Integers

  /** The event of a `ChainEvent`, in the vocabulary of its specification. */
  datatype SpecEvent = ClassicFull(classic: C.FullEvent) | UnionFull(union: U.FullEvent)

  /** The canonical, chain-agnostic event record. */
  datatype ChainEvent = ChainEvent(
    chainId: ChainId,
    clientInfo: ClientInfo,
    counterpartyChainId: ChainId,
    txHash: H256,
    provableHeight: Height,
    ibcSpecId: IbcSpecId,
    event: SpecEvent)

  /** A `tx_search` page number: a `NonZeroU32`. */
  type PageNumber = p: nat | 1 <= p < U32Limit witness 1

  /** `ModuleCall`: the calls this plugin addresses to itself. */
  datatype ModuleCall =
    | FetchBlocks(height: Height)
    | FetchTransactions(height: Height, page: PageNumber)
    | MakeChainEvent(height: Height, txHash: H256, event: IbcEvent)

  /** The calls of `VoyagerMessage` this plugin reads or writes; any other call
      is `OtherCall`, opaque to the plugin. */
  datatype Call =
    | FetchBlocksRequest(chainId: ChainId, startHeight: Height)
    | WaitForHeight(chainId: ChainId, height: Height, finalized: bool)
    | Plugin(plugin: string, message: ModuleCall)
    | OtherCall(tag: string)

  datatype Data = ChainEventData(chainEvent: ChainEvent) | OtherData(tag: string)

  /** `Op`: pending work as a tree of calls, terminal data, ordered sequences
      and unordered fan-outs. */
  datatype Op =
    | CallOp(call: Call)
    | DataOp(data: Data)
    | SeqOp(seqOps: seq<Op>)
    | ConcOp(concOps: seq<Op>)

  /** A position in an `Op` tree: child indices from the root. */
  type Path = seq<nat>

  /** `PassResult`: replacements keyed by path, and ops to look at again. */
  datatype PassResult = PassResult(optimizeFurther: seq<Op>, ready: seq<(Path, Op)>)
}
