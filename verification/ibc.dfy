/** Chain identity, heights and the client descriptors shared by both IBC
    specifications. */
module Ibc {

  /** A chain id, e.g. `union-testnet-8`. */
  type ChainId = string

  /** A (revision number, block height) pair. Both parts are `u64` in the source;
      the model leaves them unbounded. */
  datatype Height = Height(revisionNumber: nat, revisionHeight: nat) {

    /** `Height::increment`: the next block of the same revision. */
    function Increment(): (h: Height)
      ensures h.revisionNumber == revisionNumber
      ensures h.revisionHeight == revisionHeight + 1
    {
      Height(revisionNumber, revisionHeight + 1)
    }
  }

  /** Where a state query is answered: the latest height, or a given one. */
  datatype QueryHeight = Latest | Specific(height: Height)

  /** The two IBC specifications a canonical event can belong to
      (`IbcClassic::ID`, `IbcUnion::ID`). */
  datatype IbcSpecId = IbcClassicId | IbcUnionId

  /** What the relayer knows about a light client on a chain. */
  datatype ClientInfo = ClientInfo(clientType: string, ibcInterface: string)

  /** The state a light client tracks: which chain, up to which height. */
  datatype ClientMeta = ClientMeta(counterpartyHeight: Height, chainId: ChainId)
}
