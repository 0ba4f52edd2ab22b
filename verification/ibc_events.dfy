/** The chain-native events parsed from a transaction's logs (`IbcEvent`). The
    source has one flat enum whose `Union*` variants belong to the union
    vocabulary; here the two vocabularies are the two arms of `IbcEvent`. */
module IbcEvents {
  import opened Bytes
  import opened Ibc
  import C = IbcClassic
  import U = IbcUnion

  /** The packet fields every classic packet event carries. */
  datatype NativePacket = NativePacket(
    sequence: nat,
    srcPort: C.PortId,
    srcChannel: C.ChannelId,
    dstPort: C.PortId,
    dstChannel: C.ChannelId,
    timeoutHeight: Height,
    timeoutTimestamp: nat,
    connectionId: C.ConnectionId)

  datatype ClassicEvent =
    | SubmitEvidence(evidenceHash: H256)
    | CreateClient(clientId: C.ClientId, clientType: string, consensusHeight: Height)
    | UpdateClient(clientId: C.ClientId, clientType: string, consensusHeights: seq<Height>)
    | ClientMisbehaviour(clientId: C.ClientId, clientType: string)
    | ConnectionOpenInit(connectionId: C.ConnectionId, clientId: C.ClientId, counterpartyClientId: C.ClientId)
    | ConnectionOpenTry(connectionId: C.ConnectionId, clientId: C.ClientId, counterpartyClientId: C.ClientId,
                        counterpartyConnectionId: C.ConnectionId)
    | ConnectionOpenAck(connectionId: C.ConnectionId, clientId: C.ClientId, counterpartyClientId: C.ClientId,
                        counterpartyConnectionId: C.ConnectionId)
    | ConnectionOpenConfirm(connectionId: C.ConnectionId, clientId: C.ClientId,
                            counterpartyClientId: C.ClientId, counterpartyConnectionId: C.ConnectionId)
    | ChannelOpenInit(portId: C.PortId, channelId: C.ChannelId, counterpartyPortId: C.PortId,
                      connectionId: C.ConnectionId, version: string)
    | ChannelOpenTry(portId: C.PortId, channelId: C.ChannelId, counterpartyPortId: C.PortId,
                     counterpartyChannelId: C.ChannelId, connectionId: C.ConnectionId, version: string)
    | ChannelOpenAck(portId: C.PortId, channelId: C.ChannelId, counterpartyPortId: C.PortId,
                     counterpartyChannelId: C.ChannelId, connectionId: C.ConnectionId)
    | ChannelOpenConfirm(portId: C.PortId, channelId: C.ChannelId, counterpartyPortId: C.PortId,
                         counterpartyChannelId: C.ChannelId, connectionId: C.ConnectionId)
    | SendPacket(packet: NativePacket, packetData: Bytes)
    | RecvPacket(packet: NativePacket, packetData: Bytes)
    | WriteAcknowledgement(packet: NativePacket, packetData: Bytes, packetAck: Bytes)
    | AcknowledgePacket(packet: NativePacket)
    | TimeoutPacket(packet: NativePacket)
  {
    /** The client-level events, resolved through their own client id. */
    predicate IsClientLevel() {
      CreateClient? || UpdateClient? || ClientMisbehaviour? || ConnectionOpenInit?
      || ConnectionOpenTry? || ConnectionOpenAck? || ConnectionOpenConfirm?
    }

    /** Packet events that originate on this chain: it is the packet's source. */
    predicate IsOutboundPacket() {
      SendPacket? || TimeoutPacket? || AcknowledgePacket?
    }

    /** Packet events that originate on the counterparty: this chain is the
        packet's destination. */
    predicate IsInboundPacket() {
      RecvPacket? || WriteAcknowledgement?
    }
  }

  /** The packet of a union `PacketSend` event. */
  datatype UnionPacket = UnionPacket(
    sourceChannel: U.ChannelId,
    destinationChannel: U.ChannelId,
    data: Bytes,
    timeoutHeight: nat,
    timeoutTimestamp: nat)

  datatype UnionEvent =
    | UnionCreateClient(clientId: U.ClientId, clientType: string)
    | UnionUpdateClient(clientId: U.ClientId, height: nat)
    | UnionConnectionOpenInit(connectionId: U.ConnectionId, clientId: U.ClientId,
                              counterpartyClientId: U.ClientId)
    | UnionConnectionOpenTry(connectionId: U.ConnectionId, clientId: U.ClientId,
                             counterpartyClientId: U.ClientId, counterpartyConnectionId: U.ConnectionId)
    | UnionConnectionOpenAck(connectionId: U.ConnectionId, clientId: U.ClientId,
                             counterpartyClientId: U.ClientId, counterpartyConnectionId: U.ConnectionId)
    | UnionConnectionOpenConfirm(connectionId: U.ConnectionId, clientId: U.ClientId,
                                 counterpartyClientId: U.ClientId, counterpartyConnectionId: U.ConnectionId)
    | UnionChannelOpenTry(portId: string, channelId: U.ChannelId, counterpartyPortId: string,
                          counterpartyChannelId: U.ChannelId, connectionId: U.ConnectionId,
                          counterpartyVersion: string)
    | UnionChannelOpenConfirm(portId: string, channelId: U.ChannelId, counterpartyPortId: string,
                              counterpartyChannelId: U.ChannelId, connectionId: U.ConnectionId)
    | UnionSendPacket(packet: UnionPacket)

  /** `IbcEvent`. */
  datatype IbcEvent = Classic(classic: ClassicEvent) | Union(union: UnionEvent)
}
