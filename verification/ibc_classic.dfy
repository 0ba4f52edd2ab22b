/** The classic IBC vocabulary (`ibc_classic_spec`): state objects read from a
    chain and the canonical events built from them. */
module IbcClassic {
  import opened Outcomes
  import opened Bytes
  import opened Ibc

  type ClientId = string
  type ConnectionId = string
  type PortId = string
  type ChannelId = string

  /** `channel::order::Order`. */
  datatype Order = NoneUnspecified | Unordered | Ordered

  /** The remote end of a connection; its connection id is unset until the
      handshake reaches the counterparty. */
  datatype ConnectionCounterparty = ConnectionCounterparty(
    clientId: ClientId,
    connectionId: Option<ConnectionId>)

  /** A connection end as stored on a chain. */
  datatype ConnectionEnd = ConnectionEnd(
    clientId: ClientId,
    counterparty: ConnectionCounterparty,
    delayPeriod: nat)

  /** A channel end as stored on a chain (the fields this model reads). */
  datatype ChannelEnd = ChannelEnd(ordering: Order, version: string)

  datatype ConnectionMetadata = ConnectionMetadata(clientId: ClientId, connectionId: ConnectionId)

  datatype ChannelMetadata = ChannelMetadata(
    portId: PortId,
    channelId: ChannelId,
    version: string,
    connection: ConnectionMetadata)

  datatype PacketMetadata = PacketMetadata(
    sequence: nat,
    sourceChannel: ChannelMetadata,
    destinationChannel: ChannelMetadata,
    channelOrdering: Order,
    timeoutHeight: Height,
    timeoutTimestamp: nat)

  /** `ibc_classic_spec::FullEvent`: the canonical classic events. */
  datatype FullEvent =
    | CreateClient(clientId: ClientId, clientType: string, consensusHeight: Height)
    | UpdateClient(clientId: ClientId, clientType: string, consensusHeights: seq<Height>)
    | ConnectionOpenInit(clientId: ClientId, connectionId: ConnectionId, counterpartyClientId: ClientId)
    | ConnectionOpenTry(clientId: ClientId, connectionId: ConnectionId, counterpartyClientId: ClientId,
                        counterpartyConnectionId: ConnectionId)
    | ConnectionOpenAck(clientId: ClientId, connectionId: ConnectionId, counterpartyClientId: ClientId,
                        counterpartyConnectionId: ConnectionId)
    | ConnectionOpenConfirm(clientId: ClientId, connectionId: ConnectionId, counterpartyClientId: ClientId,
                            counterpartyConnectionId: ConnectionId)
    | ChannelOpenInit(portId: PortId, channelId: ChannelId, counterpartyPortId: PortId,
                      connection: ConnectionEnd, version: string)
    | ChannelOpenTry(portId: PortId, channelId: ChannelId, counterpartyPortId: PortId,
                     counterpartyChannelId: ChannelId, connection: ConnectionEnd, version: string)
    | ChannelOpenAck(portId: PortId, channelId: ChannelId, counterpartyPortId: PortId,
                     counterpartyChannelId: ChannelId, connection: ConnectionEnd, version: string)
    | ChannelOpenConfirm(portId: PortId, channelId: ChannelId, counterpartyPortId: PortId,
                         counterpartyChannelId: ChannelId, connection: ConnectionEnd, version: string)
    | SendPacket(packetData: Bytes, packet: PacketMetadata)
    | RecvPacket(packetData: Bytes, packet: PacketMetadata)
    | WriteAcknowledgement(packetData: Bytes, packetAck: Bytes, packet: PacketMetadata)
    | AcknowledgePacket(packet: PacketMetadata)
    | TimeoutPacket(packet: PacketMetadata)
}
