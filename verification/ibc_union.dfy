/** The union IBC vocabulary (`ibc_union_spec`): numeric ids, state objects and
    canonical events. */
module IbcUnion {
  import opened Bytes

  type ClientId = nat
  type ConnectionId = nat
  type ChannelId = nat

  /** A connection as stored on a chain. */
  datatype Connection = Connection(
    clientId: ClientId,
    counterpartyClientId: ClientId,
    counterpartyConnectionId: ConnectionId)

  /** A channel as stored on a chain (the fields this model reads). */
  datatype Channel = Channel(connectionId: ConnectionId, version: string)

  datatype ConnectionMetadata = ConnectionMetadata(clientId: ClientId, connectionId: ConnectionId)

  datatype ChannelMetadata = ChannelMetadata(
    channelId: ChannelId,
    version: string,
    connection: ConnectionMetadata)

  datatype PacketMetadata = PacketMetadata(
    sourceChannel: ChannelMetadata,
    destinationChannel: ChannelMetadata,
    timeoutHeight: nat,
    timeoutTimestamp: nat)

  /** `ibc_union_spec::FullEvent`: the canonical union events produced here. */
  datatype FullEvent =
    | CreateClient(clientId: ClientId, clientType: string)
    | UpdateClient(clientId: ClientId, clientType: string, height: nat)
    | ConnectionOpenInit(clientId: ClientId, connectionId: ConnectionId, counterpartyClientId: ClientId)
    | ConnectionOpenTry(connectionId: ConnectionId, counterpartyConnectionId: ConnectionId,
                        clientId: ClientId, counterpartyClientId: ClientId)
    | ConnectionOpenAck(connectionId: ConnectionId, counterpartyConnectionId: ConnectionId,
                        clientId: ClientId, counterpartyClientId: ClientId)
    | ConnectionOpenConfirm(connectionId: ConnectionId, counterpartyConnectionId: ConnectionId,
                            clientId: ClientId, counterpartyClientId: ClientId)
    | ChannelOpenTry(portId: string, channelId: ChannelId, counterpartyPortId: string,
                     counterpartyChannelId: ChannelId, connection: Connection, version: string)
    | ChannelOpenConfirm(portId: string, channelId: ChannelId, counterpartyPortId: string,
                         counterpartyChannelId: ChannelId, connection: Connection, version: string)
    | PacketSend(packetData: Bytes, packet: PacketMetadata)
}
