/** `make_packet_metadata`: the two channel ends of a classic packet, resolved
    from this chain's connection and channel at the event height and the
    counterparty's channel at its latest height. The caller decides which
    port/channel pair is this chain's ("self") and which is the other's. */
module PacketMetadataBuilder {
  import opened Outcomes
  import opened Ibc
  import C = IbcClassic
  import opened Chain
  import opened EventSource

  /** The tuple `make_packet_metadata` returns. */
  datatype PacketSides = PacketSides(
    counterpartyChainId: ChainId,
    clientInfo: ClientInfo,
    selfSide: C.ChannelMetadata,
    otherSide: C.ChannelMetadata,
    ordering: C.Order)

  const ConnectionMustExist := "connection must exist"
  const ChannelMustExist := "channel must exist"
  const CounterpartyConnectionUnset := "counterparty connection id should be set"

  /** Every lookup `make_packet_metadata` makes finds its state: this chain's
      connection, that connection's client, this chain's channel, the
      counterparty's channel at its latest height; and the connection names
      its counterparty connection. */
  predicate Resolves(
    m: Module, v: VoyagerClient, eventHeight: Height, selfConnectionId: C.ConnectionId,
    selfPort: C.PortId, selfChannel: C.ChannelId, otherPort: C.PortId, otherChannel: C.ChannelId)
  {
    var connection := v.classicConnection(m.chainId, Specific(eventHeight), selfConnectionId);
    && Found(connection)
    && var conn := connection.value.value;
    && v.ClassicClientKnown(m.chainId, eventHeight, conn.clientId)
    && Found(v.classicChannel(m.chainId, Specific(eventHeight), selfPort, selfChannel))
    && var counterpartyChainId := v.classicClientMeta(m.chainId, Specific(eventHeight), conn.clientId).value.chainId;
    && Found(v.classicChannel(counterpartyChainId, Latest, otherPort, otherChannel))
    && conn.counterparty.connectionId.Some?
  }

  function MakePacketMetadata(
    m: Module, v: VoyagerClient, eventHeight: Height, selfConnectionId: C.ConnectionId,
    selfPort: C.PortId, selfChannel: C.ChannelId, otherPort: C.PortId, otherChannel: C.ChannelId)
    : (r: Outcome<PacketSides>)
    ensures r.Done? <==> Resolves(m, v, eventHeight, selfConnectionId, selfPort, selfChannel, otherPort, otherChannel)
    // the lookups in source order; the first one that fails decides the outcome.
    // 1. this chain's connection at the event height
    ensures var connection := v.classicConnection(m.chainId, Specific(eventHeight), selfConnectionId);
            && (connection.Err? ==> r == Fail(connection.error))
            && (connection == Ok(None) ==> r == Fail(MissingState(ConnectionMustExist)))
    // 2. and 3. its client's info, then its metadata at the event height
    ensures var connection := v.classicConnection(m.chainId, Specific(eventHeight), selfConnectionId);
            Found(connection)
            ==> v.ClassicClientErrorsPropagate(m.chainId, eventHeight, connection.value.value.clientId, r)
    // 4. this chain's channel at the event height
    ensures var connection := v.classicConnection(m.chainId, Specific(eventHeight), selfConnectionId);
            (Found(connection) && v.ClassicClientKnown(m.chainId, eventHeight, connection.value.value.clientId))
            ==> var thisChannel := v.classicChannel(m.chainId, Specific(eventHeight), selfPort, selfChannel);
                && (thisChannel.Err? ==> r == Fail(thisChannel.error))
                && (thisChannel == Ok(None) ==> r == Fail(MissingState(ChannelMustExist)))
    // 5. the counterparty's channel at its latest height; then the
    // counterparty connection id, whose absence aborts
    ensures var connection := v.classicConnection(m.chainId, Specific(eventHeight), selfConnectionId);
            (&& Found(connection)
             && v.ClassicClientKnown(m.chainId, eventHeight, connection.value.value.clientId)
             && Found(v.classicChannel(m.chainId, Specific(eventHeight), selfPort, selfChannel)))
            ==> var conn := connection.value.value;
                var meta := v.classicClientMeta(m.chainId, Specific(eventHeight), conn.clientId).value;
                var counterpartyChannel := v.classicChannel(meta.chainId, Latest, otherPort, otherChannel);
                && (counterpartyChannel.Err? ==> r == Fail(counterpartyChannel.error))
                && (counterpartyChannel == Ok(None) ==> r == Fail(MissingState(ChannelMustExist)))
                && (Found(counterpartyChannel) && conn.counterparty.connectionId.None?
                    ==> r == Panic(CounterpartyConnectionUnset))
    ensures r.Panic? ==> r.message == CounterpartyConnectionUnset
    // this chain's side: its own port/channel, its channel's version at the
    // event height, its connection's client and the connection itself
    ensures r.Done? ==>
              var conn := v.classicConnection(m.chainId, Specific(eventHeight), selfConnectionId).value.value;
              var thisChannel := v.classicChannel(m.chainId, Specific(eventHeight), selfPort, selfChannel);
              && r.value.selfSide == C.ChannelMetadata(selfPort, selfChannel, thisChannel.value.value.version,
                                                       C.ConnectionMetadata(conn.clientId, selfConnectionId))
              && r.value.ordering == thisChannel.value.value.ordering
    // the other side: the other port/channel, the counterparty channel's version
    // at the counterparty's latest height, the connection's counterparty ids
    ensures r.Done? ==>
              var conn := v.classicConnection(m.chainId, Specific(eventHeight), selfConnectionId).value.value;
              var meta := v.classicClientMeta(m.chainId, Specific(eventHeight), conn.clientId);
              && r.value.counterpartyChainId == meta.value.chainId
              && v.classicClientInfo(m.chainId, conn.clientId) == Ok(r.value.clientInfo)
              && var counterpartyChannel := v.classicChannel(meta.value.chainId, Latest, otherPort, otherChannel);
              && r.value.otherSide
                 == C.ChannelMetadata(otherPort, otherChannel, counterpartyChannel.value.value.version,
                                      C.ConnectionMetadata(conn.counterparty.clientId,
                                                           conn.counterparty.connectionId.value))
  {
    var connection :- Lift(v.classicConnection(m.chainId, Specific(eventHeight), selfConnectionId));
    var conn :- Required(connection, ConnectionMustExist);
    var clientInfo :- Lift(v.classicClientInfo(m.chainId, conn.clientId));
    var clientMeta :- Lift(v.classicClientMeta(m.chainId, Specific(eventHeight), conn.clientId));
    var thisChannelState :- Lift(v.classicChannel(m.chainId, Specific(eventHeight), selfPort, selfChannel));
    var thisChannel :- Required(thisChannelState, ChannelMustExist);
    var otherChannelState :- Lift(v.classicChannel(clientMeta.chainId, Latest, otherPort, otherChannel));
    var counterpartyChannel :- Required(otherChannelState, ChannelMustExist);
    var counterpartyConnectionId :- match conn.counterparty.connectionId
                                    case Some(id) => Done(id)
                                    case None => Panic(CounterpartyConnectionUnset);
    Done(PacketSides(
      clientMeta.chainId,
      clientInfo,
      C.ChannelMetadata(selfPort, selfChannel, thisChannel.version,
                        C.ConnectionMetadata(conn.clientId, selfConnectionId)),
      C.ChannelMetadata(otherPort, otherChannel, counterpartyChannel.version,
                        C.ConnectionMetadata(conn.counterparty.clientId, counterpartyConnectionId)),
      thisChannel.ordering))
  }
}
