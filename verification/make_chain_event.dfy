/** The `MakeChainEvent` arm of `call`: turn one native event at height `h` into
    the canonical `ChainEvent`, reading the client, connection and channel state
    it needs through the Voyager client. */
module Canonicalise {
  import opened Outcomes
  import opened Bytes
  import opened Ibc
  import C = IbcClassic
  import U = IbcUnion
  import opened IbcEvents
  import opened Chain
  import opened EventSource
  import opened Voyager
  import P = PacketMetadataBuilder

  /** The message of `panic!()` with no arguments (`SubmitEvidence`). */
  const ExplicitPanic := "explicit panic"
  /** The message of the `unreachable!` arm a `ClientMisbehaviour` event reaches. */
  const WhoNeedsFlowTyping := "who needs flow typing"

  /** `e` was built on this chain from the client `clientId` of the classic
      vocabulary: its client info is that client's, its counterparty chain is
      the one that client tracks at the event height, and it is provable one
      block after the event. */
  predicate ClassicClientOf(m: Module, v: VoyagerClient, h: Height, clientId: C.ClientId, e: ChainEvent) {
    && e.chainId == m.chainId
    && e.provableHeight == h.Increment()
    && e.ibcSpecId == IbcClassicId
    && e.event.ClassicFull?
    && v.classicClientInfo(m.chainId, clientId) == Ok(e.clientInfo)
    && v.classicClientMeta(m.chainId, Specific(h), clientId).Ok?
    && v.classicClientMeta(m.chainId, Specific(h), clientId).value.chainId == e.counterpartyChainId
  }

  /** The same for a client of the union vocabulary. */
  predicate UnionClientOf(m: Module, v: VoyagerClient, h: Height, clientId: U.ClientId, e: ChainEvent) {
    && e.chainId == m.chainId
    && e.provableHeight == h.Increment()
    && e.ibcSpecId == IbcUnionId
    && e.event.UnionFull?
    && v.unionClientInfo(m.chainId, clientId) == Ok(e.clientInfo)
    && v.unionClientMeta(m.chainId, Specific(h), clientId).Ok?
    && v.unionClientMeta(m.chainId, Specific(h), clientId).value.chainId == e.counterpartyChainId
  }

  /** A canonical packet carries the native packet's sequence, its source
      port/channel as the source, its destination port/channel as the
      destination, and its timeouts. */
  predicate PacketMatches(p: NativePacket, md: C.PacketMetadata) {
    && md.sequence == p.sequence
    && md.sourceChannel.portId == p.srcPort
    && md.sourceChannel.channelId == p.srcChannel
    && md.destinationChannel.portId == p.dstPort
    && md.destinationChannel.channelId == p.dstChannel
    && md.timeoutHeight == p.timeoutHeight
    && md.timeoutTimestamp == p.timeoutTimestamp
  }

  predicate IsPacketEvent(full: C.FullEvent) {
    full.SendPacket? || full.RecvPacket? || full.WriteAcknowledgement? || full.AcknowledgePacket? || full.TimeoutPacket?
  }

  /** Reference relation: `full` is the canonical form of the native classic
      event `ev` — same kind, same identifiers and payloads. What is read from
      the chain (connection ends, versions of the Ack/Confirm handshake steps,
      packet channel metadata beyond port and channel) is left free. The two
      events that never produce a canonical event relate to nothing. */
  predicate Corresponds(ev: ClassicEvent, full: C.FullEvent) {
    match ev
    case SubmitEvidence(_) => false
    case ClientMisbehaviour(_, _) => false
    case CreateClient(c, t, ch) => full == C.CreateClient(c, t, ch)
    case UpdateClient(c, t, hs) => full == C.UpdateClient(c, t, hs)
    case ConnectionOpenInit(conn, c, cc) => full == C.ConnectionOpenInit(c, conn, cc)
    case ConnectionOpenTry(conn, c, cc, ccon) => full == C.ConnectionOpenTry(c, conn, cc, ccon)
    case ConnectionOpenAck(conn, c, cc, ccon) => full == C.ConnectionOpenAck(c, conn, cc, ccon)
    case ConnectionOpenConfirm(conn, c, cc, ccon) => full == C.ConnectionOpenConfirm(c, conn, cc, ccon)
    case ChannelOpenInit(p, ch, cp, _, ver) =>
      full.ChannelOpenInit? && full.portId == p && full.channelId == ch && full.counterpartyPortId == cp
      && full.version == ver
    case ChannelOpenTry(p, ch, cp, cch, _, ver) =>
      full.ChannelOpenTry? && full.portId == p && full.channelId == ch && full.counterpartyPortId == cp
      && full.counterpartyChannelId == cch && full.version == ver
    case ChannelOpenAck(p, ch, cp, cch, _) =>
      full.ChannelOpenAck? && full.portId == p && full.channelId == ch && full.counterpartyPortId == cp
      && full.counterpartyChannelId == cch
    case ChannelOpenConfirm(p, ch, cp, cch, _) =>
      full.ChannelOpenConfirm? && full.portId == p && full.channelId == ch && full.counterpartyPortId == cp
      && full.counterpartyChannelId == cch
    case SendPacket(p, d) => full.SendPacket? && full.packetData == d && PacketMatches(p, full.packet)
    case RecvPacket(p, d) => full.RecvPacket? && full.packetData == d && PacketMatches(p, full.packet)
    case WriteAcknowledgement(p, d, a) =>
      full.WriteAcknowledgement? && full.packetData == d && full.packetAck == a && PacketMatches(p, full.packet)
    case AcknowledgePacket(p) => full.AcknowledgePacket? && PacketMatches(p, full.packet)
    case TimeoutPacket(p) => full.TimeoutPacket? && PacketMatches(p, full.packet)
  }

  /** Reference relation for the union vocabulary. */
  predicate UnionCorresponds(ev: UnionEvent, full: U.FullEvent) {
    match ev
    case UnionCreateClient(c, t) => full == U.CreateClient(c, t)
    case UnionUpdateClient(c, hh) => full.UpdateClient? && full.clientId == c && full.height == hh
    case UnionConnectionOpenInit(conn, c, cc) => full == U.ConnectionOpenInit(c, conn, cc)
    case UnionConnectionOpenTry(conn, c, cc, ccon) => full == U.ConnectionOpenTry(conn, ccon, c, cc)
    case UnionConnectionOpenAck(conn, c, cc, ccon) => full == U.ConnectionOpenAck(conn, ccon, c, cc)
    case UnionConnectionOpenConfirm(conn, c, cc, ccon) => full == U.ConnectionOpenConfirm(conn, ccon, c, cc)
    case UnionChannelOpenTry(p, ch, cp, cch, _, ver) =>
      full.ChannelOpenTry? && full.portId == p && full.channelId == ch && full.counterpartyPortId == cp
      && full.counterpartyChannelId == cch && full.version == ver
    case UnionChannelOpenConfirm(p, ch, cp, cch, _) =>
      full.ChannelOpenConfirm? && full.portId == p && full.channelId == ch && full.counterpartyPortId == cp
      && full.counterpartyChannelId == cch
    case UnionSendPacket(pk) =>
      full.PacketSend? && full.packetData == pk.data
      && full.packet.sourceChannel.channelId == pk.sourceChannel
      && full.packet.destinationChannel.channelId == pk.destinationChannel
      && full.packet.timeoutHeight == pk.timeoutHeight
      && full.packet.timeoutTimestamp == pk.timeoutTimestamp
  }

  /** The end of a canonical packet that is this chain: the source for packets
      that leave it, the destination for packets that arrive. */
  function SelfSide(ev: ClassicEvent, md: C.PacketMetadata): C.ChannelMetadata {
    if ev.IsOutboundPacket() then md.sourceChannel else md.destinationChannel
  }

  function OtherSide(ev: ClassicEvent, md: C.PacketMetadata): C.ChannelMetadata {
    if ev.IsOutboundPacket() then md.destinationChannel else md.sourceChannel
  }

  /** The classic connection `id` exists on this chain at height `h` and both
      lookups of its client succeed. */
  predicate ClassicConnectionResolves(m: Module, v: VoyagerClient, h: Height, id: C.ConnectionId) {
    var connection := v.classicConnection(m.chainId, Specific(h), id);
    Found(connection) && v.ClassicClientKnown(m.chainId, h, connection.value.value.clientId)
  }

  /** The same for a union connection. */
  predicate UnionConnectionResolves(m: Module, v: VoyagerClient, h: Height, id: U.ConnectionId) {
    var connection := v.unionConnection(m.chainId, Specific(h), id);
    Found(connection) && v.UnionClientKnown(m.chainId, h, connection.value.value.clientId)
  }

  /** A classic connection lookup with `?` and `ok_or_else`: its error, or
      `MissingState` when the connection is absent, then its client's errors. */
  predicate ClassicConnectionErrorsPropagate<T>(m: Module, v: VoyagerClient, h: Height, id: C.ConnectionId, r: Outcome<T>) {
    var connection := v.classicConnection(m.chainId, Specific(h), id);
    && (connection.Err? ==> r == Fail(connection.error))
    && (connection == Ok(None) ==> r == Fail(MissingState(P.ConnectionMustExist)))
    && (Found(connection) ==> v.ClassicClientErrorsPropagate(m.chainId, h, connection.value.value.clientId, r))
  }

  /** A union connection lookup with `?` and `unwrap`: its error, or a panic
      when the connection is absent, then its client's errors. */
  predicate UnionConnectionErrorsPropagate<T>(m: Module, v: VoyagerClient, h: Height, id: U.ConnectionId, r: Outcome<T>) {
    var connection := v.unionConnection(m.chainId, Specific(h), id);
    && (connection.Err? ==> r == Fail(connection.error))
    && (connection == Ok(None) ==> r == Panic(UnwrapNone))
    && (Found(connection) ==> v.UnionClientErrorsPropagate(m.chainId, h, connection.value.value.clientId, r))
  }

  /** `make_packet_metadata` as a packet event calls it: this chain's port and
      channel are the packet's source for outbound events and its destination
      for inbound ones. */
  predicate PacketSidesResolve(m: Module, v: VoyagerClient, h: Height, ev: ClassicEvent)
    requires ev.IsOutboundPacket() || ev.IsInboundPacket()
  {
    var p := ev.packet;
    if ev.IsOutboundPacket()
    then P.Resolves(m, v, h, p.connectionId, p.srcPort, p.srcChannel, p.dstPort, p.dstChannel)
    else P.Resolves(m, v, h, p.connectionId, p.dstPort, p.dstChannel, p.srcPort, p.srcChannel)
  }

  /** Independent of how the arms are written: canonicalising `ev` succeeds
      exactly when every lookup it needs finds its state. `SubmitEvidence` and
      `ClientMisbehaviour` never yield an event. */
  predicate Emits(m: Module, v: VoyagerClient, h: Height, ev: IbcEvent) {
    match ev
    case Classic(c) =>
      if c.SubmitEvidence? || c.ClientMisbehaviour? then false
      else if c.IsClientLevel() then v.ClassicClientKnown(m.chainId, h, c.clientId)
      else if c.ChannelOpenInit? || c.ChannelOpenTry? then ClassicConnectionResolves(m, v, h, c.connectionId)
      else if c.ChannelOpenAck? || c.ChannelOpenConfirm?
      then ClassicConnectionResolves(m, v, h, c.connectionId)
           && Found(v.classicChannel(m.chainId, Specific(h), c.portId, c.channelId))
      else PacketSidesResolve(m, v, h, c)
    case Union(u) =>
      if IsUnionClientLevel(u) then v.UnionClientKnown(m.chainId, h, u.clientId)
      else if u.UnionChannelOpenTry? then UnionConnectionResolves(m, v, h, u.connectionId)
      else if u.UnionChannelOpenConfirm?
      then Found(v.unionChannel(m.chainId, Specific(h), u.channelId)) && UnionConnectionResolves(m, v, h, u.connectionId)
      else var channel := v.unionChannel(m.chainId, Specific(h), u.packet.sourceChannel);
           Found(channel) && UnionConnectionResolves(m, v, h, channel.value.value.connectionId)
  }

  // ---------------------------------------------------------------------------
  // Classic vocabulary

  /** The canonical form of a client-level event; `ClientMisbehaviour` has none
      and reaches the `unreachable!` arm. */
  function ClientLevelEvent(ev: ClassicEvent): (r: Outcome<C.FullEvent>)
    requires ev.IsClientLevel()
    ensures r.Done? <==> !ev.ClientMisbehaviour?
    ensures r.Done? ==> Corresponds(ev, r.value)
    ensures ev.ClientMisbehaviour? ==> r == Panic(WhoNeedsFlowTyping)
  {
    match ev
    case CreateClient(c, t, ch) => Done(C.CreateClient(c, t, ch))
    case UpdateClient(c, t, hs) => Done(C.UpdateClient(c, t, hs))
    case ClientMisbehaviour(_, _) => Panic(WhoNeedsFlowTyping)
    case ConnectionOpenInit(conn, c, cc) => Done(C.ConnectionOpenInit(c, conn, cc))
    case ConnectionOpenTry(conn, c, cc, ccon) => Done(C.ConnectionOpenTry(c, conn, cc, ccon))
    case ConnectionOpenAck(conn, c, cc, ccon) => Done(C.ConnectionOpenAck(c, conn, cc, ccon))
    case ConnectionOpenConfirm(conn, c, cc, ccon) => Done(C.ConnectionOpenConfirm(c, conn, cc, ccon))
  }

  /** Client and connection events: resolved through the event's own client. */
  function ClassicClientEvent(m: Module, v: VoyagerClient, h: Height, tx: H256, ev: ClassicEvent)
    : (r: Outcome<ChainEvent>)
    requires ev.IsClientLevel()
    ensures r.Done? ==> ClassicClientOf(m, v, h, ev.clientId, r.value) && r.value.txHash == tx
    ensures r.Done? ==> Corresponds(ev, r.value.event.classic)
    ensures r.Done? <==> !ev.ClientMisbehaviour? && v.ClassicClientKnown(m.chainId, h, ev.clientId)
    ensures v.ClassicClientErrorsPropagate(m.chainId, h, ev.clientId, r)
    // a misbehaviour event is looked up like the others, then aborts
    ensures ev.ClientMisbehaviour? && v.ClassicClientKnown(m.chainId, h, ev.clientId) ==> r == Panic(WhoNeedsFlowTyping)
    ensures r.Panic? ==> r.message == WhoNeedsFlowTyping
  {
    var info :- Lift(v.classicClientInfo(m.chainId, ev.clientId));
    var meta :- Lift(v.classicClientMeta(m.chainId, Specific(h), ev.clientId));
    var full :- ClientLevelEvent(ev);
    Done(ChainEvent(m.chainId, info, meta.chainId, tx, h.Increment(), IbcClassicId, ClassicFull(full)))
  }

  /** `ChannelOpenInit` and `ChannelOpenTry`: the connection named by the
      event, read at the event height, is embedded in the canonical event and
      its client resolves the event. */
  function ChannelOpenInitOrTry(m: Module, v: VoyagerClient, h: Height, tx: H256, ev: ClassicEvent)
    : (r: Outcome<ChainEvent>)
    requires ev.ChannelOpenInit? || ev.ChannelOpenTry?
    ensures r.Done? <==> ClassicConnectionResolves(m, v, h, ev.connectionId)
    ensures ClassicConnectionErrorsPropagate(m, v, h, ev.connectionId, r)
    ensures !r.Panic?
    ensures r.Done? ==>
              && r.value.txHash == tx
              && r.value.event.ClassicFull?
              && Corresponds(ev, r.value.event.classic)
              && v.classicConnection(m.chainId, Specific(h), ev.connectionId) == Ok(Some(r.value.event.classic.connection))
              && ClassicClientOf(m, v, h, r.value.event.classic.connection.clientId, r.value)
  {
    var state :- Lift(v.classicConnection(m.chainId, Specific(h), ev.connectionId));
    var connection :- Required(state, P.ConnectionMustExist);
    var info :- Lift(v.classicClientInfo(m.chainId, connection.clientId));
    var meta :- Lift(v.classicClientMeta(m.chainId, Specific(h), connection.clientId));
    var full := match ev
                case ChannelOpenInit(p, ch, cp, _, ver) => C.ChannelOpenInit(p, ch, cp, connection, ver)
                case ChannelOpenTry(p, ch, cp, cch, _, ver) => C.ChannelOpenTry(p, ch, cp, cch, connection, ver);
    Done(ChainEvent(m.chainId, info, meta.chainId, tx, h.Increment(), IbcClassicId, ClassicFull(full)))
  }

  /** `ChannelOpenAck` and `ChannelOpenConfirm`: as above, and the version is
      the one of this chain's channel end at the event height. */
  function ChannelOpenAckOrConfirm(m: Module, v: VoyagerClient, h: Height, tx: H256, ev: ClassicEvent)
    : (r: Outcome<ChainEvent>)
    requires ev.ChannelOpenAck? || ev.ChannelOpenConfirm?
    ensures r.Done? <==> ClassicConnectionResolves(m, v, h, ev.connectionId)
                         && Found(v.classicChannel(m.chainId, Specific(h), ev.portId, ev.channelId))
    ensures ClassicConnectionErrorsPropagate(m, v, h, ev.connectionId, r)
    // this chain's channel end is read after the connection and its client
    ensures ClassicConnectionResolves(m, v, h, ev.connectionId) ==>
              var channel := v.classicChannel(m.chainId, Specific(h), ev.portId, ev.channelId);
              && (channel.Err? ==> r == Fail(channel.error))
              && (channel == Ok(None) ==> r == Fail(MissingState(P.ChannelMustExist)))
    ensures !r.Panic?
    ensures r.Done? ==>
              && r.value.txHash == tx
              && r.value.event.ClassicFull?
              && Corresponds(ev, r.value.event.classic)
              && v.classicConnection(m.chainId, Specific(h), ev.connectionId) == Ok(Some(r.value.event.classic.connection))
              && ClassicClientOf(m, v, h, r.value.event.classic.connection.clientId, r.value)
              && var channel := v.classicChannel(m.chainId, Specific(h), ev.portId, ev.channelId);
              && channel.Ok? && channel.value.Some?
              && r.value.event.classic.version == channel.value.value.version
  {
    var state :- Lift(v.classicConnection(m.chainId, Specific(h), ev.connectionId));
    var connection :- Required(state, P.ConnectionMustExist);
    var info :- Lift(v.classicClientInfo(m.chainId, connection.clientId));
    var meta :- Lift(v.classicClientMeta(m.chainId, Specific(h), connection.clientId));
    var channelState :- Lift(v.classicChannel(m.chainId, Specific(h), ev.portId, ev.channelId));
    var channel :- Required(channelState, P.ChannelMustExist);
    var full := match ev
                case ChannelOpenAck(p, ch, cp, cch, _) => C.ChannelOpenAck(p, ch, cp, cch, connection, channel.version)
                case ChannelOpenConfirm(p, ch, cp, cch, _) =>
                  C.ChannelOpenConfirm(p, ch, cp, cch, connection, channel.version);
    Done(ChainEvent(m.chainId, info, meta.chainId, tx, h.Increment(), IbcClassicId, ClassicFull(full)))
  }

  /** The five packet events. This chain's end is the packet's source for
      Send, Timeout and Acknowledge, and its destination for Recv and
      WriteAcknowledgement; either way the canonical packet runs from the
      native packet's source to its destination. */
  function PacketEvent(m: Module, v: VoyagerClient, h: Height, tx: H256, ev: ClassicEvent)
    : (r: Outcome<ChainEvent>)
    requires ev.IsOutboundPacket() || ev.IsInboundPacket()
    ensures r.Done? <==> PacketSidesResolve(m, v, h, ev)
    // the arm adds no failure of its own: it ends as the metadata lookup does
    ensures var p := ev.packet;
            var sides := if ev.IsOutboundPacket()
                         then P.MakePacketMetadata(m, v, h, p.connectionId, p.srcPort, p.srcChannel, p.dstPort, p.dstChannel)
                         else P.MakePacketMetadata(m, v, h, p.connectionId, p.dstPort, p.dstChannel, p.srcPort, p.srcChannel);
            !r.Done? ==> SameFailure(r, sides)
    ensures ClassicConnectionErrorsPropagate(m, v, h, ev.packet.connectionId, r)
    ensures r.Panic? ==> r.message == P.CounterpartyConnectionUnset
    ensures r.Done? ==>
              && r.value.txHash == tx
              && r.value.event.ClassicFull?
              && IsPacketEvent(r.value.event.classic)
              && Corresponds(ev, r.value.event.classic)
    // this chain's end: the event's connection, its client, and this chain's
    // channel end at the event height (version and ordering)
    ensures r.Done? ==>
              var md := r.value.event.classic.packet;
              var conn := v.classicConnection(m.chainId, Specific(h), ev.packet.connectionId);
              && conn.Ok? && conn.value.Some?
              && SelfSide(ev, md).connection == C.ConnectionMetadata(conn.value.value.clientId, ev.packet.connectionId)
              && ClassicClientOf(m, v, h, conn.value.value.clientId, r.value)
              && var channel := v.classicChannel(m.chainId, Specific(h), SelfSide(ev, md).portId, SelfSide(ev, md).channelId);
              && channel.Ok? && channel.value.Some?
              && SelfSide(ev, md).version == channel.value.value.version
              && md.channelOrdering == channel.value.value.ordering
    // the other end: the counterparty of this chain's connection
    ensures r.Done? ==>
              var md := r.value.event.classic.packet;
              var conn := v.classicConnection(m.chainId, Specific(h), ev.packet.connectionId);
              && conn.Ok? && conn.value.Some? && conn.value.value.counterparty.connectionId.Some?
              && OtherSide(ev, md).connection
                 == C.ConnectionMetadata(conn.value.value.counterparty.clientId,
                                         conn.value.value.counterparty.connectionId.value)
  {
    var p := ev.packet;
    var sides :- if ev.IsOutboundPacket()
                 then P.MakePacketMetadata(m, v, h, p.connectionId, p.srcPort, p.srcChannel, p.dstPort, p.dstChannel)
                 else P.MakePacketMetadata(m, v, h, p.connectionId, p.dstPort, p.dstChannel, p.srcPort, p.srcChannel);
    var source := if ev.IsOutboundPacket() then sides.selfSide else sides.otherSide;
    var destination := if ev.IsOutboundPacket() then sides.otherSide else sides.selfSide;
    var md := C.PacketMetadata(p.sequence, source, destination, sides.ordering, p.timeoutHeight, p.timeoutTimestamp);
    var full := match ev
                case SendPacket(_, d) => C.SendPacket(d, md)
                case RecvPacket(_, d) => C.RecvPacket(d, md)
                case WriteAcknowledgement(_, d, a) => C.WriteAcknowledgement(d, a, md)
                case AcknowledgePacket(_) => C.AcknowledgePacket(md)
                case TimeoutPacket(_) => C.TimeoutPacket(md);
    Done(ChainEvent(m.chainId, sides.clientInfo, sides.counterpartyChainId, tx, h.Increment(), IbcClassicId,
                    ClassicFull(full)))
  }

  // ---------------------------------------------------------------------------
  // Union vocabulary

  predicate IsUnionClientLevel(ev: UnionEvent) {
    ev.UnionCreateClient? || ev.UnionUpdateClient? || ev.UnionConnectionOpenInit? || ev.UnionConnectionOpenTry?
    || ev.UnionConnectionOpenAck? || ev.UnionConnectionOpenConfirm?
  }

  /** Union client and connection events, resolved through their own client.
      `UpdateClient` takes its client type from the client info. */
  function UnionClientEvent(m: Module, v: VoyagerClient, h: Height, tx: H256, ev: UnionEvent)
    : (r: Outcome<ChainEvent>)
    requires IsUnionClientLevel(ev)
    ensures r.Done? <==> v.UnionClientKnown(m.chainId, h, ev.clientId)
    ensures r.Done? ==> UnionClientOf(m, v, h, ev.clientId, r.value) && r.value.txHash == tx
                        && UnionCorresponds(ev, r.value.event.union)
    ensures r.Done? && ev.UnionUpdateClient? ==> r.value.event.union.clientType == r.value.clientInfo.clientType
    ensures v.UnionClientErrorsPropagate(m.chainId, h, ev.clientId, r)
    ensures !r.Panic?
  {
    var info :- Lift(v.unionClientInfo(m.chainId, ev.clientId));
    var meta :- Lift(v.unionClientMeta(m.chainId, Specific(h), ev.clientId));
    var full := match ev
                case UnionCreateClient(c, t) => U.CreateClient(c, t)
                case UnionUpdateClient(c, height) => U.UpdateClient(c, info.clientType, height)
                case UnionConnectionOpenInit(conn, c, cc) => U.ConnectionOpenInit(c, conn, cc)
                case UnionConnectionOpenTry(conn, c, cc, ccon) => U.ConnectionOpenTry(conn, ccon, c, cc)
                case UnionConnectionOpenAck(conn, c, cc, ccon) => U.ConnectionOpenAck(conn, ccon, c, cc)
                case UnionConnectionOpenConfirm(conn, c, cc, ccon) => U.ConnectionOpenConfirm(conn, ccon, c, cc);
    Done(ChainEvent(m.chainId, info, meta.chainId, tx, h.Increment(), IbcUnionId, UnionFull(full)))
  }

  /** Union `ChannelOpenTry`: the named connection must exist (an absent one
      aborts) and its client resolves the event. */
  function UnionChannelOpenTryEvent(m: Module, v: VoyagerClient, h: Height, tx: H256, ev: UnionEvent)
    : (r: Outcome<ChainEvent>)
    requires ev.UnionChannelOpenTry?
    ensures r.Done? <==> UnionConnectionResolves(m, v, h, ev.connectionId)
    ensures UnionConnectionErrorsPropagate(m, v, h, ev.connectionId, r)
    ensures r.Panic? ==> r.message == UnwrapNone
    ensures r.Done? ==>
              && r.value.txHash == tx
              && r.value.event.UnionFull?
              && UnionCorresponds(ev, r.value.event.union)
              && v.unionConnection(m.chainId, Specific(h), ev.connectionId) == Ok(Some(r.value.event.union.connection))
              && UnionClientOf(m, v, h, r.value.event.union.connection.clientId, r.value)
  {
    var state :- Lift(v.unionConnection(m.chainId, Specific(h), ev.connectionId));
    var connection :- Unwrap(state);
    var info :- Lift(v.unionClientInfo(m.chainId, connection.clientId));
    var meta :- Lift(v.unionClientMeta(m.chainId, Specific(h), connection.clientId));
    var full := U.ChannelOpenTry(ev.portId, ev.channelId, ev.counterpartyPortId, ev.counterpartyChannelId,
                                 connection, ev.counterpartyVersion);
    Done(ChainEvent(m.chainId, info, meta.chainId, tx, h.Increment(), IbcUnionId, UnionFull(full)))
  }

  /** Union `ChannelOpenConfirm`: this chain's channel (for its version) and the
      connection the event names are both read at the event height. */
  function UnionChannelOpenConfirmEvent(m: Module, v: VoyagerClient, h: Height, tx: H256, ev: UnionEvent)
    : (r: Outcome<ChainEvent>)
    requires ev.UnionChannelOpenConfirm?
    ensures r.Done? <==> Found(v.unionChannel(m.chainId, Specific(h), ev.channelId))
                         && UnionConnectionResolves(m, v, h, ev.connectionId)
    // the channel is read first, then the connection and its client
    ensures var channel := v.unionChannel(m.chainId, Specific(h), ev.channelId);
            && (channel.Err? ==> r == Fail(channel.error))
            && (channel == Ok(None) ==> r == Panic(UnwrapNone))
            && (Found(channel) ==> UnionConnectionErrorsPropagate(m, v, h, ev.connectionId, r))
    ensures r.Panic? ==> r.message == UnwrapNone
    ensures r.Done? ==>
              && r.value.txHash == tx
              && r.value.event.UnionFull?
              && UnionCorresponds(ev, r.value.event.union)
              && v.unionConnection(m.chainId, Specific(h), ev.connectionId) == Ok(Some(r.value.event.union.connection))
              && UnionClientOf(m, v, h, r.value.event.union.connection.clientId, r.value)
              && var channel := v.unionChannel(m.chainId, Specific(h), ev.channelId);
              && channel.Ok? && channel.value.Some?
              && r.value.event.union.version == channel.value.value.version
  {
    var channelState :- Lift(v.unionChannel(m.chainId, Specific(h), ev.channelId));
    var channel :- Unwrap(channelState);
    var state :- Lift(v.unionConnection(m.chainId, Specific(h), ev.connectionId));
    var connection :- Unwrap(state);
    var info :- Lift(v.unionClientInfo(m.chainId, connection.clientId));
    var meta :- Lift(v.unionClientMeta(m.chainId, Specific(h), connection.clientId));
    var full := U.ChannelOpenConfirm(ev.portId, ev.channelId, ev.counterpartyPortId, ev.counterpartyChannelId,
                                     connection, channel.version);
    Done(ChainEvent(m.chainId, info, meta.chainId, tx, h.Increment(), IbcUnionId, UnionFull(full)))
  }

  /** Union `PacketSend`: the source channel is read at the event height, then
      the connection it runs over; the destination end is that connection's
      counterparty, and it is given the source channel's version. */
  function UnionSendPacketEvent(m: Module, v: VoyagerClient, h: Height, tx: H256, ev: UnionEvent)
    : (r: Outcome<ChainEvent>)
    requires ev.UnionSendPacket?
    ensures var channel := v.unionChannel(m.chainId, Specific(h), ev.packet.sourceChannel);
            r.Done? <==> Found(channel) && UnionConnectionResolves(m, v, h, channel.value.value.connectionId)
    // the source channel is read first, then the connection it names and its client
    ensures var channel := v.unionChannel(m.chainId, Specific(h), ev.packet.sourceChannel);
            && (channel.Err? ==> r == Fail(channel.error))
            && (channel == Ok(None) ==> r == Panic(UnwrapNone))
            && (Found(channel) ==> UnionConnectionErrorsPropagate(m, v, h, channel.value.value.connectionId, r))
    ensures r.Panic? ==> r.message == UnwrapNone
    ensures r.Done? ==>
              && r.value.txHash == tx
              && r.value.event.UnionFull?
              && UnionCorresponds(ev, r.value.event.union)
              && var channel := v.unionChannel(m.chainId, Specific(h), ev.packet.sourceChannel);
              && channel.Ok? && channel.value.Some?
              && var conn := v.unionConnection(m.chainId, Specific(h), channel.value.value.connectionId);
              && conn.Ok? && conn.value.Some?
              && UnionClientOf(m, v, h, conn.value.value.clientId, r.value)
              && r.value.event.union.packet.sourceChannel
                 == U.ChannelMetadata(ev.packet.sourceChannel, channel.value.value.version,
                                      U.ConnectionMetadata(conn.value.value.clientId, channel.value.value.connectionId))
              && r.value.event.union.packet.destinationChannel
                 == U.ChannelMetadata(ev.packet.destinationChannel, channel.value.value.version,
                                      U.ConnectionMetadata(conn.value.value.counterpartyClientId,
                                                           conn.value.value.counterpartyConnectionId))
  {
    var p := ev.packet;
    var channelState :- Lift(v.unionChannel(m.chainId, Specific(h), p.sourceChannel));
    var channel :- Unwrap(channelState);
    var state :- Lift(v.unionConnection(m.chainId, Specific(h), channel.connectionId));
    var connection :- Unwrap(state);
    var info :- Lift(v.unionClientInfo(m.chainId, connection.clientId));
    var meta :- Lift(v.unionClientMeta(m.chainId, Specific(h), connection.clientId));
    var md := U.PacketMetadata(
      U.ChannelMetadata(p.sourceChannel, channel.version, U.ConnectionMetadata(connection.clientId, channel.connectionId)),
      U.ChannelMetadata(p.destinationChannel, channel.version,
                        U.ConnectionMetadata(connection.counterpartyClientId, connection.counterpartyConnectionId)),
      p.timeoutHeight, p.timeoutTimestamp);
    Done(ChainEvent(m.chainId, info, meta.chainId, tx, h.Increment(), IbcUnionId, UnionFull(U.PacketSend(p.data, md))))
  }

  // ---------------------------------------------------------------------------
  // The whole arm

  /** `MakeChainEvent { height, tx_hash, event }`. */
  function MakeChainEvent(m: Module, v: VoyagerClient, h: Height, tx: H256, ev: IbcEvent): (r: Outcome<ChainEvent>)
    ensures r.Done? ==> r.value.chainId == m.chainId && r.value.provableHeight == h.Increment() && r.value.txHash == tx
    // the specification id names the vocabulary of the event, and follows the
    // vocabulary of the native event
    ensures r.Done? ==> (r.value.ibcSpecId == IbcClassicId <==> r.value.event.ClassicFull?)
    ensures r.Done? ==> (r.value.ibcSpecId == IbcClassicId <==> ev.Classic?)
    ensures r.Done? && ev.Classic? ==> Corresponds(ev.classic, r.value.event.classic)
    ensures r.Done? && ev.Union? ==> UnionCorresponds(ev.union, r.value.event.union)
    ensures ev.Classic? && ev.classic.SubmitEvidence? ==> r == Panic(ExplicitPanic)
    // every native event other than evidence and misbehaviour is canonicalised
    // once the state it needs is there
    ensures r.Done? <==> Emits(m, v, h, ev)
    // classic events abort only on evidence, misbehaviour and a connection
    // without a counterparty connection id; union events only on absent state
    ensures r.Panic? && ev.Classic? ==> r.message in {ExplicitPanic, WhoNeedsFlowTyping, P.CounterpartyConnectionUnset}
    ensures r.Panic? && ev.Union? ==> r.message == UnwrapNone
  {
    match ev
    case Classic(c) =>
      if c.SubmitEvidence? then Panic(ExplicitPanic)
      else if c.IsClientLevel() then ClassicClientEvent(m, v, h, tx, c)
      else if c.ChannelOpenInit? || c.ChannelOpenTry? then ChannelOpenInitOrTry(m, v, h, tx, c)
      else if c.ChannelOpenAck? || c.ChannelOpenConfirm? then ChannelOpenAckOrConfirm(m, v, h, tx, c)
      else PacketEvent(m, v, h, tx, c)
    case Union(u) =>
      if u.UnionChannelOpenTry? then UnionChannelOpenTryEvent(m, v, h, tx, u)
      else if u.UnionChannelOpenConfirm? then UnionChannelOpenConfirmEvent(m, v, h, tx, u)
      else if u.UnionSendPacket? then UnionSendPacketEvent(m, v, h, tx, u)
      else UnionClientEvent(m, v, h, tx, u)
  }

  // ---------------------------------------------------------------------------
  // Properties across events

  /** Every canonical event names, as its client and counterparty chain, a
      client of this chain in the event's own vocabulary, looked up at the
      event height. */
  lemma ResolvedThroughOwnClient(m: Module, v: VoyagerClient, h: Height, tx: H256, ev: IbcEvent)
    requires MakeChainEvent(m, v, h, tx, ev).Done?
    ensures ev.Classic? ==> exists c :: ClassicClientOf(m, v, h, c, MakeChainEvent(m, v, h, tx, ev).value)
    ensures ev.Union? ==> exists c :: UnionClientOf(m, v, h, c, MakeChainEvent(m, v, h, tx, ev).value)
  {
    var e := MakeChainEvent(m, v, h, tx, ev).value;
    match ev
    case Classic(c) =>
      if c.IsClientLevel() {
        assert ClassicClientOf(m, v, h, c.clientId, e);
      } else if c.ChannelOpenInit? || c.ChannelOpenTry? || c.ChannelOpenAck? || c.ChannelOpenConfirm? {
        assert ClassicClientOf(m, v, h, e.event.classic.connection.clientId, e);
      } else {
        var conn := v.classicConnection(m.chainId, Specific(h), c.packet.connectionId).value.value;
        assert ClassicClientOf(m, v, h, conn.clientId, e);
      }
    case Union(u) =>
      if IsUnionClientLevel(u) {
        assert UnionClientOf(m, v, h, u.clientId, e);
      } else if u.UnionChannelOpenTry? || u.UnionChannelOpenConfirm? {
        assert UnionClientOf(m, v, h, e.event.union.connection.clientId, e);
      } else {
        var channel := v.unionChannel(m.chainId, Specific(h), u.packet.sourceChannel).value.value;
        var conn := v.unionConnection(m.chainId, Specific(h), channel.connectionId).value.value;
        assert UnionClientOf(m, v, h, conn.clientId, e);
      }
  }

  /** A packet's `SendPacket` on its source chain and its `RecvPacket` on its
      destination chain canonicalise to the same packet identity: the same
      sequence, the same source end and the same destination end (port and
      channel), whichever chain observed it. Each chain's event names its own
      connection, so the two native packets may differ in that field. */
  lemma SendRecvAgree(
    mA: Module, vA: VoyagerClient, hA: Height, txA: H256,
    mB: Module, vB: VoyagerClient, hB: Height, txB: H256,
    pA: NativePacket, pB: NativePacket, dataA: Bytes, dataB: Bytes)
    requires pA.(connectionId := pB.connectionId) == pB
    requires MakeChainEvent(mA, vA, hA, txA, Classic(SendPacket(pA, dataA))).Done?
    requires MakeChainEvent(mB, vB, hB, txB, Classic(RecvPacket(pB, dataB))).Done?
    ensures var send := MakeChainEvent(mA, vA, hA, txA, Classic(SendPacket(pA, dataA))).value.event.classic.packet;
            var recv := MakeChainEvent(mB, vB, hB, txB, Classic(RecvPacket(pB, dataB))).value.event.classic.packet;
            && send.sequence == recv.sequence
            && send.sourceChannel.portId == recv.sourceChannel.portId
            && send.sourceChannel.channelId == recv.sourceChannel.channelId
            && send.destinationChannel.portId == recv.destinationChannel.portId
            && send.destinationChannel.channelId == recv.destinationChannel.channelId
    // so the Send's source channel is the Recv's destination channel only when
    // the two chains happen to use the same channel id
    ensures var send := MakeChainEvent(mA, vA, hA, txA, Classic(SendPacket(pA, dataA))).value.event.classic.packet;
            var recv := MakeChainEvent(mB, vB, hB, txB, Classic(RecvPacket(pB, dataB))).value.event.classic.packet;
            send.sourceChannel.channelId == recv.destinationChannel.channelId <==> pA.srcChannel == pA.dstChannel
  {
  }

  /** On a Recv or WriteAcknowledgement this chain is the destination: the
      destination end carries the event's own connection, the source end that
      connection's counterparty. On Send, Timeout and Acknowledge it is the
      other way round. */
  lemma PacketEndsFollowDirection(m: Module, v: VoyagerClient, h: Height, tx: H256, c: ClassicEvent)
    requires c.IsOutboundPacket() || c.IsInboundPacket()
    requires MakeChainEvent(m, v, h, tx, Classic(c)).Done?
    ensures var md := MakeChainEvent(m, v, h, tx, Classic(c)).value.event.classic.packet;
            var mine := if c.IsOutboundPacket() then md.sourceChannel else md.destinationChannel;
            mine.connection.connectionId == c.packet.connectionId
  {
    assert MakeChainEvent(m, v, h, tx, Classic(c)) == PacketEvent(m, v, h, tx, c);
  }

  /** A missing connection is a retryable error in every step of the classic
      channel handshake, but aborts in the union one: in `ChannelOpenTry`, and
      in `ChannelOpenConfirm` once its channel is found. */
  lemma MissingConnectionHandling(
    m: Module, v: VoyagerClient, h: Height, tx: H256, classic: ClassicEvent, union: UnionEvent)
    ensures (&& (classic.ChannelOpenInit? || classic.ChannelOpenTry? || classic.ChannelOpenAck? || classic.ChannelOpenConfirm?)
             && v.classicConnection(m.chainId, Specific(h), classic.connectionId) == Ok(None))
            ==> MakeChainEvent(m, v, h, tx, Classic(classic)) == Fail(MissingState(P.ConnectionMustExist))
    ensures (&& union.UnionChannelOpenTry?
             && v.unionConnection(m.chainId, Specific(h), union.connectionId) == Ok(None))
            ==> MakeChainEvent(m, v, h, tx, Union(union)) == Panic(UnwrapNone)
    ensures (&& union.UnionChannelOpenConfirm?
             && Found(v.unionChannel(m.chainId, Specific(h), union.channelId))
             && v.unionConnection(m.chainId, Specific(h), union.connectionId) == Ok(None))
            ==> MakeChainEvent(m, v, h, tx, Union(union)) == Panic(UnwrapNone)
  {
  }

  /** `ClientMisbehaviour` never yields an event: a failing client lookup is
      returned as such, and otherwise the call aborts. */
  lemma MisbehaviourNeverEmits(m: Module, v: VoyagerClient, h: Height, tx: H256, c: ClassicEvent)
    requires c.ClientMisbehaviour?
    ensures !MakeChainEvent(m, v, h, tx, Classic(c)).Done?
    ensures v.classicClientInfo(m.chainId, c.clientId).Ok? && v.classicClientMeta(m.chainId, Specific(h), c.clientId).Ok?
            ==> MakeChainEvent(m, v, h, tx, Classic(c)) == Panic(WhoNeedsFlowTyping)
  {
    assert MakeChainEvent(m, v, h, tx, Classic(c)) == ClassicClientEvent(m, v, h, tx, c);
  }
}
