/** The Tendermint light client's `ConsensusState` with its protobuf and
    Solidity-ABI forms. */
module TendermintConsensus {
  import opened Outcomes
  import opened Bytes
  import opened Commitment
  import T = Timestamps
  import opened Integers

  datatype ConsensusState = ConsensusState(
    timestamp: T.Timestamp,
    root: MerkleRoot,
    nextValidatorsHash: H256)

  /** `ibc.lightclients.tendermint.v1.ConsensusState`: both message fields are
      optional on the wire and the hash is an unchecked byte string. */
  datatype ProtoConsensusState = ProtoConsensusState(
    timestamp: Option<T.ProtoTimestamp>,
    root: Option<ProtoMerkleRoot>,
    nextValidatorsHash: Bytes)

  /** The decoding error; `MissingField` names the absent field. */
  datatype Error =
    | MissingField(field: string)
    | Root(root: TryFromMerkleRootError)
    | NextValidatorsHash(invalid: InvalidLength)
    | Timestamp(timestamp: T.TryFromTimestampError)

  /** `required!(field)`: an absent message field is a `MissingField` error. */
  function Required<X>(field: string, v: Option<X>): (r: Result<X, Error>)
    ensures r.Ok? <==> v.Some?
    ensures v.Some? ==> r.value == v.value
    ensures v.None? ==> r.error == MissingField(field)
  {
    match v
    case Some(x) => Ok(x)
    case None => Err(MissingField(field))
  }

  /** `TryFrom<proto> for ConsensusState`. The fields are checked in the order
      timestamp, root, next validators hash, and the first failure decides the
      error; a decoded state re-encodes to the message it came from. */
  function FromProto(p: ProtoConsensusState): (r: Result<ConsensusState, Error>)
    ensures p.timestamp.None? ==> r == Err(MissingField("timestamp"))
    ensures p.timestamp.Some? && T.FromProto(p.timestamp.value).Err?
            ==> r == Err(Timestamp(T.TryFromTimestampError))
    ensures p.timestamp.Some? && T.FromProto(p.timestamp.value).Ok? && p.root.None?
            ==> r == Err(MissingField("root"))
    ensures p.timestamp.Some? && T.FromProto(p.timestamp.value).Ok? && p.root.Some?
            && |p.root.value.hash| != HashLength
            ==> r == Err(Root(Hash(InvalidLength(HashLength, |p.root.value.hash|))))
    ensures p.timestamp.Some? && T.FromProto(p.timestamp.value).Ok? && p.root.Some?
            && |p.root.value.hash| == HashLength && |p.nextValidatorsHash| != HashLength
            ==> r == Err(NextValidatorsHash(InvalidLength(HashLength, |p.nextValidatorsHash|)))
    ensures r.Ok? <==> (&& p.timestamp.Some? && T.Representable(p.timestamp.value)
                        && p.root.Some? && |p.root.value.hash| == HashLength
                        && |p.nextValidatorsHash| == HashLength)
    ensures r.Ok? ==> ToProto(r.value) == p
  {
    var ts :- Required("timestamp", p.timestamp);
    var timestamp :- T.FromProto(ts).MapError(e => Timestamp(e));
    var rt :- Required("root", p.root);
    var root :- Commitment.FromProto(rt).MapError(e => Root(e));
    var nextValidatorsHash :- ToH256(p.nextValidatorsHash).MapError(e => NextValidatorsHash(e));
    T.ProtoRoundTripBack(ts);
    Ok(ConsensusState(timestamp, root, nextValidatorsHash))
  }

  /** `From<ConsensusState> for proto`: both message fields present, the hash
      bytes copied. */
  function ToProto(cs: ConsensusState): (p: ProtoConsensusState)
    ensures p.timestamp.Some? && p.root.Some?
    ensures p.root.value.hash == cs.root.hash
    ensures p.nextValidatorsHash == cs.nextValidatorsHash
  {
    ProtoConsensusState(
      Some(T.ToProto(cs.timestamp)),
      Some(Commitment.ToProto(cs.root)),
      cs.nextValidatorsHash)
  }

  /** Every consensus state survives the trip through its protobuf form. */
  lemma {:induction false} ProtoRoundTrip(cs: ConsensusState)
    ensures FromProto(ToProto(cs)) == Ok(cs)
  {
    T.ProtoRoundTrip(cs.timestamp);
  }

  /** `SolConsensusState`: a `uint64` and two `bytes32`. */
  datatype SolConsensusState = SolConsensusState(
    timestamp: U64,
    root: H256,
    nextValidatorsHash: H256)

  /** `From<ConsensusState> for SolConsensusState`: nanoseconds and raw hashes,
      and nothing is lost on the way. */
  function ToSol(cs: ConsensusState): (s: SolConsensusState)
    ensures s.timestamp == T.AsUnixNanos(cs.timestamp)
    ensures s.root == cs.root.hash
    ensures s.nextValidatorsHash == cs.nextValidatorsHash
    ensures FromSol(s) == cs
  {
    SolConsensusState(T.AsUnixNanos(cs.timestamp), cs.root.hash, cs.nextValidatorsHash)
  }

  /** `From<SolConsensusState> for ConsensusState`: total (the timestamp
      conversion from a `u64` of nanoseconds cannot fail), and the inverse of
      `ToSol`. */
  function FromSol(s: SolConsensusState): (cs: ConsensusState)
    ensures cs.root == FromHash(s.root)
    ensures cs.nextValidatorsHash == s.nextValidatorsHash
    ensures T.AsUnixNanos(cs.timestamp) == s.timestamp
  {
    ConsensusState(T.FromUnixNanos(s.timestamp), FromHash(s.root), s.nextValidatorsHash)
  }

  /** The ABI encoding is the inverse of decoding too. */
  lemma SolRoundTrip(s: SolConsensusState)
    ensures ToSol(FromSol(s)) == s
  {
  }
}
