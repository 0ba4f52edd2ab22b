/** The IBC commitment root (`MerkleRoot`) and its protobuf form. */
module Commitment {
  import opened Outcomes
  import opened Bytes

  /** A commitment root always holds a full 32-byte hash. */
  datatype MerkleRoot = MerkleRoot(hash: H256)

  /** The protobuf message `ibc.core.commitment.v1.MerkleRoot`: any byte string. */
  datatype ProtoMerkleRoot = ProtoMerkleRoot(hash: Bytes)

  datatype TryFromMerkleRootError = Hash(invalid: InvalidLength)

  /** `From<H256> for MerkleRoot`. */
  function FromHash(h: H256): MerkleRoot {
    MerkleRoot(h)
  }

  /** `TryFrom<proto> for MerkleRoot`: succeeds exactly on 32-byte hashes,
      keeps those bytes as the root, and otherwise reports the length found. */
  function FromProto(p: ProtoMerkleRoot): (r: Result<MerkleRoot, TryFromMerkleRootError>)
    ensures r.Ok? <==> |p.hash| == HashLength
    ensures r.Ok? ==> r.value.hash == p.hash
    ensures r.Err? ==> r.error == Hash(InvalidLength(HashLength, |p.hash|))
  {
    var hash :- ToH256(p.hash).MapError(e => Hash(e));
    Ok(MerkleRoot(hash))
  }

  /** `From<MerkleRoot> for proto`: the message carries exactly the root's 32
      hash bytes, and decoding it gives the root back. */
  function ToProto(root: MerkleRoot): (p: ProtoMerkleRoot)
    ensures |p.hash| == HashLength
    ensures FromProto(p) == Ok(root)
  {
    ProtoMerkleRoot(root.hash)
  }

  /** A decoded root re-encodes to the very message it came from. */
  lemma DecodeThenEncode(p: ProtoMerkleRoot)
    requires FromProto(p).Ok?
    ensures ToProto(FromProto(p).value) == p
  {
  }

  /** Decoding the bytes of a hash yields that hash wrapped unchanged. */
  lemma FromHashDecodes(h: H256)
    ensures FromProto(ProtoMerkleRoot(h)) == Ok(FromHash(h))
    ensures FromHash(h).hash == h
  {
  }
}
