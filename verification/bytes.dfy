/** Raw bytes and the fixed-width `H256` hash of the `unionlabs` crate. */
module Bytes {
  import opened Outcomes

  newtype uint8 = x: int | 0 <= x < 256

  type Bytes = seq<uint8>

  /** Number of bytes in an `H256`. */
  const HashLength: nat := 32

  /** A 32-byte hash. The text encoding the source attaches to the type
      (Base64, unprefixed hex) only affects serialisation and is not modelled. */
  type H256 = s: Bytes | |s| == HashLength witness seq(32, _ => 0)

  /** The `InvalidLength` error: the width that was expected and the one found. */
  datatype InvalidLength = InvalidLength(expected: nat, found: nat)

  /** `Vec<u8> -> H256` (`TryFrom`): accepts exactly the 32-byte inputs. */
  function ToH256(b: Bytes): (r: Result<H256, InvalidLength>)
    ensures r.Ok? <==> |b| == HashLength
    ensures r.Ok? ==> r.value == b
    ensures r.Err? ==> r.error == InvalidLength(HashLength, |b|)
  {
    if |b| == HashLength then Ok(b) else Err(InvalidLength(HashLength, |b|))
  }
}
