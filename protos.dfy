/**
 * The slice of the protobuf messages (package `common`) that the chain facade
 * reads and writes, plus the collaborators that turn them into bytes and sign
 * them. Encoding and signing are foreign code: they are carried as function
 * values, so every property below holds for any encoder and any signer.
 */
module Protos {

  newtype byte = x: int | 0 <= x < 256

  type Bytes = seq<byte>

  /** Go's uint64, used for block numbers and configuration sequence numbers. */
  newtype uint64 = x: int | 0 <= x < 0x1_0000_0000_0000_0000

  datatype Envelope = Envelope(payload: Bytes, signature: Bytes)

  datatype BlockHeader = BlockHeader(number: uint64, previousHash: Bytes, dataHash: Bytes)

  datatype BlockData = BlockData(data: seq<Bytes>)

  /** A block as a value: what the ledger stores once it is appended. */
  datatype BlockValue = BlockValue(header: BlockHeader, data: BlockData, metadata: seq<Bytes>)

  datatype MetadataSignature = MetadataSignature(signatureHeader: Bytes, signature: Bytes)

  datatype Metadata = Metadata(value: Bytes, signatures: seq<MetadataSignature>)

  datatype LastConfiguration = LastConfiguration(index: uint64)

  /** Slots of the block metadata array (common.BlockMetadataIndex). */
  const SIGNATURES: nat := 0
  const LAST_CONFIGURATION: nat := 1

  /**
   * The encoders the facade calls: `Header.Bytes()` and `utils.MarshalOrPanic`
   * on the two message kinds it builds.
   */
  datatype Codec = Codec(
    headerBytes: BlockHeader -> Bytes,
    marshalMetadata: Metadata -> Bytes,
    marshalLastConfiguration: LastConfiguration -> Bytes)

  /** Marshalling loses no information: distinct messages encode differently. */
  ghost predicate Injective(codec: Codec)
  {
    && (forall m, m' :: codec.marshalMetadata(m) == codec.marshalMetadata(m') ==> m == m')
    && (forall c, c' :: codec.marshalLastConfiguration(c) == codec.marshalLastConfiguration(c') ==> c == c')
  }

  /** The signing half of the chain's Signer (`Sign(message []byte) []byte`). */
  datatype Signer = Signer(sign: Bytes -> Bytes)

  /** util.ConcatenateBytes: the parts joined in order. */
  function ConcatenateBytes(parts: seq<Bytes>): (r: Bytes)
    ensures parts == [] ==> r == []
    ensures parts != [] ==> |parts[0]| <= |r| && r[..|parts[0]|] == parts[0]
  {
    if parts == [] then [] else parts[0] + ConcatenateBytes(parts[1..])
  }

  /** The joined bytes end with the last part. */
  lemma {:induction false} ConcatenateEndsWithLast(parts: seq<Bytes>)
    requires parts != []
    ensures var r, last := ConcatenateBytes(parts), parts[|parts| - 1];
      |last| <= |r| && r[|r| - |last|..] == last
  {
    var r, last := ConcatenateBytes(parts), parts[|parts| - 1];
    if |parts| == 1 {
      assert ConcatenateBytes(parts[1..]) == [];
      assert r == parts[0] + [];
    } else {
      var rest := ConcatenateBytes(parts[1..]);
      ConcatenateEndsWithLast(parts[1..]);
      assert parts[1..][|parts[1..]| - 1] == last;
      assert r == parts[0] + rest;
      assert r[|r| - |last|..] == rest[|rest| - |last|..];
    }
  }

  /** Three parts, the only arity the facade uses, join to their plain concatenation. */
  lemma {:induction false} ConcatenateThree(a: Bytes, b: Bytes, c: Bytes)
    ensures ConcatenateBytes([a, b, c]) == a + b + c
  {
    var parts := [a, b, c];
    assert parts[1..] == [b, c];
    assert parts[1..][1..] == [c];
    assert parts[1..][1..][1..] == [];
    calc {
      ConcatenateBytes(parts);
      a + ConcatenateBytes([b, c]);
      a + (b + ConcatenateBytes([c]));
      a + (b + (c + ConcatenateBytes([])));
    }
    assert c + [] == c;
  }

  /** A nil leading value contributes nothing to the signed bytes. */
  lemma NilValueSigned(signatureHeader: Bytes, headerBytes: Bytes)
    ensures ConcatenateBytes([[], signatureHeader, headerBytes]) == signatureHeader + headerBytes
  {
    ConcatenateThree([], signatureHeader, headerBytes);
  }
}
