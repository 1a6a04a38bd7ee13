/**
 * The connector upload protocol's helpers: an incremental SHA-256 calculator
 * that counts the bytes it is fed and computes its digest once, one-shot
 * checksums, and document references.
 */
module StreamingProtocol {
  import opened Wrappers
  import opened Strings
  import opened Encodings

  /** SHA-256 itself (FIPS 180-4) is not modelled: `Sha256` stands for Node's `createHash('sha256')`. */
  type Sha256 = seq<Byte> -> seq<Byte>

  /**
   * `StreamingHashCalculator`. `absorbed` is what the underlying hash object has
   * been given so far; once the digest is taken the hash object is finalised
   * and refuses further input.
   */
  class StreamingHashCalculator {
    const sha256: Sha256
    var absorbed: seq<Byte>
    var bytesProcessed: nat
    var cachedDigest: Option<seq<Byte>>

    /** The counter is the number of bytes absorbed, and a cached digest is the digest of them. */
    ghost predicate Valid()
      reads this
    {
      bytesProcessed == |absorbed|
      && (cachedDigest.Some? ==> cachedDigest.value == sha256(absorbed))
    }

    constructor (sha256: Sha256)
      ensures Valid()
      ensures this.sha256 == sha256
      ensures absorbed == [] && bytesProcessed == 0 && cachedDigest == None
    {
      this.sha256 := sha256;
      absorbed := [];
      bytesProcessed := 0;
      cachedDigest := None;
    }

    /**
     * `update`: feeds the chunk and adds its length to the counter. After the
     * digest has been taken the hash object throws before anything changes
     * (`accepted` is false).
     */
    method Update(chunk: seq<Byte>) returns (accepted: bool)
      requires Valid()
      modifies this
      ensures Valid()
      ensures accepted <==> old(cachedDigest).None?
      ensures absorbed == if accepted then old(absorbed) + chunk else old(absorbed)
      ensures bytesProcessed == old(bytesProcessed) + if accepted then |chunk| else 0
      ensures cachedDigest == old(cachedDigest)
    {
      if cachedDigest.Some? {
        return false;
      }
      absorbed := absorbed + chunk;
      bytesProcessed := bytesProcessed + |chunk|;
      accepted := true;
    }

    /** `getDigest`: computes the digest on the first call only, then serves the cached one. */
    method GetDigest() returns (digest: seq<Byte>)
      requires Valid()
      modifies this
      ensures Valid()
      ensures digest == sha256(absorbed)
      ensures cachedDigest == Some(digest)
      ensures old(cachedDigest).Some? ==> digest == old(cachedDigest).value
      ensures absorbed == old(absorbed) && bytesProcessed == old(bytesProcessed)
    {
      if cachedDigest.None? {
        cachedDigest := Some(sha256(absorbed));
      }
      digest := cachedDigest.value;
    }

    /** `getHashBase64`: the digest of everything fed, in base64. */
    method GetHashBase64() returns (text: string)
      requires Valid()
      modifies this
      ensures Valid()
      ensures text == Base64(sha256(absorbed))
      ensures cachedDigest == Some(sha256(absorbed))
      ensures absorbed == old(absorbed) && bytesProcessed == old(bytesProcessed)
    {
      var digest := GetDigest();
      text := Base64(digest);
    }

    /** `getHashHex`: the digest of everything fed, in hexadecimal. */
    method GetHashHex() returns (text: string)
      requires Valid()
      modifies this
      ensures Valid()
      ensures text == Hex(sha256(absorbed))
      ensures cachedDigest == Some(sha256(absorbed))
      ensures absorbed == old(absorbed) && bytesProcessed == old(bytesProcessed)
    {
      var digest := GetDigest();
      text := Hex(digest);
    }

    /** `getBytesProcessed`: the number of bytes fed so far. */
    function GetBytesProcessed(): (n: nat)
      requires Valid()
      reads this
      ensures n == |absorbed|
    {
      bytesProcessed
    }
  }

  /** `calculateChecksum`: the hexadecimal SHA-256 of a buffer. */
  function CalculateChecksum(sha256: Sha256, data: seq<Byte>): string {
    Hex(sha256(data))
  }

  /** `calculateChecksumBase64`: the base64 SHA-256 of a buffer. */
  function CalculateChecksumBase64(sha256: Sha256, data: seq<Byte>): string {
    Base64(sha256(data))
  }

  /** The hexadecimal and base64 checksums are two spellings of one digest. */
  lemma ChecksumsAgree(sha256: Sha256, data: seq<Byte>)
    ensures FromHex(CalculateChecksum(sha256, data)) == Some(sha256(data))
    ensures FromBase64(CalculateChecksumBase64(sha256, data)) == Some(sha256(data))
  {
    HexRoundTrip(sha256(data));
    Base64RoundTrip(sha256(data));
  }

  /**
   * Feeding a buffer chunk by chunk and then reading both encodings gives the
   * one-shot checksums of the whole buffer, and counts every byte.
   */
  method HashInChunks(sha256: Sha256, chunks: seq<seq<Byte>>) returns (hex: string, base64: string, count: nat)
    ensures hex == CalculateChecksum(sha256, Concat(chunks))
    ensures base64 == CalculateChecksumBase64(sha256, Concat(chunks))
    ensures count == |Concat(chunks)|
    ensures FromHex(hex) == FromBase64(base64)
  {
    var calculator := new StreamingHashCalculator(sha256);
    for i := 0 to |chunks|
      invariant calculator.Valid() && calculator.sha256 == sha256
      invariant calculator.cachedDigest.None?
      invariant calculator.absorbed == Concat(chunks[..i])
    {
      var _ := calculator.Update(chunks[i]);
      assert chunks[..i + 1][..i] == chunks[..i];
    }
    assert chunks[..|chunks|] == chunks;
    hex := calculator.GetHashHex();
    base64 := calculator.GetHashBase64();
    count := calculator.GetBytesProcessed();
    ChecksumsAgree(sha256, Concat(chunks));
  }

  /** `createDocumentRef`: `connectorId:filePath:suffix`, where a missing or empty suffix is replaced by `generated`. */
  function CreateDocumentRef(connectorId: string, filePath: string, uniqueSuffix: Option<string>, generated: string): string {
    connectorId + ":" + filePath + ":" + OrElse(uniqueSuffix.GetOr(""), generated)
  }

  /** The suffix made when none is given: the time in milliseconds, a dash, and random base-36 text. */
  function GeneratedSuffix(nowMillis: nat, randomText: string): (r: string)
    ensures r != "" && Contains(r, "-")
  {
    var r := NatToDecimal(nowMillis) + "-" + randomText;
    ContainsMiddle(NatToDecimal(nowMillis), "-", randomText);
    r
  }

  /**
   * A reference begins with the connector id and a colon, and a given suffix
   * free of colons is what follows the reference's last colon.
   */
  lemma DocumentRefParts(connectorId: string, filePath: string, suffix: string, generated: string)
    requires suffix != "" && ':' !in suffix
    ensures StartsWith(CreateDocumentRef(connectorId, filePath, Some(suffix), generated), connectorId + ":")
    ensures LastSegment(CreateDocumentRef(connectorId, filePath, Some(suffix), generated), ':') == suffix
  {
    var r := CreateDocumentRef(connectorId, filePath, Some(suffix), generated);
    assert r == (connectorId + ":" + filePath) + [':'] + suffix;
    LastSegmentAfter(connectorId + ":" + filePath, ':', suffix);
    assert r[..|connectorId + ":"|] == connectorId + ":";
  }

  /** Without a usable suffix the generated one ends the reference. */
  lemma DocumentRefGenerated(connectorId: string, filePath: string, uniqueSuffix: Option<string>, generated: string)
    requires uniqueSuffix.None? || uniqueSuffix == Some("")
    requires ':' !in generated
    ensures LastSegment(CreateDocumentRef(connectorId, filePath, uniqueSuffix, generated), ':') == generated
  {
    var r := CreateDocumentRef(connectorId, filePath, uniqueSuffix, generated);
    assert r == (connectorId + ":" + filePath) + [':'] + generated;
    LastSegmentAfter(connectorId + ":" + filePath, ':', generated);
  }
}
