/** Optimism Bedrock's versioned message nonce: a 256-bit word whose top 16
    bits hold the message encoding version and whose low 240 bits hold the
    sequence number. The finalizer keeps only version-1 (Bedrock) messages. */
module VersionedNonce {

  /** 2^240: the version sits above this many low bits. */
  const VERSION_SHIFT: nat := 0x1000000000000000000000000000000000000000000000000000000000000

  /** 2^256: bound of a Solidity `uint256`. */
  const UINT256_BOUND: nat := 0x10000000000000000000000000000000000000000000000000000000000000000

  /** 2^16: bound of the version field. */
  const VERSION_BOUND: nat := 0x10000

  type Uint256 = n: nat | n < UINT256_BOUND

  /** The Bedrock message encoding version. */
  const BEDROCK_VERSION: nat := 1

  /** `BigNumber.from(nonce).shr(240)`: a right shift of a non-negative value
      is a floor division by 2^240. The result always fits the 16-bit version
      field, so the source's `toNumber()` never overflows. */
  function MessageVersion(nonce: Uint256): (version: nat)
    ensures version < VERSION_BOUND
    ensures version * VERSION_SHIFT <= nonce < (version + 1) * VERSION_SHIFT
  {
    nonce / VERSION_SHIFT
  }

  /** A message is kept iff its nonce carries the Bedrock version. */
  predicate IsBedrockNonce(nonce: Uint256) {
    MessageVersion(nonce) == BEDROCK_VERSION
  }

  /** Optimism's `encodeVersionedNonce`: the version shifted above the 240
      nonce bits, or-ed with the nonce (the fields do not overlap, so the or
      is an addition). */
  function EncodeVersionedNonce(nonce: nat, version: nat): (r: Uint256)
    requires nonce < VERSION_SHIFT
    requires version < VERSION_BOUND
  {
    version * VERSION_SHIFT + nonce
  }

  /** Decoding an encoded nonce recovers both fields. */
  lemma EncodeVersionedNonceRoundTrip(nonce: nat, version: nat)
    requires nonce < VERSION_SHIFT
    requires version < VERSION_BOUND
    ensures MessageVersion(EncodeVersionedNonce(nonce, version)) == version
    ensures EncodeVersionedNonce(nonce, version) % VERSION_SHIFT == nonce
  {
  }

  /** The version filter, stated on the raw nonce: kept exactly when the
      nonce lies in [2^240, 2^241). */
  lemma IsBedrockNonceRange(nonce: Uint256)
    ensures IsBedrockNonce(nonce) <==> VERSION_SHIFT <= nonce < 2 * VERSION_SHIFT
  {
  }
}
