/** Byte-level vocabulary shared by the buffer models: bytes, the unsigned
    integer widths the engine uses, and the effect of copying a run of bytes
    into a larger byte range. */
module Bytes {

  /** One byte of host-visible device memory (`uint8_t`). */
  newtype byte = x: int | 0 <= x < 256

  /** 2^32: the range of `uint32_t`. */
  const U32Modulus: nat := 0x1_0000_0000

  /** 2^64: the range of `size_t` and `VkDeviceSize`. */
  const SizeModulus: nat := 0x1_0000_0000_0000_0000

  /** Values of a `uint32_t`. */
  type u32 = x: nat | x < U32Modulus

  /** `static_cast<uint32_t>` of an unsigned value: keeps the low 32 bits. */
  function ToU32(x: nat): (r: u32)
    ensures x < U32Modulus ==> r == x
    ensures (x - r) % U32Modulus == 0
  {
    x % U32Modulus
  }

  /** The bytes of `s` after `src` has been copied over `[offset, offset + |src|)`. */
  function Splice(s: seq<byte>, offset: nat, src: seq<byte>): (r: seq<byte>)
    requires offset + |src| <= |s|
    ensures |r| == |s|
    ensures r[offset..offset + |src|] == src
    ensures forall i :: 0 <= i < |s| && !(offset <= i < offset + |src|) ==> r[i] == s[i]
    ensures forall i :: offset <= i < offset + |src| ==> r[i] == src[i - offset]
  {
    s[..offset] + src + s[offset + |src|..]
  }
}
