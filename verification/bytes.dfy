/**
  Bytes and 16-byte blocks, the unit every constant in the key header is made of
  (each source, mask and table entry is a `u8[0x10]`, the size of one AES block and
  one 128-bit key).
 */
module Bytes {

  type Byte = bv8

  /** `SE_KEY_128_SIZE`, `SE_AES_IV_SIZE` and `SE_AES_CMAC_DIGEST_SIZE`: one AES block. */
  const BlockSize: nat := 0x10

  predicate IsBlock(b: seq<Byte>) {
    |b| == BlockSize
  }

  /** Every entry of `table` is a whole block. */
  predicate AllBlocks(table: seq<seq<Byte>>) {
    forall i :: 0 <= i < |table| ==> IsBlock(table[i])
  }

  predicate IsZero(b: seq<Byte>) {
    forall i :: 0 <= i < |b| ==> b[i] == 0
  }

  /** Byte-wise exclusive or, the operation a seal-key mask is applied with. */
  function Xor(a: seq<Byte>, b: seq<Byte>): (r: seq<Byte>)
    requires |a| == |b|
    ensures |r| == |a|
    ensures forall i :: 0 <= i < |a| ==> r[i] == a[i] ^ b[i]
  {
    if |a| == 0 then [] else [a[0] ^ b[0]] + Xor(a[1..], b[1..])
  }

  /** An all-zero mask is the identity of `Xor`, and it is the only mask that is. */
  lemma XorIdentityIffZero(b: seq<Byte>, m: seq<Byte>)
    requires |b| == |m|
    ensures Xor(b, m) == b <==> IsZero(m)
  {
    if Xor(b, m) == b {
      forall i | 0 <= i < |m|
        ensures m[i] == 0
      {
        assert b[i] ^ m[i] == b[i];
      }
    }
    if IsZero(m) {
      assert forall i :: 0 <= i < |b| ==> Xor(b, m)[i] == b[i];
    }
  }

  /** Applying the same mask twice restores the block: a mask never loses information. */
  lemma XorInvolutive(b: seq<Byte>, m: seq<Byte>)
    requires |b| == |m|
    ensures Xor(Xor(b, m), m) == b
  {
    assert forall i :: 0 <= i < |b| ==> Xor(Xor(b, m), m)[i] == b[i];
  }

  /**
    Masking one block under two different masks gives results that differ by
    exactly the exclusive or of the two masks, whatever the block.
   */
  lemma XorMaskDifference(b: seq<Byte>, m0: seq<Byte>, m1: seq<Byte>)
    requires |b| == |m0| == |m1|
    ensures Xor(Xor(b, m0), Xor(b, m1)) == Xor(m0, m1)
  {
    assert forall i :: 0 <= i < |b| ==> Xor(Xor(b, m0), Xor(b, m1))[i] == Xor(m0, m1)[i];
  }
}
