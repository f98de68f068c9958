/**
  The byte layout of `keyblob_t` and `encrypted_keyblob_t`. Every member is a `u8` array,
  so the alignment is 1, there is no padding, and each field sits at the sum of the sizes
  of the fields declared before it. The encrypted record is sized to fill exactly one eMMC block; the block size
  (`NX_EMMC_BLOCKSIZE`) is a parameter, bounded below by what the fixed fields need.
 */
module Keyblob {

  import opened Bytes

  /** `SE_KEY_128_SIZE`: `master_kek` and `package1_key`. */
  const KeySize: nat := BlockSize
  /** `KEYBLOB_UNK_DATA_SIZE`. */
  const UnkDataSize: nat := 0x70
  /** `SE_AES_CMAC_DIGEST_SIZE`. */
  const CmacSize: nat := BlockSize
  /** `SE_AES_IV_SIZE`. */
  const IvSize: nat := BlockSize

  // Field offsets of keyblob_t, in declaration order.
  const MasterKekOffset: nat := 0
  const DataOffset: nat := MasterKekOffset + KeySize
  const Package1KeyOffset: nat := DataOffset + UnkDataSize
  /** `sizeof(keyblob_t)`. */
  const KeyblobSize: nat := Package1KeyOffset + KeySize

  // Field offsets of encrypted_keyblob_t, in declaration order.
  const CmacOffset: nat := 0
  const IvOffset: nat := CmacOffset + CmacSize
  const KeyDataOffset: nat := IvOffset + IvSize
  const UnusedOffset: nat := KeyDataOffset + KeyblobSize

  /** The smallest block the fixed fields fit in; a smaller one would make `unused` negative. */
  const MinBlockSize: nat := UnusedOffset

  lemma LayoutConstants()
    ensures DataOffset == 0x10 && Package1KeyOffset == 0x80 && KeyblobSize == 0x90
    ensures IvOffset == 0x10 && KeyDataOffset == 0x20 && UnusedOffset == 0xB0
  {
  }

  /** `KEYBLOB_UNUSED_SIZE`: what is left of the block after the cmac, the iv and the keyblob. */
  function UnusedSize(blockSize: nat): (n: nat)
    requires blockSize >= MinBlockSize
    ensures CmacSize + IvSize + KeyblobSize + n == blockSize
  {
    blockSize - CmacSize - IvSize - KeyblobSize
  }

  datatype Keyblob = Keyblob(masterKek: seq<Byte>, data: seq<Byte>, package1Key: seq<Byte>)

  predicate WellFormedKeyblob(k: Keyblob) {
    && |k.masterKek| == KeySize
    && |k.data| == UnkDataSize
    && |k.package1Key| == KeySize
  }

  datatype EncryptedKeyblob = EncryptedKeyblob(
    cmac: seq<Byte>,
    iv: seq<Byte>,
    keyData: Keyblob,
    unused: seq<Byte>)

  predicate WellFormedEncrypted(e: EncryptedKeyblob, blockSize: nat)
    requires blockSize >= MinBlockSize
  {
    && |e.cmac| == CmacSize
    && |e.iv| == IvSize
    && WellFormedKeyblob(e.keyData)
    && |e.unused| == UnusedSize(blockSize)
  }

  /** The bytes of a keyblob_t: its fields laid end to end. */
  function SerializeKeyblob(k: Keyblob): (bytes: seq<Byte>)
    requires WellFormedKeyblob(k)
    ensures |bytes| == KeyblobSize
  {
    k.masterKek + k.data + k.package1Key
  }

  /** View `KeyblobSize` bytes as a keyblob_t: each field is read at its offset. */
  function ParseKeyblob(bytes: seq<Byte>): (k: Keyblob)
    requires |bytes| == KeyblobSize
    ensures WellFormedKeyblob(k)
  {
    Keyblob(
      bytes[MasterKekOffset..DataOffset],
      bytes[DataOffset..Package1KeyOffset],
      bytes[Package1KeyOffset..KeyblobSize])
  }

  lemma KeyblobRoundTrip(k: Keyblob)
    requires WellFormedKeyblob(k)
    ensures ParseKeyblob(SerializeKeyblob(k)) == k
  {
    var bytes := SerializeKeyblob(k);
    assert bytes[MasterKekOffset..DataOffset] == k.masterKek;
    assert bytes[DataOffset..Package1KeyOffset] == k.data;
    assert bytes[Package1KeyOffset..KeyblobSize] == k.package1Key;
  }

  lemma KeyblobBytesRoundTrip(bytes: seq<Byte>)
    requires |bytes| == KeyblobSize
    ensures SerializeKeyblob(ParseKeyblob(bytes)) == bytes
  {
    var k := ParseKeyblob(bytes);
    assert bytes == bytes[..DataOffset] + bytes[DataOffset..Package1KeyOffset] + bytes[Package1KeyOffset..];
  }

  /** The bytes of an encrypted_keyblob_t: one whole eMMC block. */
  function SerializeEncrypted(e: EncryptedKeyblob, blockSize: nat): (bytes: seq<Byte>)
    requires blockSize >= MinBlockSize
    requires WellFormedEncrypted(e, blockSize)
    ensures |bytes| == blockSize
  {
    e.cmac + e.iv + SerializeKeyblob(e.keyData) + e.unused
  }

  /** View one eMMC block as an encrypted_keyblob_t. */
  function ParseEncrypted(bytes: seq<Byte>, blockSize: nat): (e: EncryptedKeyblob)
    requires blockSize >= MinBlockSize
    requires |bytes| == blockSize
    ensures WellFormedEncrypted(e, blockSize)
  {
    EncryptedKeyblob(
      bytes[CmacOffset..IvOffset],
      bytes[IvOffset..KeyDataOffset],
      ParseKeyblob(bytes[KeyDataOffset..UnusedOffset]),
      bytes[UnusedOffset..])
  }

  /** Each field of a serialised record sits at its declared offset. */
  lemma EncryptedFieldOffsets(e: EncryptedKeyblob, blockSize: nat)
    requires blockSize >= MinBlockSize
    requires WellFormedEncrypted(e, blockSize)
    ensures var bytes := SerializeEncrypted(e, blockSize);
      && bytes[CmacOffset..IvOffset] == e.cmac
      && bytes[IvOffset..KeyDataOffset] == e.iv
      && bytes[KeyDataOffset + MasterKekOffset..KeyDataOffset + DataOffset] == e.keyData.masterKek
      && bytes[KeyDataOffset + DataOffset..KeyDataOffset + Package1KeyOffset] == e.keyData.data
      && bytes[KeyDataOffset + Package1KeyOffset..UnusedOffset] == e.keyData.package1Key
      && bytes[UnusedOffset..] == e.unused
  {
    var bytes := SerializeEncrypted(e, blockSize);
    var kb := SerializeKeyblob(e.keyData);
    assert bytes[KeyDataOffset..UnusedOffset] == kb;
    assert kb[MasterKekOffset..DataOffset] == e.keyData.masterKek;
    assert kb[DataOffset..Package1KeyOffset] == e.keyData.data;
    assert kb[Package1KeyOffset..KeyblobSize] == e.keyData.package1Key;
  }

  lemma EncryptedRoundTrip(e: EncryptedKeyblob, blockSize: nat)
    requires blockSize >= MinBlockSize
    requires WellFormedEncrypted(e, blockSize)
    ensures ParseEncrypted(SerializeEncrypted(e, blockSize), blockSize) == e
  {
    var bytes := SerializeEncrypted(e, blockSize);
    assert bytes[CmacOffset..IvOffset] == e.cmac;
    assert bytes[IvOffset..KeyDataOffset] == e.iv;
    assert bytes[KeyDataOffset..UnusedOffset] == SerializeKeyblob(e.keyData);
    assert bytes[UnusedOffset..] == e.unused;
    KeyblobRoundTrip(e.keyData);
  }

  lemma EncryptedBytesRoundTrip(bytes: seq<Byte>, blockSize: nat)
    requires blockSize >= MinBlockSize
    requires |bytes| == blockSize
    ensures SerializeEncrypted(ParseEncrypted(bytes, blockSize), blockSize) == bytes
  {
    KeyblobBytesRoundTrip(bytes[KeyDataOffset..UnusedOffset]);
    assert bytes == bytes[..IvOffset] + bytes[IvOffset..KeyDataOffset]
      + bytes[KeyDataOffset..UnusedOffset] + bytes[UnusedOffset..];
  }
}
