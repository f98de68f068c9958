/**
  The compiled-in constants of source/keys/crypto.h: the single 16-byte sources, the three
  generation-indexed tables (one entry per key generation, labelled 4.0.0 through 19.0.0) and the
  seven seal-key masks, with the lookups and the indexing contract each table has.
 */
module Sources {

  import opened Wrappers
  import opened Bytes
  import opened OptionWord

  const AesKekGenerationSource: seq<Byte> := [0x4D, 0x87, 0x09, 0x86, 0xC4, 0x5D, 0x20, 0x72, 0x2F, 0xBA, 0x10, 0x53, 0xDA, 0x92, 0xE8, 0xA9]

  const AesKeyGenerationSource: seq<Byte> := [0x89, 0x61, 0x5E, 0xE0, 0x5C, 0x31, 0xB6, 0x80, 0x5F, 0xE5, 0x8F, 0x3D, 0xA2, 0x4F, 0x7A, 0xA8]

  const AesKeyDecryptionSource: seq<Byte> := [0x11, 0x70, 0x24, 0x2B, 0x48, 0x69, 0x11, 0xF1, 0x11, 0xB0, 0x0C, 0x47, 0x7C, 0xC3, 0xEF, 0x7E]

  const RetailSpecificAesKeySource: seq<Byte> := [0xE2, 0xD6, 0xB8, 0x7A, 0x11, 0x9C, 0xB8, 0x80, 0xE8, 0x22, 0x88, 0x8A, 0x46, 0xFB, 0xA1, 0x95]

  const SecureDataSource: seq<Byte> := [0x00, 0x00, 0x00, 0x00, 0x00, 0x00, 0x00, 0x00, 0x00, 0x00, 0x00, 0x00, 0x00, 0x00, 0x00, 0x00]

  const SecureDataCounters: seq<seq<Byte>> := [[0x3C, 0xD5, 0x92, 0xEC, 0x68, 0x31, 0x4A, 0x06, 0xD4, 0x1B, 0x0C, 0xD9, 0xF6, 0x2E, 0xD9, 0xE9]]

  const SecureDataTweaks: seq<seq<Byte>> := [[0xAC, 0xCA, 0x9A, 0xCA, 0xFF, 0x2E, 0xB9, 0x22, 0xCC, 0x1F, 0x4F, 0xAD, 0xDD, 0x77, 0x21, 0x1E]]

  /**
    `KB_FIRMWARE_VERSION_MAX - KB_FIRMWARE_VERSION_400 + 1`, the shared dimension of the
    three generation tables: the sixteen key generations, labelled 4.0.0 through 19.0.0, they are initialised with.
   */
  const GenerationCount: nat := 16

  /** The label of each generation offset (generation minus `KB_FIRMWARE_VERSION_400`): the release that introduced that key generation. */
  const GenerationReleases: seq<string> := ["4.0.0", "5.0.0", "6.0.0", "6.2.0", "7.0.0", "8.1.0", "9.0.0", "9.1.0", "12.1.0", "13.0.0", "14.0.0", "15.0.0", "16.0.0", "17.0.0", "18.0.0", "19.0.0"]

  /** `device_master_kek_sources`: retail units. */
  const DeviceMasterKekSources: seq<seq<Byte>> := [
      [0x88, 0x62, 0x34, 0x6E, 0xFA, 0xF7, 0xD8, 0x3F, 0xE1, 0x30, 0x39, 0x50, 0xF0, 0xB7, 0x5D, 0x5D],
      [0x06, 0x1E, 0x7B, 0xE9, 0x6D, 0x47, 0x8C, 0x77, 0xC5, 0xC8, 0xE7, 0x94, 0x9A, 0xA8, 0x5F, 0x2E],
      [0x99, 0xFA, 0x98, 0xBD, 0x15, 0x1C, 0x72, 0xFD, 0x7D, 0x9A, 0xD5, 0x41, 0x00, 0xFD, 0xB2, 0xEF],
      [0x81, 0x3C, 0x6C, 0xBF, 0x5D, 0x21, 0xDE, 0x77, 0x20, 0xD9, 0x6C, 0xE3, 0x22, 0x06, 0xAE, 0xBB],
      [0x86, 0x61, 0xB0, 0x16, 0xFA, 0x7A, 0x9A, 0xEA, 0xF6, 0xF5, 0xBE, 0x1A, 0x13, 0x5B, 0x6D, 0x9E],
      [0xA6, 0x81, 0x71, 0xE7, 0xB5, 0x23, 0x74, 0xB0, 0x39, 0x8C, 0xB7, 0xFF, 0xA0, 0x62, 0x9F, 0x8D],
      [0x03, 0xE7, 0xEB, 0x43, 0x1B, 0xCF, 0x5F, 0xB5, 0xED, 0xDC, 0x97, 0xAE, 0x21, 0x8D, 0x19, 0xED],
      [0xCE, 0xFE, 0x41, 0x0F, 0x46, 0x9A, 0x30, 0xD6, 0xF2, 0xE9, 0x0C, 0x6B, 0xB7, 0x15, 0x91, 0x36],
      [0xC2, 0x65, 0x34, 0x6E, 0xC7, 0xC6, 0x5D, 0x97, 0x3E, 0x34, 0x5C, 0x6B, 0xB3, 0x7E, 0xC6, 0xE3],
      [0x77, 0x52, 0x92, 0xF0, 0xAA, 0xE3, 0xFB, 0xE0, 0x60, 0x16, 0xB3, 0x78, 0x68, 0x53, 0xF7, 0xA8],
      [0x67, 0xD5, 0xD6, 0x0C, 0x08, 0xF5, 0xA3, 0x11, 0xBD, 0x6D, 0x5A, 0xEB, 0x96, 0x24, 0xB0, 0xD2],
      [0x7C, 0x30, 0xED, 0x8B, 0x39, 0x25, 0x2C, 0x08, 0x8F, 0x48, 0xDC, 0x28, 0xE6, 0x1A, 0x6B, 0x49],
      [0xF0, 0xF3, 0xFF, 0x52, 0x75, 0x2F, 0xBA, 0x4D, 0x09, 0x72, 0x30, 0x89, 0xA9, 0xDF, 0xFE, 0x1F],
      [0x21, 0xD6, 0x35, 0xF1, 0x0F, 0x7A, 0xF0, 0x5D, 0xDF, 0x79, 0x1C, 0x7A, 0xE4, 0x32, 0x82, 0x9E],
      [0xE7, 0x85, 0x8C, 0xA2, 0xF4, 0x49, 0xCB, 0x07, 0xD1, 0x8E, 0x48, 0x1B, 0xE8, 0x1E, 0x28, 0x3B],
      [0x9B, 0xA5, 0xFD, 0x74, 0x7F, 0xCD, 0x23, 0xD1, 0xD9, 0xBD, 0x6C, 0x51, 0x72, 0x5F, 0x3D, 0x1F]
    ]

  /** `device_master_kek_sources_dev`: development units. */
  const DeviceMasterKekSourcesDev: seq<seq<Byte>> := [
      [0xD6, 0xBD, 0x9F, 0xC6, 0x18, 0x09, 0xE1, 0x96, 0x20, 0x39, 0x60, 0xD2, 0x89, 0x83, 0x31, 0x34],
      [0x59, 0x2D, 0x20, 0x69, 0x33, 0xB5, 0x17, 0xBA, 0xCF, 0xB1, 0x4E, 0xFD, 0xE4, 0xC2, 0x7B, 0xA8],
      [0xF6, 0xD8, 0x59, 0x63, 0x8F, 0x47, 0xCB, 0x4A, 0xD8, 0x74, 0x05, 0x7F, 0x88, 0x92, 0x33, 0xA5],
      [0x20, 0xAB, 0xF2, 0x0F, 0x05, 0xE3, 0xDE, 0x2E, 0xA1, 0xFB, 0x37, 0x5E, 0x8B, 0x22, 0x1A, 0x38],
      [0x60, 0xAE, 0x56, 0x68, 0x11, 0xE2, 0x0C, 0x99, 0xDE, 0x05, 0xAE, 0x68, 0x78, 0x85, 0x04, 0xAE],
      [0x94, 0xD6, 0xA8, 0xC0, 0x95, 0xAF, 0xD0, 0xA6, 0x27, 0x53, 0x5E, 0xE5, 0x8E, 0x70, 0x1F, 0x87],
      [0x61, 0x6A, 0x88, 0x21, 0xA3, 0x52, 0xB0, 0x19, 0x16, 0x25, 0xA4, 0xE3, 0x4C, 0x54, 0x02, 0x0F],
      [0x9D, 0xB1, 0xAE, 0xCB, 0xF6, 0xF6, 0xE3, 0xFE, 0xAB, 0x6F, 0xCB, 0xAF, 0x38, 0x03, 0xFC, 0x7B],
      [0xC4, 0xBB, 0xF3, 0x9F, 0xA3, 0xAA, 0x00, 0x99, 0x7C, 0x97, 0xAD, 0x91, 0x8F, 0xE8, 0x45, 0xCB],
      [0x20, 0x20, 0xAA, 0xFB, 0x89, 0xC2, 0xF0, 0x70, 0xB5, 0xE0, 0xA3, 0x11, 0x8A, 0x29, 0x8D, 0x0F],
      [0xCE, 0x14, 0x74, 0x66, 0x98, 0xA8, 0x6D, 0x7D, 0xBD, 0x54, 0x91, 0x68, 0x5F, 0x1D, 0x0E, 0xEA],
      [0xAE, 0x05, 0x48, 0x65, 0xAB, 0x17, 0x9D, 0x3D, 0x51, 0xB7, 0x56, 0xBD, 0x9B, 0x0B, 0x5B, 0x6E],
      [0xFF, 0xF6, 0x4B, 0x0F, 0xFF, 0x0D, 0xC0, 0x4F, 0x56, 0x8A, 0x40, 0x74, 0x67, 0xC5, 0xFE, 0x9F],
      [0x4E, 0xCE, 0x7B, 0x2A, 0xEA, 0x2E, 0x3D, 0x16, 0xD5, 0x2A, 0xDE, 0xF6, 0xF8, 0x6A, 0x7D, 0x43],
      [0x3B, 0x00, 0x89, 0xD7, 0xA9, 0x9E, 0xB7, 0x70, 0x86, 0x00, 0xC3, 0x49, 0x52, 0x8C, 0xA4, 0xAF],
      [0xAE, 0x78, 0x36, 0xB6, 0x91, 0xEB, 0xAF, 0x9C, 0x18, 0xF1, 0xC0, 0xD5, 0x8A, 0x0C, 0x7C, 0xA1]
    ]

  /** `device_master_key_source_sources`. */
  const DeviceMasterKeySourceSources: seq<seq<Byte>> := [
      [0x8B, 0x4E, 0x1C, 0x22, 0x42, 0x07, 0xC8, 0x73, 0x56, 0x94, 0x08, 0x8B, 0xCC, 0x47, 0x0F, 0x5D],
      [0x6C, 0xEF, 0xC6, 0x27, 0x8B, 0xEC, 0x8A, 0x91, 0x99, 0xAB, 0x24, 0xAC, 0x4F, 0x1C, 0x8F, 0x1C],
      [0x70, 0x08, 0x1B, 0x97, 0x44, 0x64, 0xF8, 0x91, 0x54, 0x9D, 0xC6, 0x84, 0x8F, 0x1A, 0xB2, 0xE4],
      [0x8E, 0x09, 0x1F, 0x7A, 0xBB, 0xCA, 0x6A, 0xFB, 0xB8, 0x9B, 0xD5, 0xC1, 0x25, 0x9C, 0xA9, 0x17],
      [0x8F, 0x77, 0x5A, 0x96, 0xB0, 0x94, 0xFD, 0x8D, 0x28, 0xE4, 0x19, 0xC8, 0x16, 0x1C, 0xDB, 0x3D],
      [0x67, 0x62, 0xD4, 0x8E, 0x55, 0xCF, 0xFF, 0x41, 0x31, 0x15, 0x3B, 0x24, 0x0C, 0x7C, 0x07, 0xAE],
      [0x4A, 0xC3, 0x4E, 0x14, 0x8B, 0x96, 0x4A, 0xD5, 0xD4, 0x99, 0x73, 0xC4, 0x45, 0xAB, 0x8B, 0x49],
      [0x14, 0xB8, 0x74, 0x12, 0xCB, 0xBD, 0x0B, 0x8F, 0x20, 0xFB, 0x30, 0xDA, 0x27, 0xE4, 0x58, 0x94],
      [0xAA, 0xFD, 0xBC, 0xBB, 0x25, 0xC3, 0xA4, 0xEF, 0xE3, 0xEE, 0x58, 0x53, 0xB7, 0xF8, 0xDD, 0xD6],
      [0xE4, 0xF3, 0x45, 0x6F, 0x18, 0xA1, 0x89, 0xF8, 0xDA, 0x4C, 0x64, 0x75, 0x68, 0xE6, 0xBD, 0x4F],
      [0x5B, 0x94, 0x63, 0xF7, 0xAD, 0x96, 0x1B, 0xA6, 0x23, 0x30, 0x06, 0x4D, 0x01, 0xE4, 0xCE, 0x1D],
      [0x5E, 0xC9, 0xC5, 0x0A, 0xD0, 0x5F, 0x8B, 0x7B, 0xA7, 0x39, 0xEA, 0xBC, 0x60, 0x0F, 0x74, 0xE6],
      [0xEA, 0x90, 0x6E, 0xA8, 0xAE, 0x92, 0x99, 0x64, 0x36, 0xC1, 0xF3, 0x1C, 0xC6, 0x32, 0x83, 0x8C],
      [0xDA, 0xB9, 0xD6, 0x77, 0x52, 0x2D, 0x1F, 0x78, 0x73, 0xC9, 0x98, 0x5B, 0x06, 0xFE, 0xA0, 0x52],
      [0x14, 0xF5, 0xA5, 0xD0, 0x73, 0x6D, 0x44, 0x80, 0x5F, 0x31, 0x5A, 0x8F, 0x1E, 0xD4, 0x0D, 0x63],
      [0x07, 0x38, 0x9A, 0xEC, 0x9C, 0xBD, 0x50, 0x4A, 0x4C, 0x1F, 0x04, 0xDA, 0x40, 0x68, 0x29, 0xE3]
    ]

  /** `seal_key_masks`, indexed by `seal_key_t`. */
  const SealKeyMasks: seq<seq<Byte>> := [
      [0x00, 0x00, 0x00, 0x00, 0x00, 0x00, 0x00, 0x00, 0x00, 0x00, 0x00, 0x00, 0x00, 0x00, 0x00, 0x00],
      [0xA2, 0xAB, 0xBF, 0x9C, 0x92, 0x2F, 0xBB, 0xE3, 0x78, 0x79, 0x9B, 0xC0, 0xCC, 0xEA, 0xA5, 0x74],
      [0x57, 0xE2, 0xD9, 0x45, 0xE4, 0x92, 0xF4, 0xFD, 0xC3, 0xF9, 0x86, 0x38, 0x89, 0x78, 0x9F, 0x3C],
      [0xE5, 0x4D, 0x9A, 0x02, 0xF0, 0x4F, 0x5F, 0xA8, 0xAD, 0x76, 0x0A, 0xF6, 0x32, 0x95, 0x59, 0xBB],
      [0x59, 0xD9, 0x31, 0xF4, 0xA7, 0x97, 0xB8, 0x14, 0x40, 0xD6, 0xA2, 0x60, 0x2B, 0xED, 0x15, 0x31],
      [0xFD, 0x6A, 0x25, 0xE5, 0xD8, 0x38, 0x7F, 0x91, 0x49, 0xDA, 0xF8, 0x59, 0xA8, 0x28, 0xE6, 0x75],
      [0x89, 0x96, 0x43, 0x9A, 0x7C, 0xD5, 0x59, 0x55, 0x24, 0xD5, 0x24, 0x18, 0xAB, 0x6C, 0x04, 0x61]
    ]

  /** The three generation-independent AES sources are whole blocks. */
  lemma AesSourcesAreBlocks()
    ensures IsBlock(AesKekGenerationSource) && IsBlock(AesKeyGenerationSource)
    ensures IsBlock(AesKeyDecryptionSource)
  {
  }

  /** The retail-specific and secure-data constants are whole blocks; the secure-data source is all zero. */
  lemma SecureDataConstantsAreBlocks()
    ensures IsBlock(RetailSpecificAesKeySource)
    ensures IsBlock(SecureDataSource) && IsZero(SecureDataSource)
    ensures |SecureDataCounters| == 1 && AllBlocks(SecureDataCounters)
    ensures |SecureDataTweaks| == 1 && AllBlocks(SecureDataTweaks)
  {
  }

  // ---------------------------------------------------------------------------
  // Generation-indexed tables

  /** The three generation tables have the one shared dimension and hold whole blocks. */
  lemma GenerationTablesShareDimension()
    ensures |DeviceMasterKekSources| == GenerationCount && AllBlocks(DeviceMasterKekSources)
    ensures |DeviceMasterKekSourcesDev| == GenerationCount && AllBlocks(DeviceMasterKekSourcesDev)
    ensures |DeviceMasterKeySourceSources| == GenerationCount && AllBlocks(DeviceMasterKeySourceSources)
    ensures |GenerationReleases| == GenerationCount
  {
  }

  /** The device-master-kek table a unit uses: retail and development units have separate constants. */
  function DeviceMasterKekTable(retail: bool): (t: seq<seq<Byte>>)
    ensures |t| == GenerationCount && AllBlocks(t)
  {
    GenerationTablesShareDimension();
    if retail then DeviceMasterKekSources else DeviceMasterKekSourcesDev
  }

  /** Bounds-checked lookup helper shared by every generation table. */
  function LookupGeneration(table: seq<seq<Byte>>, offset: nat): Option<seq<Byte>>
  {
    if offset < |table| then Some(table[offset]) else None
  }

  /**
    The device-master-kek source for generation offset `offset` (the generation minus
    `KB_FIRMWARE_VERSION_400`). The header defines no accessor; the offset must be below
    the shared dimension.
   */
  function DeviceMasterKekSource(offset: nat, retail: bool): (b: seq<Byte>)
    requires offset < GenerationCount
    ensures IsBlock(b)
    ensures LookupGeneration(DeviceMasterKekTable(retail), offset) == Some(b)
  {
    DeviceMasterKekTable(retail)[offset]
  }

  /** The device-master-key-source source for generation offset `offset`. */
  function DeviceMasterKeySourceSource(offset: nat): (b: seq<Byte>)
    requires offset < GenerationCount
    ensures IsBlock(b)
    ensures LookupGeneration(DeviceMasterKeySourceSources, offset) == Some(b)
  {
    GenerationTablesShareDimension();
    DeviceMasterKeySourceSources[offset]
  }

  /** Every generation lookup, retail or development, is valid exactly below the shared dimension. */
  lemma GenerationLookupValidExactlyBelowCount(offset: nat, retail: bool)
    ensures LookupGeneration(DeviceMasterKekTable(retail), offset).Some? <==> offset < GenerationCount
    ensures LookupGeneration(DeviceMasterKeySourceSources, offset).Some? <==> offset < GenerationCount
    ensures offset < GenerationCount ==> IsBlock(LookupGeneration(DeviceMasterKekTable(retail), offset).value)
  {
    GenerationTablesShareDimension();
  }

  /** Choosing the wrong unit type always yields a different source. */
  lemma RetailAndDevSourcesDiffer(offset: nat)
    requires offset < GenerationCount
    ensures DeviceMasterKekSource(offset, true) != DeviceMasterKekSource(offset, false)
  {
    assert DeviceMasterKekSource(offset, true)[0] != DeviceMasterKekSource(offset, false)[0];
  }

  // ---------------------------------------------------------------------------
  // Seal-key masks

  /** The mask for a named seal context; mask 0 (`LoadAesKey`) is the only all-zero one. */
  function SealKeyMask(k: SealKey): (m: seq<Byte>)
    ensures IsBlock(m)
    ensures IsZero(m) <==> k == LoadAesKey
  {
    var m := SealKeyMasks[SealKeyValue(k)];
    assert k != LoadAesKey ==> m[0] != 0;
    m
  }

  /** `seal_key_masks[index]`: a raw index must be one of the seven `seal_key_t` values. */
  function SealKeyMaskAt(index: nat): (m: seq<Byte>)
    requires index < |SealKeyMasks|
    ensures SealKeyOfValue(index).Some?
    ensures m == SealKeyMask(SealKeyOfValue(index).value)
  {
    SealKeyMasks[index]
  }

  /** The mask table has one entry per seal context and no more. */
  lemma SealKeyMaskTableMatchesEnum(k: SealKey)
    ensures |SealKeyMasks| == SealKeyCount
    ensures SealKeyValue(k) < |SealKeyMasks|
  {
  }

  /**
    The mask an option word selects. The decoder can produce index 7, which the
    seven-entry table does not have, so the lookup is defined exactly when the index is not 7.
   */
  function MaskForOption(w: Word): (r: Option<seq<Byte>>)
    ensures r.None? <==> GetSealKeyIndex(w) == 7
    ensures r.Some? ==> IsBlock(r.value)
    ensures r.Some? ==> SealKeyOf(w).Some? && r.value == SealKeyMask(SealKeyOf(w).value)
  {
    var i := GetSealKeyIndex(w) as nat;
    if i < |SealKeyMasks| then Some(SealKeyMaskAt(i)) else None
  }

  /** An option word whose seal-key index falls off the mask table exists (bits 5..7 all set). */
  lemma DecodedIndexCanExceedMaskTable()
    ensures exists w: Word :: GetSealKeyIndex(w) as nat >= |SealKeyMasks|
  {
    assert GetSealKeyIndex(0xE0) == 7;
  }

  /** Masking with `LoadAesKey` leaves every block unchanged, and no other context does. */
  lemma SealKeyMaskIdentity(b: seq<Byte>, k: SealKey)
    requires IsBlock(b)
    ensures Xor(b, SealKeyMask(k)) == b <==> k == LoadAesKey
  {
    XorIdentityIffZero(b, SealKeyMask(k));
  }

  /** The seven masks are pairwise different, so each context has its own mask. */
  lemma SealKeyMasksDistinct(k1: SealKey, k2: SealKey)
    ensures SealKeyMask(k1) == SealKeyMask(k2) <==> k1 == k2
  {
    if k1 != k2 {
      assert SealKeyMask(k1)[0] != SealKeyMask(k2)[0];
    }
  }

  /**
    Context separation: masking a block for two seal contexts gives results that differ
    by exactly the two masks' exclusive or, and that are different whenever the contexts are.
   */
  lemma SealContextsSeparate(b: seq<Byte>, k1: SealKey, k2: SealKey)
    requires IsBlock(b)
    ensures Xor(Xor(b, SealKeyMask(k1)), Xor(b, SealKeyMask(k2))) == Xor(SealKeyMask(k1), SealKeyMask(k2))
    ensures Xor(b, SealKeyMask(k1)) == Xor(b, SealKeyMask(k2)) <==> k1 == k2
  {
    var m1, m2 := SealKeyMask(k1), SealKeyMask(k2);
    XorMaskDifference(b, m1, m2);
    SealKeyMasksDistinct(k1, k2);
    if Xor(b, m1) == Xor(b, m2) {
      assert forall i :: 0 <= i < |b| ==> m1[i] == m2[i] by {
        forall i | 0 <= i < |b|
          ensures m1[i] == m2[i]
        {
          assert Xor(b, m1)[i] == Xor(b, m2)[i];
        }
      }
      assert m1 == m2;
    }
  }
}
