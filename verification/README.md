# Lockpick_RCM key header in Dafny

This project models the self-contained core of `source/keys/crypto.h` from Lockpick_RCM.
Lockpick_RCM recovers a Nintendo Switch's console and firmware keys from its hardware
security engine. The header holds no derivation code. It declares the derivation routines
and defines the data they run on:

- the `option` word, which packs a seal-key index and a device-unique flag into one `u32`,
  with its `seal_key_t` and `device_unique_t` enumerations;
- the compiled-in 16-byte sources, the three tables indexed by key generation
  (one entry per generation, labelled 4.0.0 through 19.0.0, retail and development device-master-kek sources, and
  device-master-key-source sources), and the seven seal-key masks;
- the `keyblob_t` and `encrypted_keyblob_t` records, which fill one eMMC block and have no
  padding because every member is a `u8` array (alignment 1);
- the fixed keyslot assignment (`KS_*`).

Modules, leaves first:

- `Wrappers`: `Option`.
- `Bytes`: bytes (`bv8`), 16-byte blocks and byte-wise XOR.
- `OptionWord`: the three bit-packing macros on `bv32`, the two enumerations, and a
  two-field view `SealOption` that is encoded and decoded only at the word boundary.
- `Sources`: the constant tables, lookups with explicit index preconditions, and the mask
  lookup's indexing contract.
- `Keyblob`: the byte layout of both records, as parse/serialise pairs.
- `Keyslots`: the `KS_*` constants and the roles that share a slot.

Constants that come from headers outside this model are handled as follows:

- `NX_EMMC_BLOCKSIZE` is a parameter `blockSize`. The only constraint is the one the
  struct forces: `blockSize >= 0xB0`, so that `KEYBLOB_UNUSED_SIZE` is not negative.
- `KB_FIRMWARE_VERSION_MAX - KB_FIRMWARE_VERSION_400 + 1` is taken as 16, the number of
  initialisers in each generation table. C would also accept a larger dimension and fill
  the extra entries with zeros. The tables' release comments and update notes show that
  16 is intended.
- `SE_KEY_128_SIZE`, `SE_AES_IV_SIZE` and `SE_AES_CMAC_DIGEST_SIZE` are 16, the AES block
  size. The security engine has 16 AES keyslots.

Generation tables are indexed by offset, meaning the generation minus
`KB_FIRMWARE_VERSION_400`. That is how the tables are dimensioned.

The seal-key index is three bits wide, but `seal_key_t` names only seven values. The model keeps both facts: decoding can yield 7, and every mask lookup needs an index below 7.

## Model

| member | source | states |
|---|---|---|
| `Bytes.XorIdentityIffZero` | source/keys/crypto.h:100-101 | XOR with a mask leaves a block unchanged exactly when the mask is all zero, as mask 0 is |
| `Bytes.XorInvolutive` | source/keys/crypto.h:100-108 | applying the same mask twice restores the block |
| `Bytes.XorMaskDifference` | source/keys/crypto.h:100-108 | a block masked under two masks differs by exactly the XOR of the masks |
| `OptionWord.SealKeyValue` | source/keys/crypto.h:201-209 | every `seal_key_t` enumerator is below 7 |
| `OptionWord.SealKeyOfValue` | source/keys/crypto.h:201-209 | an index names a seal context exactly when it is below 7, and then names the one with that enumerator value |
| `OptionWord.SealKeyValueRoundTrip` | source/keys/crypto.h:201-209 | enumerator values are distinct, so value and context convert back and forth |
| `OptionWord.DeviceUniqueValue` | source/keys/crypto.h:211-214 | `device_unique_t` is 0 or 1, and 1 exactly for `IS_DEVICE_UNIQUE` |
| `OptionWord.SetSealKeyIndex` | source/keys/crypto.h:216 | the result sets no bit outside 5..7, is a multiple of 32 below 256, and reads back as the argument's low three bits |
| `OptionWord.GetSealKeyIndex` | source/keys/crypto.h:217 | the index is always in 0..7 and equals the word divided by 32, modulo 8 |
| `OptionWord.GetIsDeviceUnique` | source/keys/crypto.h:218 | the flag is 0 or 1 and is the word's parity |
| `OptionWord.SetSealKeyIndexKeepsLowBits` | source/keys/crypto.h:216 | `SET(x) == SET(x & 7)` for every word |
| `OptionWord.Encode` | source/keys/crypto.h:211-218 | for index `i < 8` and flag `u`, `SET_SEAL_KEY_INDEX(i)` OR-ed with `u` gives back `i` from `GET_SEAL_KEY_INDEX` and `u` from `GET_IS_DEVICE_UNIQUE`, and sets no bits other than 0 and 5..7 |
| `OptionWord.Decode` | source/keys/crypto.h:216-218 | re-encoding the decoded fields reproduces the word's bits 0 and 5..7 |
| `OptionWord.EncodeDecodeRoundTrip` | source/keys/crypto.h:216-218 | decoding an encoded option returns both fields unchanged |
| `OptionWord.DecodeIgnoresOtherBits` | source/keys/crypto.h:216-218 | two words decode alike exactly when they agree on bits 0 and 5..7 |
| `OptionWord.SealKeyOf` | source/keys/crypto.h:201-217 | the word names a seal context unless its index is 7, and the context's value is the decoded index |
| `Sources.AesSourcesAreBlocks` | source/keys/crypto.h:34-41 | the kek-generation, key-generation and key-decryption sources are 16 bytes each |
| `Sources.SecureDataConstantsAreBlocks` | source/keys/crypto.h:110-122 | the retail-specific source and the secure-data source, counter and tweak are 16 bytes each; the secure-data source is all zero |
| `Sources.GenerationTablesShareDimension` | source/keys/crypto.h:43-98 | all three generation tables have 16 entries (4.0.0 to 19.0.0), each of 16 bytes |
| `Sources.DeviceMasterKekTable` | source/keys/crypto.h:43-79 | the retail and the development table both have the shared dimension and hold only blocks |
| `Sources.DeviceMasterKekSource` | source/keys/crypto.h:43-79 | an offset below the shared dimension selects a 16-byte entry of the retail or development table |
| `Sources.DeviceMasterKeySourceSource` | source/keys/crypto.h:81-98 | an offset below the shared dimension selects a 16-byte entry of the key-source-source table |
| `Sources.GenerationLookupValidExactlyBelowCount` | source/keys/crypto.h:43-98 | retail, development and key-source-source lookups are each valid exactly for offsets below the shared dimension |
| `Sources.RetailAndDevSourcesDiffer` | source/keys/crypto.h:43-79 | for every generation the retail and development sources differ |
| `Sources.SealKeyMask` | source/keys/crypto.h:100-108 | each seal context has a 16-byte mask, which is all zero exactly for `SEAL_KEY_LOAD_AES_KEY` |
| `Sources.SealKeyMaskAt` | source/keys/crypto.h:100-108 | a raw mask index must be below 7, and then it names a seal context and returns that context's mask |
| `Sources.SealKeyMaskTableMatchesEnum` | source/keys/crypto.h:100-108 | the mask table has exactly one entry per `seal_key_t` value |
| `Sources.MaskForOption` | source/keys/crypto.h:100-108 | the mask an option word selects exists exactly when its decoded index is not 7, and is then the mask of the context the word names |
| `Sources.DecodedIndexCanExceedMaskTable` | source/keys/crypto.h:217 | some option word decodes to an index the seven-entry mask table does not have |
| `Sources.SealKeyMaskIdentity` | source/keys/crypto.h:101-108 | XOR with a context's mask leaves every block unchanged exactly when the context is `SEAL_KEY_LOAD_AES_KEY` |
| `Sources.SealKeyMasksDistinct` | source/keys/crypto.h:100-108 | two contexts have the same mask only if they are the same context |
| `Sources.SealContextsSeparate` | source/keys/crypto.h:100-108 | masking one block for two contexts gives results that differ by exactly the XOR of the two masks, and that differ whenever the contexts do |
| `Keyblob.LayoutConstants` | source/keys/crypto.h:152-166 | `keyblob_t` fields sit at 0, 0x10 and 0x80 with size 0x90; `encrypted_keyblob_t` fields sit at 0, 0x10, 0x20 and 0xB0 |
| `Keyblob.UnusedSize` | source/keys/crypto.h:153 | cmac, iv, keyblob and unused together fill exactly one block |
| `Keyblob.SerializeKeyblob` | source/keys/crypto.h:155-159 | a well-formed keyblob serialises to 0x90 bytes |
| `Keyblob.ParseKeyblob` | source/keys/crypto.h:155-159 | any 0x90 bytes parse to a keyblob with fields of sizes 16, 0x70 and 16 |
| `Keyblob.KeyblobRoundTrip` | source/keys/crypto.h:155-159 | serialising then parsing a keyblob returns every field unchanged |
| `Keyblob.KeyblobBytesRoundTrip` | source/keys/crypto.h:155-159 | parsing then serialising 0x90 bytes returns them unchanged |
| `Keyblob.SerializeEncrypted` | source/keys/crypto.h:161-166 | a well-formed encrypted keyblob serialises to exactly one block |
| `Keyblob.ParseEncrypted` | source/keys/crypto.h:161-166 | any block parses to a well-formed encrypted keyblob |
| `Keyblob.EncryptedFieldOffsets` | source/keys/crypto.h:152-166 | every field of the serialised record, including each nested keyblob field, sits at its declaration-order offset |
| `Keyblob.EncryptedRoundTrip` | source/keys/crypto.h:161-166 | serialising then parsing an encrypted keyblob returns every field unchanged |
| `Keyblob.EncryptedBytesRoundTrip` | source/keys/crypto.h:161-166 | parsing then serialising one block returns it unchanged |
| `Keyslots.Slot` | source/keys/crypto.h:127-148 | every `KS_*` value is below 16 |
| `Keyslots.BisCryptSlot` | source/keys/crypto.h:128-133 | BIS partition `i` uses crypt slot `2i` |
| `Keyslots.BisTweakSlot` | source/keys/crypto.h:128-133 | BIS partition `i` uses tweak slot `2i + 1`, right after its crypt slot |
| `Keyslots.BisSlotsAreLowSix` | source/keys/crypto.h:128-133 | the BIS slots are exactly the slots 0..5 |
| `Keyslots.BisPairsDisjoint` | source/keys/crypto.h:128-133 | different BIS partitions share no slot |
| `Keyslots.GeneralSlotsDistinct` | source/keys/crypto.h:128-136 | `KS_AES_CTR`, `KS_AES_ECB` and `KS_AES_CMAC` differ from each other and from every BIS slot |
| `Keyslots.SharedSlotsAreAliases` | source/keys/crypto.h:138-148 | two roles share a slot exactly when they are the same role, or are `KS_TSEC`/`KS_MARIKO_KEK` (12), or are `KS_TSEC_ROOT`/`KS_MARIKO_BEK` (13) |

## Left out

- The routines declared at source/keys/crypto.h:220-247 (`key_exists`, `run_ams_keygen`, `check_keyslot_access`, `test_rsa_keypair`, `rsa_oaep_decode`, `derive_rsa_kek`, `generate_aes_kek`, `generate_aes_key`, `generate_specific_aes_key`, `decrypt_aes_key`, `load_aes_key`, `get_device_unique_data_key`, `get_secure_data`, `get_device_key`): the header gives only their signatures, and their bodies are not part of this model.
- Where the XOR with a seal-key mask is applied, and whether the device-unique bit gates it: this happens inside the derivation routines, so the model proves facts about the masks and XOR only.
- Clamping of generations beyond the newest table entry, CMAC-then-CBC keyblob processing, write-once population of the key storage, and master-key chain ordering: no code for them is in the header.
- `null_hash` (lines 30-32): checking that it is the SHA-256 of the empty string would need a SHA-256 model.
- `key_storage_t` (lines 168-199): plain storage filled by the declared routines. Its array dimensions depend on `KB_FIRMWARE_VERSION_600` and `KB_FIRMWARE_VERSION_MAX`, which are defined outside the header.
- `RSA_PUBLIC_EXPONENT` (line 150) and `TSEC_ROOT_KEY_VERSION` (line 125): not used anywhere in the header, so there is nothing to state about them.
- `Sources.GenerationTablesShareDimension`: fixes the dimension at 16 rather than deriving it from `KB_FIRMWARE_VERSION_MAX` and `KB_FIRMWARE_VERSION_400`, because those are defined in another header.
