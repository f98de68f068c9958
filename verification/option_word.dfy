/**
  The `option` word passed to the key-generation routines: a 32-bit value that packs a
  3-bit seal-key index into bits 5..7 and a device-unique flag into bit 0
  (`SET_SEAL_KEY_INDEX`, `GET_SEAL_KEY_INDEX`, `GET_IS_DEVICE_UNIQUE` in source/keys/crypto.h),
  together with the two enumerations that name the legal field values.
 */
module OptionWord {

  import opened Wrappers

  /** A C `u32`; the macros only shift and mask, so no arithmetic can wrap. */
  type Word = bv32

  /** `seal_key_t`: the seven named seal contexts, in declaration order. */
  datatype SealKey =
    | LoadAesKey
    | DecryptDeviceUniqueData
    | ImportLotusKey
    | ImportEsDeviceKey
    | ReencryptDeviceUniqueData
    | ImportSslKey
    | ImportEsClientCertKey

  /** `device_unique_t`. */
  datatype DeviceUnique = NotDeviceUnique | IsDeviceUnique

  /** The number of `seal_key_t` values, which is also the number of seal-key masks. */
  const SealKeyCount: nat := 7

  /** The enumerator value the C declaration gives each seal context. */
  function SealKeyValue(k: SealKey): (v: nat)
    ensures v < SealKeyCount
  {
    match k
    case LoadAesKey => 0
    case DecryptDeviceUniqueData => 1
    case ImportLotusKey => 2
    case ImportEsDeviceKey => 3
    case ReencryptDeviceUniqueData => 4
    case ImportSslKey => 5
    case ImportEsClientCertKey => 6
  }

  /** The seal context an index names, if any: every index below 7 names exactly one. */
  function SealKeyOfValue(v: nat): (r: Option<SealKey>)
    ensures r.Some? <==> v < SealKeyCount
    ensures r.Some? ==> SealKeyValue(r.value) == v
  {
    if v == 0 then Some(LoadAesKey)
    else if v == 1 then Some(DecryptDeviceUniqueData)
    else if v == 2 then Some(ImportLotusKey)
    else if v == 3 then Some(ImportEsDeviceKey)
    else if v == 4 then Some(ReencryptDeviceUniqueData)
    else if v == 5 then Some(ImportSslKey)
    else if v == 6 then Some(ImportEsClientCertKey)
    else None
  }

  /** Distinct seal contexts have distinct enumerator values, so the two maps are inverse. */
  lemma SealKeyValueRoundTrip(k: SealKey)
    ensures SealKeyOfValue(SealKeyValue(k)) == Some(k)
  {
  }

  function DeviceUniqueValue(u: DeviceUnique): (v: Word)
    ensures v <= 1
    ensures v == 1 <==> u == IsDeviceUnique
  {
    match u
    case NotDeviceUnique => 0
    case IsDeviceUnique => 1
  }

  /** `SET_SEAL_KEY_INDEX(x)`: keep the low three bits of `x` and move them to bits 5..7. */
  function SetSealKeyIndex(x: Word): (r: Word)
    ensures r & !0xE0 == 0
    ensures r % 32 == 0 && r < 256
    ensures GetSealKeyIndex(r) == x % 8
  {
    (x & 7) << 5
  }

  /** `GET_SEAL_KEY_INDEX(x)`: the three bits 5..7, which may be 7 although only 0..6 are named. */
  function GetSealKeyIndex(x: Word): (r: Word)
    ensures r < 8
    ensures r == (x / 32) % 8
  {
    (x >> 5) & 7
  }

  /** `GET_IS_DEVICE_UNIQUE(x)`: bit 0, that is, whether the word is odd. */
  function GetIsDeviceUnique(x: Word): (r: Word)
    ensures r <= 1
    ensures r == x % 2
  {
    x & 1
  }

  /** Only the low three bits of the argument reach the word. */
  lemma SetSealKeyIndexKeepsLowBits(x: Word)
    ensures SetSealKeyIndex(x) == SetSealKeyIndex(x & 7)
  {
  }

  /** A seal-key index in the range the three bits can hold. */
  type SealKeyIndex = i: nat | i < 8

  /**
    The option word as two fields, the form callers reason about; `Encode` and `Decode`
    are the only places the bit layout appears.
   */
  datatype SealOption = SealOption(deviceUnique: DeviceUnique, sealKeyIndex: SealKeyIndex)

  /**
    `SET_SEAL_KEY_INDEX(i) | u`, the way callers build an option word. The two fields do
    not interfere: each getter sees exactly its own field, and no other bit is set.
   */
  function Encode(o: SealOption): (w: Word)
    ensures GetSealKeyIndex(w) as nat == o.sealKeyIndex
    ensures GetIsDeviceUnique(w) == DeviceUniqueValue(o.deviceUnique)
    ensures w & !0xE1 == 0
  {
    SetSealKeyIndex(o.sealKeyIndex as Word) | DeviceUniqueValue(o.deviceUnique)
  }

  /** Read both fields back with the getter macros. */
  function Decode(w: Word): (o: SealOption)
    ensures Encode(o) == w & 0xE1
  {
    var u := if GetIsDeviceUnique(w) == 1 then IsDeviceUnique else NotDeviceUnique;
    SealOption(u, GetSealKeyIndex(w) as nat)
  }

  /** Decoding an encoded option returns both fields unchanged. */
  lemma EncodeDecodeRoundTrip(o: SealOption)
    ensures Decode(Encode(o)) == o
  {
  }

  /** Decoding looks at bits 0 and 5..7 only: words that agree there decode alike. */
  lemma DecodeIgnoresOtherBits(w: Word, w': Word)
    ensures Decode(w) == Decode(w') <==> w & 0xE1 == w' & 0xE1
  {
    if Decode(w) == Decode(w') {
      assert Encode(Decode(w)) == Encode(Decode(w'));
    }
  }

  /**
    The seal context the word selects, or `None` for the one index (7) that the three
    bits can hold but `seal_key_t` does not name.
   */
  function SealKeyOf(w: Word): (r: Option<SealKey>)
    ensures r.None? <==> GetSealKeyIndex(w) == 7
    ensures r.Some? ==> SealKeyValue(r.value) == GetSealKeyIndex(w) as nat
  {
    SealKeyOfValue(GetSealKeyIndex(w) as nat)
  }
}
