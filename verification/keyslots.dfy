/**
  The fixed keyslot assignment (`KS_*` in source/keys/crypto.h). Keyslots are indices of
  the security engine's sixteen AES key registers; each role the key code uses has one
  fixed slot. The header groups the constants as Lockpick_RCM, Mariko, other Switch and
  Atmosphere keygen keyslots, and two roles from different groups share a slot:
  `KS_TSEC` with `KS_MARIKO_KEK`, and `KS_TSEC_ROOT` with `KS_MARIKO_BEK`.
 */
module Keyslots {

  /** Number of AES keyslots in the security engine. */
  const KeyslotCount: nat := 16

  const KsBis00Crypt: nat := 0
  const KsBis00Tweak: nat := 1
  const KsBis01Crypt: nat := 2
  const KsBis01Tweak: nat := 3
  const KsBis02Crypt: nat := 4
  const KsBis02Tweak: nat := 5
  const KsAesCtr: nat := 6
  const KsAesEcb: nat := 8
  const KsAesCmac: nat := 10
  const KsMarikoKek: nat := 12
  const KsMarikoBek: nat := 13
  const KsTsec: nat := 12
  const KsSecureBoot: nat := 14
  const KsTsecRootDev: nat := 11
  const KsTsecRoot: nat := 13

  /** The BIS (built-in storage) partitions that get a crypt/tweak keyslot pair. */
  const BisPartitionCount: nat := 3

  /** Every role that has a `KS_*` constant. */
  datatype Role =
    | Bis00Crypt | Bis00Tweak
    | Bis01Crypt | Bis01Tweak
    | Bis02Crypt | Bis02Tweak
    | AesCtr | AesEcb | AesCmac
    | MarikoKek | MarikoBek
    | Tsec | SecureBoot
    | TsecRootDev | TsecRoot

  /** The keyslot a role is wired to; every assignment is a real keyslot. */
  function Slot(r: Role): (ks: nat)
    ensures ks < KeyslotCount
  {
    match r
    case Bis00Crypt => KsBis00Crypt
    case Bis00Tweak => KsBis00Tweak
    case Bis01Crypt => KsBis01Crypt
    case Bis01Tweak => KsBis01Tweak
    case Bis02Crypt => KsBis02Crypt
    case Bis02Tweak => KsBis02Tweak
    case AesCtr => KsAesCtr
    case AesEcb => KsAesEcb
    case AesCmac => KsAesCmac
    case MarikoKek => KsMarikoKek
    case MarikoBek => KsMarikoBek
    case Tsec => KsTsec
    case SecureBoot => KsSecureBoot
    case TsecRootDev => KsTsecRootDev
    case TsecRoot => KsTsecRoot
  }

  /** The crypt-key role of BIS partition `partition`. */
  function BisCryptRole(partition: nat): Role
    requires partition < BisPartitionCount
  {
    [Bis00Crypt, Bis01Crypt, Bis02Crypt][partition]
  }

  /** The tweak-key role of BIS partition `partition`. */
  function BisTweakRole(partition: nat): Role
    requires partition < BisPartitionCount
  {
    [Bis00Tweak, Bis01Tweak, Bis02Tweak][partition]
  }

  /** BIS partition `i` uses crypt slot `2i`. */
  function BisCryptSlot(partition: nat): (ks: nat)
    requires partition < BisPartitionCount
    ensures ks == 2 * partition
  {
    Slot(BisCryptRole(partition))
  }

  /** BIS partition `i` uses tweak slot `2i + 1`, right after its crypt slot. */
  function BisTweakSlot(partition: nat): (ks: nat)
    requires partition < BisPartitionCount
    ensures ks == BisCryptSlot(partition) + 1
  {
    Slot(BisTweakRole(partition))
  }

  /** The BIS slots are exactly 0..5. */
  predicate IsBisSlot(ks: nat) {
    exists p :: 0 <= p < BisPartitionCount && (ks == BisCryptSlot(p) || ks == BisTweakSlot(p))
  }

  lemma BisSlotsAreLowSix(ks: nat)
    ensures IsBisSlot(ks) <==> ks < 2 * BisPartitionCount
  {
    if ks < 2 * BisPartitionCount {
      var p := ks / 2;
      assert ks == BisCryptSlot(p) || ks == BisTweakSlot(p);
    }
  }

  /** Different partitions never share a slot. */
  lemma BisPairsDisjoint(p: nat, q: nat)
    requires p < BisPartitionCount && q < BisPartitionCount && p != q
    ensures BisCryptSlot(p) != BisCryptSlot(q) && BisCryptSlot(p) != BisTweakSlot(q)
    ensures BisTweakSlot(p) != BisTweakSlot(q)
  {
  }

  /** The three general-purpose AES slots differ from each other and from every BIS slot. */
  lemma GeneralSlotsDistinct()
    ensures KsAesCtr != KsAesEcb && KsAesEcb != KsAesCmac && KsAesCtr != KsAesCmac
    ensures !IsBisSlot(KsAesCtr) && !IsBisSlot(KsAesEcb) && !IsBisSlot(KsAesCmac)
  {
    BisSlotsAreLowSix(KsAesCtr);
    BisSlotsAreLowSix(KsAesEcb);
    BisSlotsAreLowSix(KsAesCmac);
  }

  /** The deliberate aliases: the TSEC key shares the Mariko KEK slot, the TSEC root key the Mariko BEK slot. */
  predicate Aliased(a: Role, b: Role) {
    || (a == Tsec && b == MarikoKek)
    || (a == MarikoKek && b == Tsec)
    || (a == TsecRoot && b == MarikoBek)
    || (a == MarikoBek && b == TsecRoot)
  }

  /** Two roles share a keyslot exactly when they are the same role or one of the deliberate aliases. */
  lemma SharedSlotsAreAliases(a: Role, b: Role)
    ensures Slot(a) == Slot(b) <==> a == b || Aliased(a, b)
  {
  }
}
