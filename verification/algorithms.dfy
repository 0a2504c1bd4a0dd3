/** The optional value used throughout the model for "absent" fields
    (a null `char*`, a null allocation result). */
module Wrappers {
  datatype Option<T> = None | Some(value: T) {
    function GetOr(default: T): T {
      match this
      case Some(v) => v
      case None => default
    }
  }
}

/** The enumerations of the miner's configuration and the name tables that
    spell them. The source converts a table position to the enumeration with
    `static_cast`, so each enumeration is listed here in table order and its
    ordinal is its position in the table. */
module Algorithms {

  /** Index of the first occurrence of `s` in `t` at or after `from`. */
  function IndexFrom(t: seq<string>, s: string, from: nat): (r: int)
    requires from <= |t|
    ensures from <= r < |t| || r == -1
    ensures r >= 0 ==> t[r] == s && forall j :: from <= j < r ==> t[j] != s
    ensures r == -1 <==> forall j :: from <= j < |t| ==> t[j] != s
    decreases |t| - from
  {
    if from == |t| then -1
    else if t[from] == s then from
    else IndexFrom(t, s, from + 1)
  }

  /** Index of the first occurrence of `s` in `t`, or -1: the scan the source
      performs with `strcmp` over a name table. */
  function IndexOf(t: seq<string>, s: string): (r: int)
    ensures -1 <= r < |t|
    ensures r >= 0 ==> t[r] == s && s !in t[..r]
    ensures r == -1 <==> s !in t
  {
    var r := IndexFrom(t, s, 0);
    assert r >= 0 ==> forall j :: 0 <= j < r ==> t[..r][j] != s;
    assert r == -1 ==> forall j :: 0 <= j < |t| ==> t[j] != s;
    r
  }

  predicate Distinct(t: seq<string>) {
    forall i, j :: 0 <= i < j < |t| ==> t[i] != t[j]
  }

  lemma IndexOfDistinct(t: seq<string>, i: nat)
    requires Distinct(t) && i < |t|
    ensures IndexOf(t, t[i]) == i
  {
    var r := IndexOf(t, t[i]);
    assert t[i] in t;
    assert r <= i by { assert t[i] !in t[..r]; }
  }

  // --- algorithms -----------------------------------------------------------

  datatype Algo =
    | Cryptonight | CryptonightLite | CryptonightSuperlite
    | CryptonightUltralite | CryptonightExtremelite | CryptonightHeavy

  /** `algo_names`, in enumeration order. */
  const AlgoNames: seq<string> := [
    "cryptonight",
    "cryptonight-lite",
    "cryptonight-superlite",
    "cryptonight-ultralite",
    "cryptonight-extremelite",
    "cryptonight-heavy"
  ]

  /** `algo_short_names`, in enumeration order. */
  const AlgoShortNames: seq<string> := [
    "cn", "cn-lite", "cn-superlite", "cn-ultralite", "cn-extremelite", "cn-heavy"
  ]

  const Algos: seq<Algo> := [
    Cryptonight, CryptonightLite, CryptonightSuperlite,
    CryptonightUltralite, CryptonightExtremelite, CryptonightHeavy
  ]

  function AlgoOrdinal(a: Algo): (i: nat)
    ensures i < |Algos| && Algos[i] == a
  {
    match a
    case Cryptonight => 0
    case CryptonightLite => 1
    case CryptonightSuperlite => 2
    case CryptonightUltralite => 3
    case CryptonightExtremelite => 4
    case CryptonightHeavy => 5
  }

  /** Table position and ordinal are inverse. */
  lemma AlgoOrdinalOfIndex(i: nat)
    requires i < |Algos|
    ensures AlgoOrdinal(Algos[i]) == i
  {
    assert forall a, b :: 0 <= a < b < |Algos| ==> Algos[a] != Algos[b];
  }

  /** `Options::algoName`: the canonical name of the configured algorithm,
      the only entry of `algo_names` at the algorithm's position. */
  function AlgoName(a: Algo): (s: string)
    ensures s in AlgoNames && IndexOf(AlgoNames, s) == AlgoOrdinal(a)
  {
    assert Distinct(AlgoNames);
    IndexOfDistinct(AlgoNames, AlgoOrdinal(a));
    AlgoNames[AlgoOrdinal(a)]
  }

  /** `Options::algoShortName`: likewise in `algo_short_names`. */
  function AlgoShortName(a: Algo): (s: string)
    ensures s in AlgoShortNames && IndexOf(AlgoShortNames, s) == AlgoOrdinal(a)
  {
    assert Distinct(AlgoShortNames);
    IndexOfDistinct(AlgoShortNames, AlgoOrdinal(a));
    AlgoShortNames[AlgoOrdinal(a)]
  }

  /** Different algorithms have different short names, and each short name
      tells its algorithm back. */
  lemma ShortNameRoundTrip(a: Algo, b: Algo)
    ensures AlgoShortName(a) == AlgoShortName(b) <==> a == b
    ensures Algos[IndexOf(AlgoShortNames, AlgoShortName(a))] == a
  {
    if AlgoShortName(a) == AlgoShortName(b) {
      assert AlgoOrdinal(a) == AlgoOrdinal(b);
    }
  }

  // --- proof-of-work variants -----------------------------------------------

  datatype PowVariant =
    | PowAutodetect | PowV0 | PowV1 | PowV2 | PowTube | PowAlloy | PowXtl
    | PowMsr | PowXhv | PowRto | PowXfh | PowFast2 | PowUpx | PowTurtle
    | PowHosp | PowWow | PowV4 | PowDouble | PowZelerius | PowRwz | PowUpx2

  /** `pow_variant_names`, in enumeration order. */
  const PowVariantNames: seq<string> := [
    "auto", "0", "1", "2", "tube", "xao", "xtl", "msr", "xhv", "rto", "xfh",
    "fast2", "upx", "turtle", "hosp", "wow", "r", "xcash", "zls", "graft", "upx2"
  ]

  const PowVariants: seq<PowVariant> := [
    PowAutodetect, PowV0, PowV1, PowV2, PowTube, PowAlloy, PowXtl,
    PowMsr, PowXhv, PowRto, PowXfh, PowFast2, PowUpx, PowTurtle,
    PowHosp, PowWow, PowV4, PowDouble, PowZelerius, PowRwz, PowUpx2
  ]

  function PowVariantOrdinal(v: PowVariant): (i: nat)
    ensures i < |PowVariants| && PowVariants[i] == v
  {
    match v
    case PowAutodetect => 0
    case PowV0 => 1
    case PowV1 => 2
    case PowV2 => 3
    case PowTube => 4
    case PowAlloy => 5
    case PowXtl => 6
    case PowMsr => 7
    case PowXhv => 8
    case PowRto => 9
    case PowXfh => 10
    case PowFast2 => 11
    case PowUpx => 12
    case PowTurtle => 13
    case PowHosp => 14
    case PowWow => 15
    case PowV4 => 16
    case PowDouble => 17
    case PowZelerius => 18
    case PowRwz => 19
    case PowUpx2 => 20
  }

  lemma PowVariantOrdinalOfIndex(i: nat)
    requires i < |PowVariants|
    ensures PowVariantOrdinal(PowVariants[i]) == i
  {
    assert forall a, b :: 0 <= a < b < |PowVariants| ==> PowVariants[a] != PowVariants[b];
  }

  // --- assembly optimisation --------------------------------------------------

  datatype AsmOptimization = AsmAutodetect | AsmIntel | AsmRyzen | AsmBulldozer | AsmOff

  /** `asm_optimization_names`, in enumeration order. */
  const AsmOptimizationNames: seq<string> := ["auto", "intel", "ryzen", "bulldozer", "off"]

  const AsmOptimizations: seq<AsmOptimization> :=
    [AsmAutodetect, AsmIntel, AsmRyzen, AsmBulldozer, AsmOff]

  function AsmOrdinal(a: AsmOptimization): (i: nat)
    ensures i < |AsmOptimizations| && AsmOptimizations[i] == a
  {
    match a
    case AsmAutodetect => 0
    case AsmIntel => 1
    case AsmRyzen => 2
    case AsmBulldozer => 3
    case AsmOff => 4
  }

  lemma AsmOrdinalOfIndex(i: nat)
    requires i < |AsmOptimizations|
    ensures AsmOrdinal(AsmOptimizations[i]) == i
  {
    assert forall a, b :: 0 <= a < b < |AsmOptimizations| ==> AsmOptimizations[a] != AsmOptimizations[b];
  }

  // --- AES-NI mode and the legacy algorithm variant ---------------------------

  /** AES-NI selection: 0 auto, 1 on, 2 off. */
  datatype AesNi = AesAuto | AesOn | AesOff

  function AesNiOf(n: nat): (a: AesNi)
    requires n <= 2
    ensures AesNiOrdinal(a) == n
  {
    if n == 0 then AesAuto else if n == 1 then AesOn else AesOff
  }

  function AesNiOrdinal(a: AesNi): nat {
    match a
    case AesAuto => 0
    case AesOn => 1
    case AesOff => 2
  }

  /** Legacy `--av` values with a meaning; any other value up to 1000 is stored
      but acts like "auto". */
  const Av0Auto: nat := 0
  const Av1Aesni: nat := 1
  const Av2AesniDouble: nat := 2
  const Av3SoftAes: nat := 3
  const Av4SoftAesDouble: nat := 4
}
