/** `Options::optimizeAlgorithmConfiguration`: after all options are read,
    the legacy `--av` value fills in the hash factor and AES-NI mode where
    these were left unset, the processor decides an AES-NI mode still on
    auto (or any mode, in safe mode), and the heavy algorithm and the XFH
    variant are held to three hashes at a time. Whether the processor has
    AES-NI is a parameter. */
module AlgoConfig {
  import opened Wrappers
  import opened Algorithms
  import opened OptionsConfig

  /** What a legacy algorithm variant stands for. */
  datatype Legacy = Legacy(hashFactor: nat, aesni: AesNi)

  /** The four legacy variants with a meaning: the "double" ones hash two
      blocks at a time, the "soft" ones run AES in software. Auto and every
      other stored value stand for nothing. */
  function LegacyOf(av: nat): (r: Option<Legacy>)
    ensures r.Some? <==> Av1Aesni <= av <= Av4SoftAesDouble
    ensures r.Some? ==> r.value.hashFactor in {1, 2} && r.value.aesni != AesAuto
    ensures r.Some? ==> (r.value.hashFactor == 2 <==> av in {Av2AesniDouble, Av4SoftAesDouble})
    ensures r.Some? ==> (r.value.aesni == AesOn <==> av in {Av1Aesni, Av2AesniDouble})
  {
    if av == Av1Aesni then Some(Legacy(1, AesOn))
    else if av == Av2AesniDouble then Some(Legacy(2, AesOn))
    else if av == Av3SoftAes then Some(Legacy(1, AesOff))
    else if av == Av4SoftAesDouble then Some(Legacy(2, AesOff))
    else None
  }

  /** The mode the processor supports. */
  function CpuAes(hasAes: bool): AesNi {
    if hasAes then AesOn else AesOff
  }

  /** The algorithms held to at most three hashes at a time. */
  predicate CappedAlgo(a: AlgoSettings) {
    a.algo == CryptonightHeavy || a.powVariant == PowXfh
  }

  const MaxCappedHashFactor: nat := 3

  /** The legacy variant fills a hash factor of 0 and an AES-NI mode on auto. */
  function ApplyLegacy(a: AlgoSettings): AlgoSettings {
    match LegacyOf(a.algoVariant)
    case None => a
    case Some(l) =>
      a.(hashFactor := if a.hashFactor == 0 then l.hashFactor else a.hashFactor,
         aesni := if a.aesni == AesAuto then l.aesni else a.aesni)
  }

  function ApplyCpuAes(a: AlgoSettings, safe: bool, hasAes: bool): AlgoSettings {
    if a.aesni == AesAuto || safe then a.(aesni := CpuAes(hasAes)) else a
  }

  function CapHashFactor(a: AlgoSettings): AlgoSettings {
    if CappedAlgo(a) && a.hashFactor > MaxCappedHashFactor then a.(hashFactor := MaxCappedHashFactor) else a
  }

  function OptimizeAlgorithmConfiguration(c: Config, hasAes: bool): (r: Config)
    // only the hash factor and the AES-NI mode change
    ensures r == c.(algo := c.algo.(hashFactor := r.algo.hashFactor, aesni := r.algo.aesni))
    // AES-NI is decided: never left on auto
    ensures r.algo.aesni != AesAuto
    // safe mode always follows the processor
    ensures Safe in c.flags ==> r.algo.aesni == CpuAes(hasAes)
    // an explicit mode is kept outside safe mode, whatever the legacy variant says
    ensures Safe !in c.flags && c.algo.aesni != AesAuto ==> r.algo.aesni == c.algo.aesni
    // a mode on auto takes the legacy variant's, or else the processor's
    ensures Safe !in c.flags && c.algo.aesni == AesAuto ==>
      r.algo.aesni == (match LegacyOf(c.algo.algoVariant)
                       case Some(l) => l.aesni
                       case None => CpuAes(hasAes))
    // an unset hash factor takes the legacy variant's, or stays unset
    ensures c.algo.hashFactor == 0 ==>
      r.algo.hashFactor == (match LegacyOf(c.algo.algoVariant)
                            case Some(l) => l.hashFactor
                            case None => 0)
    // a set hash factor is kept, except that it is cut to the cap
    ensures c.algo.hashFactor != 0 && !CappedAlgo(c.algo) ==> r.algo.hashFactor == c.algo.hashFactor
    ensures c.algo.hashFactor != 0 && CappedAlgo(c.algo) ==>
      r.algo.hashFactor == if c.algo.hashFactor > MaxCappedHashFactor then MaxCappedHashFactor else c.algo.hashFactor
    ensures CappedAlgo(c.algo) ==> r.algo.hashFactor <= MaxCappedHashFactor
  {
    c.(algo := CapHashFactor(ApplyCpuAes(ApplyLegacy(c.algo), Safe in c.flags, hasAes)))
  }

  /** Running the reconciliation a second time changes nothing. */
  lemma OptimizeIdempotent(c: Config, hasAes: bool)
    ensures OptimizeAlgorithmConfiguration(OptimizeAlgorithmConfiguration(c, hasAes), hasAes)
         == OptimizeAlgorithmConfiguration(c, hasAes)
  {
    var r := OptimizeAlgorithmConfiguration(c, hasAes);
    assert r.algo.algoVariant == c.algo.algoVariant;
    assert CappedAlgo(r.algo) == CappedAlgo(c.algo);
  }

  /** `--av 1` without `--aesni` turns AES-NI on even on a processor without
      it, unless safe mode is on. */
  lemma LegacyAesOverridesCpu(c: Config)
    requires c.algo.algoVariant == Av1Aesni && c.algo.aesni == AesAuto && Safe !in c.flags
    ensures OptimizeAlgorithmConfiguration(c, false).algo.aesni == AesOn
  {
  }

  /** With the defaults the hash factor stays unset and AES-NI follows the
      processor. */
  lemma DefaultsFollowCpu(hasAes: bool)
    ensures OptimizeAlgorithmConfiguration(DefaultConfig(), hasAes)
         == DefaultConfig().(algo := DefaultConfig().algo.(aesni := CpuAes(hasAes)))
  {
  }
}
