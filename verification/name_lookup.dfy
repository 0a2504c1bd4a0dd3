/** `Options::setAlgo`, `Options::parsePowVariant` and
    `Options::parseAsmOptimization`. Each scans a canonical name table (a
    match selects the enumeration value at that position); on the last
    iteration of the scan it also checks a list of aliases, in the order the
    source lists them; any other name is refused and changes nothing. */
module NameLookup {
  import opened Wrappers
  import opened Algorithms
  import opened OptionsConfig

  /** `IndexOf` finds a name at the first position holding it. */
  lemma IndexOfPrefix(t: seq<string>, s: string, i: nat)
    requires i < |t| && t[i] == s && s !in t[..i]
    ensures IndexOf(t, s) == i
  {
    var r := IndexOf(t, s);
    assert s in t by { assert t[i] == s; }
    assert r >= i by { assert forall j :: 0 <= j < i ==> t[..i][j] == t[j]; }
    assert r <= i by { assert forall j :: 0 <= j < r ==> t[..r][j] == t[j]; }
  }

  // --- algorithms -------------------------------------------------------------

  /** What an alias of `setAlgo` selects: an algorithm and, for some, a PoW
      variant as well. */
  datatype AlgoChoice = AlgoChoice(algo: Algo, variant: Option<PowVariant>)

  /** The aliases `setAlgo` accepts besides the canonical names. */
  function AlgoAlias(name: string): Option<AlgoChoice> {
    if name == "cn-lite" || name == "cryptonight-light" then
      Some(AlgoChoice(CryptonightLite, None))
    else if name == "cn-super-lite" || name == "cryptonight-super-lite" || name == "cryptonight-superlight" then
      Some(AlgoChoice(CryptonightSuperlite, None))
    else if name == "cn-ultra-lite" || name == "cryptonight-ultra-lite" || name == "cryptonight-ultralight"
      || name == "cryptonight-turtle" || name == "cn-turtle" || name == "cryptonight-pico" || name == "cn-pico" then
      Some(AlgoChoice(CryptonightUltralite, None))
    else if name == "cn-extreme-lite" || name == "cryptonight-extreme-lite" || name == "cryptonight-extremelight"
      || name == "cryptonight-upx2" || name == "cn-upx2" || name == "cryptonight-femto" || name == "cn-femto" then
      Some(AlgoChoice(CryptonightExtremelite, None))
    else if name == "cryptonight-lite-ipbc" || name == "cryptonight-light-ipbc" || name == "cn-lite-ipbc" then
      Some(AlgoChoice(CryptonightLite, Some(PowTube)))
    else if name == "cryptonight-heavy" || name == "cn-heavy" then
      Some(AlgoChoice(CryptonightHeavy, None))
    else if name == "cryptonight-hospital" || name == "cryptonight-hosp" then
      Some(AlgoChoice(Cryptonight, Some(PowHosp)))
    else None
  }

  function Choose(c: Config, choice: AlgoChoice): Config {
    c.(algo := c.algo.(algo := choice.algo, powVariant := choice.variant.GetOr(c.algo.powVariant)))
  }

  /** The names `setAlgo` accepts. */
  predicate KnownAlgoName(name: string) {
    name in AlgoNames || AlgoAlias(name).Some?
  }

  /** Refuses an unknown name and changes nothing; otherwise changes the
      algorithm and at most the PoW variant, a canonical name selecting the
      algorithm at its position in `algo_names` and keeping the variant. */
  function SetAlgo(c: Config, name: string): (r: Parsed)
    ensures r.ok <==> KnownAlgoName(name)
    ensures !r.ok ==> r.config == c
    ensures r.config.flags == c.flags && r.config.limits == c.limits && r.config.cc == c.cc
    ensures r.config.algo.(algo := c.algo.algo, powVariant := c.algo.powVariant) == c.algo
    ensures name in AlgoNames ==>
      AlgoNames[AlgoOrdinal(r.config.algo.algo)] == name && r.config.algo.powVariant == c.algo.powVariant
    // an alias selects what the alias table says
    ensures name !in AlgoNames && AlgoAlias(name).Some? ==> r.config == Choose(c, AlgoAlias(name).value)
    // only an alias that names a variant (ipbc, hospital) moves the PoW variant
    ensures r.config.algo.powVariant != c.algo.powVariant ==>
      name !in AlgoNames && AlgoAlias(name).Some? && AlgoAlias(name).value.variant.Some?
  {
    var i := IndexOf(AlgoNames, name);
    if i >= 0 then
      AlgoOrdinalOfIndex(i);
      Parsed(true, c.(algo := c.algo.(algo := Algos[i])))
    else
      match AlgoAlias(name)
      case None => Parsed(false, c)
      case Some(choice) => Parsed(true, Choose(c, choice))
  }

  /** The scan of `setAlgo` as the source writes it: the canonical name at each
      position, the aliases only on the last position. */
  method SetAlgoScan(c: Config, name: string) returns (r: Parsed)
    ensures r == SetAlgo(c, name)
  {
    var i := 0;
    while i < |AlgoNames|
      invariant 0 <= i < |AlgoNames|
      invariant name !in AlgoNames[..i]
    {
      if AlgoNames[i] == name {
        IndexOfPrefix(AlgoNames, name, i);
        return Parsed(true, c.(algo := c.algo.(algo := Algos[i])));
      }
      assert AlgoNames[..i + 1] == AlgoNames[..i] + [AlgoNames[i]];
      if i == |AlgoNames| - 1 {
        assert AlgoNames[..i + 1] == AlgoNames;
        var alias := AlgoAlias(name);
        if alias.Some? {
          return Parsed(true, Choose(c, alias.value));
        }
        return Parsed(false, c);
      }
      i := i + 1;
    }
    assert false;
  }

  /** `algoName` and `setAlgo` are inverse: the name of any algorithm selects
      that algorithm and keeps the PoW variant. */
  lemma AlgoNameRoundTrip(c: Config, a: Algo)
    ensures SetAlgo(c, AlgoName(a)) == Parsed(true, c.(algo := c.algo.(algo := a)))
  {
    IndexOfDistinct(AlgoNames, AlgoOrdinal(a));
  }

  /** The `*-ipbc` aliases select cryptonight-lite and the TUBE variant. */
  lemma IpbcAlias(c: Config)
    ensures SetAlgo(c, "cn-lite-ipbc") == Parsed(true, c.(algo := c.algo.(algo := CryptonightLite, powVariant := PowTube)))
  {
    assert "cn-lite-ipbc" !in AlgoNames;
  }

  /** The hospital aliases select plain cryptonight and the HOSP variant. */
  lemma HospitalAlias(c: Config)
    ensures SetAlgo(c, "cryptonight-hosp") == Parsed(true, c.(algo := c.algo.(algo := Cryptonight, powVariant := PowHosp)))
  {
    assert "cryptonight-hosp" !in AlgoNames;
  }

  /** The alias "cryptonight-heavy" repeats a canonical name and agrees with
      it. */
  lemma HeavyAliasAgrees()
    ensures AlgoAlias("cryptonight-heavy") == Some(AlgoChoice(Algos[IndexOf(AlgoNames, "cryptonight-heavy")], None))
  {
    IndexOfDistinct(AlgoNames, 5);
  }

  /** The only aliases that also set a PoW variant are the three ipbc
      spellings and the two hospital spellings. */
  lemma VariantAliases(name: string)
    requires AlgoAlias(name).Some? && AlgoAlias(name).value.variant.Some?
    ensures name in {"cryptonight-lite-ipbc", "cryptonight-light-ipbc", "cn-lite-ipbc",
               "cryptonight-hospital", "cryptonight-hosp"}
  {
  }

  /** The short name of plain cryptonight, "cn", is refused by `setAlgo`. */
  lemma ShortNameRefused(c: Config)
    ensures SetAlgo(c, AlgoShortName(Cryptonight)) == Parsed(false, c)
  {
    assert AlgoShortName(Cryptonight) == "cn";
    assert "cn" !in AlgoNames;
    assert AlgoAlias("cn").None?;
  }

  // --- proof-of-work variants -------------------------------------------------

  /** The aliases `parsePowVariant` accepts besides the canonical names. */
  function PowAlias(name: string): Option<PowVariant> {
    if name == "auto" || name == "-1" then Some(PowAutodetect)
    else if name == "cnv1" || name == "monerov7" || name == "aeonv7" || name == "v7" then Some(PowV1)
    else if name == "cnv2" || name == "monerov8" || name == "aeonv8" || name == "v8" then Some(PowV2)
    else if name == "stellite" then Some(PowXtl)
    else if name == "xao" || name == "alloy" then Some(PowAlloy)
    else if name == "ipbc" || name == "bittube" then Some(PowTube)
    else if name == "haven" then Some(PowXhv)
    else if name == "arto" then Some(PowRto)
    else if name == "freehaven" || name == "faven" || name == "swap" then Some(PowXfh)
    else if name == "stellitev9" || name == "xtlv2" || name == "half" || name == "msr2" || name == "xtlv9" then
      Some(PowFast2)
    else if name == "uplexa" then Some(PowUpx)
    else if name == "trtl" || name == "turtlev2" || name == "pico" then Some(PowTurtle)
    else if name == "upx2" || name == "upxv2" || name == "femto" then Some(PowUpx2)
    else if name == "hosp" || name == "hospital" then Some(PowHosp)
    else if name == "wow" then Some(PowWow)
    else if name == "4" || name == "r" || name == "cnv4" || name == "cnv5" then Some(PowV4)
    else if name == "xcash" || name == "heavyx" || name == "double" then Some(PowDouble)
    else if name == "zelerius" || name == "zls" || name == "zlx" then Some(PowZelerius)
    else if name == "rwz" || name == "graft" then Some(PowRwz)
    else None
  }

  /** Refuses an unknown name and changes nothing; otherwise changes the PoW
      variant alone, a canonical name selecting the variant at its position in
      `pow_variant_names`. */
  function ParsePowVariant(c: Config, name: string): (r: Parsed)
    ensures r.ok <==> name in PowVariantNames || PowAlias(name).Some?
    ensures !r.ok ==> r.config == c
    ensures r.config == c.(algo := c.algo.(powVariant := r.config.algo.powVariant))
    ensures name in PowVariantNames ==> PowVariantNames[PowVariantOrdinal(r.config.algo.powVariant)] == name
    // an alias selects the variant the alias table fixes for it
    ensures name !in PowVariantNames && PowAlias(name).Some? ==> r.config.algo.powVariant == PowAlias(name).value
  {
    var i := IndexOf(PowVariantNames, name);
    if i >= 0 then
      PowVariantOrdinalOfIndex(i);
      Parsed(true, c.(algo := c.algo.(powVariant := PowVariants[i])))
    else
      match PowAlias(name)
      case None => Parsed(false, c)
      case Some(v) => Parsed(true, c.(algo := c.algo.(powVariant := v)))
  }

  /** The scan of `parsePowVariant` as the source writes it. */
  method ParsePowVariantScan(c: Config, name: string) returns (r: Parsed)
    ensures r == ParsePowVariant(c, name)
  {
    var i := 0;
    while i < |PowVariantNames|
      invariant 0 <= i < |PowVariantNames|
      invariant name !in PowVariantNames[..i]
    {
      if PowVariantNames[i] == name {
        IndexOfPrefix(PowVariantNames, name, i);
        return Parsed(true, c.(algo := c.algo.(powVariant := PowVariants[i])));
      }
      assert PowVariantNames[..i + 1] == PowVariantNames[..i] + [PowVariantNames[i]];
      if i == |PowVariantNames| - 1 {
        assert PowVariantNames[..i + 1] == PowVariantNames;
        var alias := PowAlias(name);
        if alias.Some? {
          return Parsed(true, c.(algo := c.algo.(powVariant := alias.value)));
        }
        return Parsed(false, c);
      }
      i := i + 1;
    }
    assert false;
  }

  lemma PowVariantNamesDistinct()
    ensures Distinct(PowVariantNames)
  {
    PowNamesDifferLow();
    PowNamesDifferHigh();
    PowNamesDifferAcrossLow();
    PowNamesDifferAcrossHigh();
  }

  // The table compared in blocks of pairs, each small enough to check alone.

  lemma PowNamesDifferLow()
    ensures forall i, j :: 0 <= i < j < 11 ==> PowVariantNames[i] != PowVariantNames[j]
  {
  }

  lemma PowNamesDifferHigh()
    ensures forall i, j :: 11 <= i < j < 21 ==> PowVariantNames[i] != PowVariantNames[j]
  {
  }

  lemma PowNamesDifferAcrossLow()
    ensures forall i, j :: 0 <= i < 11 && 11 <= j < 16 ==> PowVariantNames[i] != PowVariantNames[j]
  {
  }

  lemma PowNamesDifferAcrossHigh()
    ensures forall i, j :: 0 <= i < 11 && 16 <= j < 21 ==> PowVariantNames[i] != PowVariantNames[j]
  {
  }

  /** Every PoW variant is selected by its own canonical name. */
  lemma PowVariantNameRoundTrip(c: Config, v: PowVariant)
    ensures ParsePowVariant(c, PowVariantNames[PowVariantOrdinal(v)]) == Parsed(true, c.(algo := c.algo.(powVariant := v)))
  {
    PowVariantNamesDistinct();
    IndexOfDistinct(PowVariantNames, PowVariantOrdinal(v));
  }

  /** "-1" means autodetect. */
  lemma PowMinusOne(c: Config)
    ensures ParsePowVariant(c, "-1") == Parsed(true, c.(algo := c.algo.(powVariant := PowAutodetect)))
  {
    assert "-1" !in PowVariantNames;
  }

  /** An alias of the second Monero variant. */
  lemma PowMoneroV8(c: Config)
    ensures ParsePowVariant(c, "monerov8") == Parsed(true, c.(algo := c.algo.(powVariant := PowV2)))
  {
    assert "monerov8" !in PowVariantNames;
  }

  // --- assembly optimisation --------------------------------------------------

  /** The aliases `parseAsmOptimization` accepts: "none" and "0" switch the
      optimisation off. Unlike the PoW variant, "-1" is not an alias of
      "auto". */
  function AsmAlias(name: string): Option<AsmOptimization> {
    if name == "none" || name == "0" then Some(AsmOff) else None
  }

  /** Refuses an unknown name and changes nothing; otherwise changes the
      assembly optimisation alone, a canonical name selecting the value at its
      position in `asm_optimization_names`. */
  function ParseAsmOptimization(c: Config, name: string): (r: Parsed)
    ensures r.ok <==> name in AsmOptimizationNames || name == "none" || name == "0"
    ensures !r.ok ==> r.config == c
    ensures r.config == c.(algo := c.algo.(asmOptimization := r.config.algo.asmOptimization))
    ensures name in AsmOptimizationNames ==>
      AsmOptimizationNames[AsmOrdinal(r.config.algo.asmOptimization)] == name
    ensures r.ok && name !in AsmOptimizationNames ==> r.config.algo.asmOptimization == AsmOff
  {
    var i := IndexOf(AsmOptimizationNames, name);
    if i >= 0 then
      AsmOrdinalOfIndex(i);
      Parsed(true, c.(algo := c.algo.(asmOptimization := AsmOptimizations[i])))
    else
      match AsmAlias(name)
      case None => Parsed(false, c)
      case Some(a) => Parsed(true, c.(algo := c.algo.(asmOptimization := a)))
  }

  /** The scan of `parseAsmOptimization` as the source writes it: the loop
      runs up to the size of the PoW-variant table (21) while indexing the
      five-entry assembly table, which stays in bounds only because the
      iteration at the last assembly entry always leaves the loop. The
      invariant `i < |AsmOptimizationNames|` is that argument. */
  method ParseAsmOptimizationScan(c: Config, name: string) returns (r: Parsed)
    ensures r == ParseAsmOptimization(c, name)
  {
    var i := 0;
    while i < |PowVariantNames|
      invariant 0 <= i < |AsmOptimizationNames|
      invariant name !in AsmOptimizationNames[..i]
    {
      if AsmOptimizationNames[i] == name {
        IndexOfPrefix(AsmOptimizationNames, name, i);
        return Parsed(true, c.(algo := c.algo.(asmOptimization := AsmOptimizations[i])));
      }
      assert AsmOptimizationNames[..i + 1] == AsmOptimizationNames[..i] + [AsmOptimizationNames[i]];
      if i == |AsmOptimizationNames| - 1 {
        assert AsmOptimizationNames[..i + 1] == AsmOptimizationNames;
        var alias := AsmAlias(name);
        if alias.Some? {
          return Parsed(true, c.(algo := c.algo.(asmOptimization := alias.value)));
        }
        return Parsed(false, c);
      }
      i := i + 1;
    }
    assert false;
  }

  lemma AsmOptimizationNamesDistinct()
    ensures Distinct(AsmOptimizationNames)
  {
  }

  /** Every assembly optimisation is selected by its own name. */
  lemma AsmNameRoundTrip(c: Config, a: AsmOptimization)
    ensures ParseAsmOptimization(c, AsmOptimizationNames[AsmOrdinal(a)])
         == Parsed(true, c.(algo := c.algo.(asmOptimization := a)))
  {
    AsmOptimizationNamesDistinct();
    IndexOfDistinct(AsmOptimizationNames, AsmOrdinal(a));
  }

  /** "-1" is refused for the assembly optimisation although it means
      autodetect for the PoW variant. */
  lemma AsmRefusesMinusOne(c: Config)
    ensures ParseAsmOptimization(c, "-1") == Parsed(false, c)
    ensures ParseAsmOptimization(c, "0") == Parsed(true, c.(algo := c.algo.(asmOptimization := AsmOff)))
  {
    assert "-1" !in AsmOptimizationNames;
    assert "0" !in AsmOptimizationNames;
  }
}
