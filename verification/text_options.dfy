/** `Options::parseArg(int key, const char *arg)` for the options of this
    model: numeric options are read with `strtol` and passed on as `uint64_t`
    (a negative `long` converts modulo 2^64), switches go through
    `parseBoolean`, names through the lookups, and `--cc-url` through the URL
    split. */
module TextOptions {
  import opened Wrappers
  import opened MachineInt
  import Strtol
  import opened OptionsConfig
  import opened NumericOptions
  import opened BooleanOptions
  import opened NameLookup
  import CCUrl

  /** The base `strtol` reads a numeric option in: 10 for all of them, except
      that `--cc-client-log-lines-history` is read in base 25. */
  function NumberBase(key: int): Option<nat> {
    if key in {KeyRetries, KeyRetryPause, KeyAlgoVariant, KeyAesni, KeyMultihashFactor,
               KeyDonateLevel, KeyMaxCpuUsage, KeyPrintTime, KeyCpuPriority, KeyApiPort,
               KeyCCPort, KeyCCUpdateInterval, KeyThreads} then Some(10)
    else if key == KeyCCClientLogLinesHistory then Some(25)
    else None
  }

  /** The value-taking and switch options this dispatch covers. */
  predicate TextKey(key: int) {
    || NumberBase(key).Some?
    || key in SwitchOptions
    || key in {KeyAlgo, KeyPowVariant, KeyAsmOptimization, KeyCCUrl, KeyDaemonized}
  }

  /** A numeric option given as text. */
  function ParseNumberText(c: Config, key: int, arg: string): Parsed
    requires NumberBase(key).Some?
  {
    ParseNumber(c, key, ToUint64(Strtol.Parse(arg, NumberBase(key).value)))
  }

  /** `strncmp(arg, "all", 3) == 0`. */
  predicate StartsWithAll(arg: string) {
    |arg| >= 3 && arg[..3] == "all"
  }

  /** The dispatch, with the corrections of the two defects this model records
      (the switch values and the URL port check); `cpuThreads` is what
      `Cpu::threads()` reports. Each option writes only its own part of the
      configuration, and a refused option changes nothing, except that a
      refused `--cc-url` has already replaced the host and reset the port. */
  function ParseText(c: Config, key: int, arg: string, cpuThreads: int): (r: Parsed)
    requires TextKey(key)
    ensures !r.ok ==> key == KeyCCUrl || r.config == c
    ensures !r.ok && key == KeyCCUrl ==> r.config == c.(cc := c.cc.(host := r.config.cc.host, port := DefaultCCPort))
    ensures key in SwitchOptions ==> r.ok && r.config.algo == c.algo && r.config.limits == c.limits && r.config.cc == c.cc
    ensures key in {KeyAlgo, KeyPowVariant, KeyAsmOptimization} ==>
      r.config.flags == c.flags && r.config.limits == c.limits && r.config.cc == c.cc
    ensures key == KeyCCUrl ==> r.config == c.(cc := c.cc.(host := r.config.cc.host, port := r.config.cc.port))
    ensures key == KeyDaemonized ==> r.ok && r.config == c.(flags := c.flags + {Daemonized})
  {
    if key in SwitchOptions then ParseSwitch(c, key)
    else if key == KeyCCUrl then CCUrl.ParseCCUrl(c, arg)
    else ParseOther(c, key, arg, cpuThreads)
  }

  /** The dispatch as the source writes it: the switches pass the values of
      `SwitchValueAsWritten`, and `--cc-url` never fails. */
  function ParseTextAsWritten(c: Config, key: int, arg: string, cpuThreads: int): (r: Parsed)
    requires TextKey(key)
    ensures !r.ok ==> r.config == c
    ensures key in SwitchOptions ==> r.ok && r.config.algo == c.algo && r.config.limits == c.limits && r.config.cc == c.cc
    ensures key in {KeyAlgo, KeyPowVariant, KeyAsmOptimization} ==>
      r.config.flags == c.flags && r.config.limits == c.limits && r.config.cc == c.cc
    ensures key == KeyCCUrl ==> r.ok && r.config == c.(cc := c.cc.(host := r.config.cc.host, port := r.config.cc.port))
    ensures key == KeyDaemonized ==> r.ok && r.config == c.(flags := c.flags + {Daemonized})
  {
    if key in SwitchOptions then ParseSwitchAsWritten(c, key)
    else if key == KeyCCUrl then CCUrl.ParseCCUrlAsWritten(c, arg)
    else ParseOther(c, key, arg, cpuThreads)
  }

  /** The options both dispatches treat alike: numbers, names and
      `--daemonized`. */
  function ParseOther(c: Config, key: int, arg: string, cpuThreads: int): (r: Parsed)
    requires TextKey(key) && key !in SwitchOptions && key != KeyCCUrl
    ensures !r.ok ==> r.config == c
    ensures key in {KeyAlgo, KeyPowVariant, KeyAsmOptimization} ==>
      r.config.flags == c.flags && r.config.limits == c.limits && r.config.cc == c.cc
    ensures key == KeyDaemonized ==> r.ok && r.config == c.(flags := c.flags + {Daemonized})
  {
    if key == KeyThreads && StartsWithAll(arg) then Parsed(true, c.(limits := c.limits.(threads := cpuThreads)))
    else if NumberBase(key).Some? then ParseNumberText(c, key, arg)
    else if key == KeyAlgo then SetAlgo(c, arg)
    else if key == KeyPowVariant then ParsePowVariant(c, arg)
    else if key == KeyAsmOptimization then ParseAsmOptimization(c, arg)
    else Parsed(true, c.(flags := c.flags + {Daemonized}))
  }

  /** The two dispatches differ only at the recorded defects: on the switches
      whose value the source gets wrong, and on a `--cc-url` whose port the
      cast wraps. Everywhere else they agree. */
  lemma DispatchesDifferOnlyAtDefects(c: Config, key: int, arg: string, cpuThreads: int)
    requires TextKey(key)
    ensures key !in SwitchOptions && key != KeyCCUrl ==>
      ParseTextAsWritten(c, key, arg, cpuThreads) == ParseText(c, key, arg, cpuThreads)
    ensures key in SwitchOptions && ParseTextAsWritten(c, key, arg, cpuThreads) != ParseText(c, key, arg, cpuThreads) ==>
      key in DefectiveSwitches
    ensures key == KeyCCUrl ==>
      ParseTextAsWritten(c, key, arg, cpuThreads).config.cc.host == ParseText(c, key, arg, cpuThreads).config.cc.host
    ensures key == KeyCCUrl && (':' !in arg || 0 <= CCUrl.PortValue(arg, CCUrl.FindChar(arg, ':').value) < TwoTo16) ==>
      ParseTextAsWritten(c, key, arg, cpuThreads) == ParseText(c, key, arg, cpuThreads)
  {
    if key == KeyCCUrl {
      CCUrl.AsWrittenAgreesInRange(c, arg);
    }
  }

  /** A numeric option other than `--threads all` goes to the range checks. */
  lemma NumericDispatch(c: Config, key: int, arg: string, cpuThreads: int)
    requires NumberBase(key).Some? && !(key == KeyThreads && StartsWithAll(arg))
    ensures ParseText(c, key, arg, cpuThreads)
         == ParseNumber(c, key, ToUint64(Strtol.Parse(arg, NumberBase(key).value)))
  {
    NumericNotSwitch(key);
  }

  /** The numeric options are neither switches nor `--cc-url`. */
  lemma NumericNotSwitch(key: int)
    requires NumberBase(key).Some?
    ensures key !in SwitchOptions && key != KeyCCUrl
  {
  }

  /** The decimal text of an in-range retry count sets it. */
  lemma RetriesTextRoundTrip(c: Config, n: nat, cpuThreads: int)
    requires 1 <= n <= 1000
    ensures ParseText(c, KeyRetries, Strtol.DecimalDigits(n), cpuThreads)
         == Parsed(true, c.(limits := c.limits.(retries := n)))
  {
    NumericDispatch(c, KeyRetries, Strtol.DecimalDigits(n), cpuThreads);
    Strtol.DecimalRoundTrip(n);
  }

  /** A negative retry count converts to a huge unsigned value and is refused,
      whatever its magnitude. */
  lemma NegativeRetriesRefused(c: Config, n: nat, cpuThreads: int)
    requires n >= 1
    ensures ParseText(c, KeyRetries, "-" + Strtol.DecimalDigits(n), cpuThreads) == Parsed(false, c)
  {
    var arg := "-" + Strtol.DecimalDigits(n);
    NumericDispatch(c, KeyRetries, arg, cpuThreads);
    Strtol.NegativeDecimalRoundTrip(n);
    var v := Strtol.Parse(arg, 10);
    assert Strtol.LongMin <= v < 0;
    assert ToUint64(v) >= TwoTo63;
    assert ParseNumber(c, KeyRetries, ToUint64(v)) == Parsed(false, c);
  }

  /** A negative CPU priority is accepted and dropped: the option keeps its
      previous value. */
  lemma NegativePriorityIgnored(c: Config, n: nat, cpuThreads: int)
    requires n >= 1
    ensures ParseText(c, KeyCpuPriority, "-" + Strtol.DecimalDigits(n), cpuThreads) == Parsed(true, c)
  {
    var arg := "-" + Strtol.DecimalDigits(n);
    NumericDispatch(c, KeyCpuPriority, arg, cpuThreads);
    Strtol.NegativeDecimalRoundTrip(n);
    var v := Strtol.Parse(arg, 10);
    assert Strtol.LongMin <= v < 0;
    assert ToUint64(v) >= TwoTo63;
    assert ParseNumber(c, KeyCpuPriority, ToUint64(v)) == Parsed(true, c);
  }

  /** `--cc-client-log-lines-history 100` keeps 625 lines: the value is read in
      base 25. */
  lemma LogLinesReadInBase25(c: Config, cpuThreads: int)
    ensures ParseText(c, KeyCCClientLogLinesHistory, "100", cpuThreads)
         == Parsed(true, c.(cc := c.cc.(clientLogLinesHistory := 625)))
  {
    NumericDispatch(c, KeyCCClientLogLinesHistory, "100", cpuThreads);
    Strtol.HundredInBase25();
    LogLinesStored(c, 625);
  }

  /** A history length that fits an `int` is stored as it is. */
  lemma LogLinesStored(c: Config, v: nat)
    requires v < TwoTo31
    ensures ParseNumber(c, KeyCCClientLogLinesHistory, ToUint64(v))
         == Parsed(true, c.(cc := c.cc.(clientLogLinesHistory := v)))
  {
  }

  /** `--threads all` takes the processor's thread count unchecked, while a
      number is held to at most 1024. */
  lemma ThreadsAll(c: Config, rest: string, cpuThreads: int)
    ensures ParseText(c, KeyThreads, "all" + rest, cpuThreads)
         == Parsed(true, c.(limits := c.limits.(threads := cpuThreads)))
  {
    assert ("all" + rest)[..3] == "all";
  }
}
