/** `Options::parseArg(int key, uint64_t arg)`: range checks on an option value
    that has already been converted to an unsigned 64-bit number. Some options
    are rejected (the call returns false and nothing changes), others are
    silently ignored (the call returns true and nothing changes). */
module NumericOptions {
  import opened Wrappers
  import opened MachineInt
  import opened Algorithms
  import opened OptionsConfig

  /** The options that fail the parse when the value is outside the closed
      range given here (a missing upper bound is the uint64 maximum). */
  function StrictRange(key: int): Option<(nat, int)> {
    if key == KeyRetries then Some((1, 1000))
    else if key == KeyRetryPause then Some((1, 3600))
    else if key == KeyThreads then Some((0, 1024))
    else if key == KeyAlgoVariant then Some((0, 1000))
    else if key == KeyAesni then Some((0, 2))
    else if key == KeyMultihashFactor then Some((0, MaxNumHashBlocks))
    else if key == KeyMaxCpuUsage then Some((1, 100))
    else if key == KeyPrintTime then Some((0, 1000))
    else if key == KeyCCUpdateInterval then Some((1, TwoTo64 - 1))
    else None
  }

  predicate Rejects(key: int, arg: nat) {
    StrictRange(key).Some? && !(StrictRange(key).value.0 <= arg <= StrictRange(key).value.1)
  }

  /** The options whose out-of-range value is dropped without an error. */
  predicate SoftIgnored(key: int, arg: nat) {
    || (key == KeyDonateLevel && !(1 <= arg <= 99))
    || (key == KeyCpuPriority && arg > 5)
    || ((key == KeyApiPort || key == KeyCCPort) && arg > 65536)
    || ((key == KeyCpuAffinity || key == KeyMultihashThreadMask) && arg == 0)
  }

  function ParseNumber(c: Config, key: int, arg: nat): (r: Parsed)
    requires IsUint64(arg)
    ensures r.ok <==> !Rejects(key, arg)
    ensures Rejects(key, arg) || SoftIgnored(key, arg) ==> r.config == c
  {
    if key == KeyRetries then
      if arg < 1 || arg > 1000 then Parsed(false, c) else Parsed(true, c.(limits := c.limits.(retries := arg)))
    else if key == KeyRetryPause then
      if arg < 1 || arg > 3600 then Parsed(false, c) else Parsed(true, c.(limits := c.limits.(retryPause := arg)))
    else if key == KeyThreads then
      // `arg < 0` can never hold for an unsigned value.
      if arg > 1024 then Parsed(false, c) else Parsed(true, c.(limits := c.limits.(threads := arg)))
    else if key == KeyAlgoVariant then
      if arg > 1000 then Parsed(false, c) else Parsed(true, c.(algo := c.algo.(algoVariant := arg)))
    else if key == KeyAesni then
      if arg > 2 then Parsed(false, c) else Parsed(true, c.(algo := c.algo.(aesni := AesNiOf(arg))))
    else if key == KeyMultihashFactor then
      if arg > MaxNumHashBlocks then Parsed(false, c) else Parsed(true, c.(algo := c.algo.(hashFactor := arg)))
    else if key == KeyDonateLevel then
      if arg < 1 || arg > 99 then Parsed(true, c) else Parsed(true, c.(limits := c.limits.(donateLevel := arg)))
    else if key == KeyMaxCpuUsage then
      if arg < 1 || arg > 100 then Parsed(false, c) else Parsed(true, c.(limits := c.limits.(maxCpuUsage := arg)))
    else if key == KeyPrintTime then
      if arg > 1000 then Parsed(false, c) else Parsed(true, c.(limits := c.limits.(printTime := arg)))
    else if key == KeyCpuAffinity then
      Parsed(true, if arg != 0 then c.(limits := c.limits.(affinity := ToInt64(arg))) else c)
    else if key == KeyCpuPriority then
      Parsed(true, if arg <= 5 then c.(limits := c.limits.(priority := arg)) else c)
    else if key == KeyApiPort then
      Parsed(true, if arg <= 65536 then c.(limits := c.limits.(apiPort := arg)) else c)
    else if key == KeyCCPort then
      Parsed(true, if arg <= 65536 then c.(cc := c.cc.(port := arg)) else c)
    else if key == KeyCCUpdateInterval then
      if arg < 1 then Parsed(false, c) else Parsed(true, c.(cc := c.cc.(updateInterval := ToInt32(arg))))
    else if key == KeyMultihashThreadMask then
      Parsed(true, if arg != 0 then c.(limits := c.limits.(multiHashThreadMask := ToInt64(arg))) else c)
    else if key == KeyCCClientLogLinesHistory then
      Parsed(true, c.(cc := c.cc.(clientLogLinesHistory := ToInt32(arg))))
    else
      Parsed(true, c)
  }

  /** The strict checks, option by option: accepted exactly inside the range,
      and then only the option's own field takes the value. */
  lemma StrictOptions(c: Config, arg: nat)
    requires IsUint64(arg)
    ensures ParseNumber(c, KeyRetries, arg) ==
      if 1 <= arg <= 1000 then Parsed(true, c.(limits := c.limits.(retries := arg))) else Parsed(false, c)
    ensures ParseNumber(c, KeyRetryPause, arg) ==
      if 1 <= arg <= 3600 then Parsed(true, c.(limits := c.limits.(retryPause := arg))) else Parsed(false, c)
    ensures ParseNumber(c, KeyMaxCpuUsage, arg) ==
      if 1 <= arg <= 100 then Parsed(true, c.(limits := c.limits.(maxCpuUsage := arg))) else Parsed(false, c)
    ensures ParseNumber(c, KeyCCUpdateInterval, arg).ok <==> arg >= 1
    ensures ParseNumber(c, KeyThreads, arg) ==
      if arg <= 1024 then Parsed(true, c.(limits := c.limits.(threads := arg))) else Parsed(false, c)
    ensures ParseNumber(c, KeyPrintTime, arg) ==
      if arg <= 1000 then Parsed(true, c.(limits := c.limits.(printTime := arg))) else Parsed(false, c)
    ensures ParseNumber(c, KeyMultihashFactor, arg) ==
      if arg <= MaxNumHashBlocks then Parsed(true, c.(algo := c.algo.(hashFactor := arg))) else Parsed(false, c)
    ensures ParseNumber(c, KeyAesni, arg).ok <==> arg <= 2
    ensures arg <= 2 ==> AesNiOrdinal(ParseNumber(c, KeyAesni, arg).config.algo.aesni) == arg
  {
  }

  /** The soft options: an out-of-range value is accepted and dropped; an
      in-range value is stored. */
  lemma SoftOptions(c: Config, arg: nat)
    requires IsUint64(arg)
    ensures ParseNumber(c, KeyDonateLevel, arg) ==
      Parsed(true, if 1 <= arg <= 99 then c.(limits := c.limits.(donateLevel := arg)) else c)
    ensures ParseNumber(c, KeyCpuPriority, arg) ==
      Parsed(true, if arg <= 5 then c.(limits := c.limits.(priority := arg)) else c)
    ensures ParseNumber(c, KeyApiPort, arg) ==
      Parsed(true, if arg <= 65536 then c.(limits := c.limits.(apiPort := arg)) else c)
    ensures ParseNumber(c, KeyCCPort, arg) ==
      Parsed(true, if arg <= 65536 then c.(cc := c.cc.(port := arg)) else c)
    ensures ParseNumber(c, KeyCpuAffinity, arg).ok
    ensures ParseNumber(c, KeyCpuAffinity, arg).config ==
      if arg == 0 then c else c.(limits := c.limits.(affinity := ToInt64(arg)))
    ensures ParseNumber(c, KeyMultihashThreadMask, arg).ok
    ensures ParseNumber(c, KeyMultihashThreadMask, arg).config ==
      if arg == 0 then c else c.(limits := c.limits.(multiHashThreadMask := ToInt64(arg)))
  {
  }

  /** The ranges the numeric options keep their fields in. */
  predicate Valid(c: Config) {
    && 1 <= c.limits.retries <= 1000
    && 1 <= c.limits.retryPause <= 3600
    && 0 <= c.limits.threads <= 1024
    && c.algo.algoVariant <= 1000
    && c.algo.hashFactor <= MaxNumHashBlocks
    && 1 <= c.limits.donateLevel <= 99
    && 1 <= c.limits.maxCpuUsage <= 100
    && 0 <= c.limits.printTime <= 1000
    && -1 <= c.limits.priority <= 5
    && 0 <= c.limits.apiPort <= 65536
    && c.limits.affinity != 0
    && c.limits.multiHashThreadMask != 0
  }

  lemma DefaultIsValid()
    ensures Valid(DefaultConfig())
  {
  }

  /** Every numeric option keeps the configuration inside `Valid`. */
  lemma ParseNumberPreservesValid(c: Config, key: int, arg: nat)
    requires IsUint64(arg) && Valid(c)
    ensures Valid(ParseNumber(c, key, arg).config)
  {
    if key == KeyRetries {
    } else if key == KeyRetryPause {
    } else if key == KeyThreads {
    } else if key == KeyAlgoVariant {
    } else if key == KeyAesni {
    } else if key == KeyMultihashFactor {
    } else if key == KeyDonateLevel {
    } else if key == KeyMaxCpuUsage {
    } else if key == KeyPrintTime {
    } else if key == KeyCpuAffinity {
    } else if key == KeyCpuPriority {
    } else if key == KeyApiPort {
    } else if key == KeyCCPort {
    } else if key == KeyCCUpdateInterval {
    } else if key == KeyMultihashThreadMask {
    } else if key == KeyCCClientLogLinesHistory {
    } else {
    }
  }

  /** Giving the same numeric option twice has the effect of giving it once. */
  lemma ParseNumberIdempotent(c: Config, key: int, arg: nat)
    requires IsUint64(arg)
    ensures ParseNumber(ParseNumber(c, key, arg).config, key, arg) == ParseNumber(c, key, arg)
  {
    if key == KeyRetries {
    } else if key == KeyRetryPause {
    } else if key == KeyThreads {
    } else if key == KeyAlgoVariant {
    } else if key == KeyAesni {
    } else if key == KeyMultihashFactor {
    } else if key == KeyDonateLevel {
    } else if key == KeyMaxCpuUsage {
    } else if key == KeyPrintTime {
    } else if key == KeyCpuAffinity {
    } else if key == KeyCpuPriority {
    } else if key == KeyApiPort {
    } else if key == KeyCCPort {
    } else if key == KeyCCUpdateInterval {
    } else if key == KeyMultihashThreadMask {
    } else if key == KeyCCClientLogLinesHistory {
    } else {
    }
  }

  /** `cc-update-interval-s` is checked on the 64-bit value but stored through
      an `int` cast: 2^32 passes the check and stores 0. */
  lemma UpdateIntervalTruncation(c: Config)
    ensures ParseNumber(c, KeyCCUpdateInterval, TwoTo32).ok
    ensures ParseNumber(c, KeyCCUpdateInterval, TwoTo32).config.cc.updateInterval == 0
  {
  }
}
