/** The miner's configuration record (`class Options`) restricted to the fields
    the option parsers of this model write, the option keys they dispatch on,
    and the defaults the constructor installs. */
module OptionsConfig {
  import opened Wrappers
  import opened Algorithms

  /** `MAX_NUM_HASH_BLOCKS` and `kDefaultCCPort` are declared in headers that
      are not part of this model; they are left as arbitrary constants, so
      every property proved here holds whatever their values. */
  const MaxNumHashBlocks: nat
  const DefaultCCPort: int

  /** `kDonateLevel`: the usage text gives the default as 5. */
  const DefaultDonateLevel: int := 5

  // Option keys: getopt codes; a short option is keyed by its character code.
  const KeyAlgo: int := 97  // 'a'
  const KeyRetries: int := 114  // 'r'
  const KeyRetryPause: int := 82  // 'R'
  const KeyThreads: int := 116  // 't'
  const KeyAlgoVariant: int := 118  // 'v'
  const KeyAesni: int := 65  // 'A'
  const KeyMultihashFactor: int := 109  // 'm'
  const KeyBackground: int := 66  // 'B'
  const KeyKeepAlive: int := 107  // 'k'
  const KeySyslog: int := 83  // 'S'
  const KeyNoColor: int := 1002
  const KeyDonateLevel: int := 1003
  const KeyMaxCpuUsage: int := 1004
  const KeySafe: int := 1005
  const KeyNicehash: int := 1006
  const KeyPrintTime: int := 1007
  const KeyNoHugePages: int := 1009
  const KeyUseTls: int := 1015
  const KeyForcePowVariant: int := 1016
  const KeyPowVariant: int := 1017
  const KeySkipSelfCheck: int := 1018
  const KeyCpuAffinity: int := 1020
  const KeyCpuPriority: int := 1021
  const KeyColors: int := 2000
  const KeyApiPort: int := 4000
  const KeyCCUrl: int := 4003
  const KeyCCPort: int := 4006
  const KeyDaemonized: int := 4011
  const KeyCCUpdateInterval: int := 4012
  const KeyMultihashThreadMask: int := 4013
  const KeyCCUseTls: int := 4016
  const KeyCCUseRemoteLogging: int := 4017
  const KeyCCClientLogLinesHistory: int := 4018
  const KeyCCUploadConfigOnStartup: int := 4019
  const KeyAsmOptimization: int := 4020
  const KeyCCPushOfflineMiners: int := 4024
  const KeyCCPushPeriodicStatus: int := 4025
  const KeyCCPushZeroHashrateMiners: int := 4026

  /** The boolean settings of the miner; a configuration holds the set of
      those that are on. The last three are kept by the source on the last
      configured pool (`Url`). */
  datatype Flag =
    | Background | Colors | HugePages | Safe | Syslog | Daemonized
    | ForcePowVariant | SkipSelfCheck
    | CCUseTls | CCUseRemoteLogging | CCUploadConfigOnStartup
    | CCPushOfflineMiners | CCPushPeriodicStatus | CCPushZeroHashrateMiners
    | PoolKeepAlive | PoolNicehash | PoolUseTls

  /** The hashing algorithm and how it is run. */
  datatype AlgoSettings = AlgoSettings(
    algo: Algo,
    algoVariant: nat,
    aesni: AesNi,
    powVariant: PowVariant,
    asmOptimization: AsmOptimization,
    hashFactor: nat)

  /** Numeric limits of the miner process. */
  datatype Limits = Limits(
    retries: int,
    retryPause: int,
    threads: int,
    donateLevel: int,
    maxCpuUsage: int,
    printTime: int,
    priority: int,
    apiPort: int,
    affinity: int,
    multiHashThreadMask: int)

  /** Connection to the command-and-control server. */
  datatype CCSettings = CCSettings(
    host: Option<string>,
    port: int,
    updateInterval: int,
    clientLogLinesHistory: int)

  datatype Config = Config(flags: set<Flag>, algo: AlgoSettings, limits: Limits, cc: CCSettings)

  /** What a parser returns: the source's `bool` and the configuration after
      the call. */
  datatype Parsed = Parsed(ok: bool, config: Config)

  /** The constructor's member initialisers. */
  function DefaultConfig(): Config
  {
    Config(
      {Colors, HugePages, CCUseRemoteLogging, CCUploadConfigOnStartup},
      AlgoSettings(
        algo := Cryptonight,
        algoVariant := Av0Auto,
        aesni := AesAuto,
        powVariant := PowAutodetect,
        asmOptimization := AsmAutodetect,
        hashFactor := 0),
      Limits(
        retries := 5,
        retryPause := 5,
        threads := 0,
        donateLevel := DefaultDonateLevel,
        maxCpuUsage := 75,
        printTime := 60,
        priority := -1,
        apiPort := 0,
        affinity := -1,
        multiHashThreadMask := -1),
      CCSettings(
        host := None,
        port := 0,
        updateInterval := 10,
        clientLogLinesHistory := 100))
  }
}
