/** `Options::parseBoolean(int key, bool enable)` and the command-line cases
    of `Options::parseArg(int key, const char *arg)` that call it with a fixed
    value. */
module BooleanOptions {
  import opened Wrappers
  import opened OptionsConfig

  /** The keys `parseBoolean` has a case for. */
  const BooleanKeys: set<int> := {
    KeyKeepAlive, KeyBackground, KeySyslog, KeyNoColor, KeySafe, KeyNicehash,
    KeyNoHugePages, KeyUseTls, KeyForcePowVariant, KeySkipSelfCheck, KeyColors,
    KeyCCUseTls, KeyCCUseRemoteLogging, KeyCCUploadConfigOnStartup,
    KeyCCPushOfflineMiners, KeyCCPushZeroHashrateMiners, KeyCCPushPeriodicStatus
  }

  /** The flag a key of `parseBoolean` writes; `--no-color` and `--colors`
      both write the colour flag. */
  function FlagOf(key: int): (r: Option<Flag>)
    ensures r.Some? <==> key in BooleanKeys
  {
    if key == KeyKeepAlive then Some(PoolKeepAlive)
    else if key == KeyBackground then Some(Background)
    else if key == KeySyslog then Some(Syslog)
    else if key == KeyNoColor then Some(Colors)
    else if key == KeySafe then Some(Safe)
    else if key == KeyNicehash then Some(PoolNicehash)
    else if key == KeyNoHugePages then Some(HugePages)
    else if key == KeyUseTls then Some(PoolUseTls)
    else if key == KeyForcePowVariant then Some(ForcePowVariant)
    else if key == KeySkipSelfCheck then Some(SkipSelfCheck)
    else if key == KeyColors then Some(Colors)
    else if key == KeyCCUseTls then Some(CCUseTls)
    else if key == KeyCCUseRemoteLogging then Some(CCUseRemoteLogging)
    else if key == KeyCCUploadConfigOnStartup then Some(CCUploadConfigOnStartup)
    else if key == KeyCCPushOfflineMiners then Some(CCPushOfflineMiners)
    else if key == KeyCCPushZeroHashrateMiners then Some(CCPushZeroHashrateMiners)
    else if key == KeyCCPushPeriodicStatus then Some(CCPushPeriodicStatus)
    else None
  }

  /** Background mode and the system log switch colours off when enabled
      (`m_colors = enable ? false : m_colors`). */
  predicate SilencesColors(fl: Flag) {
    fl == Background || fl == Syslog
  }

  function Assign(f: set<Flag>, fl: Flag, on: bool): set<Flag> {
    if on then f + {fl} else f - {fl}
  }

  /** Always succeeds; touches nothing but the boolean switches; an unknown key
      changes nothing; a known key leaves its flag equal to `enable`, and no
      other flag changes except colours, which background mode and the system
      log switch off. */
  function ParseBoolean(c: Config, key: int, enable: bool): (r: Parsed)
    ensures r.ok
    ensures r.config.algo == c.algo && r.config.limits == c.limits && r.config.cc == c.cc
    ensures key !in BooleanKeys ==> r.config == c
    ensures key in BooleanKeys ==> (FlagOf(key).value in r.config.flags <==> enable)
    ensures forall fl :: Some(fl) != FlagOf(key) && fl != Colors ==>
      (fl in r.config.flags <==> fl in c.flags)
    ensures Some(Colors) != FlagOf(key) ==>
      (Colors in r.config.flags <==>
        Colors in c.flags && !(enable && FlagOf(key).Some? && SilencesColors(FlagOf(key).value)))
  {
    match FlagOf(key)
    case None => Parsed(true, c)
    case Some(fl) =>
      var g := Assign(c.flags, fl, enable);
      Parsed(true, c.(flags := if enable && SilencesColors(fl) then g - {Colors} else g))
  }

  /** Enabling background mode or the system log forces colours off;
      disabling either leaves colours as they were. */
  lemma OutputModesDisableColors(c: Config, key: int, enable: bool)
    requires key == KeyBackground || key == KeySyslog
    ensures var f := ParseBoolean(c, key, enable).config.flags;
      && (Colors in f <==> Colors in c.flags && !enable)
      && (key == KeyBackground ==> (Background in f <==> enable) && (Syslog in f <==> Syslog in c.flags))
      && (key == KeySyslog ==> (Syslog in f <==> enable) && (Background in f <==> Background in c.flags))
  {
  }

  /** The last value given to a switch is the one that holds, for every switch
      but background mode and the system log (whose colour side effect is not
      undone). */
  lemma LastSwitchWins(c: Config, key: int, first: bool, enable: bool)
    requires FlagOf(key).Some? ==> !SilencesColors(FlagOf(key).value)
    ensures ParseBoolean(ParseBoolean(c, key, first).config, key, enable) == ParseBoolean(c, key, enable)
  {
    match FlagOf(key)
    case None =>
    case Some(fl) =>
      assert Assign(Assign(c.flags, fl, first), fl, enable) == Assign(c.flags, fl, enable);
  }

  /** Giving any switch the same value twice has the effect of giving it once. */
  lemma ParseBooleanIdempotent(c: Config, key: int, enable: bool)
    ensures ParseBoolean(ParseBoolean(c, key, enable).config, key, enable) == ParseBoolean(c, key, enable)
  {
    match FlagOf(key)
    case None =>
    case Some(fl) =>
      var g := Assign(c.flags, fl, enable);
      if enable && SilencesColors(fl) {
        assert Assign(g - {Colors}, fl, enable) - {Colors} == g - {Colors};
      } else {
        assert Assign(g, fl, enable) == g;
      }
  }

  /** Because disabling background mode does not restore colours, the last
      setting of `background` does not decide the colours on its own. */
  lemma ColorsLostAfterBackground(c: Config)
    requires Colors in c.flags
    ensures Colors !in ParseBoolean(ParseBoolean(c, KeyBackground, true).config, KeyBackground, false).config.flags
    ensures Colors in ParseBoolean(c, KeyBackground, false).config.flags
  {
  }

  /** Two switches that write different flags, neither of them colours, can be
      given in either order. */
  lemma SwitchesCommute(c: Config, k1: int, e1: bool, k2: int, e2: bool)
    requires FlagOf(k1) != FlagOf(k2)
    requires FlagOf(k1).Some? ==> !SilencesColors(FlagOf(k1).value) && FlagOf(k1).value != Colors
    requires FlagOf(k2).Some? ==> !SilencesColors(FlagOf(k2).value) && FlagOf(k2).value != Colors
    ensures ParseBoolean(ParseBoolean(c, k1, e1).config, k2, e2)
         == ParseBoolean(ParseBoolean(c, k2, e2).config, k1, e1)
  {
    var a := ParseBoolean(ParseBoolean(c, k1, e1).config, k2, e2).config;
    var b := ParseBoolean(ParseBoolean(c, k2, e2).config, k1, e1).config;
    assert a.flags == b.flags;
  }

  // --- command-line switches -------------------------------------------------

  /** The command-line options that take no value and go through
      `parseBoolean`. */
  const SwitchOptions: set<int> := {
    KeyBackground, KeyKeepAlive, KeySyslog, KeySafe, KeyNicehash, KeyNoColor,
    KeyNoHugePages, KeyUseTls, KeyForcePowVariant, KeySkipSelfCheck, KeyCCUseTls,
    KeyCCUseRemoteLogging, KeyCCUploadConfigOnStartup, KeyCCPushOfflineMiners,
    KeyCCPushPeriodicStatus, KeyCCPushZeroHashrateMiners
  }

  /** The switches that say "no": they turn their flag off. */
  const NegativeSwitches: set<int> := {KeyNoColor, KeyNoHugePages}

  /** The switches whose command-line value the source gets wrong. */
  const DefectiveSwitches: set<int> := {
    KeyBackground, KeyKeepAlive, KeySyslog, KeySafe, KeyNicehash,
    KeyCCPushOfflineMiners, KeyCCPushPeriodicStatus, KeyCCPushZeroHashrateMiners
  }

  /** The value the command-line dispatch passes to `parseBoolean` as the
      source is written: the case labels for background, keepalive, syslog,
      safe and nicehash have no statement of their own and fall through to the
      `false` of the negative switches below them, and the three
      notification switches of the command-and-control server pass `false`
      explicitly. */
  function SwitchValueAsWritten(key: int): (v: bool)
    requires key in SwitchOptions
    // it agrees with the evidently meant value except on the eight defective switches
    ensures v != SwitchValue(key) <==> key in DefectiveSwitches
    ensures v ==> SwitchValue(key)
  {
    if key in {KeyBackground, KeyKeepAlive, KeySyslog, KeySafe, KeyNicehash} then false
    else if key in NegativeSwitches then false
    else if key in {KeyCCPushOfflineMiners, KeyCCPushPeriodicStatus, KeyCCPushZeroHashrateMiners} then false
    else true
  }

  /** The value the switch evidently means: every switch turns its flag on,
      except the negative ones. */
  function SwitchValue(key: int): bool
    requires key in SwitchOptions
  {
    key !in NegativeSwitches
  }

  function ParseSwitchAsWritten(c: Config, key: int): (r: Parsed)
    requires key in SwitchOptions
    ensures r.ok && r.config.algo == c.algo && r.config.limits == c.limits && r.config.cc == c.cc
  {
    ParseBoolean(c, key, SwitchValueAsWritten(key))
  }

  function ParseSwitch(c: Config, key: int): (r: Parsed)
    requires key in SwitchOptions
    ensures r.ok && r.config.algo == c.algo && r.config.limits == c.limits && r.config.cc == c.cc
  {
    ParseBoolean(c, key, SwitchValue(key))
  }

  /** As written, `--background`, `--keepalive`, `--syslog`, `--safe`,
      `--nicehash` and the `--cc-push-*` switches on the command line turn
      their flag off, whatever it was: none of them can turn its mode on. */
  lemma SwitchesAsWrittenDisable(c: Config, key: int)
    requires key in DefectiveSwitches
    ensures key in SwitchOptions && FlagOf(key).Some?
    ensures FlagOf(key).value !in ParseSwitchAsWritten(c, key).config.flags
  {
  }

  /** Corrected: every switch leaves its flag on, except the negative ones,
      which leave it off; background mode and the system log also turn
      colours off. */
  lemma SwitchesEnable(c: Config, key: int)
    requires key in SwitchOptions
    ensures FlagOf(key).Some?
    ensures FlagOf(key).value in ParseSwitch(c, key).config.flags <==> key !in NegativeSwitches
    ensures key in {KeyBackground, KeySyslog} ==> Colors !in ParseSwitch(c, key).config.flags
  {
  }
}
