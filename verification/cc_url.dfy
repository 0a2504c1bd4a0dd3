/** `Options::parseCCUrl`: splits `host[:port]` at the first colon. Without a
    colon the whole text is the host and the port falls back to the default;
    otherwise the host is the text before the colon and the port is read from
    the rest with `strtol` in base 10. */
module CCUrl {
  import opened Wrappers
  import opened MachineInt
  import Strtol
  import opened OptionsConfig

  /** `strchr`: the position of the first `ch` in `s`. */
  function FindChar(s: string, ch: char): (r: Option<nat>)
    ensures r.None? <==> ch !in s
    ensures r.Some? ==> r.value < |s| && s[r.value] == ch && ch !in s[..r.value]
  {
    if |s| == 0 then None
    else if s[0] == ch then Some(0)
    else
      match FindChar(s[1..], ch)
      case None => None
      case Some(i) =>
        assert s[1..][..i] == s[1..i + 1];
        assert s[..i + 1] == [s[0]] + s[1..i + 1];
        Some(i + 1)
  }

  /** The first colon of `host + ":" + rest` is the one after the host when the
      host holds none. */
  lemma FindCharAfter(host: string, rest: string)
    requires ':' !in host
    ensures FindChar(host + ":" + rest, ':') == Some(|host|)
  {
    var s := host + ":" + rest;
    var r := FindChar(s, ':');
    assert s[|host|] == ':';
    assert s[..|host|] == host;
    assert r.value >= |host| by {
      assert forall j :: 0 <= j < |host| ==> s[j] == host[j];
    }
    assert r.value <= |host| by {
      assert forall j :: 0 <= j < r.value ==> s[..r.value][j] == s[j];
    }
  }

  /** The port text after the colon, as `strtol` reads it. */
  function PortValue(url: string, colon: nat): int
    requires colon < |url|
  {
    Strtol.Parse(url[colon + 1..], 10)
  }

  /** As written: the port is cast to `uint16_t` before the range check, so the
      check can never fail and every URL is accepted. */
  function ParseCCUrlAsWritten(c: Config, url: string): (r: Parsed)
    ensures r.ok
    ensures r.config == c.(cc := c.cc.(host := r.config.cc.host, port := r.config.cc.port))
    ensures r.config.cc.host.Some?
    ensures ':' !in url ==> r.config.cc.host == Some(url) && r.config.cc.port == DefaultCCPort
    ensures ':' in url ==>
      var h := r.config.cc.host.value;
      && |h| < |url| && h == url[..|h|] && url[|h|] == ':' && ':' !in h
      && 0 <= r.config.cc.port < TwoTo16
      && r.config.cc.port == ToUint16(PortValue(url, |h|))
  {
    match FindChar(url, ':')
    case None => Parsed(true, c.(cc := c.cc.(host := Some(url), port := DefaultCCPort)))
    case Some(i) =>
      var host := url[..i];
      var port := ToUint16(PortValue(url, i));
      if port < 0 || port > 65536 then
        Parsed(false, c.(cc := c.cc.(host := Some(host), port := DefaultCCPort)))
      else
        Parsed(true, c.(cc := c.cc.(host := Some(host), port := port)))
  }

  /** A port above the 16-bit range is accepted and wraps. */
  lemma PortWrapsAsWritten(c: Config, host: string)
    requires ':' !in host
    ensures ParseCCUrlAsWritten(c, host + ":" + Strtol.DecimalDigits(70000))
         == Parsed(true, c.(cc := c.cc.(host := Some(host), port := 4464)))
  {
    var url := host + ":" + Strtol.DecimalDigits(70000);
    FindCharAfter(host, Strtol.DecimalDigits(70000));
    assert url[..|host|] == host;
    assert url[|host| + 1..] == Strtol.DecimalDigits(70000);
    Strtol.DecimalRoundTrip(70000);
    assert PortValue(url, |host|) == 70000;
    assert ToUint16(70000) == 4464;
  }

  /** Corrected: the value `strtol` read is checked before it is stored, with
      the bounds the source writes (the same as those of `--cc-port`); a port
      out of range fails the parse and leaves the default port. */
  function ParseCCUrl(c: Config, url: string): (r: Parsed)
    ensures r.config == c.(cc := c.cc.(host := r.config.cc.host, port := r.config.cc.port))
    ensures r.config.cc.host.Some?
    ensures ':' !in url ==> r.ok && r.config.cc.host == Some(url) && r.config.cc.port == DefaultCCPort
    ensures ':' in url ==>
      var h := r.config.cc.host.value;
      && |h| < |url| && h == url[..|h|] && url[|h|] == ':' && ':' !in h
      && (r.ok <==> 0 <= PortValue(url, |h|) <= 65536)
      && r.config.cc.port == (if r.ok then PortValue(url, |h|) else DefaultCCPort)
  {
    match FindChar(url, ':')
    case None => Parsed(true, c.(cc := c.cc.(host := Some(url), port := DefaultCCPort)))
    case Some(i) =>
      var port := PortValue(url, i);
      if port < 0 || port > 65536 then
        Parsed(false, c.(cc := c.cc.(host := Some(url[..i]), port := DefaultCCPort)))
      else
        Parsed(true, c.(cc := c.cc.(host := Some(url[..i]), port := port)))
  }

  /** The two readings split the URL at the same colon, and they agree
      whenever the port text reads as a value below 2^16; they differ only
      where the cast wraps (a negative port, or one above 65535). */
  lemma AsWrittenAgreesInRange(c: Config, url: string)
    ensures ParseCCUrlAsWritten(c, url).config.cc.host == ParseCCUrl(c, url).config.cc.host
    ensures ':' !in url ==> ParseCCUrlAsWritten(c, url) == ParseCCUrl(c, url)
    ensures ':' in url && 0 <= PortValue(url, FindChar(url, ':').value) < TwoTo16 ==>
      ParseCCUrlAsWritten(c, url) == ParseCCUrl(c, url)
  {
    match FindChar(url, ':')
    case None =>
    case Some(i) =>
  }

  /** As written, a negative port is accepted and wraps: "-1" is stored as
      65535. */
  lemma NegativePortWrapsAsWritten(c: Config, host: string, n: nat)
    requires ':' !in host && 1 <= n < TwoTo16
    ensures ParseCCUrlAsWritten(c, host + ":" + ("-" + Strtol.DecimalDigits(n)))
         == Parsed(true, c.(cc := c.cc.(host := Some(host), port := TwoTo16 - n)))
  {
    var rest := "-" + Strtol.DecimalDigits(n);
    var url := host + ":" + rest;
    FindCharAfter(host, rest);
    assert url[..|host|] == host;
    assert url[|host| + 1..] == rest;
    Strtol.NegativeDecimalRoundTrip(n);
    assert Strtol.Saturate(-(n as int)) == -(n as int);
    assert PortValue(url, |host|) == -(n as int);
    assert ToUint16(-(n as int)) == TwoTo16 - n;
  }

  /** Corrected, `host:port` round-trips for every port in range. */
  lemma CCUrlRoundTrip(c: Config, host: string, port: nat)
    requires ':' !in host && port <= 65536
    ensures ParseCCUrl(c, host + ":" + Strtol.DecimalDigits(port))
         == Parsed(true, c.(cc := c.cc.(host := Some(host), port := port)))
  {
    var url := host + ":" + Strtol.DecimalDigits(port);
    FindCharAfter(host, Strtol.DecimalDigits(port));
    assert url[..|host|] == host;
    assert url[|host| + 1..] == Strtol.DecimalDigits(port);
    Strtol.DecimalRoundTrip(port);
  }

  /** Corrected, the port 70000 is refused. */
  lemma PortOutOfRangeRefused(c: Config, host: string)
    requires ':' !in host
    ensures ParseCCUrl(c, host + ":" + Strtol.DecimalDigits(70000))
         == Parsed(false, c.(cc := c.cc.(host := Some(host), port := DefaultCCPort)))
  {
    var url := host + ":" + Strtol.DecimalDigits(70000);
    FindCharAfter(host, Strtol.DecimalDigits(70000));
    assert url[..|host|] == host;
    assert url[|host| + 1..] == Strtol.DecimalDigits(70000);
    Strtol.DecimalRoundTrip(70000);
  }
}
