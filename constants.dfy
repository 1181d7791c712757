/**
 * Address resolution for the emulators: default ports and host, the
 * configuration keys, `parseInt` on a configured port and host normalisation.
 */
module Constants {
  import opened Wrappers
  import opened Strs
  import opened EmulatorTypes

  const DefaultHost: string := "localhost"
  const DefaultDatabaseNamespace: string := "fake-server"
  const ServiceFirestore: string := "firestore.googleapis.com"
  const ServiceRealtimeDatabase: string := "firebaseio.com"

  /** `DEFAULT_PORTS[emulator]`. */
  function DefaultPort(e: Emulator): int
  {
    match e
    case Hosting => 5000
    case Functions => 5001
    case Firestore => 8080
    case Database => 9000
  }

  /** No two emulators share a default port. */
  lemma DefaultPortsDistinct(a: Emulator, b: Emulator)
    ensures DefaultPort(a) == DefaultPort(b) ==> a == b
  {
  }

  /** `getDefaultHost` ignores its argument. */
  function GetDefaultHost(e: Emulator): (h: string)
    ensures h == "localhost"
  {
    DefaultHost
  }

  /** Maps the two Google service hosts to emulator names, anything else to itself. */
  function GetServiceName(service: string): (r: string)
    ensures service == ServiceFirestore ==> r == "firestore"
    ensures service == ServiceRealtimeDatabase ==> r == "database"
    ensures service != ServiceFirestore && service != ServiceRealtimeDatabase ==> r == service
  {
    if service == ServiceFirestore then "firestore"
    else if service == ServiceRealtimeDatabase then "database"
    else service
  }

  /** `emulators.<name>.host`. */
  function HostKey(e: Emulator): string
  {
    KeyJoin(Name(e), "host")
  }

  /** `emulators.<name>.port`. */
  function PortKey(e: Emulator): string
  {
    KeyJoin(Name(e), "port")
  }

  /** Both keys are three-segment dotted configuration paths under `emulators.<name>`. */
  lemma KeyPaths(e: Emulator)
    ensures Split(HostKey(e), '.') == ["emulators", Name(e), "host"]
    ensures Split(PortKey(e), '.') == ["emulators", Name(e), "port"]
  {
    KeyPath(Name(e), "host");
    KeyPath(Name(e), "port");
  }

  /** `emulators.<name>.<leaf>`. */
  function KeyJoin(name: string, leaf: string): string
  {
    "emulators" + "." + name + "." + leaf
  }

  lemma KeyPath(name: string, leaf: string)
    requires '.' !in name && '.' !in leaf
    ensures Split(KeyJoin(name, leaf), '.') == ["emulators", name, leaf]
  {
    var parts := ["emulators", name, leaf];
    assert Join(parts, ".") == "emulators" + "." + name + "." + leaf by {
      assert parts[1..] == [name, leaf] && parts[1..][1..] == [leaf];
      assert Join([leaf], ".") == leaf;
      assert Join([name, leaf], ".") == name + "." + leaf;
    }
    SplitJoin(parts, '.');
  }

  lemma HostAndPortKeysDiffer(e: Emulator, f: Emulator)
    ensures HostKey(e) != PortKey(f)
  {
    KeyPaths(e);
    KeyPaths(f);
    assert Split(HostKey(e), '.')[2] != Split(PortKey(f), '.')[2];
  }

  // ---------------------------------------------------------------- config

  /** A value read from `firebase.json`. */
  datatype ConfigValue = CStr(s: string) | CNum(n: int) | CBool(b: bool) {
    /** JavaScript truthiness. */
    predicate Truthy()
    {
      match this
      case CStr(s) => s != ""
      case CNum(n) => n != 0
      case CBool(b) => b
    }
  }

  /** The project configuration, addressed by dotted key. */
  type Config = map<string, ConfigValue>

  /** `options.config.get(key, fallback)`. */
  function ConfigGet(c: Config, key: string, fallback: ConfigValue): ConfigValue
  {
    if key in c then c[key] else fallback
  }

  // --------------------------------------------------------------- parseInt

  predicate IsSpace(c: char) { c == ' ' || c == '\t' || c == '\n' || c == '\r' }

  function TrimLeft(s: string): (r: string)
    ensures r == [] || !IsSpace(r[0])
  {
    if s != [] && IsSpace(s[0]) then TrimLeft(s[1..]) else s
  }

  /** The longest prefix of decimal digits. */
  function DigitPrefix(s: string): (d: string)
    ensures |d| <= |s| && d == s[..|d|]
    ensures forall i :: 0 <= i < |d| ==> IsDigit(d[i])
    ensures |d| < |s| ==> !IsDigit(s[|d|])
  {
    if s != [] && IsDigit(s[0]) then [s[0]] + DigitPrefix(s[1..]) else []
  }

  /** The value of a string of decimal digits, most significant first. */
  function DigitsValue(d: string): nat
    requires forall i :: 0 <= i < |d| ==> IsDigit(d[i])
  {
    if d == [] then 0
    else
      assert IsDigit(d[|d| - 1]);
      DigitsValue(d[..|d| - 1]) * 10 + (d[|d| - 1] as int - '0' as int)
  }

  /** `parseInt(s, 10)`: optional whitespace and sign, then the leading digits; none gives NaN. */
  function ParseInt(s: string): PortValue
  {
    var t := TrimLeft(s);
    var negative := t != [] && t[0] == '-';
    var u := if t != [] && (t[0] == '-' || t[0] == '+') then t[1..] else t;
    var d := DigitPrefix(u);
    if d == [] then NaN
    else
      var v: int := DigitsValue(d);
      PortNum(if negative then -v else v)
  }

  /** `parseInt(v, 10)` on a configuration value: numbers are kept, text is parsed. */
  function ParseIntValue(v: ConfigValue): PortValue
  {
    match v
    case CNum(n) => PortNum(n)
    case CStr(s) => ParseInt(s)
    case CBool(b) => NaN
  }

  lemma {:induction false} DigitsValueOfNat(n: nat)
    ensures DigitsValue(NatToString(n)) == n
    decreases n
  {
    if n >= 10 {
      DigitsValueOfNat(n / 10);
      var d := NatToString(n);
      assert d[..|d| - 1] == NatToString(n / 10);
    }
  }

  lemma DigitPrefixOf(d: string, tail: string)
    requires forall i :: 0 <= i < |d| ==> IsDigit(d[i])
    requires tail == [] || !IsDigit(tail[0])
    ensures DigitPrefix(d + tail) == d
  {
    var s := d + tail;
    var p := DigitPrefix(s);
    assert forall i :: 0 <= i < |d| ==> s[i] == d[i];
    assert |d| < |s| ==> s[|d|] == tail[0];
    assert |p| == |d|;
    assert s[..|d|] == d;
  }

  /**
   * A port written as digits, possibly followed by text that does not start
   * with a digit, parses back to its number.
   */
  lemma ParseIntOfDigits(n: nat, tail: string)
    requires tail == [] || !IsDigit(tail[0])
    ensures ParseInt(NatToString(n) + tail) == PortNum(n)
  {
    var s := NatToString(n) + tail;
    assert s[0] == NatToString(n)[0];
    DigitPrefixOf(NatToString(n), tail);
    DigitsValueOfNat(n);
  }

  /** Text that starts with neither a digit, a sign nor whitespace is NaN. */
  lemma ParseIntNaN(s: string)
    requires s == [] || (!IsDigit(s[0]) && !IsSpace(s[0]) && s[0] != '-' && s[0] != '+')
    ensures ParseInt(s) == NaN
  {
  }

  // ---------------------------------------------------------- normaliseHost

  /** The prefix of `s` before the first character in `stops`. */
  function Before(s: string, stops: set<char>): (r: string)
    ensures |r| <= |s| && r == s[..|r|]
    ensures forall i :: 0 <= i < |r| ==> r[i] !in stops
    ensures |r| < |s| ==> s[|r|] in stops
  {
    if s == [] || s[0] in stops then [] else [s[0]] + Before(s[1..], stops)
  }

  /** The suffix of `s` after the last `c`, or `s` itself. */
  function AfterLast(s: string, c: char): (r: string)
    ensures c !in s ==> r == s
  {
    if s == [] then []
    else if s[|s| - 1] == c then []
    else
      assert s == s[..|s| - 1] + [s[|s| - 1]];
      AfterLast(s[..|s| - 1], c) + [s[|s| - 1]]
  }

  /** The hostname part of the authority that follows `scheme://`. */
  function HostOf(rest: string): string
  {
    var authority := Before(rest, {'/', '?', '#'});
    var hostPort := AfterLast(authority, '@');
    Lower(Before(hostPort, {':'}))
  }

  /** `url.parse(u).hostname` for the `http://` and `https://` forms. */
  function UrlHostname(u: string): Option<string>
  {
    if StartsWith(u, "http://") then Some(HostOf(u[7..]))
    else if StartsWith(u, "https://") then Some(HostOf(u[8..]))
    else None
  }

  /** `normalizeHost`: add a scheme unless one is there, keep only the hostname. */
  function NormalizeHost(host: string): (r: string)
    ensures r != []
  {
    var normalized := if StartsWith(host, "http") then host else "http://" + host;
    var h := UrlHostname(normalized);
    if h.Some? && h.value != "" then h.value else DefaultHost
  }

  /** A bare host name: non-empty, lower case, no URL punctuation. */
  predicate IsPlainHost(h: string)
  {
    h != [] &&
    forall i :: 0 <= i < |h| ==> h[i] !in {'/', '?', '#', '@', ':'} && !IsUpper(h[i])
  }

  lemma BeforeAll(s: string, stops: set<char>)
    requires forall i :: 0 <= i < |s| ==> s[i] !in stops
    ensures Before(s, stops) == s
  {
  }

  lemma BeforeStop(a: string, c: char, b: string, stops: set<char>)
    requires forall i :: 0 <= i < |a| ==> a[i] !in stops
    requires c in stops
    ensures Before(a + [c] + b, stops) == a
  {
    var s := a + [c] + b;
    var r := Before(s, stops);
    assert forall i :: 0 <= i < |a| ==> s[i] == a[i];
    assert s[|a|] == c;
    assert |r| == |a|;
    assert s[..|a|] == a;
  }

  lemma LowerPlain(h: string)
    requires IsPlainHost(h)
    ensures Lower(h) == h
  {
  }

  lemma SchemePrefix(h: string)
    ensures StartsWith("http://" + h, "http://") && ("http://" + h)[7..] == h
  {
    assert ("http://" + h)[..7] == "http://";
  }

  /** A bare host is its own normal form, with or without the scheme. */
  lemma NormalizePlainHost(h: string)
    requires IsPlainHost(h) && !StartsWith(h, "http")
    ensures NormalizeHost(h) == h
    ensures NormalizeHost("http://" + h) == h
  {
    SchemePrefix(h);
    assert StartsWith("http://" + h, "http") by {
      assert ("http://" + h)[..4] == "http";
    }
    BeforeAll(h, {'/', '?', '#'});
    BeforeAll(h, {':'});
    LowerPlain(h);
  }

  /** A port suffix is dropped: `normalizeHost("myhost:9000")` is `myhost`. */
  lemma NormalizeHostWithPort(h: string, port: nat)
    requires IsPlainHost(h) && !StartsWith(h, "http")
    ensures NormalizeHost(h + ":" + NatToString(port)) == h
  {
    var p := NatToString(port);
    var s := h + ":" + p;
    assert !StartsWith(s, "http") by {
      if |s| >= 4 && |h| < 4 {
        assert s[|h|] == ':';
      } else if |h| >= 4 {
        assert s[..4] == h[..4];
      }
    }
    SchemePrefix(s);
    forall i | 0 <= i < |s| ensures s[i] !in {'/', '?', '#', '@'} {
      if i < |h| { assert s[i] == h[i]; }
      else if i > |h| { assert s[i] == p[i - |h| - 1]; }
    }
    BeforeAll(s, {'/', '?', '#'});
    assert '@' !in s;
    assert AfterLast(s, '@') == s;
    assert s == h + [':'] + p;
    BeforeStop(h, ':', p, {':'});
    LowerPlain(h);
    assert HostOf(s) == h;
    assert UrlHostname("http://" + s) == Some(h);
  }

  /** A bare value and the same value behind `http://` normalise alike. */
  lemma NormalizeBareAndUrlAgree(h: string)
    requires !StartsWith(h, "http")
    ensures NormalizeHost(h) == NormalizeHost("http://" + h)
  {
    assert ("http://" + h)[..4] == "http";
  }

  // ------------------------------------------------------------- getAddress

  /**
   * `getAddress`: the configured host (default "localhost") normalised and
   * the configured port (default the emulator's) through `parseInt`. A host
   * that is not text makes `startsWith` throw.
   */
  function GetAddress(e: Emulator, c: Config): (r: Result<Address, EmulatorError>)
    ensures r.Err? <==> !ConfigGet(c, HostKey(e), CStr(DefaultHost)).CStr?
    ensures r.Err? ==> r.error == BadConfigValue(HostKey(e))
    ensures r.Ok? ==> r.value.host != "" && r.value.port == ParseIntValue(ConfigGet(c, PortKey(e), CNum(DefaultPort(e))))
    ensures r.Ok? ==> r.value.host == NormalizeHost(ConfigGet(c, HostKey(e), CStr(DefaultHost)).s)
  {
    var hostVal := ConfigGet(c, HostKey(e), CStr(DefaultHost));
    var portVal := ConfigGet(c, PortKey(e), CNum(DefaultPort(e)));
    if !hostVal.CStr? then Err(BadConfigValue(HostKey(e)))
    else Ok(Address(NormalizeHost(hostVal.s), ParseIntValue(portVal)))
  }

  /** With nothing configured the address is ("localhost", default port). */
  lemma GetAddressDefaults(e: Emulator, c: Config)
    requires HostKey(e) !in c && PortKey(e) !in c
    ensures GetAddress(e, c) == Ok(Address("localhost", PortNum(DefaultPort(e))))
  {
    LocalhostIsNormal();
  }

  lemma LocalhostIsNormal()
    ensures NormalizeHost(DefaultHost) == DefaultHost
  {
    assert DefaultHost[0] == 'l';
    assert DefaultHost[..4] != "http";
    assert IsPlainHost(DefaultHost) by {
      forall i | 0 <= i < |DefaultHost|
        ensures DefaultHost[i] !in {'/', '?', '#', '@', ':'} && !IsUpper(DefaultHost[i])
      {
      }
    }
    NormalizePlainHost(DefaultHost);
  }

  /** A configured port that is not a number yields NaN, not an error. */
  lemma GetAddressNonNumericPort(e: Emulator, c: Config, s: string)
    requires HostKey(e) !in c && PortKey(e) in c && c[PortKey(e)] == CStr(s)
    requires s == [] || (!IsDigit(s[0]) && !IsSpace(s[0]) && s[0] != '-' && s[0] != '+')
    ensures GetAddress(e, c).Ok? && GetAddress(e, c).value.port == NaN
  {
    ParseIntNaN(s);
  }
}
