/**
 * The small decisions the functions runtime makes before it runs user code:
 * feature switches, version parsing, the check of the developer's
 * firebase-admin and firebase-functions modules, the choice of the HTTPS
 * stub method, how a background event is unpacked, and how console output
 * is captured while a function runs.
 */
module FunctionsRuntime {
  import opened Wrappers
  import opened Strs
  import opened OMaps
  import opened Json
  import opened EmulatorTypes
  import Constants

  // ------------------------------------------------------------- features

  /** `isFeatureEnabled(frb, feature)`: on unless `disabled_features[feature]` is truthy. */
  function IsFeatureEnabled(disabledFeatures: Option<Json>, feature: string): (r: bool)
    ensures !r <==> disabledFeatures.Some? && Truthy(disabledFeatures.value) &&
                    Prop(disabledFeatures.value, feature).Some? && Truthy(Prop(disabledFeatures.value, feature).value)
  {
    if disabledFeatures.Some? && Truthy(disabledFeatures.value) then
      var flag := Prop(disabledFeatures.value, feature);
      !(flag.Some? && Truthy(flag.value))
    else true
  }

  /** Without a `disabled_features` object every feature is on. */
  lemma AllEnabledByDefault(feature: string)
    ensures IsFeatureEnabled(None, feature)
    ensures IsFeatureEnabled(Some(JObj([])), feature)
  {
  }

  // -------------------------------------------------------------- versions

  /** A version as `parseInt` reads its three parts; a part without digits is `NaN`. */
  datatype Version = Version(major: PortValue, minor: PortValue, patch: PortValue)

  /** `n < k` on a `parseInt` result: false for `NaN`. */
  predicate Below(n: PortValue, k: int) { n.PortNum? && n.n < k }

  /** `n >= k` on a `parseInt` result: false for `NaN`. */
  predicate AtLeast(n: PortValue, k: int) { n.PortNum? && n.n >= k }

  /** The version's parts after reading an absent or empty version as "0" and padding with two "0" parts. */
  function VersionParts(version: Option<string>): (parts: seq<string>)
    ensures |parts| >= 3
  {
    var v := if version.Some? && version.value != "" then version.value else "0";
    Split(v, '.') + ["0", "0"]
  }

  /** `parseVersionString(version)`: the first three padded parts, each read by `parseInt`. */
  function ParseVersion(version: Option<string>): Version
  {
    var parts := VersionParts(version);
    Version(Constants.ParseInt(parts[0]), Constants.ParseInt(parts[1]), Constants.ParseInt(parts[2]))
  }

  lemma ParseZero()
    ensures Constants.ParseInt("0") == PortNum(0)
  {
    assert NatToString(0) + [] == "0";
    Constants.ParseIntOfDigits(0, []);
  }

  lemma ParseNat(n: nat)
    ensures Constants.ParseInt(NatToString(n)) == PortNum(n)
  {
    assert NatToString(n) + [] == NatToString(n);
    Constants.ParseIntOfDigits(n, []);
  }

  /** Splitting on "." one, two or three pieces that contain no ".". */
  lemma SplitDotted(x: string, y: string, z: string)
    requires '.' !in x && '.' !in y && '.' !in z
    ensures Split(x, '.') == [x]
    ensures Split(x + "." + y, '.') == [x, y]
    ensures Split(x + "." + y + "." + z, '.') == [x, y, z]
  {
    SplitDottedTwo(x, y);
    SplitDottedThree(x, y, z);
  }

  lemma SplitDottedTwo(x: string, y: string)
    requires '.' !in x && '.' !in y
    ensures Split(x + "." + y, '.') == [x, y]
  {
    var two := [x, y];
    assert Join(two, ".") == x + "." + y;
    SplitJoin(two, '.');
  }

  lemma SplitDottedThree(x: string, y: string, z: string)
    requires '.' !in x && '.' !in y && '.' !in z
    ensures Split(x + "." + y + "." + z, '.') == [x, y, z]
  {
    var three := [x, y, z];
    assert Join(three[1..], ".") == y + "." + z;
    assert Join(three, ".") == x + "." + y + "." + z;
    SplitJoin(three, '.');
  }

  /** The parts of a version made of `x`, `y` and `z`, none containing ".". */
  lemma VersionPartsOf(x: string, y: string, z: string)
    requires '.' !in x && '.' !in y && '.' !in z && x != ""
    ensures VersionParts(Some(x))[..3] == [x, "0", "0"]
    ensures VersionParts(Some(x + "." + y))[..3] == [x, y, "0"]
    ensures VersionParts(Some(x + "." + y + "." + z))[..3] == [x, y, z]
  {
    SplitDotted(x, y, z);
  }

  /** `parseVersionString` reads the first three parts it finds. */
  lemma ParseVersionOfParts(version: Option<string>, x: string, y: string, z: string)
    requires VersionParts(version)[..3] == [x, y, z]
    ensures ParseVersion(version) == Version(Constants.ParseInt(x), Constants.ParseInt(y), Constants.ParseInt(z))
  {
    assert VersionParts(version)[0] == x && VersionParts(version)[1] == y && VersionParts(version)[2] == z;
  }

  /**
   * Missing parts are read as "0" (so "8" is 8.0.0 and "1.2" is 1.2.0), and
   * an absent or empty version as "0".
   */
  lemma ParseVersionPads(x: string, y: string)
    requires '.' !in x && '.' !in y && x != ""
    ensures ParseVersion(None) == Version(PortNum(0), PortNum(0), PortNum(0))
    ensures ParseVersion(Some("")) == Version(PortNum(0), PortNum(0), PortNum(0))
    ensures ParseVersion(Some(x)) == Version(Constants.ParseInt(x), PortNum(0), PortNum(0))
    ensures ParseVersion(Some(x + "." + y)) == Version(Constants.ParseInt(x), Constants.ParseInt(y), PortNum(0))
  {
    ParseZero();
    VersionPartsOf(x, y, "0");
    VersionPartsOf("0", "0", "0");
    ParseVersionOfParts(None, "0", "0", "0");
    ParseVersionOfParts(Some(""), "0", "0", "0");
    ParseVersionOfParts(Some(x), x, "0", "0");
    ParseVersionOfParts(Some(x + "." + y), x, y, "0");
  }

  /** A version of three numbers parses to those numbers. */
  lemma ParseVersionFull(a: nat, b: nat, c: nat)
    ensures ParseVersion(Some(NatToString(a) + "." + NatToString(b) + "." + NatToString(c))) ==
            Version(PortNum(a), PortNum(b), PortNum(c))
  {
    var x, y, z := NatToString(a), NatToString(b), NatToString(c);
    ParseNat(a);
    ParseNat(b);
    ParseNat(c);
    NatToStringClean(a);
    NatToStringClean(b);
    NatToStringClean(c);
    VersionPartsOf(x, y, z);
    ParseVersionOfParts(Some(x + "." + y + "." + z), x, y, z);
  }

  lemma {:induction false} NatToStringClean(n: nat)
    ensures '.' !in NatToString(n)
    decreases n
  {
    if n >= 10 {
      NatToStringClean(n / 10);
    }
  }

  // ---------------------------------------------------- developer modules

  /** What `resolveDeveloperNodeModule` reports for a module. */
  datatype ModuleResolution = ModuleResolution(declared: bool, installed: bool, version: Option<string>)

  /** The dependency tables of the developer's package.json. */
  datatype PackageJson = PackageJson(dependencies: Json, devDependencies: Json)

  datatype RuntimeError = MissingPackageJson   // `Could not find package.json`

  /** A module the developer must have, and the least major version accepted. */
  datatype ModBundle = ModBundle(name: string, minVersion: int)

  const ModBundles: seq<ModBundle> := [ModBundle("firebase-admin", 8), ModBundle("firebase-functions", 3)]

  /** `dependencies[name] || devDependencies[name]` is truthy. */
  predicate Declared(pkg: PackageJson, name: string)
  {
    (Prop(pkg.dependencies, name).Some? && Truthy(Prop(pkg.dependencies, name).value)) ||
    (Prop(pkg.devDependencies, name).Some? && Truthy(Prop(pkg.devDependencies, name).value))
  }

  /**
   * `resolveDeveloperNodeModule(frb, name)`. Module resolution on disk is a
   * parameter: the version of the module's package.json when `name`
   * resolves from the functions directory, `None` when it does not.
   */
  function ResolveModule(pkg: Option<PackageJson>, name: string, resolve: string -> Option<Option<string>>): (r: Result<ModuleResolution, RuntimeError>)
    ensures r.Err? <==> pkg.None?
    ensures r.Ok? ==> (r.value.declared <==> Declared(pkg.value, name))
    ensures r.Ok? ==> (r.value.installed <==> Declared(pkg.value, name) && resolve(name).Some?)
    ensures r.Ok? && r.value.installed ==> r.value.version == resolve(name).value
  {
    if pkg.None? then Err(MissingPackageJson)
    else if !Declared(pkg.value, name) then Ok(ModuleResolution(false, false, None))
    else match resolve(name)
      case None => Ok(ModuleResolution(true, false, None))
      case Some(version) => Ok(ModuleResolution(true, true, version))
  }

  /** A module bundle is acceptable: declared, installed, and not of a lower major version. */
  predicate Acceptable(pkg: PackageJson, b: ModBundle, resolve: string -> Option<Option<string>>)
  {
    Declared(pkg, b.name) && resolve(b.name).Some? &&
    !Below(ParseVersion(resolve(b.name).value).major, b.minVersion)
  }

  /** A resolved module passes: declared, installed, and its major version not below `minVersion`. */
  predicate Passes(res: ModuleResolution, minVersion: int)
  {
    res.declared && res.installed && !Below(ParseVersion(res.version).major, minVersion)
  }

  lemma PassesIffAcceptable(pkg: PackageJson, b: ModBundle, resolve: string -> Option<Option<string>>)
    ensures Passes(ResolveModule(Some(pkg), b.name, resolve).value, b.minVersion) <==> Acceptable(pkg, b, resolve)
  {
  }

  /** What the check's loop settles to over `bundles`. */
  function Verify(bundles: seq<ModBundle>, pkg: Option<PackageJson>, resolve: string -> Option<Option<string>>): Result<bool, RuntimeError>
  {
    if bundles == [] then Ok(true)
    else match ResolveModule(pkg, bundles[0].name, resolve)
      case Err(e) => Err(e)
      case Ok(res) =>
        if !Passes(res, bundles[0].minVersion) then Ok(false)
        else Verify(bundles[1..], pkg, resolve)
  }

  /**
   * The check fails (rejects) exactly without a package.json, and otherwise
   * passes exactly when every listed module is acceptable.
   */
  lemma {:induction false} VerifyIff(bundles: seq<ModBundle>, pkg: Option<PackageJson>, resolve: string -> Option<Option<string>>)
    requires bundles != []
    ensures Verify(bundles, pkg, resolve).Err? <==> pkg.None?
    ensures Verify(bundles, pkg, resolve) == Ok(true) <==>
      pkg.Some? && forall i :: 0 <= i < |bundles| ==> Acceptable(pkg.value, bundles[i], resolve)
    decreases |bundles|
  {
    if pkg.Some? {
      PassesIffAcceptable(pkg.value, bundles[0], resolve);
    }
    if |bundles| > 1 {
      VerifyIff(bundles[1..], pkg, resolve);
      assert forall i :: 1 <= i < |bundles| ==> bundles[i] == bundles[1..][i - 1];
    }
  }

  /**
   * `verifyDeveloperNodeModules`: check firebase-admin, then
   * firebase-functions, and answer false at the first module that is
   * undeclared, uninstalled or too old.
   */
  method VerifyDeveloperNodeModules(pkg: Option<PackageJson>, resolve: string -> Option<Option<string>>)
    returns (r: Result<bool, RuntimeError>)
    ensures r == Verify(ModBundles, pkg, resolve)
  {
    var i := 0;
    while i < |ModBundles|
      invariant 0 <= i <= |ModBundles|
      invariant Verify(ModBundles, pkg, resolve) == Verify(ModBundles[i..], pkg, resolve)
    {
      var bundle := ModBundles[i];
      assert ModBundles[i..][1..] == ModBundles[i + 1..];
      var resolution := ResolveModule(pkg, bundle.name, resolve);
      if resolution.Err? {
        return Err(resolution.error);
      }
      if !resolution.value.declared {
        return Ok(false);
      }
      if !resolution.value.installed {
        return Ok(false);
      }
      var versionInfo := ParseVersion(resolution.value.version);
      if Below(versionInfo.major, bundle.minVersion) {
        return Ok(false);
      }
      i := i + 1;
    }
    r := Ok(true);
  }

  /** The developer's modules pass exactly when both are declared, installed and recent enough. */
  lemma DeveloperModulesIff(pkg: Option<PackageJson>, resolve: string -> Option<Option<string>>)
    ensures Verify(ModBundles, pkg, resolve) == Ok(true) <==>
      pkg.Some? && Acceptable(pkg.value, ModBundle("firebase-admin", 8), resolve) &&
      Acceptable(pkg.value, ModBundle("firebase-functions", 3), resolve)
  {
    VerifyIff(ModBundles, pkg, resolve);
    assert ModBundles[0] == ModBundle("firebase-admin", 8);
    assert ModBundles[1] == ModBundle("firebase-functions", 3);
  }

  // ---------------------------------------------------------- https stub

  /** The name of the HTTPS provider method the runtime wraps, as written. */
  function HttpsMethodName(v: Version): (name: string)
    ensures name == "_onRequestWithOptions" || name == "_onRequestWithOpts"
    ensures name == "_onRequestWithOptions" <==> AtLeast(v.major, 3) && AtLeast(v.minor, 1)
  {
    if AtLeast(v.major, 3) && AtLeast(v.minor, 1) then "_onRequestWithOptions" else "_onRequestWithOpts"
  }

  /** As written, version 4.0.0 is taken for a release older than 3.1. */
  lemma HttpsMethodNameMajorFour()
    ensures HttpsMethodName(Version(PortNum(4), PortNum(0), PortNum(0))) == "_onRequestWithOpts"
    ensures HttpsMethodName(Version(PortNum(3), PortNum(1), PortNum(0))) == "_onRequestWithOptions"
  {
  }

  /** `major.minor` is at least 3.1, compared as a pair. */
  predicate AtLeastThreeOne(v: Version)
  {
    AtLeast(v.major, 4) || (AtLeast(v.major, 3) && AtLeast(v.minor, 1))
  }

  /** The method choice with the version compared as a pair. */
  function HttpsMethodNameByRelease(v: Version): (name: string)
    ensures name == "_onRequestWithOptions" <==> AtLeastThreeOne(v)
    ensures name == "_onRequestWithOptions" || name == "_onRequestWithOpts"
  {
    if AtLeastThreeOne(v) then "_onRequestWithOptions" else "_onRequestWithOpts"
  }

  /**
   * The pairwise choice is monotone: a later release never falls back to
   * the older method. It agrees with the choice as written on every 3.x
   * release and below.
   */
  lemma HttpsMethodNameByReleaseMonotone(a: Version, b: Version)
    requires a.major.PortNum? && a.minor.PortNum? && b.major.PortNum? && b.minor.PortNum?
    requires a.major.n < b.major.n || (a.major.n == b.major.n && a.minor.n <= b.minor.n)
    ensures HttpsMethodNameByRelease(a) == "_onRequestWithOptions" ==> HttpsMethodNameByRelease(b) == "_onRequestWithOptions"
    ensures b.major.n <= 3 ==> HttpsMethodNameByRelease(b) == HttpsMethodName(b)
  {
  }

  // ------------------------------------------------------ background events

  /** The `{data, context}` pair handed to a background function. */
  datatype BackgroundArgs = BackgroundArgs(data: Option<Json>, context: Json)

  /**
   * `ProcessBackground`: take `data` out of the event, use its `context` if
   * it has a truthy one and the event itself otherwise, and replace a
   * resource that has a truthy `name` by that name. A truthy context that is
   * not an object (a string, a number, a list) has no `resource` and
   * reaches the function as it is.
   */
  function ProcessBackground(proto: OMap<Json>): (r: BackgroundArgs)
    ensures r.data == Get(proto, "data")
    ensures var ctx := Get(proto, "context");
      if ctx.Some? && Truthy(ctx.value) then
        r.context == (if ctx.value.JObj? then JObj(LiftName(ctx.value.props)) else ctx.value)
      else
        r.context == JObj(LiftName(Remove(proto, "data")))
  {
    RemoveGet(proto, "data", "context");
    var data := Get(proto, "data");
    var rest := Remove(proto, "data");
    var ctx := Get(rest, "context");
    var context := if ctx.Some? && Truthy(ctx.value) then ctx.value else JObj(rest);
    BackgroundArgs(data, if context.JObj? then JObj(LiftName(context.props)) else context)
  }

  /** `context.resource = context.resource.name` when both are truthy. */
  function LiftName(context: OMap<Json>): (r: OMap<Json>)
    ensures Keys(r) == Keys(context)
  {
    var res := Get(context, "resource");
    if res.Some? && Truthy(res.value) && Prop(res.value, "name").Some? && Truthy(Prop(res.value, "name").value)
    then Put(context, "resource", Prop(res.value, "name").value)
    else context
  }

  /**
   * When the event carries no truthy context, the context is the event
   * itself without its data; its resource is lifted to the resource's name,
   * and every other property is the event's.
   */
  lemma ProcessBackgroundWithoutContext(proto: OMap<Json>, k: string)
    requires Get(proto, "context").None? || !Truthy(Get(proto, "context").value)
    ensures ProcessBackground(proto).context.JObj?
    ensures var ctx := ProcessBackground(proto).context.props;
      "data" !in Keys(ctx) &&
      (k != "data" && k != "resource" ==> Get(ctx, k) == Get(proto, k))
  {
    var rest := Remove(proto, "data");
    RemoveGet(proto, "data", k);
    var res := Get(rest, "resource");
    if res.Some? && Truthy(res.value) && Prop(res.value, "name").Some? && Truthy(Prop(res.value, "name").value) {
      PutGet(rest, "resource", Prop(res.value, "name").value, k);
    }
  }

  /** A resource object with a name reaches the function as that name. */
  lemma ProcessBackgroundLiftsName(proto: OMap<Json>, ctx: OMap<Json>, resource: OMap<Json>, name: string)
    requires Get(proto, "context") == Some(JObj(ctx))
    requires Get(ctx, "resource") == Some(JObj(resource)) && Get(resource, "name") == Some(JStr(name)) && name != ""
    ensures Get(ProcessBackground(proto).context.props, "resource") == Some(JStr(name))
  {
    LiftNameOf(ctx, resource, name);
    PutGet(ctx, "resource", JStr(name), "resource");
  }

  lemma LiftNameOf(ctx: OMap<Json>, resource: OMap<Json>, name: string)
    requires Get(ctx, "resource") == Some(JObj(resource)) && Get(resource, "name") == Some(JStr(name)) && name != ""
    ensures LiftName(ctx) == Put(ctx, "resource", JStr(name))
  {
  }

  // ----------------------------------------------------------------- Run

  /** Where `console.log` writes. */
  datatype LogSink = Stdout | EmulatorUserLog

  /** The process's `console`: its current `log` and every line written so far. */
  class Console {
    var log: LogSink
    var written: seq<(LogSink, string)>

    constructor()
      ensures log == Stdout && written == []
    {
      log := Stdout;
      written := [];
    }

    /** `console.log(...messages)`: one line, the messages joined by spaces. */
    method Log(messages: seq<string>)
      modifies this
      ensures written == old(written) + [(log, Join(messages, " "))]
      ensures log == old(log)
    {
      written := written + [(log, Join(messages, " "))];
    }
  }

  /** The lines a function's `console.log` calls produce while it runs under `Run`. */
  function Captured(calls: seq<seq<string>>): (r: seq<(LogSink, string)>)
    ensures |r| == |calls|
    ensures forall i :: 0 <= i < |calls| ==> r[i] == (EmulatorUserLog, Join(calls[i], " "))
  {
    if calls == [] then [] else [(EmulatorUserLog, Join(calls[0], " "))] + Captured(calls[1..])
  }

  /**
   * `Run(func)`: route `console.log` to the emulator's user log while the
   * function runs, restore it, and only then rethrow what the function
   * threw. The function is given by the `console.log` calls it makes and
   * by how it ends.
   */
  method Run(console: Console, calls: seq<seq<string>>, ends: Outcome<string>) returns (r: Outcome<string>)
    modifies console
    ensures r == ends
    ensures console.log == old(console.log)
    ensures console.written == old(console.written) + Captured(calls)
  {
    var saved := console.log;
    console.log := EmulatorUserLog;
    var i := 0;
    while i < |calls|
      invariant 0 <= i <= |calls|
      invariant console.log == EmulatorUserLog
      invariant console.written == old(console.written) + Captured(calls[..i])
    {
      assert Captured(calls[..i + 1]) == Captured(calls[..i]) + [(EmulatorUserLog, Join(calls[i], " "))];
      console.Log(calls[i]);
      i := i + 1;
    }
    assert calls[..i] == calls;
    console.log := saved;
    r := ends;
  }
}
