/**
 * `serve/functions`: fill in the functions emulator's arguments from the
 * serve options, wrap the emulator in an `EmulatorServer`, and start it.
 */
module ServeFunctions {
  import opened Wrappers
  import opened OMaps
  import opened Json
  import opened EmulatorTypes
  import opened World
  import opened PortWait
  import opened Registry
  import opened Server

  /** The runtime features the emulator switches off when the caller did not choose. */
  const DefaultDisabledFeatures: Json := JObj([
    ("functions_config_helper", JBool(true)),
    ("network_filtering", JBool(true)),
    ("timeout", JBool(true)),
    ("memory_limiting", JBool(true)),
    ("admin_stubs", JBool(true))])

  /** The options `serve` passes; absent fields are `None`. The port is taken to be a number. */
  datatype ServeOptions = ServeOptions(host: Option<string>, port: Option<int>, targets: Option<seq<string>>)

  /** The `args` object handed to the functions emulator, updated in place. */
  class FunctionsArgs {
    var disabledRuntimeFeatures: Option<Json>
    var host: Option<string>
    var port: Option<int>

    constructor()
      ensures disabledRuntimeFeatures.None? && host.None? && port.None?
    {
      disabledRuntimeFeatures := None;
      host := None;
      port := None;
    }
  }

  /** The port the functions emulator gets: one above a truthy serve port when hosting is served too. */
  function FunctionsPort(options: ServeOptions, current: Option<int>): (r: Option<int>)
    ensures options.port.None? || options.port.value == 0 ==> r == current
    ensures options.port.Some? && options.port.value != 0 ==>
      r == Some(if HostingServed(options) then options.port.value + 1 else options.port.value)
  {
    if options.port.Some? && options.port.value != 0 then
      Some(if HostingServed(options) then options.port.value + 1 else options.port.value)
    else current
  }

  /** `options.targets && options.targets.indexOf("hosting") >= 0`. */
  predicate HostingServed(options: ServeOptions)
  {
    options.targets.Some? && "hosting" in options.targets.value
  }

  /** Hosting and functions served together never share the serve port. */
  lemma FunctionsPortAvoidsHosting(options: ServeOptions, current: Option<int>)
    requires options.port.Some? && options.port.value != 0 && HostingServed(options)
    ensures FunctionsPort(options, current) == Some(options.port.value + 1)
    ensures FunctionsPort(options, current) != options.port
  {
  }

  /** The instance the functions emulator amounts to, given its arguments. */
  function FunctionsInstance(host: Option<string>, port: Option<int>): (inst: Instance)
    ensures inst.name == Functions
    ensures inst.args.host == host
    ensures port.Some? <==> inst.args.port.Some?
    ensures port.Some? ==> inst.args.port.value == PortNum(port.value)
  {
    Instance(Functions, EmulatorArgs(host, if port.Some? then Some(PortNum(port.value)) else None,
                                     None, None, None, None, false))
  }

  /** The argument defaulting of `start`, on `args` or on a fresh object when there is none. */
  method FillArgs(options: ServeOptions, args: FunctionsArgs?) returns (used: FunctionsArgs)
    modifies args
    ensures args != null ==> used == args
    ensures args == null ==> fresh(used)
    ensures used.disabledRuntimeFeatures ==
      (if args != null && old(args.disabledRuntimeFeatures).Some? && Truthy(old(args.disabledRuntimeFeatures).value)
       then old(args.disabledRuntimeFeatures) else Some(DefaultDisabledFeatures))
    ensures used.host ==
      (if options.host.Some? && options.host.value != "" then options.host
       else if args != null then old(args.host) else None)
    ensures used.port == FunctionsPort(options, if args != null then old(args.port) else None)
  {
    if args == null {
      used := new FunctionsArgs();
    } else {
      used := args;
    }
    if used.disabledRuntimeFeatures.None? || !Truthy(used.disabledRuntimeFeatures.value) {
      used.disabledRuntimeFeatures := Some(DefaultDisabledFeatures);
    }
    if options.host.Some? && options.host.value != "" {
      used.host := options.host;
    }
    if options.port.Some? && options.port.value != 0 {
      var hostingRunning := options.targets.Some? && "hosting" in options.targets.value;
      if hostingRunning {
        used.port := Some(options.port.value + 1);
      } else {
        used.port := Some(options.port.value);
      }
    }
  }

  /** The module object: the server of the last `start`. */
  class FunctionsServe {
    var emulatorServer: EmulatorServer?

    /** The server, once there is one, wraps a functions emulator. */
    ghost predicate Valid()
      reads this, emulatorServer
    {
      emulatorServer != null ==> emulatorServer.instance.name == Functions
    }

    constructor()
      ensures emulatorServer == null && Valid()
    {
      emulatorServer := null;
    }

    /**
     * `start(options, args)`: default the disabled features, override the
     * host with a truthy serve host, set the port, and start the emulator
     * through a fresh `EmulatorServer`.
     */
    method Start(options: ServeOptions, args: FunctionsArgs?, reg: EmulatorRegistry, m: Machine)
      returns (r: Outcome<EmulatorError>, used: FunctionsArgs)
      requires reg.Valid()
      modifies this, args, reg, m
      ensures reg.Valid() && Valid()
      ensures args != null ==> used == args
      ensures args == null ==> fresh(used)
      ensures used.disabledRuntimeFeatures ==
        (if args != null && old(args.disabledRuntimeFeatures).Some? && Truthy(old(args.disabledRuntimeFeatures).value)
         then old(args.disabledRuntimeFeatures) else Some(DefaultDisabledFeatures))
      ensures used.host ==
        (if options.host.Some? && options.host.value != "" then options.host
         else if args != null then old(args.host) else None)
      ensures used.port == FunctionsPort(options, if args != null then old(args.port) else None)
      ensures emulatorServer != null && fresh(emulatorServer)
      ensures emulatorServer.instance == FunctionsInstance(used.host, used.port)
      ensures m.probe(InstanceInfo(emulatorServer.instance).port, old(m.clock)) != Resolves ==>
        r == Fail(PortNotOpen(InstanceInfo(emulatorServer.instance).port, Functions)) &&
        reg.instances == old(reg.instances)
      ensures reg.instances == if r.Pass? then old(reg.instances)[Functions := emulatorServer.instance] else old(reg.instances)
    {
      used := FillArgs(options, args);
      var server := new EmulatorServer(FunctionsInstance(used.host, used.port));
      emulatorServer := server;
      r := server.Start(reg, m);
    }

    /** `connect()`: forwards to the server of the last `start`. */
    method Connect(m: Machine) returns (r: Outcome<EmulatorError>)
      requires emulatorServer != null && Valid()
      modifies m
      ensures r.Pass? <==> emulatorServer.instance.name !in m.connectFails
      ensures m.calls == old(m.calls) + [Connected(emulatorServer.instance.name)]
    {
      r := emulatorServer.Connect(m);
    }

    /** `stop()`: forwards to the server of the last `start`. */
    method Stop(reg: EmulatorRegistry, m: Machine) returns (r: Outcome<EmulatorError>)
      requires emulatorServer != null && reg.Valid()
      modifies reg, m
      ensures reg.Valid()
      ensures reg.instances == if r.Pass? then old(reg.instances) - {emulatorServer.instance.name} else old(reg.instances)
    {
      r := emulatorServer.Stop(reg, m);
    }

    /** `get()`: the instance of the last `start`. */
    function Get(): (inst: Instance)
      requires emulatorServer != null && Valid()
      reads this, emulatorServer
      ensures inst == emulatorServer.instance && inst.name == Functions
    {
      emulatorServer.Get()
    }
  }
}
