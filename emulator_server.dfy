/**
 * `EmulatorServer`: a thin wrapper around one emulator instance that checks
 * the instance's port before handing it to the registry.
 */
module Server {
  import opened Wrappers
  import opened EmulatorTypes
  import opened World
  import opened PortWait
  import opened Registry

  class EmulatorServer {
    /** The wrapped emulator instance. */
    const instance: Instance

    constructor(instance: Instance)
      ensures this.instance == instance && Get() == instance
    {
      this.instance := instance;
    }

    /** `get()`: the wrapped instance itself. */
    function Get(): Instance
    {
      instance
    }

    /**
     * `start()`: when the instance's port is not free, reject without
     * touching the registry; otherwise start the instance through the
     * registry.
     */
    method Start(reg: EmulatorRegistry, m: Machine) returns (r: Outcome<EmulatorError>)
      requires reg.Valid()
      modifies reg, m
      ensures reg.Valid()
      ensures m.probe(InstanceInfo(instance).port, old(m.clock)) != Resolves ==>
        r == Fail(PortNotOpen(InstanceInfo(instance).port, instance.name)) &&
        reg.instances == old(reg.instances) && m.calls == old(m.calls) && m.watchers == old(m.watchers)
      ensures m.probe(InstanceInfo(instance).port, old(m.clock)) == Resolves ==>
        (r.Pass? <==> !old(reg.IsRunning(instance.name)) && instance.name !in m.startFails &&
                      WaitFrom(m.probe, InstanceInfo(instance).port, old(m.clock), 0).closed) &&
        (old(reg.IsRunning(instance.name)) ==> r == Fail(AlreadyRunning(instance.name))) &&
        m.calls == old(m.calls) + (if old(reg.IsRunning(instance.name)) then [] else [Started(instance.name)])
      ensures reg.instances == if r.Pass? then old(reg.instances)[instance.name := instance] else old(reg.instances)
    {
      var port := InstanceInfo(instance).port;
      var open := CheckPortOpen(m, port);
      if !open {
        return Fail(PortNotOpen(port, instance.name));
      }
      r := reg.Start(instance, m);
    }

    /** `connect()`: forwards to the instance's own `connect`. */
    method Connect(m: Machine) returns (r: Outcome<EmulatorError>)
      modifies m
      ensures r.Pass? <==> instance.name == Database || instance.name !in m.connectFails
      ensures r.Fail? ==> r.error == ConnectFailed(instance.name)
      ensures m.calls == old(m.calls) + [Connected(instance.name)]
      ensures m.clock == old(m.clock) && m.probes == old(m.probes) && m.watchers == old(m.watchers)
    {
      var ok := m.InvokeConnect(instance.name);
      r := if ok then Pass else Fail(ConnectFailed(instance.name));
    }

    /** `stop()`: stops the registry entry filed under the instance's name, whichever instance it is. */
    method Stop(reg: EmulatorRegistry, m: Machine) returns (r: Outcome<EmulatorError>)
      requires reg.Valid()
      modifies reg, m
      ensures reg.Valid()
      ensures !old(reg.IsRunning(instance.name)) ==>
        r == Pass && reg.instances == old(reg.instances) && m.calls == old(m.calls)
      ensures old(reg.IsRunning(instance.name)) ==>
        m.calls == old(m.calls) + [Stopped(instance.name)] &&
        (r.Pass? <==> instance.name !in m.stopFails)
      ensures reg.instances == if r.Pass? then old(reg.instances) - {instance.name} else old(reg.instances)
      ensures forall e :: e != instance.name ==> reg.Get(e) == old(reg.Get(e))
    {
      r := reg.Stop(instance.name, m);
    }
  }
}
