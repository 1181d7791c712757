/**
 * Everything the emulator lifecycle touches but does not compute: the port
 * probe, the emulators' own start/stop/connect actions (Java processes and
 * servers), the clock the sleeps advance, and the file watchers the database
 * emulator installs. A `Machine` holds these as oracles plus a record of
 * what was done to it, so the lifecycle methods can be specified by their
 * effect on it.
 */
module World {
  import opened Wrappers
  import opened EmulatorTypes
  import Constants
  import DatabaseEmulator

  /** What `getPortPromise({port, stopPort: port})` does: resolve when the port is free, reject otherwise. */
  datatype ProbeOutcome = Resolves | Rejects

  /** A call made on an emulator instance. */
  datatype Call = Started(e: Emulator) | Stopped(e: Emulator) | Connected(e: Emulator)

  /**
   * `instance.getInfo()`. The database emulator's fallbacks are modelled;
   * the other three emulators report the host and port they were built with
   * (their own `getInfo` is not part of this model).
   */
  function InstanceInfo(inst: Instance): Address
  {
    if inst.name == Database then DatabaseEmulator.GetInfo(inst.args)
    else Address(inst.args.host.GetOr(Constants.DefaultHost),
                 inst.args.port.GetOr(PortNum(Constants.DefaultPort(inst.name))))
  }

  /** The rules watcher that starting `inst` installs: only a database emulator with rules and a project. */
  function WatchOf(inst: Instance): (w: seq<string>)
    ensures |w| <= 1
    ensures w != [] <==> inst.name == Database && inst.args.rules.Some? && inst.args.rules.value != ""
                         && inst.args.projectId.Some? && inst.args.projectId.value != ""
    ensures w != [] ==> w == [inst.args.rules.value]
  {
    if inst.name == Database && DatabaseEmulator.RulesWatchPath(inst.args).Some?
    then [DatabaseEmulator.RulesWatchPath(inst.args).value] else []
  }

  /** The emulators named in the `Started` calls of a trace, in order. */
  function Starts(calls: seq<Call>): (r: seq<Emulator>)
    ensures |r| <= |calls|
  {
    if calls == [] then []
    else (if calls[0].Started? then [calls[0].e] else []) + Starts(calls[1..])
  }

  /** The emulators named in the `Stopped` calls of a trace, in order. */
  function Stops(calls: seq<Call>): (r: seq<Emulator>)
    ensures |r| <= |calls|
  {
    if calls == [] then []
    else (if calls[0].Stopped? then [calls[0].e] else []) + Stops(calls[1..])
  }

  /** The emulators named in the `Connected` calls of a trace, in order. */
  function Connects(calls: seq<Call>): (r: seq<Emulator>)
    ensures |r| <= |calls|
  {
    if calls == [] then []
    else (if calls[0].Connected? then [calls[0].e] else []) + Connects(calls[1..])
  }

  /** The three projections distribute over concatenation of traces. */
  lemma ProjectionsAppend(a: seq<Call>, b: seq<Call>)
    ensures Starts(a + b) == Starts(a) + Starts(b)
    ensures Stops(a + b) == Stops(a) + Stops(b)
    ensures Connects(a + b) == Connects(a) + Connects(b)
  {
    StartsAppend(a, b);
    StopsAppend(a, b);
    ConnectsAppend(a, b);
  }

  lemma {:induction false} StartsAppend(a: seq<Call>, b: seq<Call>)
    ensures Starts(a + b) == Starts(a) + Starts(b)
    decreases |a|
  {
    if a != [] {
      assert (a + b)[1..] == a[1..] + b;
      StartsAppend(a[1..], b);
    } else {
      assert a + b == b;
    }
  }

  lemma {:induction false} StopsAppend(a: seq<Call>, b: seq<Call>)
    ensures Stops(a + b) == Stops(a) + Stops(b)
    decreases |a|
  {
    if a != [] {
      assert (a + b)[1..] == a[1..] + b;
      StopsAppend(a[1..], b);
    } else {
      assert a + b == b;
    }
  }

  lemma {:induction false} ConnectsAppend(a: seq<Call>, b: seq<Call>)
    ensures Connects(a + b) == Connects(a) + Connects(b)
    decreases |a|
  {
    if a != [] {
      assert (a + b)[1..] == a[1..] + b;
      ConnectsAppend(a[1..], b);
    } else {
      assert a + b == b;
    }
  }

  /** A trace of start calls only. */
  function StartCalls(names: seq<Emulator>): (r: seq<Call>)
    ensures |r| == |names|
  {
    if names == [] then [] else [Started(names[0])] + StartCalls(names[1..])
  }

  /** A trace of stop calls only. */
  function StopCalls(names: seq<Emulator>): (r: seq<Call>)
    ensures |r| == |names|
  {
    if names == [] then [] else [Stopped(names[0])] + StopCalls(names[1..])
  }

  /** A trace of connect calls only. */
  function ConnectCalls(names: seq<Emulator>): (r: seq<Call>)
    ensures |r| == |names|
  {
    if names == [] then [] else [Connected(names[0])] + ConnectCalls(names[1..])
  }

  /** Start calls stop and connect nothing; they start exactly the listed names. */
  lemma {:induction false} StartCallsProjections(names: seq<Emulator>)
    ensures Starts(StartCalls(names)) == names
    ensures Stops(StartCalls(names)) == [] && Connects(StartCalls(names)) == []
    decreases |names|
  {
    if names != [] {
      StartCallsProjections(names[1..]);
      assert StartCalls(names)[1..] == StartCalls(names[1..]);
    }
  }

  lemma {:induction false} StartCallsConcat(a: seq<Emulator>, b: seq<Emulator>)
    ensures StartCalls(a + b) == StartCalls(a) + StartCalls(b)
    decreases |a|
  {
    if a != [] {
      assert (a + b)[1..] == a[1..] + b;
      StartCallsConcat(a[1..], b);
    } else {
      assert a + b == b;
    }
  }

  /** Stop calls start nothing and connect nothing; they stop exactly the listed names. */
  lemma {:induction false} StopCallsProjections(names: seq<Emulator>)
    ensures Starts(StopCalls(names)) == [] && Connects(StopCalls(names)) == []
    ensures Stops(StopCalls(names)) == names
    decreases |names|
  {
    if names != [] {
      StopCallsProjections(names[1..]);
      assert StopCalls(names)[1..] == StopCalls(names[1..]);
    }
  }

  /** Connect calls start and stop nothing; they connect exactly the listed names. */
  lemma {:induction false} ConnectCallsProjections(names: seq<Emulator>)
    ensures Starts(ConnectCalls(names)) == [] && Stops(ConnectCalls(names)) == []
    ensures Connects(ConnectCalls(names)) == names
    decreases |names|
  {
    if names != [] {
      ConnectCallsProjections(names[1..]);
      assert ConnectCalls(names)[1..] == ConnectCalls(names[1..]);
    }
  }

  lemma {:induction false} StopCallsAppend(names: seq<Emulator>, e: Emulator)
    ensures StopCalls(names + [e]) == StopCalls(names) + [Stopped(e)]
    decreases |names|
  {
    if names != [] {
      assert (names + [e])[1..] == names[1..] + [e];
      StopCallsAppend(names[1..], e);
    }
  }

  lemma {:induction false} ConnectCallsAppend(names: seq<Emulator>, e: Emulator)
    ensures ConnectCalls(names + [e]) == ConnectCalls(names) + [Connected(e)]
    decreases |names|
  {
    if names != [] {
      assert (names + [e])[1..] == names[1..] + [e];
      ConnectCallsAppend(names[1..], e);
    }
  }

  class Machine {
    /** The port probe, as a function of the port and the time of the probe. */
    const probe: (PortValue, nat) -> ProbeOutcome
    /** Emulators whose own `start()` throws. */
    const startFails: set<Emulator>
    /** Emulators whose own `stop()` throws. */
    const stopFails: set<Emulator>
    /** Emulators whose own `connect()` throws. */
    const connectFails: set<Emulator>

    /** Milliseconds slept so far. */
    var clock: nat
    /** Number of port probes made so far. */
    var probes: nat
    /** Every call made on an emulator instance, in order. */
    var calls: seq<Call>
    /** Rules files being watched, in the order the watchers were installed. */
    var watchers: seq<string>

    constructor(probe: (PortValue, nat) -> ProbeOutcome,
                startFails: set<Emulator>, stopFails: set<Emulator>, connectFails: set<Emulator>)
      ensures this.probe == probe && this.startFails == startFails
      ensures this.stopFails == stopFails && this.connectFails == connectFails
      ensures clock == 0 && probes == 0 && calls == [] && watchers == []
    {
      this.probe := probe;
      this.startFails := startFails;
      this.stopFails := stopFails;
      this.connectFails := connectFails;
      clock := 0;
      probes := 0;
      calls := [];
      watchers := [];
    }

    /** `setTimeout` as a sleep: only the clock moves. */
    method Sleep(ms: nat)
      modifies this
      ensures clock == old(clock) + ms
      ensures probes == old(probes) && calls == old(calls) && watchers == old(watchers)
    {
      clock := clock + ms;
    }

    /** One probe of `port` at the current time. */
    method Probe(port: PortValue) returns (o: ProbeOutcome)
      modifies this
      ensures o == probe(port, old(clock))
      ensures probes == old(probes) + 1
      ensures clock == old(clock) && calls == old(calls) && watchers == old(watchers)
    {
      o := probe(port, clock);
      probes := probes + 1;
    }

    /**
     * The instance's own `start()`. The database emulator installs its rules
     * watcher before launching its process, so the watcher stays even when
     * the launch fails.
     */
    method InvokeStart(inst: Instance) returns (ok: bool)
      modifies this
      ensures ok == (inst.name !in startFails)
      ensures calls == old(calls) + [Started(inst.name)]
      ensures watchers == old(watchers) + WatchOf(inst)
      ensures clock == old(clock) && probes == old(probes)
    {
      watchers := watchers + WatchOf(inst);
      calls := calls + [Started(inst.name)];
      ok := inst.name !in startFails;
    }

    /** The instance's own `stop()`. */
    method InvokeStop(e: Emulator) returns (ok: bool)
      modifies this
      ensures ok == (e !in stopFails)
      ensures calls == old(calls) + [Stopped(e)]
      ensures clock == old(clock) && probes == old(probes) && watchers == old(watchers)
    {
      calls := calls + [Stopped(e)];
      ok := e !in stopFails;
    }

    /** The instance's own `connect()`; the database emulator's is a no-op that always succeeds. */
    method InvokeConnect(e: Emulator) returns (ok: bool)
      modifies this
      ensures ok == (e == Database || e !in connectFails)
      ensures calls == old(calls) + [Connected(e)]
      ensures clock == old(clock) && probes == old(probes) && watchers == old(watchers)
    {
      calls := calls + [Connected(e)];
      ok := e == Database || e !in connectFails;
    }
  }
}
