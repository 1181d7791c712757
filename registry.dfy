/**
 * `EmulatorRegistry`: the table of running emulator instances, at most one
 * per emulator, changed only by a completed start or stop.
 */
module Registry {
  import opened Wrappers
  import opened EmulatorTypes
  import opened World
  import opened PortWait

  /** The position of an emulator in `ALL_EMULATORS`. */
  function Rank(e: Emulator): nat
  {
    match e
    case Functions => 0
    case Firestore => 1
    case Database => 2
    case Hosting => 3
  }

  /** Strictly in `ALL_EMULATORS` order, hence without duplicates. */
  predicate Ranked(s: seq<Emulator>)
  {
    forall i, j :: 0 <= i < j < |s| ==> Rank(s[i]) < Rank(s[j])
  }

  lemma AllEmulatorsRanked()
    ensures Ranked(AllEmulators)
  {
  }

  /** `order.filter((name) => running.has(name))`. */
  function FilterRunning(order: seq<Emulator>, running: set<Emulator>): (r: seq<Emulator>)
    ensures forall e :: e in r <==> e in order && e in running
  {
    if order == [] then []
    else (if order[0] in running then [order[0]] else []) + FilterRunning(order[1..], running)
  }

  lemma {:induction false} FilterKeepsRank(order: seq<Emulator>, running: set<Emulator>)
    requires Ranked(order)
    ensures Ranked(FilterRunning(order, running))
    decreases |order|
  {
    if order != [] {
      FilterKeepsRank(order[1..], running);
      var rest := FilterRunning(order[1..], running);
      forall j | 0 <= j < |rest| ensures Rank(order[0]) < Rank(rest[j]) {
        assert rest[j] in rest;
        assert rest[j] in order[1..];
        var k :| 0 <= k < |order[1..]| && order[1..][k] == rest[j];
        assert order[k + 1] == rest[j];
      }
    }
  }

  lemma AppendAssoc<T>(a: seq<T>, b: seq<T>, c: seq<T>)
    ensures (a + b) + c == a + (b + c)
  {
  }

  lemma DropAppend<T>(a: seq<T>, b: seq<T>, n: nat)
    requires n <= |a|
    ensures (a + b)[n..] == a[n..] + b
  {
  }

  /** The set of elements of a sequence. */
  function Elems(s: seq<Emulator>): set<Emulator>
  {
    set e | e in s
  }

  /** The index of the first name in `fails`, or `|names|` when there is none. */
  function FirstFailure(names: seq<Emulator>, fails: set<Emulator>): (k: nat)
    ensures k <= |names|
    ensures forall i :: 0 <= i < k ==> names[i] !in fails
    ensures k < |names| ==> names[k] in fails
  {
    if names == [] then 0
    else if names[0] in fails then 0
    else 1 + FirstFailure(names[1..], fails)
  }

  /** The table, the calls made and the outcome after a run of stops. */
  datatype Stopping = Stopping(instances: map<Emulator, Instance>, calls: seq<Call>, outcome: Outcome<EmulatorError>)

  /**
   * Stopping `names` one after the other, as `stopAll` and `cleanShutdown`
   * do: a name that is not running is skipped, a stop that throws ends the
   * run, and a completed stop removes the entry.
   */
  function StopSequence(inst: map<Emulator, Instance>, calls: seq<Call>, names: seq<Emulator>,
                        fails: set<Emulator>): Stopping
    decreases |names|
  {
    if names == [] then Stopping(inst, calls, Pass)
    else if names[0] !in inst then StopSequence(inst, calls, names[1..], fails)
    else if names[0] in fails then Stopping(inst, calls + [Stopped(names[0])], Fail(StopFailed(names[0])))
    else StopSequence(inst - {names[0]}, calls + [Stopped(names[0])], names[1..], fails)
  }

  /**
   * Stopping distinct running names: the run succeeds iff no name fails, a
   * failure names the first failing emulator, and every name up to and
   * including that one is called, in order.
   */
  lemma {:induction false} StopSequenceOutcome(inst: map<Emulator, Instance>, calls: seq<Call>,
                                               names: seq<Emulator>, fails: set<Emulator>)
    requires Ranked(names)
    requires forall j :: 0 <= j < |names| ==> names[j] in inst
    ensures var k := FirstFailure(names, fails);
      var s := StopSequence(inst, calls, names, fails);
      (s.outcome.Pass? <==> k == |names|) &&
      (s.outcome.Fail? ==> s.outcome.error == StopFailed(names[k])) &&
      s.calls == calls + StopCalls(names[..if k < |names| then k + 1 else k])
    decreases |names|
  {
    if names != [] && names[0] in fails {
      assert names[..1] == [names[0]];
    } else if names != [] {
      var rest := names[1..];
      forall j | 0 <= j < |rest| ensures rest[j] in inst - {names[0]} {
        assert Rank(names[0]) < Rank(names[j + 1]);
      }
      StopSequenceOutcome(inst - {names[0]}, calls + [Stopped(names[0])], rest, fails);
      var k' := FirstFailure(rest, fails);
      var n := if k' < |rest| then k' + 1 else k';
      assert names[..n + 1] == [names[0]] + rest[..n];
      assert StopCalls(names[..n + 1]) == [Stopped(names[0])] + StopCalls(rest[..n]);
      AppendAssoc(calls, [Stopped(names[0])], StopCalls(rest[..n]));
    }
  }

  /**
   * Stopping distinct running names removes exactly the names before the
   * first failing one; the failing one stays registered.
   */
  lemma {:induction false} StopSequenceRemoves(inst: map<Emulator, Instance>, calls: seq<Call>,
                                               names: seq<Emulator>, fails: set<Emulator>)
    requires Ranked(names)
    requires forall j :: 0 <= j < |names| ==> names[j] in inst
    ensures StopSequence(inst, calls, names, fails).instances == inst - Elems(names[..FirstFailure(names, fails)])
    decreases |names|
  {
    var k := FirstFailure(names, fails);
    if names == [] || names[0] in fails {
      assert Elems(names[..0]) == {};
      assert inst - {} == inst;
    } else {
      var rest := names[1..];
      forall j | 0 <= j < |rest| ensures rest[j] in inst - {names[0]} {
        assert Rank(names[0]) < Rank(names[j + 1]);
      }
      StopSequenceRemoves(inst - {names[0]}, calls + [Stopped(names[0])], rest, fails);
      var k' := FirstFailure(rest, fails);
      assert names[..k] == [names[0]] + rest[..k'];
      assert Elems(names[..k]) == {names[0]} + Elems(rest[..k']);
      assert (inst - {names[0]}) - Elems(rest[..k']) == inst - Elems(names[..k]);
    }
  }

  /** A run of stops only appends to the trace, and starts and connects nothing. */
  lemma {:induction false} StopSequenceOnlyStops(inst: map<Emulator, Instance>, calls: seq<Call>,
                                                 names: seq<Emulator>, fails: set<Emulator>)
    ensures var s := StopSequence(inst, calls, names, fails);
      calls <= s.calls && Starts(s.calls[|calls|..]) == [] && Connects(s.calls[|calls|..]) == []
    decreases |names|
  {
    var s := StopSequence(inst, calls, names, fails);
    if names == [] {
      assert s.calls[|calls|..] == [];
    } else if names[0] !in inst {
      StopSequenceOnlyStops(inst, calls, names[1..], fails);
    } else {
      var c1 := calls + [Stopped(names[0])];
      if names[0] !in fails {
        StopSequenceOnlyStops(inst - {names[0]}, c1, names[1..], fails);
        assert s.calls[|calls|..] == [Stopped(names[0])] + s.calls[|c1|..];
        ProjectionsAppend([Stopped(names[0])], s.calls[|c1|..]);
      } else {
        assert s.calls[|calls|..] == [Stopped(names[0])];
      }
    }
  }

  /** When every stop succeeds, stopping all running names empties the table. */
  lemma StopSequenceEmpties(inst: map<Emulator, Instance>, calls: seq<Call>,
                            names: seq<Emulator>, fails: set<Emulator>)
    requires Ranked(names)
    requires forall e :: e in names <==> e in inst
    requires forall j :: 0 <= j < |names| ==> names[j] !in fails
    ensures StopSequence(inst, calls, names, fails) == Stopping(map[], calls + StopCalls(names), Pass)
  {
    StopSequenceOutcome(inst, calls, names, fails);
    StopSequenceRemoves(inst, calls, names, fails);
    var k := FirstFailure(names, fails);
    assert k == |names|;
    assert names[..k] == names;
    assert Elems(names) == inst.Keys;
    assert inst - Elems(names) == map[];
  }

  class EmulatorRegistry {
    /** `INSTANCES`: emulator name to running instance. */
    var instances: map<Emulator, Instance>

    /** Every entry is filed under its own instance's name. */
    ghost predicate Valid()
      reads this
    {
      forall e :: e in instances ==> instances[e].name == e
    }

    constructor()
      ensures instances == map[] && Valid()
    {
      instances := map[];
    }

    /** `isRunning(emulator)`. */
    predicate IsRunning(e: Emulator)
      reads this
    {
      e in instances
    }

    /** `listRunning()`: exactly the running names. */
    function ListRunning(): (r: seq<Emulator>)
      reads this
      ensures forall e :: e in r <==> IsRunning(e)
    {
      AllEmulatorsComplete();
      FilterRunning(AllEmulators, instances.Keys)
    }

    /** `listRunning()` lists in `ALL_EMULATORS` order, hence without duplicates. */
    lemma ListRunningInOrder()
      ensures Ranked(ListRunning())
    {
      AllEmulatorsRanked();
      FilterKeepsRank(AllEmulators, instances.Keys);
    }

    /** `get(emulator)`: the registered instance, or nothing. */
    function Get(e: Emulator): (r: Option<Instance>)
      reads this
      ensures r.Some? <==> IsRunning(e)
      ensures r.Some? ==> r.value == instances[e]
    {
      if e in instances then Some(instances[e]) else None
    }

    /** `getPort(emulator)`: undefined iff not running, else the instance's port. */
    function GetPort(e: Emulator): (r: Option<PortValue>)
      reads this
      ensures r.None? <==> !IsRunning(e)
      ensures r.Some? ==> r.value == InstanceInfo(instances[e]).port
    {
      if e in instances then Some(InstanceInfo(instances[e]).port) else None
    }

    /** `set(emulator, instance)`. */
    method Set(e: Emulator, inst: Instance)
      modifies this
      ensures instances == old(instances)[e := inst]
    {
      instances := instances[e := inst];
    }

    /** `clear(emulator)`. */
    method Clear(e: Emulator)
      modifies this
      ensures instances == old(instances) - {e}
    {
      instances := instances - {e};
    }

    /**
     * `start(instance)`: refuse a name that is running; otherwise launch the
     * instance, wait for its port, and only then record it.
     */
    method Start(inst: Instance, m: Machine) returns (r: Outcome<EmulatorError>)
      requires Valid()
      modifies this, m
      ensures Valid()
      ensures old(IsRunning(inst.name)) ==>
        r == Fail(AlreadyRunning(inst.name)) && instances == old(instances) &&
        m.calls == old(m.calls) && m.watchers == old(m.watchers) &&
        m.clock == old(m.clock) && m.probes == old(m.probes)
      ensures !old(IsRunning(inst.name)) ==>
        m.calls == old(m.calls) + [Started(inst.name)] && m.watchers == old(m.watchers) + WatchOf(inst)
      ensures r.Pass? <==>
        !old(IsRunning(inst.name)) && inst.name !in m.startFails &&
        WaitFrom(m.probe, InstanceInfo(inst).port, old(m.clock), 0).closed
      ensures r.Fail? && !old(IsRunning(inst.name)) ==>
        r.error == if inst.name in m.startFails then StartFailed(inst.name)
                   else PortTimeout(InstanceInfo(inst).port, Timeout)
      ensures instances == if r.Pass? then old(instances)[inst.name := inst] else old(instances)
      ensures r.Pass? ==> IsRunning(inst.name) && Get(inst.name) == Some(inst)
      ensures r.Pass? ==> m.clock == WaitEnd(m.probe, InstanceInfo(inst).port, old(m.clock))
    {
      if IsRunning(inst.name) {
        return Fail(AlreadyRunning(inst.name));
      }
      var launched := m.InvokeStart(inst);
      if !launched {
        return Fail(StartFailed(inst.name));
      }
      r := WaitForPortClosed(m, InstanceInfo(inst).port);
      if r.Fail? {
        return;
      }
      Set(inst.name, inst);
    }

    /**
     * `stop(name)`: nothing when the name is not running; otherwise stop the
     * instance and, only if that completes, remove its entry.
     */
    method Stop(e: Emulator, m: Machine) returns (r: Outcome<EmulatorError>)
      requires Valid()
      modifies this, m
      ensures Valid()
      ensures !old(IsRunning(e)) ==> r == Pass && m.calls == old(m.calls)
      ensures old(IsRunning(e)) ==>
        m.calls == old(m.calls) + [Stopped(e)] &&
        (r.Pass? <==> e !in m.stopFails) && (r.Fail? ==> r.error == StopFailed(e))
      ensures instances == if r.Pass? then old(instances) - {e} else old(instances)
      ensures m.clock == old(m.clock) && m.probes == old(m.probes) && m.watchers == old(m.watchers)
    {
      var inst := Get(e);
      if inst.None? {
        return Pass;
      }
      var stopped := m.InvokeStop(inst.value.name);
      if !stopped {
        return Fail(StopFailed(e));
      }
      Clear(inst.value.name);
      r := Pass;
    }

    /** One turn of the stop loop: stop `names[i]` and account for it in the stop sequence. */
    method StopStep(names: seq<Emulator>, i: nat, m: Machine) returns (r: Outcome<EmulatorError>)
      requires Valid() && i < |names|
      modifies this, m
      ensures Valid()
      ensures r.Fail? ==>
        StopSequence(old(instances), old(m.calls), names[i..], m.stopFails) == Stopping(instances, m.calls, r)
      ensures r.Pass? ==>
        StopSequence(old(instances), old(m.calls), names[i..], m.stopFails) ==
        StopSequence(instances, m.calls, names[i + 1..], m.stopFails)
      ensures m.clock == old(m.clock) && m.probes == old(m.probes) && m.watchers == old(m.watchers)
    {
      assert names[i..][1..] == names[i + 1..];
      r := Stop(names[i], m);
      if r.Fail? {
        assert names[i] in old(instances) && names[i] in m.stopFails;
        return;
      }
      if names[i] in old(instances) {
        assert StopSequence(old(instances), old(m.calls), names[i..], m.stopFails) ==
               StopSequence(old(instances) - {names[i]}, old(m.calls) + [Stopped(names[i])], names[i + 1..], m.stopFails);
      } else {
        assert instances == old(instances);
      }
    }

    /**
     * `stopAll()`: stop the running names in `listRunning` order, giving up
     * at the first stop that throws.
     */
    method StopAll(m: Machine) returns (r: Outcome<EmulatorError>)
      requires Valid()
      modifies this, m
      ensures Valid()
      ensures StopSequence(old(instances), old(m.calls), old(ListRunning()), m.stopFails) ==
              Stopping(instances, m.calls, r)
      ensures m.clock == old(m.clock) && m.probes == old(m.probes) && m.watchers == old(m.watchers)
    {
      var names := ListRunning();
      var i := 0;
      while i < |names|
        invariant 0 <= i <= |names|
        invariant Valid()
        invariant StopSequence(old(instances), old(m.calls), names, m.stopFails) ==
                  StopSequence(instances, m.calls, names[i..], m.stopFails)
        invariant m.clock == old(m.clock) && m.probes == old(m.probes) && m.watchers == old(m.watchers)
      {
        r := StopStep(names, i, m);
        if r.Fail? {
          return;
        }
        i := i + 1;
      }
      r := Pass;
    }
  }
}
