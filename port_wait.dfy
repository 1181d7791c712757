/**
 * The controller's port checks: a single probe, and the bounded wait for an
 * emulator's port to stop being free after the emulator was launched.
 */
module PortWait {
  import opened Wrappers
  import opened EmulatorTypes
  import opened World

  /** Milliseconds between two probes. */
  const Interval: nat := 250
  /** Milliseconds after which the wait gives up. */
  const Timeout: nat := 30000
  /** `Timeout / Interval`: the most probes one wait makes. */
  const MaxProbes: nat := 120

  /**
   * `checkPortOpen`: true iff the probe resolves (the port is free). A
   * rejected probe is reported as `false`, never as an error.
   */
  method CheckPortOpen(m: Machine, port: PortValue) returns (open: bool)
    modifies m
    ensures open <==> m.probe(port, old(m.clock)) == Resolves
    ensures m.probes == old(m.probes) + 1 && m.clock == old(m.clock)
    ensures m.calls == old(m.calls) && m.watchers == old(m.watchers)
  {
    var o := m.Probe(port);
    open := o == Resolves;
  }

  /** Whether the wait found the port taken, and how many probes it made. */
  datatype WaitRun = WaitRun(closed: bool, probes: nat)

  /**
   * What `waitForPortClosed` does when it has already waited `elapsed`
   * milliseconds and the clock reads `t`: probe, stop at the first probe that
   * does not resolve, otherwise sleep one interval, until the timeout.
   */
  function WaitFrom(probe: (PortValue, nat) -> ProbeOutcome, port: PortValue, t: nat, elapsed: nat): (r: WaitRun)
    ensures r.closed ==> r.probes >= 1
    decreases Timeout - elapsed
  {
    if elapsed >= Timeout then WaitRun(false, 0)
    else if probe(port, t) != Resolves then WaitRun(true, 1)
    else
      var rest := WaitFrom(probe, port, t + Interval, elapsed + Interval);
      WaitRun(rest.closed, rest.probes + 1)
  }

  /** The clock when a wait that began with the clock at `t` returns. */
  function WaitEnd(probe: (PortValue, nat) -> ProbeOutcome, port: PortValue, t: nat): nat
  {
    var run := WaitFrom(probe, port, t, 0);
    t + Interval * (if run.closed then run.probes - 1 else run.probes)
  }

  /** The `i`-th probe of a wait that started at clock `t` finds the port taken. */
  predicate TakenAt(probe: (PortValue, nat) -> ProbeOutcome, port: PortValue, t: nat, i: nat)
  {
    probe(port, t + Interval * i) == Rejects
  }

  /**
   * The wait returns at the first probe that finds the port taken; without
   * one it makes exactly the probes that fit before the timeout.
   */
  lemma {:induction false} WaitStopsAtFirstTaken(probe: (PortValue, nat) -> ProbeOutcome, port: PortValue, t: nat, k: nat)
    requires k <= MaxProbes
    ensures var r := WaitFrom(probe, port, t, Interval * k);
      (r.closed ==> 1 <= r.probes <= MaxProbes - k && TakenAt(probe, port, t, r.probes - 1)) &&
      (!r.closed ==> r.probes == MaxProbes - k) &&
      (forall i :: 0 <= i < r.probes - (if r.closed then 1 else 0) ==> !TakenAt(probe, port, t, i))
    decreases MaxProbes - k
  {
    var r := WaitFrom(probe, port, t, Interval * k);
    if k < MaxProbes {
      assert t + Interval * 0 == t;
      if probe(port, t) == Resolves {
        WaitStopsAtFirstTaken(probe, port, t + Interval, k + 1);
        var rest := WaitFrom(probe, port, t + Interval, Interval * (k + 1));
        assert Interval * k + Interval == Interval * (k + 1);
        assert r == WaitRun(rest.closed, rest.probes + 1);
        assert rest.closed ==> TakenAt(probe, port, t, rest.probes) by {
          assert t + Interval + Interval * (rest.probes - 1) == t + Interval * rest.probes;
        }
        forall i | 0 <= i < r.probes - (if r.closed then 1 else 0)
          ensures !TakenAt(probe, port, t, i)
        {
          if i > 0 {
            assert t + Interval + Interval * (i - 1) == t + Interval * i;
            assert !TakenAt(probe, port, t + Interval, i - 1);
          }
        }
      }
    }
  }

  /** The wait succeeds iff one of the probes that fit in the timeout finds the port taken. */
  lemma WaitClosedIff(probe: (PortValue, nat) -> ProbeOutcome, port: PortValue, t: nat)
    ensures WaitFrom(probe, port, t, 0).closed <==>
      exists i :: 0 <= i < MaxProbes && TakenAt(probe, port, t, i)
  {
    WaitStopsAtFirstTaken(probe, port, t, 0);
    var r := WaitFrom(probe, port, t, 0);
    if r.closed {
      assert TakenAt(probe, port, t, r.probes - 1);
    }
  }

  /** No wait makes more than 30000 / 250 = 120 probes. */
  lemma WaitProbesBounded(probe: (PortValue, nat) -> ProbeOutcome, port: PortValue, t: nat)
    ensures 1 <= WaitFrom(probe, port, t, 0).probes <= MaxProbes
  {
    WaitStopsAtFirstTaken(probe, port, t, 0);
  }

  /**
   * `waitForPortClosed`: probe every 250 ms until the port is no longer free,
   * failing with a timeout error that names the port after 30000 ms.
   */
  method WaitForPortClosed(m: Machine, port: PortValue) returns (r: Outcome<EmulatorError>)
    modifies m
    ensures var run := WaitFrom(m.probe, port, old(m.clock), 0);
      (r.Pass? <==> run.closed) &&
      (r.Fail? ==> r.error == PortTimeout(port, Timeout)) &&
      m.probes == old(m.probes) + run.probes &&
      m.clock == WaitEnd(m.probe, port, old(m.clock))
    ensures m.calls == old(m.calls) && m.watchers == old(m.watchers)
  {
    var elapsed: nat := 0;
    ghost var k: nat := 0;
    while elapsed < Timeout
      invariant elapsed == Interval * k && k <= MaxProbes
      invariant m.clock == old(m.clock) + elapsed
      invariant m.probes == old(m.probes) + k
      invariant m.calls == old(m.calls) && m.watchers == old(m.watchers)
      invariant var rest := WaitFrom(m.probe, port, m.clock, elapsed);
        WaitFrom(m.probe, port, old(m.clock), 0) == WaitRun(rest.closed, rest.probes + k)
      decreases Timeout - elapsed
    {
      var open := CheckPortOpen(m, port);
      if !open {
        return Pass;
      }
      m.Sleep(Interval);
      elapsed := elapsed + Interval;
      k := k + 1;
    }
    return Fail(PortTimeout(port, Timeout));
  }
}
