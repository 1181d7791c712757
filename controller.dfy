/**
 * The emulator controller: the pre-flight port check, the clean shutdown,
 * and `startAll`, which builds each targeted emulator's arguments from the
 * project configuration, starts the emulators one after the other in the
 * fixed order functions, firestore, database, hosting, and then connects
 * every running emulator.
 */
module Controller {
  import opened Wrappers
  import opened Strs
  import opened EmulatorTypes
  import opened World
  import opened PortWait
  import opened Registry
  import Constants

  // ------------------------------------------------------------- targets

  /**
   * `shouldStart(options, name)`. `targets` is what `filterTargets` selects
   * from the options (that function is not part of this model); it is taken
   * to give the same answer on every call within one `startAll`.
   */
  predicate ShouldStart(targets: seq<string>, e: Emulator)
  {
    Name(e) in targets
  }

  /** The one-element plan of an emulator: itself if targeted, else nothing. */
  function Selected(targets: seq<string>, e: Emulator): (r: seq<Emulator>)
    ensures r == [e] || r == []
    ensures r == [e] <==> ShouldStart(targets, e)
  {
    if ShouldStart(targets, e) then [e] else []
  }

  /** The emulators `startAll` launches, in the order of its four blocks. */
  function StartPlan(targets: seq<string>): seq<Emulator>
  {
    Selected(targets, Functions) + Selected(targets, Firestore) +
    Selected(targets, Database) + Selected(targets, Hosting)
  }

  /**
   * The plan holds exactly the targeted emulators, each once, strictly in
   * the order functions, firestore, database, hosting.
   */
  lemma StartPlanOrdered(targets: seq<string>)
    ensures forall e :: e in StartPlan(targets) <==> ShouldStart(targets, e)
    ensures Ranked(StartPlan(targets))
  {
    var p := StartPlan(targets);
    forall i, j | 0 <= i < j < |p| ensures Rank(p[i]) < Rank(p[j]) {
      var a := Selected(targets, Functions);
      var b := Selected(targets, Firestore);
      var c := Selected(targets, Database);
      var d := Selected(targets, Hosting);
      assert p == a + b + c + d;
      assert p[i] in p && p[j] in p;
    }
  }

  /** `_.difference(requested, targets)`: the requested names that were not selected, in order. */
  function Difference(requested: seq<string>, targets: seq<string>): (r: seq<string>)
    ensures |r| <= |requested|
    ensures forall x :: x in r <==> x in requested && x !in targets
  {
    if requested == [] then []
    else (if requested[0] in targets then [] else [requested[0]]) + Difference(requested[1..], targets)
  }

  /**
   * The names of `--only` that get a "Not starting the X emulator" warning:
   * none without `--only`, otherwise the comma-separated entries that are not
   * among the targets.
   */
  function IgnoredTargets(only: Option<string>, targets: seq<string>): (r: seq<string>)
    ensures only.None? || only.value == "" ==> r == []
    ensures forall x :: x in r <==> only.Some? && only.value != "" && x in Split(only.value, ',') && x !in targets
  {
    if only.Some? && only.value != "" then Difference(Split(only.value, ','), targets) else []
  }

  // ----------------------------------------------------------- arguments

  /** `path.join(projectRoot, localPath)`, without the normalisation of `.` and `..`. */
  function JoinPath(root: string, local: string): string
  {
    root + "/" + local
  }

  /** What `startAll` decides about a rules file. */
  datatype RulesChoice =
    | NoRulesConfigured          // warning: default rules
    | RulesMissing(path: string) // warning: the file does not exist
    | RulesFound(path: string)   // `args.rules` is set

  /**
   * The rules lookup of the firestore and database blocks: a falsy
   * configured value means no rules; a text value is joined to the project
   * root and used iff that file exists; any other truthy value makes
   * `path.join` throw.
   */
  function RulesArg(c: Constants.Config, key: string, projectRoot: string, files: set<string>): (r: Result<RulesChoice, EmulatorError>)
    ensures r.Err? <==> key in c && c[key].Truthy() && !c[key].CStr?
    ensures r.Err? ==> r.error == BadConfigValue(key)
    ensures r == Ok(NoRulesConfigured) <==> !(key in c && c[key].Truthy())
    ensures r.Ok? && r.value.RulesFound? <==>
      key in c && c[key].CStr? && c[key].s != "" && JoinPath(projectRoot, c[key].s) in files
    ensures r.Ok? && !r.value.NoRulesConfigured? ==> r.value.path == JoinPath(projectRoot, c[key].s)
  {
    if !(key in c && c[key].Truthy()) then Ok(NoRulesConfigured)
    else if !c[key].CStr? then Err(BadConfigValue(key))
    else
      var path := JoinPath(projectRoot, c[key].s);
      if path in files then Ok(RulesFound(path)) else Ok(RulesMissing(path))
  }

  /** The `args.rules` a rules choice leads to. */
  function RulesOption(choice: RulesChoice): Option<string>
  {
    if choice.RulesFound? then Some(choice.path) else None
  }

  /** Everything `startAll` reads besides the registry and the machine. */
  datatype StartInputs = StartInputs(
    config: Constants.Config,
    targets: seq<string>,
    projectId: Option<string>,
    projectRoot: string,
    files: set<string>)

  /**
   * The instance each block of `startAll` constructs. Each step that reads
   * the configuration can throw, in the order the block evaluates them.
   */
  function PlannedInstance(e: Emulator, inp: StartInputs): (r: Result<Instance, EmulatorError>)
    ensures r.Ok? ==> r.value.name == e
  {
    match Constants.GetAddress(e, inp.config)
    case Err(err) => Err(err)
    case Ok(addr) =>
      match e
      case Functions =>
        Ok(Instance(Functions, EmulatorArgs(Some(addr.host), Some(addr.port), None, None, None, None, false)))
      case Hosting =>
        Ok(Instance(Hosting, EmulatorArgs(Some(addr.host), Some(addr.port), None, None, None, None, false)))
      case Firestore =>
        (match RulesArg(inp.config, "firestore.rules", inp.projectRoot, inp.files)
         case Err(err) => Err(err)
         case Ok(choice) =>
           Ok(Instance(Firestore, EmulatorArgs(Some(addr.host), Some(addr.port), inp.projectId,
                                               RulesOption(choice), None, None, true))))
      case Database =>
        var wiring: Result<Option<Address>, EmulatorError> :=
          if ShouldStart(inp.targets, Functions) then
            (match Constants.GetAddress(Functions, inp.config)
             case Err(err) => Err(err)
             case Ok(f) => Ok(Some(f)))
          else Ok(None);
        match wiring
        case Err(err) => Err(err)
        case Ok(fn) =>
          match RulesArg(inp.config, "database.rules", inp.projectRoot, inp.files)
          case Err(err) => Err(err)
          case Ok(choice) =>
            Ok(Instance(Database, EmulatorArgs(
              Some(addr.host), Some(addr.port), inp.projectId, RulesOption(choice),
              if fn.Some? then Some(fn.value.host) else None,
              if fn.Some? then Some(fn.value.port) else None,
              true)))
  }

  /**
   * Every block builds an instance of its own emulator at the configured
   * address; a bad host value fails the block before anything else; only
   * the firestore and database emulators are given the project and asked
   * to download their binaries.
   */
  lemma PlannedInstanceShape(e: Emulator, inp: StartInputs)
    ensures var r := PlannedInstance(e, inp);
      (Constants.GetAddress(e, inp.config).Err? ==> r == Err(Constants.GetAddress(e, inp.config).error)) &&
      (r.Ok? ==> r.value.name == e) &&
      (r.Ok? ==>
        var addr := Constants.GetAddress(e, inp.config);
        addr.Ok? && r.value.args.host == Some(addr.value.host) && r.value.args.port == Some(addr.value.port)) &&
      (r.Ok? ==> (r.value.args.autoDownload <==> e == Firestore || e == Database)) &&
      (r.Ok? ==> (r.value.args.projectId.Some? ==> e == Firestore || e == Database)) &&
      (r.Ok? && (e == Firestore || e == Database) ==> r.value.args.projectId == inp.projectId)
  {
  }

  /**
   * The database emulator is told the functions emulator's address iff
   * functions is among the targets.
   */
  lemma DatabaseWiring(inp: StartInputs)
    requires PlannedInstance(Database, inp).Ok?
    ensures var args := PlannedInstance(Database, inp).value.args;
      (args.functionsEmulatorHost.Some? <==> ShouldStart(inp.targets, Functions)) &&
      (args.functionsEmulatorPort.Some? <==> ShouldStart(inp.targets, Functions)) &&
      (ShouldStart(inp.targets, Functions) ==>
        Constants.GetAddress(Functions, inp.config).Ok? &&
        args.functionsEmulatorHost == Some(Constants.GetAddress(Functions, inp.config).value.host) &&
        args.functionsEmulatorPort == Some(Constants.GetAddress(Functions, inp.config).value.port))
  {
  }

  /**
   * The firestore and database emulators get `args.rules` only when a rules
   * path is configured and the file exists; the functions and hosting
   * emulators never do.
   */
  lemma PlannedRules(e: Emulator, inp: StartInputs)
    requires PlannedInstance(e, inp).Ok?
    ensures var key := if e == Firestore then "firestore.rules" else "database.rules";
      var rules := PlannedInstance(e, inp).value.args.rules;
      (rules.Some? <==> (e == Firestore || e == Database) && key in inp.config && inp.config[key].CStr? &&
                        inp.config[key].s != "" && JoinPath(inp.projectRoot, inp.config[key].s) in inp.files) &&
      (rules.Some? ==> rules.value == JoinPath(inp.projectRoot, inp.config[key].s))
  {
    var key := if e == Firestore then "firestore.rules" else "database.rules";
    if e == Firestore || e == Database {
      var choice := RulesArg(inp.config, key, inp.projectRoot, inp.files);
      assert choice.Ok?;
      assert PlannedInstance(e, inp).value.args.rules == RulesOption(choice.value);
    }
  }

  // -------------------------------------------------------- the lifecycle

  /** The bullets `cleanShutdown` logs. */
  datatype ShutdownLog =
    | ShuttingDown      // "Shutting down emulators."
    | StoppingOne(e: Emulator) // "Stopping X emulator"

  /** One "Stopping X emulator" bullet per name, in order. */
  function StoppingLines(names: seq<Emulator>): (r: seq<ShutdownLog>)
    ensures |r| == |names|
  {
    if names == [] then [] else [StoppingOne(names[0])] + StoppingLines(names[1..])
  }

  /**
   * `cleanShutdown`: stop the running emulators in `listRunning` order and
   * resolve to `true`; a stop that throws ends the shutdown with that error.
   */
  method CleanShutdown(reg: EmulatorRegistry, m: Machine) returns (r: Result<bool, EmulatorError>, log: seq<ShutdownLog>)
    requires reg.Valid()
    modifies reg, m
    ensures reg.Valid()
    ensures StopSequence(old(reg.instances), old(m.calls), old(reg.ListRunning()), m.stopFails) ==
            Stopping(reg.instances, m.calls, if r.Ok? then Pass else Fail(r.error))
    ensures r.Ok? ==> r.value
    ensures 1 <= |log| <= |old(reg.ListRunning())| + 1
    ensures log == [ShuttingDown] + StoppingLines(old(reg.ListRunning())[..|log| - 1])
    ensures r.Ok? ==> |log| == |old(reg.ListRunning())| + 1
    ensures m.clock == old(m.clock) && m.probes == old(m.probes) && m.watchers == old(m.watchers)
  {
    var names := reg.ListRunning();
    var stopped, logged := StopEach(reg, names, m);
    log := [ShuttingDown] + StoppingLines(names[..logged]);
    assert log[1..] == StoppingLines(names[..|log| - 1]);
    r := if stopped.Fail? then Err(stopped.error) else Ok(true);
  }

  /**
   * The loop of `cleanShutdown`: stop `names` in order up to the first stop
   * that throws; `logged` counts the "Stopping" bullets, one per stop tried.
   */
  method StopEach(reg: EmulatorRegistry, names: seq<Emulator>, m: Machine) returns (r: Outcome<EmulatorError>, logged: nat)
    requires reg.Valid()
    modifies reg, m
    ensures reg.Valid()
    ensures StopSequence(old(reg.instances), old(m.calls), names, m.stopFails) == Stopping(reg.instances, m.calls, r)
    ensures logged <= |names| && (r.Pass? ==> logged == |names|)
    ensures m.clock == old(m.clock) && m.probes == old(m.probes) && m.watchers == old(m.watchers)
  {
    var i := 0;
    while i < |names|
      invariant 0 <= i <= |names|
      invariant reg.Valid()
      invariant StopSequence(old(reg.instances), old(m.calls), names, m.stopFails) ==
                StopSequence(reg.instances, m.calls, names[i..], m.stopFails)
      invariant m.clock == old(m.clock) && m.probes == old(m.probes) && m.watchers == old(m.watchers)
    {
      r := reg.StopStep(names, i, m);
      if r.Fail? {
        return r, i + 1;
      }
      i := i + 1;
    }
    assert names[i..] == [];
    return Pass, |names|;
  }

  /** With nothing running, a clean shutdown stops nothing and changes nothing. */
  lemma ShutdownOfNothing(inst: map<Emulator, Instance>, calls: seq<Call>, fails: set<Emulator>)
    ensures StopSequence(inst, calls, [], fails) == Stopping(inst, calls, Pass)
  {
  }

  /**
   * `startEmulator`: probe the instance's port; if it is not free, shut
   * every emulator down and reject with "port taken" without starting
   * anything; otherwise hand the instance to the registry.
   */
  method StartEmulator(reg: EmulatorRegistry, inst: Instance, m: Machine) returns (r: Outcome<EmulatorError>)
    requires reg.Valid()
    modifies reg, m
    ensures reg.Valid()
    ensures m.probe(InstanceInfo(inst).port, old(m.clock)) != Resolves ==>
      var s := StopSequence(old(reg.instances), old(m.calls), old(reg.ListRunning()), m.stopFails);
      reg.instances == s.instances && m.calls == s.calls &&
      r == (if s.outcome.Fail? then s.outcome else Fail(PortTaken(inst.name)))
    ensures m.probe(InstanceInfo(inst).port, old(m.clock)) == Resolves ==>
      (r.Pass? <==> !old(reg.IsRunning(inst.name)) && inst.name !in m.startFails &&
                    WaitFrom(m.probe, InstanceInfo(inst).port, old(m.clock), 0).closed) &&
      reg.instances == (if r.Pass? then old(reg.instances)[inst.name := inst] else old(reg.instances)) &&
      m.calls == old(m.calls) + (if old(reg.IsRunning(inst.name)) then [] else [Started(inst.name)])
    ensures old(m.calls) <= m.calls && Starts(m.calls[|old(m.calls)|..]) <= [inst.name]
    ensures Connects(m.calls[|old(m.calls)|..]) == []
    ensures r.Pass? ==> !old(reg.IsRunning(inst.name)) && m.calls == old(m.calls) + [Started(inst.name)]
    ensures r.Pass? ==> m.clock == WaitEnd(m.probe, InstanceInfo(inst).port, old(m.clock))
  {
    var info := InstanceInfo(inst);
    var free := CheckPortOpen(m, info.port);
    if !free {
      StopSequenceOnlyStops(reg.instances, m.calls, reg.ListRunning(), m.stopFails);
      var shut, _ := CleanShutdown(reg, m);
      if shut.Err? {
        return Fail(shut.error);
      }
      return Fail(PortTaken(inst.name));
    }
    ghost var calls0 := m.calls;
    r := reg.Start(inst, m);
    assert m.calls[|calls0|..] == [] || m.calls[|calls0|..] == [Started(inst.name)];
  }

  /**
   * Whether the block of `e` succeeds when the emulators `running` are
   * registered and the clock reads `t`: an emulator that is not targeted is
   * skipped; a targeted one needs its arguments, must not be running yet,
   * its own start must not throw, its port must be free when checked, and
   * the wait must then see the port taken before the timeout.
   */
  predicate BlockStarts(probe: (PortValue, nat) -> ProbeOutcome, startFails: set<Emulator>,
                        running: set<Emulator>, e: Emulator, inp: StartInputs, t: nat)
  {
    ShouldStart(inp.targets, e) ==>
      (PlannedInstance(e, inp).Ok? && e !in running && e !in startFails &&
       probe(InstanceInfo(PlannedInstance(e, inp).value).port, t) == Resolves &&
       WaitFrom(probe, InstanceInfo(PlannedInstance(e, inp).value).port, t, 0).closed)
  }

  /** The clock after a block that succeeded. */
  function BlockEnd(probe: (PortValue, nat) -> ProbeOutcome, e: Emulator, inp: StartInputs, t: nat): nat
  {
    if ShouldStart(inp.targets, e) && PlannedInstance(e, inp).Ok? then
      WaitEnd(probe, InstanceInfo(PlannedInstance(e, inp).value).port, t)
    else t
  }

  /** The registered names after a block that succeeded. */
  function BlockRunning(running: set<Emulator>, e: Emulator, inp: StartInputs): set<Emulator>
  {
    if ShouldStart(inp.targets, e) then running + {e} else running
  }

  /** Whether the blocks of `es` all succeed, run in order from `running` with the clock at `t`. */
  predicate BlocksStart(probe: (PortValue, nat) -> ProbeOutcome, startFails: set<Emulator>,
                        running: set<Emulator>, es: seq<Emulator>, inp: StartInputs, t: nat)
    decreases |es|
  {
    es == [] ||
    (BlockStarts(probe, startFails, running, es[0], inp, t) &&
     BlocksStart(probe, startFails, BlockRunning(running, es[0], inp), es[1..], inp, BlockEnd(probe, es[0], inp, t)))
  }

  /** The order of the four blocks of `startAll`. */
  const BlockOrder: seq<Emulator> := [Functions, Firestore, Database, Hosting]

  /** One block of `startAll`: build the emulator's instance if it is targeted, and start it. */
  method StartTarget(reg: EmulatorRegistry, m: Machine, e: Emulator, inp: StartInputs) returns (r: Outcome<EmulatorError>)
    requires reg.Valid()
    modifies reg, m
    ensures reg.Valid()
    ensures !ShouldStart(inp.targets, e) ==> r == Pass && reg.instances == old(reg.instances) && m.calls == old(m.calls)
    ensures ShouldStart(inp.targets, e) && PlannedInstance(e, inp).Err? ==>
      r == Fail(PlannedInstance(e, inp).error) && reg.instances == old(reg.instances) && m.calls == old(m.calls)
    ensures old(m.calls) <= m.calls && Starts(m.calls[|old(m.calls)|..]) <= Selected(inp.targets, e)
    ensures r.Pass? ==> m.calls == old(m.calls) + StartCalls(Selected(inp.targets, e))
    ensures r.Pass? ==> reg.instances == Install(old(reg.instances), Selected(inp.targets, e), inp)
    ensures r.Pass? && ShouldStart(inp.targets, e) ==> PlannedInstance(e, inp).Ok? && e !in old(reg.instances)
    ensures r.Pass? <==> BlockStarts(m.probe, m.startFails, old(reg.instances).Keys, e, inp, old(m.clock))
    ensures r.Pass? ==> m.clock == BlockEnd(m.probe, e, inp, old(m.clock))
    ensures r.Pass? ==> reg.instances.Keys == BlockRunning(old(reg.instances).Keys, e, inp)
  {
    if !ShouldStart(inp.targets, e) {
      assert m.calls[|m.calls|..] == [];
      return Pass;
    }
    var planned := PlannedInstance(e, inp);
    if planned.Err? {
      assert m.calls[|m.calls|..] == [];
      return Fail(planned.error);
    }
    assert StartCalls([e]) == [Started(e)];
    assert Install(old(reg.instances), [e], inp) == old(reg.instances)[e := planned.value] by {
      assert [e][1..] == [];
    }
    r := StartPlanned(reg, m, e, inp, planned.value);
  }

  /** A targeted block whose arguments were built: start the planned instance. */
  method StartPlanned(reg: EmulatorRegistry, m: Machine, e: Emulator, inp: StartInputs, inst: Instance)
    returns (r: Outcome<EmulatorError>)
    requires reg.Valid()
    requires ShouldStart(inp.targets, e) && PlannedInstance(e, inp) == Ok(inst)
    modifies reg, m
    ensures reg.Valid()
    ensures old(m.calls) <= m.calls && Starts(m.calls[|old(m.calls)|..]) <= [e]
    ensures r.Pass? ==> m.calls == old(m.calls) + [Started(e)]
    ensures r.Pass? ==> reg.instances == old(reg.instances)[e := inst] && e !in old(reg.instances)
    ensures r.Pass? <==> BlockStarts(m.probe, m.startFails, old(reg.instances).Keys, e, inp, old(m.clock))
    ensures r.Pass? ==> m.clock == BlockEnd(m.probe, e, inp, old(m.clock))
  {
    r := StartEmulator(reg, inst, m);
  }

  /**
   * The registry after the emulators `es` were started in order from
   * `base`: each one whose arguments could be built is filed under its name.
   */
  function Install(base: map<Emulator, Instance>, es: seq<Emulator>, inp: StartInputs): map<Emulator, Instance>
    decreases |es|
  {
    if es == [] then base
    else
      var p := PlannedInstance(es[0], inp);
      Install(if p.Ok? then base[es[0] := p.value] else base, es[1..], inp)
  }

  /**
   * After starting `es`, an emulator is registered iff it was before or it
   * was started; a started one holds its planned instance, and every other
   * entry is unchanged.
   */
  lemma {:induction false} InstallSpec(base: map<Emulator, Instance>, es: seq<Emulator>, inp: StartInputs)
    ensures forall e :: e in Install(base, es, inp) <==> e in base || (e in es && PlannedInstance(e, inp).Ok?)
    ensures forall e :: e in es && PlannedInstance(e, inp).Ok? ==> Install(base, es, inp)[e] == PlannedInstance(e, inp).value
    ensures forall e :: e !in es && e in base ==> Install(base, es, inp)[e] == base[e]
    decreases |es|
  {
    if es != [] {
      var p := PlannedInstance(es[0], inp);
      var b1 := if p.Ok? then base[es[0] := p.value] else base;
      InstallSpec(b1, es[1..], inp);
      forall e | e in es ensures e == es[0] || e in es[1..] {
        var i :| 0 <= i < |es| && es[i] == e;
        if i > 0 { assert es[1..][i - 1] == e; }
      }
    }
  }

  lemma {:induction false} InstallConcat(base: map<Emulator, Instance>, a: seq<Emulator>, b: seq<Emulator>, inp: StartInputs)
    ensures Install(base, a + b, inp) == Install(Install(base, a, inp), b, inp)
    decreases |a|
  {
    if a != [] {
      var p := PlannedInstance(a[0], inp);
      assert (a + b)[1..] == a[1..] + b;
      InstallConcat(if p.Ok? then base[a[0] := p.value] else base, a[1..], b, inp);
    } else {
      assert a + b == b;
    }
  }

  /** The state of `startAll` once the emulators `done` have been started from `i0` and `c0`. */
  ghost predicate Progress(i0: map<Emulator, Instance>, c0: seq<Call>, inst: map<Emulator, Instance>, calls: seq<Call>,
                           done: seq<Emulator>, inp: StartInputs)
  {
    inst == Install(i0, done, inp) && calls == c0 + StartCalls(done) &&
    forall e :: e in done ==> PlannedInstance(e, inp).Ok? && e !in i0
  }

  /** A block that succeeded extends the progress by its own emulator. */
  lemma StepProgress(i0: map<Emulator, Instance>, c0: seq<Call>, inst: map<Emulator, Instance>, calls: seq<Call>,
                     done: seq<Emulator>, e: Emulator, inst': map<Emulator, Instance>, calls': seq<Call>, inp: StartInputs)
    requires Progress(i0, c0, inst, calls, done, inp)
    requires inst' == Install(inst, Selected(inp.targets, e), inp)
    requires calls' == calls + StartCalls(Selected(inp.targets, e))
    requires ShouldStart(inp.targets, e) ==> PlannedInstance(e, inp).Ok? && e !in inst
    ensures Progress(i0, c0, inst', calls', done + Selected(inp.targets, e), inp)
  {
    var sel := Selected(inp.targets, e);
    InstallConcat(i0, done, sel, inp);
    StartCallsConcat(done, sel);
    AppendAssoc(c0, StartCalls(done), StartCalls(sel));
    InstallSpec(i0, done, inp);
  }

  /** The options object; `startAll` records the selected targets in it. */
  class Options {
    var targets: seq<string>

    constructor(targets: seq<string>)
      ensures this.targets == targets
    {
      this.targets := targets;
    }
  }

  /**
   * One block of `startAll` in the middle of a run that started from
   * registry `i0` and trace `c0` and has launched `done` so far.
   */
  method StartNext(reg: EmulatorRegistry, m: Machine, e: Emulator, inp: StartInputs,
                   ghost i0: map<Emulator, Instance>, ghost c0: seq<Call>,
                   ghost done: seq<Emulator>, ghost plan: seq<Emulator>, ghost blocks: seq<Emulator>)
    returns (r: Outcome<EmulatorError>)
    requires reg.Valid()
    requires Progress(i0, c0, reg.instances, m.calls, done, inp)
    requires done + Selected(inp.targets, e) <= plan
    modifies reg, m
    ensures reg.Valid()
    ensures c0 <= m.calls && Starts(m.calls[|c0|..]) <= plan
    ensures r.Pass? ==> Progress(i0, c0, reg.instances, m.calls, done + Selected(inp.targets, e), inp)
    requires blocks != [] && blocks[0] == e
    ensures r.Fail? ==> !BlocksStart(m.probe, m.startFails, old(reg.instances).Keys, blocks, inp, old(m.clock))
    ensures r.Pass? ==>
      (BlocksStart(m.probe, m.startFails, old(reg.instances).Keys, blocks, inp, old(m.clock)) <==>
       BlocksStart(m.probe, m.startFails, reg.instances.Keys, blocks[1..], inp, m.clock))
  {
    ghost var inst, calls := reg.instances, m.calls;
    r := StartTarget(reg, m, e, inp);
    StartsStep(c0, calls, m.calls, done, Selected(inp.targets, e), plan);
    if r.Pass? {
      StepProgress(i0, c0, inst, calls, done, e, reg.instances, m.calls, inp);
    }
  }

  /**
   * The four blocks of `startAll`, in order; the first one that fails ends
   * the run.
   */
  method StartTargets(reg: EmulatorRegistry, m: Machine, inp: StartInputs) returns (r: Outcome<EmulatorError>)
    requires reg.Valid()
    modifies reg, m
    ensures reg.Valid()
    ensures old(m.calls) <= m.calls && Starts(m.calls[|old(m.calls)|..]) <= StartPlan(inp.targets)
    ensures r.Pass? ==> Progress(old(reg.instances), old(m.calls), reg.instances, m.calls, StartPlan(inp.targets), inp)
    ensures r.Pass? <==> BlocksStart(m.probe, m.startFails, old(reg.instances).Keys, BlockOrder, inp, old(m.clock))
  {
    var t := inp.targets;
    ghost var plan := StartPlan(t);
    ghost var c0, i0 := m.calls, reg.instances;
    ghost var p1 := Selected(t, Functions);
    ghost var p2 := p1 + Selected(t, Firestore);
    ghost var p3 := p2 + Selected(t, Database);
    assert p3 + Selected(t, Hosting) == plan;
    assert p2 <= plan && p3 <= plan;
    assert [] + p1 == p1 && p1 <= plan;
    assert Progress(i0, c0, i0, c0, [], inp) by { assert c0 + [] == c0; }

    ghost var b := BlockOrder;
    r := StartNext(reg, m, Functions, inp, i0, c0, [], plan, b);
    if r.Fail? { return; }
    r := StartNext(reg, m, Firestore, inp, i0, c0, p1, plan, b[1..]);
    if r.Fail? { return; }
    r := StartNext(reg, m, Database, inp, i0, c0, p2, plan, b[1..][1..]);
    if r.Fail? { return; }
    r := StartNext(reg, m, Hosting, inp, i0, c0, p3, plan, b[1..][1..][1..]);
    assert b[1..][1..][1..][1..] == [];
  }

  /**
   * Prefix bookkeeping for one block: if the trace so far started `done`,
   * the block started a prefix of `next`, and `done + next` is a prefix of
   * the plan, the whole run started a prefix of the plan.
   */
  lemma StartsStep(c0: seq<Call>, cmid: seq<Call>, cend: seq<Call>,
                   done: seq<Emulator>, next: seq<Emulator>, plan: seq<Emulator>)
    requires cmid == c0 + StartCalls(done)
    requires cmid <= cend && Starts(cend[|cmid|..]) <= next
    requires done + next <= plan
    ensures c0 <= cend && Starts(cend[|c0|..]) <= plan
  {
    assert cend == cmid + cend[|cmid|..];
    assert cend[|c0|..] == StartCalls(done) + cend[|cmid|..];
    ProjectionsAppend(StartCalls(done), cend[|cmid|..]);
    StartCallsProjections(done);
    var x := Starts(cend[|cmid|..]);
    assert (done + x) == (done + next)[..|done| + |x|];
  }

  /** Connect calls after the planned starts add no starts. */
  lemma ConnectsAfterStarts(c0: seq<Call>, c1: seq<Call>, plan: seq<Emulator>, done: seq<Emulator>)
    requires c1 == c0 + StartCalls(plan)
    ensures c0 <= c1 + ConnectCalls(done)
    ensures Starts((c1 + ConnectCalls(done))[|c0|..]) == plan
  {
    DropAppend(c1, ConnectCalls(done), |c0|);
    assert c1[|c0|..] == StartCalls(plan);
    ProjectionsAppend(StartCalls(plan), ConnectCalls(done));
    StartCallsProjections(plan);
    ConnectCallsProjections(done);
  }

  /** The emulators whose `connect` throws: the database emulator's never does. */
  function ConnectThrows(m: Machine): set<Emulator>
  {
    m.connectFails - {Database}
  }

  /**
   * Connecting `names` in order: every name is called, and the first
   * `connect` that throws ends the pass with its error.
   */
  function ConnectSequence(calls: seq<Call>, names: seq<Emulator>, throws: set<Emulator>): (seq<Call>, Outcome<EmulatorError>)
    decreases |names|
  {
    if names == [] then (calls, Pass)
    else if names[0] in throws then (calls + [Connected(names[0])], Fail(ConnectFailed(names[0])))
    else ConnectSequence(calls + [Connected(names[0])], names[1..], throws)
  }

  /**
   * The connect pass succeeds iff no connect throws; it connects the names
   * up to and including the first that throws, in order, and reports that one.
   */
  lemma {:induction false} ConnectSequenceOutcome(calls: seq<Call>, names: seq<Emulator>, throws: set<Emulator>)
    ensures var k := FirstFailure(names, throws);
      var (c, r) := ConnectSequence(calls, names, throws);
      (r.Pass? <==> k == |names|) &&
      (r.Fail? ==> r.error == ConnectFailed(names[k])) &&
      c == calls + ConnectCalls(names[..if k < |names| then k + 1 else k])
    decreases |names|
  {
    if names != [] && names[0] in throws {
      assert names[..1] == [names[0]];
    } else if names != [] {
      var rest := names[1..];
      ConnectSequenceOutcome(calls + [Connected(names[0])], rest, throws);
      var k' := FirstFailure(rest, throws);
      var n := if k' < |rest| then k' + 1 else k';
      assert names[..n + 1] == [names[0]] + rest[..n];
      assert ConnectCalls(names[..n + 1]) == [Connected(names[0])] + ConnectCalls(rest[..n]);
      AppendAssoc(calls, [Connected(names[0])], ConnectCalls(rest[..n]));
    }
  }

  /** One turn of the connect loop: connect the running instance registered under `names[i]` (the loop only visits running emulators, so its `if (instance)` always holds). */
  method ConnectStep(reg: EmulatorRegistry, m: Machine, names: seq<Emulator>, i: nat) returns (r: Outcome<EmulatorError>)
    requires reg.Valid() && i < |names| && reg.IsRunning(names[i])
    modifies m
    ensures r.Fail? ==> ConnectSequence(old(m.calls), names[i..], ConnectThrows(m)) == (m.calls, r)
    ensures r.Pass? ==>
      ConnectSequence(old(m.calls), names[i..], ConnectThrows(m)) ==
      ConnectSequence(m.calls, names[i + 1..], ConnectThrows(m))
    ensures m.clock == old(m.clock) && m.probes == old(m.probes) && m.watchers == old(m.watchers)
  {
    assert names[i..][1..] == names[i + 1..];
    var inst := reg.Get(names[i]);
    var ok := m.InvokeConnect(inst.value.name);
    r := if ok then Pass else Fail(ConnectFailed(names[i]));
  }

  /**
   * The connect pass of `startAll`: connect every running instance in
   * `listRunning` order, ending at the first `connect` that throws.
   */
  method ConnectAll(reg: EmulatorRegistry, m: Machine) returns (r: Outcome<EmulatorError>)
    requires reg.Valid()
    modifies m
    ensures ConnectSequence(old(m.calls), reg.ListRunning(), ConnectThrows(m)) == (m.calls, r)
    ensures m.clock == old(m.clock) && m.probes == old(m.probes) && m.watchers == old(m.watchers)
  {
    var names := reg.ListRunning();
    var i := 0;
    while i < |names|
      invariant 0 <= i <= |names|
      invariant ConnectSequence(old(m.calls), names, ConnectThrows(m)) ==
                ConnectSequence(m.calls, names[i..], ConnectThrows(m))
      invariant m.clock == old(m.clock) && m.probes == old(m.probes) && m.watchers == old(m.watchers)
    {
      r := ConnectStep(reg, m, names, i);
      if r.Fail? {
        return;
      }
      i := i + 1;
    }
    r := Pass;
  }

  /**
   * The connect pass of `startAll` once the planned emulators have been
   * started: it succeeds iff no running emulator's `connect` throws, and
   * then has connected each running one in `listRunning` order.
   */
  method ConnectStarted(reg: EmulatorRegistry, m: Machine, ghost c0: seq<Call>, ghost plan: seq<Emulator>)
    returns (r: Outcome<EmulatorError>)
    requires reg.Valid()
    requires m.calls == c0 + StartCalls(plan)
    modifies m
    ensures c0 <= m.calls && Starts(m.calls[|c0|..]) == plan
    ensures r.Pass? <==> forall e :: e in reg.instances ==> e !in ConnectThrows(m)
    ensures r.Pass? ==> m.calls == c0 + StartCalls(plan) + ConnectCalls(reg.ListRunning())
  {
    ghost var c1 := m.calls;
    r := ConnectAll(reg, m);
    ghost var names := reg.ListRunning();
    ConnectSequenceOutcome(c1, names, ConnectThrows(m));
    ghost var k := FirstFailure(names, ConnectThrows(m));
    ghost var done := names[..if k < |names| then k + 1 else k];
    ConnectsAfterStarts(c0, c1, plan, done);
    if r.Pass? {
      assert done == names;
      forall e | e in reg.instances ensures e !in ConnectThrows(m) {
        var i :| 0 <= i < |names| && names[i] == e;
      }
    } else {
      assert names[k] in reg.instances && names[k] in ConnectThrows(m);
    }
  }

  /**
   * `startAll`: record the targets in the options, warn about ignored
   * `--only` names, start the targeted emulators in order, then connect
   * every running emulator. It succeeds exactly when every block starts its
   * emulator and no connect throws; a run that succeeds made exactly the
   * planned starts followed by one connect per running emulator.
   */
  method StartAll(reg: EmulatorRegistry, m: Machine, opts: Options, only: Option<string>, inp: StartInputs)
    returns (r: Outcome<EmulatorError>, ignored: seq<string>)
    requires reg.Valid()
    modifies reg, m, opts
    ensures reg.Valid()
    ensures opts.targets == inp.targets
    ensures ignored == IgnoredTargets(only, inp.targets)
    ensures old(m.calls) <= m.calls && Starts(m.calls[|old(m.calls)|..]) <= StartPlan(inp.targets)
    ensures r.Pass? <==>
      BlocksStart(m.probe, m.startFails, old(reg.instances).Keys, BlockOrder, inp, old(m.clock)) &&
      forall e :: e in Install(old(reg.instances), StartPlan(inp.targets), inp) ==> e !in ConnectThrows(m)
    ensures r.Pass? ==>
      m.calls == old(m.calls) + StartCalls(StartPlan(inp.targets)) + ConnectCalls(reg.ListRunning())
    ensures r.Pass? ==> reg.instances == Install(old(reg.instances), StartPlan(inp.targets), inp)
    ensures r.Pass? ==> forall e :: e in StartPlan(inp.targets) ==>
      PlannedInstance(e, inp).Ok? && e !in old(reg.instances)
  {
    opts.targets := inp.targets;
    ignored := IgnoredTargets(only, inp.targets);
    r := StartTargets(reg, m, inp);
    if r.Fail? {
      return;
    }
    r := ConnectStarted(reg, m, old(m.calls), StartPlan(inp.targets));
  }
}
