/**
 * `emulators:exec`: start the emulators, run a script with the emulators'
 * addresses in its environment, and always shut the emulators down.
 */
module EmulatorsExec {
  import opened Wrappers
  import opened EmulatorTypes
  import opened World
  import opened Registry
  import opened Controller
  import DatabaseEmulator

  /**
   * `FirestoreEmulator.FIRESTORE_EMULATOR_ENV` and `..._ENV_ALT`. They are
   * declared in lib/emulator/firestoreEmulator.js, which is not part of this
   * model; only their being two different names matters here.
   */
  const FirestoreEnv: string := "FIRESTORE_EMULATOR_HOST"
  const FirestoreEnvAlt: string := "FIREBASE_FIRESTORE_EMULATOR_ADDRESS"

  /** `${info.host}:${info.port}`. */
  function HostPort(a: Address): string
  {
    a.host + ":" + DatabaseEmulator.PortText(a.port)
  }

  /** The environment variables the script gets on top of the process environment. */
  predicate Injected(reg: EmulatorRegistry, k: string)
    reads reg
  {
    (k == DatabaseEmulator.DatabaseEmulatorEnv && reg.IsRunning(Database)) ||
    ((k == FirestoreEnv || k == FirestoreEnvAlt) && reg.IsRunning(Firestore))
  }

  /** How the script's child process ended. */
  datatype ScriptEvent =
    | SpawnError                                 // the process emitted "error"
    | Exit(code: Option<int>, signal: Option<string>)

  /** Errors of `emulators:exec` itself. */
  datatype ExecError =
    | EmulatorFailure(error: EmulatorError)   // rethrown from `startAll` or `cleanShutdown`
    | ScriptRejected                          // the script's promise rejected
    | ScriptFailed(exit: int)                 // `Script "..." exited with code N`, with `exit: N`

  /**
   * The settlement of `runScript`'s promise: a spawn error or an exit by
   * signal rejects; otherwise it resolves to the exit code, `null` read as 0.
   */
  function ScriptResult(ev: ScriptEvent): (r: Result<int, ExecError>)
    ensures r.Err? <==> ev.SpawnError? || (ev.signal.Some? && ev.signal.value != "")
    ensures r.Err? ==> r.error == ScriptRejected
    ensures r.Ok? && ev.code.Some? ==> r.value == ev.code.value
    ensures r.Ok? && ev.code.None? ==> r.value == 0
  {
    match ev
    case SpawnError => Err(ScriptRejected)
    case Exit(code, signal) =>
      if signal.Some? && signal.value != "" then Err(ScriptRejected)
      else Ok(if code.Some? then code.value else 0)
  }

  /** A script counts as successful exactly when it exits without a signal and with code 0 or no code. */
  lemma ScriptSucceedsIff(ev: ScriptEvent)
    ensures ScriptResult(ev) == Ok(0) <==>
      ev.Exit? && (ev.signal.None? || ev.signal.value == "") && (ev.code.None? || ev.code.value == 0)
  {
  }

  /**
   * `runScript`: copy the process environment, add the database and
   * firestore addresses of the emulators that are running, and run the
   * script with that environment.
   */
  method RunScript(reg: EmulatorRegistry, processEnv: map<string, string>, ev: ScriptEvent)
    returns (r: Result<int, ExecError>, env: map<string, string>)
    ensures r == ScriptResult(ev)
    ensures forall k :: k in env <==> k in processEnv || Injected(reg, k)
    ensures forall k :: k in processEnv && !Injected(reg, k) ==> env[k] == processEnv[k]
    ensures reg.IsRunning(Database) ==>
      (DatabaseEmulator.DatabaseEmulatorEnv in env &&
       env[DatabaseEmulator.DatabaseEmulatorEnv] == HostPort(InstanceInfo(reg.instances[Database])))
    ensures reg.IsRunning(Firestore) ==>
      (FirestoreEnv in env && FirestoreEnvAlt in env &&
       env[FirestoreEnv] == HostPort(InstanceInfo(reg.instances[Firestore])) &&
       env[FirestoreEnvAlt] == env[FirestoreEnv])
  {
    env := processEnv;
    var databaseInstance := reg.Get(Database);
    if databaseInstance.Some? {
      var address := HostPort(InstanceInfo(databaseInstance.value));
      env := env[DatabaseEmulator.DatabaseEmulatorEnv := address];
    }
    var firestoreInstance := reg.Get(Firestore);
    if firestoreInstance.Some? {
      var address := HostPort(InstanceInfo(firestoreInstance.value));
      env := env[FirestoreEnv := address];
      env := env[FirestoreEnvAlt := address];
    }
    r := ScriptResult(ev);
  }

  /** What the action settles to once the shutdown has succeeded. */
  function AfterShutdown(started: Outcome<EmulatorError>, ev: ScriptEvent): (r: Outcome<ExecError>)
    ensures r.Pass? <==> started.Pass? && ScriptResult(ev) == Ok(0)
    ensures started.Fail? ==> r == Fail(EmulatorFailure(started.error))
    ensures started.Pass? && ScriptResult(ev).Ok? && ScriptResult(ev).value != 0 ==>
      r == Fail(ScriptFailed(ScriptResult(ev).value))
  {
    if started.Fail? then Fail(EmulatorFailure(started.error))
    else match ScriptResult(ev)
      case Err(e) => Fail(e)
      case Ok(code) => if code != 0 then Fail(ScriptFailed(code)) else Pass
  }

  /**
   * A shutdown from any registry state stops everything it can: it empties
   * the registry exactly when it succeeds, and always when no stop throws.
   */
  lemma {:induction false} ShutdownEmptiesIff(reg: EmulatorRegistry, calls: seq<Call>, fails: set<Emulator>)
    ensures var s := StopSequence(reg.instances, calls, reg.ListRunning(), fails);
      (s.outcome.Pass? <==> s.instances == map[]) &&
      (fails == {} ==> s.instances == map[])
  {
    var names := reg.ListRunning();
    reg.ListRunningInOrder();
    assert forall j :: 0 <= j < |names| ==> names[j] in reg.instances;
    StopSequenceOutcome(reg.instances, calls, names, fails);
    StopSequenceRemoves(reg.instances, calls, names, fails);
    var k := FirstFailure(names, fails);
    var s := StopSequence(reg.instances, calls, names, fails);
    if k == |names| {
      assert names[..k] == names;
      assert Elems(names) == reg.instances.Keys;
    } else {
      assert names[k] in s.instances by {
        assert names[k] !in Elems(names[..k]);
      }
    }
  }

  /**
   * The `emulators:exec` action: start everything, run the script, and in
   * every case shut the emulators down; an error of the shutdown replaces
   * any earlier one, then a start error or script rejection is rethrown,
   * and finally a nonzero exit code becomes an error carrying that code.
   */
  method Exec(reg: EmulatorRegistry, m: Machine, opts: Options, only: Option<string>, inp: StartInputs,
              processEnv: map<string, string>, ev: ScriptEvent)
    returns (r: Outcome<ExecError>, ghost started: Outcome<EmulatorError>, ghost stopped: Stopping)
    requires reg.Valid()
    modifies reg, m, opts
    ensures reg.Valid()
    ensures reg.instances == stopped.instances && m.calls == stopped.calls
    ensures stopped.outcome.Fail? ==> r == Fail(EmulatorFailure(stopped.outcome.error))
    ensures stopped.outcome.Pass? ==> r == AfterShutdown(started, ev)
    ensures stopped.outcome.Pass? <==> reg.instances == map[]
    ensures m.stopFails == {} ==> reg.instances == map[]
    ensures r.Pass? ==> reg.instances == map[] && started.Pass? && ScriptResult(ev) == Ok(0)
    ensures started.Pass? <==>
      BlocksStart(m.probe, m.startFails, old(reg.instances).Keys, BlockOrder, inp, old(m.clock)) &&
      forall e :: e in Install(old(reg.instances), StartPlan(inp.targets), inp) ==> e !in ConnectThrows(m)
    ensures started.Pass? ==>
      var running := Install(old(reg.instances), StartPlan(inp.targets), inp);
      var names := FilterRunning(AllEmulators, running.Keys);
      stopped == StopSequence(running, old(m.calls) + StartCalls(StartPlan(inp.targets)) + ConnectCalls(names),
                              names, m.stopFails)
  {
    var exitCode := 0;
    var failure: Option<ExecError> := None;
    var s, _ := StartAll(reg, m, opts, only, inp);
    started := s;
    if s.Fail? {
      failure := Some(EmulatorFailure(s.error));
    } else {
      var res, _ := RunScript(reg, processEnv, ev);
      if res.Err? {
        failure := Some(res.error);
      } else {
        exitCode := res.value;
      }
    }
    ShutdownEmptiesIff(reg, m.calls, m.stopFails);
    stopped := StopSequence(reg.instances, m.calls, reg.ListRunning(), m.stopFails);
    var shut, _ := CleanShutdown(reg, m);
    if shut.Err? {
      return Fail(EmulatorFailure(shut.error)), started, stopped;
    }
    if failure.Some? {
      return Fail(failure.value), started, stopped;
    }
    if exitCode != 0 {
      return Fail(ScriptFailed(exitCode)), started, stopped;
    }
    r := Pass;
  }
}
