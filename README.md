# Firebase CLI core: a Dafny model

This project models the core of the Firebase command-line tool.

The main part is the local emulator suite:
- the registry that holds at most one running instance per emulator;
- the controller:
  - the pre-flight port check;
  - the bounded wait for a port to be released (250 ms steps up to 30 s);
  - startup in the fixed order functions, firestore, database, hosting;
  - wiring the functions address into the database emulator's arguments;
  - the connect pass;
  - the clean shutdown;
- the emulator address constants and host normalisation;
- the emulator server wrapper, the database emulator's info and rules push, and `emulators:exec`;
- the functions shell's trigger lookup, and the helpers of the functions runtime;
- the argument defaults of `serve` for functions.

Beside it sit the sequential helpers of the deploy and config commands:
- function-name, region and filter-group handling, and the poll-interval tiers;
- the create/update/delete partition of a functions release;
- runtime-config key parsing and config cloning;
- deploy-target bookkeeping in `.firebaserc` data;
- mapping an HTTP response to an error, and building a request;
- emulator log verbosity;
- deploy phase sequencing;
- rules compilation checks and ruleset garbage collection;
- resolving the active project;
- the `serve` and `firestore:delete` commands.

Each JavaScript file of the core has its own Dafny module:

- `EmulatorTypes` (emulator_types.dfy): the emulator names, shared by the emulator files
- `Constants` (constants.dfy): lib/emulator/constants.js
- `DatabaseEmulator` (database_emulator.dfy): lib/emulator/databaseEmulator.js
- `World` (world.dfy): the environment of the emulators (ports, clock, emulator processes)
- `PortWait` (port_wait.dfy): the port check and port wait of lib/emulator/controller.js
- `Registry` (registry.dfy): lib/emulator/registry.js
- `Controller` (controller.dfy): lib/emulator/controller.js
- `Server` (emulator_server.dfy): lib/emulator/emulatorServer.js
- `EmulatorsExec` (emulators_exec.dfy): lib/commands/emulators-exec.js
- `FunctionsShell` (functions_shell.dfy): lib/emulator/functionsEmulatorShell.js
- `FunctionsRuntime` (functions_runtime.dfy): lib/emulator/functionsEmulatorRuntime.js
- `ServeFunctions` (serve_functions.dfy): lib/serve/functions.js
- `FunctionsDeployHelper` (functions_deploy_helper.dfy): lib/functionsDeployHelper.js
- `Release` (release.dfy): lib/deploy/functions/release.js
- `FunctionsConfig` (functions_config.dfy): lib/functionsConfig.js
- `FunctionsConfigClone` (functions_config_clone.dfy): lib/functionsConfigClone.js
- `Rc` (rc.dfy): lib/rc.js
- `ResponseToError` (response_to_error.dfy): lib/responseToError.js
- `Api` (api.dfy): lib/api.js
- `EmulatorLogger` (emulator_logger.dfy): lib/emulator/emulatorLogger.js
- `GetProjectId` (get_project_id.dfy): lib/getProjectId.js
- `DeployIndex` (deploy_index.dfy): lib/deploy/index.js
- `RulesDeploy` (rules_deploy.dfy): lib/RulesDeploy.js
- `ServeCommand` (serve_command.dfy): lib/commands/serve.js
- `FirestoreDelete` (firestore_delete.dfy): lib/commands/firestore-delete.js

`World` holds what the emulators cannot see themselves:
- the port probe, as a function of port and clock;
- which start, stop and connect calls throw;
- a clock that sleeps advance;
- a trace of the calls made.

Five helper modules give the JavaScript values their shape:
- `Wrappers`: Option, Result and Outcome;
- `Strs`: split, join and substring search;
- `Lists`: sorting, deduplication and set-like operations;
- `OMaps`: string-keyed maps that keep insertion order, as JavaScript objects do for keys that are not integer-like;
- `Json`: nested values with lodash-style deep-path get, set and unset.

Where the code mutates state, the model uses classes with `modifies` clauses:
- the registry's instance map;
- the `.firebaserc` data;
- the rules deploy bookkeeping;
- the API module's tokens and scopes;
- the server and `serve` option objects.

Loops become methods with invariants, proved against a specification function. Pure helpers become functions, and lemmas state their properties.

## Model

| member | source | states |
|---|---|---|
| Constants.DefaultPortsDistinct | lib/emulator/constants.js:4-9 | the default ports are hosting 5000, functions 5001, firestore 8080 and database 9000, and no two emulators share one |
| Constants.GetDefaultHost | lib/emulator/constants.js:22-24 | the default host is "localhost" for every emulator |
| Constants.GetServiceName | lib/emulator/constants.js:12-21 | "firestore.googleapis.com" maps to "firestore", "firebaseio.com" to "database", and any other service to itself |
| Constants.KeyPaths | lib/emulator/constants.js:28-33 | the host and port keys are the dotted paths emulators.<name>.host and emulators.<name>.port |
| Constants.HostAndPortKeysDiffer | lib/emulator/constants.js:28-33 | no emulator's host key is any emulator's port key |
| Constants.ParseIntOfDigits | lib/emulator/constants.js:38 | `parseInt` of a decimal port, with or without trailing text that does not start with a digit, gives that number back |
| Constants.ParseIntNaN | lib/emulator/constants.js:38 | `parseInt` of text that starts with no digit, sign or blank is NaN |
| Constants.NormalizeHost | lib/emulator/constants.js:41-48 | the normalised host is never empty (the fallback is "localhost") |
| Constants.NormalizePlainHost | lib/emulator/constants.js:41-48 | a bare lower-case host name normalises to itself, with or without an "http://" prefix |
| Constants.NormalizeHostWithPort | lib/emulator/constants.js:41-48 | a ":port" suffix is dropped from the host |
| Constants.NormalizeBareAndUrlAgree | lib/emulator/constants.js:41-46 | a value without a scheme and the same value behind "http://" normalise alike |
| Constants.LocalhostIsNormal | lib/emulator/constants.js:41-48 | "localhost" normalises to itself |
| Constants.GetAddress | lib/emulator/constants.js:34-40 | the address fails exactly when the configured host is not text; otherwise its host is the configured host or "localhost", normalised (non-empty), and its port is `parseInt` of the configured port or the default port |
| Constants.GetAddressDefaults | lib/emulator/constants.js:34-40 | with nothing configured the address is ("localhost", the default port) |
| Constants.GetAddressNonNumericPort | lib/emulator/constants.js:34-40 | a non-numeric configured port gives NaN and no error |
| DatabaseEmulator.GetInfo | lib/emulator/databaseEmulator.js:56-63 | an empty or absent host falls back to "localhost" and a falsy port to 9000; a given host and port are kept |
| DatabaseEmulator.GetInfoKeepsGiven | lib/emulator/databaseEmulator.js:56-63 | a non-empty host and a non-zero port given in the arguments are reported unchanged |
| DatabaseEmulator.RulesWatchPath | lib/emulator/databaseEmulator.js:27-29 | a rules watcher is installed, on the rules path, exactly when both the rules path and the project id are set |
| DatabaseEmulator.RulesRequest | lib/emulator/databaseEmulator.js:67-73 | the rules push is a PUT of the new content with the header "Authorization: Bearer owner" to http://<host>:<port>/.settings/rules.json?ns=<project id> for the emulator's own host and port |
| DatabaseEmulator.RulesRequestAddress | lib/emulator/databaseEmulator.js:71 | the push URI starts with the emulator's own host and carries the rules path with the project's namespace |
| DatabaseEmulator.RulesUriDefaults | lib/emulator/databaseEmulator.js:68-71 | with no address given the push goes to http://localhost:9000/.settings/rules.json?ns=<project> |
| DatabaseEmulator.UpdateRules | lib/emulator/databaseEmulator.js:74-84 | the push resolves exactly on status 200; a transport error rejects with the `Error` object; another status rejects with the body's `error` property, which may be undefined or any JSON value; a body that is not JSON, or is `null`, throws inside the callback and the push never settles |
| DatabaseEmulator.OnRulesChange | lib/emulator/databaseEmulator.js:30-41 | the watcher logs the change, then "Rules updated." on success, or the trimmed error and "Failed to update rules" when the rejection is a string; any other rejection makes `trim` throw in the `catch`, so the handler rejects with no warning; a push that never settles leaves the handler pending |
| DatabaseEmulator.TransportErrorEscapes | lib/emulator/databaseEmulator.js:67-90 | a transport failure escapes the handler with only the change logged |
| DatabaseEmulator.OnRulesChangeCorrected | lib/emulator/databaseEmulator.js:37-40 | every rejection is reported with its text and the two warnings, and the handler ends unless the push never settles |
| DatabaseEmulator.OnRulesChangeCorrectedAgrees | lib/emulator/databaseEmulator.js:30-41 | unless the rejection is a non-string, the handler as written does not reject and does what the corrected one does |
| World.WatchOf | lib/emulator/databaseEmulator.js:27-29 | starting an instance installs one rules watcher, on its rules path, exactly when it is a database emulator with both a rules path and a project id |
| World.Machine.InvokeStart | lib/emulator/databaseEmulator.js:25-45 | the watcher is installed before the emulator process is launched, so it stays when the launch fails; the start is recorded in the trace |
| World.Machine.InvokeConnect | lib/emulator/databaseEmulator.js:46-50 | the database emulator's `connect` always succeeds; the call is recorded |
| PortWait.CheckPortOpen | lib/emulator/controller.js:30-40 | the port is reported open exactly when the probe resolves; a rejected probe gives false and never an error |
| PortWait.WaitStopsAtFirstTaken | lib/emulator/controller.js:42-57 | the wait returns at the first probe that finds the port taken; without one it makes exactly the probes that fit before the timeout |
| PortWait.WaitClosedIff | lib/emulator/controller.js:42-57 | the wait succeeds exactly when one of the probes made every 250 ms within 30000 ms finds the port taken |
| PortWait.WaitProbesBounded | lib/emulator/controller.js:44-47 | a wait makes between 1 and 30000 / 250 = 120 probes |
| PortWait.WaitForPortClosed | lib/emulator/controller.js:42-57 | the loop agrees with the wait specification: it succeeds exactly when a probe finds the port taken, otherwise it fails with a timeout error naming the port and the 30000 ms; it makes the specified number of probes and sleeps 250 ms between them, so the clock ends where the wait specification says |
| Registry.FilterRunning | lib/emulator/registry.js:51-53 | the filtered list holds exactly the names of the order that are running |
| Registry.FilterKeepsRank | lib/emulator/registry.js:51-53 | filtering keeps the `ALL_EMULATORS` order, so the running list has no duplicates |
| Registry.StopSequenceOutcome | lib/emulator/registry.js:40-46 | stopping distinct running names in turn succeeds iff no stop throws; a failure names the first emulator whose stop throws, and every name up to and including it is stopped, in order |
| Registry.StopSequenceRemoves | lib/emulator/registry.js:30-46 | a run of stops removes exactly the names before the first failing stop; the failing one stays registered |
| Registry.StopSequenceOnlyStops | lib/emulator/registry.js:40-46 | a run of stops only adds stop calls; it starts and connects nothing |
| Registry.StopSequenceEmpties | lib/emulator/registry.js:40-46 | when every stop succeeds, stopping all running names empties the table |
| Registry.EmulatorRegistry.constructor | lib/emulator/registry.js:72 | the table starts empty |
| Registry.EmulatorRegistry.ListRunning | lib/emulator/registry.js:51-53 | the running list holds exactly the running names |
| Registry.EmulatorRegistry.ListRunningInOrder | lib/emulator/registry.js:51-53 | the running list is in `ALL_EMULATORS` order and has no duplicates |
| Registry.EmulatorRegistry.Get | lib/emulator/registry.js:54-56 | `get` returns the registered instance exactly when the name is running |
| Registry.EmulatorRegistry.GetPort | lib/emulator/registry.js:57-63 | `getPort` is undefined exactly when the name is not running, otherwise the instance's port |
| Registry.EmulatorRegistry.Set | lib/emulator/registry.js:64-66 | `set` files the instance under the name and changes no other entry |
| Registry.EmulatorRegistry.Clear | lib/emulator/registry.js:67-69 | `clear` removes exactly that name |
| Registry.EmulatorRegistry.Start | lib/emulator/registry.js:18-29 | a running name is refused with "already running" and nothing changes; otherwise the instance is started and its port awaited, and it is recorded only if both succeed, after which it is running and `get` returns it, with the clock where the port wait ended; a failure adds no entry |
| Registry.EmulatorRegistry.Stop | lib/emulator/registry.js:30-39 | a name that is not running is a no-op; otherwise the instance is stopped and its entry removed only when the stop completes; a throwing stop leaves the entry |
| Registry.EmulatorRegistry.StopStep | lib/emulator/registry.js:42-44 | one turn of the stop loop advances the stop sequence by one name |
| Registry.EmulatorRegistry.StopAll | lib/emulator/registry.js:40-46 | `stopAll` stops the running names in `listRunning` order and gives up at the first stop that throws |
| Controller.Selected | lib/emulator/controller.js:94-97 | an emulator is in its one-element plan exactly when `shouldStart` holds for it |
| Controller.StartPlanOrdered | lib/emulator/controller.js:112-183 | `startAll` launches exactly the targeted emulators, each once, strictly in the order functions, firestore, database, hosting |
| Controller.Difference | lib/emulator/controller.js:107 | `_.difference` keeps exactly the requested names that are not targets, and never grows the list |
| Controller.IgnoredTargets | lib/emulator/controller.js:105-111 | without `--only` nothing is warned about; with it, exactly the comma-separated entries that are not targets are |
| Controller.RulesArg | lib/emulator/controller.js:128-140 | a falsy rules setting means default rules; a truthy non-text setting makes `path.join` throw; a text setting is joined to the project root and used iff that file exists |
| Controller.PlannedInstanceShape | lib/emulator/controller.js:112-183 | each block builds an instance of its own emulator at the address `getAddress` gives, failing first on a bad address; only firestore and database get the project id and `auto_download` |
| Controller.DatabaseWiring | lib/emulator/controller.js:153-157 | the database emulator gets the functions emulator's host and port iff functions is a target, and then exactly the functions address |
| Controller.PlannedRules | lib/emulator/controller.js:128-170 | only the firestore and database emulators get `args.rules`, and only when the configured file exists under the project root |
| Controller.StoppingLines | lib/emulator/controller.js:86-87 | one "Stopping" bullet per running emulator |
| Controller.CleanShutdown | lib/emulator/controller.js:83-92 | stops the running emulators in `listRunning` order, logging one bullet before each stop, and resolves to `true`; a stop that throws ends the shutdown with its error, with exactly the emulators before it removed |
| Controller.StopEach | lib/emulator/controller.js:86-91 | stopping the names in order ends, like the stop sequence, with the registry and calls it prescribes, passing only when every stop was tried |
| Controller.ShutdownOfNothing | lib/emulator/controller.js:86-90 | with nothing running a shutdown stops nothing and succeeds |
| Controller.StartEmulator | lib/emulator/controller.js:59-81 | a port that is not free shuts every emulator down and rejects with "port taken" without starting anything; a free port hands the instance to the registry, which records it only if it was not running and its start and wait succeed, leaving the clock where the wait ended |
| Controller.StartTarget | lib/emulator/controller.js:112-183 | an untargeted block does nothing; a block whose arguments cannot be built fails before starting anything; a block that succeeds started and recorded exactly its planned instance; it succeeds iff the emulator is untargeted, or its arguments build, it is not running, its own start does not throw, its port is free when checked and the wait then sees the port taken |
| Controller.InstallSpec | lib/emulator/controller.js:112-183 | after the blocks run, an emulator is registered iff it was before or it was started; started ones hold their planned instance, and other entries are unchanged |
| Controller.Options.constructor | lib/emulator/controller.js:101-102 | the options hold the given targets |
| Controller.StartPlanned | lib/emulator/controller.js:112-183 | a targeted block whose arguments were built succeeds iff its emulator is not running, its own start does not throw, its port is free when checked and the wait then sees the port taken; on success the instance is recorded, one start call is made, and the clock is where the wait ended |
| Controller.StartNext | lib/emulator/controller.js:112-183 | one block keeps the run's starts a prefix of the plan and, on success, extends the run by its own emulator; it succeeds exactly when its block's start condition holds at the current registry and clock |
| Controller.StartTargets | lib/emulator/controller.js:112-183 | the four blocks start a prefix of the plan, stop at the first failure, and on success have started and recorded the whole plan; they succeed iff every block's start condition holds, each evaluated at the registry and clock the earlier blocks left |
| Controller.ConnectSequenceOutcome | lib/emulator/controller.js:184-190 | the connect pass succeeds iff no `connect` throws; it connects the running emulators up to and including the first that throws, in order, and reports that one |
| Controller.ConnectStep | lib/emulator/controller.js:186-189 | one turn of the connect loop advances the connect sequence by one emulator |
| Controller.ConnectAll | lib/emulator/controller.js:184-190 | the connect loop calls `connect` on the running emulators in `listRunning` order and stops at the first that throws |
| Controller.ConnectStarted | lib/emulator/controller.js:184-190 | after the planned starts, the connect pass succeeds iff no running emulator's `connect` throws, and a successful pass connected every running emulator in `listRunning` order |
| Controller.StartAll | lib/emulator/controller.js:99-192 | succeeds exactly when every block starts its emulator and no started emulator's `connect` throws; records the targets in the options and warns about ignored `--only` names; starts only a prefix of the plan; a successful run made exactly the planned starts, then one connect per running emulator, and registered each planned emulator's instance |
| Server.EmulatorServer.constructor | lib/emulator/emulatorServer.js:16-18 | the server wraps the given instance, which `get` then returns |
| Server.EmulatorServer.Start | lib/emulator/emulatorServer.js:19-28 | a port that is not free rejects with "Port N is not open" and leaves the registry and the machine untouched; a free port starts the instance through the registry |
| Server.EmulatorServer.Connect | lib/emulator/emulatorServer.js:29-33 | forwards one `connect` call to the instance and reports its failure |
| Server.EmulatorServer.Stop | lib/emulator/emulatorServer.js:34-38 | stops the registry entry filed under the instance's name; no other entry changes |
| EmulatorsExec.ScriptResult | lib/commands/emulators-exec.js:48-71 | a spawn error or an exit by signal rejects; otherwise the script resolves to its exit code, with `null` read as 0 |
| EmulatorsExec.ScriptSucceedsIff | lib/commands/emulators-exec.js:54-70 | the script counts as successful exactly when it exits without a signal and with code 0 or none |
| EmulatorsExec.RunScript | lib/commands/emulators-exec.js:24-73 | the script's environment is the process environment plus the database address when the database emulator runs and both firestore variables, holding the same address, when the firestore emulator runs; nothing else changes |
| EmulatorsExec.AfterShutdown | lib/commands/emulators-exec.js:81-99 | after a clean shutdown the action succeeds iff the emulators started and the script exited with 0; a start error is rethrown; a nonzero code becomes an error carrying it |
| EmulatorsExec.ShutdownEmptiesIff | lib/emulator/controller.js:83-92 | a shutdown empties the registry exactly when it succeeds, and always when no stop throws |
| EmulatorsExec.Exec | lib/commands/emulators-exec.js:81-99 | whatever happens, the emulators are shut down; a shutdown error replaces any earlier one; success means the registry is empty, the emulators started and the script exited with 0; the start counted as successful is exactly `startAll`'s success condition, and after a successful start the shutdown is the stop sequence over the started registry |
| FunctionsShell.TriggerNames | lib/emulator/functionsEmulatorShell.js:14-16 | the emulated functions are the triggers' names, one per trigger, in order |
| FunctionsShell.UrlsOfSpec | lib/emulator/functionsEmulatorShell.js:18-23 | there is a URL exactly for the names of HTTPS triggers, built from the host, port, project and the region of the last HTTPS trigger of that name |
| FunctionsShell.FunctionsEmulatorShell.constructor | lib/emulator/functionsEmulatorShell.js:10-24 | the shell keeps the emulator's triggers, lists their names, and its loop builds exactly the URL table of the HTTPS triggers |
| FunctionsShell.FunctionsEmulatorShell.GetTrigger | lib/emulator/functionsEmulatorShell.js:48-56 | returns the first trigger with the name, and fails with "Could not find trigger" exactly when none has it |
| FunctionsShell.FindByName | lib/emulator/functionsEmulatorShell.js:49-51 | `find` stops at the first trigger with the name; every earlier trigger has another name |
| FunctionsShell.LiftResource | lib/emulator/functionsEmulatorShell.js:33-36 | an object resource with a truthy `name` is replaced by that name; any other resource passes through unchanged; `null` throws |
| FunctionsShell.LiftResourceIdempotent | lib/emulator/functionsEmulatorShell.js:33-36 | a resource named by a string lifts to that string, and lifting the string again changes nothing |
| FunctionsShell.CallSpec | lib/emulator/functionsEmulatorShell.js:25-47 | a call builds an event exactly for a known background trigger and a non-null resource; an unknown name and a non-background trigger fail with their messages; the event carries the trigger's type and the caller's params, auth and data unchanged |
| FunctionsRuntime.IsFeatureEnabled | lib/emulator/functionsEmulatorRuntime.js:28-30 | a feature is off exactly when a truthy `disabled_features` marks it with a truthy value |
| FunctionsRuntime.AllEnabledByDefault | lib/emulator/functionsEmulatorRuntime.js:28-30 | without `disabled_features`, or with an empty one, every feature is on |
| FunctionsRuntime.VersionParts | lib/emulator/functionsEmulatorRuntime.js:189-191 | after the two pushes there are always at least three parts to read |
| FunctionsRuntime.VersionPartsOf | lib/emulator/functionsEmulatorRuntime.js:189-191 | a version of one, two or three dot-free pieces yields those pieces, padded with "0" |
| FunctionsRuntime.ParseVersionOfParts | lib/emulator/functionsEmulatorRuntime.js:192-196 | major, minor and patch are `parseInt` of the first three parts |
| FunctionsRuntime.ParseVersionPads | lib/emulator/functionsEmulatorRuntime.js:188-197 | an absent or empty version is 0.0.0, and missing minor or patch parts read as 0 |
| FunctionsRuntime.ParseVersionFull | lib/emulator/functionsEmulatorRuntime.js:188-197 | a version written as three numbers parses back to those three numbers |
| FunctionsRuntime.ResolveModule | lib/emulator/functionsEmulatorRuntime.js:119-146 | without a package.json it throws; a module is declared iff a dependency or dev dependency names it truthily, installed iff also resolvable, and then carries the resolved version |
| FunctionsRuntime.PassesIffAcceptable | lib/emulator/functionsEmulatorRuntime.js:155-167 | a resolved module passes the three checks exactly when it is declared, installed and its major version is not below the minimum |
| FunctionsRuntime.VerifyIff | lib/emulator/functionsEmulatorRuntime.js:153-169 | the loop rejects exactly without a package.json, and answers true exactly when every bundle is acceptable |
| FunctionsRuntime.VerifyDeveloperNodeModules | lib/emulator/functionsEmulatorRuntime.js:147-171 | the loop over firebase-admin 8 and firebase-functions 3 answers false at the first module that is undeclared, uninstalled or too old |
| FunctionsRuntime.DeveloperModulesIff | lib/emulator/functionsEmulatorRuntime.js:149-152 | the check passes exactly when firebase-admin (at least 8) and firebase-functions (at least 3) are both acceptable |
| FunctionsRuntime.HttpsMethodName | lib/emulator/functionsEmulatorRuntime.js:285-288 | `_onRequestWithOptions` is chosen exactly when major is at least 3 and minor at least 1, compared separately |
| FunctionsRuntime.HttpsMethodNameMajorFour | lib/emulator/functionsEmulatorRuntime.js:285-288 | as written, 4.0.0 picks `_onRequestWithOpts` while 3.1.0 picks `_onRequestWithOptions` |
| FunctionsRuntime.HttpsMethodNameByRelease | lib/emulator/functionsEmulatorRuntime.js:285-288 | `_onRequestWithOptions` is chosen exactly for releases at or after 3.1, compared as a pair |
| FunctionsRuntime.HttpsMethodNameByReleaseMonotone | lib/emulator/functionsEmulatorRuntime.js:285-288 | a later release never falls back to the older method, and for 3.x and below the corrected choice agrees with the code |
| FunctionsRuntime.ProcessBackground | lib/emulator/functionsEmulatorRuntime.js:543-557 | the function receives the event's `data`; a truthy `context` is its context (an object one with its resource lifted to the name, any other value unchanged), and without one the event minus `data`, resource lifted, is the context |
| FunctionsRuntime.LiftName | lib/emulator/functionsEmulatorRuntime.js:551-554 | lifting the resource's name keeps the context's set of keys |
| FunctionsRuntime.ProcessBackgroundWithoutContext | lib/emulator/functionsEmulatorRuntime.js:548-550 | without a truthy context, the event minus its `data` is an object context; every property except the resource is the event's own |
| FunctionsRuntime.ProcessBackgroundLiftsName | lib/emulator/functionsEmulatorRuntime.js:550-554 | a context resource that has a name reaches the function as that name |
| FunctionsRuntime.Console.constructor | lib/emulator/functionsEmulatorRuntime.js:560 | `console.log` starts out writing to standard output, with nothing written yet |
| FunctionsRuntime.Console.Log | lib/emulator/functionsEmulatorRuntime.js:561-563 | one call writes one line to the current sink, the messages joined by spaces |
| FunctionsRuntime.Captured | lib/emulator/functionsEmulatorRuntime.js:561-563 | each `console.log` call during a run becomes one user log line holding its messages joined by spaces |
| FunctionsRuntime.Run | lib/emulator/functionsEmulatorRuntime.js:558-577 | while the function runs, its output goes to the emulator's user log, one line per call; afterwards `console.log` is restored and the function's outcome is passed on |
| ServeFunctions.FunctionsArgs.constructor | lib/serve/functions.js:18 | a fresh `args` object has no disabled features, host or port |
| ServeFunctions.FunctionsPort | lib/serve/functions.js:31-39 | a falsy serve port leaves the port as it was; a truthy one is used as is, or plus one when hosting is among the targets |
| ServeFunctions.FunctionsPortAvoidsHosting | lib/serve/functions.js:31-35 | when hosting is served too, the functions emulator never gets the serve port itself |
| ServeFunctions.FunctionsInstance | lib/serve/functions.js:40 | the emulator built is a functions emulator with exactly the given host and port |
| ServeFunctions.FillArgs | lib/serve/functions.js:18-39 | uses the caller's `args` or a fresh object; sets the five default disabled features unless truthy ones are given; a truthy serve host replaces the host; the port follows `FunctionsPort` |
| ServeFunctions.FunctionsServe.constructor | lib/serve/functions.js:15 | the module starts without a server |
| ServeFunctions.FunctionsServe.Start | lib/serve/functions.js:16-43 | fills the arguments, keeps a fresh server wrapping a functions emulator built from them, and starts it: a port that is not free rejects and leaves the registry alone; success registers exactly that instance |
| ServeFunctions.FunctionsServe.Connect | lib/serve/functions.js:44-48 | forwards one `connect` call to the kept server |
| ServeFunctions.FunctionsServe.Stop | lib/serve/functions.js:49-53 | forwards `stop` to the kept server; success removes the functions entry |
| ServeFunctions.FunctionsServe.Get | lib/serve/functions.js:54-56 | returns the kept server's instance, a functions emulator |
| FunctionsDeployHelper.FunctionMatchesGroup | lib/functionsDeployHelper.js:10-14 | a group selects a function exactly when the group's chunks are a prefix of the "-"-chunks of the last "/" segment of its name |
| FunctionsDeployHelper.FilterGroups | lib/functionsDeployHelper.js:20-28 | the groups are exactly the "."-split second parts of the `functions:<name>` entries with a non-empty name, at most one per entry |
| FunctionsDeployHelper.GetFilterGroups | lib/functionsDeployHelper.js:15-29 | a falsy `--only` gives no groups; otherwise the groups of its comma-separated `functions:` entries |
| FunctionsDeployHelper.FilterMatching | lib/functionsDeployHelper.js:35-39 | keeps exactly the names that some group selects, and keeps a duplicate-free list duplicate-free |
| FunctionsDeployHelper.GetReleaseNames | lib/functionsDeployHelper.js:30-40 | without groups the uploaded names unchanged; with groups exactly the uploaded or existing names that some group selects, each once |
| FunctionsDeployHelper.FullNameSegments | lib/functionsDeployHelper.js:87 | a full name built from slash-free parts splits back into its six parts |
| FunctionsDeployHelper.FullNameRoundTrip | lib/functionsDeployHelper.js:105-121 | `getFunctionName`, `getRegion`, the last segment and `getFunctionLabel` recover the name and region a full name was built from |
| FunctionsDeployHelper.ScheduleAndTopicNames | lib/functionsDeployHelper.js:108-115 | the schedule job and topic of a function are built from its project, its name and its region, the job under the App Engine location |
| FunctionsDeployHelper.MatchesFullName | lib/functionsDeployHelper.js:10-14 | on a full name, a group matches iff it is a prefix of the function name's chunks; the name's own chunks always match |
| FunctionsDeployHelper.ParsedTrigger.constructor | lib/functionsDeployHelper.js:76-78 | a parsed trigger holds its name, regions and other properties |
| FunctionsDeployHelper.Snapshot | lib/functionsDeployHelper.js:76-78 | the snapshot lists each trigger's current name, regions and properties, in order |
| FunctionsDeployHelper.RegionRecords | lib/functionsDeployHelper.js:82-90 | one record per region, in region order, each named by the trigger's full name in that region and carrying the trigger's other properties |
| FunctionsDeployHelper.FunctionsInfoCount | lib/functionsDeployHelper.js:76-93 | `getFunctionsInfo` emits exactly one record per trigger and defaulted region |
| FunctionsDeployHelper.FunctionsInfoSound | lib/functionsDeployHelper.js:76-93 | every record is some trigger's record in one of its defaulted regions |
| FunctionsDeployHelper.FunctionsInfoComplete | lib/functionsDeployHelper.js:76-93 | every trigger has a record in each of its defaulted regions; one without regions is deployed to us-central1 |
| FunctionsDeployHelper.DefaultRegions | lib/functionsDeployHelper.js:79-81 | a trigger without regions is given `["us-central1"]` in place; the regions read are the defaulted ones |
| FunctionsDeployHelper.RecordsOf | lib/functionsDeployHelper.js:82-90 | the inner loop pushes exactly the trigger's region records |
| FunctionsDeployHelper.GetFunctionsInfo | lib/functionsDeployHelper.js:76-93 | returns the records of the triggers as they were, and leaves every trigger with its regions defaulted in place |
| FunctionsDeployHelper.GetFunctionTrigger | lib/functionsDeployHelper.js:94-104 | a truthy `httpsTrigger` wins; otherwise an `eventTrigger` is returned as is; otherwise an error value is returned, not thrown |
| FunctionsDeployHelper.PollInterval | lib/functionsDeployHelper.js:122-136 | more than 90 operations are not polled; otherwise the interval is 2, 5 or 10 seconds |
| FunctionsDeployHelper.PollIntervalMonotone | lib/functionsDeployHelper.js:124-136 | more operations never poll more often; the tiers change above 15 and above 40 operations |
| FunctionsDeployHelper.RetryCondition | lib/functionsDeployHelper.js:138-149 | an operation is retried exactly when its error code is 1, 4, 10 or 14 |
| Release.RewriteScheduled | lib/deploy/functions/release.js:88-97 | a scheduled Pub/Sub function keeps its name and gets "/firebase-schedule-<name>-<region>" appended to its event resource; every other record is unchanged |
| Release.ScheduleSuffixOfFullName | lib/deploy/functions/release.js:92-93 | for a deployed function the appended suffix names exactly the function and its region |
| Release.RewriteAll | lib/deploy/functions/release.js:88-97 | the rewrite is applied to each record, in order |
| Release.Names | lib/deploy/functions/release.js:98 | the uploaded names are the records' names, in order |
| Release.RewriteKeepsNames | lib/deploy/functions/release.js:88-98 | the rewrite renames nothing |
| Release.ExistingNames | lib/deploy/functions/release.js:105-108 | the existing names are the existing functions' names, in order |
| Release.ManagedFunctions | lib/deploy/functions/release.js:225-232 | keeps exactly the existing functions the tool manages: by their labels when they have any, otherwise by one of the two legacy source archive URLs |
| Release.ScheduledFunctions | lib/deploy/functions/release.js:109-115 | keeps exactly the existing functions labelled `deployment-scheduled: "true"` |
| Release.NamesOfFiltered | lib/deploy/functions/release.js:112-115 | a name is among the filtered names exactly when a filtered function has it, and then it is an existing name |
| Release.CreateNames | lib/deploy/functions/release.js:119-121 | the names to create have no duplicates |
| Release.UpdateNames | lib/deploy/functions/release.js:160-162 | the names to update have no duplicates |
| Release.DeleteNames | lib/deploy/functions/release.js:225-236 | the names to delete have no duplicates |
| Release.ReleaseSplit | lib/deploy/functions/release.js:116-236 | creations are the released uploaded names that do not exist yet, updates those that do, deletions the managed names no longer uploaded within the deletion scope; no name falls in two of them |
| Release.UnfilteredRelease | lib/deploy/functions/release.js:116-117 | without filter groups, creations and updates together are exactly the uploaded names, and every managed function no longer uploaded is deleted |
| Release.DeploymentTargets | lib/deploy/functions/release.js:125-126 | a queued operation acts on the region and function name its full name was built from |
| Release.FindInfo | lib/deploy/functions/release.js:123 | finds an uploaded record of the name exactly when one exists |
| Release.FirstInfoIndex | lib/deploy/functions/release.js:123 | the position of the first uploaded record with the name: no earlier record has it, and the record there does, unless none does |
| Release.FindInfoFirst | lib/deploy/functions/release.js:123 | `_.find` returns exactly the record at the first position with the name, and nothing when there is none |
| Release.FindExisting | lib/deploy/functions/release.js:171-173 | finds an existing function of the name exactly when one exists |
| Release.FirstExistingIndex | lib/deploy/functions/release.js:171-173 | the position of the first existing function with the name: no earlier one has it, and the one there does, unless none does |
| Release.FindExistingFirst | lib/deploy/functions/release.js:171-173 | `_.find` returns exactly the existing function at the first position with the name, and nothing when there is none |
| Release.ShownUpdateRuntime | lib/deploy/functions/release.js:203-206 | an update reports the truthy runtime choice, else the existing function's runtime, else nodejs6 |
| Release.StorageObjectExamples | lib/deploy/functions/release.js:176-183 | the regular expression matches the new storage event types; an HTTPS function is never a migration; a legacy Pub/Sub function updated to a Pub/Sub trigger is one |
| Release.CreateOp | lib/deploy/functions/release.js:122-157 | a creation is queued under the name with the uploaded record, its trigger, and the runtime choice or the default runtime |
| Release.UpdateOp | lib/deploy/functions/release.js:163-222 | an update throws the legacy-trigger error exactly when it would move a function off a legacy storage or Pub/Sub trigger; otherwise it is queued with the uploaded record and trigger, the runtime sent only when chosen, and the runtime shown falling back on the existing function's |
| Release.UpdateOps | lib/deploy/functions/release.js:160-224 | the update loop considers one operation per name |
| Release.UpdateOpsAt | lib/deploy/functions/release.js:160-224 | the loop's entry for each name is that name's update operation |
| Release.FirstUpdateErrorIsLegacy | lib/deploy/functions/release.js:184-191 | when every name has an uploaded record, the update loop can only stop at a legacy trigger |
| Release.DeleteOp | lib/deploy/functions/release.js:277-330 | a deletion is queued under the name, and it removes the schedule and topic first exactly when the function is scheduled |
| Release.DeleteListLines | lib/deploy/functions/release.js:240-242 | one tab-indented label per function to delete, in order |
| Release.DeleteCommandLines | lib/deploy/functions/release.js:244-249 | one `firebase functions:delete <name> --region <region>` command per function to delete |
| Release.ProceedWithDeletes | lib/deploy/functions/release.js:237-276 | nothing to delete asks nothing; non-interactive without `--force` aborts with the list and the commands; `--force` proceeds; otherwise the answer decides |
| Release.AnswerMattersOnlyWhenPrompted | lib/deploy/functions/release.js:262-269 | without a prompt the answer makes no difference |
| Release.PlanSound | lib/deploy/functions/release.js:87-236 | the three lists are duplicate-free and pairwise disjoint; every name created or updated has an uploaded record; every updated name exists; every deleted name is an existing managed function |
| Release.FunctionsInDeploy | lib/deploy/functions/release.js:335-339 | the schedules are synchronised for every record, or with filter groups only for those within the deletion scope |
| Release.FailedNames | lib/deploy/functions/release.js:358 | one name per rejected call: its `context.function`, or "" |
| Release.PollFailureNames | lib/deploy/functions/release.js:57-59 | one name per operation that failed while polling: its function's short name |
| Release.PollFailureNamesSnoc | lib/deploy/functions/release.js:57-59 | one more failed operation adds its short name at the end |
| Release.CreateOps | lib/deploy/functions/release.js:119-159 | the creation operations for the names, one per name, in order |
| Release.DeleteOps | lib/deploy/functions/release.js:277-331 | the deletion operations for the names, one per name, in order |
| Release.FunctionsTargets | lib/deploy/functions/release.js:377 | each failed name becomes `functions:<name>`, in order |
| Release.ReleaseState.constructor | lib/deploy/functions/release.js:16-17 | the module starts with no deployments and no failures |
| Release.ReleaseState.QueueCreates | lib/deploy/functions/release.js:119-159 | appends exactly the creation of each name, in order, after what was queued before |
| Release.ReleaseState.QueueUpdates | lib/deploy/functions/release.js:160-224 | appends exactly the updates in order up to the first legacy trigger and throws there; it succeeds iff there is none |
| Release.UpdatesUntilLegacy | lib/deploy/functions/release.js:163-223 | the updates for the names in order, up to the first legacy trigger; passes exactly when no trigger is legacy, and otherwise fails with that trigger's error |
| Release.ReleaseState.QueueDeletes | lib/deploy/functions/release.js:277-331 | appends exactly the deletion of each name, in order |
| Release.ReleaseState.Run | lib/deploy/functions/release.js:78-236 | without a functions config nothing is queued; otherwise the queue grows by exactly the creations, then the updates up to the first legacy trigger, then, when every update was queued and the guard lets them, the deletions; the release fails at a legacy trigger or with the guard's error |
| Release.ReleaseState.Execute | lib/deploy/functions/release.js:119-332 | the queue grows by exactly the plan's creations, its updates up to the first legacy trigger, and its deletions when every update was queued and the guard allows; the outcome is the legacy trigger's error, the guard's error, or success |
| Release.ReleaseState.PrintFail | lib/deploy/functions/release.js:57-59 | adds the failed function's short name to the failed list |
| Release.ReleaseState.PollFailures | lib/deploy/functions/release.js:361 | each operation that fails while polling adds its short name, in turn |
| Release.ReleaseState.PrintTooManyOps | lib/deploy/functions/release.js:72-77 | the deployments list is emptied and the failed list is left alone |
| Release.ReleaseState.Report | lib/deploy/functions/release.js:349-383 | stores the names of the rejected calls, then, unless more than 90 operations are handed to the polling, those of the operations that failed while polling, sorted; above 90 the deployments are emptied and nothing is polled, otherwise they are kept; the release rejects exactly when the sorted list is non-empty, and then names every failed function in the redeploy command |
| FunctionsConfig.Replace | lib/functionsConfig.js:11-12 | replacing a character changes exactly its occurrences and keeps the length |
| FunctionsConfig.JoinSplitReplace | lib/functionsConfig.js:11-12 | splitting on "." and joining with "/" replaces every "." by "/" |
| FunctionsConfig.KeyToIds | lib/functionsConfig.js:10-17 | neither id contains "."; a one-part key is the config with an empty variable; otherwise config, "/" and variable spell the key with every "." made "/" |
| FunctionsConfig.KeyToIdsNested | lib/functionsConfig.js:10-17 | `a.b.c` names config `a` and variable `b/c` |
| FunctionsConfig.SetVariable | lib/functionsConfig.js:18-24 | an empty config id or variable path is refused with the two-part-key message; anything else becomes exactly that write |
| FunctionsConfig.BelowChild | lib/functionsConfig.js:65 | a path below a "/"-joined child path is below its parent |
| FunctionsConfig.SetVariablesRecursive | lib/functionsConfig.js:54-70 | every write goes to the given config, which is non-empty, and to a non-empty variable path at or below the starting path |
| FunctionsConfig.SetProperties | lib/functionsConfig.js:63-67 | the writes of an object's properties all go to the given config at non-empty paths below the object's path |
| FunctionsConfig.Sequence | lib/functionsConfig.js:63-67 | a run of expansions fails exactly when one of them is refused, and without a refusal issues all their writes in order |
| FunctionsConfig.SequenceStopsAt | lib/functionsConfig.js:63-67 | the first refused expansion ends the run: only its writes and those before it are issued |
| FunctionsConfig.SetPropertiesSequence | lib/functionsConfig.js:63-67 | an object's properties are expanded in property order, each at its own key below the object's path, up to the first refusal |
| FunctionsConfig.SetVariablesRecursiveCases | lib/functionsConfig.js:54-70 | a leaf is exactly one write at the path, or a failure exactly when `_setVariable` refuses it; an object, or a string that parses to one, is the in-order expansion of its properties at `path/key` (the key alone at the top) |
| FunctionsConfig.IdsToVarName | lib/functionsConfig.js:35-37 | the variable name is "projects/<p>/configs/<c>/variables/<v>" |
| FunctionsConfig.RunEnd | lib/functionsConfig.js:31-32 | the run ends at the first line terminator at or after its start, or at the end |
| FunctionsConfig.LastMarkIn | lib/functionsConfig.js:31 | finds the last "/variables/" in the range, or shows there is none |
| FunctionsConfig.ConfigFromSkip | lib/functionsConfig.js:31 | the config match skips positions without "/configs/" |
| FunctionsConfig.VariableFromSkip | lib/functionsConfig.js:32 | the variable match skips positions without "/variables/" |
| FunctionsConfig.VarNameRoundTrip | lib/functionsConfig.js:29-37 | `varNameToIds(idsToVarName(p, c, v))` gives back c and v for non-empty single-line ids when "/configs/" first occurs after the project and "/variables/" only after the config |
| FunctionsConfig.ConfigCapture | lib/functionsConfig.js:31 | the greedy config capture is the text between the first "/configs/" and the only "/variables/" |
| FunctionsConfig.VariableCapture | lib/functionsConfig.js:32 | the variable capture is the rest of the line after "/variables/" |
| FunctionsConfig.LastMarkOnly | lib/functionsConfig.js:31 | when "/variables/" occurs once, the last occurrence in any range holding it is that one |
| FunctionsConfig.VarNameLayout | lib/functionsConfig.js:35-37 | where the marks and ids sit in a built variable name |
| FunctionsConfig.RunEndAll | lib/functionsConfig.js:31-32 | on a line without terminators the run reaches the end |
| FunctionsConfig.GetAppEngineLocation | lib/functionsConfig.js:38-44 | an absent or empty location is "us-central1"; a location ending in a non-digit gets "1" appended; one ending in a digit is kept; the result always ends in a digit |
| FunctionsConfig.GetAppEngineLocationIdempotent | lib/functionsConfig.js:38-44 | a resolved location resolves to itself |
| FunctionsConfig.ParseSetArg | lib/functionsConfig.js:108-126 | refuses an argument without "=", then a key with an upper-case letter, then a reserved namespace in lower case, each with its message; otherwise the key's ids and everything after the first "=" as the value |
| FunctionsConfig.ParseSetResults | lib/functionsConfig.js:108-127 | one parse result per argument, in order |
| FunctionsConfig.ParseSetArgs | lib/functionsConfig.js:106-129 | the loop returns every argument parsed, in order, or throws the error of the first refused argument |
| FunctionsConfig.UnionAll | lib/functionsConfig.js:133-135 | folding `_.union` over the arguments' comma-separated keys gives no duplicates |
| FunctionsConfig.UniqAppend | lib/functionsConfig.js:134 | deduplicating a prefix first does not change the first-occurrence order |
| FunctionsConfig.UnionAllIsUniq | lib/functionsConfig.js:133-135 | the fold keeps exactly the first occurrence of each key, in order |
| FunctionsConfig.ParseUnsetKey | lib/functionsConfig.js:137-144 | a key is refused exactly when its config is a reserved namespace in lower case; otherwise its ids |
| FunctionsConfig.ParseUnsetResults | lib/functionsConfig.js:136-145 | one result per key, in order |
| FunctionsConfig.ParseUnsetArgs | lib/functionsConfig.js:130-147 | the keys are the distinct comma-separated keys in first-occurrence order; the result is their ids in order, or the error of the first reserved one |
| FunctionsConfig.CollectUnsetKeys | lib/functionsConfig.js:132-135 | the collected keys are the distinct comma-separated keys of all arguments, in first-occurrence order |
| FunctionsConfig.ParseUnsetKeys | lib/functionsConfig.js:136-146 | succeeds exactly when no key is reserved, with each key's ids in order; otherwise fails with the first reserved key's error |
| FunctionsConfigClone.MatchPrefix | lib/functionsConfigClone.js:7-14 | true exactly when the short list is no longer than the long one and is its prefix |
| FunctionsConfigClone.MatchUpTo | lib/functionsConfigClone.js:11-13 | after `n` steps the reduction is true exactly when the first `n` elements agree |
| FunctionsConfigClone.UnsetAll | lib/functionsConfigClone.js:15-19 | unsetting keys keeps an object an object and a non-object a non-object |
| FunctionsConfigClone.ApplyExcept | lib/functionsConfigClone.js:15-19 | the loop leaves the value with each except key unset in turn |
| FunctionsConfigClone.UnsetKeepsAbsent | lib/functionsConfigClone.js:17 | unsetting a path never makes a missing path appear |
| FunctionsConfigClone.ApplyExceptRemoves | lib/functionsConfigClone.js:15-19 | after applying the except keys, each of them reads as undefined |
| FunctionsConfigClone.ApplyExceptKeepsOthers | lib/functionsConfigClone.js:15-19 | a path that parts from every except key reads as before |
| FunctionsConfigClone.CloneVariable | lib/functionsConfigClone.js:20-25 | fails exactly when the variable name cannot be parsed; otherwise writes the text under the parsed config and variable ids |
| FunctionsConfigClone.Selected | lib/functionsConfigClone.js:42-51 | succeeds exactly when every listed name parses; then holds exactly the names whose variable id segments start with the key's remaining parts; a failure names an unparsable listed name |
| FunctionsConfigClone.Matches | lib/functionsConfigClone.js:44-48 | holds exactly the listed names that parse and whose variable id segments start with the key's remaining parts |
| FunctionsConfigClone.FirstUnreadable | lib/functionsConfigClone.js:45 | every listed name before it parses, and the name at it, if any, does not |
| FunctionsConfigClone.SelectedIsMatches | lib/functionsConfigClone.js:42-51 | the selection fails with the first unparsable listed name when there is one, and otherwise holds exactly the matching names |
| FunctionsConfigClone.SelectVariables | lib/functionsConfigClone.js:42-52 | the listing loop selects what the selection function gives, stopping at the first unparsable name; the copies it has started by then are the matching names listed before that name |
| FunctionsConfigClone.SelectedStops | lib/functionsConfigClone.js:44-50 | once a prefix of the listing fails, the whole listing fails with that error |
| FunctionsConfigClone.CloneSelection | lib/functionsConfigClone.js:33-53 | refuses exactly the keys whose first part is in the reserved list, naming that part; a one-part key takes the whole config; a longer key takes the variables matching its remaining parts |
| FunctionsConfigClone.GuardNeverFiresAsWritten | lib/functionsConfigClone.js:35-37 | with the list the module actually reads, which is never assigned, no key is refused |
| FunctionsConfigClone.ReservedClonedAsWritten | lib/functionsConfigClone.js:35-37 | as written, `--only firebase` clones the whole reserved config |
| FunctionsConfigClone.GuardCorrected | lib/functionsConfigClone.js:35-37 | with the reserved namespaces of the config helpers, exactly the keys in the "firebase" namespace are refused |
| FunctionsConfigClone.Started | lib/functionsConfigClone.js:33-53 | a refused key starts no copy, a one-part key starts a copy of every variable of its config, and a longer key starts copies of the matching names listed before the first unparsable one |
| FunctionsConfigClone.StartedOnSuccess | lib/functionsConfigClone.js:33-53 | when a key's selection succeeds, the copies started are exactly the variables it selects |
| FunctionsConfigClone.CloneConfigOrVariable | lib/functionsConfigClone.js:33-53 | the method selects what the selection gives with the list the guard actually reads, so it never refuses a key, and it reports the copies it started even when the listing throws |
| FunctionsConfigClone.VariableWrites | lib/functionsConfigClone.js:26-31 | no failure exactly when every selected name parses, and then the writes are the copy of each selected variable, in listing order; a failure names a selected name that does not parse |
| FunctionsConfigClone.CloneOnly | lib/functionsConfigClone.js:56-60 | for any reserved list the guard reads: a key refused by it makes the clone fail, and a clone without failure had every key's selection succeed |
| FunctionsConfigClone.CloneOnlySingle | lib/functionsConfigClone.js:56-60 | a single key whose selection succeeds clones exactly the variables it selects |
| FunctionsConfigClone.CloneOnlySingleUnreadable | lib/functionsConfigClone.js:42-60 | a single key whose listing holds an unparsable name fails with that name, yet copies each matching variable listed before it, in order |
| FunctionsConfigClone.CloneOnlyFirebaseAsWritten | lib/functionsConfigClone.js:54-60 | as written, `--only firebase` copies every variable of the reserved config |
| FunctionsConfigClone.CloneOnlyCorrected | lib/functionsConfigClone.js:35-37 | with the evidently intended guard, an `--only` key in the "firebase" namespace always makes the clone fail |
| FunctionsConfigClone.CloneConfigs | lib/functionsConfigClone.js:64-66 | every write goes to one of the configs left to clone |
| FunctionsConfigClone.CloneConfigsSequence | lib/functionsConfigClone.js:64-66 | the configs left to clone are expanded in order, each from the empty path, up to the first refusal |
| FunctionsConfigClone.CloneSkipsFirebase | lib/functionsConfigClone.js:61-66 | without `--only`, nothing is written to the "firebase" config |
| FunctionsConfigClone.UnsetAllKeepsAbsent | lib/functionsConfigClone.js:62-63 | unsetting several keys never makes a missing path appear |
| FunctionsConfigClone.Clone | lib/functionsConfigClone.js:54-68 | the clone follows `--only` when given, with the guard as written (which refuses nothing), and otherwise copies the materialized configs minus "firebase" and the except keys |
| Rc.PrototypeTypeAcceptedAsWritten | lib/rc.js:51 | the type test as written lets "constructor" through, though it is no target type |
| Rc.TargetTypeCorrected | lib/rc.js:11-15 | the corrected test accepts exactly storage, database and hosting, each of which the test as written accepts too |
| Rc.TargetListOf | lib/rc.js:47-49 | a target's list is the list stored under its name among the targets of its project and type |
| Rc.FirstOwner | lib/rc.js:94-98 | the loop finds a listed target that holds the resource, or shows that none of them does |
| Rc.FirstOwnerFirst | lib/rc.js:94-98 | the target the loop returns is the first listed one holding the resource: no earlier one holds it |
| Rc.FindTarget | lib/rc.js:92-100 | no result exactly when no target of the type holds the resource; otherwise the first target, in key order, that holds it |
| Rc.FindTargetExclusive | lib/rc.js:92-100 | when each resource has one target, the lookup names the target holding it |
| Rc.Without | lib/rc.js:103-105 | the filtered list holds exactly the other members |
| Rc.UnsetResOwns | lib/rc.js:101-112 | taking a resource out of a target changes ownership of that one pair only |
| Rc.UnsetResource | lib/rc.js:101-112 | the data stays an object exactly when it was one |
| Rc.UnsetResourceTargets | lib/rc.js:101-112 | on the targets of the type, the operation shortens the list or removes the emptied target |
| Rc.UnsetTargetResourceEffect | lib/rc.js:101-112 | the resource leaves the target, a target left empty is deleted, and no other ownership changes |
| Rc.MoveAll | lib/rc.js:61-67 | the loop keeps the data an object exactly when it was one |
| Rc.MergedList | lib/rc.js:68-69 | the stored list is sorted, has no duplicates, and holds exactly the old members and the new resources |
| Rc.OwnsKey | lib/rc.js:94-95 | a target that holds a resource is one of the keys of the targets |
| Rc.MoveAllSnoc | lib/rc.js:61-67 | the loop over one more resource is the loop followed by one step |
| Rc.MoveStepEffect | lib/rc.js:62-66 | one step only removes ownership, leaves the named target alone, and reports the target it took the resource from |
| Rc.MoveStepClears | lib/rc.js:62-66 | with one target per resource and none named "" holding it, one step leaves the resource in no target but the named one |
| Rc.MoveAllMoved | lib/rc.js:60-67 | the loop only removes resources from other targets and reports each move with the target that held the resource |
| Rc.ShrinkExclusive | lib/rc.js:60-67 | targets that only lose resources keep one target per resource |
| Rc.MoveAllClears | lib/rc.js:60-67 | with one target per resource and no target named "", the loop leaves every given resource in no target but the named one |
| Rc.ApplyTargetList | lib/rc.js:68-70 | after `applyTarget` the target's list is sorted, duplicate-free, and holds exactly its old members and the new resources |
| Rc.NotMerged | lib/rc.js:60-70 | a resource another target still holds is neither an old member of the named target nor a new resource |
| Rc.ApplyTargetExclusive | lib/rc.js:50-73 | with one target per resource and no target named "", `applyTarget` keeps one target per resource and every new resource ends up in the named target |
| Rc.ApplyTargetChanges | lib/rc.js:60-72 | every reported change names one of the new resources and the other target that held it |
| Rc.RC.constructor | lib/rc.js:16-19 | keeps the path; missing or falsy data becomes an empty object |
| Rc.RC.Set | lib/rc.js:21-23 | the data gets the value at the key path |
| Rc.RC.Unset | lib/rc.js:24-26 | the key path is removed from the data |
| Rc.RC.Get | lib/rc.js:27-29 | the value at the key path, or the fallback when there is none |
| Rc.RC.AddProjectAlias | lib/rc.js:30-33 | the alias is recorded under `projects` |
| Rc.RC.RemoveProjectAlias | lib/rc.js:34-37 | the alias is removed from `projects` |
| Rc.RC.HasProjects | lib/rc.js:38-40 | true exactly when `projects` is present with a positive size |
| Rc.RC.Projects | lib/rc.js:41-43 | the alias table, or an empty object when absent |
| Rc.RC.Targets | lib/rc.js:44-46 | the targets of a project and type, or an empty object when absent |
| Rc.RC.Target | lib/rc.js:47-49 | the target's resource list, empty when the target is absent |
| Rc.RC.FindTargetOf | lib/rc.js:92-100 | no result exactly when no target holds the resource; otherwise the first target, in key order, holding it |
| Rc.RC.UnsetTargetResource | lib/rc.js:101-112 | the data becomes the data with the resource taken out of that target |
| Rc.RC.MoveResource | lib/rc.js:62-66 | one loop step of `applyTarget`, reporting the move it made |
| Rc.RC.ApplyTarget | lib/rc.js:50-73 | a type the `TARGET_TYPES` lookup does not find is refused without change (inherited names such as "constructor" are found); otherwise the resources move out of other targets, the merged list is stored, and the moves are returned |
| Rc.RC.MoveResources | lib/rc.js:60-67 | the data and the reported moves after the loop are those of the move specification applied to each resource in turn |
| Rc.RC.RemoveTarget | lib/rc.js:74-82 | returns the target that held the resource after taking it out; none and no change when no target (or only one named "") holds it |
| Rc.RC.ClearTarget | lib/rc.js:83-91 | true exactly when the target had resources, and then the target is removed; otherwise no change |
| Rc.RC.RequireTarget | lib/rc.js:113-127 | refuses exactly an empty target, naming project, type and target; otherwise the target's list |
| ResponseToError.ErrorText | lib/responseToError.js:29 | a string error is reported as is; an error object with a non-empty string message reports that message |
| ResponseToError.ResponseToError | lib/responseToError.js:4-46 | no error exactly below status 400; a primitive or null body after parsing throws; otherwise the message is "HTTP Error: <status>, " plus the error text, the exit code is 2 from status 500 and 1 below, the response loses `request.headers`, and an object body carries a truthy `error` |
| ResponseToError.TextBodyNotFound | lib/responseToError.js:5-11 | a 404 with a text body always reports "HTTP Error: 404, Not Found" |
| ResponseToError.PrefixNotFound | lib/responseToError.js:29 | the message prefix of a 404 is "HTTP Error: 404, ", and with the default "Not Found" text it makes "HTTP Error: 404, Not Found" |
| ResponseToError.MissingErrorDefault | lib/responseToError.js:23-28 | an object body without a truthy `error` reports "Not Found" on a 404 and "Unknown Error" otherwise |
| ResponseToError.ErrorStringReported | lib/responseToError.js:29 | a body whose `error` is a non-empty string reports that string |
| ResponseToError.ErrorMessageReported | lib/responseToError.js:29 | a body whose `error.message` is a non-empty string reports that message |
| ResponseToError.NoCrashOnObjects | lib/responseToError.js:15-22 | an object, list or absent body, or text that does not parse or parses to an object, always yields an error |
| Api.Pairs | lib/api.js:63 | one `key=value` pair per entry, in order |
| Api.AppendQueryData | lib/api.js:60-66 | absent or empty data leaves the path as is; otherwise the query follows after "&" when the path has a "?" and after "?" when it has none |
| Api.AppendQueryDataSplits | lib/api.js:60-66 | the path and the query can be read back from the result, which always has a "?" |
| Api.NormalMethod | lib/api.js:134-137 | the method is always one of the five valid ones, and a valid one is kept |
| Api.BuildRequest | lib/api.js:127-161 | applies the defaults; a GET carries its data in the URL with no body or form; another method sends non-empty data as the body, or else a non-empty form; the other options pass through |
| Api.GetCarriesDataInUrl | lib/api.js:144-146 | a GET's data follows the resource in the URL, and there is no body |
| Api.RequestHeaders | lib/api.js:119-126 | sets the user agent, the client version and the bearer token, and keeps every other header |
| Api.SentHeaders | lib/api.js:25-26 | adds `connection: keep-alive` and keeps every other header |
| Api.Settle | lib/api.js:27-47 | a transport error rejects as a server error with exit 2; a response resolves exactly when its status is below 400, the body is skipped or HTTP errors resolve; otherwise it rejects with exactly the error `responseToError` raises, carrying the status, except that it crashes exactly when that body is null or a primitive |
| Api.RequestResult | lib/api.js:162-180 | one attempt, or exactly two when the first is rejected with a status listed in `retryCodes`, and then the second attempt's outcome |
| Api.SkipBodyNeverRejectsOnStatus | lib/api.js:36-46 | with the response body skipped, any response resolves on the first attempt |
| Api.TransportErrorNotRetried | lib/api.js:172-180 | a transport error is never retried |
| Api.UniqKeepsPrefix | lib/api.js:106-111 | deduplicating a longer list keeps the deduplicated prefix in front |
| Api.ApiState.constructor | lib/api.js:11-13 | no tokens and no scopes at first |
| Api.ApiState.SetRefreshToken | lib/api.js:96-98 | sets the refresh token only |
| Api.ApiState.SetAccessToken | lib/api.js:99-101 | sets the access token only |
| Api.ApiState.SetScopes | lib/api.js:105-113 | the scopes become the base scopes followed by the given ones, deduplicated; nothing else changes |
| Api.ApiState.TokenFor | lib/api.js:114-118 | a set, non-empty access token is used; without one, or with an empty one, the token the auth module returns |
| Api.ScopesShape | lib/api.js:105-111 | the stored scopes start with the four base scopes, have no duplicates, and hold exactly the base and the given scopes |
| EmulatorLogger.Log | lib/emulator/emulatorLogger.js:20-45 | a suppressed message goes to the debug log as "<TYPE>: <text>"; any other is emitted with its text unchanged to its type's sink: DEBUG to the debug log, INFO and USER to the info log, BULLET, WARN and SUCCESS to the bullet, warning and success helpers |
| EmulatorLogger.LogLabeled | lib/emulator/emulatorLogger.js:46-62 | a suppressed message goes to the debug log as "[<label>] <text>"; otherwise only bullets, successes and warnings are emitted: a bullet as a labelled bullet, a success as a labelled success, a warning as a labelled warning, each with the label and the text |
| EmulatorLogger.DefaultShowsAll | lib/emulator/emulatorLogger.js:63-69 | at the default verbosity no type is suppressed |
| EmulatorLogger.QuietShowsUserAndWarn | lib/emulator/emulatorLogger.js:5-18 | at QUIET exactly USER and WARN messages are shown |
| EmulatorLogger.SuppressionMonotone | lib/emulator/emulatorLogger.js:63-66 | raising the verbosity never shows a type that was suppressed |
| EmulatorLogger.SuppressedGoesToDebug | lib/emulator/emulatorLogger.js:21-23 | a suppressed message always goes to the debug log, labelled or not |
| GetProjectId.AliasLines | lib/getProjectId.js:13-15 | one line per alias, in order: two spaces, the alias, and its project in parentheses |
| GetProjectId.GetProjectId | lib/getProjectId.js:5-28 | succeeds exactly when a project is given or an absent one is allowed, returning it; otherwise the no-project error with exit 1 when there are no aliases, or the listing of the aliases |
| GetProjectId.AliasesListed | lib/getProjectId.js:11-21 | every alias appears with its project in the error that lists them |
| DeployIndex.PhasesSnoc | lib/deploy/index.js:39-56 | collecting one more name adds its hooks and whichever of prepare, deploy and release its target defines, or stops at a name the lookup does not find |
| DeployIndex.PhasesHooks | lib/deploy/index.js:45-55 | every target contributes its predeploy and postdeploy hooks, in the order of the names |
| DeployIndex.PhasesSteps | lib/deploy/index.js:46-54 | a target's prepare, deploy and release are collected exactly when its module defines them, each into its own phase |
| DeployIndex.CollectPhases | lib/deploy/index.js:34-56 | the loop collects the phase lists of the names, with the target lookup as written (the five targets and the names every object inherits), or returns the error of the first name it does not find |
| DeployIndex.TargetCaps | lib/deploy/index.js:41-54 | an inherited name defines no prepare, deploy or release |
| DeployIndex.PhasesErrStays | lib/deploy/index.js:42-44 | once a name is unknown, further names do not change the error |
| DeployIndex.PhasesValid | lib/deploy/index.js:39-44 | the phases are collected exactly when the lookup finds every name |
| DeployIndex.PhasesErrFirst | lib/deploy/index.js:39-44 | the error names the first name the lookup does not find |
| DeployIndex.InheritedTargetHooksOnly | lib/deploy/index.js:41-55 | as written, "constructor" passes the lookup and contributes only its two lifecycle hooks |
| DeployIndex.TargetLookupCorrected | lib/deploy/index.js:11-17 | with the intended lookup the phases are collected exactly when every name is one of the five targets, and then they are the ones the lookup as written collects |
| DeployIndex.InheritedTargetRefusedCorrected | lib/deploy/index.js:41-44 | the intended lookup refuses "constructor" |
| DeployIndex.PhasesAgree | lib/deploy/index.js:39-56 | on names that are real targets the two lookups collect the same phases |
| DeployIndex.ChainStops | lib/deploy/index.js:21-29 | a chain resolves after running every function exactly when none rejects; otherwise it runs the functions up to and including the first that rejects, and no more |
| DeployIndex.ChainThen | lib/deploy/index.js:61-73 | chaining one list and then, if it resolved, another is chaining the two lists joined |
| DeployIndex.RunPhasesIsChain | lib/deploy/index.js:61-73 | running the phases one after another is one chain over all their steps |
| DeployIndex.RunDeploy | lib/deploy/index.js:30-91 | fails with the project error exactly when no project is given; with a project, is refused exactly when the target lookup as written misses a name; on success reports hosting exactly when hosting was deployed, as one version or the list of them |
| DeployIndex.DeployRunsPhasesInOrder | lib/deploy/index.js:61-90 | what ran is the prefix, up to the first failure, of the predeploy, prepare, deploy, release and postdeploy steps in that order, and the deploy completes exactly when nothing failed |
| DeployIndex.FlattenFive | lib/deploy/index.js:61-73 | the five phase lists in order make up all the steps |
| DeployIndex.InvalidRunsNothing | lib/deploy/index.js:42-44 | a name the target lookup does not find stops the deploy before any phase runs |
| DeployIndex.InheritedTargetDeploys | lib/deploy/index.js:39-90 | as written, deploying "constructor" completes after running only its two hooks, when neither fails |
| RulesDeploy.FirstLetter | lib/RulesDeploy.js:112 | the first letter of the severity, or nothing for an empty one |
| RulesDeploy.IssuesPartitioned | lib/RulesDeploy.js:110-125 | every issue becomes exactly one error line or one warning line |
| RulesDeploy.NoErrorsIffNoErrorIssue | lib/RulesDeploy.js:119-124 | there are no error lines exactly when no issue has severity ERROR |
| RulesDeploy.ErrorsMarked | lib/RulesDeploy.js:111-121 | every error line starts with "[E] " |
| RulesDeploy.CompileMessageWording | lib/RulesDeploy.js:132-133 | one error is reported as "Compilation error in", more as "Compilation errors in" |
| RulesDeploy.CompileMessageListsErrors | lib/RulesDeploy.js:133 | every error line appears in the compilation message |
| RulesDeploy.ClassifyIssues | lib/RulesDeploy.js:108-125 | the loop puts the lines of ERROR issues into the errors and all others into the warnings, in order |
| RulesDeploy.CompileRuleset | lib/RulesDeploy.js:101-143 | logs the warning lines, and rejects with exit code 1 and the compilation message exactly when some issue is an error |
| RulesDeploy.UnreleasedMembers | lib/RulesDeploy.js:75-76 | the unreleased rulesets are exactly those of the history no release points at |
| RulesDeploy.Reverse | lib/RulesDeploy.js:77 | the reversed list has the same length, with the elements in the opposite order |
| RulesDeploy.GcEntriesFromEnd | lib/RulesDeploy.js:77 | at most ten rulesets are chosen: the last unreleased ones of the history, from the last backwards |
| RulesDeploy.GcEntriesUnreleased | lib/RulesDeploy.js:75-77 | no released ruleset is chosen for deletion |
| RulesDeploy.Names | lib/RulesDeploy.js:78-81 | the names of the rulesets, in order |
| RulesDeploy.FirstDeleteFailure | lib/RulesDeploy.js:78-81 | every deletion before the found index succeeds and the deletion at it fails |
| RulesDeploy.DeleteOldest | lib/RulesDeploy.js:78-81 | the loop deletes the chosen rulesets in order, stopping at the first deletion that fails |
| RulesDeploy.AfterUploadError | lib/RulesDeploy.js:58-88 | the original error is rethrown unless the status is 429, the history exceeds 1000 rulesets and deletion is confirmed; a retry follows the deletion of exactly the chosen rulesets |
| RulesDeploy.RetryDeletesFewUnreleased | lib/RulesDeploy.js:58-84 | a retry never follows the deletion of more than ten rulesets, and never of a released one |
| RulesDeploy.UploadsRecorded | lib/RulesDeploy.js:52-57 | a file whose upload succeeds has the returned ruleset name recorded; names of other files stay as they were |
| RulesDeploy.CreatedIffAllUploaded | lib/RulesDeploy.js:50-58 | an attempt succeeds exactly when every upload succeeds |
| RulesDeploy.RulesDeploy.constructor | lib/RulesDeploy.js:24-30 | keeps the project and type, with no files and no ruleset names |
| RulesDeploy.RulesDeploy.AddFile | lib/RulesDeploy.js:31-42 | a read failure throws "Error reading rules file <path>" without change; otherwise the path's entry becomes the one file read and nothing else changes |
| RulesDeploy.RulesDeploy.Compile | lib/RulesDeploy.js:43-49 | rejects exactly when some file has an issue of severity ERROR, and then with the compile message (exit 1) of the first such file in file order |
| RulesDeploy.RulesDeploy.UploadAll | lib/RulesDeploy.js:51-57 | records the name of every successful upload and reports the first failure in file order |
| RulesDeploy.RulesDeploy.CreateRulesets | lib/RulesDeploy.js:50-89 | one attempt: uploads every file, then succeeds, rethrows, or deletes the chosen rulesets before a retry |
| ServeCommand.Heads | lib/commands/serve.js:19-21 | one name per entry: the part before its first ":" |
| ServeCommand.FilterOnly | lib/commands/serve.js:16-23 | an absent or empty `--only` selects nothing |
| ServeCommand.FilterOnlySelects | lib/commands/serve.js:16-23 | only members of the list are selected, none twice; with `--only` set, a member is selected exactly when some entry names it before its ":" |
| ServeCommand.SkipsChecksIff | lib/commands/serve.js:33-37 | the project checks are skipped exactly when `--only` is set and names neither hosting nor functions |
| ServeCommand.ServeOptions.constructor | lib/commands/serve.js:43-59 | keeps `--only` and the project directory, with no targets yet |
| ServeCommand.ServeOptions.Action | lib/commands/serve.js:43-59 | the emulators `--only` names become the targets when there are any; otherwise a notice names the project directory, or the working directory when there is none, and the filtered targets are served |
| FirestoreDelete.AllCollectionsFirst | lib/commands/firestore-delete.js:9-15 | with `--all-collections` the question depends on the project alone and mentions "THE ENTIRE DATABASE" |
| FirestoreDelete.DocumentQuestion | lib/commands/firestore-delete.js:16-32 | otherwise the question is about a document exactly when the path is a document path |
| FirestoreDelete.RecursiveQuestion | lib/commands/firestore-delete.js:16-32 | a recursive deletion's question mentions the subcollections; a non-recursive one ends right after the path |
| FirestoreDelete.Action | lib/commands/firestore-delete.js:46-78 | no path without `--all-collections` is refused with "Must specify a path."; the question is asked exactly when the command goes on without `--yes`; a refused question aborts with exit 1; a confirmed run deletes the database exactly with `--all-collections` and otherwise runs the delete |

## Left out

- Sockets, timers and processes are not modelled. The port probe is an oracle of port and clock. A sleep only advances the clock. An emulator's own start, stop and connect either succeed or throw, as the world decides. The Java emulator binaries, the functions runtime launch and child processes are not modelled.
- `ALL_EMULATORS` is defined in lib/emulator/types.js, which is not part of this model. It is taken to be the start order: functions, firestore, database, hosting.
- `filterTargets` is not part of this model. The controller and `serve` take its result as a parameter.
- The Firestore emulator's environment variable names are defined in a file that is not part of this model. They are taken to be `FIRESTORE_EMULATOR_HOST` and `FIREBASE_FIRESTORE_EMULATOR_ADDRESS`.
- File watching and file access are inputs, not effects:
  - the database rules watcher's events and the rules file's existence and content;
  - the `.firebaserc` save;
  - reading rules files.
- The HTTP request library, the Cloud Functions, Cloud Scheduler, Pub/Sub, Runtime Config and Rules APIs, and the auth token fetch are not modelled. Their answers are parameters: status codes, listings and upload or deletion outcomes.
- `_fetchTriggerUrls` and the polling itself in `pollDeploys` are network work and are not modelled. The interval and the retry condition are modelled, and the operations the polling reports as failed are a parameter of `Report`, handed to `printFail` in the order given. `Report` takes the number of operations handed to the polling, which decides whether polling happens at all.
- Release.PollFailureNames: a full name without a function segment is recorded as the text "undefined". JavaScript would push `undefined`, which `sort` places last; the model sorts the text with the other names.
- Logging and terminal styling are not modelled:
  - `logger`, `utils.log*`, `clc`, the deploy timers and `logFilters`;
  - `printSuccess`, and the log lines of `printFail` and `printTooManyOps` (the addition to the failed list and the emptying of the deployments are modelled);
  - the analytics `track` calls.
- Messages keep their text but not their styling. The emulator logger's sinks are named, not written.
- Concurrency is modelled in sequence:
  - `Promise.all` over several operations runs them in list order;
  - its first rejection is taken as the first failure in that order;
  - the release's `promiseAllSettled` fan-out runs as a sequential map.
- In-place mutation of plain objects is modelled on values:
  - `delete proto.data` and the context lift in `ProcessBackground`;
  - `body.error` in `responseToError`;
  - `_.unset` in `_applyExcept`;
  - the resource rewrite in the release.
  Aliasing between those objects and their callers is not captured.
- Library parsers are simplified:
  - `JSON.parse` is a parameter;
  - `url.parse` is reduced to hostname extraction;
  - `parseInt` is reduced to an optional sign, blanks and a decimal digit prefix;
  - `querystring.stringify` joins `key=value` pairs without percent-escaping;
  - lodash paths are key lists, and a dotted string key is split on ".".
- OMaps keep every object's keys in insertion order. JavaScript iterates integer-like keys first, in ascending order, and only then the other keys in insertion order. That first ordering is not modelled.
- The serve options' port is taken to be a number. A string port would make `options.port + 1` in lib/serve/functions.js a string concatenation; that case is not modelled.
- Rc.RC.ApplyTarget: for an inherited type name such as "constructor", the model stores and reads the targets under a key of that name. The inherited properties lodash would meet on that path (`targets.<project>.constructor` is a function) are not modelled.
- `Lower` folds ASCII letters only. Host names and config keys are compared under that folding.
- JSON arrays are modelled as lists of strings where the code reads them as name lists. A target value that is not a list reads as empty.
- `_.extend` with an explicitly `undefined` option is treated like an absent option.
- An array body that carries an `error` property is not modelled in `responseToError`. Arrays never have one in the model.
- The default exit code of `FirebaseError` lives in lib/error.js, which is not part of this model. Errors that do not set one carry no exit code in the model.
- Which of `prepare`, `deploy` and `release` each deploy target module defines is a parameter. The target modules are not part of this model.
- `RulesDeploy.release` is not modelled. It is an API call followed by a log line.
- `createRulesets` is modelled as one attempt. After a garbage collection the model returns a `Retried` outcome, and the recursive retry is left to the caller.
- FirestoreDelete.Action: the question is built from the path as given, whereas the source prints the `FirestoreDelete` object's path, which that class's constructor normalises (lib/firestore/delete.js is not part of this model); the question can therefore spell the path differently from the source's.
- `FirestoreDelete`'s `isDocumentPath` is an input. The `FirestoreDelete` class and its option validation live in lib/firestore/delete.js, which is not part of this model. Prompt answers are inputs.
- `materializeConfig` and `materializeAll` read configs over the network. Their result is a parameter of the clone.
- `getFirebaseConfig` and `ensureApi` are API calls and are not modelled.
- The runtime proxy, module monkey-patching, the express servers and `eval` in the functions runtime are not modelled. Neither is the module resolution behind `verifyDeveloperNodeModules`; its answers are inputs.
- EmulatorsExec.Exec: after a start that fails part-way, the shutdown is stated over the registry and trace that the failed start left, not as a closed function of the inputs.
- FunctionsRuntime.Run: a falsy thrown value is treated like any other error.
- FunctionsConfig.SetVariablesRecursive: a `fuel` bound limits how many strings on one path may be parsed into objects. When it runs out, the expansion counts as a failure, whereas the source would keep going.
- FunctionsConfig.VarNameRoundTrip: the round trip is proved only for non-empty ids without line terminators, where "/configs/" first occurs after the project and "/variables/" only after the config. That is where the source's regular expressions read the ids back.
- FunctionsConfigClone.CloneOnly: its contract states when the clone fails; which writes each key issues is stated by `CloneOnlySingle` and `CloneOnlySingleUnreadable` (with `Started` and `VariableWrites`), not for a list of several keys at once.
- Rc.ApplyTargetExclusive: "one target per resource" is proved only when no target is named "". `findTarget` returns that name, which is falsy, so `applyTarget` would not move the resource out of it.
- Controller.RulesArg: `path.join` is modelled as joining with one "/"; its normalisation (collapsing repeated slashes and resolving `.` and `..` segments) is not, so the path checked and passed on can differ in spelling from the source's.
- Strs.LessEq: compares Unicode code points, whereas JavaScript's default sort compares UTF-16 code units; the orders differ only between characters beyond U+FFFF and those from U+E000 to U+FFFF.
- Rc.MoveAllClears: the same condition on a target named "" applies.

## Findings

| source | as written | input that shows it | evidently intended | confidence | as-written member | corrected member |
|---|---|---|---|---|---|---|
| lib/functionsConfigClone.js:35-37 | The reserved-namespace guard reads this module's own `RESERVED_NAMESPACES` export, which is never assigned, so it never refuses a key | `only = ["firebase"]` clones the whole reserved "firebase" config | Refuse keys in the "firebase" namespace, as the config helpers' reserved list does | not executed | FunctionsConfigClone.CloneOnlyFirebaseAsWritten | FunctionsConfigClone.CloneOnlyCorrected |
| lib/emulator/functionsEmulatorRuntime.js:285-288 | The new https method is chosen when the major version is at least 3 and the minor version is at least 1 | firebase-functions 4.0.0 gets the old "_onRequestWithOpts" | Any release from 3.1 on gets "_onRequestWithOptions" | not executed | FunctionsRuntime.HttpsMethodNameMajorFour | FunctionsRuntime.HttpsMethodNameByRelease |
| lib/rc.js:51 | The target-type test reads `TARGET_TYPES[type]` on an object literal, so inherited names pass | `applyTarget(p, "constructor", t, r)` is not refused | Accept only storage, database and hosting | not executed | Rc.PrototypeTypeAcceptedAsWritten | Rc.TargetTypeCorrected |
| lib/deploy/index.js:41-44 | The target test reads `TARGETS[targetName]` on an object literal, so inherited names pass | `deploy(["constructor"], options)` runs the "constructor" lifecycle hooks and reports "Deploy complete!" | Refuse any name but hosting, database, firestore, functions and storage | not executed | DeployIndex.InheritedTargetDeploys | DeployIndex.InheritedTargetRefusedCorrected |
| lib/emulator/databaseEmulator.js:87-90 | Reporting a failed rules push calls `trim` on the rejection, which only a string has | a refused connection (an `Error` object) or a body `{"error": {"code": 1}}` makes the `catch` throw, so the watcher rejects and never logs "Failed to update rules" | Report every failed push with its text and the two warnings | not executed | DatabaseEmulator.TransportErrorEscapes | DatabaseEmulator.OnRulesChangeCorrected |
