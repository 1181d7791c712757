/**
 * The vocabulary of the emulator suite: the four emulator kinds, addresses,
 * the arguments an emulator instance is built with, and the errors of the
 * lifecycle.
 */
module EmulatorTypes {
  import opened Wrappers

  /** The closed set of emulators the suite can run. */
  datatype Emulator = Functions | Firestore | Database | Hosting

  /** The emulator's name as it appears in configuration and on the command line. */
  function Name(e: Emulator): string
  {
    match e
    case Functions => "functions"
    case Firestore => "firestore"
    case Database => "database"
    case Hosting => "hosting"
  }

  /** The name lookup the other way round. */
  function FromName(s: string): (r: Option<Emulator>)
    ensures r.Some? ==> Name(r.value) == s
    ensures forall e :: Name(e) == s ==> r == Some(e)
  {
    if s == "functions" then Some(Functions)
    else if s == "firestore" then Some(Firestore)
    else if s == "database" then Some(Database)
    else if s == "hosting" then Some(Hosting)
    else None
  }

  /**
   * `ALL_EMULATORS`, the order in which running emulators are listed. The
   * list itself lives in a file outside this model; it is taken to be the
   * start order of the controller.
   */
  const AllEmulators: seq<Emulator> := [Functions, Firestore, Database, Hosting]

  lemma AllEmulatorsComplete()
    ensures forall e :: e in AllEmulators
  {
    forall e: Emulator ensures e in AllEmulators {
      match e
      case Functions => assert AllEmulators[0] == e;
      case Firestore => assert AllEmulators[1] == e;
      case Database => assert AllEmulators[2] == e;
      case Hosting => assert AllEmulators[3] == e;
    }
  }

  /** A port as produced by `parseInt`: a number, or `NaN` for text with no digits. */
  datatype PortValue = PortNum(n: int) | NaN {
    /** JavaScript truthiness: `0` and `NaN` are falsy. */
    predicate Truthy() { PortNum? && n != 0 }
  }

  datatype Address = Address(host: string, port: PortValue)

  /**
   * The argument record an emulator instance is constructed with. Every
   * field is optional, as in the JavaScript object literals.
   */
  datatype EmulatorArgs = EmulatorArgs(
    host: Option<string>,
    port: Option<PortValue>,
    projectId: Option<string>,
    rules: Option<string>,
    functionsEmulatorHost: Option<string>,
    functionsEmulatorPort: Option<PortValue>,
    autoDownload: bool)

  /** An emulator instance: its kind (`getName()`) and its construction arguments. */
  datatype Instance = Instance(name: Emulator, args: EmulatorArgs)

  /** Failures of the lifecycle, one per `FirebaseError` the core throws. */
  datatype EmulatorError =
    | AlreadyRunning(emulator: Emulator)          // `Emulator X is already running!`
    | PortTimeout(port: PortValue, timeoutMs: int) // `TIMEOUT: Port P was not active within Tms`
    | PortTaken(emulator: Emulator)               // `Could not start X emulator, port taken.`
    | PortNotOpen(port: PortValue, emulator: Emulator) // `Port P is not open, could not start X emulator.`
    | StartFailed(emulator: Emulator)             // the instance's own start() threw
    | StopFailed(emulator: Emulator)              // the instance's own stop() threw
    | ConnectFailed(emulator: Emulator)           // the instance's own connect() threw
    | BadConfigValue(key: string)                 // a configured value of the wrong type: a TypeError
}
